/**
 resultBuffer (internal/probe/probe.go): results are drained on read, and a finished batch reclaims
 its own in place. A Go slice is an array and a length, so the question whether a slice handed out
 by Results can be overwritten later is a question about arrays; a result is known by its pointer.
 */
module ResultBuffer {
  import opened Common

  /** The elements of s outside `drop`, in order. */
  function Without<T(==)>(s: seq<T>, drop: set<T>): seq<T> {
    if s == [] then []
    else Without(s[..|s| - 1], drop) + if s[|s| - 1] in drop then [] else [s[|s| - 1]]
  }

  /** The elements of s inside `drop`, in order. */
  function Within<T(==)>(s: seq<T>, drop: set<T>): seq<T> {
    if s == [] then []
    else Within(s[..|s| - 1], drop) + if s[|s| - 1] in drop then [s[|s| - 1]] else []
  }

  lemma {:induction false} WithoutMembers<T>(s: seq<T>, drop: set<T>)
    ensures |Without(s, drop)| <= |s|
    ensures forall x :: x in Without(s, drop) <==> x in s && x !in drop
  {
    if s != [] {
      var b, x := s[..|s| - 1], s[|s| - 1];
      WithoutMembers(b, drop);
      assert s == b + [x];
      assert Without(s, drop) == Without(b, drop) + if x in drop then [] else [x];
    }
  }

  /** Kept and dropped together are what was there. */
  lemma {:induction false} WithoutWithin<T>(s: seq<T>, drop: set<T>)
    ensures multiset(Without(s, drop)) + multiset(Within(s, drop)) == multiset(s)
  {
    if s != [] {
      var b, x := s[..|s| - 1], s[|s| - 1];
      WithoutWithin(b, drop);
      assert s == b + [x];
      assert Without(s, drop) == Without(b, drop) + if x in drop then [] else [x];
      assert Within(s, drop) == Within(b, drop) + if x in drop then [x] else [];
      hide Without, Within;
      assert multiset(s) == multiset(b) + multiset{x};
    }
  }

  // ---- the ledger: what a history of operations means

  datatype Op<T> = Add(r: T) | Take | Reclaim(owned: seq<T>)

  /** What is buffered, what each read handed out, and what was reclaimed. */
  datatype Ledger<T> = Ledger(buffered: seq<T>, takes: seq<seq<T>>, reclaimed: seq<T>)

  function Apply<T(==)>(l: Ledger<T>, op: Op<T>): Ledger<T> {
    match op
    case Add(r) => l.(buffered := l.buffered + [r])
    case Take => l.(buffered := [], takes := l.takes + [l.buffered])
    case Reclaim(owned) =>
      var drop := Elements(owned);
      l.(buffered := Without(l.buffered, drop), reclaimed := l.reclaimed + Within(l.buffered, drop))
  }

  function Replay<T(==)>(l: Ledger<T>, ops: seq<Op<T>>): Ledger<T> {
    if ops == [] then l else Apply(Replay(l, ops[..|ops| - 1]), ops[|ops| - 1])
  }

  function Published<T(==)>(ops: seq<Op<T>>): seq<T> {
    if ops == [] then []
    else Published(ops[..|ops| - 1]) + if ops[|ops| - 1].Add? then [ops[|ops| - 1].r] else []
  }

  function Flat<T>(ss: seq<seq<T>>): seq<T> {
    if ss == [] then [] else Flat(ss[..|ss| - 1]) + ss[|ss| - 1]
  }

  /** Every published result is accounted for once: buffered, handed out by one read, or reclaimed. */
  lemma {:induction false} EveryResultAccountedFor<T>(ops: seq<Op<T>>)
    ensures var l := Replay(Ledger([], [], []), ops);
      multiset(l.buffered) + multiset(Flat(l.takes)) + multiset(l.reclaimed) == multiset(Published(ops))
  {
    if ops != [] {
      var but, op := ops[..|ops| - 1], ops[|ops| - 1];
      EveryResultAccountedFor(but);
      var l := Replay(Ledger([], [], []), but);
      match op
      case Add(r) =>
      case Take => assert (l.takes + [l.buffered])[..|l.takes|] == l.takes;
      case Reclaim(owned) => WithoutWithin(l.buffered, Elements(owned));
    }
  }

  // ---- the buffer

  class Buffer<T(==, 0)> {
    var cells: array<T>
    var len: nat
    ghost var handed: set<array<T>>    // the arrays behind every slice Results has returned

    ghost predicate Valid()
      reads this
    {
      len <= cells.Length && cells !in handed
    }

    ghost function Contents(): seq<T>
      requires Valid()
      reads this, cells
    {
      cells[..len]
    }

    constructor ()
      ensures Valid() && Contents() == [] && handed == {} && fresh(cells)
    {
      cells := new T[0];
      len := 0;
      handed := {};
    }

    /** append: in place while there is capacity, else into a larger copy. */
    method AddResult(r: T)
      requires Valid()
      modifies this, cells
      ensures Valid() && handed == old(handed) && (cells == old(cells) || fresh(cells))
      ensures Contents() == old(Contents()) + [r]
    {
      if len == cells.Length {
        var bigger := new T[2 * len + 1];
        for i := 0 to len
          modifies bigger
          invariant bigger[..i] == cells[..i]
        {
          bigger[i] := cells[i];
        }
        cells := bigger;
      }
      cells[len] := r;
      len := len + 1;
    }

    /** Hands the backing array itself over, and starts from a nil slice. */
    method Results() returns (slice: array<T>, n: nat)
      requires Valid()
      modifies this
      ensures Valid() && Contents() == [] && fresh(cells)
      ensures slice == old(cells) && n == old(len) && handed == old(handed) + {slice}
    {
      slice, n := cells, len;
      handed := handed + {cells};
      cells := new T[0];
      len := 0;
    }

    /** The in-place filter: `kept` grows over the front of the very array it reads from. */
    method Reclaim(owned: seq<T>)
      requires Valid()
      modifies this, cells
      ensures Valid() && handed == old(handed) && cells == old(cells)
      ensures Contents() == Without(old(Contents()), Elements(owned))
    {
      ghost var before := Contents();
      var drop := set r | r in owned;
      var kept := 0;
      for i := 0 to len
        modifies cells
        invariant kept <= i
        invariant forall j :: i <= j < len ==> cells[j] == before[j]
        invariant cells[..kept] == Without(before[..i], drop)
      {
        assert before[..i + 1][..i] == before[..i];
        var r := cells[i];
        assert r == before[i];
        if r !in drop {
          cells[kept] := r;
          kept := kept + 1;
        }
      }
      assert before[..len] == before;
      len := kept;
    }

    /**
     Any history of operations: the buffer ends as the ledger says, and at the end every slice ever
     returned by Results still reads what it read when it was handed out.
     */
    method Perform(ops: seq<Op<T>>) returns (slices: seq<(array<T>, nat)>)
      requires Valid()
      modifies this, cells
      ensures Valid() && (cells == old(cells) || fresh(cells))
      ensures var l := Replay(Ledger(old(Contents()), [], []), ops);
        && Contents() == l.buffered && |slices| == |l.takes|
        && forall k :: 0 <= k < |slices| ==>
             slices[k].1 <= slices[k].0.Length && slices[k].0[..slices[k].1] == l.takes[k]
      ensures forall a :: a in old(handed) ==> a[..] == old(a[..])
    {
      slices := [];
      ghost var start: Ledger<T> := Ledger(Contents(), [], []);
      ghost var l := start;
      assert ops[..0] == [];
      for i := 0 to |ops|
        invariant Valid() && (cells == old(cells) || fresh(cells)) && old(handed) <= handed
        invariant forall a :: a in handed && a !in old(handed) ==> a == old(cells) || fresh(a)
        invariant l == Replay(start, ops[..i]) && Contents() == l.buffered && |slices| == |l.takes|
        invariant forall k :: 0 <= k < |slices| ==> slices[k].0 in handed && slices[k].1 <= slices[k].0.Length
        invariant forall k :: 0 <= k < |slices| ==> slices[k].0[..slices[k].1] == l.takes[k]
        invariant forall a :: a in old(handed) ==> a[..] == old(a[..])
      {
        assert ops[..i + 1][..i] == ops[..i];
        l := Apply(l, ops[i]);
        match ops[i]
        case Add(r) => AddResult(r);
        case Take =>
          var slice, n := Results();
          slices := slices + [(slice, n)];
        case Reclaim(owned) => Reclaim(owned);
      }
      assert ops[..|ops|] == ops;
    }
  }
}

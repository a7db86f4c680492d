/**
 What the core brings up through the engines and has to close again: sing-box boxes, Xray instances,
 Xray gates and child processes, with the record of every creation and every Close call.
 */
module Resources {
  import opened Common

  /** Numbered in creation order. */
  datatype Resource = Box(n: nat) | Instance(n: nat) | Gate(n: nat) | Child(n: nat)

  /** How creating, preparing and starting an Xray instance goes. */
  datatype Attempt = NoCreate | NoPrepare | NoStart | Up

  /** What was ever brought up and what was closed, in order, and what is up now. */
  datatype World = World(created: seq<Resource>, closed: seq<Resource>, live: set<Resource>)

  function Created(w: World, rs: seq<Resource>): World {
    World(w.created + rs, w.closed, w.live + Elements(rs))
  }

  function Closed(w: World, rs: seq<Resource>): World {
    World(w.created, w.closed + rs, w.live - Elements(rs))
  }

  /** Resource i is the i-th created; each one is live or was closed, and closed once. */
  ghost predicate Accounted(w: World) {
    && (forall i :: 0 <= i < |w.created| ==> w.created[i].n == i)
    && Elements(w.created) == w.live + Elements(w.closed)
    && w.live !! Elements(w.closed)
    && Distinct(w.closed)
  }

  lemma Singleton(r: Resource)
    ensures Elements([r]) == {r} && Distinct([r]) && Elements<Resource>([]) == {}
  {
  }

  lemma ClosedKeeps(w: World, rs: seq<Resource>)
    requires Accounted(w) && Elements(rs) <= w.live && Distinct(rs)
    ensures Accounted(Closed(w, rs))
  {
    var both := w.closed + rs;
    assert Elements(both) == Elements(w.closed) + Elements(rs);
    forall i, j | 0 <= i < j < |both| ensures both[i] != both[j] {
      if i < |w.closed| <= j {
        assert both[i] in Elements(w.closed) && both[j] in Elements(rs);
      }
    }
  }

  lemma CreatedKeeps(w: World, rs: seq<Resource>)
    requires Accounted(w) && forall i :: 0 <= i < |rs| ==> rs[i].n == |w.created| + i
    ensures Accounted(Created(w, rs))
    ensures w.live !! Elements(rs)
  {
    assert Elements(w.created + rs) == Elements(w.created) + Elements(rs);
    forall r | r in rs ensures r !in Elements(w.created) { }
  }

  lemma ClosedTwice(w: World, a: seq<Resource>, b: seq<Resource>)
    ensures Closed(Closed(w, a), b) == Closed(w, a + b) && Closed(w, []) == w
  {
    assert Elements(a + b) == Elements(a) + Elements(b);
    assert w.closed + a + b == w.closed + (a + b);
  }

  lemma CreatedTwice(w: World, a: seq<Resource>, b: seq<Resource>)
    ensures Created(Created(w, a), b) == Created(w, a + b) && Created(w, []) == w
  {
    assert Elements(a + b) == Elements(a) + Elements(b);
    assert w.created + a + b == w.created + (a + b);
  }

  /** Created and closed again, in some other order perhaps: everything is accounted for and nothing more is live. */
  lemma BriefKeeps(w: World, made: seq<Resource>, gone: seq<Resource>)
    requires Accounted(w) && forall i :: 0 <= i < |made| ==> made[i].n == |w.created| + i
    requires Distinct(gone) && Elements(gone) == Elements(made)
    ensures var t := Closed(Created(w, made), gone); Accounted(t) && t.live == w.live
  {
    CreatedKeeps(w, made);
    ClosedKeeps(Created(w, made), gone);
  }

  /** The engines as an object: what one test environment after another changes. */
  class Engines {
    var world: World

    constructor ()
      ensures world == World([], [], {}) && Accounted(world)
    {
      world := World([], [], {});
    }

    method Create(r: Resource)
      modifies this
      ensures world == Created(old(world), [r])
    {
      world := World(world.created + [r], world.closed, world.live + {r});
      Singleton(r);
    }

    method Close(r: Resource)
      modifies this
      ensures world == Closed(old(world), [r])
    {
      world := World(world.created, world.closed + [r], world.live - {r});
      Singleton(r);
    }
  }
}

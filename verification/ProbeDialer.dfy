/**
 probeDialer (internal/probe/probe.go): every connection a probe dials is remembered, and Close tears
 them all down, each in a goroutine of its own, even when it lands in the middle of a dial.

 Dials are numbered; the connection made by dial d is connection d. `closing` are the connections
 handed to a close goroutine that has not run yet, `closedBy` counts the closes that have.
 */
module ProbeDialer {
  datatype Dial =
    | Asking        // next: read d.closed under the lock
    | Rejected      // the dialer was closed before dialing
    | Dialing       // next: the dial succeeds or fails
    | Failed
    | InFlight      // the connection exists; next: the second lock section
    | Doomed        // found the dialer closed; next: conn.Close
    | HandedOut     // tracked and returned to the caller
    | Withdrawn     // closed by the dial itself, net.ErrClosed returned

  datatype State = State(
    conns: seq<nat>, closed: bool, dials: seq<Dial>,
    closing: multiset<nat>, closedBy: multiset<nat>)

  datatype Event =
    | Call                      // DialContext is called
    | Move(d: nat, ok: bool)    // dial d moves; ok is the outcome of the dial itself
    | Close                     // Close's lock section and its loop of go statements
    | Reap(d: nat)              // a close goroutine closes connection d

  const Fresh: State := State([], false, [], multiset{}, multiset{})

  function Put(s: State, d: nat, pc: Dial): State
    requires d < |s.dials|
  {
    s.(dials := s.dials[d := pc])
  }

  function MoveNext(s: State, d: nat, ok: bool): State
    requires d < |s.dials|
  {
    match s.dials[d]
    case Asking => Put(s, d, if s.closed then Rejected else Dialing)
    case Dialing => Put(s, d, if ok then InFlight else Failed)
    case InFlight => if s.closed then Put(s, d, Doomed) else Put(s.(conns := s.conns + [d]), d, HandedOut)
    case Doomed => Put(s.(closedBy := s.closedBy + multiset{d}), d, Withdrawn)
    case _ => s
  }

  function Step(s: State, e: Event): State {
    match e
    case Call => s.(dials := s.dials + [Asking])
    case Move(d, ok) => if d < |s.dials| then MoveNext(s, d, ok) else s
    case Close => s.(conns := [], closed := true, closing := s.closing + multiset(s.conns))
    case Reap(d) =>
      if d in s.closing then s.(closing := s.closing - multiset{d}, closedBy := s.closedBy + multiset{d}) else s
  }

  function Run(s: State, es: seq<Event>): State {
    if es == [] then s else Step(Run(s, es[..|es| - 1]), es[|es| - 1])
  }

  /** The struct and its three lock sections, each stated as the transition it is. */
  class Dialer {
    var conns: seq<nat>
    var closed: bool

    constructor ()
      ensures conns == Fresh.conns && closed == Fresh.closed
    {
      conns, closed := [], false;
    }

    predicate Shows(s: State)
      reads this
    {
      s.conns == conns && s.closed == closed
    }

    /** DialContext's first lock section: is the dialer closed already? */
    method Refuses() returns (refused: bool)
      ensures forall s: State, d: nat :: Shows(s) && d < |s.dials| && s.dials[d].Asking? ==>
        MoveNext(s, d, true) == Put(s, d, if refused then Rejected else Dialing)
    {
      refused := closed;
    }

    /** Its second: the connection is kept and handed out, or is the dial's own to close. */
    method Keep(conn: nat) returns (kept: bool)
      modifies this
      ensures forall s: State :: old(Shows(s)) && conn < |s.dials| && s.dials[conn].InFlight? ==>
        var t := MoveNext(s, conn, true); Shows(t) && t.dials[conn] == if kept then HandedOut else Doomed
    {
      if closed { return false; }
      conns := conns + [conn];
      return true;
    }

    /** Close's lock section; the caller starts one close goroutine per returned connection. */
    method Close() returns (taken: seq<nat>)
      modifies this
      ensures forall s: State :: old(Shows(s)) ==>
        var t := Step(s, Event.Close); Shows(t) && t.closing == s.closing + multiset(taken)
    {
      taken := conns;
      conns, closed := [], true;
    }
  }

  predicate Owning(pc: Dial) { pc.InFlight? || pc.Doomed? }

  predicate Made(pc: Dial) { Owning(pc) || pc.HandedOut? || pc.Withdrawn? }

  /** In how many places connection d is: with its dial, tracked, with a close goroutine, closed. */
  function Places(s: State, d: nat): nat
    requires d < |s.dials|
  {
    (if Owning(s.dials[d]) then 1 else 0) + multiset(s.conns)[d] + s.closing[d] + s.closedBy[d]
  }

  /** Connection d is in exactly one place if it was ever made, and in none otherwise. */
  ghost predicate Placed(s: State, d: nat) {
    if d < |s.dials| then Places(s, d) == if Made(s.dials[d]) then 1 else 0
    else multiset(s.conns)[d] == 0 && s.closing[d] == 0 && s.closedBy[d] == 0
  }

  ghost predicate Inv(s: State) {
    && (forall d: nat :: Placed(s, d))
    && (forall d: nat :: d in s.conns ==> d < |s.dials| && s.dials[d].HandedOut?)
    && (s.closed ==> s.conns == [])
  }

  /** What a move does to the four places of connection c. */
  lemma MoveCounts(s: State, d: nat, ok: bool, c: nat)
    requires d < |s.dials|
    ensures var t := MoveNext(s, d, ok);
      && multiset(t.conns)[c] == multiset(s.conns)[c] + (if c == d && s.dials[d].InFlight? && !s.closed then 1 else 0)
      && t.closing == s.closing
      && t.closedBy[c] == s.closedBy[c] + if c == d && s.dials[d].Doomed? then 1 else 0
  {
    AppendCount(s.conns, d, c);
  }

  lemma MovePlaces(s: State, d: nat, ok: bool, c: nat)
    requires d < |s.dials| && Placed(s, d) && Placed(s, c)
    ensures Placed(MoveNext(s, d, ok), c)
  {
    MoveCounts(s, d, ok, c);
  }

  lemma AppendCount(conns: seq<nat>, d: nat, c: nat)
    ensures multiset(conns + [d])[c] == multiset(conns)[c] + if c == d then 1 else 0
  {
    assert multiset(conns + [d]) == multiset(conns) + multiset{d};
  }

  lemma OtherPlaces(s: State, e: Event, c: nat)
    requires !e.Move? && Placed(s, c)
    ensures Placed(Step(s, e), c)
  {
    assert multiset(Step(s, e).conns) == if e.Close? then multiset{} else multiset(s.conns);
  }

  lemma StepKeepsInv(s: State, e: Event)
    requires Inv(s)
    ensures Inv(Step(s, e))
  {
    forall c: nat ensures Placed(Step(s, e), c) {
      assert Placed(s, c);
      if !e.Move? {
        OtherPlaces(s, e, c);
      } else if e.d < |s.dials| {
        assert Placed(s, e.d);
        MovePlaces(s, e.d, e.ok, c);
      }
    }
    hide Placed;
  }

  /**
   The dialer never leaks: in every reachable state each connection ever made is in exactly one
   place (still with its dial, tracked and handed out, given to a close goroutine, or closed) and so
   is closed at most once by the dialer; a closed dialer tracks nothing.
   */
  lemma {:induction false} EveryConnInOnePlace(es: seq<Event>)
    ensures Inv(Run(Fresh, es))
  {
    if es != [] {
      EveryConnInOnePlace(es[..|es| - 1]);
      StepKeepsInv(Run(Fresh, es[..|es| - 1]), es[|es| - 1]);
    }
  }

  lemma ClosedStep(s: State, e: Event)
    requires s.closed
    ensures var t := Step(s, e);
      && t.closed && |s.dials| <= |t.dials|
      && (forall d: nat :: d < |t.dials| && t.dials[d].HandedOut? ==> d < |s.dials| && s.dials[d].HandedOut?)
      && (forall d: nat :: d < |s.dials| && s.dials[d].HandedOut? ==> t.dials[d].HandedOut?)
  {
  }

  /** After Close no dial hands its connection out, however far along it was. */
  lemma {:induction false} ClosedHandsOutNothing(s: State, es: seq<Event>)
    requires s.closed
    ensures var t := Run(s, es);
      && t.closed && |s.dials| <= |t.dials|
      && (forall d: nat :: d < |t.dials| && t.dials[d].HandedOut? ==> d < |s.dials| && s.dials[d].HandedOut?)
  {
    if es != [] {
      ClosedHandsOutNothing(s, es[..|es| - 1]);
      ClosedStep(Run(s, es[..|es| - 1]), es[|es| - 1]);
    }
  }

  /**
   Once the dialer is closed, no dial is under way and the close goroutines have run, every connection
   made has been closed exactly once.
   */
  lemma AllClosedOnce(es: seq<Event>, d: nat)
    requires var s := Run(Fresh, es);
      s.closed && s.closing == multiset{} && (forall c: nat :: c < |s.dials| ==> !Owning(s.dials[c])) && d < |s.dials|
    ensures var s := Run(Fresh, es); s.closedBy[d] == if Made(s.dials[d]) then 1 else 0
  {
    EveryConnInOnePlace(es);
    assert Placed(Run(Fresh, es), d);
  }

  /** The dialer is closed exactly once Close has been called. */
  lemma {:induction false} ClosedIffCalled(es: seq<Event>)
    ensures Run(Fresh, es).closed <==> Event.Close in es
  {
    hide Step;
    if es != [] {
      var n := |es| - 1;
      ClosedIffCalled(es[..n]);
      CloseStep(Run(Fresh, es[..n]), es[n]);
      assert es == es[..n] + [es[n]];
    }
  }

  lemma CloseStep(s: State, e: Event)
    ensures Step(s, e).closed <==> s.closed || e.Close?
  {
  }

  // ---- what became of each dial, and why

  /** At event k dial d moved on from pc, with the dialer closed or not and the dial itself succeeding or not. */
  ghost predicate MovedAt(es: seq<Event>, k: nat, d: nat, pc: Dial, closed: bool, ok: bool)
    requires k < |es|
  {
    var s := Run(Fresh, es[..k]);
    es[k].Move? && es[k].d == d && d < |s.dials| && s.dials[d] == pc && s.closed == closed && es[k].ok == ok
  }

  ghost predicate Moved(es: seq<Event>, d: nat, pc: Dial, closed: bool, ok: bool) {
    exists k :: 0 <= k < |es| && MovedAt(es, k, d, pc, closed, ok)
  }

  ghost predicate MovedEither(es: seq<Event>, d: nat, pc: Dial, closed: bool) {
    Moved(es, d, pc, closed, true) || Moved(es, d, pc, closed, false)
  }

  /** A refused dial found the dialer closed before dialing; a connection is handed out or withdrawn as it was then. */
  ghost predicate Explained(es: seq<Event>, d: nat, pc: Dial) {
    match pc
    case Asking => true
    case Rejected => MovedEither(es, d, Asking, true)
    case Dialing => MovedEither(es, d, Asking, false)
    case Failed => Moved(es, d, Dialing, false, false) || Moved(es, d, Dialing, true, false)
    case InFlight => Moved(es, d, Dialing, false, true) || Moved(es, d, Dialing, true, true)
    case HandedOut => MovedEither(es, d, InFlight, false)
    case _ => MovedEither(es, d, InFlight, true)
  }

  lemma MovedStays(es: seq<Event>, e: Event, d: nat, pc: Dial, closed: bool, ok: bool)
    requires Moved(es, d, pc, closed, ok)
    ensures Moved(es + [e], d, pc, closed, ok)
  {
    var k :| 0 <= k < |es| && MovedAt(es, k, d, pc, closed, ok);
    assert (es + [e])[..k] == es[..k];
    assert MovedAt(es + [e], k, d, pc, closed, ok);
  }

  lemma ExplainedStays(es: seq<Event>, e: Event, d: nat, pc: Dial)
    requires Explained(es, d, pc)
    ensures Explained(es + [e], d, pc)
  {
    forall p: Dial, c: bool, ok: bool | Moved(es, d, p, c, ok) ensures Moved(es + [e], d, p, c, ok) {
      MovedStays(es, e, d, p, c, ok);
    }
  }

  /** Where a move takes a dial. */
  lemma DialStep(s: State, e: Event, d: nat)
    requires d < |Step(s, e).dials|
    ensures var b := Step(s, e).dials[d];
      if d >= |s.dials| then b.Asking?
      else if !(e.Move? && e.d == d) then b == s.dials[d]
      else match s.dials[d]
        case Asking => b == if s.closed then Rejected else Dialing
        case Dialing => b == if e.ok then InFlight else Failed
        case InFlight => b == if s.closed then Doomed else HandedOut
        case Doomed => b.Withdrawn?
        case _ => b == s.dials[d]
  {
  }

  /**
   Every dial ends as the dialer stood at its two lock sections and as the dial itself went: closed before
   means it never dials, open after means its connection is handed out, closed after that it is withdrawn.
   */
  lemma {:induction false} DialsEndAsTheyFound(es: seq<Event>, d: nat)
    requires d < |Run(Fresh, es).dials|
    ensures Explained(es, d, Run(Fresh, es).dials[d])
  {
    hide Step;
    if es != [] {
      var n := |es| - 1;
      var s, e := Run(Fresh, es[..n]), es[n];
      assert es[..n] + [e] == es;
      DialStep(s, e, d);
      if d < |s.dials| {
        DialsEndAsTheyFound(es[..n], d);
        ExplainedStays(es[..n], e, d, s.dials[d]);
        if e.Move? && e.d == d { assert MovedAt(es, n, d, s.dials[d], s.closed, e.ok); }
      }
    }
  }
}

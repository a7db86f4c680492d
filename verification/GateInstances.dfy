/**
 Conservation of Xray instances: every instance ensure ever creates is in exactly one place, and
 none is closed twice. An evicted instance may still be closing while its successor starts, so the
 claim is conservation and not that at most one is alive.
 */
module GateInstances {
  import opened Common
  import opened GateProtocol
  import opened GateSafety

  datatype Place =
    | Installed              // g.instance
    | Building(h: nat)       // handler h is preparing and starting it inside ensure
    | WithCloser(c: nat)     // Close took it and has yet to close it
    | WithSweeper            // the sweeper took it and has yet to close it
    | Gone                   // closed, once

  function Carried(pc: CloserPc): Option<nat> {
    match pc
    case Took(inst) => inst
    case Shutting(inst) => inst
    case Closing(inst, _) => inst
    case _ => None
  }

  ghost predicate At(s: State, i: nat, p: Place)
    requires i < |s.core.closes|
  {
    match p
    case Installed => s.core.instance == Some(i)
    case Building(h) => h < |s.handlers| && s.handlers[h] == Locked(Some(i))
    case WithCloser(c) => c < |s.closers| && Carried(s.closers[c]) == Some(i)
    case WithSweeper => s.sweeper == Holding(i)
    case Gone => s.core.closes[i] == 1
  }

  /** Instance i is in exactly one place and has been closed at most once. */
  ghost predicate Conserved(s: State, i: nat)
    requires i < |s.core.closes|
  {
    && s.core.closes[i] <= 1
    && exists p :: At(s, i, p) && forall q :: At(s, i, q) ==> q == p
  }

  /** No goroutine or slot refers to an instance that was never created. */
  ghost predicate Known(s: State) {
    && (s.core.instance.Some? ==> s.core.instance.value < |s.core.closes|)
    && (s.sweeper.Holding? ==> s.sweeper.inst < |s.core.closes|)
    && (forall h :: 0 <= h < |s.handlers| && s.handlers[h].Locked? && s.handlers[h].built.Some? ==>
          s.handlers[h].built.value < |s.core.closes|)
    && (forall c :: 0 <= c < |s.closers| && Carried(s.closers[c]).Some? ==>
          Carried(s.closers[c]).value < |s.core.closes|)
  }

  ghost predicate InstInv(s: State) {
    Inv(s) && Known(s) && forall i :: 0 <= i < |s.core.closes| ==> Conserved(s, i)
  }

  /** The place instance i moves to when `e` is taken from `s`, given where it was. */
  ghost function Moved(s: State, e: Event, i: nat, p: Place): Place
    requires i < |s.core.closes|
  {
    match e
    case Handler(h, ok) =>
      if HandlerEnabled(s, h) && p == Building(h) then (if ok then Installed else Gone) else p
    case Closer(c, x) =>
      if !CloserEnabled(s, c, x) then p
      else if s.closers[c].Calling? && !s.core.closed && p == Installed then WithCloser(c)
      else if p == WithCloser(c) && s.closers[c].Closing? && s.closers[c].pending == {} then Gone
      else p
    case Sweeper(stop) =>
      if !SweeperEnabled(s, stop) then p
      else if s.sweeper.Expired? && p == Installed then WithSweeper
      else if p == WithSweeper then Gone
      else p
    case _ => p
  }

  /** Conserved with its witness and without nested quantifiers: each place holds i exactly when it is p. */
  ghost predicate Sits(s: State, i: nat, p: Place)
    requires i < |s.core.closes|
  {
    && (s.core.instance == Some(i) <==> p == Installed)
    && (s.sweeper == Holding(i) <==> p == WithSweeper)
    && s.core.closes[i] == (if p == Gone then 1 else 0)
    && (forall h: nat :: h < |s.handlers| ==> (s.handlers[h] == Locked(Some(i)) <==> p == Building(h)))
    && (forall c: nat :: c < |s.closers| ==> (Carried(s.closers[c]) == Some(i) <==> p == WithCloser(c)))
    && (p.Building? ==> p.h < |s.handlers|)
    && (p.WithCloser? ==> p.c < |s.closers|)
  }

  lemma Sitting(s: State, i: nat) returns (p: Place)
    requires i < |s.core.closes| && Conserved(s, i)
    ensures Sits(s, i, p)
  {
    p :| At(s, i, p) && forall q :: At(s, i, q) ==> q == p;
    assert At(s, i, Installed) ==> p == Installed;
    assert At(s, i, WithSweeper) ==> p == WithSweeper;
    assert At(s, i, Gone) ==> p == Gone;
    forall h: nat | h < |s.handlers| ensures s.handlers[h] == Locked(Some(i)) <==> p == Building(h) {
      assert At(s, i, Building(h)) ==> p == Building(h);
    }
    forall c: nat | c < |s.closers| ensures Carried(s.closers[c]) == Some(i) <==> p == WithCloser(c) {
      assert At(s, i, WithCloser(c)) ==> p == WithCloser(c);
    }
  }

  lemma SitsConserved(s: State, i: nat, p: Place)
    requires i < |s.core.closes| && Sits(s, i, p)
    ensures Conserved(s, i)
  {
    assert At(s, i, p);
    forall q | At(s, i, q) ensures q == p {
      match q {
        case Building(h) =>
        case WithCloser(c) =>
        case _ =>
      }
    }
  }

  lemma HandlerMoves(s: State, h: nat, ok: bool, i: nat, p: Place)
    requires LockInv(s) && HandlerEnabled(s, h) && i < |s.core.closes| && Sits(s, i, p)
    ensures |s.core.closes| <= |HandlerNext(s, h, ok).core.closes|
    ensures Sits(HandlerNext(s, h, ok), i, Moved(s, Handler(h, ok), i, p))
  {
  }

  /** Close takes the installed instance, or is turned away. */
  lemma CloserTakes(s: State, c: nat, x: Conn, i: nat, p: Place)
    requires CloserEnabled(s, c, x) && s.closers[c].Calling? && i < |s.core.closes| && Sits(s, i, p)
    ensures CloserNext(s, c, x).core.closes == s.core.closes
    ensures Sits(CloserNext(s, c, x), i, Moved(s, Closer(c, x), i, p))
  {
  }

  /** It carries the instance past the listeners and the connections. */
  lemma CloserCarries(s: State, c: nat, x: Conn, i: nat, p: Place)
    requires CloserEnabled(s, c, x) && i < |s.core.closes| && Sits(s, i, p)
    requires s.closers[c].Took? || s.closers[c].Shutting? || (s.closers[c].Closing? && s.closers[c].pending != {})
    ensures CloserNext(s, c, x).core == s.core
    ensures Sits(CloserNext(s, c, x), i, Moved(s, Closer(c, x), i, p))
  {
    var t := CloserNext(s, c, x);
    assert Carried(t.closers[c]) == Carried(s.closers[c]);
    assert t.handlers == s.handlers && t.sweeper == s.sweeper && |t.closers| == |s.closers|;
    assert forall d: nat :: d < |s.closers| && d != c ==> t.closers[d] == s.closers[d];
    hide CloserNext;
  }

  /** And closes it in the end. */
  lemma CloserCloses(s: State, c: nat, x: Conn, i: nat, p: Place)
    requires CloserEnabled(s, c, x) && s.closers[c].Closing? && s.closers[c].pending == {}
    requires i < |s.core.closes| && Sits(s, i, p)
    ensures |s.core.closes| == |CloserNext(s, c, x).core.closes|
    ensures Sits(CloserNext(s, c, x), i, Moved(s, Closer(c, x), i, p))
  {
  }

  lemma CloserMoves(s: State, c: nat, x: Conn, i: nat, p: Place)
    requires CloserEnabled(s, c, x) && i < |s.core.closes| && Sits(s, i, p)
    ensures |s.core.closes| == |CloserNext(s, c, x).core.closes|
    ensures Sits(CloserNext(s, c, x), i, Moved(s, Closer(c, x), i, p))
  {
    hide Sits, Moved, CloserNext;
    if s.closers[c].Calling? {
      CloserTakes(s, c, x, i, p);
    } else if s.closers[c].Closing? && s.closers[c].pending == {} {
      CloserCloses(s, c, x, i, p);
    } else {
      CloserCarries(s, c, x, i, p);
    }
  }

  lemma SweeperMoves(s: State, stop: bool, i: nat, p: Place)
    requires SweeperEnabled(s, stop) && i < |s.core.closes| && Sits(s, i, p)
    ensures |s.core.closes| == |SweeperNext(s, stop).core.closes|
    ensures Sits(SweeperNext(s, stop), i, Moved(s, Sweeper(stop), i, p))
  {
  }

  /** A freshly created instance is only with its builder. */
  lemma BornBuilding(s: State, h: nat)
    requires LockInv(s) && Known(s) && HandlerEnabled(s, h) && s.handlers[h] == Locked(None)
    ensures |HandlerNext(s, h, true).core.closes| == |s.core.closes| + 1
    ensures Sits(HandlerNext(s, h, true), |s.core.closes|, Building(h))
  {
  }

  lemma StepKeepsKnown(s: State, e: Event)
    requires Known(s)
    ensures Known(Step(s, e)) && |s.core.closes| <= |Step(s, e).core.closes|
  {
    match e
    case Handler(h, ok) => if HandlerEnabled(s, h) { HandlerKeepsKnown(s, h, ok); }
    case Closer(c, x) => if CloserEnabled(s, c, x) { CloserKeepsKnown(s, c, x); }
    case _ =>
  }

  lemma HandlerKeepsKnown(s: State, h: nat, ok: bool)
    requires Known(s) && HandlerEnabled(s, h)
    ensures Known(HandlerNext(s, h, ok)) && |s.core.closes| <= |HandlerNext(s, h, ok).core.closes|
  {
  }

  lemma CloserKeepsKnown(s: State, c: nat, x: Conn)
    requires Known(s) && CloserEnabled(s, c, x)
    ensures Known(CloserNext(s, c, x)) && |s.core.closes| == |CloserNext(s, c, x).core.closes|
  {
  }

  lemma StepMoves(s: State, e: Event, i: nat, p: Place)
    requires LockInv(s) && i < |s.core.closes| && Sits(s, i, p)
    ensures i < |Step(s, e).core.closes| && Sits(Step(s, e), i, Moved(s, e, i, p))
  {
    match e {
      case Handler(h, ok) =>
        if HandlerEnabled(s, h) { HandlerMoves(s, h, ok, i, p); }
        hide Sits, HandlerNext;
      case Closer(c, x) =>
        if CloserEnabled(s, c, x) { CloserMoves(s, c, x, i, p); }
        hide Sits, CloserNext;
      case Sweeper(stop) =>
        if SweeperEnabled(s, stop) { SweeperMoves(s, stop, i, p); }
        hide Sits, SweeperNext;
      case _ =>
    }
  }

  lemma StepConserves(s: State, e: Event, i: nat)
    requires InstInv(s) && i < |s.core.closes|
    ensures i < |Step(s, e).core.closes| && Conserved(Step(s, e), i)
  {
    hide Sits, Moved, Step;
    var p := Sitting(s, i);
    StepMoves(s, e, i, p);
    SitsConserved(Step(s, e), i, Moved(s, e, i, p));
  }

  lemma OnlyCreateAdds(s: State, e: Event)
    requires |s.core.closes| != |Step(s, e).core.closes|
    ensures e.Handler? && e.ok && HandlerEnabled(s, e.h) && s.handlers[e.h] == Locked(None)
  {
  }

  lemma StepKeepsInstInv(s: State, e: Event)
    requires InstInv(s)
    ensures InstInv(Step(s, e))
  {
    StepKeepsInv(s, e);
    StepKeepsKnown(s, e);
    var t := Step(s, e);
    forall i | 0 <= i < |t.core.closes| ensures Conserved(t, i) {
      if i < |s.core.closes| {
        StepConserves(s, e, i);
      } else {
        OnlyCreateAdds(s, e);
        BornBuilding(s, e.h);
        SitsConserved(t, i, Building(e.h));
      }
    }
  }

  /** Instances are conserved in every reachable state. */
  lemma {:induction false} InstancesConserved(idle: int, bridges: nat, now: int, es: seq<Event>)
    ensures InstInv(Run(Fresh(idle, bridges, now), es))
  {
    if es == [] {
    } else {
      InstancesConserved(idle, bridges, now, es[..|es| - 1]);
      StepKeepsInstInv(Run(Fresh(idle, bridges, now), es[..|es| - 1]), es[|es| - 1]);
    }
  }

  lemma ClosedStep(s: State, e: Event)
    requires LockInv(s) && s.core.closed
    ensures Step(s, e).core.closed && |Step(s, e).core.closes| == |s.core.closes|
  {
  }

  lemma {:induction false} ClosedRun(s: State, more: seq<Event>)
    requires Inv(s) && s.core.closed
    ensures Inv(Run(s, more)) && Run(s, more).core.closed
    ensures |Run(s, more).core.closes| == |s.core.closes|
  {
    if more != [] {
      var t := Run(s, more[..|more| - 1]);
      ClosedRun(s, more[..|more| - 1]);
      StepKeepsInv(t, more[|more| - 1]);
      ClosedStep(t, more[|more| - 1]);
    }
  }

  /** Once closed, always closed: nothing is installed and no instance is created, whatever happens next. */
  lemma ClosedForGood(idle: int, bridges: nat, now: int, es: seq<Event>, more: seq<Event>)
    requires Run(Fresh(idle, bridges, now), es).core.closed
    ensures var s := Run(Fresh(idle, bridges, now), es);
      var t := Run(s, more);
      t.core.closed && t.core.instance.None? && t.core.mu.None? && |t.core.closes| == |s.core.closes|
  {
    InvAlways(idle, bridges, now, es);
    ClosedRun(Run(Fresh(idle, bridges, now), es), more);
  }

  /**
   Nothing survives the end: when the winning Close has finished, every handler is done and the
   sweeper holds nothing, every instance ever created has been closed exactly once.
   */
  lemma EveryInstanceClosedOnce(idle: int, bridges: nat, now: int, es: seq<Event>, c: nat, i: nat)
    requires var s := Run(Fresh(idle, bridges, now), es);
      c < |s.closers| && s.closers[c].Finished? && AllDone(s.handlers) && !s.sweeper.Holding? && i < |s.core.closes|
    ensures Run(Fresh(idle, bridges, now), es).core.closes[i] == 1
  {
    InstancesConserved(idle, bridges, now, es);
    var s := Run(Fresh(idle, bridges, now), es);
    assert Conserved(s, i);
    var p :| At(s, i, p);
    assert Won(s.closers[c]);
  }
}

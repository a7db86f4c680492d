/**
 What counts as use: lastUse is always the clock at the latest touch, and both the arrival and the
 departure of a handler are touches, so an instance outlives a departed handler by the idle limit.
 */
module GateUse {
  import opened GateProtocol
  import opened GateSafety
  import opened GateSweep
  import opened GateIdle

  /** Event j is the touch of a handler that has just been counted or just been uncounted. */
  ghost predicate Touches(f: State, es: seq<Event>, j: nat)
    requires j < |es|
  {
    var s := Run(f, es[..j]);
    && es[j].Handler? && es[j].h < |s.handlers|
    && (s.handlers[es[j].h].Counted? || s.handlers[es[j].h].Uncounted?)
  }

  /** The clock at the latest touch, or at the start. */
  ghost function LastTouch(f: State, es: seq<Event>): int {
    if es == [] then f.usage.now
    else if Touches(f, es, |es| - 1) then Run(f, es[..|es| - 1]).usage.now
    else LastTouch(f, es[..|es| - 1])
  }

  lemma UseStep(s: State, e: Event)
    ensures var t := Step(s, e);
      && t.usage.now == (if e.Clock? && s.usage.now <= e.now then e.now else s.usage.now)
      && t.usage.lastUse ==
         if e.Handler? && e.h < |s.handlers| && (s.handlers[e.h].Counted? || s.handlers[e.h].Uncounted?)
         then s.usage.now else s.usage.lastUse
  {
  }

  /** In every run the last use is the clock at the latest touch. */
  lemma {:induction false} LastUseIsLastTouch(idle: int, bridges: nat, now: int, es: seq<Event>)
    ensures Run(Fresh(idle, bridges, now), es).usage.lastUse == LastTouch(Fresh(idle, bridges, now), es)
  {
    hide Step;
    if es != [] {
      LastUseIsLastTouch(idle, bridges, now, es[..|es| - 1]);
      UseStep(Run(Fresh(idle, bridges, now), es[..|es| - 1]), es[|es| - 1]);
    }
  }

  /** The handler has made its second touch. */
  predicate HasLeft(pc: HandlerPc) { pc.Retouched? || pc.Forgotten? || pc.Done? }

  /** Handler h's way out: it stays uncounted until it touches, and is then gone for good. */
  lemma LeaveStep(s: State, e: Event, h: nat)
    requires h < |s.handlers|
    ensures var t := Step(s, e);
      && h < |t.handlers|
      && (HasLeft(s.handlers[h]) ==> HasLeft(t.handlers[h]))
      && (s.handlers[h].Uncounted? ==> t.handlers[h] == if e.Handler? && e.h == h then Retouched else Uncounted)
  {
  }

  lemma {:induction false} SinceDecrement(idle: int, bridges: nat, now: int, es: seq<Event>, j: nat, h: nat)
    requires j < |es| && Decrements(Fresh(idle, bridges, now), es, j, h)
    ensures var f := Fresh(idle, bridges, now);
      var s, left := Run(f, es), Run(f, es[..j]).usage.now;
      && h < |s.handlers| && left <= s.usage.now
      && (s.handlers[h].Uncounted? || (HasLeft(s.handlers[h]) && left <= s.usage.lastUse))
  {
    hide Step, HasLeft;
    var f := Fresh(idle, bridges, now);
    var n := |es| - 1;
    var s := Run(f, es[..n]);
    UseStep(s, es[n]);
    if n == j {
      DecrementStep(s, es[n], h);
    } else {
      assert es[..n][..j] == es[..j] && Decrements(f, es[..n], j, h);
      SinceDecrement(idle, bridges, now, es[..n], j, h);
      LeaveStep(s, es[n], h);
      RetouchedHasLeft();
    }
  }

  lemma DecrementStep(s: State, e: Event, h: nat)
    requires e.Handler? && e.h == h && h < |s.handlers| && s.handlers[h].Leaving?
    ensures h < |Step(s, e).handlers| && Step(s, e).handlers[h].Uncounted?
  {
  }

  lemma RetouchedHasLeft()
    ensures HasLeft(Retouched)
  {
  }

  /**
   Leaving is a use: once a handler has made its second touch, in every run, the last use is no earlier than
   the clock at its decrement.
   */
  lemma DepartureIsAUse(idle: int, bridges: nat, now: int, es: seq<Event>, j: nat, h: nat)
    requires j < |es| && Decrements(Fresh(idle, bridges, now), es, j, h)
    requires var s := Run(Fresh(idle, bridges, now), es); h < |s.handlers| && !s.handlers[h].Uncounted?
    ensures var f := Fresh(idle, bridges, now); Run(f, es[..j]).usage.now <= Run(f, es).usage.lastUse
  {
    SinceDecrement(idle, bridges, now, es, j, h);
  }

  /**
   So no tick takes an instance within the idle limit of a departure: when the clock read at event p finds the
   gate expired, every handler that has left and touched did so at least `idle` earlier.
   */
  lemma SweepWaitsOutDepartures(idle: int, bridges: nat, now: int, es: seq<Event>, p: nat, j: nat, h: nat)
    requires Expires(Fresh(idle, bridges, now), es, p) && j < p && Decrements(Fresh(idle, bridges, now), es, j, h)
    requires var s := Run(Fresh(idle, bridges, now), es[..p]); h < |s.handlers| && !s.handlers[h].Uncounted?
    ensures var f := Fresh(idle, bridges, now); Now(f, es, j) + idle <= Now(f, es, p)
  {
    assert es[..p][..j] == es[..j];
    assert Decrements(Fresh(idle, bridges, now), es[..p], j, h);
    DepartureIsAUse(idle, bridges, now, es[..p], j, h);
  }

  // ---- idle 0 keeps the instance resident, and an open gate accepts

  /** With no idle limit the sweeper never gets past its tick, in any run. */
  lemma {:induction false} NoLimitNoSweep(idle: int, bridges: nat, now: int, es: seq<Event>)
    requires idle <= 0
    ensures var s := Run(Fresh(idle, bridges, now), es); s.idle == idle && (s.sweeper.Waiting? || s.sweeper.Stopped?)
  {
    hide Step;
    if es != [] {
      NoLimitNoSweep(idle, bridges, now, es[..|es| - 1]);
      NoLimitStep(Run(Fresh(idle, bridges, now), es[..|es| - 1]), es[|es| - 1]);
    }
  }

  lemma NoLimitStep(s: State, e: Event)
    requires s.idle <= 0 && (s.sweeper.Waiting? || s.sweeper.Stopped?)
    ensures var t := Step(s, e); t.idle == s.idle && (t.sweeper.Waiting? || t.sweeper.Stopped?)
  {
  }

  lemma OpenStep(s: State, e: Event)
    requires Inv(s) && (s.shut > 0 ==> s.core.closed)
    ensures Step(s, e).bridges == s.bridges && (Step(s, e).shut > 0 ==> Step(s, e).core.closed)
  {
  }

  lemma {:induction false} ShutMeansClosed(idle: int, bridges: nat, now: int, es: seq<Event>)
    ensures var s := Run(Fresh(idle, bridges, now), es); s.bridges == bridges && (s.shut > 0 ==> s.core.closed)
  {
    hide Step;
    if es != [] {
      ShutMeansClosed(idle, bridges, now, es[..|es| - 1]);
      InvAlways(idle, bridges, now, es[..|es| - 1]);
      OpenStep(Run(Fresh(idle, bridges, now), es[..|es| - 1]), es[|es| - 1]);
    }
  }

  /** An open gate accepts on every bridge, in every reachable state, and each connection gets a handler of its own. */
  lemma OpenGateAccepts(idle: int, bridges: nat, now: int, es: seq<Event>, b: nat)
    requires !Run(Fresh(idle, bridges, now), es).core.closed && b < bridges
    ensures var s := Run(Fresh(idle, bridges, now), es);
      var t := Step(s, Accept(b));
      && t.handlers == s.handlers + [Accepted] && Client(|s.handlers|) in t.net.everOpen
      && Client(|s.handlers|) !in t.net.closed
  {
    ShutMeansClosed(idle, bridges, now, es);
    InvAlways(idle, bridges, now, es);
  }
}

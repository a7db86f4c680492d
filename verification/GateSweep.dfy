/**
 The idle sweeper: how often it ticks, what its counter read guarantees, how soon an unused
 instance is taken, and the one thing it does not guarantee. Durations are nanoseconds.
 */
module GateSweep {
  import opened Common
  import opened GateProtocol
  import opened GateSafety

  const SECOND: int := 1_000_000_000
  const SWEEP_INTERVAL: int := 15 * SECOND
  const MIN_SWEEP_INTERVAL: int := 2 * SECOND

  /** Between 2 and 15 seconds, and half the idle limit wherever that lies in between. */
  function SweepIntervalFor(idle: int): (r: int)
    ensures MIN_SWEEP_INTERVAL <= r <= SWEEP_INTERVAL
    ensures idle >= 2 * MIN_SWEEP_INTERVAL ==> 2 * r <= idle
    ensures idle >= 30_000_000_000 || idle <= 0 ==> r == 15_000_000_000
    ensures 4_000_000_000 <= idle < 30_000_000_000 ==> idle < 2 * (r + 1)
    ensures 0 < idle < 4_000_000_000 ==> r == 2_000_000_000
  {
    if idle <= 0 || idle / 2 >= SWEEP_INTERVAL then SWEEP_INTERVAL
    else if idle / 2 > MIN_SWEEP_INTERVAL then idle / 2
    else MIN_SWEEP_INTERVAL
  }

  // ---- the counter read

  predicate PastRead(pc: SweeperPc) {
    pc.Inactive? || pc.Expired? || pc.Holding?
  }

  ghost predicate NobodyCounted(s: State) {
    forall h :: 0 <= h < |s.handlers| ==> !IsCounted(s.handlers[h])
  }

  lemma EntersRead(s: State, e: Event)
    requires Inv(s) && !PastRead(s.sweeper) && PastRead(Step(s, e).sweeper)
    ensures e == Sweeper(false) && s.sweeper.Waiting? && s.usage.active == 0 && NobodyCounted(s)
  {
    CountBounds(IsCounted, s.handlers);
  }

  /**
   Whenever the sweeper is on its way to taking or closing an instance, the tick that sent it there
   read the counter at a moment (event k) when no handler was between its increment and decrement.
   */
  lemma {:induction false} ReadSawNobody(idle: int, bridges: nat, now: int, es: seq<Event>) returns (k: nat)
    requires PastRead(Run(Fresh(idle, bridges, now), es).sweeper)
    ensures k < |es| && es[k] == Sweeper(false)
    ensures var s := Run(Fresh(idle, bridges, now), es[..k]);
      s.sweeper.Waiting? && s.usage.active == 0 && NobodyCounted(s)
    ensures forall j :: k < j <= |es| ==> PastRead(Run(Fresh(idle, bridges, now), es[..j]).sweeper)
  {
    hide Step;
    var f := Fresh(idle, bridges, now);
    assert es != [];
    var n := |es| - 1;
    var s := Run(f, es[..n]);
    assert es[..|es|] == es;
    if PastRead(s.sweeper) {
      k := ReadSawNobody(idle, bridges, now, es[..n]);
      assert es[..n][..k] == es[..k];
      forall j | k < j <= |es| ensures PastRead(Run(f, es[..j]).sweeper) {
        if j <= n { assert es[..n][..j] == es[..j]; }
      }
    } else {
      k := n;
      InvAlways(idle, bridges, now, es[..n]);
      EntersRead(s, es[n]);
    }
  }

  // ---- who can lose an instance to a take

  /** Event j of the run is handler h's active.Add(1). */
  ghost predicate Increments(f: State, es: seq<Event>, j: nat, h: nat)
    requires j < |es|
  {
    var s := Run(f, es[..j]);
    es[j].Handler? && es[j].h == h && h < |s.handlers| && s.handlers[h].Tracked?
  }

  /** Event j of the run is handler h's active.Add(-1). */
  ghost predicate Decrements(f: State, es: seq<Event>, j: nat, h: nat)
    requires j < |es|
  {
    var s := Run(f, es[..j]);
    es[j].Handler? && es[j].h == h && h < |s.handlers| && s.handlers[h].Leaving?
  }

  ghost predicate IncrementedSince(f: State, es: seq<Event>, k: nat, h: nat) {
    exists j :: k < j < |es| && Increments(f, es, j, h)
  }

  ghost predicate DecrementedSince(f: State, es: seq<Event>, k: nat, h: nat) {
    exists j :: k < j < |es| && Decrements(f, es, j, h)
  }

  predicate PastDecrement(pc: HandlerPc) {
    pc.Uncounted? || pc.Retouched? || pc.Forgotten? || pc.Done?
  }

  /** How one event can change whether handler h is counted. */
  lemma CountedStep(s: State, e: Event, h: nat)
    requires h < |Step(s, e).handlers|
    ensures var t := Step(s, e);
      if h < |s.handlers| then
        var mine := e.Handler? && e.h == h;
        && (IsCounted(t.handlers[h]) <==>
              (IsCounted(s.handlers[h]) && !(mine && s.handlers[h].Leaving?)) || (mine && s.handlers[h].Tracked?))
        && (PastDecrement(s.handlers[h]) || (mine && s.handlers[h].Leaving?) ==> PastDecrement(t.handlers[h]))
      else !IsCounted(t.handlers[h])
  {
  }

  lemma HandlersStay(s: State, e: Event)
    ensures |s.handlers| <= |Step(s, e).handlers|
  {
  }

  /** One more event: "since" looks at it and at what came before. */
  lemma SinceSnoc(f: State, es: seq<Event>, k: nat, h: nat)
    requires k + 1 < |es|
    ensures var n := |es| - 1;
      && (IncrementedSince(f, es, k, h) <==> IncrementedSince(f, es[..n], k, h) || Increments(f, es, n, h))
      && (DecrementedSince(f, es, k, h) <==> DecrementedSince(f, es[..n], k, h) || Decrements(f, es, n, h))
  {
    hide Run, Step;
    var n := |es| - 1;
    assert forall j :: 0 <= j < n ==> es[..n][..j] == es[..j] && es[..n][j] == es[j];
    assert forall j: nat :: j < n ==> (Increments(f, es, j, h) <==> Increments(f, es[..n], j, h));
    assert forall j: nat :: j < n ==> (Decrements(f, es, j, h) <==> Decrements(f, es[..n], j, h));
  }

  lemma {:induction false} CountedSince(f: State, es: seq<Event>, k: nat, h: nat)
    requires k < |es| && NobodyCounted(Run(f, es[..k + 1]))
    ensures var s := Run(f, es);
      if h < |s.handlers| then
        && (IsCounted(s.handlers[h]) <==> IncrementedSince(f, es, k, h) && !DecrementedSince(f, es, k, h))
        && (DecrementedSince(f, es, k, h) ==> PastDecrement(s.handlers[h]))
      else !IncrementedSince(f, es, k, h) && !DecrementedSince(f, es, k, h)
  {
    hide Step, IsCounted, PastDecrement;
    var n := |es| - 1;
    if n == k {
      assert es[..k + 1] == es;
    } else {
      assert es[..n][..k + 1] == es[..k + 1];
      CountedSince(f, es[..n], k, h);
      SinceSnoc(f, es, k, h);
      var s, e := Run(f, es[..n]), es[n];
      HandlersStay(s, e);
      if h < |Step(s, e).handlers| { CountedStep(s, e, h); }
      TrackedIsNeither();
    }
  }

  lemma TrackedIsNeither()
    ensures !IsCounted(Tracked) && !PastDecrement(Tracked)
  {
  }

  lemma ReadCountsNobody(s: State, e: Event)
    requires NobodyCounted(s) && e.Sweeper?
    ensures NobodyCounted(Step(s, e))
  {
    assert Step(s, e).handlers == s.handlers;
  }

  /**
   Exactly who can lose the instance. When the sweeper takes it, with event k the counter read that sent it
   there, a handler is counted at that moment if and only if it was counted after that read: its increment
   is among the events since, and its decrement is not. So a take hurts nobody exactly when no handler was
   counted between the read and the take without leaving again.
   */
  lemma TakeHitsLateArrivals(idle: int, bridges: nat, now: int, es: seq<Event>) returns (k: nat)
    requires var s := Run(Fresh(idle, bridges, now), es);
      s.sweeper.Expired? && SweeperEnabled(s, false) && s.core.instance.Some?
    ensures k < |es| && es[k] == Sweeper(false)
    ensures forall j :: k < j <= |es| ==> PastRead(Run(Fresh(idle, bridges, now), es[..j]).sweeper)
    ensures var f := Fresh(idle, bridges, now);
      var s := Run(f, es);
      && Run(f, es[..k]).sweeper.Waiting? && NobodyCounted(Run(f, es[..k]))
      && Step(s, Sweeper(false)).sweeper == Holding(s.core.instance.value)
      && forall h: nat :: h < |s.handlers| ==>
           (IsCounted(s.handlers[h]) <==> IncrementedSince(f, es, k, h) && !DecrementedSince(f, es, k, h))
  {
    hide IncrementedSince, DecrementedSince, IsCounted;
    var f := Fresh(idle, bridges, now);
    k := ReadSawNobody(idle, bridges, now, es);
    ReadCountsNobody(Run(f, es[..k]), es[k]);
    assert es[..k + 1] == es[..k] + [es[k]];
    RunSnoc(f, es[..k], es[k]);
    forall h: nat | h < |Run(f, es).handlers|
      ensures IsCounted(Run(f, es).handlers[h]) <==> IncrementedSince(f, es, k, h) && !DecrementedSince(f, es, k, h)
    {
      CountedSince(f, es, k, h);
    }
  }

  // ---- such a loss does happen

  lemma Then(f: State, es: seq<Event>, e: Event) returns (more: seq<Event>)
    ensures more == es + [e] && Run(f, more) == Step(Run(f, es), e)
  {
    more := es + [e];
    RunSnoc(f, es, e);
  }

  /** What the handlers' walk below leaves alone. */
  ghost predicate SameElsewhere(s: State, t: State) {
    && t.idle == s.idle && t.bridges == s.bridges && t.shut == s.shut
    && t.sweeper == s.sweeper && t.net.conns.Some? && t.usage.now == s.usage.now
  }

  /** Handler h tracks its client, is counted and touches. */
  lemma Arrive(f: State, es: seq<Event>, h: nat) returns (more: seq<Event>)
    requires var s := Run(f, es); h < |s.handlers| && s.handlers[h].Accepted? && s.net.conns.Some?
    ensures var s, t := Run(f, es), Run(f, more);
      && t.handlers == s.handlers[h := Touched] && t.core == s.core && SameElsewhere(s, t)
      && t.usage.active == s.usage.active + 1 && t.usage.lastUse == s.usage.now
  {
    hide Run;
    var s := Run(f, es);
    more := HandlerThen(f, es, h, true);
    assert Run(f, more).handlers == s.handlers[h := Tracked];
    more := HandlerThen(f, more, h, true);
    assert Run(f, more).handlers == s.handlers[h := Counted];
    more := HandlerThen(f, more, h, true);
  }

  /** It then creates, starts and installs an instance. */
  lemma WarmUp(f: State, es: seq<Event>, h: nat) returns (more: seq<Event>)
    requires var s := Run(f, es);
      && h < |s.handlers| && s.handlers[h].Touched? && s.net.conns.Some?
      && s.core.mu.None? && !s.core.closed && s.core.instance.None?
    ensures var s, t := Run(f, es), Run(f, more);
      && t.handlers == s.handlers[h := Ready] && SameElsewhere(s, t) && t.usage == s.usage
      && t.core == Core(None, Some(|s.core.closes|), false, s.core.closes + [0])
  {
    hide Run;
    var s := Run(f, es);
    more := HandlerThen(f, es, h, true);
    assert Run(f, more) == s.(handlers := s.handlers[h := Locked(None)], core := s.core.(mu := Some(h)));
    more := HandlerThen(f, more, h, true);
    var built := Some(|s.core.closes|);
    assert Run(f, more).handlers == s.handlers[h := Locked(built)];
    more := HandlerThen(f, more, h, true);
  }

  /** Its dial fails and it is no longer counted. */
  lemma Depart(f: State, es: seq<Event>, h: nat) returns (more: seq<Event>)
    requires var s := Run(f, es); h < |s.handlers| && s.handlers[h].Ready? && s.net.conns.Some?
    ensures var s, t := Run(f, es), Run(f, more);
      && t.handlers == s.handlers[h := Uncounted] && t.core == s.core && SameElsewhere(s, t)
      && t.usage == s.usage.(active := s.usage.active - 1)
  {
    hide Run;
    var s := Run(f, es);
    more := HandlerThen(f, es, h, false);
    assert Run(f, more) == s.(handlers := s.handlers[h := Leaving]);
    more := HandlerThen(f, more, h, true);
  }

  /** A tick one time unit later finds the gate unused and old enough. */
  lemma TickExpires(f: State, es: seq<Event>) returns (more: seq<Event>)
    requires var s := Run(f, es); s.idle == 1 && s.sweeper.Waiting? && s.usage == Usage(0, 0, 0)
    ensures Run(f, more) == Run(f, es).(usage := Usage(0, 0, 1), sweeper := Expired)
  {
    more := Then(f, es, Clock(1));
    more := Then(f, more, Sweeper(false));
    more := Then(f, more, Sweeper(false));
  }

  /**
   The reads and the take are separate steps, so a handler that arrives between them does lose its
   instance: in this run handler 1 is counted and has been told the instance is up, yet the sweeper
   holds it for closing.
   */
  lemma LateArrivalLosesInstance() returns (es: seq<Event>)
    ensures var s := Run(Fresh(1, 1, 0), es);
      && |s.handlers| == 2 && s.handlers[1].Ready? && IsCounted(s.handlers[1])
      && s.core.instance.None? && s.sweeper == Holding(0)
  {
    var f := Fresh(1, 1, 0);
    assert Run(f, []) == f;
    hide Run;
    es := Then(f, [], Accept(0));
    es := Arrive(f, es, 0);
    es := WarmUp(f, es, 0);
    es := Depart(f, es, 0);
    es := TickExpires(f, es);
    es := Then(f, es, Accept(0));
    es := Arrive(f, es, 1);
    es := HandlerThen(f, es, 1, true);
    es := Then(f, es, Sweeper(false));
  }
}

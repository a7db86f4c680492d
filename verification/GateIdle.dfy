/**
 How soon an unused instance is swept, whatever else happens meanwhile: connections may be accepted and
 tracked, departing handlers may finish, time passes and Close may be called, as long as no handler is
 counted and the gate is not closed.
 */
module GateIdle {
  import opened Common
  import opened GateProtocol
  import opened GateSafety
  import opened GateInstances
  import opened GateSweep

  /** The event counts no handler and does not close the gate. */
  ghost predicate Calm(s: State, e: Event) {
    && (e.Handler? && e.h < |s.handlers| ==> !s.handlers[e.h].Tracked?)
    && !Step(s, e).core.closed
  }

  ghost predicate CalmRun(s: State, es: seq<Event>) {
    es != [] ==> CalmRun(s, es[..|es| - 1]) && Calm(Run(s, es[..|es| - 1]), es[|es| - 1])
  }

  /** Nobody is counted, the gate is open and its sweeper alive, and time has not run backwards. */
  ghost predicate Unused(s: State) {
    && Inv(s) && s.idle > 0 && s.usage.active == 0 && s.usage.lastUse <= s.usage.now
    && !s.core.closed && !s.stopped && !s.sweeper.Stopped?
  }

  /** Instance i is installed and nobody is closing it. */
  predicate Kept(s: State, i: nat, closes: seq<nat>) {
    s.core.instance == Some(i) && !s.sweeper.Holding? && s.core.closes == closes
  }

  predicate InHand(s: State, i: nat, closes: seq<nat>) {
    s.core.instance.None? && s.sweeper == Holding(i) && s.core.closes == closes
  }

  /** Instance i has been closed, once more than before, and nothing has taken its place. */
  predicate Swept(s: State, i: nat, closes: seq<nat>) {
    && i < |closes| && s.core.instance.None? && !s.sweeper.Holding?
    && s.core.closes == closes[i := closes[i] + 1]
  }

  lemma NobodyIn(s: State)
    requires Unused(s)
    ensures NobodyCounted(s) && s.core.mu.None?
  {
    CountBounds(IsCounted, s.handlers);
    assert forall h :: 0 <= h < |s.handlers| ==> !s.handlers[h].Locked?;
  }

  lemma HandlerCalm(s: State, h: nat, ok: bool)
    requires HandlerEnabled(s, h) && !s.handlers[h].Tracked? && !IsCounted(s.handlers[h])
    requires s.usage.lastUse <= s.usage.now
    ensures var t := HandlerNext(s, h, ok);
      && t.core == s.core && t.sweeper == s.sweeper && t.stopped == s.stopped && t.idle == s.idle
      && t.usage.active == s.usage.active && t.usage.now == s.usage.now
      && (t.usage.lastUse == s.usage.lastUse || t.usage.lastUse == s.usage.now)
  {
  }

  /** On an open gate the only move of Close is the one that closes it. */
  lemma CloserCloses(s: State, c: nat, x: Conn)
    requires CloserInv(s) && CloserEnabled(s, c, x) && !s.core.closed
    ensures CloserNext(s, c, x).core.closed
  {
    assert !Won(s.closers[c]);
  }

  /** What a calm event other than the sweeper's own leaves alone. */
  lemma OtherCalm(s: State, e: Event)
    requires Unused(s) && Calm(s, e) && !e.Sweeper?
    ensures var t := Step(s, e);
      && Unused(t) && t.core == s.core && t.sweeper == s.sweeper && t.idle == s.idle
      && s.usage.lastUse <= t.usage.lastUse && s.usage.now <= t.usage.now
  {
    StepKeepsInv(s, e);
    NobodyIn(s);
    assert CloserInv(s);
    hide Inv;
    if e.Handler? && HandlerEnabled(s, e.h) { HandlerCalm(s, e.h, e.ok); }
    if e.Closer? && CloserEnabled(s, e.c, e.x) { CloserCloses(s, e.c, e.x); }
  }

  lemma SweeperCalm(s: State, stop: bool)
    requires Unused(s)
    ensures var t := Step(s, Sweeper(stop));
      && Unused(t) && t.usage == s.usage && t.idle == s.idle && !s.sweeper.Stopped?
      && (s.sweeper.Waiting? ==> t.core == s.core && t.sweeper == if stop then Waiting else Inactive)
      && (s.sweeper.Inactive? ==>
            t.core == s.core && t.sweeper == if s.usage.now - s.usage.lastUse < s.idle then Waiting else Expired)
      && (s.sweeper.Expired? ==>
            && t.core == s.core.(instance := None)
            && t.sweeper == if s.core.instance.None? then Waiting else Holding(s.core.instance.value))
      && (s.sweeper.Holding? ==> t.core == CloseInstance(s.core, Some(s.sweeper.inst)) && t.sweeper == Waiting)
  {
    StepKeepsInv(s, Sweeper(stop));
    NobodyIn(s);
    hide Inv;
  }

  // ---- where the instance can be

  ghost predicate Somewhere(s: State, i: nat, closes: seq<nat>) {
    Unused(s) && i < |closes| && (Kept(s, i, closes) || InHand(s, i, closes) || Swept(s, i, closes))
  }

  /** Only the sweeper moves the instance, in this order: kept, in its hand, swept. */
  ghost predicate CalmStepped(s: State, e: Event, t: State, i: nat, closes: seq<nat>) {
    && t.idle == s.idle && s.usage.lastUse <= t.usage.lastUse
    && (Swept(s, i, closes) ==> Swept(t, i, closes))
    && (InHand(s, i, closes) ==> if e.Sweeper? then Swept(t, i, closes) else InHand(t, i, closes))
    && (Kept(s, i, closes) ==>
          if e.Sweeper? && s.sweeper.Expired? then InHand(t, i, closes) else Kept(t, i, closes))
    && (!e.Sweeper? ==> t.sweeper == s.sweeper)
    && (e.Sweeper? && s.sweeper.Inactive? ==>
          t.sweeper == if s.usage.now - s.usage.lastUse < s.idle then Waiting else Expired)
    && (e.Sweeper? && s.sweeper.Waiting? ==> !t.sweeper.Expired?)
    && !s.sweeper.Stopped?
  }

  lemma CalmStep(s: State, e: Event, i: nat, closes: seq<nat>)
    requires Somewhere(s, i, closes) && Calm(s, e)
    ensures Somewhere(Step(s, e), i, closes) && CalmStepped(s, e, Step(s, e), i, closes)
  {
    assert !s.sweeper.Stopped?;
    hide Unused, Calm, Step;
    if e.Sweeper? { SweeperCalm(s, e.stop); } else { OtherCalm(s, e); }
  }

  lemma {:induction false} CalmPrefix(s: State, es: seq<Event>, c: nat)
    requires CalmRun(s, es) && c <= |es|
    ensures CalmRun(s, es[..c])
  {
    if c < |es| {
      CalmPrefix(s, es[..|es| - 1], c);
      assert es[..|es| - 1][..c] == es[..c];
    } else {
      assert es[..c] == es;
    }
  }

  lemma {:induction false} CalmStays(s: State, es: seq<Event>, i: nat)
    requires Unused(s) && i < |s.core.closes| && Kept(s, i, s.core.closes) && CalmRun(s, es)
    ensures Somewhere(Run(s, es), i, s.core.closes) && Run(s, es).idle == s.idle
    ensures s.usage.lastUse <= Run(s, es).usage.lastUse
  {
    hide Unused, Calm, Step, Kept, InHand, Swept;
    if es != [] {
      CalmStays(s, es[..|es| - 1], i);
      CalmStep(Run(s, es[..|es| - 1]), es[|es| - 1], i, s.core.closes);
    }
  }

  /** Over a calm run the last use only moves forward. */
  lemma {:induction false} LastUseGrows(s: State, es: seq<Event>, i: nat, c: nat)
    requires Unused(s) && i < |s.core.closes| && Kept(s, i, s.core.closes) && CalmRun(s, es) && c <= |es|
    ensures Run(s, es[..c]).usage.lastUse <= Run(s, es).usage.lastUse
  {
    hide Unused, Calm, Step, Kept, InHand, Swept;
    if c == |es| {
      assert es[..c] == es;
    } else {
      LastUseGrows(s, es[..|es| - 1], i, c);
      assert es[..|es| - 1][..c] == es[..c];
      CalmStays(s, es[..|es| - 1], i);
      CalmStep(Run(s, es[..|es| - 1]), es[|es| - 1], i, s.core.closes);
    }
  }

  // ---- the sweep

  predicate IsSweeper(e: Event) { e.Sweeper? }

  function SweeperSteps(es: seq<Event>): nat { Count(IsSweeper, es) }

  /** Event p is the sweeper's clock read. */
  ghost predicate Reads(s: State, es: seq<Event>, p: nat) {
    p < |es| && es[p].Sweeper? && Run(s, es[..p]).sweeper.Inactive?
  }

  function Now(s: State, es: seq<Event>, p: nat): int
    requires p <= |es|
  {
    Run(s, es[..p]).usage.now
  }

  /** The read finds the instance unused for the idle time. */
  ghost predicate Expires(s: State, es: seq<Event>, p: nat) {
    Reads(s, es, p) && Now(s, es, p) - Run(s, es[..p]).usage.lastUse >= s.idle
  }

  /** From an expired read on, the sweeper's next two steps take and close the instance. */
  lemma {:induction false} ExpiredIsSwept(s: State, es: seq<Event>, i: nat, p: nat, c: nat)
    requires Unused(s) && i < |s.core.closes| && Kept(s, i, s.core.closes) && CalmRun(s, es)
    requires Expires(s, es, p) && p < c <= |es|
    ensures var t, n := Run(s, es[..c]), SweeperSteps(es[p..c]);
      && n >= 1
      && (n == 1 ==> Swept(t, i, s.core.closes) || (Kept(t, i, s.core.closes) && t.sweeper.Expired?))
      && (n == 2 ==> Swept(t, i, s.core.closes) || InHand(t, i, s.core.closes))
      && (n >= 3 ==> Swept(t, i, s.core.closes))
  {
    hide Unused, Calm, Step, CalmRun;
    var m := c - 1;
    CalmTo(s, es, i, m);
    StepsTo(es, p, m);
    if m > p { ExpiredIsSwept(s, es, i, p, m); }
  }

  /** The state before event m is followed, and event m is a calm step from it. */
  lemma CalmTo(s: State, es: seq<Event>, i: nat, m: nat)
    requires Unused(s) && i < |s.core.closes| && Kept(s, i, s.core.closes) && CalmRun(s, es) && m < |es|
    ensures var t := Run(s, es[..m]);
      && Somewhere(t, i, s.core.closes) && Calm(t, es[m]) && Run(s, es[..m + 1]) == Step(t, es[m]) && t.idle == s.idle
    ensures CalmStepped(Run(s, es[..m]), es[m], Run(s, es[..m + 1]), i, s.core.closes)
  {
    CalmPrefix(s, es, m + 1);
    assert es[..m + 1][..m] == es[..m] && es[..m + 1][m] == es[m];
    CalmStays(s, es[..m], i);
    CalmStep(Run(s, es[..m]), es[m], i, s.core.closes);
  }

  lemma StepsTo(es: seq<Event>, p: nat, m: nat)
    requires p <= m < |es|
    ensures SweeperSteps(es[p..m + 1]) == SweeperSteps(es[p..m]) + if es[m].Sweeper? then 1 else 0
    ensures p == m ==> SweeperSteps(es[p..m]) == 0
  {
    assert es[p..m + 1][..m - p] == es[p..m] && es[p..m + 1][m - p] == es[m];
  }

  /**
   A tick that reads the clock at or after last use + idle sweeps the instance: once the sweeper has made
   that step and two more, interleaved with anything calm, the instance has been closed exactly once.
   */
  lemma TickSweeps(s: State, es: seq<Event>, i: nat, p: nat)
    requires Unused(s) && i < |s.core.closes| && Kept(s, i, s.core.closes) && CalmRun(s, es)
    requires Expires(s, es, p) && SweeperSteps(es[p..]) >= 3
    ensures Swept(Run(s, es), i, s.core.closes)
  {
    ExpiredIsSwept(s, es, i, p, |es|);
    assert es[..|es|] == es;
  }

  /** And never earlier: without an expired read the instance stays installed. */
  lemma {:induction false} NotSweptEarly(s: State, es: seq<Event>, i: nat)
    requires Unused(s) && i < |s.core.closes| && Kept(s, i, s.core.closes) && !s.sweeper.Expired? && CalmRun(s, es)
    requires forall p :: 0 <= p < |es| ==> !Expires(s, es, p)
    ensures Kept(Run(s, es), i, s.core.closes) && !Run(s, es).sweeper.Expired?
  {
    hide Unused, Calm, Step, CalmRun;
    if es != [] {
      var n := |es| - 1;
      forall p | 0 <= p < n ensures !Expires(s, es[..n], p) {
        assert es[..n][..p] == es[..p] && !Expires(s, es, p);
      }
      CalmPrefix(s, es, n);
      NotSweptEarly(s, es[..n], i);
      CalmTo(s, es, i, n);
      assert !Expires(s, es, n) && es[..n + 1] == es;
    }
  }

  /** The reads at positions ps: the first within one interval of the last use so far, then at most one apart. */
  ghost predicate Timely(s: State, es: seq<Event>, ps: seq<nat>) {
    var gap := SweepIntervalFor(s.idle);
    && |ps| > 0 && (forall j :: 0 <= j < |ps| ==> Reads(s, es, ps[j]))
    && Now(s, es, ps[0]) <= s.usage.lastUse + gap
    && forall j :: 0 < j < |ps| ==> Now(s, es, ps[j]) <= Now(s, es, ps[j - 1]) + gap
  }

  /**
   With timely ticks an instance nobody uses is closed, once, by a tick that reads the clock no later than
   last use + idle + SweepIntervalFor(idle), where the last use is that of the whole run: departing
   handlers may still touch.
   */
  lemma UnusedInstanceIsSwept(s: State, es: seq<Event>, i: nat, ps: seq<nat>) returns (k: nat)
    requires Unused(s) && i < |s.core.closes| && Kept(s, i, s.core.closes) && CalmRun(s, es)
    requires Timely(s, es, ps) && Now(s, es, ps[|ps| - 1]) >= Run(s, es).usage.lastUse + s.idle
    ensures var last := Run(s, es).usage.lastUse;
      && k < |ps| && ps[k] < |es|
      && last + s.idle <= Now(s, es, ps[k]) <= last + s.idle + SweepIntervalFor(s.idle)
    ensures forall c :: ps[k] < c <= |es| && SweeperSteps(es[ps[k]..c]) >= 3 ==>
      Swept(Run(s, es[..c]), i, s.core.closes)
  {
    hide Run, Unused, Kept, CalmRun, Swept;
    var last := Run(s, es).usage.lastUse;
    CalmStays(s, es, i);
    assert s.idle > 0 by { UnusedIdle(s); }
    k := 0;
    while Now(s, es, ps[k]) < last + s.idle
      invariant k < |ps|
      invariant k > 0 ==> Now(s, es, ps[k - 1]) < last + s.idle
      decreases |ps| - k
    {
      k := k + 1;
    }
    assert Reads(s, es, ps[k]);
    LastUseGrows(s, es, i, ps[k]);
    forall c | ps[k] < c <= |es| && SweeperSteps(es[ps[k]..c]) >= 3 ensures Swept(Run(s, es[..c]), i, s.core.closes) {
      ExpiredIsSwept(s, es, i, ps[k], c);
    }
  }

  lemma UnusedIdle(s: State)
    requires Unused(s)
    ensures s.idle > 0
  {
  }

  // ---- every reachable state qualifies

  ghost predicate Sane(s: State) {
    (s.stopped ==> s.core.closed) && (s.sweeper.Stopped? ==> s.stopped) && s.usage.lastUse <= s.usage.now
  }

  lemma StepKeepsSane(s: State, e: Event)
    requires LockInv(s) && CloserInv(s) && Sane(s)
    ensures Sane(Step(s, e))
  {
  }

  lemma {:induction false} SaneAlways(idle: int, bridges: nat, now: int, es: seq<Event>)
    ensures Sane(Run(Fresh(idle, bridges, now), es))
  {
    hide Step;
    if es != [] {
      SaneAlways(idle, bridges, now, es[..|es| - 1]);
      InvAlways(idle, bridges, now, es[..|es| - 1]);
      StepKeepsSane(Run(Fresh(idle, bridges, now), es[..|es| - 1]), es[|es| - 1]);
    }
  }

  /**
   In every run, an open gate with an idle limit, an instance nobody is closing and no counted handler is
   one the results above speak of.
   */
  lemma ReachableIsUnused(idle: int, bridges: nat, now: int, es: seq<Event>, i: nat)
    requires var s := Run(Fresh(idle, bridges, now), es);
      s.idle > 0 && s.usage.active == 0 && !s.core.closed && s.core.instance == Some(i) && !s.sweeper.Holding?
    ensures var s := Run(Fresh(idle, bridges, now), es);
      Unused(s) && i < |s.core.closes| && Kept(s, i, s.core.closes)
  {
    InstancesConserved(idle, bridges, now, es);
    SaneAlways(idle, bridges, now, es);
  }
}

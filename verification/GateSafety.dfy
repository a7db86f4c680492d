/**
 Safety of the gate over every interleaving: connections never leak, instances are conserved, and
 the activity counter is exact.
 */
module GateSafety {
  import opened Common
  import opened GateProtocol

  // ---- what the program counters mean

  /** The handler has tracked its client and not yet forgotten it. */
  predicate KeepsClient(pc: HandlerPc) {
    !pc.Accepted? && !pc.Refused? && !pc.Forgotten? && !pc.Done?
  }

  /** The handler is between its active.Add(1) and its active.Add(-1). */
  predicate IsCounted(pc: HandlerPc) {
    KeepsClient(pc) && !pc.Tracked? && !pc.Uncounted? && !pc.Retouched?
  }

  /** The handler has dialed an upstream it has not closed yet. */
  predicate OwesUpstream(pc: HandlerPc) {
    pc.Dialed? || pc.UpRefused? || pc.Relaying? || pc.UpForgotten?
  }

  predicate TrackedNow(s: State, x: Conn) {
    && x.h < |s.handlers|
    && (if x.Client? then KeepsClient(s.handlers[x.h]) else s.handlers[x.h].Relaying?)
  }

  /** Handler x.h is still going to close x itself. */
  predicate Owed(s: State, x: Conn) {
    && x.h < |s.handlers|
    && (if x.Client? then !s.handlers[x.h].Done? else OwesUpstream(s.handlers[x.h]))
  }

  /** The one caller of Close that found the gate open. */
  predicate Won(pc: CloserPc) {
    pc.Took? || pc.Shutting? || pc.Closing? || pc.Finished?
  }

  function CountedHandlers(hs: seq<HandlerPc>): nat {
    Count(IsCounted, hs)
  }

  function AllDone(hs: seq<HandlerPc>): bool {
    forall h | 0 <= h < |hs| :: hs[h].Done?
  }

  // ---- the inductive invariant

  /** mu's long critical section: held by exactly the handler inside ensure, on an open cold gate. */
  ghost predicate LockInv(s: State) {
    && (s.core.mu.Some? ==> s.core.mu.value < |s.handlers| && !s.core.closed && s.core.instance.None?)
    && (forall h :: 0 <= h < |s.handlers| ==> (s.handlers[h].Locked? <==> s.core.mu == Some(h)))
    && (s.core.closed ==> s.core.instance.None?)
  }

  /** At most one Close call gets past the flag, and conns turns nil exactly when it says so. */
  ghost predicate CloserInv(s: State) {
    && (forall c, d :: 0 <= c < |s.closers| && 0 <= d < |s.closers| && Won(s.closers[c]) && Won(s.closers[d]) ==>
          c == d)
    && (forall c :: 0 <= c < |s.closers| && Won(s.closers[c]) ==> s.core.closed)
    && (!s.core.closed ==> s.net.conns.Some?)
    && (forall c :: 0 <= c < |s.closers| && (s.closers[c].Took? || s.closers[c].Shutting?) ==> s.net.conns.Some?)
    && (forall c :: 0 <= c < |s.closers| && (s.closers[c].Closing? || s.closers[c].Finished?) ==>
          s.net.conns.None? && s.stopped && s.shut >= s.bridges)
    && (forall c :: 0 <= c < |s.closers| && s.closers[c].Shutting? ==> s.stopped)
  }

  /** While the map exists it holds exactly the tracked connections. */
  ghost predicate ConnsExact(s: State) {
    s.net.conns.Some? ==> forall x :: x in s.net.conns.value <==> TrackedNow(s, x)
  }

  /** Whatever is open has a handler that owes its close; what teardown saw tracked is closed or about to be. */
  ghost predicate OpenInv(s: State) {
    && (forall h: nat :: Client(h) in s.net.everOpen <==> h < |s.handlers|)
    && (forall h: nat :: Upstream(h) in s.net.everOpen ==> h < |s.handlers|)
    && (forall h :: 0 <= h < |s.handlers| && OwesUpstream(s.handlers[h]) ==> Upstream(h) in s.net.everOpen)
    && (forall x :: x in s.net.everOpen && x !in s.net.closed ==> Owed(s, x))
    && s.net.closed <= s.net.everOpen
  }

  ghost predicate TeardownInv(s: State) {
    && (forall c, x :: 0 <= c < |s.closers| && s.closers[c].Closing? && TrackedNow(s, x) ==>
          x in s.net.closed || x in s.closers[c].pending)
    && (forall c, x :: 0 <= c < |s.closers| && s.closers[c].Finished? && TrackedNow(s, x) ==> x in s.net.closed)
    && (forall c :: 0 <= c < |s.closers| && s.closers[c].Closing? ==> s.closers[c].pending <= s.net.everOpen)
  }

  ghost predicate Inv(s: State) {
    LockInv(s) && CloserInv(s) && ConnsExact(s) && OpenInv(s) && TeardownInv(s)
    && s.usage.active == CountedHandlers(s.handlers)
  }

  lemma HandlerKeepsLocks(s: State, h: nat, ok: bool)
    requires LockInv(s) && CloserInv(s) && HandlerEnabled(s, h)
    ensures LockInv(HandlerNext(s, h, ok)) && CloserInv(HandlerNext(s, h, ok))
  {
  }

  lemma HandlerKeepsConns(s: State, h: nat, ok: bool)
    requires ConnsExact(s) && HandlerEnabled(s, h)
    ensures ConnsExact(HandlerNext(s, h, ok))
  {
  }

  lemma HandlerKeepsOpen(s: State, h: nat, ok: bool)
    requires OpenInv(s) && HandlerEnabled(s, h)
    ensures OpenInv(HandlerNext(s, h, ok))
  {
  }

  lemma HandlerKeepsTeardown(s: State, h: nat, ok: bool)
    requires TeardownInv(s) && CloserInv(s) && HandlerEnabled(s, h)
    ensures TeardownInv(HandlerNext(s, h, ok))
  {
  }

  lemma HandlerKeepsCount(s: State, h: nat, ok: bool)
    requires s.usage.active == CountedHandlers(s.handlers) && HandlerEnabled(s, h)
    ensures HandlerNext(s, h, ok).usage.active == CountedHandlers(HandlerNext(s, h, ok).handlers)
  {
    CountAfter(IsCounted, s.handlers, h, HandlerNext(s, h, ok).handlers[h]);
  }

  lemma CloserKeepsLocks(s: State, c: nat, x: Conn)
    requires LockInv(s) && CloserInv(s) && CloserEnabled(s, c, x)
    ensures LockInv(CloserNext(s, c, x)) && CloserInv(CloserNext(s, c, x))
  {
  }

  lemma CloserKeepsConns(s: State, c: nat, x: Conn)
    requires ConnsExact(s) && OpenInv(s) && TeardownInv(s) && CloserEnabled(s, c, x)
    ensures ConnsExact(CloserNext(s, c, x)) && OpenInv(CloserNext(s, c, x))
    ensures CloserNext(s, c, x).handlers == s.handlers && CloserNext(s, c, x).usage == s.usage
  {
  }

  lemma CloserKeepsTeardown(s: State, c: nat, x: Conn)
    requires ConnsExact(s) && OpenInv(s) && TeardownInv(s) && CloserInv(s) && CloserEnabled(s, c, x)
    ensures TeardownInv(CloserNext(s, c, x))
  {
    var t := CloserNext(s, c, x);
    forall d, y | 0 <= d < |t.closers| && t.closers[d].Closing? && TrackedNow(t, y)
      ensures y in t.net.closed || y in t.closers[d].pending
    {
      assert TrackedNow(s, y);
    }
    forall d, y | 0 <= d < |t.closers| && t.closers[d].Finished? && TrackedNow(t, y)
      ensures y in t.net.closed
    {
      assert TrackedNow(s, y);
    }
    if t.net.conns != s.net.conns {
      forall y | y in s.net.conns.value ensures y in s.net.everOpen { assert TrackedNow(s, y); }
    }
  }

  lemma AcceptKeepsConns(s: State, b: nat)
    requires LockInv(s) && ConnsExact(s) && s.usage.active == CountedHandlers(s.handlers)
    ensures LockInv(AcceptNext(s, b)) && ConnsExact(AcceptNext(s, b))
    ensures AcceptNext(s, b).usage.active == CountedHandlers(AcceptNext(s, b).handlers)
  {
    CountAppend(IsCounted, s.handlers, Accepted);
  }

  lemma AcceptKeepsOpen(s: State, b: nat)
    requires OpenInv(s)
    ensures OpenInv(AcceptNext(s, b))
  {
    var t := AcceptNext(s, b);
    forall x | x in t.net.everOpen && x !in t.net.closed ensures Owed(t, x) {
      if x != Client(|s.handlers|) {
        assert Owed(s, x);
      }
    }
  }

  lemma AcceptKeepsTeardown(s: State, b: nat)
    requires CloserInv(s) && TeardownInv(s)
    ensures CloserInv(AcceptNext(s, b)) && TeardownInv(AcceptNext(s, b))
  {
  }

  lemma SweeperFrame(s: State, stop: bool)
    requires LockInv(s) && SweeperEnabled(s, stop)
    ensures var t := SweeperNext(s, stop);
      LockInv(t) && t == s.(core := t.core, sweeper := t.sweeper) && t.core.closed == s.core.closed
  {
  }

  lemma SweeperKeepsInv(s: State, stop: bool)
    requires Inv(s) && SweeperEnabled(s, stop)
    ensures Inv(SweeperNext(s, stop))
  {
    hide SweeperNext;
    SweeperFrame(s, stop);
  }

  lemma CallKeepsInv(s: State)
    requires Inv(s)
    ensures Inv(Step(s, CallClose))
  {
  }

  lemma StepKeepsInv(s: State, e: Event)
    requires Inv(s)
    ensures Inv(Step(s, e))
  {
    match e
    case Accept(b) =>
      AcceptKeepsConns(s, b);
      AcceptKeepsOpen(s, b);
      AcceptKeepsTeardown(s, b);
    case Handler(h, ok) =>
      if HandlerEnabled(s, h) {
        HandlerKeepsLocks(s, h, ok);
        HandlerKeepsConns(s, h, ok);
        HandlerKeepsOpen(s, h, ok);
        HandlerKeepsTeardown(s, h, ok);
        HandlerKeepsCount(s, h, ok);
      }
    case CallClose => CallKeepsInv(s);
    case Closer(c, x) =>
      if CloserEnabled(s, c, x) {
        CloserKeepsLocks(s, c, x);
        CloserKeepsConns(s, c, x);
        CloserKeepsTeardown(s, c, x);
      }
    case Sweeper(stop) => if SweeperEnabled(s, stop) { SweeperKeepsInv(s, stop); }
    case Clock(_) =>
  }

  /** The invariant holds after every run of every gate. */
  lemma {:induction false} InvAlways(idle: int, bridges: nat, now: int, es: seq<Event>)
    ensures Inv(Run(Fresh(idle, bridges, now), es))
  {
    if es != [] {
      InvAlways(idle, bridges, now, es[..|es| - 1]);
      StepKeepsInv(Run(Fresh(idle, bridges, now), es[..|es| - 1]), es[|es| - 1]);
    }
  }

  /**
   Connections never leak. In every reachable state the map, while it exists, is exactly the tracked
   connections; an open connection always has a live handler that owes its close, so once every
   handler is done nothing that was ever accepted or dialed is open.
   */
  lemma NoConnectionLeaks(idle: int, bridges: nat, now: int, es: seq<Event>)
    ensures var s := Run(Fresh(idle, bridges, now), es);
      && (s.net.conns.Some? ==> forall x :: x in s.net.conns.value <==> TrackedNow(s, x))
      && (forall x :: x in s.net.everOpen && x !in s.net.closed ==> Owed(s, x))
      && (AllDone(s.handlers) ==> s.net.everOpen == s.net.closed)
  {
    InvAlways(idle, bridges, now, es);
    var s := Run(Fresh(idle, bridges, now), es);
    if AllDone(s.handlers) {
      forall x | x in s.net.everOpen ensures x in s.net.closed {
        assert x !in s.net.closed ==> Owed(s, x);
      }
    }
  }

  /**
   What Close owes: once the winning call has finished, no listener accepts, nothing can be tracked,
   and every connection a handler still has tracked is closed, so no relay waits on a live peer.
   */
  lemma CloseLeavesNothingToWaitFor(idle: int, bridges: nat, now: int, es: seq<Event>, c: nat)
    requires var s := Run(Fresh(idle, bridges, now), es); c < |s.closers| && s.closers[c].Finished?
    ensures var s := Run(Fresh(idle, bridges, now), es);
      && s.core.closed && s.stopped && s.net.conns.None?
      && (forall b: nat :: AcceptNext(s, b) == s)
      && (forall h: nat :: h < |s.handlers| && KeepsClient(s.handlers[h]) ==> Client(h) in s.net.closed)
      && (forall h: nat :: h < |s.handlers| && s.handlers[h].Relaying? ==>
            Client(h) in s.net.closed && Upstream(h) in s.net.closed)
  {
    InvAlways(idle, bridges, now, es);
    var s := Run(Fresh(idle, bridges, now), es);
    forall h: nat | h < |s.handlers| && KeepsClient(s.handlers[h]) ensures Client(h) in s.net.closed {
      assert TrackedNow(s, Client(h));
    }
    forall h: nat | h < |s.handlers| && s.handlers[h].Relaying? ensures Upstream(h) in s.net.closed {
      assert TrackedNow(s, Upstream(h));
    }
  }
}

/**
 Liveness of teardown: after Close, every remaining handler runs to its end without help from a
 peer, in a bounded number of steps.
 */
module GateDrain {
  import opened Common
  import opened GateProtocol
  import opened GateSafety
  import opened GateInstances

  /** An upper bound on the steps left before Done. */
  function Rank(pc: HandlerPc): nat {
    match pc
    case Accepted => 16
    case Tracked => 15
    case Counted => 14
    case Touched => 13
    case Locked(built) => if built.None? then 12 else 11
    case Ready => 10
    case Dialed => 9
    case Relaying => 8
    case UpForgotten => 7
    case UpRefused => 7
    case Leaving => 6
    case Uncounted => 5
    case Retouched => 4
    case Forgotten => 3
    case Refused => 3
    case Done => 0
  }

  function TotalRank(hs: seq<HandlerPc>): nat {
    Sum(Rank, hs)
  }

  /** Handler h can move now, and if it is relaying then only because both its connections are closed. */
  predicate Unaided(s: State, h: nat) {
    && HandlerEnabled(s, h)
    && (s.handlers[h].Relaying? ==> Client(h) in s.net.closed && Upstream(h) in s.net.closed)
  }

  ghost predicate TornDown(s: State) {
    Inv(s) && exists c :: 0 <= c < |s.closers| && s.closers[c].Finished?
  }

  lemma MoveDescends(s: State, h: nat, ok: bool)
    requires HandlerEnabled(s, h)
    ensures TotalRank(HandlerNext(s, h, ok).handlers) < TotalRank(s.handlers)
  {
    SumAfter(Rank, s.handlers, h, HandlerMove(s, h, ok).0);
  }

  lemma FinishedStays(s: State, e: Event, c: nat)
    requires c < |s.closers| && s.closers[c].Finished?
    ensures c < |Step(s, e).closers| && Step(s, e).closers[c].Finished?
  {
  }

  /**
   After teardown no handler is stuck: each unfinished one can move unaided. And no event can undo
   progress: every step that touches the handlers lowers their total rank.
   */
  lemma TornDownProgress(s: State, e: Event)
    requires TornDown(s)
    ensures TornDown(Step(s, e))
    ensures forall h: nat :: h < |s.handlers| && !s.handlers[h].Done? ==> Unaided(s, h)
    ensures Step(s, e).handlers == s.handlers || TotalRank(Step(s, e).handlers) < TotalRank(s.handlers)
  {
    StepKeepsInv(s, e);
    var c :| 0 <= c < |s.closers| && s.closers[c].Finished?;
    FinishedStays(s, e, c);
    assert Won(s.closers[c]);
    forall h: nat | h < |s.handlers| && !s.handlers[h].Done? ensures Unaided(s, h) {
      assert TrackedNow(s, Client(h)) ==> Client(h) in s.net.closed;
      assert TrackedNow(s, Upstream(h)) ==> Upstream(h) in s.net.closed;
    }
    if e.Handler? && HandlerEnabled(s, e.h) { MoveDescends(s, e.h, e.ok); }
  }

  /** How many events of a run moved some handler. */
  function Moves(s: State, es: seq<Event>): nat {
    if es == [] then 0
    else
      var t := Run(s, es[..|es| - 1]);
      Moves(s, es[..|es| - 1]) + if Step(t, es[|es| - 1]).handlers == t.handlers then 0 else 1
  }

  /** However the schedule goes after teardown, the handlers take at most TotalRank steps between them. */
  lemma {:induction false} TeardownIsBounded(s: State, es: seq<Event>)
    requires TornDown(s)
    ensures TornDown(Run(s, es))
    ensures Moves(s, es) + TotalRank(Run(s, es).handlers) <= TotalRank(s.handlers)
  {
    if es != [] {
      TeardownIsBounded(s, es[..|es| - 1]);
      TornDownProgress(Run(s, es[..|es| - 1]), es[|es| - 1]);
    }
  }

  /** Moving unaided handlers alone reaches the state where every handler is done. */
  lemma {:induction false} HandlersFinish(s: State) returns (rest: seq<Event>)
    requires TornDown(s)
    ensures |rest| <= TotalRank(s.handlers)
    ensures forall k :: 0 <= k < |rest| ==> rest[k].Handler?
    ensures AllDone(Run(s, rest).handlers)
    decreases TotalRank(s.handlers)
  {
    if AllDone(s.handlers) {
      rest := [];
    } else {
      var h :| 0 <= h < |s.handlers| && !s.handlers[h].Done?;
      var e := Handler(h, true);
      TornDownProgress(s, e);
      assert Unaided(s, h);
      MoveDescends(s, h, true);
      var tail := HandlersFinish(Step(s, e));
      rest := [e] + tail;
      RunConcat(s, [e], tail);
      assert [e][..0] == [] && Run(s, [e]) == Step(s, e);
    }
  }

  /**
   Close really empties the gate: from any reachable state where Close has finished there is a way
   on using handler steps only, and at its end every connection ever opened is closed.
   */
  lemma GateEmpties(idle: int, bridges: nat, now: int, es: seq<Event>, c: nat) returns (rest: seq<Event>)
    requires var s := Run(Fresh(idle, bridges, now), es); c < |s.closers| && s.closers[c].Finished?
    ensures forall k :: 0 <= k < |rest| ==> rest[k].Handler?
    ensures var t := Run(Run(Fresh(idle, bridges, now), es), rest);
      AllDone(t.handlers) && t.net.everOpen == t.net.closed
  {
    InvAlways(idle, bridges, now, es);
    rest := HandlersFinish(Run(Fresh(idle, bridges, now), es));
    RunConcat(Fresh(idle, bridges, now), es, rest);
    NoConnectionLeaks(idle, bridges, now, es + rest);
  }

  // ---- the sweeper ends too

  function SweeperRank(pc: SweeperPc): nat {
    match pc
    case Inactive => 3
    case Expired => 2
    case Holding(_) => 2
    case Waiting => 1
    case Stopped => 0
  }

  lemma SweeperDescends(s: State)
    requires TornDown(s) && !s.sweeper.Stopped?
    ensures var t := Step(s, Sweeper(true));
      TornDown(t) && t.handlers == s.handlers && SweeperRank(t.sweeper) < SweeperRank(s.sweeper)
  {
    TornDownProgress(s, Sweeper(true));
    var c :| 0 <= c < |s.closers| && s.closers[c].Finished?;
    assert s.stopped && s.core.closed && s.core.mu.None? by { assert Won(s.closers[c]); }
    hide Inv;
  }

  lemma {:induction false} SweeperEnds(s: State) returns (rest: seq<Event>)
    requires TornDown(s)
    ensures |rest| <= SweeperRank(s.sweeper) && forall k :: 0 <= k < |rest| ==> rest[k] == Sweeper(true)
    ensures var t := Run(s, rest); TornDown(t) && t.handlers == s.handlers && t.sweeper.Stopped?
    decreases SweeperRank(s.sweeper)
  {
    hide Step, TornDown;
    if s.sweeper.Stopped? {
      rest := [];
    } else {
      SweeperDescends(s);
      var tail := SweeperEnds(Step(s, Sweeper(true)));
      rest := [Sweeper(true)] + tail;
      RunConcat(s, [Sweeper(true)], tail);
      assert [Sweeper(true)][..0] == [] && Run(s, [Sweeper(true)]) == Step(s, Sweeper(true));
    }
  }

  /** A bounded number of steps of handlers and sweeper, after which all have ended and nothing is left open. */
  ghost predicate EndsBy(s: State, rest: seq<Event>) {
    && |rest| <= TotalRank(s.handlers) + 3
    && (forall k :: 0 <= k < |rest| ==> rest[k].Handler? || rest[k] == Sweeper(true))
    && var t := Run(s, rest);
       && AllDone(t.handlers) && t.sweeper.Stopped? && t.net.everOpen == t.net.closed
       && forall i :: 0 <= i < |t.core.closes| ==> t.core.closes[i] == 1
  }

  /**
   The whole gate ends: from any reachable state where Close has finished, a bounded number of steps of the
   handlers and of the sweeper alone lead to a state where every handler is done and the sweeper has stopped,
   every connection ever opened is closed, and every instance ever created has been closed exactly once.
   */
  lemma GateEnds(idle: int, bridges: nat, now: int, es: seq<Event>, c: nat)
    requires var s := Run(Fresh(idle, bridges, now), es); c < |s.closers| && s.closers[c].Finished?
    ensures exists rest :: EndsBy(Run(Fresh(idle, bridges, now), es), rest)
  {
    var f := Fresh(idle, bridges, now);
    InvAlways(idle, bridges, now, es);
    var rest := BothEnd(Run(f, es));
    RunConcat(f, es, rest);
    NoConnectionLeaks(idle, bridges, now, es + rest);
    hide Run, Fresh, TotalRank;
    var t := Run(f, es + rest);
    var d :| 0 <= d < |t.closers| && t.closers[d].Finished?;
    hide TornDown;
    forall i | 0 <= i < |t.core.closes| ensures t.core.closes[i] == 1 {
      EveryInstanceClosedOnce(idle, bridges, now, es + rest, d, i);
    }
    assert EndsBy(Run(f, es), rest);
  }

  lemma BothEnd(s: State) returns (rest: seq<Event>)
    requires TornDown(s)
    ensures |rest| <= TotalRank(s.handlers) + 3
    ensures forall k :: 0 <= k < |rest| ==> rest[k].Handler? || rest[k] == Sweeper(true)
    ensures var t := Run(s, rest); TornDown(t) && AllDone(t.handlers) && t.sweeper.Stopped?
  {
    hide Run, TornDown, TotalRank;
    var a := HandlersFinish(s);
    TeardownIsBounded(s, a);
    var b := SweeperEnds(Run(s, a));
    RunConcat(s, a, b);
    rest := a + b;
  }
}

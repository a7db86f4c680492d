/** The reporter always gets to its end: nothing other readers, publishers or the ticker do can wedge it. */
module ReporterProgress {
  import Batch = BatchRunner
  import BatchSafety
  import opened Reporter

  function PcRank(pc: Pc): nat {
    match pc
    case InBatch => 4
    case Stopping => 3
    case Draining(_) => 2
    case Filling(_) => 1
    case Finished => 0
  }

  /** Steps left before the reporter's goroutine can leave the point where it is. */
  function Ahead(s: State): nat {
    match s.pc
    case Stopping => (match s.ticker case Reading(rest) => |rest| + 2 case Ticking => 1 case Halted => 0)
    case Draining(rest) => |rest|
    case Filling(rest) => |rest|
    case _ => 0
  }

  /** A move of the batch, its workers, the ticker or the reporter, as opposed to those of strangers. */
  predicate OwnMove(e: Event) {
    (e.Outside? ==> e.e.Go? || e.e.Work?)
  }

  ghost predicate Ranked(s: State) { Inv(s) && s.batch.limit > 0 && BatchSafety.Phases(s.batch) }

  ghost predicate Lower(t: State, s: State)
    requires Ranked(s) && Ranked(t)
  {
    var a, b := BatchSafety.BatchRank(t.batch), BatchSafety.BatchRank(s.batch);
    || a < b
    || (a == b && PcRank(t.pc) < PcRank(s.pc))
    || (a == b && PcRank(t.pc) == PcRank(s.pc) && Ahead(t) < Ahead(s))
  }

  lemma StepKeepsRanked(s: State, e: Event)
    requires Ranked(s)
    ensures Ranked(Step(s, e))
  {
    StepKeeps(s, e);
    LimitStays(s, e);
    hide Step;
  }

  lemma LimitStays(s: State, e: Event)
    ensures Step(s, e).batch.limit == s.batch.limit
  {
    hide Batch.Step;
    BatchSafety.StepKeepsRequest(s.batch, Batch.Drain);
    if e.Outside? { BatchSafety.StepKeepsRequest(s.batch, e.e); }
  }

  /** While the batch runs, it or one of its workers can move. */
  lemma BatchMove(s: State) returns (e: Event)
    requires Ranked(s) && !s.batch.main.Back?
    ensures OwnMove(e) && Ranked(Step(s, e)) && Lower(Step(s, e), s)
  {
    BatchSafety.SomeoneCanMove(s.batch);
    if Batch.GoEnabled(s.batch) {
      e := Outside(Batch.Go);
    } else {
      var p: nat :| Batch.WorkEnabled(s.batch, p);
      e := Outside(Batch.Work(p, true, Batch.Measured(0)));
    }
    StepKeepsRanked(s, e);
    hide Inv, Batch.Step;
    BatchSafety.RankDescends(s.batch, e.e);
  }

  function NextOwn(s: State): Event {
    if !s.pc.Stopping? then Main
    else match s.ticker
      case Reading(_) => Tick
      case Ticking => Halt
      case Halted => Main
  }

  /** What that move does: the batch keeps its rank, and the reporter gets closer to its end. */
  lemma OwnAdvances(s: State)
    requires s.batch.main.Back? && !s.pc.Finished?
    ensures var t := Step(s, NextOwn(s));
      && (t.batch == s.batch || t.batch == Batch.Step(s.batch, Batch.Drain))
      && (PcRank(t.pc) < PcRank(s.pc) || (PcRank(t.pc) == PcRank(s.pc) && Ahead(t) < Ahead(s)))
  {
    hide Batch.Step;
  }

  /** Once it has returned, the reporter or its ticker can. */
  lemma OwnNext(s: State)
    requires Ranked(s) && s.batch.main.Back? && !s.pc.Finished?
    ensures Ranked(Step(s, NextOwn(s))) && Lower(Step(s, NextOwn(s)), s)
  {
    StepKeepsRanked(s, NextOwn(s));
    OwnAdvances(s);
    BatchSafety.StepKeepsInv(s.batch, Batch.Drain);
    BatchSafety.RankDescends(s.batch, Batch.Drain);
    hide Inv, Batch.Step, Step, NextOwn, PcRank, Ahead, BatchSafety.BatchRank;
  }

  lemma {:induction false} RunConcat(s: State, a: seq<Event>, b: seq<Event>)
    ensures Run(s, a + b) == Run(Run(s, a), b)
  {
    if b == [] {
      assert a + b == a;
    } else {
      assert (a + b)[..|a + b| - 1] == a + b[..|b| - 1];
      RunConcat(s, a, b[..|b| - 1]);
    }
  }

  lemma NextMove(s: State) returns (e: Event)
    requires Ranked(s) && !s.pc.Finished?
    ensures OwnMove(e) && Ranked(Step(s, e)) && Lower(Step(s, e), s)
  {
    hide Step, NextOwn, Inv, Lower;
    if s.batch.main.Back? {
      OwnNext(s);
      NextIsOwn(s);
      e := NextOwn(s);
    } else {
      e := BatchMove(s);
    }
  }

  lemma {:induction false} Finishes(s: State) returns (rest: seq<Event>)
    requires Ranked(s)
    ensures forall k :: 0 <= k < |rest| ==> OwnMove(rest[k])
    ensures Run(s, rest).pc.Finished?
    decreases BatchSafety.BatchRank(s.batch), PcRank(s.pc), Ahead(s)
  {
    if s.pc.Finished? {
      rest := [];
    } else {
      hide Step, Inv, Run, PcRank, Ahead, BatchSafety.BatchRank;
      var e := NextMove(s);
      var tail := Finishes(Step(s, e));
      rest := [e] + tail;
      RunConcat(s, [e], tail);
      RunOne(s, e);
    }
  }

  lemma RunOne(s: State, e: Event)
    ensures Run(s, [e]) == Step(s, e)
  {
    assert [e][..0] == [] && Run(s, []) == s;
  }

  lemma NextIsOwn(s: State)
    ensures OwnMove(NextOwn(s))
  {
  }

  /**
   From every reachable state the reporter reaches its end by moves of its own, of the batch and of the
   ticker alone, and then every requested tag has been reported exactly once.
   */
  lemma ReporterFinishes(tags: seq<string>, max: int, stale: seq<Result>, es: seq<Event>) returns (rest: seq<Event>)
    requires BatchSafety.AllForeign(stale)
    ensures forall k :: 0 <= k < |rest| ==> OwnMove(rest[k])
    ensures var s := Run(Fresh(tags, max, stale), es + rest);
      s.pc.Finished? && forall tag :: Calls(s.log, tag) == if tag in tags then 1 else 0
  {
    InvRun(tags, max, stale, es);
    LimitAlways(tags, max, stale, es);
    var f := Fresh(tags, max, stale);
    rest := Finishes(Run(f, es));
    hide Run, Fresh, Inv;
    RunConcat(f, es, rest);
    forall tag ensures Calls(Run(f, es + rest).log, tag) == if tag in tags then 1 else 0 {
      EachTagReportedOnce(tags, max, stale, es + rest, tag);
    }
  }

  lemma {:induction false} LimitAlways(tags: seq<string>, max: int, stale: seq<Result>, es: seq<Event>)
    ensures Run(Fresh(tags, max, stale), es).batch.limit > 0
  {
    if es != [] {
      LimitAlways(tags, max, stale, es[..|es| - 1]);
      LimitStays(Run(Fresh(tags, max, stale), es[..|es| - 1]), es[|es| - 1]);
    }
  }
}

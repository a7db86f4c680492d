/**
 urlTestReporter (mobile/test.go) on top of a running batch: a ticker goroutine drains the shared
 buffer and reports while the batch runs; afterwards the reporter drains once more and fills in from
 the batch's return value. Other readers and publishers share the buffer throughout.
 */
module Reporter {
  import opened Common
  import Batch = BatchRunner
  import ResultBuffer
  import BatchOutcomes
  import opened BatchSafety

  type Result = Batch.Result

  datatype Ticker =
    | Ticking                      // in select
    | Reading(rest: seq<Result>)   // reporting a drained slice
    | Halted

  datatype Pc =
    | InBatch                      // results := batch()
    | Stopping                     // stop is closed; waiting for stopped
    | Draining(rest: seq<Result>)
    | Filling(rest: seq<Result>)   // reporting the batch's return value
    | Finished

  datatype State = State(
    batch: Batch.State, reported: set<string>,
    log: seq<Result>,              // the OnResult calls, in order
    ticker: Ticker, pc: Pc)

  datatype Event =
    | Outside(e: Batch.Event)      // the batch, its workers, other readers and publishers
    | Tick                         // the ticker goroutine moves (on a tick, if it is in select)
    | Halt                         // the ticker goroutine takes the closed stop channel
    | Main                         // the reporter's own goroutine moves

  function Fresh(tags: seq<string>, max: int, stale: seq<Result>): State {
    State(Batch.Fresh(tags, max, stale), {}, [], Ticking, InBatch)
  }

  predicate Wanted(s: State, r: Result) {
    r.tag in s.batch.tags && r.tag !in s.reported
  }

  /** report: pass it on if it is ours and the first for its tag. */
  function Reported(s: State, r: Result): State {
    if Wanted(s, r) then s.(reported := s.reported + {r.tag}, log := s.log + [r]) else s
  }

  /** A drained slice or the batch's return value, reported in order. */
  function ReportEach(s: State, rs: seq<Result>): State {
    if rs == [] then s else Reported(ReportEach(s, rs[..|rs| - 1]), rs[|rs| - 1])
  }

  /** The struct: the requested and the reported tags, and the calls its handler has received. */
  class UrlTestReporter {
    const tags: set<string>
    var reported: set<string>
    var calls: seq<Result>

    constructor (tags: seq<string>)
      ensures (forall t :: t in this.tags <==> t in tags) && reported == {} && calls == []
    {
      this.tags := set t | t in tags;
      reported, calls := {}, [];
    }

    ghost predicate Shows(s: State)
      reads this
    {
      s.reported == reported && s.log == calls && forall t :: t in s.batch.tags <==> t in tags
    }

    /** report; a nil result is ignored. */
    method Report(result: Option<Result>)
      modifies this`reported, this`calls
      ensures forall s: State :: old(Shows(s)) ==>
        Shows(if result.Some? then Reported(s, result.value) else s)
    {
      if result.None? { return; }
      var r := result.value;
      if r.tag !in tags { return; }
      if r.tag in reported { return; }
      reported, calls := reported + {r.tag}, calls + [r];
    }

    /** The loops of drain and of run's last lines. */
    method ReportAll(results: seq<Result>)
      modifies this`reported, this`calls
      ensures forall s: State :: old(Shows(s)) ==> Shows(ReportEach(s, results))
    {
      for i := 0 to |results|
        invariant forall s: State :: old(Shows(s)) ==> Shows(ReportEach(s, results[..i]))
      {
        Report(Some(results[i]));
        assert results[..i + 1][..i] == results[..i];
      }
      assert results[..|results|] == results;
    }
  }

  function TickNext(s: State): State {
    match s.ticker
    case Ticking => s.(ticker := Reading(s.batch.book.buffered), batch := Batch.Step(s.batch, Batch.Drain))
    case Reading(rest) =>
      if rest == [] then s.(ticker := Ticking) else Reported(s, rest[0]).(ticker := Reading(rest[1..]))
    case Halted => s
  }

  function MainNext(s: State): State {
    match s.pc
    case InBatch => if s.batch.main.Back? then s.(pc := Stopping) else s
    case Stopping =>
      if !s.ticker.Halted? then s
      else s.(pc := Draining(s.batch.book.buffered), batch := Batch.Step(s.batch, Batch.Drain))
    case Draining(rest) =>
      if rest != [] then Reported(s, rest[0]).(pc := Draining(rest[1..]))
      else s.(pc := Filling(if s.batch.main.Back? then s.batch.main.results else []))
    case Filling(rest) =>
      if rest != [] then Reported(s, rest[0]).(pc := Filling(rest[1..])) else s.(pc := Finished)
    case Finished => s
  }

  function Step(s: State, e: Event): State {
    match e
    case Outside(b) => s.(batch := Batch.Step(s.batch, b))
    case Tick => TickNext(s)
    case Halt => if s.ticker.Ticking? && !s.pc.InBatch? then s.(ticker := Halted) else s
    case Main => MainNext(s)
  }

  function Run(s: State, es: seq<Event>): State {
    if es == [] then s else Step(Run(s, es[..|es| - 1]), es[|es| - 1])
  }

  // ---- the invariant

  /** The handler has been called once for each reported tag, and only for requested tags. */
  ghost predicate LogInv(s: State) {
    && (forall k :: 0 <= k < |s.log| ==> s.log[k].tag in s.reported)
    && (forall t :: t in s.reported ==> t in s.batch.tags && exists k :: 0 <= k < |s.log| && s.log[k].tag == t)
    && (forall j, k :: 0 <= j < k < |s.log| ==> s.log[j].tag != s.log[k].tag)
  }

  /** Filling walks the results in order; what it has passed is reported. */
  ghost predicate FillInv(s: State) {
    && (!s.pc.InBatch? ==> s.batch.main.Back?)
    && (s.pc.Filling? ==>
          var rs := s.batch.main.results;
          && |s.pc.rest| <= |rs| && s.pc.rest == rs[|rs| - |s.pc.rest|..]
          && forall i :: 0 <= i < |rs| - |s.pc.rest| ==> rs[i].tag in s.reported)
    && (s.pc.Finished? ==> forall i :: 0 <= i < |s.batch.main.results| ==> s.batch.main.results[i].tag in s.reported)
  }

  ghost predicate ResultsMatch(b: Batch.State) {
    b.main.Back? ==>
      |b.main.results| == |b.tags| && forall i :: 0 <= i < |b.tags| ==> b.main.results[i].tag == b.tags[i]
  }

  ghost predicate Inv(s: State) {
    LogInv(s) && FillInv(s) && BatchSafety.Inv(s.batch)
  }

  lemma ReportKeepsLog(s: State, r: Result)
    requires LogInv(s)
    ensures LogInv(Reported(s, r))
    ensures r.tag in s.batch.tags ==> r.tag in Reported(s, r).reported
    ensures s.reported <= Reported(s, r).reported
  {
    var t := Reported(s, r);
    if Wanted(s, r) {
      assert t.log[|s.log|].tag == r.tag;
      forall g | g in t.reported ensures exists k :: 0 <= k < |t.log| && t.log[k].tag == g {
        if g in s.reported {
          var k :| 0 <= k < |s.log| && s.log[k].tag == g;
          assert t.log[k].tag == g;
        }
      }
    }
  }

  /** A returned batch stays returned, with one result per tag, each carrying it. */
  lemma BackStays(b: Batch.State, e: Batch.Event)
    requires b.main.Back?
    ensures Batch.Step(b, e).main == b.main && Batch.Step(b, e).tags == b.tags
  {
  }

  lemma BackMatches(b: Batch.State)
    requires BatchSafety.Inv(b) && b.main.Back?
    ensures |b.main.results| == |b.tags|
    ensures forall i :: 0 <= i < |b.tags| ==> b.main.results[i].tag == b.tags[i]
  {
    forall i | 0 <= i < |b.tags| ensures b.main.results[i].tag == b.tags[i] {
      assert Settled(b.workers[i]) && b.tags[i] in b.resMap;
      assert b.main.results[i] == b.resMap[b.tags[i]];
    }
  }

  lemma OutsideKeeps(s: State, e: Batch.Event)
    requires Inv(s)
    ensures Inv(Step(s, Outside(e)))
  {
    hide BatchSafety.Inv, Batch.Step;
    StepKeepsInv(s.batch, e);
    StepKeepsRequest(s.batch, e);
    if s.batch.main.Back? { BackStays(s.batch, e); }
    var t := Step(s, Outside(e));
    assert LogInv(t) by {
      forall g | g in t.reported ensures exists k :: 0 <= k < |t.log| && t.log[k].tag == g {
        var k :| 0 <= k < |s.log| && s.log[k].tag == g;
      }
    }
  }

  lemma ReportKeepsFill(s: State, r: Result)
    requires LogInv(s) && FillInv(s)
    ensures LogInv(Reported(s, r)) && FillInv(Reported(s, r)) && Reported(s, r).batch == s.batch
  {
    ReportKeepsLog(s, r);
  }

  lemma TickKeeps(s: State)
    requires Inv(s)
    ensures Inv(TickNext(s))
  {
    hide BatchSafety.Inv, Batch.Step;
    match s.ticker
    case Ticking => OutsideKeeps(s, Batch.Drain);
    case Reading(rest) =>
      if rest != [] { ReportKeepsFill(s, rest[0]); }
    case Halted =>
  }

  lemma FillOne(s: State)
    requires LogInv(s) && FillInv(s) && ResultsMatch(s.batch) && s.pc.Filling? && s.pc.rest != []
    ensures LogInv(MainNext(s)) && FillInv(MainNext(s)) && MainNext(s).batch == s.batch
  {
    var rest := s.pc.rest;
    var rs := s.batch.main.results;
    ReportKeepsLog(s, rest[0]);
    var n := |rs| - |rest|;
    assert rest[0] == rs[n] && rest[1..] == rs[n + 1..];
    assert rs[n].tag == s.batch.tags[n];
  }

  lemma MainKeeps(s: State)
    requires Inv(s)
    ensures Inv(MainNext(s))
  {
    hide BatchSafety.Inv, Batch.Step;
    match s.pc
    case InBatch =>
    case Stopping => OutsideKeeps(s, Batch.Drain);
    case Draining(rest) =>
      if rest != [] { ReportKeepsFill(s, rest[0]); }
    case Filling(rest) =>
      if rest != [] {
        BackMatches(s.batch);
        FillOne(s);
      }
    case Finished =>
  }

  lemma StepKeeps(s: State, e: Event)
    requires Inv(s)
    ensures Inv(Step(s, e))
  {
    match e
    case Outside(b) => OutsideKeeps(s, b);
    case Tick => TickKeeps(s);
    case Halt => assert Step(s, e).batch == s.batch && LogInv(Step(s, e)) && FillInv(Step(s, e));
    case Main => MainKeeps(s);
  }

  lemma TagsStay(s: State, e: Event)
    ensures Step(s, e).batch.tags == s.batch.tags
  {
  }

  lemma {:induction false} InvRun(tags: seq<string>, max: int, stale: seq<Result>, es: seq<Event>)
    requires AllForeign(stale)
    ensures var s := Run(Fresh(tags, max, stale), es); Inv(s) && s.batch.tags == tags
  {
    if es == [] {
      FreshInv(tags, max, stale);
    } else {
      InvRun(tags, max, stale, es[..|es| - 1]);
      StepKeeps(Run(Fresh(tags, max, stale), es[..|es| - 1]), es[|es| - 1]);
      TagsStay(Run(Fresh(tags, max, stale), es[..|es| - 1]), es[|es| - 1]);
    }
  }

  /** How often the handler has been called for a tag. */
  function Calls(log: seq<Result>, tag: string): nat {
    if log == [] then 0 else Calls(log[..|log| - 1], tag) + if log[|log| - 1].tag == tag then 1 else 0
  }

  lemma {:induction false} CallsCount(log: seq<Result>, tag: string)
    requires forall j, k :: 0 <= j < k < |log| ==> log[j].tag != log[k].tag
    ensures Calls(log, tag) <= 1
    ensures Calls(log, tag) == 1 <==> exists k :: 0 <= k < |log| && log[k].tag == tag
  {
    if log != [] {
      var n := |log| - 1;
      CallsCount(log[..n], tag);
      if Calls(log[..n], tag) == 1 {
        var k :| 0 <= k < n && log[..n][k].tag == tag;
        assert log[k].tag == tag;
      }
      if exists k :: 0 <= k < |log| && log[k].tag == tag {
        var k :| 0 <= k < |log| && log[k].tag == tag;
        assert k < n ==> log[..n][k].tag == tag;
      }
    }
  }

  /**
   Exactly once, end to end: for every interleaving of ticker drains, publishes, foreign and stale
   results, other readers and Reclaim, no tag is ever reported twice and none that was not requested;
   and once the reporter has finished every requested tag has been reported exactly once.
   */
  lemma EachTagReportedOnce(tags: seq<string>, max: int, stale: seq<Result>, es: seq<Event>, tag: string)
    requires AllForeign(stale)
    ensures var s := Run(Fresh(tags, max, stale), es);
      && Calls(s.log, tag) <= (if tag in tags then 1 else 0)
      && (s.pc.Finished? ==> Calls(s.log, tag) == if tag in tags then 1 else 0)
  {
    InvRun(tags, max, stale, es);
    var s := Run(Fresh(tags, max, stale), es);
    CallsCount(s.log, tag);
    if s.pc.Finished? && tag in tags {
      BackMatches(s.batch);
      var i :| 0 <= i < |tags| && tags[i] == tag;
      assert s.batch.main.results[i].tag == tag && tag in s.reported;
    }
  }

  // ---- what is reported

  /** r is, if it carries a requested tag, the result the batch itself made at some position. */
  ghost predicate Genuine(b: Batch.State, r: Result) {
    r.tag in b.tags ==>
      && r.id.Own? && r.id.pos < |b.workers| && r.id.pos < |b.tags| && !b.workers[r.id.pos].Probing?
      && b.workers[r.id.pos].res == r && b.tags[r.id.pos] == r.tag
  }

  ghost predicate AllGenuine(b: Batch.State, rs: seq<Result>) {
    forall k :: 0 <= k < |rs| ==> Genuine(b, rs[k])
  }

  ghost predicate GenuineInv(s: State) {
    && AllGenuine(s.batch, s.log) && AllGenuine(s.batch, s.batch.book.buffered)
    && (s.ticker.Reading? ==> AllGenuine(s.batch, s.ticker.rest))
    && (s.pc.Draining? || s.pc.Filling? ==> AllGenuine(s.batch, s.pc.rest))
  }

  /** Nobody else's result carries one of our tags. */
  predicate Undisturbed(tags: seq<string>, e: Event) {
    e.Outside? && e.e.Intrude? ==> e.e.tag !in tags
  }

  lemma GenuineStays(b: Batch.State, e: Batch.Event, r: Result)
    requires Genuine(b, r)
    ensures Genuine(Batch.Step(b, e), r)
  {
  }

  lemma AllGenuineStays(b: Batch.State, e: Batch.Event, rs: seq<Result>)
    requires AllGenuine(b, rs)
    ensures AllGenuine(Batch.Step(b, e), rs)
  {
    forall k | 0 <= k < |rs| ensures Genuine(Batch.Step(b, e), rs[k]) { GenuineStays(b, e, rs[k]); }
  }

  /** What a batch step adds to the buffer is genuine, unless a stranger publishes under our tag. */
  lemma BufferStaysGenuine(b: Batch.State, e: Batch.Event)
    requires BatchSafety.Inv(b) && AllGenuine(b, b.book.buffered) && (e.Intrude? ==> e.tag !in b.tags)
    ensures AllGenuine(Batch.Step(b, e), Batch.Step(b, e).book.buffered)
  {
    assert |b.workers| <= |b.tags| && Results(b);
    hide BatchSafety.Inv;
    var c := Batch.Step(b, e);
    AllGenuineStays(b, e, b.book.buffered);
    if e.Go? && Batch.GoEnabled(b) && b.main.Collected? {
      ReclaimKeepsGenuine(b, c);
    } else if e.Work? && Batch.WorkEnabled(b, e.p) && b.workers[e.p].Stored? {
      assert Genuine(c, b.workers[e.p].res);
    }
  }

  lemma ReclaimKeepsGenuine(b: Batch.State, c: Batch.State)
    requires b.main.Collected? && c == Batch.GoNext(b) && AllGenuine(c, b.book.buffered)
    ensures AllGenuine(c, c.book.buffered)
  {
    ResultBuffer.WithoutMembers(b.book.buffered, Elements(b.main.results));
    forall k | 0 <= k < |c.book.buffered| ensures Genuine(c, c.book.buffered[k]) {
      assert c.book.buffered[k] in c.book.buffered;
    }
  }

  lemma ResultsAreGenuine(b: Batch.State)
    requires BatchSafety.Inv(b) && b.main.Back?
    ensures AllGenuine(b, b.main.results)
  {
    BackMatches(b);
    forall i | 0 <= i < |b.main.results| ensures Genuine(b, b.main.results[i]) {
      assert Settled(b.workers[i]) && b.tags[i] in b.resMap;
      assert b.main.results[i] == b.resMap[b.tags[i]];
    }
  }

  lemma OutsideKeepsGenuine(s: State, e: Batch.Event)
    requires BatchSafety.Inv(s.batch) && GenuineInv(s) && (e.Intrude? ==> e.tag !in s.batch.tags)
    ensures GenuineInv(s.(batch := Batch.Step(s.batch, e)))
  {
    hide BatchSafety.Inv, Genuine, Batch.Step;
    BufferStaysGenuine(s.batch, e);
    AllGenuineStays(s.batch, e, s.log);
    if s.ticker.Reading? { AllGenuineStays(s.batch, e, s.ticker.rest); }
    if s.pc.Draining? || s.pc.Filling? { AllGenuineStays(s.batch, e, s.pc.rest); }
  }

  lemma TickKeepsGenuine(s: State)
    requires BatchSafety.Inv(s.batch) && GenuineInv(s)
    ensures GenuineInv(TickNext(s))
  {
    hide BatchSafety.Inv, Genuine;
    if s.ticker.Ticking? {
      OutsideKeepsGenuine(s, Batch.Drain);
      AllGenuineStays(s.batch, Batch.Drain, s.batch.book.buffered);
    } else if s.ticker.Reading? && s.ticker.rest != [] {
      assert Reported(s, s.ticker.rest[0]).batch == s.batch;
    }
  }

  lemma MainKeepsGenuine(s: State)
    requires BatchSafety.Inv(s.batch) && GenuineInv(s)
    ensures GenuineInv(MainNext(s))
  {
    hide BatchSafety.Inv, Genuine;
    if s.pc.Stopping? {
      OutsideKeepsGenuine(s, Batch.Drain);
      AllGenuineStays(s.batch, Batch.Drain, s.batch.book.buffered);
    } else if s.pc.Draining? && s.batch.main.Back? {
      ResultsAreGenuine(s.batch);
    }
  }

  lemma StepKeepsGenuine(s: State, e: Event)
    requires BatchSafety.Inv(s.batch) && GenuineInv(s) && Undisturbed(s.batch.tags, e)
    ensures GenuineInv(Step(s, e))
  {
    match e
    case Outside(b) => OutsideKeepsGenuine(s, b);
    case Tick => TickKeepsGenuine(s);
    case Halt =>
    case Main => MainKeepsGenuine(s);
  }

  lemma {:induction false} GenuineRun(tags: seq<string>, max: int, stale: seq<Result>, es: seq<Event>)
    requires AllForeign(stale) && (forall r :: r in stale ==> r.tag !in tags)
    requires forall k :: 0 <= k < |es| ==> Undisturbed(tags, es[k])
    ensures GenuineInv(Run(Fresh(tags, max, stale), es))
  {
    if es == [] {
      assert forall k :: 0 <= k < |stale| ==> stale[k] in stale;
    } else {
      var n := |es| - 1;
      GenuineRun(tags, max, stale, es[..n]);
      InvRun(tags, max, stale, es[..n]);
      StepKeepsGenuine(Run(Fresh(tags, max, stale), es[..n]), es[n]);
    }
  }

  /**
   And the right result: with distinct tags, and nobody else publishing under them, what the handler
   is given for tag i is the very result the batch returns for position i, however it got there; and it
   says aborted, or what that position's probe came to.
   */
  lemma ReportsTheBatchResult(tags: seq<string>, max: int, stale: seq<Result>, es: seq<Event>, k: nat)
    requires AllForeign(stale) && (forall r :: r in stale ==> r.tag !in tags)
    requires forall j :: 0 <= j < |es| ==> Undisturbed(tags, es[j])
    requires Distinct(tags)
    requires var s := Run(Fresh(tags, max, stale), es); s.pc.Finished? && k < |s.log|
    ensures var s := Run(Fresh(tags, max, stale), es);
      && s.log[k].id.Own? && s.log[k].id.pos < |tags| && s.batch.main.Back? && |s.batch.main.results| == |tags|
      && s.log[k].tag == tags[s.log[k].id.pos]
      && s.log[k] == s.batch.main.results[s.log[k].id.pos]
      && (s.log[k].outcome.Aborted? || Probed(Fresh(tags, max, stale), es, s.log[k]))
  {
    InvRun(tags, max, stale, es);
    GenuineRun(tags, max, stale, es);
    var s := Run(Fresh(tags, max, stale), es);
    assert Fresh(tags, max, stale).batch.workers == [];
    hide Run, Fresh, Inv, GenuineInv, Probed;
    LoggedIsReturned(s, k);
    LoggedIsProbed(Fresh(tags, max, stale), es, k);
  }

  lemma LoggedIsReturned(s: State, k: nat)
    requires Inv(s) && GenuineInv(s) && s.pc.Finished? && k < |s.log| && Distinct(s.batch.tags)
    ensures var r := s.log[k];
      && r.id.Own? && r.id.pos < |s.batch.tags| && s.batch.main.Back? && |s.batch.main.results| == |s.batch.tags|
      && r.tag == s.batch.tags[r.id.pos] && r == s.batch.main.results[r.id.pos]
  {
    BackMatches(s.batch);
    ResultsAreGenuine(s.batch);
    var r := s.log[k];
    assert r.tag in s.reported;
    hide BatchSafety.Inv, FillInv;
    assert Genuine(s.batch, r) && r.tag in s.batch.tags;
    assert Genuine(s.batch, s.batch.main.results[r.id.pos]);
  }

  /** Event k is the probe of r's position, and r's outcome is what that probe came to. */
  ghost predicate ProbedAt(f: State, es: seq<Event>, k: nat, r: Result)
    requires k < |es|
  {
    var b := Run(f, es[..k]).batch;
    && r.id.Own? && es[k].Outside? && es[k].e.Work? && es[k].e.p == r.id.pos
    && r.id.pos < |b.workers| && b.workers[r.id.pos].Probing?
    && r.outcome == if es[k].e.found then es[k].e.outcome else Batch.NotFound
  }

  ghost predicate Probed(f: State, es: seq<Event>, r: Result) {
    exists k :: 0 <= k < |es| && ProbedAt(f, es, k, r)
  }

  ghost predicate Explained(f: State, es: seq<Event>, w: Batch.Worker) {
    match w
    case Probing => true
    case Skipped(r) => r.outcome.Aborted?
    case _ => Probed(f, es, w.res)
  }

  lemma ProbedStays(f: State, es: seq<Event>, e: Event, r: Result)
    requires Probed(f, es, r)
    ensures Probed(f, es + [e], r)
  {
    var k :| 0 <= k < |es| && ProbedAt(f, es, k, r);
    assert (es + [e])[..k] == es[..k];
    assert ProbedAt(f, es + [e], k, r);
  }

  /** A reporter's step is a batch step, a drain, or none, as far as the batch is concerned. */
  lemma BatchPart(s: State, e: Event)
    ensures var b := Step(s, e).batch;
      if e.Outside? then b == Batch.Step(s.batch, e.e) else b == s.batch || b == Batch.Step(s.batch, Batch.Drain)
  {
    hide Batch.Step;
  }

  lemma {:induction false} ResultsCarryOutcomes(f: State, es: seq<Event>, p: nat)
    requires f.batch.workers == [] && p < |Run(f, es).batch.workers|
    ensures Explained(f, es, Run(f, es).batch.workers[p])
  {
    hide Step, Batch.Step;
    if es != [] {
      var n := |es| - 1;
      var s, e := Run(f, es[..n]), es[n];
      assert es[..n] + [e] == es;
      BatchPart(s, e);
      var b := Run(f, es).batch;
      var be := if e.Outside? then e.e else Batch.Drain;
      if b != s.batch { BatchOutcomes.WorkerStep(s.batch, be, p); }
      if p < |s.batch.workers| {
        ResultsCarryOutcomes(f, es[..n], p);
        var v, w := s.batch.workers[p], b.workers[p];
        if !v.Probing? && !v.Skipped? {
          ProbedStays(f, es[..n], e, v.res);
        } else if v.Probing? && w != v {
          assert ProbedAt(f, es, n, w.res);
        }
      }
    }
  }

  lemma LoggedIsProbed(f: State, es: seq<Event>, k: nat)
    requires var s := Run(f, es); k < |s.log| && Inv(s) && GenuineInv(s) && f.batch.workers == []
    ensures var r := Run(f, es).log[k]; r.outcome.Aborted? || Probed(f, es, r)
  {
    var s := Run(f, es);
    var r := s.log[k];
    assert Genuine(s.batch, r) && r.tag in s.reported;
    hide Run, Probed;
    ResultsCarryOutcomes(f, es, r.id.pos);
  }

  // ---- results reach the handler as they land

  predicate IsTick(e: Event) { e.Tick? }

  /** The results among rs that are ours have been reported. */
  ghost predicate Covered(s: State, rs: seq<Result>) {
    forall k :: 0 <= k < |rs| && rs[k].tag in s.batch.tags ==> rs[k].tag in s.reported
  }

  lemma ReportedGrows(s: State, e: Event)
    ensures s.reported <= Step(s, e).reported && Step(s, e).batch.tags == s.batch.tags
  {
  }

  /** A tick takes everything that is buffered, and so does the last drain once the ticker has stopped. */
  lemma DrainsTakeAll(s: State)
    ensures s.ticker.Ticking? ==>
      Step(s, Tick).ticker == Reading(s.batch.book.buffered) && Step(s, Tick).batch.book.buffered == []
    ensures s.pc.Stopping? && s.ticker.Halted? ==>
      Step(s, Main).pc == Draining(s.batch.book.buffered) && Step(s, Main).batch.book.buffered == []
  {
  }

  lemma TickOnce(s: State)
    requires s.ticker.Reading?
    ensures var t := Step(s, Tick);
      if s.ticker.rest == [] then t.ticker.Ticking?
      else
        && t.ticker == Reading(s.ticker.rest[1..])
        && (s.ticker.rest[0].tag in s.batch.tags ==> s.ticker.rest[0].tag in t.reported)
  {
  }

  lemma TickerStays(s: State, e: Event)
    requires s.ticker.Reading? && !e.Tick?
    ensures Step(s, e).ticker == s.ticker
  {
  }

  /**
   A drained slice is reported as the ticker goes through it: n of the ticker's steps later, whatever else
   happened, its first n results have reached the handler if their tags were requested.
   */
  lemma {:induction false} TicksReport(s: State, es: seq<Event>)
    requires s.ticker.Reading?
    ensures var t, n, rest := Run(s, es), Count(IsTick, es), s.ticker.rest;
      && t.batch.tags == s.batch.tags
      && Covered(t, if n <= |rest| then rest[..n] else rest)
      && (n <= |rest| ==> t.ticker == Reading(rest[n..]))
  {
    hide Step;
    if es != [] {
      var m := |es| - 1;
      TicksReport(s, es[..m]);
      var t, e, n, rest := Run(s, es[..m]), es[m], Count(IsTick, es[..m]), s.ticker.rest;
      ReportedGrows(t, e);
      if n <= |rest| {
        if e.Tick? { TickOnce(t); } else { TickerStays(t, e); }
        if e.Tick? && n < |rest| {
          assert rest[..n + 1] == rest[..n] + [rest[n]] && rest[n..][1..] == rest[n + 1..];
        }
        assert rest[..|rest|] == rest;
      }
    }
  }

  predicate IsMain(e: Event) { e.Main? }

  lemma MainOnce(s: State)
    requires s.pc.Draining? && s.pc.rest != []
    ensures var t := Step(s, Main);
      && t.pc == Draining(s.pc.rest[1..])
      && (s.pc.rest[0].tag in s.batch.tags ==> s.pc.rest[0].tag in t.reported)
  {
  }

  lemma MainStays(s: State, e: Event)
    requires s.pc.Draining? && !e.Main?
    ensures Step(s, e).pc == s.pc
  {
  }

  /** The last drain is reported too, before the batch's own return value is looked at. */
  lemma {:induction false} LastDrainReports(s: State, es: seq<Event>)
    requires s.pc.Draining? && Count(IsMain, es) <= |s.pc.rest|
    ensures var t, n, rest := Run(s, es), Count(IsMain, es), s.pc.rest;
      t.batch.tags == s.batch.tags && Covered(t, rest[..n]) && t.pc == Draining(rest[n..])
  {
    hide Step;
    if es != [] {
      var m := |es| - 1;
      LastDrainReports(s, es[..m]);
      var t, e, n, rest := Run(s, es[..m]), es[m], Count(IsMain, es[..m]), s.pc.rest;
      ReportedGrows(t, e);
      if e.Main? {
        MainOnce(t);
        assert rest[..n + 1] == rest[..n] + [rest[n]] && rest[n..][1..] == rest[n + 1..];
      } else {
        MainStays(t, e);
      }
    }
  }
}

/** What runBatch and BatchURLTest guarantee under every schedule. */
module BatchSafety {
  import opened Common
  import opened ResultBuffer
  import opened BatchRunner
  import opened BatchOutcomes

  predicate InFlight(w: Worker) { w.Probing? || w.Holding? || w.Stored? || w.Told? }

  predicate Settled(w: Worker) { w.Skipped? || w.Ended? }

  predicate HasStored(w: Worker) { !w.Probing? && !w.Holding? }

  predicate HasPublished(w: Worker) { w.Told? || w.Freed? || w.Ended? }

  function CountInFlight(ws: seq<Worker>): nat { Count(InFlight, ws) }

  function CountSettled(ws: seq<Worker>): nat { Count(Settled, ws) }

  // ---- the invariant

  /** The limiter holds one token per worker in flight, the wait group one unit per unsettled tag. */
  ghost predicate Counts(s: State) {
    && s.tokens == CountInFlight(s.workers) <= s.limit
    && s.wg == |s.tags| - CountSettled(s.workers)
  }

  ghost predicate Phases(s: State) {
    && |s.workers| <= |s.tags|
    && (s.main.AtLimiter? ==> |s.workers| < |s.tags|)
    && (s.main.Waiting? ==> |s.workers| == |s.tags|)
    && (s.main.Collected? || s.main.Back? ==>
          |s.workers| == |s.tags| && forall p :: 0 <= p < |s.workers| ==> Settled(s.workers[p]))
  }

  /** Once a tag has been skipped, so is every later one. */
  ghost predicate SkipsAreSuffix(s: State) {
    && (forall p, q :: 0 <= p < q < |s.workers| && s.workers[p].Skipped? ==> s.workers[q].Skipped?)
    && (forall p :: 0 <= p < |s.workers| && s.workers[p].Skipped? ==> s.cancelled && !s.main.AtLimiter?)
  }

  /** Worker p's result is the one allocated for position p. */
  ghost predicate Results(s: State)
    requires |s.workers| <= |s.tags|
  {
    forall p :: 0 <= p < |s.workers| && !s.workers[p].Probing? ==>
      s.workers[p].res.id == Own(p) && s.workers[p].res.tag == s.tags[p]
  }

  /** A tag maps to the stored result of some position carrying it, and every stored position's tag is mapped. */
  ghost predicate MapInv(s: State)
    requires |s.workers| <= |s.tags|
  {
    && (forall p :: 0 <= p < |s.workers| && HasStored(s.workers[p]) ==> s.tags[p] in s.resMap)
    && (forall t :: t in s.resMap ==>
          && s.resMap[t].id.Own? && s.resMap[t].id.pos < |s.workers| && s.tags[s.resMap[t].id.pos] == t
          && HasStored(s.workers[s.resMap[t].id.pos]) && s.workers[s.resMap[t].id.pos].res == s.resMap[t])
  }

  /** Own results in the book are exactly those of the workers that have published, once each. */
  ghost predicate PublishedInv(s: State) {
    && (forall r :: r in s.book.published && r.id.Own? ==>
          r.id.pos < |s.workers| && HasPublished(s.workers[r.id.pos]) && s.workers[r.id.pos].res == r)
    && (forall p :: 0 <= p < |s.workers| && HasPublished(s.workers[p]) ==>
          multiset(s.book.published)[s.workers[p].res] == 1)
  }

  /** Every published result is buffered, drained or reclaimed, once. */
  ghost predicate BookInv(l: Book) {
    multiset(l.published) == multiset(l.buffered) + multiset(l.drained) + multiset(l.reclaimed)
  }

  ghost predicate ReturnInv(s: State) {
    && (s.main.Collected? || s.main.Back? ==> s.main.results == Collect(s.tags, s.resMap))
    && (s.main.Back? ==> forall r :: r in s.book.buffered && r.id.Own? ==> r !in s.main.results)
  }

  ghost predicate Inv(s: State) {
    && Counts(s) && Phases(s) && SkipsAreSuffix(s) && Results(s) && MapInv(s)
    && PublishedInv(s) && BookInv(s.book) && ReturnInv(s)
  }

  /** A new entry in the worker list, and what it does to the two counts. */
  lemma Joined(ws: seq<Worker>, w: Worker)
    ensures CountInFlight(ws + [w]) == CountInFlight(ws) + if InFlight(w) then 1 else 0
    ensures CountSettled(ws + [w]) == CountSettled(ws) + if Settled(w) then 1 else 0
  {
    CountAppend(InFlight, ws, w);
    CountAppend(Settled, ws, w);
  }

  lemma GoCounts(s: State)
    requires Counts(s) && GoEnabled(s)
    ensures Counts(GoNext(s))
  {
    hide CountInFlight, CountSettled;
    Joined(s.workers, Probing);
    if |s.workers| < |s.tags| {
      Joined(s.workers, Skipped(Result(Own(|s.workers|), s.tags[|s.workers|], Aborted)));
    }
  }

  lemma GoPhases(s: State)
    requires Counts(s) && Phases(s) && SkipsAreSuffix(s) && GoEnabled(s)
    ensures Phases(GoNext(s)) && SkipsAreSuffix(GoNext(s))
  {
    CountBounds(Settled, s.workers);
  }

  lemma GoKeepsControl(s: State)
    requires Counts(s) && Phases(s) && SkipsAreSuffix(s) && GoEnabled(s)
    ensures var t := GoNext(s); Counts(t) && Phases(t) && SkipsAreSuffix(t)
  {
    GoCounts(s);
    GoPhases(s);
  }

  lemma WorkKeepsControl(s: State, p: nat, found: bool, outcome: Outcome)
    requires Counts(s) && Phases(s) && SkipsAreSuffix(s) && WorkEnabled(s, p)
    ensures var t := WorkNext(s, p, found, outcome); Counts(t) && Phases(t) && SkipsAreSuffix(t)
  {
    WorkCounts(s, p, found, outcome);
    hide Count;
  }

  lemma WorkCounts(s: State, p: nat, found: bool, outcome: Outcome)
    requires Counts(s) && WorkEnabled(s, p)
    ensures Counts(WorkNext(s, p, found, outcome))
  {
    hide Count;
    CountAfter(InFlight, s.workers, p, WorkNext(s, p, found, outcome).workers[p]);
    CountAfter(Settled, s.workers, p, WorkNext(s, p, found, outcome).workers[p]);
  }

  lemma StoreKeepsMap(s: State, p: nat, found: bool, outcome: Outcome)
    requires |s.workers| <= |s.tags| && Results(s) && MapInv(s) && WorkEnabled(s, p) && s.workers[p].Holding?
    ensures MapInv(WorkNext(s, p, found, outcome))
  {
    var t := WorkNext(s, p, found, outcome);
    forall g | g in t.resMap
      ensures t.resMap[g].id.Own? && t.resMap[g].id.pos < |t.workers| && t.tags[t.resMap[g].id.pos] == g
      ensures HasStored(t.workers[t.resMap[g].id.pos]) && t.workers[t.resMap[g].id.pos].res == t.resMap[g]
    {
      assert g != s.tags[p] ==> g in s.resMap && s.resMap[g] == t.resMap[g];
    }
  }

  lemma WorkKeepsResults(s: State, p: nat, found: bool, outcome: Outcome)
    requires |s.workers| <= |s.tags| && Results(s) && WorkEnabled(s, p)
    ensures var t := WorkNext(s, p, found, outcome);
      && |t.workers| == |s.workers| <= |t.tags| && t.tags == s.tags && Results(t)
      && (forall q :: 0 <= q < |s.workers| && q != p ==> t.workers[q] == s.workers[q])
      && (!s.workers[p].Holding? ==> t.resMap == s.resMap && HasStored(t.workers[p]) == HasStored(s.workers[p]))
      && (HasStored(s.workers[p]) ==> t.workers[p].res == s.workers[p].res)
  {
  }

  lemma WorkKeepsMap(s: State, p: nat, found: bool, outcome: Outcome)
    requires |s.workers| <= |s.tags| && Results(s) && MapInv(s) && WorkEnabled(s, p)
    ensures var t := WorkNext(s, p, found, outcome); |t.workers| <= |t.tags| && Results(t) && MapInv(t)
  {
    WorkKeepsResults(s, p, found, outcome);
    if s.workers[p].Holding? {
      StoreKeepsMap(s, p, found, outcome);
    } else {
      hide WorkNext;
    }
  }

  lemma GoKeepsMap(s: State)
    requires Phases(s) && Results(s) && MapInv(s) && GoEnabled(s)
    ensures var t := GoNext(s); |t.workers| <= |t.tags| && Results(t) && MapInv(t)
  {
  }

  lemma PublishOnce(s: State, p: nat)
    requires |s.workers| <= |s.tags| && Results(s) && PublishedInv(s) && BookInv(s.book) && WorkEnabled(s, p)
    requires s.workers[p].Stored?
    ensures var t := Put(s.(book := Publish(s.book, s.workers[p].res)), p, Told(s.workers[p].res));
      PublishedInv(t) && BookInv(t.book)
  {
    var r := s.workers[p].res;
    var t := Put(s.(book := Publish(s.book, r)), p, Told(r));
    assert r !in s.book.published;
    assert multiset(t.book.published) == multiset(s.book.published) + multiset{r};
    assert multiset(t.book.buffered) == multiset(s.book.buffered) + multiset{r};
    forall q | 0 <= q < |t.workers| && HasPublished(t.workers[q])
      ensures multiset(t.book.published)[t.workers[q].res] == 1
    {
      assert q != p ==> t.workers[q].res.id == Own(q);
    }
  }

  lemma WorkKeepsPublished(s: State, p: nat, found: bool, outcome: Outcome)
    requires |s.workers| <= |s.tags| && Results(s) && PublishedInv(s) && BookInv(s.book) && WorkEnabled(s, p)
    ensures var t := WorkNext(s, p, found, outcome); PublishedInv(t) && BookInv(t.book)
  {
    if s.workers[p].Stored? {
      PublishOnce(s, p);
    } else {
      var t := WorkNext(s, p, found, outcome);
      assert t.book == s.book && HasPublished(t.workers[p]) == HasPublished(s.workers[p]);
    }
  }

  lemma GoKeepsReturn(s: State)
    requires Phases(s) && ReturnInv(s) && PublishedInv(s) && BookInv(s.book) && GoEnabled(s)
    ensures var t := GoNext(s); ReturnInv(t) && PublishedInv(t) && BookInv(t.book)
  {
    if s.main.Collected? {
      WithoutMembers(s.book.buffered, Elements(s.main.results));
      WithoutWithin(s.book.buffered, Elements(s.main.results));
    }
  }

  lemma WorkKeepsReturn(s: State, p: nat, found: bool, outcome: Outcome)
    requires Phases(s) && ReturnInv(s) && WorkEnabled(s, p)
    ensures ReturnInv(WorkNext(s, p, found, outcome))
  {
  }

  lemma IntrudeKeepsBook(s: State, r: Result)
    requires |s.workers| <= |s.tags| && Results(s) && PublishedInv(s)
    requires BookInv(s.book) && ReturnInv(s) && r.id.Foreign?
    ensures var t := s.(book := Publish(s.book, r)); PublishedInv(t) && BookInv(t.book) && ReturnInv(t)
  {
    var t := s.(book := Publish(s.book, r));
    assert multiset(t.book.published) == multiset(s.book.published) + multiset{r};
    assert multiset(t.book.buffered) == multiset(s.book.buffered) + multiset{r};
  }

  lemma OutsideKeepsInv(s: State, e: Event)
    requires Inv(s) && (e.Cancel? || e.Drain? || e.Intrude?)
    ensures Inv(Step(s, e))
  {
    if e.Intrude? {
      IntrudeKeepsBook(s, Result(Foreign(e.n), e.tag, e.outcome));
    }
  }

  lemma StepKeepsInv(s: State, e: Event)
    requires Inv(s)
    ensures Inv(Step(s, e))
  {
    match e
    case Go =>
      if GoEnabled(s) {
        GoKeepsControl(s);
        GoKeepsMap(s);
        GoKeepsReturn(s);
      }
    case Work(p, found, outcome) =>
      if WorkEnabled(s, p) {
        WorkKeepsControl(s, p, found, outcome);
        WorkKeepsMap(s, p, found, outcome);
        WorkKeepsPublished(s, p, found, outcome);
        WorkKeepsReturn(s, p, found, outcome);
      }
    case _ => OutsideKeepsInv(s, e);
  }

  /** Nothing in the buffer before the batch starts is the batch's own. */
  ghost predicate AllForeign(rs: seq<Result>) {
    forall r :: r in rs ==> r.id.Foreign?
  }

  lemma FreshInv(tags: seq<string>, max: int, stale: seq<Result>)
    requires AllForeign(stale)
    ensures Inv(Fresh(tags, max, stale))
  {
    var s := Fresh(tags, max, stale);
    assert BookInv(s.book) && PublishedInv(s);
  }

  lemma StepKeepsRequest(s: State, e: Event)
    ensures Step(s, e).tags == s.tags && Step(s, e).limit == s.limit
  {
  }

  lemma {:induction false} InvAlways(tags: seq<string>, max: int, stale: seq<Result>, es: seq<Event>)
    requires AllForeign(stale)
    ensures var s := Run(Fresh(tags, max, stale), es);
      Inv(s) && s.tags == tags && s.limit == NormalizeConcurrency(max)
  {
    if es == [] {
      FreshInv(tags, max, stale);
    } else {
      var s := Run(Fresh(tags, max, stale), es[..|es| - 1]);
      InvAlways(tags, max, stale, es[..|es| - 1]);
      StepKeepsInv(s, es[|es| - 1]);
      StepKeepsRequest(s, es[|es| - 1]);
    }
  }

  // ---- what holds on every schedule

  /**
   While it runs: probes in flight never exceed the normalized limit, skipped tags form a suffix of
   those passed and only after a cancellation, a position's result is published at most once and
   exactly by its own worker, skipped positions never are, and every published result is accounted for.
   */
  lemma BatchRunsWithinBounds(tags: seq<string>, max: int, stale: seq<Result>, es: seq<Event>)
    requires AllForeign(stale)
    ensures var s := Run(Fresh(tags, max, stale), es);
      && CountInFlight(s.workers) <= NormalizeConcurrency(max)
      && SkipsAreSuffix(s)
      && (forall p :: 0 <= p < |s.workers| && !s.workers[p].Probing? ==>
            multiset(s.book.published)[s.workers[p].res] == if HasPublished(s.workers[p]) then 1 else 0)
      && (forall r :: r in s.book.published && r.id.Own? ==>
            r.id.pos < |s.workers| && !s.workers[r.id.pos].Probing? && r == s.workers[r.id.pos].res)
      && BookInv(s.book)
  {
    InvAlways(tags, max, stale, es);
    var s := Run(Fresh(tags, max, stale), es);
    forall p | 0 <= p < |s.workers| && !s.workers[p].Probing? && !HasPublished(s.workers[p])
      ensures multiset(s.book.published)[s.workers[p].res] == 0
    {
      assert s.workers[p].res.id == Own(p);
      assert s.workers[p].res !in s.book.published;
    }
  }

  /** The results runBatch has collected, whether or not they have been reclaimed yet. */
  ghost predicate Returning(s: State, rs: seq<Result>) {
    (s.main.Collected? || s.main.Back?) && s.main.results == rs
  }

  lemma OwnIsReturned(s: State, r: Result)
    requires Inv(s) && (s.main.Collected? || s.main.Back?) && Distinct(s.tags)
    requires r in s.book.buffered && r.id.Own?
    ensures r in s.main.results
  {
    assert r in multiset(s.book.buffered) && r in multiset(s.book.published);
    var p := r.id.pos;
    var t := s.tags[p];
    assert HasStored(s.workers[p]) && t in s.resMap && s.resMap[t].id.pos == p;
    assert s.main.results[p] == s.resMap[t] == s.workers[p].res == r;
  }

  lemma EachTagAnswered(s: State, i: nat)
    requires |s.workers| == |s.tags| && MapInv(s) && i < |s.tags| && Settled(s.workers[i])
    ensures var r := Collect(s.tags, s.resMap)[i];
      && s.tags[i] in s.resMap && r == s.resMap[s.tags[i]]
      && r.id.Own? && r.id.pos < |s.workers| && HasStored(s.workers[r.id.pos]) && r == s.workers[r.id.pos].res
      && s.tags[r.id.pos] == s.tags[i]
  {
    assert s.tags[i] in s.resMap;
  }

  /**
   When it returns: one result per tag in the given order, each stored by the worker (or skip) of a
   position carrying that tag, so the "no result" fallback was not taken, and saying aborted if the position
   was skipped and otherwise what its own probe came to; every position was either
   skipped and never published or published exactly once. With distinct tags result i is position
   i's own, and nothing of the batch stays buffered once it has returned.
   */
  lemma BatchAnswersEveryTag(tags: seq<string>, max: int, stale: seq<Result>, es: seq<Event>, rs: seq<Result>)
    requires AllForeign(stale) && Returning(Run(Fresh(tags, max, stale), es), rs)
    ensures var s := Run(Fresh(tags, max, stale), es);
      && |rs| == |tags| == |s.workers|
      && (forall i :: 0 <= i < |tags| ==>
            && tags[i] in s.resMap && rs[i] == s.resMap[tags[i]]
            && rs[i].tag == tags[i] && rs[i].id.Own? && rs[i].id.pos < |tags|
            && !s.workers[rs[i].id.pos].Probing? && rs[i] == s.workers[rs[i].id.pos].res
            && (if s.workers[rs[i].id.pos].Skipped? then rs[i].outcome.Aborted?
                else Probed(Fresh(tags, max, stale), es, rs[i])))
      && (forall p :: 0 <= p < |tags| ==>
            || (s.workers[p].Skipped? && multiset(s.book.published)[s.workers[p].res] == 0)
            || (s.workers[p].Ended? && multiset(s.book.published)[s.workers[p].res] == 1))
      && (Distinct(tags) ==> forall i :: 0 <= i < |tags| ==> rs[i].id == Own(i))
      && (Distinct(tags) && s.main.Back? ==> AllForeign(s.book.buffered))
  {
    InvAlways(tags, max, stale, es);
    var f := Fresh(tags, max, stale);
    var s := Run(f, es);
    assert f.workers == [];
    hide Run, Fresh, Inv, Collect, Probed;
    AnswersInOrder(s);
    forall i | 0 <= i < |tags|
      ensures if s.workers[rs[i].id.pos].Skipped? then rs[i].outcome.Aborted? else Probed(f, es, rs[i])
    {
      ResultsCarryOutcomes(f, es, rs[i].id.pos);
    }
    PositionsPublished(s);
    if Distinct(tags) {
      AnswersAreOwn(s);
      if s.main.Back? { NothingBuffered(s); }
    }
  }

  lemma AnswersInOrder(s: State)
    requires Inv(s) && (s.main.Collected? || s.main.Back?)
    ensures var rs := s.main.results;
      && |rs| == |s.tags| == |s.workers|
      && (forall i :: 0 <= i < |s.tags| ==>
            && s.tags[i] in s.resMap && rs[i] == s.resMap[s.tags[i]]
            && rs[i].tag == s.tags[i] && rs[i].id.Own? && rs[i].id.pos < |s.tags|
            && !s.workers[rs[i].id.pos].Probing? && rs[i] == s.workers[rs[i].id.pos].res)
  {
    forall i | 0 <= i < |s.tags|
      ensures s.tags[i] in s.resMap && s.main.results[i] == s.resMap[s.tags[i]]
      ensures var r := s.main.results[i];
        && r.tag == s.tags[i] && r.id.Own? && r.id.pos < |s.tags|
        && !s.workers[r.id.pos].Probing? && r == s.workers[r.id.pos].res
    {
      EachTagAnswered(s, i);
    }
  }

  lemma PositionsPublished(s: State)
    requires Inv(s) && (s.main.Collected? || s.main.Back?)
    ensures |s.workers| == |s.tags|
    ensures forall p :: 0 <= p < |s.tags| ==>
      || (s.workers[p].Skipped? && multiset(s.book.published)[s.workers[p].res] == 0)
      || (s.workers[p].Ended? && multiset(s.book.published)[s.workers[p].res] == 1)
  {
    forall p | 0 <= p < |s.tags|
      ensures s.workers[p].Skipped? || s.workers[p].Ended?
      ensures multiset(s.book.published)[s.workers[p].res] == if s.workers[p].Ended? then 1 else 0
    {
      assert Settled(s.workers[p]) && s.workers[p].res.id == Own(p);
      if s.workers[p].Skipped? { assert s.workers[p].res !in s.book.published; }
    }
  }

  lemma AnswersAreOwn(s: State)
    requires Inv(s) && (s.main.Collected? || s.main.Back?) && Distinct(s.tags)
    ensures |s.main.results| == |s.tags| && forall i :: 0 <= i < |s.tags| ==> s.main.results[i].id == Own(i)
  {
    forall i | 0 <= i < |s.tags| ensures s.main.results[i].id == Own(i) { EachTagAnswered(s, i); }
  }

  lemma NothingBuffered(s: State)
    requires Inv(s) && s.main.Back? && Distinct(s.tags)
    ensures AllForeign(s.book.buffered)
  {
    forall r | r in s.book.buffered ensures r.id.Foreign? {
      if r.id.Own? { OwnIsReturned(s, r); }
    }
  }

  // ---- it always finishes

  function WorkerRank(w: Worker): nat {
    match w
    case Probing => 5
    case Holding(_) => 4
    case Stored(_) => 3
    case Told(_) => 2
    case Freed(_) => 1
    case _ => 0
  }

  function WorkersRank(ws: seq<Worker>): nat { Sum(WorkerRank, ws) }

  function MainRank(m: Main): nat {
    match m
    case AtSelect => 4
    case AtLimiter => 3
    case Waiting => 2
    case Collected(_) => 1
    case Back(_) => 0
  }

  /** An upper bound on the steps the batch itself still has to take. */
  function BatchRank(s: State): nat
    requires |s.workers| <= |s.tags|
  {
    7 * (|s.tags| - |s.workers|) + WorkersRank(s.workers) + MainRank(s.main)
  }

  /**
   No schedule wedges the batch: until it returns, its own goroutine or one of its workers can move,
   and each such move lowers a bound that no other event raises.
   */
  lemma BatchAlwaysProgresses(tags: seq<string>, max: int, stale: seq<Result>, es: seq<Event>, e: Event)
    requires AllForeign(stale)
    ensures var s := Run(Fresh(tags, max, stale), es);
      && Phases(s) && Phases(Step(s, e))
      && (!s.main.Back? ==> GoEnabled(s) || exists p: nat :: WorkEnabled(s, p))
      && ((e.Go? && GoEnabled(s)) || (e.Work? && WorkEnabled(s, e.p)) ==> BatchRank(Step(s, e)) < BatchRank(s))
      && (!((e.Go? && GoEnabled(s)) || (e.Work? && WorkEnabled(s, e.p))) ==> BatchRank(Step(s, e)) == BatchRank(s))
  {
    InvAlways(tags, max, stale, es);
    var s := Run(Fresh(tags, max, stale), es);
    StepKeepsInv(s, e);
    if !s.main.Back? { SomeoneCanMove(s); }
    RankDescends(s, e);
  }

  lemma SomeoneCanMove(s: State)
    requires Counts(s) && Phases(s) && s.limit > 0 && !s.main.Back?
    ensures GoEnabled(s) || exists p: nat :: WorkEnabled(s, p)
  {
    CountBounds(InFlight, s.workers);
    CountBounds(Settled, s.workers);
    if s.main.AtLimiter? && !GoEnabled(s) {
      var p: nat :| p < |s.workers| && InFlight(s.workers[p]);
      assert WorkEnabled(s, p);
    } else if !GoEnabled(s) {
      var p: nat :| p < |s.workers| && !Settled(s.workers[p]);
      assert WorkEnabled(s, p);
    }
  }

  lemma RankDescends(s: State, e: Event)
    requires Phases(s) && Phases(Step(s, e))
    ensures (e.Go? && GoEnabled(s)) || (e.Work? && WorkEnabled(s, e.p)) ==> BatchRank(Step(s, e)) < BatchRank(s)
    ensures !((e.Go? && GoEnabled(s)) || (e.Work? && WorkEnabled(s, e.p))) ==> BatchRank(Step(s, e)) == BatchRank(s)
  {
    if e.Work? && WorkEnabled(s, e.p) {
      WorkDescends(s, e.p, e.found, e.outcome);
    } else if e.Go? && GoEnabled(s) {
      GoDescends(s);
    }
  }

  lemma WorkDescends(s: State, p: nat, found: bool, outcome: Outcome)
    requires Phases(s) && WorkEnabled(s, p)
    ensures var t := WorkNext(s, p, found, outcome);
      |t.workers| == |s.workers| && t.tags == s.tags && BatchRank(t) < BatchRank(s)
  {
    SumAfter(WorkerRank, s.workers, p, WorkNext(s, p, found, outcome).workers[p]);
  }

  lemma GoDescends(s: State)
    requires GoEnabled(s) && Phases(s) && Phases(GoNext(s))
    ensures BatchRank(GoNext(s)) < BatchRank(s)
  {
    var n := |s.workers|;
    if s.main.AtLimiter? {
      SumAppend(WorkerRank, s.workers, Probing);
    } else if s.main.AtSelect? && n < |s.tags| && s.cancelled {
      SumAppend(WorkerRank, s.workers, Skipped(Result(Own(n), s.tags[n], Aborted)));
    }
    hide Sum;
  }

}

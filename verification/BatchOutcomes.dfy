/**
 Where the batch's results come from: each carries what its own probe returned, or says that the outbound
 was not found or that the tag was aborted; and the buffer is driven exactly as resultBuffer's ledger says.
 */
module BatchOutcomes {
  import opened Common
  import opened ResultBuffer
  import opened BatchRunner

  // ---- results carry what the probe returned

  /** Event k is the probe of r's position, and r's outcome is what that probe came to. */
  ghost predicate ProbedAt(f: State, es: seq<Event>, k: nat, r: Result)
    requires k < |es|
  {
    var s := Run(f, es[..k]);
    && r.id.Own? && es[k].Work? && es[k].p == r.id.pos && r.id.pos < |s.workers| && s.workers[r.id.pos].Probing?
    && r.outcome == if es[k].found then es[k].outcome else NotFound
  }

  ghost predicate Probed(f: State, es: seq<Event>, r: Result) {
    exists k :: 0 <= k < |es| && ProbedAt(f, es, k, r)
  }

  /** Worker p's result after one step: its own from before, or made just now. */
  lemma WorkerStep(s: State, e: Event, p: nat)
    requires p < |Step(s, e).workers|
    ensures var w := Step(s, e).workers[p];
      if p < |s.workers| then
        var v := s.workers[p];
        || w == v
        || (!v.Probing? && !v.Skipped? && !w.Probing? && !w.Skipped? && w.res == v.res)
        || (&& v.Probing? && e.Work? && e.p == p && w.Holding? && w.res.id == Own(p)
            && w.res.outcome == if e.found then e.outcome else NotFound)
      else
        w.Probing? || (w.Skipped? && w.res.outcome.Aborted? && s.cancelled)
  {
  }

  /** A skipped position's result says aborted, any other's is what its probe came to. */
  ghost predicate Explained(f: State, es: seq<Event>, w: Worker) {
    match w
    case Probing => true
    case Skipped(r) => r.outcome.Aborted?
    case _ => Probed(f, es, w.res)
  }

  lemma ProbedStays(f: State, es: seq<Event>, e: Event, r: Result)
    requires Probed(f, es, r)
    ensures Probed(f, es + [e], r)
  {
    var k :| 0 <= k < |es| && ProbedAt(f, es, k, r);
    assert (es + [e])[..k] == es[..k];
    assert ProbedAt(f, es + [e], k, r);
  }

  lemma {:induction false} ResultsCarryOutcomes(f: State, es: seq<Event>, p: nat)
    requires f.workers == [] && p < |Run(f, es).workers|
    ensures Explained(f, es, Run(f, es).workers[p])
  {
    hide Step;
    if es != [] {
      var n := |es| - 1;
      var s, e := Run(f, es[..n]), es[n];
      assert es[..n] + [e] == es;
      WorkerStep(s, e, p);
      if p < |s.workers| {
        ResultsCarryOutcomes(f, es[..n], p);
        var v, w := s.workers[p], Run(f, es).workers[p];
        if !v.Probing? && !v.Skipped? {
          ProbedStays(f, es[..n], e, v.res);
        } else if v.Probing? && w != v {
          assert ProbedAt(f, es, n, w.res);
        }
      }
    }
  }

  // ---- cancelling aborts what has not started

  /** The positions the loop has committed to: those it has passed, and the one waiting for the limiter. */
  function Committed(s: State): nat { |s.workers| + if s.main.AtLimiter? then 1 else 0 }

  /** Everything from position n on has been skipped, and the loop waits for the limiter at most below n. */
  ghost predicate SkippedFrom(s: State, n: nat) {
    && s.cancelled && (s.main.AtLimiter? ==> |s.workers| < n)
    && forall p :: n <= p < |s.workers| ==> s.workers[p].Skipped?
  }

  lemma SkippedStep(s: State, e: Event, n: nat)
    requires SkippedFrom(s, n)
    ensures SkippedFrom(Step(s, e), n)
  {
  }

  /** Once the context is cancelled, whatever happens next, exactly the positions not yet committed to are aborted. */
  lemma {:induction false} CancelAbortsTheRest(s: State, more: seq<Event>)
    requires s.cancelled
    ensures forall p :: Committed(s) <= p < |Run(s, more).workers| ==> Run(s, more).workers[p].Skipped?
    ensures SkippedFrom(Run(s, more), Committed(s))
  {
    hide Step;
    if more != [] {
      CancelAbortsTheRest(s, more[..|more| - 1]);
      SkippedStep(Run(s, more[..|more| - 1]), more[|more| - 1], Committed(s));
    }
  }

  /** A position the loop has started is never skipped afterwards. */
  lemma {:induction false} StartedIsNotSkipped(s: State, more: seq<Event>, p: nat)
    requires p < |s.workers| && !s.workers[p].Skipped?
    ensures p < |Run(s, more).workers| && !Run(s, more).workers[p].Skipped?
  {
    hide Step;
    if more != [] {
      StartedIsNotSkipped(s, more[..|more| - 1], p);
      WorkersStay(Run(s, more[..|more| - 1]), more[|more| - 1]);
      WorkerStep(Run(s, more[..|more| - 1]), more[|more| - 1], p);
    }
  }

  lemma WorkersStay(s: State, e: Event)
    ensures |s.workers| <= |Step(s, e).workers|
  {
  }

  // ---- the buffer

  /** The buffer operation a step performs, if it performs one. */
  function OpOf(s: State, e: Event): seq<Op<Result>> {
    match e
    case Drain => [Take]
    case Intrude(n, tag, outcome) => [Add(Result(Foreign(n), tag, outcome))]
    case Work(p, _, _) => if WorkEnabled(s, p) && s.workers[p].Stored? then [Add(s.workers[p].res)] else []
    case Go => if s.main.Collected? then [Op.Reclaim(s.main.results)] else []
    case Cancel => []
  }

  function OpsOf(f: State, es: seq<Event>): seq<Op<Result>> {
    if es == [] then [] else OpsOf(f, es[..|es| - 1]) + OpOf(Run(f, es[..|es| - 1]), es[|es| - 1])
  }

  predicate SameBook(l: Ledger<Result>, b: Book) {
    l.buffered == b.buffered && Flat(l.takes) == b.drained && l.reclaimed == b.reclaimed
  }

  lemma BookStep(s: State, e: Event, l: Ledger<Result>)
    requires SameBook(l, s.book)
    ensures SameBook(if OpOf(s, e) == [] then l else Apply(l, OpOf(s, e)[0]), Step(s, e).book)
    ensures |OpOf(s, e)| <= 1
  {
    assert (l.takes + [l.buffered])[..|l.takes|] == l.takes;
  }

  lemma ReplayMore(l: Ledger<Result>, ops: seq<Op<Result>>, more: seq<Op<Result>>)
    requires |more| <= 1
    ensures Replay(l, ops + more) == if more == [] then Replay(l, ops) else Apply(Replay(l, ops), more[0])
  {
    if more == [] { assert ops + more == ops; } else { assert (ops + more)[..|ops|] == ops; }
  }

  /**
   The batch, its readers and the strangers use one result buffer: on every schedule its contents, what
   readers got and what was reclaimed are what resultBuffer's ledger makes of their operations in order.
   */
  lemma {:induction false} BookIsLedger(tags: seq<string>, max: int, stale: seq<Result>, es: seq<Event>)
    ensures var f := Fresh(tags, max, stale);
      SameBook(Replay(Ledger(stale, [], []), OpsOf(f, es)), Run(f, es).book)
  {
    hide Step, Apply, OpOf;
    if es != [] {
      var f, n := Fresh(tags, max, stale), |es| - 1;
      BookIsLedger(tags, max, stale, es[..n]);
      var l := Replay(Ledger(stale, [], []), OpsOf(f, es[..n]));
      BookStep(Run(f, es[..n]), es[n], l);
      ReplayMore(Ledger(stale, [], []), OpsOf(f, es[..n]), OpOf(Run(f, es[..n]), es[n]));
    }
  }
}

/**
 Results are keyed by tag, so the promise that a batch leaves nothing of its own in the buffer
 depends on the tags: it holds on every schedule exactly when they are distinct.
 */
module BatchDuplicates {
  import opened Common
  import opened ResultBuffer
  import opened BatchRunner
  import opened BatchSafety

  /** Position p's result in the schedule below. */
  function Plain(tags: seq<string>, p: nat): Result
    requires p < |tags|
  {
    Result(Own(p), tags[p], Measured(0))
  }

  lemma Then(f: State, es: seq<Event>, e: Event) returns (more: seq<Event>)
    ensures more == es + [e] && Run(f, more) == Step(Run(f, es), e)
  {
    more := es + [e];
    assert more[..|es|] == es;
  }

  lemma Spawn(f: State, es: seq<Event>) returns (more: seq<Event>)
    requires var s := Run(f, es);
      s.main.AtSelect? && !s.cancelled && s.tokens < s.limit && |s.workers| < |s.tags|
    ensures Run(f, more) == Run(f, es).(workers := Run(f, es).workers + [Probing], tokens := Run(f, es).tokens + 1)
  {
    more := Then(f, es, Go);
    more := Then(f, more, Go);
  }

  /** The newest worker probes, stores and publishes. */
  lemma Measure(f: State, es: seq<Event>, p: nat) returns (more: seq<Event>)
    requires var s := Run(f, es); p < |s.workers| && p < |s.tags| && s.workers[p].Probing?
    ensures var s := Run(f, es);
      var r := Plain(s.tags, p);
      Run(f, more) == s.(workers := s.workers[p := Told(r)], resMap := s.resMap[s.tags[p] := r],
                         book := Publish(s.book, r))
  {
    more := Then(f, es, Work(p, true, Measured(0)));
    more := Then(f, more, Work(p, true, Measured(0)));
    more := Then(f, more, Work(p, true, Measured(0)));
    var s := Run(f, es);
    var r := Plain(s.tags, p);
    assert s.workers[p := Holding(r)][p := Stored(r)][p := Told(r)] == s.workers[p := Told(r)];
  }

  /** It then releases the limiter and the wait group. */
  lemma Leave(f: State, es: seq<Event>, p: nat) returns (more: seq<Event>)
    requires var s := Run(f, es); p < |s.workers| && p < |s.tags| && s.workers[p].Told? && s.tokens > 0
    ensures var s := Run(f, es);
      Run(f, more) == s.(workers := s.workers[p := Ended(s.workers[p].res)], tokens := s.tokens - 1, wg := s.wg - 1)
  {
    var s := Run(f, es);
    more := Then(f, es, Work(p, true, Measured(0)));
    more := Then(f, more, Work(p, true, Measured(0)));
    var r := s.workers[p].res;
    assert s.workers[p := Freed(r)][p := Ended(r)] == s.workers[p := Ended(r)];
  }

  /** n positions have run one after another; the map keeps the latest result of each tag. */
  ghost predicate RanInTurn(s: State, tags: seq<string>, n: nat) {
    && n <= |tags| && s.tags == tags && |s.workers| == n && s.main.AtSelect? && !s.cancelled
    && s.tokens == 0 && s.limit > 0 && s.wg == |tags| - n
    && |s.book.buffered| == n
    && (forall i :: 0 <= i < n ==> s.book.buffered[i] == Plain(tags, i))
    && (forall i :: 0 <= i < n ==>
          && tags[i] in s.resMap && s.resMap[tags[i]].tag == tags[i]
          && s.resMap[tags[i]].id.Own? && i <= s.resMap[tags[i]].id.pos)
  }

  lemma OneMore(s: State, t: State, tags: seq<string>, p: nat)
    requires RanInTurn(s, tags, p) && p < |tags|
    requires var r := Plain(tags, p);
      t == s.(workers := s.workers + [Ended(r)], wg := s.wg - 1, resMap := s.resMap[tags[p] := r],
              book := Publish(s.book, r))
    ensures RanInTurn(t, tags, p + 1)
  {
    forall i | 0 <= i < p + 1
      ensures tags[i] in t.resMap && t.resMap[tags[i]].tag == tags[i]
      ensures t.resMap[tags[i]].id.Own? && i <= t.resMap[tags[i]].id.pos
    {
      if tags[i] != tags[p] { assert t.resMap[tags[i]] == s.resMap[tags[i]]; }
    }
  }

  lemma RunOne(f: State, es: seq<Event>, tags: seq<string>, p: nat) returns (more: seq<Event>)
    requires RanInTurn(Run(f, es), tags, p) && p < |tags|
    ensures var s := Run(f, es);
      var r := Plain(tags, p);
      Run(f, more) == s.(workers := s.workers + [Ended(r)], wg := s.wg - 1, resMap := s.resMap[tags[p] := r],
                         book := Publish(s.book, r))
  {
    var s := Run(f, es);
    var r := Plain(tags, p);
    more := Spawn(f, es);
    more := Measure(f, more, p);
    assert (s.workers + [Probing])[p := Told(r)] == s.workers + [Told(r)];
    more := Leave(f, more, p);
    assert (s.workers + [Told(r)])[p := Ended(r)] == s.workers + [Ended(r)];
  }

  lemma {:induction false} InTurn(tags: seq<string>, max: int, n: nat) returns (es: seq<Event>)
    requires n <= |tags|
    ensures RanInTurn(Run(Fresh(tags, max, []), es), tags, n)
  {
    if n == 0 {
      es := [];
    } else {
      var f := Fresh(tags, max, []);
      var before := InTurn(tags, max, n - 1);
      es := RunOne(f, before, tags, n - 1);
      OneMore(Run(f, before), Run(f, es), tags, n - 1);
    }
  }

  lemma OlderTwinStays(tags: seq<string>, max: int, i: nat, j: nat) returns (es: seq<Event>)
    requires i < j < |tags| && tags[i] == tags[j]
    ensures var s := Run(Fresh(tags, max, []), es); s.main.Back? && Plain(tags, i) in s.book.buffered
  {
    var f := Fresh(tags, max, []);
    es := InTurn(tags, max, |tags|);
    var s := Run(f, es);
    es := Then(f, es, Go);
    es := Then(f, es, Go);
    var rs := Collect(tags, s.resMap);
    assert Run(f, es) == s.(main := Collected(rs));
    es := Then(f, es, Go);
    WithoutMembers(s.book.buffered, Elements(rs));
    var r := Plain(tags, i);
    assert s.book.buffered[i] == r;
    forall k | 0 <= k < |rs| ensures rs[k] != r {
      assert rs[k] == s.resMap[tags[k]] && rs[k].tag == tags[k];
      assert tags[k] == tags[j] ==> j <= rs[k].id.pos;
    }
    assert r !in rs;
  }

  /** Some schedule leaves one of the batch's own results buffered after it returns iff two tags are equal. */
  lemma LeavesNothingIffDistinct(tags: seq<string>, max: int)
    ensures Distinct(tags) <==>
      forall es :: var s := Run(Fresh(tags, max, []), es); s.main.Back? ==> AllForeign(s.book.buffered)
  {
    if Distinct(tags) {
      forall es | Run(Fresh(tags, max, []), es).main.Back?
        ensures AllForeign(Run(Fresh(tags, max, []), es).book.buffered)
      {
        BatchAnswersEveryTag(tags, max, [], es, Run(Fresh(tags, max, []), es).main.results);
      }
    } else {
      var i, j :| 0 <= i < j < |tags| && tags[i] == tags[j];
      var es := OlderTwinStays(tags, max, i, j);
      assert Plain(tags, i).id.Own?;
    }
  }
}

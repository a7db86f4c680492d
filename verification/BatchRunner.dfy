/**
 runBatch and BatchURLTest (internal/probe/probe.go, internal/probe/urltest.go) as a transition
 system: the spawning loop, one worker goroutine per started tag, the limiter channel, the wait
 group, the shared result map, and the result buffer that other readers drain meanwhile.

 A result is known by who allocated it: Own(p) is the one made for position p of the tag list,
 Foreign(n) belongs to somebody else or to an earlier batch.
 */
module BatchRunner {
  import opened Common
  import opened ResultBuffer

  const MAX_CONCURRENT_TESTS: nat := 100

  /** Always a usable channel capacity: the requested one if that is in range, else 100. */
  function NormalizeConcurrency(max: int): (limit: nat)
    ensures 1 <= limit <= 499
    ensures limit == max || (limit == 100 && (max < 1 || max > 499))
  {
    if max <= 0 || max >= 500 then MAX_CONCURRENT_TESTS else max
  }

  datatype Id = Own(pos: nat) | Foreign(n: nat)

  datatype Outcome = Measured(ms: nat) | Failed(text: string) | NotFound | Aborted | NoResult

  datatype Result = Result(id: Id, tag: string, outcome: Outcome)

  datatype Worker =
    | Skipped(res: Result)       // the loop saw the context cancelled and stored the abort itself
    | Probing                    // next: look the outbound up and probe it
    | Holding(res: Result)       // next: store
    | Stored(res: Result)        // next: publish
    | Told(res: Result)          // next: release the limiter
    | Freed(res: Result)         // next: wg.Done
    | Ended(res: Result)

  datatype Main =
    | AtSelect                             // top of the loop, or past its end
    | AtLimiter                            // context was live; next: limiter <- struct{}{}
    | Waiting                              // wg.Wait
    | Collected(results: seq<Result>)      // next: URLReporter.Reclaim(results)
    | Back(results: seq<Result>)           // BatchURLTest has returned

  /** The reporter's buffer and where everything ever published went. */
  datatype Book = Book(published: seq<Result>, buffered: seq<Result>, drained: seq<Result>, reclaimed: seq<Result>)

  datatype State = State(
    tags: seq<string>, limit: nat, cancelled: bool,
    main: Main, workers: seq<Worker>,      // one per tag the loop has passed
    tokens: nat, wg: int,
    resMap: map<string, Result>, book: Book)

  datatype Event =
    | Cancel
    | Go                                             // the batch's own goroutine moves
    | Work(p: nat, found: bool, outcome: Outcome)    // worker p moves
    | Drain                                          // somebody calls Results
    | Intrude(n: nat, tag: string, outcome: Outcome) // somebody else publishes

  function Fresh(tags: seq<string>, max: int, stale: seq<Result>): State {
    State(tags, NormalizeConcurrency(max), false, AtSelect, [], 0, |tags|, map[], Book(stale, stale, [], []))
  }

  function Publish(l: Book, r: Result): Book {
    l.(published := l.published + [r], buffered := l.buffered + [r])
  }

  function DrainBook(l: Book): Book {
    l.(buffered := [], drained := l.drained + l.buffered)
  }

  function ReclaimBook(l: Book, owned: seq<Result>): Book {
    var drop := Elements(owned);
    l.(buffered := Without(l.buffered, drop), reclaimed := l.reclaimed + Within(l.buffered, drop))
  }

  /** runBatch's closing loop, fallback included. */
  function Collect(tags: seq<string>, resMap: map<string, Result>): seq<Result> {
    seq(|tags|, i requires 0 <= i < |tags| =>
      if tags[i] in resMap then resMap[tags[i]] else Result(Own(i), tags[i], NoResult))
  }

  /** The loop itself, over the map the workers filled. */
  method CollectResults(tags: seq<string>, resMap: map<string, Result>) returns (res: seq<Result>)
    ensures |res| == |tags| && res == Collect(tags, resMap)
    ensures forall i :: 0 <= i < |tags| && tags[i] in resMap ==> res[i] == resMap[tags[i]]
  {
    res := [];
    for i := 0 to |tags|
      invariant res == Collect(tags, resMap)[..i]
    {
      var r := if tags[i] in resMap then resMap[tags[i]] else Result(Own(i), tags[i], NoResult);
      res := res + [r];
    }
  }

  predicate GoEnabled(s: State) {
    match s.main
    case AtSelect => true
    case AtLimiter => |s.workers| < |s.tags| && s.tokens < s.limit
    case Waiting => s.wg == 0
    case Collected(_) => true
    case Back(_) => false
  }

  function GoNext(s: State): State
    requires GoEnabled(s)
  {
    match s.main
    case AtSelect =>
      var i := |s.workers|;
      if i >= |s.tags| then s.(main := Waiting)
      else if s.cancelled then
        var r := Result(Own(i), s.tags[i], Aborted);
        s.(workers := s.workers + [Skipped(r)], resMap := s.resMap[s.tags[i] := r], wg := s.wg - 1)
      else s.(main := AtLimiter)
    case AtLimiter => s.(main := AtSelect, workers := s.workers + [Probing], tokens := s.tokens + 1)
    case Waiting => s.(main := Collected(Collect(s.tags, s.resMap)))
    case Collected(rs) => s.(main := Back(rs), book := ReclaimBook(s.book, rs))
  }

  predicate WorkEnabled(s: State, p: nat) {
    p < |s.workers| && p < |s.tags| && !s.workers[p].Skipped? && !s.workers[p].Ended?
  }

  function Put(s: State, p: nat, w: Worker): State
    requires p < |s.workers|
  {
    s.(workers := s.workers[p := w])
  }

  function WorkNext(s: State, p: nat, found: bool, outcome: Outcome): State
    requires WorkEnabled(s, p)
  {
    match s.workers[p]
    case Probing => Put(s, p, Holding(Result(Own(p), s.tags[p], if found then outcome else NotFound)))
    case Holding(r) => Put(s.(resMap := s.resMap[s.tags[p] := r]), p, Stored(r))
    case Stored(r) => Put(s.(book := Publish(s.book, r)), p, Told(r))
    case Told(r) => Put(s.(tokens := if s.tokens > 0 then s.tokens - 1 else 0), p, Freed(r))
    case Freed(r) => Put(s.(wg := s.wg - 1), p, Ended(r))
  }

  function Step(s: State, e: Event): State {
    match e
    case Cancel => s.(cancelled := true)
    case Go => if GoEnabled(s) then GoNext(s) else s
    case Work(p, found, outcome) => if WorkEnabled(s, p) then WorkNext(s, p, found, outcome) else s
    case Drain => s.(book := DrainBook(s.book))
    case Intrude(n, tag, outcome) => s.(book := Publish(s.book, Result(Foreign(n), tag, outcome)))
  }

  function Run(s: State, es: seq<Event>): State {
    if es == [] then s else Step(Run(s, es[..|es| - 1]), es[|es| - 1])
  }
}

/**
 The mobile log pump (mobile/log.go): a bounded drop-oldest queue, a one-token notify channel and a
 single delivering goroutine. `Pump` is the object itself; `State` is the whole system of pushers,
 setters and the consumer, interleaved at every lock section and channel operation.
 */
module LogPump {
  import opened Common

  datatype Entry = Entry(level: int, message: string)

  /** The fields guarded by `access`. A sink is known by a number. */
  datatype Queue = Queue(sink: Option<nat>, limit: int, pending: seq<Entry>)

  const DEFAULT_LOG_QUEUE_LINES: nat := 1024

  function Effective(limit: int): nat {
    if limit <= 0 then DEFAULT_LOG_QUEUE_LINES else limit
  }

  /** push's lock section. */
  function Pushed(q: Queue, e: Entry): Queue {
    if q.sink.None? then q
    else if |q.pending| >= Effective(q.limit) then q.(pending := q.pending[1..] + [e])
    else q.(pending := q.pending + [e])
  }

  class Pump {
    var sink: Option<nat>
    var limit: int
    var pending: seq<Entry>
    var token: bool      // notify holds its one token
    var running: bool    // once has started the consumer

    constructor ()
      ensures Guarded() == Queue(None, 0, []) && !token && !running
    {
      sink, limit, pending, token, running := None, 0, [], false, false;
    }

    function Guarded(): Queue
      reads this
    {
      Queue(sink, limit, pending)
    }

    method SetLimit(limit: int)
      modifies this`limit
      ensures Guarded() == old(Guarded()).(limit := limit)
    {
      this.limit := limit;
    }

    method Wake()
      modifies this`token
      ensures token
    {
      if !token { token := true; }
    }

    method SetSink(sink: Option<nat>)
      modifies this`sink, this`token, this`running
      ensures Guarded() == old(Guarded()).(sink := sink)
      ensures token == (old(token) || sink.Some?) && running == (old(running) || sink.Some?)
    {
      this.sink := sink;
      if sink.Some? {
        if !running { running := true; }
        Wake();
      }
    }

    method Push(level: int, message: string)
      modifies this`pending, this`token
      ensures Guarded() == Pushed(old(Guarded()), Entry(level, message))
      ensures token == (old(token) || sink.Some?)
    {
      if sink.None? { return; }
      var max := limit;
      if max <= 0 { max := DEFAULT_LOG_QUEUE_LINES; }
      if |pending| >= max { pending := pending[1..]; }
      pending := pending + [Entry(level, message)];
      Wake();
    }

    /** One pass of run after a token: swaps until nothing is left, returning what the sinks were given. */
    method Deliver() returns (given: seq<(nat, Entry)>)
      modifies this`pending, this`token
      ensures pending == [] && !token
      ensures old(sink).Some? ==> |given| == |old(pending)|
      ensures old(sink).Some? ==> forall i :: 0 <= i < |given| ==> given[i] == (old(sink).value, old(pending)[i])
      ensures old(sink).None? ==> given == []
    {
      token := false;
      given := [];
      while true
        invariant !token
        invariant sink.Some? ==> |given| + |pending| == |old(pending)|
        invariant sink.Some? ==> pending == old(pending)[|given|..]
        invariant sink.Some? ==> forall i :: 0 <= i < |given| ==> given[i] == (sink.value, old(pending)[i])
        invariant sink.None? ==> given == []
        decreases |pending|
      {
        var to, batch := sink, pending;
        pending := [];
        if to.None? || |batch| == 0 { break; }
        ghost var start := |given|;
        for i := 0 to |batch|
          invariant |given| == start + i
          invariant forall j :: 0 <= j < |given| ==> given[j] == (to.value, old(pending)[j])
        {
          given := given + [(to.value, batch[i])];
        }
      }
    }
  }

  // ---- the concurrent system

  /** A call of push or setSink. */
  datatype Caller =
    | Pushing(entry: Entry)           // next: push's lock section
    | Setting(sink: Option<nat>)      // next: setSink's lock section
    | Starting                        // next: once.Do
    | Waking                          // next: wake
    | Returned

  datatype Consumer =
    | Absent                                       // run has not been started
    | Receiving                                    // blocked on notify
    | Swapping                                     // next: the lock section of the inner loop
    | Delivering(sink: nat, rest: seq<Entry>)

  datatype State = State(
    q: Queue, token: bool, callers: seq<Caller>, consumer: Consumer,
    accepted: seq<Entry>,      // lines that entered the queue, in order
    delivered: seq<Entry>,     // lines handed to a sink, in order
    sinks: seq<nat>)           // and the sink each was handed to

  datatype Event =
    | Push(entry: Entry)
    | SetSink(sink: Option<nat>)
    | SetLimit(limit: int)
    | Call(c: nat)       // caller c moves
    | Consume            // the consumer moves

  function Fresh(limit: int): State {
    State(Queue(None, limit, []), false, [], Absent, [], [], [])
  }

  function Becomes(s: State, c: nat, pc: Caller): State
    requires c < |s.callers|
  {
    s.(callers := s.callers[c := pc])
  }

  function CallerNext(s: State, c: nat): State
    requires c < |s.callers|
  {
    match s.callers[c]
    case Pushing(e) =>
      if s.q.sink.None? then Becomes(s, c, Returned)
      else Becomes(s.(q := Pushed(s.q, e), accepted := s.accepted + [e]), c, Waking)
    case Setting(sink) =>
      Becomes(s.(q := s.q.(sink := sink)), c, if sink.Some? then Starting else Returned)
    case Starting => Becomes(s.(consumer := if s.consumer.Absent? then Receiving else s.consumer), c, Waking)
    case Waking => Becomes(s.(token := true), c, Returned)
    case Returned => s
  }

  function ConsumerNext(s: State): State {
    match s.consumer
    case Absent => s
    case Receiving => if s.token then s.(token := false, consumer := Swapping) else s
    case Swapping =>
      s.(q := s.q.(pending := []),
         consumer := if s.q.sink.None? || s.q.pending == [] then Receiving
                     else Delivering(s.q.sink.value, s.q.pending))
    case Delivering(sink, rest) =>
      if rest == [] then s.(consumer := Swapping)
      else
        s.(delivered := s.delivered + [rest[0]], sinks := s.sinks + [sink], consumer := Delivering(sink, rest[1..]))
  }

  function Step(s: State, e: Event): State {
    match e
    case Push(entry) => s.(callers := s.callers + [Pushing(entry)])
    case SetSink(sink) => s.(callers := s.callers + [Setting(sink)])
    case SetLimit(limit) => s.(q := s.q.(limit := limit))
    case Call(c) => if c < |s.callers| then CallerNext(s, c) else s
    case Consume => ConsumerNext(s)
  }

  function Run(s: State, es: seq<Event>): State {
    if es == [] then s else Step(Run(s, es[..|es| - 1]), es[|es| - 1])
  }

  // ---- no line is stuck

  ghost predicate SomeCaller(s: State, pc: Caller) {
    exists c :: 0 <= c < |s.callers| && s.callers[c] == pc
  }

  ghost predicate WakeComing(s: State) {
    s.token || SomeCaller(s, Waking) || SomeCaller(s, Starting) || s.consumer.Swapping? || s.consumer.Delivering?
  }

  ghost predicate NotStuck(s: State) {
    && (s.q.sink.Some? ==> !s.consumer.Absent? || SomeCaller(s, Starting))
    && (s.q.sink.Some? && s.q.pending != [] ==> WakeComing(s))
  }

  lemma OthersKeep(s: State, t: State, c: nat, pc: Caller)
    requires c < |s.callers| == |t.callers|
    requires forall d :: 0 <= d < |s.callers| && d != c ==> t.callers[d] == s.callers[d]
    requires SomeCaller(s, pc) && s.callers[c] != pc
    ensures SomeCaller(t, pc)
  {
    var d :| 0 <= d < |s.callers| && s.callers[d] == pc;
    assert t.callers[d] == pc;
  }

  lemma CallerKeepsNotStuck(s: State, c: nat)
    requires NotStuck(s) && c < |s.callers|
    ensures NotStuck(CallerNext(s, c))
  {
    var t := CallerNext(s, c);
    assert t.callers[c] == Waking ==> SomeCaller(t, Waking);
    assert t.callers[c] == Starting ==> SomeCaller(t, Starting);
    if SomeCaller(s, Waking) && !s.callers[c].Waking? { OthersKeep(s, t, c, Waking); }
    if SomeCaller(s, Starting) && !s.callers[c].Starting? { OthersKeep(s, t, c, Starting); }
  }

  lemma StepKeepsNotStuck(s: State, e: Event)
    requires NotStuck(s)
    ensures NotStuck(Step(s, e))
  {
    var t := Step(s, e);
    match e
    case Call(c) => if c < |s.callers| { CallerKeepsNotStuck(s, c); }
    case _ =>
      forall pc | SomeCaller(s, pc) ensures SomeCaller(t, pc) {
        var d :| 0 <= d < |s.callers| && s.callers[d] == pc;
        assert t.callers[d] == pc;
      }
  }

  /**
   No line is stuck: in every reachable state with lines pending and a sink set, a token is waiting,
   or some pusher or setter has yet to wake, or the consumer will swap again. So when every call has
   returned and the consumer is blocked with no token, the queue is empty.
   */
  lemma {:induction false} NoLineIsStuck(limit: int, es: seq<Event>)
    ensures var s := Run(Fresh(limit), es);
      && NotStuck(s)
      && ((forall c :: 0 <= c < |s.callers| ==> s.callers[c].Returned?)
          && !s.token && (s.consumer.Receiving? || s.consumer.Absent?) && s.q.sink.Some?
          ==> s.q.pending == [] && s.consumer.Receiving?)
  {
    if es != [] {
      NoLineIsStuck(limit, es[..|es| - 1]);
      StepKeepsNotStuck(Run(Fresh(limit), es[..|es| - 1]), es[|es| - 1]);
    }
  }

  // ---- order, duplication and loss

  /** a is b with some elements left out: idx gives each element's position, in increasing order. */
  ghost predicate Picks(a: seq<Entry>, b: seq<Entry>, idx: seq<nat>) {
    && |idx| == |a|
    && (forall i :: 0 <= i < |idx| ==> idx[i] < |b| && b[idx[i]] == a[i])
    && (forall i, j :: 0 <= i < j < |idx| ==> idx[i] < idx[j])
  }

  function InHand(s: State): seq<Entry> {
    if s.consumer.Delivering? then s.consumer.rest else []
  }

  /** Everything accepted and not lost, oldest first. */
  function Surviving(s: State): seq<Entry> {
    s.delivered + InHand(s) + s.q.pending
  }

  /** A push that overflows drops the oldest line; a swap that finds no sink discards the batch. */
  predicate Loses(s: State, e: Event) {
    || (&& e.Call? && e.c < |s.callers| && s.callers[e.c].Pushing?
        && s.q.sink.Some? && |s.q.pending| >= Effective(s.q.limit))
    || (e.Consume? && s.consumer.Swapping? && s.q.sink.None? && s.q.pending != [])
  }

  /** push's lock section runs with a sink set. */
  predicate Accepts(s: State, e: Event) {
    e.Call? && e.c < |s.callers| && s.callers[e.c].Pushing? && s.q.sink.Some?
  }

  lemma PushSurvivors(s: State, e: Event)
    requires Accepts(s, e)
    ensures var t := Step(s, e);
      var d, p := |s.delivered + InHand(s)|, Surviving(s);
      && t.accepted == s.accepted + [s.callers[e.c].entry]
      && Surviving(t) == (if Loses(s, e) then p[..d] + p[d + 1..] else p) + [s.callers[e.c].entry]
  {
    var t := Step(s, e);
    var a := s.delivered + InHand(s);
    var p := s.q.pending;
    assert t.delivered + InHand(t) == a;
    if Loses(s, e) {
      assert (a + p)[..|a|] == a && (a + p)[|a| + 1..] == p[1..];
    }
  }

  lemma OtherSurvivors(s: State, e: Event)
    requires !Accepts(s, e)
    ensures var t := Step(s, e);
      var d, p := |s.delivered + InHand(s)|, Surviving(s);
      && t.accepted == s.accepted
      && Surviving(t) == if Loses(s, e) then p[..d] else p
  {
    var a := s.delivered + InHand(s);
    assert a + [] == a && (a + s.q.pending)[..|a|] == a;
    if e.Consume? && s.consumer.Delivering? && s.consumer.rest != [] {
      var rest := s.consumer.rest;
      assert [rest[0]] + rest[1..] == rest;
      Regroup(s.delivered, [rest[0]], rest[1..]);
    }
  }

  lemma PicksSkip(a: seq<Entry>, b: seq<Entry>, idx: seq<nat>, d: nat)
    requires Picks(a, b, idx) && d < |a|
    ensures Picks(a[..d] + a[d + 1..], b, idx[..d] + idx[d + 1..])
  {
  }

  lemma PicksMore(a: seq<Entry>, b: seq<Entry>, idx: seq<nat>, e: Entry)
    requires Picks(a, b, idx)
    ensures Picks(a + [e], b + [e], idx + [|b|])
  {
  }

  lemma StepPicks(s: State, e: Event, idx: seq<nat>) returns (next: seq<nat>)
    requires Picks(Surviving(s), s.accepted, idx)
    ensures Picks(Surviving(Step(s, e)), Step(s, e).accepted, next)
  {
    hide Step;
    var d, p := |s.delivered + InHand(s)|, Surviving(s);
    if Accepts(s, e) {
      PushSurvivors(s, e);
      var kept, at := p, idx;
      if Loses(s, e) {
        assert d < |p|;
        PicksSkip(p, s.accepted, idx, d);
        kept, at := p[..d] + p[d + 1..], idx[..d] + idx[d + 1..];
      }
      PicksMore(kept, s.accepted, at, s.callers[e.c].entry);
      next := at + [|s.accepted|];
    } else {
      OtherSurvivors(s, e);
      next := if Loses(s, e) then idx[..d] else idx;
    }
  }

  /**
   Delivered lines, then lines in the consumer's hand, then queued lines are an order-preserving,
   duplicate-free selection of the accepted lines, in every reachable state.
   */
  lemma {:induction false} DeliveredInOrder(limit: int, es: seq<Event>) returns (idx: seq<nat>)
    ensures var s := Run(Fresh(limit), es); Picks(Surviving(s), s.accepted, idx)
    ensures var s := Run(Fresh(limit), es);
      |s.delivered| <= |idx| && Picks(s.delivered, s.accepted, idx[..|s.delivered|])
  {
    if es == [] {
      idx := [];
    } else {
      idx := DeliveredInOrder(limit, es[..|es| - 1]);
      idx := StepPicks(Run(Fresh(limit), es[..|es| - 1]), es[|es| - 1], idx);
    }
    var s := Run(Fresh(limit), es);
    assert forall i :: 0 <= i < |s.delivered| ==> s.delivered[i] == Surviving(s)[i];
  }

  ghost predicate NoLoss(limit: int, es: seq<Event>) {
    forall k :: 0 <= k < |es| ==> !Loses(Run(Fresh(limit), es[..k]), es[k])
  }

  lemma NoLossLast(limit: int, es: seq<Event>)
    requires es != []
    ensures NoLoss(limit, es) <==>
      NoLoss(limit, es[..|es| - 1]) && !Loses(Run(Fresh(limit), es[..|es| - 1]), es[|es| - 1])
  {
    hide Run, Loses;
    var n := |es| - 1;
    assert forall k :: 0 <= k < n ==> es[..n][..k] == es[..k] && es[..n][k] == es[k];
  }

  lemma {:induction false} SurvivorsAtMost(limit: int, es: seq<Event>)
    ensures var s := Run(Fresh(limit), es); |Surviving(s)| <= |s.accepted|
    ensures NoLoss(limit, es) <==> var s := Run(Fresh(limit), es); |Surviving(s)| == |s.accepted|
    ensures NoLoss(limit, es) ==> var s := Run(Fresh(limit), es); Surviving(s) == s.accepted
  {
    if es != [] {
      hide NoLoss, Step, Loses;
      var s := Run(Fresh(limit), es[..|es| - 1]);
      SurvivorsAtMost(limit, es[..|es| - 1]);
      NoLossLast(limit, es);
      SurvivorSteps(s, es[|es| - 1]);
    }
  }

  /** One step: losing costs at least one line, not losing keeps the survivors in step with the accepted. */
  lemma SurvivorSteps(s: State, e: Event)
    requires |Surviving(s)| <= |s.accepted|
    ensures var t := Step(s, e);
      && |Surviving(t)| <= |t.accepted|
      && (|Surviving(t)| == |t.accepted| <==> |Surviving(s)| == |s.accepted| && !Loses(s, e))
      && (Surviving(s) == s.accepted && !Loses(s, e) ==> Surviving(t) == t.accepted)
  {
    if Accepts(s, e) { PushSurvivors(s, e); } else { OtherSurvivors(s, e); }
  }

  /**
   Exactly when lines are lost: every accepted line has been delivered, is being delivered or is
   queued if and only if no push ever overflowed and no swap ever found the sink gone.
   */
  lemma LostOnlyByOverflowOrNoSink(limit: int, es: seq<Event>)
    ensures var s := Run(Fresh(limit), es);
      s.delivered + InHand(s) + s.q.pending == s.accepted <==> NoLoss(limit, es)
  {
    SurvivorsAtMost(limit, es);
  }

  // ---- the bound

  /** The queue never outgrows the largest limit in force so far, so an unchanged limit bounds it. */
  lemma {:induction false} QueueIsBounded(limit: int, es: seq<Event>, bound: nat)
    requires Effective(limit) <= bound
    requires forall k :: 0 <= k < |es| && es[k].SetLimit? ==> Effective(es[k].limit) <= bound
    ensures var s := Run(Fresh(limit), es); |s.q.pending| <= bound && Effective(s.q.limit) <= bound
  {
    if es != [] {
      var n := |es| - 1;
      forall k | 0 <= k < n && es[..n][k].SetLimit? ensures Effective(es[..n][k].limit) <= bound {
        assert es[..n][k] == es[k];
      }
      QueueIsBounded(limit, es[..n], bound);
      StepBounded(Run(Fresh(limit), es[..n]), es[n], bound);
    }
  }

  lemma StepBounded(s: State, e: Event, bound: nat)
    requires |s.q.pending| <= bound && Effective(s.q.limit) <= bound && (e.SetLimit? ==> Effective(e.limit) <= bound)
    ensures |Step(s, e).q.pending| <= bound && Effective(Step(s, e).q.limit) <= bound
  {
  }

  /** An unchanged limit bounds the queue: by itself if it is positive, by 1024 if not. */
  lemma QueueWithinLimit(limit: int, es: seq<Event>)
    requires forall k :: 0 <= k < |es| ==> !es[k].SetLimit?
    ensures |Run(Fresh(limit), es).q.pending| <= if limit > 0 then limit else 1024
  {
    QueueIsBounded(limit, es, Effective(limit));
  }

  // ---- what is kept, and where it goes

  /** At the limit one push costs one line, below it none; and what is kept is the newest. */
  lemma PushKeepsNewest(q: Queue, e: Entry)
    requires q.sink.Some?
    ensures var lim, p := (if q.limit > 0 then q.limit else 1024), Pushed(q, e).pending;
      && |p| == (if |q.pending| < lim then |q.pending| + 1 else |q.pending|)
      && p == (q.pending + [e])[|q.pending| + 1 - |p|..]
  {
  }

  /** The queue is always the newest of the accepted lines: whatever was dropped was older. */
  ghost predicate HoldsNewest(s: State) {
    |s.q.pending| <= |s.accepted| && s.q.pending == s.accepted[|s.accepted| - |s.q.pending|..]
  }

  lemma NewestPushed(q: Queue, e: Entry, accepted: seq<Entry>)
    requires q.sink.Some? && |q.pending| <= |accepted| && q.pending == accepted[|accepted| - |q.pending|..]
    ensures var p, a := Pushed(q, e).pending, accepted + [e]; |p| <= |a| && p == a[|a| - |p|..]
  {
    PushKeepsNewest(q, e);
    hide Pushed, Effective;
    var p, n := Pushed(q, e).pending, |accepted| - |q.pending|;
    SuffixGrows(accepted, n, e);
    DropSplit(accepted + [e], n, |q.pending| + 1 - |p|);
  }

  lemma SuffixGrows(a: seq<Entry>, n: nat, e: Entry)
    requires n <= |a|
    ensures a[n..] + [e] == (a + [e])[n..]
  {
  }

  lemma NewestStep(s: State, e: Event)
    requires HoldsNewest(s)
    ensures HoldsNewest(Step(s, e))
  {
    if Accepts(s, e) { NewestPushed(s.q, s.callers[e.c].entry, s.accepted); }
    hide Pushed;
  }

  lemma {:induction false} QueueHoldsNewest(limit: int, es: seq<Event>)
    ensures HoldsNewest(Run(Fresh(limit), es))
  {
    hide Step;
    if es != [] {
      QueueHoldsNewest(limit, es[..|es| - 1]);
      NewestStep(Run(Fresh(limit), es[..|es| - 1]), es[|es| - 1]);
    }
  }

  /** Event k is the lock section of a setSink call, and which sink it sets. */
  function SinkSet(s: State, e: Event): Option<Option<nat>> {
    if e.Call? && e.c < |s.callers| && s.callers[e.c].Setting? then Some(s.callers[e.c].sink) else None
  }

  function LastSink(f: State, es: seq<Event>): Option<nat> {
    if es == [] then None
    else
      var n := |es| - 1;
      var now := SinkSet(Run(f, es[..n]), es[n]);
      if now.Some? then now.value else LastSink(f, es[..n])
  }

  function LastLimit(limit: int, es: seq<Event>): int {
    if es == [] then limit
    else if es[|es| - 1].SetLimit? then es[|es| - 1].limit
    else LastLimit(limit, es[..|es| - 1])
  }

  /** The lines whose push found a sink set, in the order of their lock sections. */
  function PushedLines(f: State, es: seq<Event>): seq<Entry> {
    if es == [] then []
    else
      var n := |es| - 1;
      var s, e := Run(f, es[..n]), es[n];
      PushedLines(f, es[..n]) +
      if e.Call? && e.c < |s.callers| && s.callers[e.c].Pushing? && LastSink(f, es[..n]).Some?
      then [s.callers[e.c].entry] else []
  }

  lemma SinkStep(s: State, e: Event)
    ensures var t := Step(s, e);
      && t.q.sink == (if SinkSet(s, e).Some? then SinkSet(s, e).value else s.q.sink)
      && t.q.limit == (if e.SetLimit? then e.limit else s.q.limit)
      && t.accepted == s.accepted +
           if e.Call? && e.c < |s.callers| && s.callers[e.c].Pushing? && s.q.sink.Some? then [s.callers[e.c].entry]
           else []
  {
  }

  /** Sink and limit in force are those set last, and the accepted lines are those pushed while there was a sink. */
  lemma {:induction false} SinkAndLines(limit: int, es: seq<Event>)
    ensures var f := Fresh(limit);
      && Run(f, es).q.sink == LastSink(f, es) && Run(f, es).accepted == PushedLines(f, es)
      && Run(f, es).q.limit == LastLimit(limit, es)
  {
    hide Step, SinkSet;
    if es != [] {
      SinkAndLines(limit, es[..|es| - 1]);
      SinkStep(Run(Fresh(limit), es[..|es| - 1]), es[|es| - 1]);
    }
  }

  /** At event k the consumer swapped the queue out while `sink` was set, and `entry` was in it. */
  ghost predicate SwappedAt(f: State, es: seq<Event>, k: nat, sink: nat, entry: Entry)
    requires k < |es|
  {
    var s := Run(f, es[..k]);
    es[k].Consume? && s.consumer.Swapping? && s.q.sink == Some(sink) && entry in s.q.pending
  }

  ghost predicate Swapped(f: State, es: seq<Event>, sink: nat, entry: Entry) {
    exists k :: 0 <= k < |es| && SwappedAt(f, es, k, sink, entry)
  }

  lemma SwappedStays(f: State, es: seq<Event>, e: Event, sink: nat, entry: Entry)
    requires Swapped(f, es, sink, entry)
    ensures Swapped(f, es + [e], sink, entry)
  {
    var k :| 0 <= k < |es| && SwappedAt(f, es, k, sink, entry);
    assert (es + [e])[..k] == es[..k];
    assert SwappedAt(f, es + [e], k, sink, entry);
  }

  /** What one event adds to the deliveries, and what the consumer has in hand afterwards. */
  lemma DeliveryStep(s: State, e: Event)
    ensures var t := Step(s, e);
      && (if e.Consume? && s.consumer.Delivering? && s.consumer.rest != [] then
            t.delivered == s.delivered + [s.consumer.rest[0]] && t.sinks == s.sinks + [s.consumer.sink]
          else t.delivered == s.delivered && t.sinks == s.sinks)
      && (t.consumer.Delivering? ==>
            || (&& s.consumer.Delivering? && t.consumer.sink == s.consumer.sink
                && forall x :: x in t.consumer.rest ==> x in s.consumer.rest)
            || (&& e.Consume? && s.consumer.Swapping? && s.q.sink == Some(t.consumer.sink)
                && t.consumer.rest == s.q.pending))
  {
  }

  /** Every line went to the sink that was set when the queue holding it was swapped out. */
  lemma {:induction false} DeliveredToTheSink(limit: int, es: seq<Event>)
    ensures var f := Fresh(limit);
      var s := Run(f, es);
      && |s.sinks| == |s.delivered|
      && (forall i :: 0 <= i < |s.sinks| ==> Swapped(f, es, s.sinks[i], s.delivered[i]))
      && (s.consumer.Delivering? ==> forall x :: x in s.consumer.rest ==> Swapped(f, es, s.consumer.sink, x))
  {
    hide Step, Swapped;
    var f := Fresh(limit);
    if es != [] {
      var n := |es| - 1;
      var s, e, t := Run(f, es[..n]), es[n], Run(f, es);
      DeliveredToTheSink(limit, es[..n]);
      DeliveryStep(s, e);
      assert es[..n] + [e] == es;
      forall i | 0 <= i < |s.sinks| ensures Swapped(f, es, s.sinks[i], s.delivered[i]) {
        SwappedStays(f, es[..n], e, s.sinks[i], s.delivered[i]);
      }
      if s.consumer.Delivering? {
        forall x | x in s.consumer.rest ensures Swapped(f, es, s.consumer.sink, x) {
          SwappedStays(f, es[..n], e, s.consumer.sink, x);
        }
      } else if t.consumer.Delivering? {
        forall x | x in t.consumer.rest ensures Swapped(f, es, t.consumer.sink, x) {
          assert SwappedAt(f, es, n, t.consumer.sink, x);
          SwappedHere(f, es, n, t.consumer.sink, x);
        }
      }
    }
  }

  lemma SwappedHere(f: State, es: seq<Event>, k: nat, sink: nat, entry: Entry)
    requires k < |es| && SwappedAt(f, es, k, sink, entry)
    ensures Swapped(f, es, sink, entry)
  {
  }
}

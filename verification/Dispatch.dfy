/**
 Serve's request goroutines (internal/rpc/dispatch.go) as a transition system: any number of them
 run at once, each ends with a reply, an error or a recovered panic, and all share one write lock.
 A write reaches the connection in pieces of any size.
 */
module Dispatch {
  import opened Common
  import opened Framing

  datatype Outcome = Reply(data: seq<byte>) | Failure(text: seq<byte>) | Panic(text: seq<byte>)

  datatype Pc =
    | Running                              // in dispatch
    | Answering(resp: Response)            // in writeResponse, before writeMu.Lock
    | Writing(resp: Response, sent: nat)   // holds writeMu, sent bytes of the frame are out
    | Finished(resp: Response)
    | Cut(resp: Response)                  // a write failed

  datatype Worker = Worker(req: Request, pc: Pc)

  datatype State = State(
    known: set<seq<byte>>,      // the handler table's method names
    workers: seq<Worker>, writeMu: Option<nat>, out: seq<byte>, failed: bool)

  datatype Event =
    | Arrive(req: Request)                // the read loop starts a goroutine
    | Return(w: nat, outcome: Outcome)    // dispatch of worker w ends
    | Acquire(w: nat)
    | Write(w: nat, n: nat)               // up to n more bytes of w's frame go out
    | Release(w: nat)
    | Fail(w: nat)                        // a write of worker w fails

  function Ascii(s: string): (bs: seq<byte>)
    ensures |bs| == |s| && forall i :: 0 <= i < |s| && s[i] as int < 256 ==> bs[i] == s[i] as int
  {
    seq(|s|, i requires 0 <= i < |s| => s[i] as int % 256)
  }

  /** The response for a request whose handler ended with `o`: unknown methods never reach a handler. */
  function Answer(known: set<seq<byte>>, req: Request, o: Outcome): Response {
    if req.name !in known then Response(req.id, 1, Ascii("unknown method: ") + req.name)
    else match o
      case Reply(data) => Response(req.id, 0, data)
      case Failure(text) => Response(req.id, 1, text)
      case Panic(text) => Response(req.id, 1, Ascii("core panic in ") + req.name + Ascii(": ") + text)
  }

  function Fresh(known: set<seq<byte>>): State {
    State(known, [], None, [], false)
  }

  function Put(s: State, w: nat, pc: Pc): State
    requires w < |s.workers|
  {
    s.(workers := s.workers[w := s.workers[w].(pc := pc)])
  }

  function Min(a: nat, b: nat): nat { if a < b then a else b }

  function Step(s: State, e: Event): State {
    match e
    case Arrive(req) => s.(workers := s.workers + [Worker(req, Running)])
    case Return(w, o) =>
      if w < |s.workers| && s.workers[w].pc.Running? then
        Put(s, w, Answering(Answer(s.known, s.workers[w].req, o)))
      else s
    case Acquire(w) =>
      if w < |s.workers| && s.workers[w].pc.Answering? && s.writeMu.None? then
        Put(s, w, Writing(s.workers[w].pc.resp, 0)).(writeMu := Some(w))
      else s
    case Write(w, n) =>
      if w < |s.workers| && s.workers[w].pc.Writing? then
        var pc := s.workers[w].pc;
        var frame := EncodeResponse(pc.resp);
        if pc.sent <= |frame| then
          var upto := Min(pc.sent + n, |frame|);
          Put(s, w, Writing(pc.resp, upto)).(out := s.out + frame[pc.sent..upto])
        else s
      else s
    case Release(w) =>
      if && w < |s.workers| && s.workers[w].pc.Writing?
         && s.workers[w].pc.sent == |EncodeResponse(s.workers[w].pc.resp)| then
        Put(s, w, Finished(s.workers[w].pc.resp)).(writeMu := None)
      else s
    case Fail(w) =>
      if w < |s.workers| && s.workers[w].pc.Writing? then
        Put(s, w, Cut(s.workers[w].pc.resp)).(writeMu := None, failed := true)
      else s
  }

  function Run(s: State, es: seq<Event>): State {
    if es == [] then s else Step(Run(s, es[..|es| - 1]), es[|es| - 1])
  }

  // ---- the invariant

  function RespOf(s: State, w: nat): Response
    requires w < |s.workers| && !s.workers[w].pc.Running?
  {
    s.workers[w].pc.resp
  }

  /**
   What the format promises about the answer to a request whose handler ended with o: status 0 exactly for a
   known method that replied, and then the reply itself; otherwise status 1 and the text of what went wrong.
   */
  ghost predicate AnswersTo(known: set<seq<byte>>, req: Request, o: Outcome, resp: Response) {
    && resp.id == req.id && (resp.status == 0 || resp.status == 1)
    && (resp.status == 0 <==> req.name in known && o.Reply?)
    && (resp.status == 0 ==> resp.data == o.data)
    && (req.name !in known ==> resp.data == Ascii("unknown method: ") + req.name)
    && (req.name in known && o.Failure? ==> resp.data == o.text)
    && (req.name in known && o.Panic? ==> resp.data == Ascii("core panic in ") + req.name + Ascii(": ") + o.text)
  }

  /** Event k is the end of worker w's handler, and resp answers its request accordingly. */
  ghost predicate ReturnedAt(f: State, es: seq<Event>, k: nat, w: nat, req: Request, resp: Response)
    requires k < |es|
  {
    var s := Run(f, es[..k]);
    && es[k].Return? && es[k].w == w && w < |s.workers| && s.workers[w] == Worker(req, Running)
    && AnswersTo(s.known, req, es[k].outcome, resp)
  }

  ghost predicate Answered(f: State, es: seq<Event>, w: nat, req: Request, resp: Response) {
    exists k :: 0 <= k < |es| && ReturnedAt(f, es, k, w, req, resp)
  }

  /** Distinct indices of exactly the finished workers. */
  ghost predicate FinishedIn(s: State, order: seq<nat>) {
    && (forall k :: 0 <= k < |order| ==> order[k] < |s.workers| && s.workers[order[k]].pc.Finished?)
    && (forall j, k :: 0 <= j < k < |order| ==> order[j] != order[k])
    && (forall w :: 0 <= w < |s.workers| && s.workers[w].pc.Finished? ==> w in order)
  }

  ghost function Responses(s: State, order: seq<nat>): seq<Response>
    requires forall k :: 0 <= k < |order| ==> order[k] < |s.workers| && s.workers[order[k]].pc.Finished?
  {
    seq(|order|, k requires 0 <= k < |order| => RespOf(s, order[k]))
  }

  function Frames(rs: seq<Response>): seq<byte> {
    if rs == [] then [] else Frames(rs[..|rs| - 1]) + EncodeResponse(rs[|rs| - 1])
  }

  /** What the lock holder has put out so far. */
  function Partial(s: State): seq<byte> {
    if s.writeMu.Some? && s.writeMu.value < |s.workers| && s.workers[s.writeMu.value].pc.Writing? then
      var pc := s.workers[s.writeMu.value].pc;
      EncodeResponse(pc.resp)[..Min(pc.sent, |EncodeResponse(pc.resp)|)]
    else []
  }

  ghost predicate LockInv(s: State) {
    && (s.writeMu.Some? ==> s.writeMu.value < |s.workers|)
    && (forall w :: 0 <= w < |s.workers| ==> (s.workers[w].pc.Writing? <==> s.writeMu == Some(w)))
    && (forall w :: 0 <= w < |s.workers| && s.workers[w].pc.Writing? ==>
          s.workers[w].pc.sent <= |EncodeResponse(s.workers[w].pc.resp)|)
  }

  /** The bytes on the wire: the finished workers' frames, whole and in order, then the holder's part. */
  ghost predicate Explains(s: State, order: seq<nat>) {
    && LockInv(s) && FinishedIn(s, order)
    && s.out == Frames(Responses(s, order)) + Partial(s)
  }

  lemma LockStays(s: State, e: Event)
    requires LockInv(s)
    ensures LockInv(Step(s, e))
  {
  }

  /** What one event does to a worker: its response is fixed by its Return, once. */
  lemma WorkerStep(s: State, e: Event, w: nat)
    requires w < |Step(s, e).workers|
    ensures var t := Step(s, e);
      && t.known == s.known
      && if w < |s.workers| then
           var a, b := s.workers[w], t.workers[w];
           && a.req == b.req
           && if a.pc.Running? then
                if e.Return? && e.w == w then !b.pc.Running? && AnswersTo(s.known, a.req, e.outcome, b.pc.resp)
                else b.pc.Running?
              else !b.pc.Running? && b.pc.resp == a.pc.resp
         else t.workers[w].pc.Running?
  {
  }

  lemma AnsweredStays(f: State, es: seq<Event>, e: Event, w: nat, req: Request, resp: Response)
    requires Answered(f, es, w, req, resp)
    ensures Answered(f, es + [e], w, req, resp)
  {
    var k :| 0 <= k < |es| && ReturnedAt(f, es, k, w, req, resp);
    assert (es + [e])[..k] == es[..k];
    assert ReturnedAt(f, es + [e], k, w, req, resp);
  }

  /** Every response, written or not, is the answer fixed by the end of its own handler. */
  lemma {:induction false} AnswersAreTheHandlers(known: set<seq<byte>>, es: seq<Event>, w: nat)
    requires w < |Run(Fresh(known), es).workers|
    ensures var s := Run(Fresh(known), es);
      && s.known == known
      && (!s.workers[w].pc.Running? ==> Answered(Fresh(known), es, w, s.workers[w].req, s.workers[w].pc.resp))
  {
    hide Step, AnswersTo;
    var f := Fresh(known);
    if es != [] {
      var n := |es| - 1;
      var s, e := Run(f, es[..n]), es[n];
      assert es[..n] + [e] == es;
      WorkerStep(s, e, w);
      KnownStays(known, es);
      if w < |s.workers| {
        AnswersAreTheHandlers(known, es[..n], w);
        var a, b := s.workers[w], Run(f, es).workers[w];
        if !a.pc.Running? {
          AnsweredStays(f, es[..n], e, w, a.req, a.pc.resp);
        } else if e.Return? && e.w == w {
          assert ReturnedAt(f, es, n, w, a.req, b.pc.resp);
        }
      }
    }
  }

  /** Steps of workers that are not finished do not disturb the finished ones. */
  lemma FinishedUntouched(s: State, t: State, order: seq<nat>)
    requires FinishedIn(s, order) && |s.workers| <= |t.workers|
    requires forall w :: 0 <= w < |s.workers| && (s.workers[w].pc.Finished? || t.workers[w].pc.Finished?) ==>
      t.workers[w] == s.workers[w]
    requires forall w :: |s.workers| <= w < |t.workers| ==> !t.workers[w].pc.Finished?
    ensures FinishedIn(t, order) && Responses(t, order) == Responses(s, order)
  {
  }

  lemma WriteExplains(s: State, w: nat, n: nat, order: seq<nat>)
    requires Explains(s, order) && w < |s.workers| && s.workers[w].pc.Writing?
    ensures Explains(Step(s, Write(w, n)), order)
  {
    LockStays(s, Write(w, n));
    var t := Step(s, Write(w, n));
    FinishedUntouched(s, t, order);
    var pc := s.workers[w].pc;
    var frame := EncodeResponse(pc.resp);
    var upto := t.workers[w].pc.sent;
    assert Partial(s) == frame[..pc.sent] && Partial(t) == frame[..upto];
    assert frame[..pc.sent] + frame[pc.sent..upto] == frame[..upto];
    Regroup(Frames(Responses(s, order)), frame[..pc.sent], frame[pc.sent..upto]);
  }

  lemma FinishedPlusOne(s: State, t: State, w: nat, order: seq<nat>)
    requires FinishedIn(s, order) && w < |s.workers| == |t.workers|
    requires t.workers[w].pc.Finished? && !s.workers[w].pc.Finished?
    requires forall v :: 0 <= v < |s.workers| && v != w ==> t.workers[v] == s.workers[v]
    ensures FinishedIn(t, order + [w])
    ensures Responses(t, order + [w]) == Responses(s, order) + [RespOf(t, w)]
  {
  }

  lemma ReleaseExplains(s: State, w: nat, order: seq<nat>)
    requires Explains(s, order) && w < |s.workers| && s.workers[w].pc.Writing?
    requires s.workers[w].pc.sent == |EncodeResponse(s.workers[w].pc.resp)|
    ensures Explains(Step(s, Release(w)), order + [w])
  {
    hide EncodeResponse;
    LockStays(s, Release(w));
    var t := Step(s, Release(w));
    FinishedPlusOne(s, t, w, order);
    var r := s.workers[w].pc.resp;
    FramesSnoc(Responses(s, order), r);
    assert Partial(s) == EncodeResponse(r)[..|EncodeResponse(r)|] == EncodeResponse(r) && Partial(t) == [];
    hide FinishedIn, Responses, Frames;
  }

  lemma FramesSnoc(rs: seq<Response>, r: Response)
    ensures Frames(rs + [r]) == Frames(rs) + EncodeResponse(r)
  {
    assert (rs + [r])[..|rs|] == rs;
  }

  lemma QuietExplains(s: State, e: Event, order: seq<nat>)
    requires e.Arrive? || e.Return? || e.Acquire?
    requires Explains(s, order)
    ensures Explains(Step(s, e), order)
  {
    hide EncodeResponse, Frames;
    LockStays(s, e);
    FinishedUntouched(s, Step(s, e), order);
    assert Partial(Step(s, e)) == Partial(s);
    hide FinishedIn, Responses, LockInv;
  }

  lemma StepExplains(s: State, e: Event, order: seq<nat>) returns (next: seq<nat>)
    requires !Step(s, e).failed && Explains(s, order)
    ensures Explains(Step(s, e), next)
  {
    next := order;
    match e
    case Write(w, n) => if w < |s.workers| && s.workers[w].pc.Writing? { WriteExplains(s, w, n, order); }
    case Release(w) =>
      if w < |s.workers| && s.workers[w].pc.Writing? && s.workers[w].pc.sent == |EncodeResponse(s.workers[w].pc.resp)| {
        ReleaseExplains(s, w, order);
        next := order + [w];
      }
    case Fail(_) =>
    case _ => QuietExplains(s, e, order);
  }

  lemma FailureStays(s: State, e: Event)
    requires s.failed
    ensures Step(s, e).failed
  {
  }

  lemma {:induction false} RunExplains(known: set<seq<byte>>, es: seq<Event>) returns (order: seq<nat>)
    requires !Run(Fresh(known), es).failed
    ensures Explains(Run(Fresh(known), es), order)
  {
    if es == [] {
      order := [];
    } else {
      var s := Run(Fresh(known), es[..|es| - 1]);
      if s.failed { FailureStays(s, es[|es| - 1]); }
      order := RunExplains(known, es[..|es| - 1]);
      order := StepExplains(s, es[|es| - 1], order);
    }
  }

  // ---- what the peer reads

  /** The lock is free, or its holder still has bytes to write. */
  predicate NotAllOut(s: State) {
    s.writeMu.Some? && s.writeMu.value < |s.workers| && s.workers[s.writeMu.value].pc.Writing? ==>
      s.workers[s.writeMu.value].pc.sent < |EncodeResponse(s.workers[s.writeMu.value].pc.resp)|
  }

  predicate Sendable(r: Response) {
    r.id < U32 && |r.data| < U32
  }

  predicate AllSendable(s: State) {
    forall w :: 0 <= w < |s.workers| && !s.workers[w].pc.Running? ==> Sendable(s.workers[w].pc.resp)
  }

  lemma PeerReadsOne(r: Response, tail: seq<byte>)
    requires Sendable(r)
    ensures ReadResponses(EncodeResponse(r) + tail) == [r] + ReadResponses(tail)
  {
    ResponseRoundTrip(r, tail);
    assert (EncodeResponse(r) + tail)[9 + |r.data|..] == tail;
  }

  lemma {:induction false} PeerReads(rs: seq<Response>, tail: seq<byte>)
    requires forall k :: 0 <= k < |rs| ==> Sendable(rs[k])
    ensures ReadResponses(Frames(rs) + tail) == rs + ReadResponses(tail)
  {
    if rs == [] {
      assert Frames(rs) + tail == tail;
    } else {
      var but, last := rs[..|rs| - 1], rs[|rs| - 1];
      PeerReads(but, EncodeResponse(last) + tail);
      PeerReadsOne(last, tail);
      Regroup(Frames(but), EncodeResponse(last), tail);
      Regroup(but, [last], ReadResponses(tail));
      assert rs == but + [last];
    }
  }

  /**
   Responses stay whole and unique. While writes succeed, under every interleaving, the bytes out are
   the complete frames of the finished workers, each exactly once, then the part the lock holder has
   written; each response carries its request's id and is the answer its own handler's end calls for
   (status 0 and the reply, or status 1 and the error, panic or unknown-method text). With lengths the format
   can carry, a peer reading the stream decodes exactly those responses, also mid-write.
   */
  lemma ResponsesStayWhole(known: set<seq<byte>>, es: seq<Event>) returns (order: seq<nat>)
    requires !Run(Fresh(known), es).failed
    ensures var s := Run(Fresh(known), es);
      && FinishedIn(s, order)
      && s.out == Frames(Responses(s, order)) + Partial(s)
      && (forall k :: 0 <= k < |order| ==>
            && Responses(s, order)[k].id == s.workers[order[k]].req.id
            && Answered(Fresh(known), es, order[k], s.workers[order[k]].req, Responses(s, order)[k]))
      && (AllSendable(s) && NotAllOut(s) ==> ReadResponses(s.out) == Responses(s, order))
  {
    hide EncodeResponse, Frames, Partial;
    order := RunExplains(known, es);
    var s := Run(Fresh(known), es);
    if AllSendable(s) && NotAllOut(s) { Decodes(s, order); }
    hide Run, Answered;
    forall k | 0 <= k < |order|
      ensures Responses(s, order)[k].id == s.workers[order[k]].req.id
      ensures Answered(Fresh(known), es, order[k], s.workers[order[k]].req, Responses(s, order)[k])
    {
      AnswersAreTheHandlers(known, es, order[k]);
      AnsweredId(Fresh(known), es, order[k], s.workers[order[k]].req, Responses(s, order)[k]);
    }
  }

  lemma AnsweredId(f: State, es: seq<Event>, w: nat, req: Request, resp: Response)
    requires Answered(f, es, w, req, resp)
    ensures resp.id == req.id
  {
  }

  lemma Decodes(s: State, order: seq<nat>)
    requires Explains(s, order) && NotAllOut(s) && AllSendable(s)
    ensures ReadResponses(s.out) == Responses(s, order)
  {
    var rs := Responses(s, order);
    PeerReads(rs, Partial(s));
    if s.writeMu.Some? {
      var pc := s.workers[s.writeMu.value].pc;
      CutResponseIsNone(pc.resp, pc.sent);
    }
    assert ReadResponses(Partial(s)) == [];
    assert rs + [] == rs;
  }

  lemma {:induction false} KnownStays(known: set<seq<byte>>, es: seq<Event>)
    ensures Run(Fresh(known), es).known == known
  {
    if es != [] { KnownStays(known, es[..|es| - 1]); }
  }

  /**
   Exactly one answer each: a request's goroutine that has finished stays finished with the same
   response, so no later event can make it write again.
   */
  lemma {:induction false} FinishedOnce(s: State, es: seq<Event>, w: nat)
    requires w < |s.workers| && s.workers[w].pc.Finished?
    ensures w < |Run(s, es).workers| && Run(s, es).workers[w] == s.workers[w]
  {
    if es != [] {
      FinishedOnce(s, es[..|es| - 1], w);
      FinishedStep(Run(s, es[..|es| - 1]), es[|es| - 1], w);
    }
  }

  lemma FinishedStep(s: State, e: Event, w: nat)
    requires w < |s.workers| && s.workers[w].pc.Finished?
    ensures w < |Step(s, e).workers| && Step(s, e).workers[w] == s.workers[w]
  {
  }

  // ---- composed with the read loop

  /** The requests the read loop has started goroutines for, in order. */
  function Arrivals(es: seq<Event>): seq<Request> {
    if es == [] then []
    else Arrivals(es[..|es| - 1]) + if es[|es| - 1].Arrive? then [es[|es| - 1].req] else []
  }

  lemma StepKeepsRequests(s: State, e: Event)
    ensures |Step(s, e).workers| == |s.workers| + if e.Arrive? then 1 else 0
    ensures forall w :: 0 <= w < |s.workers| ==> Step(s, e).workers[w].req == s.workers[w].req
    ensures e.Arrive? ==> Step(s, e).workers[|s.workers|].req == e.req
  {
  }

  lemma {:induction false} WorkersAreArrivals(known: set<seq<byte>>, es: seq<Event>)
    ensures var s := Run(Fresh(known), es);
      |s.workers| == |Arrivals(es)| && forall w :: 0 <= w < |s.workers| ==> s.workers[w].req == Arrivals(es)[w]
  {
    hide Step;
    if es != [] {
      WorkersAreArrivals(known, es[..|es| - 1]);
      StepKeepsRequests(Run(Fresh(known), es[..|es| - 1]), es[|es| - 1]);
    }
  }

  /**
   The server end to end, from bytes to bytes. The read loop hands out the frames of the incoming bytes in
   order, as many as it has come to (Framing.Serve). While writes succeed, under every interleaving, the
   bytes out are whole frames, one for each request that is finished and none for any other, and each
   answers the frame it belongs to under that frame's id.
   */
  lemma AnswersTheFrames(known: set<seq<byte>>, bs: seq<byte>, es: seq<Event>) returns (order: seq<nat>)
    requires Arrivals(es) <= ParseAll(bs) && !Run(Fresh(known), es).failed
    ensures var s, frames := Run(Fresh(known), es), ParseAll(bs);
      && FinishedIn(s, order) && s.out == Frames(Responses(s, order)) + Partial(s)
      && (forall k :: 0 <= k < |order| ==>
            && order[k] < |frames| && frames[order[k]].Fits()
            && Responses(s, order)[k].id == frames[order[k]].id
            && Answered(Fresh(known), es, order[k], frames[order[k]], Responses(s, order)[k]))
      && (NotAllOut(s) && (forall w :: 0 <= w < |s.workers| && !s.workers[w].pc.Running? ==>
                             |s.workers[w].pc.resp.data| < U32) ==>
            ReadResponses(s.out) == Responses(s, order))
      && (Arrivals(es) == frames && (forall w :: 0 <= w < |s.workers| ==> s.workers[w].pc.Finished?) ==>
            forall j :: 0 <= j < |frames| ==> j in order)
  {
    hide Frames, Partial, ParseAll, Answered;
    order := ResponsesStayWhole(known, es);
    WorkersAreArrivals(known, es);
    ParseSplits(bs);
    var s := Run(Fresh(known), es);
    forall w | 0 <= w < |s.workers| && !s.workers[w].pc.Running? ensures s.workers[w].pc.resp.id < U32 {
      AnswersAreTheHandlers(known, es, w);
      AnsweredId(Fresh(known), es, w, s.workers[w].req, s.workers[w].pc.resp);
      assert s.workers[w].req == ParseAll(bs)[w];
    }
    hide Run;
  }

  // ---- every answer gets out

  lemma RunThen(s: State, es: seq<Event>, e: Event)
    ensures Run(s, es + [e]) == Step(Run(s, es), e)
  {
    assert (es + [e])[..|es|] == es;
  }

  /** The lock holder needs nobody's help to finish its frame and let go. */
  lemma HolderFinishes(s: State, w: nat) returns (es: seq<Event>)
    requires LockInv(s) && s.writeMu == Some(w)
    ensures w < |s.workers| && s.workers[w].pc.Writing?
    ensures Run(s, es).workers == s.workers[w := s.workers[w].(pc := Finished(s.workers[w].pc.resp))]
    ensures Run(s, es).writeMu.None? && LockInv(Run(s, es)) && Run(s, es).failed == s.failed
  {
    assert Run(s, []) == s;
    hide Run, EncodeResponse;
    var resp := s.workers[w].pc.resp;
    var all := Write(w, |EncodeResponse(resp)|);
    RunThen(s, [], all);
    var t := Step(s, all);
    WritesAll(s, w);
    LockStays(s, all);
    RunThen(s, [] + [all], Release(w));
    Releases(t, w);
    LockStays(t, Release(w));
    var done := s.workers[w].(pc := Finished(resp));
    assert t.workers[w := done] == s.workers[w := done];
    es := [] + [all] + [Release(w)];
    hide Step, LockInv;
  }

  lemma WritesAll(s: State, w: nat)
    requires LockInv(s) && s.writeMu == Some(w)
    ensures var resp := s.workers[w].pc.resp;
      var t := Step(s, Write(w, |EncodeResponse(resp)|));
      && t.workers == s.workers[w := s.workers[w].(pc := Writing(resp, |EncodeResponse(resp)|))]
      && t.writeMu == s.writeMu && t.failed == s.failed
  {
    hide EncodeResponse;
  }

  lemma Releases(s: State, w: nat)
    requires w < |s.workers| && s.workers[w].pc.Writing?
    requires s.workers[w].pc.sent == |EncodeResponse(s.workers[w].pc.resp)|
    ensures var t := Step(s, Release(w));
      && t.workers == s.workers[w := s.workers[w].(pc := Finished(s.workers[w].pc.resp))]
      && t.writeMu.None? && t.failed == s.failed
  {
    hide EncodeResponse;
  }

  lemma {:induction false} LockAlways(known: set<seq<byte>>, es: seq<Event>)
    ensures LockInv(Run(Fresh(known), es))
  {
    hide Step;
    if es != [] {
      LockAlways(known, es[..|es| - 1]);
      LockStays(Run(Fresh(known), es[..|es| - 1]), es[|es| - 1]);
    }
  }

  lemma RunAppend(s: State, a: seq<Event>, b: seq<Event>)
    ensures Run(s, a + b) == Run(Run(s, a), b)
  {
    if b == [] {
      assert a + b == a;
    } else {
      assert (a + b)[..|a + b| - 1] == a + b[..|b| - 1];
      RunAppend(s, a, b[..|b| - 1]);
    }
  }

  /** From every reachable state, failed writes included, a worker that has its answer can get it out. */
  lemma AnswersGetOut(known: set<seq<byte>>, es: seq<Event>, w: nat) returns (rest: seq<Event>)
    requires var s := Run(Fresh(known), es); w < |s.workers| && s.workers[w].pc.Answering?
    ensures var s, t := Run(Fresh(known), es), Run(Fresh(known), es + rest);
      w < |t.workers| && t.workers[w].pc == Finished(s.workers[w].pc.resp) && t.failed == s.failed
  {
    LockAlways(known, es);
    var s := Run(Fresh(known), es);
    hide EncodeResponse;
    rest := [];
    if s.writeMu.Some? {
      assert s.writeMu.value != w;
      rest := HolderFinishes(s, s.writeMu.value);
    }
    var t := Run(s, rest);
    assert t.workers[w] == s.workers[w] && t.writeMu.None? && LockInv(t) && t.failed == s.failed;
    LockStays(t, Acquire(w));
    RunThen(s, rest, Acquire(w));
    var u := Run(s, rest + [Acquire(w)]);
    assert u.writeMu == Some(w) && u.workers[w].pc == Writing(s.workers[w].pc.resp, 0);
    var more := HolderFinishes(u, w);
    RunAppend(s, rest + [Acquire(w)], more);
    rest := rest + [Acquire(w)] + more;
    RunAppend(Fresh(known), es, rest);
  }
}

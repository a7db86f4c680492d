/**
 The two wait-for-change loops: tunnelHandshake.await (internal/probe/probe.go) and awaitVPNStatus
 with its fan-out collectVPNStatus (internal/rpc/vpnstatus.go). Both subscribe first, snapshot
 second, and block only if the snapshot has not settled.

 An endpoint is the history of its statuses; the channel handed out at version v is closed exactly
 when a later version exists.
 */
module WaitLoop {
  import opened Common

  datatype VpnState = Connected | Error | AuthPending | Other(name: string)

  /** `up` is "connected and tunnel info present"; `challenge` says an authentication challenge is pending. */
  datatype Status = Status(tag: string, state: VpnState, up: bool, challenge: bool, error: string)

  /** Which of the two loops is running. */
  datatype Kind = Handshake | VpnStatus

  /** The statuses at which a loop stops of its own accord. */
  predicate Settled(kind: Kind, s: Status) {
    match kind
    case Handshake => s.state.Connected? || s.state.Error? || s.state.AuthPending?
    case VpnStatus => s.up || s.state.Error? || s.challenge
  }

  datatype Reason = AtOnce | OnSettled | OnTimeout | OnCancel

  datatype Waiter =
    | Unresolved                              // collectVPNStatus could not resolve the tag
    | Peeking(ep: nat)                        // timeout <= 0: a single snapshot
    | Subscribing(ep: nat)                    // next: updated()
    | Subscribed(ep: nat, chan: nat)          // next: snapshot()
    | Blocked(ep: nat, chan: nat, status: Status)
    | Returned(ep: nat, status: Status, reason: Reason)

  datatype State = State(
    kind: Kind, tags: seq<string>, resolve: map<string, nat>,
    refusals: map<string, string>,   // why a tag did not resolve
    timeout: int,
    eps: seq<seq<Status>>,           // every endpoint's history, current status last
    waiters: seq<Waiter>,            // one per tag the loop has reached, in tag order
    out: seq<Option<Status>>,
    expired: set<nat>, cancelled: bool)

  datatype Ready = Update | Timer | Context

  datatype Event =
    | Start                          // collect's loop takes its next tag
    | Move(w: nat, pick: Ready)      // waiter w moves; pick is the select case it takes when blocked
    | Change(ep: nat, status: Status)
    | Expire(w: nat)                 // waiter w's deadline timer fires
    | Cancel

  /** Every tag resolves to an endpoint that has a first status, and every endpoint reports under its own tag. */
  ghost predicate WellFormed(s: State) {
    && (forall t :: t in s.resolve ==> s.resolve[t] < |s.eps|)
    && (forall e :: 0 <= e < |s.eps| ==> s.eps[e] != [])
    && (forall t, v :: t in s.resolve && s.resolve[t] < |s.eps| && 0 <= v < |s.eps[s.resolve[t]]| ==>
          s.eps[s.resolve[t]][v].tag == t)
  }

  ghost predicate Initial(s: State) {
    && WellFormed(s) && s.waiters == [] && s.expired == {} && !s.cancelled
    && s.out == seq(|s.tags|, i => None)
  }

  function Current(s: State, ep: nat): Status
    requires ep < |s.eps| && s.eps[ep] != []
  {
    s.eps[ep][|s.eps[ep]| - 1]
  }

  predicate ChanClosed(s: State, ep: nat, chan: nat)
    requires ep < |s.eps|
  {
    chan + 1 < |s.eps[ep]|
  }

  /** The select case is ready. Only awaitVPNStatus has a timer. */
  predicate IsReady(s: State, w: nat, pick: Ready)
    requires w < |s.waiters| && s.waiters[w].Blocked? && s.waiters[w].ep < |s.eps|
  {
    match pick
    case Update => ChanClosed(s, s.waiters[w].ep, s.waiters[w].chan)
    case Timer => s.kind.VpnStatus? && w in s.expired
    case Context => s.cancelled
  }

  function Give(s: State, w: nat, status: Status, reason: Reason): State
    requires w < |s.waiters| && w < |s.out| && !s.waiters[w].Unresolved?
  {
    s.(waiters := s.waiters[w := Returned(s.waiters[w].ep, status, reason)], out := s.out[w := Some(status)])
  }

  function MoveNext(s: State, w: nat, pick: Ready): State
    requires w < |s.waiters| && w < |s.out|
    requires !s.waiters[w].Unresolved? ==> s.waiters[w].ep < |s.eps| && s.eps[s.waiters[w].ep] != []
  {
    match s.waiters[w]
    case Peeking(ep) => Give(s, w, Current(s, ep), AtOnce)
    case Subscribing(ep) => s.(waiters := s.waiters[w := Subscribed(ep, |s.eps[ep]| - 1)])
    case Subscribed(ep, chan) =>
      var status := Current(s, ep);
      if Settled(s.kind, status) then Give(s, w, status, OnSettled)
      else s.(waiters := s.waiters[w := Blocked(ep, chan, status)])
    case Blocked(ep, chan, status) =>
      if !IsReady(s, w, pick) then s
      else (match pick
        case Update => s.(waiters := s.waiters[w := Subscribing(ep)])
        case Timer => Give(s, w, status, OnTimeout)
        case Context => Give(s, w, status, OnCancel))
    case _ => s
  }

  /** collectVPNStatus's loop body: an unresolvable tag is answered on the spot, any other gets a goroutine. */
  function StartNext(s: State): State {
    var i := |s.waiters|;
    if i >= |s.tags| || i >= |s.out| then s
    else if s.tags[i] !in s.resolve then
      s.(waiters := s.waiters + [Unresolved],
         out := s.out[i := Some(Refusal(s, s.tags[i]))])
    else
      var ep := s.resolve[s.tags[i]];
      s.(waiters := s.waiters + [if s.kind.VpnStatus? && s.timeout <= 0 then Peeking(ep) else Subscribing(ep)])
  }

  function ChangeNext(s: State, ep: nat, status: Status): State {
    if ep < |s.eps| && s.eps[ep] != [] && status.tag == s.eps[ep][0].tag then
      s.(eps := s.eps[ep := s.eps[ep] + [status]])
    else s
  }

  /** collectVPNStatus's answer for a tag that did not resolve. */
  function Refusal(s: State, tag: string): Status {
    Status(tag, Other(""), false, false, if tag in s.refusals then s.refusals[tag] else "")
  }

  ghost predicate Sane(s: State, w: nat)
    requires w < |s.waiters|
  {
    !s.waiters[w].Unresolved? ==> s.waiters[w].ep < |s.eps| && s.eps[s.waiters[w].ep] != []
  }

  ghost function Step(s: State, e: Event): State {
    match e
    case Start => StartNext(s)
    case Move(w, pick) => if w < |s.waiters| && w < |s.out| && Sane(s, w) then MoveNext(s, w, pick) else s
    case Change(ep, status) => ChangeNext(s, ep, status)
    case Expire(w) => s.(expired := s.expired + {w})
    case Cancel => s.(cancelled := true)
  }

  ghost function Run(s: State, es: seq<Event>): State {
    if es == [] then s else Step(Run(s, es[..|es| - 1]), es[|es| - 1])
  }

  // ---- the invariant

  /** The status was the endpoint's at some version no older than the subscription. */
  ghost predicate SeenSince(history: seq<Status>, chan: nat, status: Status) {
    exists v :: chan <= v < |history| && history[v] == status
  }

  ghost predicate WaiterInv(s: State, w: nat)
    requires w < |s.waiters| && w < |s.tags| && |s.out| == |s.tags|
  {
    match s.waiters[w]
    case Unresolved =>
      && s.tags[w] !in s.resolve
      && s.out[w] == Some(Refusal(s, s.tags[w]))
    case Peeking(ep) => Bound(s, w, ep) && s.kind.VpnStatus? && s.timeout <= 0
    case Subscribing(ep) => Bound(s, w, ep) && Looping(s)
    case Subscribed(ep, chan) => Bound(s, w, ep) && chan < |s.eps[ep]| && Looping(s)
    case Blocked(ep, chan, status) =>
      && Bound(s, w, ep) && Looping(s)
      && chan < |s.eps[ep]| && SeenSince(s.eps[ep], chan, status) && !Settled(s.kind, status)
    case Returned(ep, status, reason) =>
      && Bound(s, w, ep) && SeenSince(s.eps[ep], 0, status) && s.out[w] == Some(status)
      && (match reason
          case AtOnce => s.kind.VpnStatus? && s.timeout <= 0
          case OnSettled => Settled(s.kind, status) && Looping(s)
          case OnTimeout => s.kind.VpnStatus? && w in s.expired && !Settled(s.kind, status) && Looping(s)
          case OnCancel => s.cancelled && !Settled(s.kind, status) && Looping(s))
  }

  ghost predicate Bound(s: State, w: nat, ep: nat)
    requires w < |s.tags|
  {
    s.tags[w] in s.resolve && ep == s.resolve[s.tags[w]] && ep < |s.eps|
  }

  ghost predicate Looping(s: State) {
    s.kind.Handshake? || s.timeout > 0
  }

  ghost predicate Inv(s: State) {
    && WellFormed(s) && |s.waiters| <= |s.tags| && |s.out| == |s.tags|
    && (forall w :: 0 <= w < |s.waiters| ==> WaiterInv(s, w))
    && (forall w :: 0 <= w < |s.waiters| && !s.waiters[w].Unresolved? && !s.waiters[w].Returned? ==> s.out[w].None?)
    && (forall w :: |s.waiters| <= w < |s.out| ==> s.out[w].None?)
  }

  /** A move of waiter w touches only its own program counter and its own answer. */
  lemma MoveFrame(s: State, w: nat, pick: Ready)
    requires Inv(s) && w < |s.waiters| && Sane(s, w)
    ensures var t := MoveNext(s, w, pick);
      && t == s.(waiters := t.waiters, out := t.out) && |t.waiters| == |s.waiters| && |t.out| == |s.out|
      && (forall u :: 0 <= u < |s.waiters| && u != w ==> t.waiters[u] == s.waiters[u])
      && (forall u :: 0 <= u < |s.out| && u != w ==> t.out[u] == s.out[u])
  {
  }

  lemma MovedWaiter(s: State, w: nat, pick: Ready)
    requires Inv(s) && w < |s.waiters| && Sane(s, w)
    ensures WaiterInv(MoveNext(s, w, pick), w)
    ensures var t := MoveNext(s, w, pick);
      !t.waiters[w].Unresolved? && !t.waiters[w].Returned? ==> t.out[w].None?
  {
    assert WaiterInv(s, w);
    if !s.waiters[w].Unresolved? {
      var ep := s.waiters[w].ep;
      assert s.eps[ep][|s.eps[ep]| - 1] == Current(s, ep);
    }
  }

  lemma MoveKeepsInv(s: State, w: nat, pick: Ready)
    requires Inv(s) && w < |s.waiters| && Sane(s, w)
    ensures Inv(MoveNext(s, w, pick))
  {
    var t := MoveNext(s, w, pick);
    MoveFrame(s, w, pick);
    MovedWaiter(s, w, pick);
    forall u | 0 <= u < |t.waiters| ensures WaiterInv(t, u) {
      assert WaiterInv(s, u);
      if u != w { assert t.waiters[u] == s.waiters[u] && t.out[u] == s.out[u]; }
    }
  }

  lemma ChangeKeepsInv(s: State, ep: nat, status: Status)
    requires Inv(s)
    ensures Inv(ChangeNext(s, ep, status))
  {
    var t := ChangeNext(s, ep, status);
    if t != s {
      forall u | 0 <= u < |t.waiters| ensures WaiterInv(t, u) {
        assert WaiterInv(s, u);
        if s.waiters[u].Blocked? || s.waiters[u].Returned? {
          var past := s.eps[s.waiters[u].ep];
          var from := if s.waiters[u].Blocked? then s.waiters[u].chan else 0;
          var v :| from <= v < |past| && past[v] == s.waiters[u].status;
          assert t.eps[s.waiters[u].ep][v] == s.waiters[u].status;
        }
      }
    }
  }

  /** What starting the next tag leaves alone. */
  lemma StartFrame(s: State)
    requires Inv(s)
    ensures var t := StartNext(s);
      && t == s.(waiters := t.waiters, out := t.out) && |t.out| == |s.out|
      && |s.waiters| <= |t.waiters| <= |s.waiters| + 1
      && |t.waiters| <= |s.tags|
      && (forall u :: 0 <= u < |s.waiters| ==> t.waiters[u] == s.waiters[u] && t.out[u] == s.out[u])
      && (forall u :: |t.waiters| <= u < |t.out| ==> t.out[u] == s.out[u])
  {
  }

  lemma StartedWaiter(s: State)
    requires Inv(s)
    ensures var t, i := StartNext(s), |s.waiters|;
      i < |t.waiters| ==>
        && i < |t.tags| && |t.out| == |t.tags| && WaiterInv(t, i)
        && (!t.waiters[i].Unresolved? ==> !t.waiters[i].Returned? && t.out[i].None?)
  {
  }

  lemma StartKeepsInv(s: State)
    requires Inv(s)
    ensures Inv(StartNext(s))
  {
    var t := StartNext(s);
    StartFrame(s);
    StartedWaiter(s);
    forall u | 0 <= u < |t.waiters| ensures WaiterInv(t, u) {
      if u < |s.waiters| { assert WaiterInv(s, u); }
    }
    hide StartNext;
  }

  lemma StepKeepsInv(s: State, e: Event)
    requires Inv(s)
    ensures Inv(Step(s, e))
  {
    match e
    case Start => StartKeepsInv(s);
    case Move(w, pick) => if w < |s.waiters| && Sane(s, w) { MoveKeepsInv(s, w, pick); }
    case Change(ep, status) => ChangeKeepsInv(s, ep, status);
    case _ =>
      forall u | 0 <= u < |s.waiters| ensures WaiterInv(Step(s, e), u) { assert WaiterInv(s, u); }
  }

  ghost predicate SameRequest(s: State, t: State) {
    t.kind == s.kind && t.timeout == s.timeout && t.tags == s.tags && t.resolve == s.resolve && t.refusals == s.refusals
  }

  lemma StepKeepsRequest(s: State, e: Event)
    ensures SameRequest(s, Step(s, e))
  {
  }

  lemma InitialInv(s: State)
    requires Initial(s)
    ensures Inv(s)
  {
  }

  lemma {:induction false} InvAlways(s: State, es: seq<Event>)
    requires Initial(s)
    ensures Inv(Run(s, es)) && SameRequest(s, Run(s, es))
  {
    hide Step, Inv;
    if es == [] {
      InitialInv(s);
    } else {
      InvAlways(s, es[..|es| - 1]);
      StepKeepsInv(Run(s, es[..|es| - 1]), es[|es| - 1]);
      StepKeepsRequest(Run(s, es[..|es| - 1]), es[|es| - 1]);
    }
  }

  lemma BlockedCanWake(s: State, w: nat)
    requires Inv(s) && w < |s.waiters| && s.waiters[w].Blocked?
    ensures var b := s.waiters[w];
      && b.ep < |s.eps| && s.eps[b.ep] != []
      && (IsReady(s, w, Update) || (Current(s, b.ep) == b.status && !Settled(s.kind, b.status)))
  {
    assert WaiterInv(s, w);
  }

  /**
   No wake-up is lost: whenever a loop is blocked, either the endpoint has changed since it subscribed and
   it can wake, or the endpoint's current status is the very snapshot it holds; and that snapshot is none
   that calls for an answer.
   */
  lemma NoLostWakeUp(s: State, es: seq<Event>, w: nat)
    requires Initial(s)
    requires var t := Run(s, es); w < |t.waiters| && t.waiters[w].Blocked?
    ensures var t := Run(s, es);
      var b := t.waiters[w];
      && b.ep < |t.eps| && t.eps[b.ep] != []
      && (if b.chan + 1 < |t.eps[b.ep]| then IsReady(t, w, Update) else Current(t, b.ep) == b.status)
      && if s.kind.VpnStatus? then !b.status.up && !b.status.state.Error? && !b.status.challenge
         else !b.status.state.Connected? && !b.status.state.Error? && !b.status.state.AuthPending?
  {
    InvAlways(s, es);
    BlockedCanWake(Run(s, es), w);
    BlocksOnlyUndecided(s, es, w);
    hide Run;
  }

  lemma ThreeMoves(s: State, w: nat)
    requires w < |s.waiters| && w < |s.out| && s.waiters[w].Blocked?
    requires s.waiters[w].ep < |s.eps| && s.eps[s.waiters[w].ep] != [] && IsReady(s, w, Update)
    requires Settled(s.kind, Current(s, s.waiters[w].ep))
    ensures var m := Move(w, Update);
      var ep := s.waiters[w].ep;
      Step(Step(Step(s, m), m), m) == Give(s, w, Current(s, ep), OnSettled)
  {
    var m, ep := Move(w, Update), s.waiters[w].ep;
    var a := s.(waiters := s.waiters[w := Subscribing(ep)]);
    assert Step(s, m) == a;
    var b := s.(waiters := s.waiters[w := Subscribed(ep, |s.eps[ep]| - 1)]);
    assert Step(a, m) == b;
  }

  /** So once the endpoint has settled, three moves of its own take any loop still waiting to that status. */
  lemma SettledEndpointReleases(s: State, es: seq<Event>, w: nat)
    requires Initial(s)
    requires var t := Run(s, es);
      && w < |t.waiters| && t.waiters[w].Blocked? && t.waiters[w].ep < |t.eps| && t.eps[t.waiters[w].ep] != []
      && var st := Current(t, t.waiters[w].ep);
         if s.kind.VpnStatus? then st.up || st.state.Error? || st.challenge
         else st.state.Connected? || st.state.Error? || st.state.AuthPending?
    ensures var t := Run(s, es);
      var m := Move(w, Update);
      && w < |t.out|
      && Step(Step(Step(t, m), m), m) == Give(t, w, Current(t, t.waiters[w].ep), OnSettled)
  {
    InvAlways(s, es);
    BlockedCanWake(Run(s, es), w);
    ThreeMoves(Run(s, es), w);
  }

  /** A change of the endpoint wakes every loop blocked on it, and is what the endpoint then shows. */
  lemma ChangeWakes(s: State, es: seq<Event>, w: nat, status: Status)
    requires Initial(s)
    requires var t := Run(s, es);
      && w < |t.waiters| && t.waiters[w].Blocked? && t.waiters[w].ep < |t.eps| && t.eps[t.waiters[w].ep] != []
      && status.tag == t.eps[t.waiters[w].ep][0].tag
    ensures var ep := Run(s, es).waiters[w].ep;
      var u := Step(Run(s, es), Change(ep, status));
      && ep < |u.eps| && u.eps[ep] != [] && w < |u.waiters| && u.waiters[w] == Run(s, es).waiters[w]
      && Current(u, ep) == status && IsReady(u, w, Update)
  {
    InvAlways(s, es);
    assert WaiterInv(Run(s, es), w);
    hide Run;
  }

  /** A blocked loop whose timer has fired, or whose context is cancelled, can return the status it holds. */
  lemma StopReleases(s: State, w: nat)
    requires w < |s.waiters| && w < |s.out| && s.waiters[w].Blocked? && Sane(s, w)
    ensures s.kind.VpnStatus? && w in s.expired ==>
      Step(s, Move(w, Timer)).waiters[w] == Returned(s.waiters[w].ep, s.waiters[w].status, OnTimeout)
    ensures s.cancelled ==>
      Step(s, Move(w, Context)).waiters[w] == Returned(s.waiters[w].ep, s.waiters[w].status, OnCancel)
  {
  }

  // ---- which statuses end a wait, by their own fields

  /** A loop never blocks on a status that calls for an answer, and with no positive timeout never blocks at all. */
  lemma BlocksOnlyUndecided(s: State, es: seq<Event>, w: nat)
    requires Initial(s)
    requires var t := Run(s, es); w < |t.waiters| && t.waiters[w].Blocked?
    ensures var st := Run(s, es).waiters[w].status;
      if s.kind.VpnStatus? then s.timeout > 0 && !st.up && !st.state.Error? && !st.challenge
      else !st.state.Connected? && !st.state.Error? && !st.state.AuthPending?
  {
    InvAlways(s, es);
    assert WaiterInv(Run(s, es), w);
  }

  /** A subscribed loop whose endpoint's current status calls for an answer gives that status with its next move. */
  lemma DecidedStatusReturns(s: State, es: seq<Event>, w: nat, pick: Ready)
    requires Initial(s)
    requires var t := Run(s, es);
      && w < |t.waiters| && t.waiters[w].Subscribed? && t.waiters[w].ep < |t.eps| && t.eps[t.waiters[w].ep] != []
      && var st := Current(t, t.waiters[w].ep);
         if s.kind.VpnStatus? then st.up || st.state.Error? || st.challenge
         else st.state.Connected? || st.state.Error? || st.state.AuthPending?
    ensures var t := Run(s, es);
      var ep := t.waiters[w].ep;
      var u := Step(t, Move(w, pick));
      && w < |u.waiters| && w < |u.out| && u.waiters[w] == Returned(ep, Current(t, ep), OnSettled)
      && u.out[w] == Some(Current(t, ep))
  {
    InvAlways(s, es);
    assert WaiterInv(Run(s, es), w);
  }

  /**
   A loop that waits (handshake, or a positive timeout) returns a status that calls for no answer if and only
   if it returned because its timer had fired or the context was cancelled.
   */
  lemma UnsettledOnlyIfStopped(s: State, es: seq<Event>, w: nat)
    requires Initial(s) && (s.kind.Handshake? || s.timeout > 0)
    requires var t := Run(s, es); w < |t.waiters| && t.waiters[w].Returned?
    ensures var t := Run(s, es);
      var r := t.waiters[w];
      var undecided :=
        if s.kind.VpnStatus? then !r.status.up && !r.status.state.Error? && !r.status.challenge
        else !r.status.state.Connected? && !r.status.state.Error? && !r.status.state.AuthPending?;
      undecided <==>
        (r.reason.OnTimeout? && t.kind.VpnStatus? && w in t.expired) || (r.reason.OnCancel? && t.cancelled)
  {
    InvAlways(s, es);
    assert WaiterInv(Run(s, es), w);
  }

  // ---- a status given is one that was current when it was read

  /** At event k waiter w read the endpoint, and found `status` current. */
  ghost predicate SnapshotAt(s: State, es: seq<Event>, k: nat, w: nat, ep: nat, status: Status)
    requires k < |es|
  {
    var t := Run(s, es[..k]);
    && es[k].Move? && es[k].w == w && w < |t.waiters| && ep < |t.eps| && t.eps[ep] != []
    && (t.waiters[w] == Peeking(ep) || (t.waiters[w].Subscribed? && t.waiters[w].ep == ep))
    && status == Current(t, ep)
  }

  ghost predicate Snapshot(s: State, es: seq<Event>, w: nat, ep: nat, status: Status) {
    exists k :: 0 <= k < |es| && SnapshotAt(s, es, k, w, ep, status)
  }

  ghost predicate HoldsSnapshot(s: State, es: seq<Event>, w: nat, x: Waiter) {
    (x.Blocked? || x.Returned? ==> Snapshot(s, es, w, x.ep, x.status))
  }

  /** Events other than its own moves leave a waiter alone. */
  lemma OtherStep(s: State, e: Event, w: nat)
    requires w < |Step(s, e).waiters| && !(e.Move? && e.w == w)
    ensures var x := Step(s, e).waiters[w];
      if w < |s.waiters| then x == s.waiters[w] else !x.Blocked? && !x.Returned?
  {
    if e.Move? && e.w < |s.waiters| && e.w < |s.out| && Sane(s, e.w) { OwnStep(s, e.w, e.pick); }
  }

  /** What a waiter's own move makes of it. */
  lemma OwnStep(s: State, w: nat, pick: Ready)
    requires w < |s.waiters| && w < |s.out| && Sane(s, w)
    ensures var x, y := MoveNext(s, w, pick).waiters, s.waiters[w];
      && |x| == |s.waiters| && (forall u :: 0 <= u < |x| && u != w ==> x[u] == s.waiters[u])
      && (x[w].Blocked? || x[w].Returned? ==>
            || ((y.Blocked? || y.Returned?) && y.ep == x[w].ep && y.status == x[w].status)
            || ((y == Peeking(x[w].ep) || (y.Subscribed? && y.ep == x[w].ep)) && x[w].status == Current(s, x[w].ep)))
  {
  }

  /** A waiter's status changes only where it reads one. */
  lemma StatusStep(s: State, e: Event, w: nat)
    requires w < |Step(s, e).waiters|
    ensures var x := Step(s, e).waiters[w];
      x.Blocked? || x.Returned? ==>
        && w < |s.waiters|
        && var y := s.waiters[w];
           || ((y.Blocked? || y.Returned?) && y.ep == x.ep && y.status == x.status)
           || (&& e.Move? && e.w == w && (y == Peeking(x.ep) || (y.Subscribed? && y.ep == x.ep))
               && x.ep < |s.eps| && s.eps[x.ep] != [] && x.status == Current(s, x.ep))
  {
    if e.Move? && e.w == w {
      if w < |s.waiters| && w < |s.out| && Sane(s, w) { OwnStep(s, w, e.pick); }
      hide MoveNext;
    } else {
      OtherStep(s, e, w);
      hide Step;
    }
  }

  lemma SnapshotStays(s: State, es: seq<Event>, e: Event, w: nat, ep: nat, status: Status)
    requires Snapshot(s, es, w, ep, status)
    ensures Snapshot(s, es + [e], w, ep, status)
  {
    var k :| 0 <= k < |es| && SnapshotAt(s, es, k, w, ep, status);
    assert (es + [e])[..k] == es[..k];
    assert SnapshotAt(s, es + [e], k, w, ep, status);
  }

  /** Whatever a loop blocks on or returns was the endpoint's current status at the moment the loop read it. */
  lemma {:induction false} StatusesAreSnapshots(s: State, es: seq<Event>, w: nat)
    requires s.waiters == [] && w < |Run(s, es).waiters|
    ensures HoldsSnapshot(s, es, w, Run(s, es).waiters[w])
  {
    hide Step;
    if es != [] {
      var n := |es| - 1;
      var t, e := Run(s, es[..n]), es[n];
      assert es[..n] + [e] == es;
      StatusStep(t, e, w);
      var x := Run(s, es).waiters[w];
      if x.Blocked? || x.Returned? {
        var y := t.waiters[w];
        if (y.Blocked? || y.Returned?) && y.ep == x.ep && y.status == x.status {
          StatusesAreSnapshots(s, es[..n], w);
          SnapshotStays(s, es[..n], e, w, x.ep, x.status);
        } else {
          assert SnapshotAt(s, es, n, w, x.ep, x.status);
        }
      }
    }
  }

  /** await's error for the status and reason it returns with; None is nil. */
  function HandshakeError(status: Status, reason: Reason): Option<string> {
    if !reason.OnSettled? then Some("handshake: context done")
    else match status.state
      case Connected => None
      case Error => Some(status.error)
      case _ => Some("waiting for authentication")
  }

  /** await returns nil exactly when the status it last saw, one the endpoint really had, is connected. */
  lemma NilIffConnected(s: State, es: seq<Event>, w: nat)
    requires Initial(s) && s.kind.Handshake?
    requires var t := Run(s, es); w < |t.waiters| && t.waiters[w].Returned?
    ensures var t := Run(s, es);
      var r := t.waiters[w];
      && (HandshakeError(r.status, r.reason).None? <==> r.status.state.Connected?)
      && (r.status.state.Error? ==> HandshakeError(r.status, r.reason) == Some(r.status.error))
      && (r.status.state.AuthPending? ==> HandshakeError(r.status, r.reason) == Some("waiting for authentication"))
      && (!r.status.state.Connected? && !r.status.state.Error? && !r.status.state.AuthPending? ==> t.cancelled)
      && r.ep < |t.eps| && r.status in t.eps[r.ep]
  {
    InvAlways(s, es);
    assert WaiterInv(Run(s, es), w);
  }

  /** Every goroutine has returned, so wg.Wait does. */
  ghost predicate AllAnswered(s: State) {
    && |s.waiters| == |s.tags|
    && forall w :: 0 <= w < |s.waiters| ==> s.waiters[w].Unresolved? || s.waiters[w].Returned?
  }

  /**
   collectVPNStatus answers position by position: answer i carries tag i and is the refusal for it
   when the tag does not resolve, or else a status that endpoint really had.
   */
  lemma AnswersPositionByPosition(s: State, es: seq<Event>, i: nat)
    requires Initial(s) && AllAnswered(Run(s, es)) && i < |s.tags|
    ensures var t := Run(s, es);
      && |t.out| == |s.tags| && t.out[i].Some? && t.out[i].value.tag == s.tags[i]
      && (s.tags[i] !in s.resolve ==>
            !t.out[i].value.up && (s.tags[i] in s.refusals ==> t.out[i].value.error == s.refusals[s.tags[i]]))
      && (s.tags[i] in s.resolve ==> s.resolve[s.tags[i]] < |t.eps| && t.out[i].value in t.eps[s.resolve[s.tags[i]]])
  {
    InvAlways(s, es);
    var t := Run(s, es);
    assert WaiterInv(t, i);
    if t.waiters[i].Returned? {
      var ep, status := t.waiters[i].ep, t.waiters[i].status;
      var v :| 0 <= v < |t.eps[ep]| && t.eps[ep][v] == status;
      assert t.eps[t.resolve[s.tags[i]]][v].tag == s.tags[i];
    }
  }
}

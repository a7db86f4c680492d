/**
 startXrayFullGates (internal/rpc/xray.go) as a transition system: the first gate is started alone,
 the rest by one goroutine each behind a limiter, and any failure closes whatever had been opened.
 Gate i is the one started for config i; a StartGate that fails leaves nothing open (GateRemap).
 */
module FanOut {
  import opened Common
  import Lifecycle

  datatype Worker = Unspawned | Queued | Starting | Ended

  datatype Main =
    | Begin
    | Spawning(k: nat)                     // next: the goroutine for config k
    | Waiting                              // wg.Wait
    | Unwinding(k: nat, err: nat)          // closing gates[k..], then returns errs[err]
    | Opened(gates: seq<Option<nat>>)      // returned gates, nil
    | Gave(err: nat)                       // returned nil, errs[err]

  datatype State = State(
    n: nat, cap: nat, main: Main, workers: seq<Worker>, slots: nat,
    gates: seq<Option<nat>>, errs: seq<bool>,
    open: set<nat>, closes: seq<nat>)

  datatype Event = Go(ok: bool) | Work(i: nat, ok: bool)

  function Fresh(n: nat, cpus: int): State {
    State(n, if cpus < 1 then 1 else cpus, Begin, seq(n, i => Unspawned), 0,
          seq(n, i => None), seq(n, i => false), {}, seq(n, i => 0))
  }

  /** gates[i], errs[i] = xray.StartGate(configs[i], ...) */
  function StartOne(s: State, i: nat, ok: bool): State
    requires i < |s.gates| && i < |s.errs|
  {
    if ok then s.(gates := s.gates[i := Some(i)], open := s.open + {i}) else s.(errs := s.errs[i := true])
  }

  function CloseGate(s: State, i: nat): State
    requires i < |s.closes|
  {
    s.(open := s.open - {i}, closes := s.closes[i := s.closes[i] + 1])
  }

  /** The first config whose start failed. */
  function FirstError(errs: seq<bool>): Option<nat> {
    if errs == [] then None
    else
      var before := FirstError(errs[..|errs| - 1]);
      if before.Some? then before else if errs[|errs| - 1] then Some(|errs| - 1) else None
  }

  predicate Shaped(s: State) {
    |s.workers| == |s.gates| == |s.errs| == |s.closes| == s.n
  }

  predicate AllEnded(ws: seq<Worker>) {
    forall i :: 0 <= i < |ws| ==> ws[i].Ended?
  }

  function GoNext(s: State, ok: bool): State
    requires Shaped(s)
  {
    match s.main
    case Begin =>
      if s.n == 0 then s.(main := Opened([]))
      else
        var t := StartOne(s, 0, ok).(workers := s.workers[0 := Ended]);
        t.(main := if ok then Spawning(1) else Gave(0))
    case Spawning(k) =>
      if k < s.n then s.(main := Spawning(k + 1), workers := s.workers[k := Queued]) else s.(main := Waiting)
    case Waiting =>
      if !AllEnded(s.workers) then s
      else if FirstError(s.errs).Some? then s.(main := Unwinding(0, FirstError(s.errs).value))
      else s.(main := Opened(s.gates))
    case Unwinding(k, err) =>
      if k >= s.n then s.(main := Gave(err))
      else (if s.gates[k].Some? then CloseGate(s, k) else s).(main := Unwinding(k + 1, err))
    case _ => s
  }

  function WorkNext(s: State, i: nat, ok: bool): State
    requires Shaped(s) && i < s.n
  {
    match s.workers[i]
    case Queued => if s.slots < s.cap then s.(slots := s.slots + 1, workers := s.workers[i := Starting]) else s
    case Starting =>
      var slots := if s.slots > 0 then s.slots - 1 else 0;
      StartOne(s, i, ok).(slots := slots, workers := s.workers[i := Ended])
    case _ => s
  }

  function Step(s: State, e: Event): State {
    match e
    case Go(ok) => if Shaped(s) then GoNext(s, ok) else s
    case Work(i, ok) => if Shaped(s) && i < s.n then WorkNext(s, i, ok) else s
  }

  function Run(s: State, es: seq<Event>): State {
    if es == [] then s else Step(Run(s, es[..|es| - 1]), es[|es| - 1])
  }

  // ---- the invariant

  predicate IsStarting(w: Worker) { w.Starting? }

  function CountStarting(ws: seq<Worker>): nat { Count(IsStarting, ws) }

  /** The closing loop has passed gate i. */
  predicate Passed(s: State, i: nat) {
    (s.main.Unwinding? && i < s.main.k) || s.main.Gave?
  }

  /** Config i: an ended start left a gate or an error and not both; a gate is open until the closing loop passes it. */
  ghost predicate SlotInv(s: State, i: nat)
    requires Shaped(s) && i < s.n
  {
    && (s.gates[i].Some? ==> s.gates[i] == Some(i))
    && (s.workers[i].Ended? ==> (s.gates[i].Some? <==> !s.errs[i]))
    && (!s.workers[i].Ended? ==> s.gates[i].None? && !s.errs[i])
    && (i in s.open <==> s.gates[i].Some? && !Passed(s, i))
    && s.closes[i] == if s.gates[i].Some? && Passed(s, i) then 1 else 0
  }

  ghost predicate MainInv(s: State)
    requires Shaped(s)
  {
    match s.main
    case Begin => forall i :: 0 <= i < s.n ==> s.workers[i].Unspawned?
    case Spawning(k) =>
      && 1 <= k <= s.n && s.workers[0].Ended? && (forall i :: k <= i < s.n ==> s.workers[i].Unspawned?)
      && !s.errs[0] && (forall i :: 0 <= i < k ==> !s.workers[i].Unspawned?)
    case Waiting =>
      s.n > 0 && s.workers[0].Ended? && !s.errs[0] && forall i :: 0 <= i < s.n ==> !s.workers[i].Unspawned?
    case Unwinding(k, err) => AllEnded(s.workers) && k <= s.n && FirstError(s.errs) == Some(err) && err > 0
    case Opened(gates) => AllEnded(s.workers) && gates == s.gates && FirstError(s.errs).None?
    case Gave(err) =>
      && FirstError(s.errs) == Some(err)
      && if err > 0 then AllEnded(s.workers)
         else s.n > 0 && s.workers[0].Ended? && forall i :: 1 <= i < s.n ==> s.workers[i].Unspawned?
  }

  ghost predicate Inv(s: State) {
    && Shaped(s) && MainInv(s)
    && (forall i :: 0 <= i < s.n ==> SlotInv(s, i))
    && (forall i :: i in s.open ==> i < s.n)
    && s.slots == CountStarting(s.workers) <= s.cap && s.cap > 0
  }

  lemma {:induction false} FirstErrorIs(errs: seq<bool>)
    ensures FirstError(errs).None? <==> forall i :: 0 <= i < |errs| ==> !errs[i]
    ensures FirstError(errs).Some? ==>
      var e := FirstError(errs).value; e < |errs| && errs[e] && forall i :: 0 <= i < e ==> !errs[i]
  {
    if errs != [] { FirstErrorIs(errs[..|errs| - 1]); }
  }

  lemma BeginKeeps(s: State, ok: bool)
    requires Inv(s) && s.main.Begin?
    ensures Inv(GoNext(s, ok))
  {
    var t := GoNext(s, ok);
    if s.n == 0 {
      assert s.gates == [] && s.errs == [];
    } else {
      CountAfter(IsStarting, s.workers, 0, Ended);
      forall i | 0 <= i < s.n ensures SlotInv(t, i) { assert SlotInv(s, i); }
      FirstErrorIs(t.errs);
      assert SlotInv(s, 0) && t.errs[0] == !ok;
    }
  }

  lemma GoKeepsSlots(s: State, ok: bool)
    requires Inv(s) && !s.main.Begin?
    ensures var t := GoNext(s, ok);
      && Shaped(t) && t.n == s.n && (forall i :: 0 <= i < s.n ==> SlotInv(t, i))
      && (forall i :: i in t.open ==> i < s.n)
  {
    hide Count;
    var t := GoNext(s, ok);
    forall i | 0 <= i < s.n ensures SlotInv(t, i) { assert SlotInv(s, i); }
  }

  lemma GoKeepsMain(s: State, ok: bool)
    requires Inv(s) && !s.main.Begin?
    ensures var t := GoNext(s, ok);
      Shaped(t) && MainInv(t) && t.slots == CountStarting(t.workers) <= t.cap && t.cap > 0
  {
    if s.main.Spawning? && s.main.k < s.n { CountAfter(IsStarting, s.workers, s.main.k, Queued); }
    if s.main.Waiting? { FirstErrorIs(s.errs); }
    hide Count, SlotInv;
  }

  lemma GoKeeps(s: State, ok: bool)
    requires Inv(s) && !s.main.Begin?
    ensures Inv(GoNext(s, ok))
  {
    hide SlotInv, GoNext, MainInv, Count;
    GoKeepsSlots(s, ok);
    GoKeepsMain(s, ok);
  }

  lemma WorkKeeps(s: State, i: nat, ok: bool)
    requires Inv(s) && i < s.n
    ensures Inv(WorkNext(s, i, ok))
  {
    var t := WorkNext(s, i, ok);
    CountAfter(IsStarting, s.workers, i, t.workers[i]);
    assert SlotInv(s, i);
    if t != s {
      assert s.workers[i].Queued? || s.workers[i].Starting?;
      assert s.main.Spawning? || s.main.Waiting?;
      forall j | 0 <= j < s.n ensures SlotInv(t, j) { assert SlotInv(s, j); }
    }
  }

  lemma StepKeeps(s: State, e: Event)
    requires Inv(s)
    ensures Inv(Step(s, e))
  {
    match e
    case Go(ok) =>
      if s.main.Begin? { BeginKeeps(s, ok); } else { GoKeeps(s, ok); }
      hide GoNext, MainInv, SlotInv;
    case Work(i, ok) =>
      if i < s.n { WorkKeeps(s, i, ok); }
      hide WorkNext, MainInv, SlotInv;
  }

  lemma StepKeepsSize(s: State, e: Event)
    ensures Step(s, e).n == s.n && Step(s, e).cap == s.cap
  {
  }

  lemma {:induction false} InvAlways(n: nat, cpus: int, es: seq<Event>)
    ensures var s := Run(Fresh(n, cpus), es); Inv(s) && s.n == n && s.cap == if cpus < 1 then 1 else cpus
  {
    hide Step, Inv;
    if es == [] {
      FreshInv(n, cpus);
    } else {
      InvAlways(n, cpus, es[..|es| - 1]);
      StepKeeps(Run(Fresh(n, cpus), es[..|es| - 1]), es[|es| - 1]);
      StepKeepsSize(Run(Fresh(n, cpus), es[..|es| - 1]), es[|es| - 1]);
    }
  }

  lemma FreshInv(n: nat, cpus: int)
    ensures Inv(Fresh(n, cpus))
  {
    CountBounds(IsStarting, Fresh(n, cpus).workers);
  }

  /**
   All or nothing, for any number of configs, failures and schedules: at most `workers` starts run at
   once behind the limiter; when it returns gates, every config's gate is open, in config order, and
   none was ever closed; when it returns an error, it is that of the first failed config, nothing is
   open, and every gate that had been opened was closed exactly once.
   */
  lemma AllGatesOrNone(n: nat, cpus: int, es: seq<Event>)
    ensures var s := Run(Fresh(n, cpus), es);
      && Shaped(s) && s.n == n && CountStarting(s.workers) <= (if cpus < 1 then 1 else cpus)
      && (s.main.Opened? ==>
            && |s.main.gates| == n
            && (forall i :: 0 <= i < n ==> s.main.gates[i] == Some(i) && i in s.open && s.closes[i] == 0))
      && (s.main.Gave? ==>
            && s.open == {} && s.main.err < n && s.errs[s.main.err] && (forall i :: 0 <= i < s.main.err ==> !s.errs[i])
            && forall i :: 0 <= i < n ==> s.closes[i] == if s.gates[i].Some? then 1 else 0)
  {
    InvAlways(n, cpus, es);
    Returned(Run(Fresh(n, cpus), es));
  }

  lemma Returned(s: State)
    requires Inv(s)
    ensures s.main.Opened? ==> |s.main.gates| == s.n
    ensures s.main.Opened? ==>
      forall i :: 0 <= i < s.n ==> s.main.gates[i] == Some(i) && i in s.open && s.closes[i] == 0
    ensures s.main.Gave? ==> s.open == {} && s.main.err < s.n && s.errs[s.main.err]
    ensures s.main.Gave? ==> forall i :: 0 <= i < s.main.err ==> !s.errs[i]
    ensures s.main.Gave? ==> forall i :: 0 <= i < s.n ==> s.closes[i] == if s.gates[i].Some? then 1 else 0
  {
    FirstErrorIs(s.errs);
    forall i | 0 <= i < s.n
      ensures s.main.Opened? ==> s.main.gates[i] == Some(i) && i in s.open && s.closes[i] == 0
      ensures s.main.Gave? ==> i !in s.open && s.closes[i] == if s.gates[i].Some? then 1 else 0
    {
      assert SlotInv(s, i);
    }
  }

  // ---- the result follows the configs' own outcomes

  /** If the event is the end of a StartGate, it goes as that config's start goes. */
  predicate Follows(s: State, e: Event, up: seq<bool>) {
    match e
    case Go(ok) => s.main.Begin? && 0 < |up| ==> ok == up[0]
    case Work(i, ok) => i < |s.workers| && i < |up| && s.workers[i].Starting? ==> ok == up[i]
  }

  predicate FollowsRun(f: State, es: seq<Event>, up: seq<bool>) {
    es == [] || (FollowsRun(f, es[..|es| - 1], up) && Follows(Run(f, es[..|es| - 1]), es[|es| - 1], up))
  }

  ghost predicate AsStarted(s: State, up: seq<bool>) {
    |up| == |s.workers| == |s.errs| && forall i :: 0 <= i < |up| && s.workers[i].Ended? ==> s.errs[i] == !up[i]
  }

  lemma OutcomeStep(s: State, e: Event, up: seq<bool>)
    requires Inv(s) && AsStarted(s, up) && Follows(s, e, up)
    ensures AsStarted(Step(s, e), up)
  {
    if e.Work? && e.i < s.n { assert SlotInv(s, e.i); }
    if e.Go? && s.main.Begin? && s.n > 0 { assert SlotInv(s, 0); }
  }

  lemma {:induction false} OutcomesKept(n: nat, cpus: int, es: seq<Event>, up: seq<bool>)
    requires |up| == n && FollowsRun(Fresh(n, cpus), es, up)
    ensures AsStarted(Run(Fresh(n, cpus), es), up)
  {
    hide Step, Inv;
    if es != [] {
      OutcomesKept(n, cpus, es[..|es| - 1], up);
      InvAlways(n, cpus, es[..|es| - 1]);
      OutcomeStep(Run(Fresh(n, cpus), es[..|es| - 1]), es[|es| - 1], up);
    }
  }

  predicate IsOpened(g: Option<nat>) { g.Some? }

  lemma {:induction false} CountSame(gates: seq<Option<nat>>, up: seq<bool>)
    requires |gates| == |up| && forall i :: 0 <= i < |up| ==> (gates[i].Some? <==> up[i])
    ensures Count(IsOpened, gates) == Count(Lifecycle.Comes, up)
  {
    if up != [] { CountSame(gates[..|up| - 1], up[..|up| - 1]); }
  }

  /**
   On every schedule the result is the configs' own: gates are returned only if every start succeeds; the
   error returned is that of the first config whose start fails, and the gates that were opened on the way,
   none if the very first fails and otherwise every one that can start, are the ones Lifecycle counts.
   */
  lemma ResultFollowsOutcomes(n: nat, cpus: int, es: seq<Event>, up: seq<bool>)
    requires |up| == n && FollowsRun(Fresh(n, cpus), es, up)
    ensures var s := Run(Fresh(n, cpus), es);
      && (s.main.Opened? ==> Lifecycle.AllUp(up))
      && (s.main.Gave? ==>
            && s.main.err < n && !up[s.main.err] && (forall i :: 0 <= i < s.main.err ==> up[i])
            && Count(IsOpened, s.gates) == Lifecycle.OpenedGates(up))
  {
    InvAlways(n, cpus, es);
    OutcomesKept(n, cpus, es, up);
    hide Run, Fresh;
    ReturnedFollows(Run(Fresh(n, cpus), es), up);
  }

  lemma ReturnedFollows(s: State, up: seq<bool>)
    requires Inv(s) && AsStarted(s, up)
    ensures s.main.Opened? ==> Lifecycle.AllUp(up)
    ensures s.main.Gave? ==> s.main.err < s.n && !up[s.main.err] && (forall i :: 0 <= i < s.main.err ==> up[i])
    ensures s.main.Gave? ==> Count(IsOpened, s.gates) == Lifecycle.OpenedGates(up)
  {
    FirstErrorIs(s.errs);
    assert forall i :: 0 <= i < s.n ==> SlotInv(s, i);
    if s.main.Gave? {
      if s.main.err == 0 {
        forall i | 0 <= i < s.n ensures !IsOpened(s.gates[i]) { assert SlotInv(s, i); }
        CountBounds(IsOpened, s.gates);
        assert Lifecycle.OpenedGates(up) == 0;
      } else {
        forall i | 0 <= i < s.n ensures s.gates[i].Some? <==> up[i] { assert SlotInv(s, i); }
        CountSame(s.gates, up);
        assert Lifecycle.OpenedGates(up) == Count(Lifecycle.Comes, up);
      }
    }
  }

  // ---- it always returns

  function WorkerRank(w: Worker): nat {
    match w
    case Queued => 2
    case Starting => 1
    case _ => 0
  }

  function MainRank(m: Main, n: nat): int {
    match m
    case Begin => 4 * n + 4
    case Spawning(k) => 3 * (n - k) + n + 3
    case Waiting => n + 2
    case Unwinding(k, _) => n - k + 1
    case _ => 0
  }

  function Rank(s: State): int { MainRank(s.main, s.n) + Sum(WorkerRank, s.workers) }

  /** Until it has returned, the caller's goroutine or one it started can move, and each move lowers the rank. */
  lemma SomeoneCanMove(s: State) returns (e: Event)
    requires Inv(s) && !s.main.Opened? && !s.main.Gave?
    ensures Step(s, e) != s
  {
    e := Go(true);
    if s.main.Waiting? && !AllEnded(s.workers) {
      var i :| 0 <= i < s.n && !s.workers[i].Ended?;
      if s.workers[i].Queued? && s.slots == s.cap {
        CountBounds(IsStarting, s.workers);
        i :| 0 <= i < s.n && IsStarting(s.workers[i]);
      }
      e := Work(i, true);
      assert Step(s, e).workers[i] != s.workers[i];
    }
  }

  lemma WorkLowers(s: State, i: nat, ok: bool)
    requires Shaped(s) && i < s.n
    ensures var t := WorkNext(s, i, ok);
      && t.main == s.main && t.n == s.n
      && (t == s || Sum(WorkerRank, t.workers) < Sum(WorkerRank, s.workers))
  {
    SumAfter(WorkerRank, s.workers, i, WorkNext(s, i, ok).workers[i]);
    hide Sum;
  }

  lemma GoLowers(s: State, ok: bool)
    requires Shaped(s) && MainInv(s)
    ensures GoNext(s, ok) == s || 0 <= Rank(GoNext(s, ok)) < Rank(s)
  {
    if s.main.Begin? && s.n > 0 { SumAfter(WorkerRank, s.workers, 0, Ended); }
    if s.main.Spawning? && s.main.k < s.n { SumAfter(WorkerRank, s.workers, s.main.k, Queued); }
    hide Sum, SlotInv;
  }

  lemma MovesLower(s: State, e: Event)
    requires Inv(s)
    ensures Step(s, e) == s || 0 <= Rank(Step(s, e)) < Rank(s)
  {
    match e
    case Work(i, ok) =>
      if i < s.n { WorkLowers(s, i, ok); }
      hide WorkNext, Sum, SlotInv;
    case Go(ok) =>
      GoLowers(s, ok);
      hide GoNext, Rank;
  }

  /** No schedule wedges the fan-out: it has returned, or some move changes it; and every change lowers a bound. */
  lemma AlwaysReturns(n: nat, cpus: int, es: seq<Event>, any: Event) returns (e: Event)
    ensures var s := Run(Fresh(n, cpus), es);
      && (s.main.Opened? || s.main.Gave? || Step(s, e) != s)
      && (Step(s, any) == s || 0 <= Rank(Step(s, any)) < Rank(s))
  {
    InvAlways(n, cpus, es);
    var s := Run(Fresh(n, cpus), es);
    MovesLower(s, any);
    e := any;
    if !s.main.Opened? && !s.main.Gave? { e := SomeoneCanMove(s); }
  }
}

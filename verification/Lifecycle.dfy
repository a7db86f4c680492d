/**
 Start and Stop (internal/rpc/lifecycle.go) over the process-wide slots of internal/rpc/state.go: what
 is running, which slot owns it, and what is left behind. The engines are abstract resources; how each
 of their create, prepare and start calls turns out is part of the request.
 */
module Lifecycle {
  import opened Common
  import opened Resources

  /** The extraProcess slot: a Process whose Start failed stays in the slot with nothing to kill. */
  datatype ProcessSlot = Empty | NeverRan | Running(r: Resource)

  datatype Slots = Slots(
    box: Option<Resource>, eager: Option<Resource>, sidecar: Option<Resource>, full: seq<Resource>,
    process: ProcessSlot)

  /** dnsTaken: the system resolver points at the tunnel. */
  datatype State = State(slots: Slots, world: World, mark: nat, needUnsetDNS: bool, dnsTaken: bool)

  datatype ProcessAsk = NoProcess | BadArgs | BadConf | WontStart | Runs
  datatype XrayAsk = NoXray | Lazy(ok: bool) | Eager(how: Attempt)
  datatype TunAsk = NoTun | BadCidr | TunDNS(ok: bool)

  datatype Request = Request(
    process: ProcessAsk, mark: nat, xray: XrayAsk, full: seq<bool>, boxUp: bool, tun: TunAsk)

  datatype Outcome = Outcome(state: State, ok: bool)

  // ---- who owns what

  function Entry(o: Option<Resource>): seq<Resource> { if o.Some? then [o.value] else [] }

  function ProcessEntry(p: ProcessSlot): seq<Resource> { if p.Running? then [p.r] else [] }

  /** The Xray slots in the order closeXray closes them. */
  function XrayHeld(s: Slots): seq<Resource> { Entry(s.sidecar) + s.full + Entry(s.eager) }

  function Held(s: Slots): seq<Resource> { Entry(s.box) + ProcessEntry(s.process) + XrayHeld(s) }

  /** What runs without any slot owning it: nothing will ever close it. */
  function Orphans(s: State): set<Resource> { s.world.live - Elements(Held(s.slots)) }

  // ---- the specification of each stage

  const idle := State(Slots(None, None, None, [], Empty), World([], [], {}), 0, false, false)

  function XrayClosed(s: State): State {
    s.(slots := s.slots.(eager := None, sidecar := None, full := []), world := Closed(s.world, XrayHeld(s.slots)))
  }

  function ProcessStopped(s: State): State {
    s.(slots := s.slots.(process := Empty), world := Closed(s.world, ProcessEntry(s.slots.process)))
  }

  function BoxClosed(s: State): State {
    s.(slots := s.slots.(box := None), world := Closed(s.world, Entry(s.slots.box)))
  }

  /** The deferred error block. */
  function Failed(s: State): Outcome {
    Outcome(s.(slots := s.slots.(box := None), mark := 0), false)
  }

  function ProcessStage(s: State, ask: ProcessAsk): Outcome {
    match ask
    case NoProcess => Outcome(s, true)
    case WontStart => Outcome(s.(slots := s.slots.(process := NeverRan)), false)
    case Runs =>
      var child := Child(|s.world.created|);
      Outcome(s.(slots := s.slots.(process := Running(child)), world := Created(s.world, [child])), true)
    case _ => Outcome(s, false)
  }

  function XrayStage(s: State, ask: XrayAsk): Outcome {
    var n := |s.world.created|;
    match ask
    case NoXray => Outcome(s, true)
    case Lazy(ok) =>
      if !ok then Outcome(s, false)
      else
        var slots := s.slots.(eager := None, sidecar := Some(Gate(n)));
        Outcome(s.(slots := slots, world := Created(s.world, [Gate(n)])), true)
    case Eager(how) =>
      var up := Created(s.world, [Instance(n)]);
      if how.NoCreate? then Outcome(s, false)
      else if how.Up? then
        Outcome(s.(slots := s.slots.(eager := Some(Instance(n)), sidecar := None), world := up), true)
      else Outcome(s.(world := Closed(up, [Instance(n)])), false)
  }

  function Gates(n: nat, k: nat): seq<Resource> { seq(k, (i: nat) => Gate(n + i)) }

  predicate AllUp(full: seq<bool>) { forall i :: 0 <= i < |full| ==> full[i] }

  predicate Comes(up: bool) { up }

  /** How many gates startXrayFullGates opens: none after a first failure, otherwise every one that can start. */
  function OpenedGates(full: seq<bool>): nat { if full == [] || !full[0] then 0 else Count(Comes, full) }

  /** startXrayFullGates by its result (FanOut.AllGatesOrNone): all gates open, or those that opened closed again. */
  function FullStage(s: State, full: seq<bool>): Outcome {
    var gates := Gates(|s.world.created|, OpenedGates(full));
    var up := Created(s.world, gates);
    if full == [] then Outcome(s, true)
    else if AllUp(full) then Outcome(s.(slots := s.slots.(full := gates), world := up), true)
    else Outcome(XrayClosed(s.(world := Closed(up, gates))), false)
  }

  function BoxStage(s: State, up: bool): Outcome {
    var box := Box(|s.world.created|);
    if up then Outcome(s.(slots := s.slots.(box := Some(box)), world := Created(s.world, [box])), true)
    else Outcome(XrayClosed(ProcessStopped(s)), false)
  }

  function TunStage(s: State, tun: TunAsk): Outcome {
    match tun
    case NoTun => Outcome(s, true)
    case BadCidr => Outcome(XrayClosed(ProcessStopped(BoxClosed(s))), false)
    case TunDNS(ok) => Outcome(s.(needUnsetDNS := true, dnsTaken := s.dnsTaken || ok), true)
  }

  function Later(s: State, q: Request): Outcome {
    var x := XrayStage(s, q.xray);
    if !x.ok then x
    else
      var f := FullStage(x.state, q.full);
      if !f.ok then f
      else
        var b := BoxStage(f.state, q.boxUp);
        if !b.ok then b else TunStage(b.state, q.tun)
  }

  function Started(s: State, q: Request): Outcome {
    if s.slots.box.Some? then Failed(s)
    else
      var p := ProcessStage(s, q.process);
      if !p.ok then Failed(p.state)
      else
        var l := Later(p.state.(mark := q.mark), q);
        if l.ok then l else Failed(l.state)
  }

  function Stopped(s: State, unset: bool): State {
    if s.slots.box.None? then s
    else
      var t := s.(needUnsetDNS := false, dnsTaken := s.dnsTaken && !(s.needUnsetDNS && unset));
      XrayClosed(ProcessStopped(BoxClosed(t))).(mark := 0)
  }

  // ---- the process-wide variables and the two calls

  class Core {
    var boxInstance: Option<Resource>
    var xrayInstance: Option<Resource>
    var xrayGate: Option<Resource>
    var xrayFullGates: seq<Resource>
    var extraProcess: ProcessSlot
    var autoRedirectMark: nat
    var needUnsetDNS: bool
    var dnsTaken: bool
    var world: World

    ghost function View(): State
      reads this
    {
      State(Slots(boxInstance, xrayInstance, xrayGate, xrayFullGates, extraProcess), world, autoRedirectMark,
            needUnsetDNS, dnsTaken)
    }

    constructor ()
      ensures View() == idle
    {
      boxInstance, xrayInstance, xrayGate, xrayFullGates, extraProcess := None, None, None, [], Empty;
      autoRedirectMark, needUnsetDNS, dnsTaken, world := 0, false, false, World([], [], {});
    }

    method Close(r: Resource)
      modifies this`world
      ensures world == Closed(old(world), [r])
    {
      world := World(world.created, world.closed + [r], world.live - {r});
      assert Elements([r]) == {r};
    }

    method Create(r: Resource)
      modifies this`world
      ensures world == Created(old(world), [r])
    {
      world := World(world.created + [r], world.closed, world.live + {r});
      assert Elements([r]) == {r};
    }

    /** closeXray: the slots are cleared before anything is closed. */
    method CloseXray()
      modifies this
      ensures View() == XrayClosed(old(View()))
    {
      var instance, gate, fullGates := xrayInstance, xrayGate, xrayFullGates;
      xrayInstance, xrayGate, xrayFullGates := None, None, [];
      ghost var before := world;
      ClosedTwice(before, [], []);
      if gate.Some? { Close(gate.value); }
      ghost var done := Entry(gate);
      assert world == Closed(before, done);
      CloseGates(fullGates);
      ClosedTwice(before, done, fullGates);
      if instance.Some? { Close(instance.value); }
      ClosedTwice(before, done + fullGates, Entry(instance));
    }

    method CloseGates(gates: seq<Resource>)
      modifies this`world
      ensures world == Closed(old(world), gates)
    {
      ClosedTwice(world, [], []);
      for i := 0 to |gates|
        invariant world == Closed(old(world), gates[..i])
      {
        Close(gates[i]);
        ClosedTwice(old(world), gates[..i], [gates[i]]);
        assert gates[..i] + [gates[i]] == gates[..i + 1];
      }
      assert gates[..|gates|] == gates;
    }

    method StopProcess()
      modifies this
      ensures View() == ProcessStopped(old(View()))
    {
      ClosedTwice(world, [], []);
      if !extraProcess.Empty? {
        if extraProcess.Running? { Close(extraProcess.r); }
        extraProcess := Empty;
      }
    }

    /** The extra process (internal/rpc/lifecycle.go:50-77). */
    method StartProcess(ask: ProcessAsk) returns (ok: bool)
      modifies this
      ensures Outcome(View(), ok) == ProcessStage(old(View()), ask)
    {
      if ask.NoProcess? { return true; }
      if ask.BadArgs? || ask.BadConf? { return false; }
      extraProcess := NeverRan;
      if ask.WontStart? { return false; }
      var child := Child(|world.created|);
      Create(child);
      extraProcess := Running(child);
      return true;
    }

    /** The sidecar, lazy or eager (internal/rpc/lifecycle.go:85-112). */
    method StartXray(ask: XrayAsk) returns (ok: bool)
      modifies this
      ensures Outcome(View(), ok) == XrayStage(old(View()), ask)
    {
      match ask {
        case NoXray => return true;
        case Lazy(up) =>
          if !up { return false; }
          var gate := Gate(|world.created|);
          Create(gate);
          xrayInstance, xrayGate := None, Some(gate);
        case Eager(how) =>
          if how.NoCreate? { return false; }
          var instance := Instance(|world.created|);
          Create(instance);
          if how.NoPrepare? || how.NoStart? {
            Close(instance);
            return false;
          }
          xrayInstance, xrayGate := Some(instance), None;
      }
      return true;
    }

    method OpenGates(k: nat) returns (gates: seq<Resource>)
      modifies this`world
      ensures gates == Gates(|old(world).created|, k) && world == Created(old(world), gates)
    {
      gates := [];
      CreatedTwice(world, [], []);
      for i := 0 to k
        invariant gates == Gates(|old(world).created|, i) && world == Created(old(world), gates)
      {
        var gate := Gate(|world.created|);
        Create(gate);
        CreatedTwice(old(world), gates, [gate]);
        gates := gates + [gate];
      }
    }

    /** The full configs (internal/rpc/lifecycle.go:114-123). */
    method StartFullGates(full: seq<bool>) returns (ok: bool)
      modifies this
      ensures Outcome(View(), ok) == FullStage(old(View()), full)
    {
      if full == [] { return true; }
      var gates := OpenGates(OpenedGates(full));
      if !AllUp(full) {
        CloseGates(gates);
        CloseXray();
        return false;
      }
      xrayFullGates := gates;
      return true;
    }

    method Start(q: Request) returns (ok: bool)
      modifies this
      ensures Outcome(View(), ok) == Started(old(View()), q)
    {
      ok := StartUnlessRunning(q);
      if !ok { boxInstance, autoRedirectMark := None, 0; }
    }

    /** Start without its deferred block. */
    method StartUnlessRunning(q: Request) returns (ok: bool)
      modifies this
      ensures Started(old(View()), q) == if ok then Outcome(View(), true) else Failed(View())
    {
      hide XrayStage, FullStage, ProcessStage, XrayClosed, ProcessStopped, Closed;
      if boxInstance.Some? { return false; }
      ok := StartProcess(q.process);
      if !ok { return; }
      autoRedirectMark := q.mark;
      ok := StartXray(q.xray);
      if !ok { return; }
      ok := StartFullGates(q.full);
      if !ok { return; }
      if !q.boxUp {
        StopProcess();
        CloseXray();
        return false;
      }
      var box := Box(|world.created|);
      Create(box);
      boxInstance := Some(box);
      if q.tun.BadCidr? {
        Close(box);
        boxInstance := None;
        StopProcess();
        CloseXray();
        return false;
      }
      if q.tun.TunDNS? { dnsTaken, needUnsetDNS := dnsTaken || q.tun.ok, true; }
      return true;
    }

    method Stop(unset: bool)
      modifies this
      ensures View() == Stopped(old(View()), unset)
    {
      hide XrayClosed, ProcessStopped, Closed;
      if boxInstance.None? { return; }
      var box := boxInstance.value;
      if needUnsetDNS {
        needUnsetDNS := false;
        if unset { dnsTaken := false; }
      }
      boxInstance := None;
      Close(box);
      StopProcess();
      CloseXray();
      autoRedirectMark := 0;
    }
  }
}

/**
 Ownership over every sequence of Start and Stop calls: what each call adds to the resources no slot
 owns any more, and from that exactly which runs keep "live = held by a slot".
 */
module LifecycleOwnership {
  import opened Common
  import opened Resources
  import opened Lifecycle

  datatype Call = DoStart(q: Request) | DoStop(unset: bool)

  function Step(s: State, c: Call): State {
    match c
    case DoStart(q) => Started(s, q).state
    case DoStop(unset) => Stopped(s, unset)
  }

  function Run(cs: seq<Call>): State {
    if cs == [] then idle else Step(Run(cs[..|cs| - 1]), cs[|cs| - 1])
  }

  // ---- the invariant of every run

  /** Every slot holds its own kind of resource, and no resource sits in two slots. */
  ghost predicate Kinds(s: Slots) {
    && (s.box.Some? ==> s.box.value.Box?)
    && (s.eager.Some? ==> s.eager.value.Instance?)
    && (s.sidecar.Some? ==> s.sidecar.value.Gate? && s.sidecar.value !in s.full)
    && (s.process.Running? ==> s.process.r.Child?)
    && (forall i :: 0 <= i < |s.full| ==> s.full[i].Gate?)
    && Distinct(s.full)
    && !(s.eager.Some? && s.sidecar.Some?)
  }

  ghost predicate Sound(s: State) {
    Accounted(s.world) && Kinds(s.slots) && Elements(Held(s.slots)) <= s.world.live
  }

  lemma HeldParts(s: Slots)
    ensures Elements(XrayHeld(s)) == Elements(Entry(s.sidecar)) + Elements(s.full) + Elements(Entry(s.eager))
    ensures Elements(Held(s)) == Elements(Entry(s.box)) + Elements(ProcessEntry(s.process)) + Elements(XrayHeld(s))
  {
  }

  lemma XrayHeldDistinct(s: Slots)
    requires Kinds(s)
    ensures Distinct(XrayHeld(s))
  {
  }

  lemma PartsApart(s: Slots)
    requires Kinds(s)
    ensures Elements(Entry(s.box)) !! Elements(ProcessEntry(s.process))
    ensures Elements(Entry(s.box)) + Elements(ProcessEntry(s.process)) !! Elements(XrayHeld(s))
    ensures Elements(Entry(s.sidecar)) + Elements(Entry(s.eager)) !! Elements(s.full)
    ensures Distinct(Entry(s.box)) && Distinct(ProcessEntry(s.process)) && Distinct(XrayHeld(s))
  {
    HeldParts(s);
    XrayHeldDistinct(s);
  }

  // ---- what closing does: nothing stops being owned

  lemma XrayClosedKeeps(s: State)
    requires Sound(s)
    ensures var t := XrayClosed(s); Sound(t) && Orphans(t) == Orphans(s)
    ensures XrayClosed(s).slots == s.slots.(eager := None, sidecar := None, full := [])
    ensures XrayHeld(XrayClosed(s).slots) == []
  {
    var t := XrayClosed(s);
    HeldParts(s.slots);
    HeldParts(t.slots);
    PartsApart(s.slots);
    ClosedKeeps(s.world, XrayHeld(s.slots));
    hide Accounted, Elements, XrayHeld;
  }

  lemma ProcessStoppedKeeps(s: State)
    requires Sound(s)
    ensures var t := ProcessStopped(s); Sound(t) && Orphans(t) == Orphans(s)
  {
    var t := ProcessStopped(s);
    HeldParts(s.slots);
    HeldParts(t.slots);
    PartsApart(s.slots);
    ClosedKeeps(s.world, ProcessEntry(s.slots.process));
    hide Accounted, XrayHeld;
  }

  lemma BoxClosedKeeps(s: State)
    requires Sound(s)
    ensures var t := BoxClosed(s); Sound(t) && Orphans(t) == Orphans(s)
  {
    var t := BoxClosed(s);
    HeldParts(s.slots);
    HeldParts(t.slots);
    PartsApart(s.slots);
    ClosedKeeps(s.world, Entry(s.slots.box));
    hide Accounted, XrayHeld;
  }

  /** Giving up a slot without closing what it held leaves exactly that orphaned. */
  lemma Overwritten(s: State, t: State, given: set<Resource>, made: seq<Resource>)
    requires Sound(s) && Kinds(t.slots) && t.world == Created(s.world, made)
    requires forall i :: 0 <= i < |made| ==> made[i].n == |s.world.created| + i
    requires given <= Elements(Held(s.slots))
    requires Elements(Held(t.slots)) == (Elements(Held(s.slots)) - given) + Elements(made)
    ensures Sound(t) && Orphans(t) == Orphans(s) + given
  {
    CreatedKeeps(s.world, made);
    hide Accounted, Held, Elements, Kinds;
  }

  // ---- what each stage of Start stops owning

  function ProcessDropped(s: State, ask: ProcessAsk): set<Resource> {
    if ask.WontStart? || ask.Runs? then Elements(ProcessEntry(s.slots.process)) else {}
  }

  function XrayDropped(s: State, ask: XrayAsk): set<Resource> {
    if XrayUp(ask) && !ask.NoXray? then Elements(Entry(s.slots.sidecar)) + Elements(Entry(s.slots.eager)) else {}
  }

  function FullDropped(s: State, full: seq<bool>): set<Resource> {
    if AllUp(full) && full != [] then Elements(s.slots.full) else {}
  }

  predicate ProcessUp(ask: ProcessAsk) { ask.NoProcess? || ask.Runs? }

  predicate XrayUp(ask: XrayAsk) {
    match ask
    case NoXray => true
    case Lazy(ok) => ok
    case Eager(how) => how.Up?
  }

  lemma ProcessStageKeeps(s: State, ask: ProcessAsk)
    requires Sound(s)
    ensures var t := ProcessStage(s, ask);
      && Sound(t.state) && t.ok == ProcessUp(ask) && Orphans(t.state) == Orphans(s) + ProcessDropped(s, ask)
      && t.state.slots == s.slots.(process := t.state.slots.process)
  {
    hide Accounted, Elements, Held, XrayHeld, Distinct, Created;
    CreatedTwice(s.world, [], []);
    if ask.WontStart? || ask.Runs? {
      var t := ProcessStage(s, ask).state;
      HeldParts(s.slots);
      HeldParts(t.slots);
      PartsApart(s.slots);
      SameXray(s.slots, t.slots);
      var made := if ask.Runs? then [Child(|s.world.created|)] else [];
      Singleton(Child(|s.world.created|));
      Overwritten(s, t, ProcessDropped(s, ask), made);
    }
  }

  lemma SameXray(s: Slots, t: Slots)
    requires s.eager == t.eager && s.sidecar == t.sidecar && s.full == t.full
    ensures XrayHeld(s) == XrayHeld(t)
  {
  }

  lemma FreshGate(s: State, r: Resource)
    requires Sound(s) && r.n >= |s.world.created|
    ensures r !in s.slots.full && r !in s.world.live
  {
    assert s.world.live <= Elements(s.world.created);
    assert Elements(s.slots.full) <= Elements(Held(s.slots));
    assert r !in Elements(s.slots.full);
  }

  lemma XrayStageKeeps(s: State, ask: XrayAsk)
    requires Sound(s)
    ensures var t := XrayStage(s, ask);
      && Sound(t.state) && t.ok == XrayUp(ask) && Orphans(t.state) == Orphans(s) + XrayDropped(s, ask)
      && t.state.slots == s.slots.(eager := t.state.slots.eager, sidecar := t.state.slots.sidecar)
  {
    hide Accounted, Elements, Held, XrayHeld, Distinct, Created, Closed;
    if XrayUp(ask) && !ask.NoXray? {
      var t := XrayStage(s, ask).state;
      HeldParts(s.slots);
      HeldParts(t.slots);
      PartsApart(s.slots);
      var made := if ask.Lazy? then Gate(|s.world.created|) else Instance(|s.world.created|);
      FreshGate(s, made);
      Singleton(made);
      Overwritten(s, t, XrayDropped(s, ask), [made]);
    } else if ask.Eager? && !ask.how.NoCreate? {
      OpenedAndClosed(s, [Instance(|s.world.created|)]);
    }
  }

  /** Something that is created and closed again before any slot holds it. */
  lemma OpenedAndClosed(s: State, rs: seq<Resource>)
    requires Sound(s) && forall i :: 0 <= i < |rs| ==> rs[i].n == |s.world.created| + i
    ensures var t := s.(world := Closed(Created(s.world, rs), rs)); Sound(t) && Orphans(t) == Orphans(s)
  {
    CreatedKeeps(s.world, rs);
    ClosedKeeps(Created(s.world, rs), rs);
    hide Accounted, Elements, Distinct, Kinds, Held;
  }

  lemma FullStageKeeps(s: State, full: seq<bool>)
    requires Sound(s)
    ensures var t := FullStage(s, full);
      && Sound(t.state) && t.ok == AllUp(full) && Orphans(t.state) == Orphans(s) + FullDropped(s, full)
      && t.state.slots.box == s.slots.box && t.state.slots.process == s.slots.process
      && (!t.ok ==> XrayHeld(t.state.slots) == [])
      && (t.ok ==> t.state.slots == s.slots.(full := t.state.slots.full))
      && (t.ok && full != [] ==> |t.state.slots.full| == OpenedGates(full))
  {
    hide Accounted, Elements, Held, XrayHeld, Distinct, Created, Closed, XrayClosed, Count;
    var gates := Gates(|s.world.created|, OpenedGates(full));
    var t := FullStage(s, full).state;
    if full == [] {
    } else if AllUp(full) {
      HeldParts(s.slots);
      HeldParts(t.slots);
      PartsApart(s.slots);
      FreshGates(s, gates);
      Singleton(Gate(0));
      Overwritten(s, t, FullDropped(s, full), gates);
    } else {
      OpenedAndClosed(s, gates);
      XrayClosedKeeps(s.(world := Closed(Created(s.world, gates), gates)));
    }
  }

  lemma FreshGates(s: State, gates: seq<Resource>)
    requires Sound(s) && gates == Gates(|s.world.created|, |gates|)
    ensures Distinct(gates) && (s.slots.sidecar.Some? ==> s.slots.sidecar.value !in gates)
  {
    assert s.world.live <= Elements(s.world.created);
    if s.slots.sidecar.Some? && s.slots.sidecar.value in gates {
      assert s.slots.sidecar.value in Elements(Held(s.slots));
      FreshGate(s, s.slots.sidecar.value);
    }
  }

  lemma BoxStageKeeps(s: State, up: bool)
    requires Sound(s) && s.slots.box.None?
    ensures var t := BoxStage(s, up);
      && Sound(t.state) && t.ok == up && Orphans(t.state) == Orphans(s) && t.state.slots.box.Some? == up
      && (!up ==> XrayHeld(t.state.slots) == [] && t.state.slots.process.Empty?)
      && (up ==> t.state.slots == s.slots.(box := t.state.slots.box))
  {
    if up {
      var t := BoxStage(s, up).state;
      HeldParts(s.slots);
      HeldParts(t.slots);
      hide Accounted, XrayHeld, Distinct;
      Overwritten(s, t, {}, [Box(|s.world.created|)]);
    } else {
      ProcessStoppedKeeps(s);
      XrayClosedKeeps(ProcessStopped(s));
    }
  }

  lemma TunStageKeeps(s: State, tun: TunAsk)
    requires Sound(s) && s.slots.box.Some?
    ensures var t := TunStage(s, tun);
      && Sound(t.state) && t.ok == !tun.BadCidr? && Orphans(t.state) == Orphans(s) && t.state.slots.box.Some? == t.ok
      && (!t.ok ==> XrayHeld(t.state.slots) == [] && t.state.slots.process.Empty?)
      && (t.ok ==> t.state.slots == s.slots)
  {
    if tun.BadCidr? {
      BoxClosedKeeps(s);
      ProcessStoppedKeeps(BoxClosed(s));
      XrayClosedKeeps(ProcessStopped(BoxClosed(s)));
    }
  }

  // ---- whole calls

  /** Everything the call stops owning without closing it. */
  function Dropped(s: State, q: Request): set<Resource> {
    if s.slots.box.Some? then Elements(Entry(s.slots.box))
    else
      ProcessDropped(s, q.process)
        + if !ProcessUp(q.process) then {}
          else XrayDropped(s, q.xray) + if XrayUp(q.xray) then FullDropped(s, q.full) else {}
  }

  /** All of Start's steps work out. */
  predicate AllGoesWell(q: Request) {
    ProcessUp(q.process) && XrayUp(q.xray) && AllUp(q.full) && q.boxUp && !q.tun.BadCidr?
  }

  lemma LaterKeeps(s: State, q: Request)
    requires Sound(s) && s.slots.box.None?
    ensures var t := Later(s, q);
      && Sound(t.state) && t.ok == (XrayUp(q.xray) && AllUp(q.full) && q.boxUp && !q.tun.BadCidr?)
      && Orphans(t.state)
         == Orphans(s) + XrayDropped(s, q.xray) + (if XrayUp(q.xray) then FullDropped(s, q.full) else {})
      && t.state.slots.box.Some? == t.ok
  {
    hide Sound, Orphans, XrayStage, FullStage, BoxStage, TunStage;
    var x := XrayStage(s, q.xray);
    XrayStageKeeps(s, q.xray);
    if x.ok {
      var f := FullStage(x.state, q.full);
      FullStageKeeps(x.state, q.full);
      if f.ok {
        var b := BoxStage(f.state, q.boxUp);
        BoxStageKeeps(f.state, q.boxUp);
        if b.ok { TunStageKeeps(b.state, q.tun); }
      }
    }
  }

  lemma FailedKeeps(s: State)
    requires Sound(s)
    ensures var t := Failed(s).state; Sound(t) && Orphans(t) == Orphans(s) + Elements(Entry(s.slots.box))
  {
    var t := Failed(s).state;
    hide Accounted, Elements, Held, XrayHeld, Distinct;
    HeldParts(s.slots);
    HeldParts(t.slots);
    PartsApart(s.slots);
    SameXray(s.slots, t.slots);
    Singleton(Gate(0));
  }

  /** Start in any state of any run: what it stops owning, exactly, and when it reports success. */
  lemma StartKeeps(s: State, q: Request)
    requires Sound(s)
    ensures var t := Started(s, q);
      && Sound(t.state) && Orphans(t.state) == Orphans(s) + Dropped(s, q)
      && t.ok == (s.slots.box.None? && AllGoesWell(q)) && t.state.slots.box.Some? == t.ok
      && (!t.ok ==> t.state.mark == 0)
  {
    hide Sound, Orphans, Later, ProcessStage, Elements;
    Singleton(Gate(0));
    if s.slots.box.Some? {
      FailedKeeps(s);
    } else {
      var p := ProcessStage(s, q.process);
      ProcessStageKeeps(s, q.process);
      if p.ok {
        var m := p.state.(mark := q.mark);
        assert Sound(m) && Orphans(m) == Orphans(p.state) by { Marked(p.state, q.mark); }
        LaterKeeps(m, q);
        if !Later(m, q).ok { FailedKeeps(Later(m, q).state); }
      } else {
        FailedKeeps(p.state);
      }
    }
  }

  lemma Marked(s: State, mark: nat)
    requires Sound(s)
    ensures Sound(s.(mark := mark)) && Orphans(s.(mark := mark)) == Orphans(s)
  {
  }

  lemma StopKeeps(s: State, unset: bool)
    requires Sound(s)
    ensures var t := Stopped(s, unset);
      && Sound(t) && Orphans(t) == Orphans(s) && t.slots.box.None?
      && (s.slots.box.Some? ==> Held(t.slots) == [] && XrayHeld(t.slots) == [] && t.mark == 0 && !t.needUnsetDNS)
      && (s.slots.box.None? ==> t == s)
  {
    if s.slots.box.Some? {
      var t := s.(needUnsetDNS := false, dnsTaken := s.dnsTaken && !(s.needUnsetDNS && unset));
      BoxClosedKeeps(t);
      ProcessStoppedKeeps(BoxClosed(t));
      XrayClosedKeeps(ProcessStopped(BoxClosed(t)));
    }
  }

  // ---- over every run

  /** With no box up, nothing else that belongs to a profile is held, and DNS is not waiting to be restored. */
  ghost predicate Quiet(s: State) {
    s.slots.box.None? ==> XrayHeld(s.slots) == [] && !s.needUnsetDNS
  }

  /** What a caller can look at before Start: no box is published, and no running process would be replaced. */
  predicate Safe(s: State, q: Request) {
    s.slots.box.None? && !(s.slots.process.Running? && (q.process.WontStart? || q.process.Runs?))
  }

  predicate AllSafe(cs: seq<Call>) {
    cs == [] || (AllSafe(cs[..|cs| - 1]) && (cs[|cs| - 1].DoStart? ==> Safe(Run(cs[..|cs| - 1]), cs[|cs| - 1].q)))
  }

  /** After Start succeeds from a quiet state the slots hold exactly what was asked for. */
  ghost predicate AsAsked(s: Slots, q: Request) {
    && s.box.Some?
    && (s.eager.Some? <==> q.xray.Eager?) && (s.sidecar.Some? <==> q.xray.Lazy?)
    && |s.full| == |q.full|
  }

  /** A failed Start leaves an extra process behind: its own after an Xray failure, or one left by an earlier call. */
  predicate LeavesProcess(s: State, q: Request) {
    if ProcessUp(q.process) then (q.process.Runs? || s.slots.process.Running?) && !(XrayUp(q.xray) && AllUp(q.full))
    else s.slots.process.Running? && !q.process.WontStart?
  }

  lemma NothingHeld(s: Slots)
    ensures XrayHeld(s) == [] <==> s.eager.None? && s.sidecar.None? && s.full == []
  {
  }

  lemma LaterSlots(s: State, q: Request)
    requires Sound(s) && s.slots.box.None? && XrayHeld(s.slots) == []
    ensures var t := Later(s, q);
      if t.ok then
        && AsAsked(t.state.slots, q) && t.state.mark == s.mark && t.state.slots.process == s.slots.process
        && t.state.needUnsetDNS == (s.needUnsetDNS || q.tun.TunDNS?)
        && t.state.dnsTaken == (s.dnsTaken || q.tun == TunDNS(true))
      else
        && XrayHeld(t.state.slots) == [] && t.state.needUnsetDNS == s.needUnsetDNS
        && t.state.slots.process == if XrayUp(q.xray) && AllUp(q.full) then Empty else s.slots.process
  {
    hide Accounted, Elements, Held, XrayHeld, Distinct, Created, Closed, Count, Orphans;
    NothingHeld(s.slots);
    var x := XrayStage(s, q.xray);
    XrayStageKeeps(s, q.xray);
    if x.ok {
      var f := FullStage(x.state, q.full);
      FullStageKeeps(x.state, q.full);
      if f.ok {
        CountBounds(Comes, q.full);
        BoxStageKeeps(f.state, q.boxUp);
        var b := BoxStage(f.state, q.boxUp);
        if b.ok { TunStageKeeps(b.state, q.tun); }
      }
    }
  }

  lemma SafeStart(s: State, q: Request)
    requires Sound(s) && Quiet(s) && Safe(s, q)
    ensures var t := Started(s, q);
      && Quiet(t.state)
      && (t.ok ==> AsAsked(t.state.slots, q) && t.state.mark == q.mark && t.state.needUnsetDNS == q.tun.TunDNS?)
      && (t.ok ==> t.state.dnsTaken == (s.dnsTaken || q.tun == TunDNS(true)))
      && (t.ok && q.process.Runs? ==> t.state.slots.process.Running?)
      && (!t.ok ==> (t.state.slots.process.Running? <==> LeavesProcess(s, q)))
  {
    hide Later, AsAsked, XrayHeld, Orphans, Sound;
    var p := ProcessStage(s, q.process);
    ProcessStageKeeps(s, q.process);
    SameXray(s.slots, p.state.slots);
    StartKeeps(s, q);
    if p.ok {
      var m := p.state.(mark := q.mark);
      Marked(p.state, q.mark);
      LaterSlots(m, q);
      var l := Later(m, q).state.slots;
      SameXray(l, l.(box := None));
    } else {
      SameXray(p.state.slots, p.state.slots.(box := None));
    }
  }

  /** In every run, whatever the order of calls. */
  lemma {:induction false} SoundAlways(cs: seq<Call>)
    ensures var s := Run(cs); Sound(s) && (s.slots.box.None? ==> s.mark == 0)
  {
    if cs == [] {
    } else {
      var s := Run(cs[..|cs| - 1]);
      SoundAlways(cs[..|cs| - 1]);
      hide Sound;
      match cs[|cs| - 1]
      case DoStart(q) => StartKeeps(s, q);
      case DoStop(unset) => StopKeeps(s, unset);
    }
  }

  /** Safe calls, and only they, keep everything owned. */
  lemma SafeStepOwns(s: State, c: Call)
    requires Sound(s) && Quiet(s) && Orphans(s) == {}
    ensures Orphans(Step(s, c)) == {} <==> (c.DoStart? ==> Safe(s, c.q))
    ensures (c.DoStart? ==> Safe(s, c.q)) ==> Quiet(Step(s, c))
  {
    hide Sound, Orphans, Started, Stopped;
    match c
    case DoStop(unset) =>
      StopKeeps(s, unset);
    case DoStart(q) =>
      StartKeeps(s, q);
      NothingHeld(s.slots);
      if s.slots.box.Some? { Singleton(s.slots.box.value); }
      if s.slots.process.Running? { Singleton(s.slots.process.r); }
      if Safe(s, q) { SafeStart(s, q); }
  }

  lemma {:induction false} OwnedExactly(cs: seq<Call>)
    ensures Orphans(Run(cs)) == {} <==> AllSafe(cs)
    ensures AllSafe(cs) ==> Quiet(Run(cs))
  {
    if cs == [] {
    } else {
      var s, c := Run(cs[..|cs| - 1]), cs[|cs| - 1];
      OwnedExactly(cs[..|cs| - 1]);
      SoundAlways(cs[..|cs| - 1]);
      hide Sound, Orphans, Started, Stopped;
      if AllSafe(cs[..|cs| - 1]) {
        SafeStepOwns(s, c);
      } else if c.DoStart? {
        StartKeeps(s, c.q);
      } else {
        StopKeeps(s, c.unset);
      }
    }
  }

  lemma LiveIs(s: State)
    requires Sound(s)
    ensures s.world.live == Orphans(s) + Elements(Held(s.slots)) && Orphans(s) !! Elements(Held(s.slots))
  {
  }

  /** Held reduces to a running extra process when nothing else is held. */
  lemma OnlyProcess(s: Slots)
    requires s.box.None? && XrayHeld(s) == []
    ensures Held(s) == ProcessEntry(s.process)
    ensures Elements(Held(s)) == {} <==> !s.process.Running?
  {
    if s.process.Running? { assert s.process.r in Elements(ProcessEntry(s.process)); }
  }

  // ---- the main results

  /**
   For every sequence of Start and Stop calls, with any outcomes: what was created is live or closed
   and never both, nothing is closed twice, an eager instance and a sidecar gate are never held
   together, every slot holds something live, and without a published box the mark is 0.
   */
  lemma NothingClosedTwice(cs: seq<Call>)
    ensures var s := Run(cs);
      && Elements(s.world.created) == s.world.live + Elements(s.world.closed)
      && s.world.live !! Elements(s.world.closed)
      && (forall i, j :: 0 <= i < j < |s.world.closed| ==> s.world.closed[i] != s.world.closed[j])
      && !(s.slots.eager.Some? && s.slots.sidecar.Some?)
      && Elements(Held(s.slots)) <= s.world.live
      && (s.slots.box.None? ==> s.mark == 0)
  {
    SoundAlways(cs);
  }

  /**
   What runs is exactly what the slots hold if and only if every Start of the run was issued with no box
   published and, when it puts a process into the slot, none running there.
   */
  lemma LiveMatchesSlots(cs: seq<Call>)
    ensures Run(cs).world.live == Elements(Held(Run(cs).slots)) <==> AllSafe(cs)
  {
    SoundAlways(cs);
    OwnedExactly(cs);
    LiveIs(Run(cs));
  }

  /**
   A safe Start in a run of safe Starts. It succeeds exactly when every step does, and then what runs is
   what was asked for. When it fails, nothing at all runs, unless its extra process (or one an earlier
   failure left) was up and the failure came before boxmain.Create: then exactly that process is left.
   */
  lemma StartAllOrNothing(cs: seq<Call>, q: Request)
    requires AllSafe(cs) && Safe(Run(cs), q)
    ensures var s, t := Run(cs), Started(Run(cs), q);
      && t.ok == AllGoesWell(q)
      && t.state.world.live == Elements(Held(t.state.slots))
      && (t.ok ==> AsAsked(t.state.slots, q) && t.state.mark == q.mark && t.state.needUnsetDNS == q.tun.TunDNS?)
      && (t.ok ==> t.state.dnsTaken == (s.dnsTaken || q.tun == TunDNS(true)))
      && (t.ok && q.process.Runs? ==> t.state.slots.process.Running?)
      && (!t.ok ==> t.state.mark == 0 && t.state.slots.box.None?)
      && (!t.ok ==> (t.state.world.live == {} <==> !LeavesProcess(s, q)))
      && (!t.ok && LeavesProcess(s, q) ==>
            t.state.slots.process.Running? && t.state.world.live == {t.state.slots.process.r})
  {
    SoundAlways(cs);
    OwnedExactly(cs);
    hide Run, AllSafe, Started, Safe, LeavesProcess, AsAsked, AllGoesWell, Sound, Quiet, Orphans, Held, Dropped;
    var s, t := Run(cs), Started(Run(cs), q);
    OwnedStart(s, q);
    SafeStart(s, q);
    StartKeeps(s, q);
    LiveIs(t.state);
    if !t.ok { LeftBehind(t.state); }
  }

  lemma OwnedStart(s: State, q: Request)
    requires Sound(s) && Quiet(s) && Orphans(s) == {} && Safe(s, q)
    ensures Sound(Started(s, q).state) && Quiet(Started(s, q).state) && Orphans(Started(s, q).state) == {}
    ensures s.slots.box.None?
  {
    hide Sound, Quiet, Orphans, Started;
    SafeStepOwns(s, DoStart(q));
    StartKeeps(s, q);
  }

  /** In a quiet state without a box at most the extra process runs. */
  lemma LeftBehind(t: State)
    requires Sound(t) && Quiet(t) && Orphans(t) == {} && t.slots.box.None?
    ensures t.world.live == {} <==> !t.slots.process.Running?
    ensures t.slots.process.Running? ==> t.world.live == {t.slots.process.r}
  {
    LiveIs(t);
    OnlyProcess(t.slots);
    if t.slots.process.Running? { Singleton(t.slots.process.r); }
    hide Sound, Orphans, Held, XrayHeld;
  }

  /** After Stop nothing runs and the mark is 0, unless no box was up and a failed Start had left its process. */
  lemma StopLeavesNothing(cs: seq<Call>, unset: bool)
    requires AllSafe(cs)
    ensures var s, t := Run(cs), Stopped(Run(cs), unset);
      && t.mark == 0 && t.slots.box.None?
      && (t.world.live == {} <==> !(s.slots.box.None? && s.slots.process.Running?))
  {
    var s, t := Run(cs), Stopped(Run(cs), unset);
    SoundAlways(cs);
    OwnedExactly(cs);
    StopKeeps(s, unset);
    hide Sound, Stopped, XrayHeld;
    LiveIs(t);
    if s.slots.box.None? { OnlyProcess(s.slots); }
  }

  /** No call asks for an extra process. */
  predicate NoExtraProcess(cs: seq<Call>) {
    forall i :: 0 <= i < |cs| && cs[i].DoStart? ==> cs[i].q.process.NoProcess?
  }

  lemma NoProcessStep(s: State, c: Call)
    requires s.slots.process.Empty? && (c.DoStart? ==> c.q.process.NoProcess?)
    ensures Step(s, c).slots.process.Empty?
  {
    hide Closed, Created, Count, Gates, XrayHeld, OpenedGates, AllUp, Entry, ProcessEntry;
  }

  lemma {:induction false} SlotStaysEmpty(cs: seq<Call>)
    requires NoExtraProcess(cs)
    ensures Run(cs).slots.process.Empty?
  {
    hide Step;
    if cs != [] {
      SlotStaysEmpty(cs[..|cs| - 1]);
      assert cs[|cs| - 1] in cs;
      NoProcessStep(Run(cs[..|cs| - 1]), cs[|cs| - 1]);
    }
  }

  /** Without extra processes, whenever no box is published nothing is live at all. */
  lemma IdleMeansNothingLive(cs: seq<Call>)
    requires AllSafe(cs) && NoExtraProcess(cs)
    ensures Run(cs).slots.box.None? ==> Run(cs).world.live == {} && Run(cs).mark == 0
  {
    SoundAlways(cs);
    OwnedExactly(cs);
    SlotStaysEmpty(cs);
    LiveIs(Run(cs));
    if Run(cs).slots.box.None? { OnlyProcess(Run(cs).slots); }
  }

  /** The Stop gives up on a resolver it fails to give back. */
  predicate LosesResolver(s: State, c: Call) {
    c.DoStop? && !c.unset && s.slots.box.Some? && s.dnsTaken
  }

  predicate NoneLost(cs: seq<Call>) {
    cs == [] || (NoneLost(cs[..|cs| - 1]) && !LosesResolver(Run(cs[..|cs| - 1]), cs[|cs| - 1]))
  }

  /** At every moment of the run, a resolver that points at the tunnel is marked for giving back. */
  predicate NeverForgotten(cs: seq<Call>) {
    (Run(cs).dnsTaken ==> Run(cs).needUnsetDNS) && (cs != [] ==> NeverForgotten(cs[..|cs| - 1]))
  }

  lemma ResolverStep(s: State, c: Call)
    requires s.dnsTaken ==> s.needUnsetDNS
    ensures (Step(s, c).dnsTaken ==> Step(s, c).needUnsetDNS) <==> !LosesResolver(s, c)
  {
    hide Closed, Created, XrayHeld, Count, Gates;
  }

  /**
   A system resolver taken over is never forgotten, in any run, if and only if no Stop failed to give it
   back: such a failure is logged and forgotten. In safe runs without one it is back whenever no box is up.
   */
  lemma {:induction false} ResolverIsGivenBack(cs: seq<Call>)
    ensures NeverForgotten(cs) <==> NoneLost(cs)
    ensures NoneLost(cs) && AllSafe(cs) && Run(cs).slots.box.None? ==> !Run(cs).dnsTaken
  {
    OwnedExactly(cs);
    hide Orphans, AllSafe, Step, XrayHeld, LosesResolver;
    if cs != [] {
      ResolverIsGivenBack(cs[..|cs| - 1]);
      if NeverForgotten(cs[..|cs| - 1]) { ResolverStep(Run(cs[..|cs| - 1]), cs[|cs| - 1]); }
    }
  }

  // ---- two runs outside the guarantee

  /** A refused second Start clears the published box without closing it; Stop then finds nothing to stop. */
  lemma RefusedStartOrphansBox()
    ensures var q := Request(NoProcess, 7, NoXray, [], true, NoTun);
      var s := Run([DoStart(q), DoStart(q), DoStop(true)]);
      s.slots.box.None? && s.world.live == {Box(0)} && s.world.closed == []
  {
    var q := Request(NoProcess, 7, NoXray, [], true, NoTun);
    var cs := [DoStart(q), DoStart(q), DoStop(true)];
    assert cs[..2] == [DoStart(q), DoStart(q)] && cs[..2][..1] == [DoStart(q)] && [DoStart(q)][..0] == [];
    Singleton(Box(0));
    var s := Started(idle, q).state;
    assert Run([DoStart(q)]) == s && s.slots.box == Some(Box(0)) && s.world.live == {Box(0)};
    assert Run(cs[..2]) == Failed(s).state;
  }

  /** An Xray failure after the extra process came up leaves it running, and Stop does not reach it. */
  lemma XrayFailureLeavesProcess()
    ensures var q := Request(Runs, 7, Eager(NoStart), [], true, NoTun);
      var s := Run([DoStart(q), DoStop(true)]);
      s.world.live == {Child(0)} && s.world.closed == [Instance(1)]
  {
    var q := Request(Runs, 7, Eager(NoStart), [], true, NoTun);
    var cs := [DoStart(q), DoStop(true)];
    assert cs[..1] == [DoStart(q)] && [DoStart(q)][..0] == [];
    Singleton(Child(0));
    Singleton(Instance(1));
    var p := ProcessStage(idle, Runs).state.(mark := 7);
    assert p.world == World([Child(0)], [], {Child(0)});
    assert Later(p, q) == XrayStage(p, q.xray);
    assert Run(cs[..1]) == Started(idle, q).state;
  }

  /** A Stop whose unset call fails leaves the resolver on the tunnel with nothing to remind anybody. */
  lemma FailedUnsetForgetsResolver(s: State)
    requires s.slots.box.Some? && s.dnsTaken
    ensures var t := Stopped(s, false); t.dnsTaken && !t.needUnsetDNS && t.slots.box.None?
  {
    hide Closed;
  }

  /** In which order Stop closes: the box, the extra process, the sidecar gate, the full gates, the eager instance. */
  lemma StopCloses(s: State, unset: bool)
    requires s.slots.box.Some?
    ensures Stopped(s, unset).world.closed ==
      s.world.closed + [s.slots.box.value]
      + (if s.slots.process.Running? then [s.slots.process.r] else [])
      + (if s.slots.sidecar.Some? then [s.slots.sidecar.value] else []) + s.slots.full
      + (if s.slots.eager.Some? then [s.slots.eager.value] else [])
    ensures Stopped(s, unset).dnsTaken == (s.dnsTaken && !(s.needUnsetDNS && unset))
  {
  }
}

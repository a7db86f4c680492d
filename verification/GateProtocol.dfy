/**
 The Xray gate (internal/xray/gate.go) as a transition system.

 Goroutines are program counters: any number of connection handlers, any number of callers of
 Close, and one sweeper. A step is one access to shared state: a critical section of `connsMu`, a
 critical section of `mu` (the one inside `ensure` is long, so its holder is recorded), an atomic
 access to `active` or `lastUse`, a channel close, or one external effect (accept, dial, connection
 close, instance create/start/close). The schedule picks which goroutine moves next and how each
 external call turns out; an event that is not enabled leaves the state alone, so a run is any
 sequence of events whatsoever.

 Handler h serves connection Client(h) and dials at most one Upstream(h). Instances are numbered in
 creation order and `closes[i]` counts the Close calls instance i has received.
 */
module GateProtocol {
  import opened Common

  datatype Conn = Client(h: nat) | Upstream(h: nat)

  /** Where a handler stands: each constructor names what has just happened. */
  datatype HandlerPc =
    | Accepted                    // next: track(conn)
    | Refused                     // track refused the client; next: conn.Close
    | Tracked                     // next: active.Add(1)
    | Counted                     // next: touch
    | Touched                     // next: ensure takes mu
    | Locked(built: Option<nat>)  // inside ensure, mu held, no instance or one being brought up
    | Ready                       // ensure succeeded; next: dial
    | Dialed                      // next: track(upstream)
    | UpRefused                   // track refused the upstream; next: upstream.Close
    | Relaying                    // next: both relays report done, forget(upstream)
    | UpForgotten                 // next: upstream.Close
    | Leaving                     // next: active.Add(-1)
    | Uncounted                   // next: touch
    | Retouched                   // next: forget(conn)
    | Forgotten                   // next: conn.Close
    | Done

  datatype CloserPc =
    | Calling                                             // next: mu section of Close
    | TurnedAway                                          // found the gate closed and returned
    | Took(inst: Option<nat>)                             // next: close(stopped)
    | Shutting(inst: Option<nat>)                         // closing listeners, then takes conns
    | Closing(inst: Option<nat>, pending: set<Conn>)      // closing connections, then the instance
    | Finished

  datatype SweeperPc =
    | Waiting                // in select
    | Inactive               // the tick's active.Load() was not positive
    | Expired                // and lastUse was old enough; next: take the instance under mu
    | Holding(inst: nat)     // next: inst.Close
    | Stopped

  /** What mu guards, plus the Close calls every created instance has received. */
  datatype Core = Core(
    mu: Option<nat>,                 // the handler inside ensure's long critical section
    instance: Option<nat>, closed: bool,
    closes: seq<nat>)

  /** What connsMu guards (None is Go's nil map), plus which connections were ever opened and closed. */
  datatype Net = Net(conns: Option<set<Conn>>, everOpen: set<Conn>, closed: set<Conn>)

  /** The two atomics, and the clock that touch and the sweeper read. */
  datatype Usage = Usage(active: int, lastUse: int, now: int)

  datatype State = State(
    idle: int, bridges: nat,
    shut: nat,                       // listeners closed so far, in bridge order
    stopped: bool,                   // the stopped channel is closed
    core: Core, net: Net, usage: Usage,
    handlers: seq<HandlerPc>, closers: seq<CloserPc>, sweeper: SweeperPc)

  datatype Event =
    | Accept(bridge: nat)          // a connection arrives on a bridge's listener
    | Handler(h: nat, ok: bool)    // handler h moves; ok is the outcome of a create, bring-up or dial
    | CallClose                    // another goroutine calls Close
    | Closer(c: nat, x: Conn)      // closer c moves; x is the map element its range loop visits
    | Sweeper(stop: bool)          // the sweeper moves; stop picks the stopped channel in select
    | Clock(now: int)              // time passes

  /** StartGate's gate: listening on every bridge, cold, touched once. */
  function Fresh(idle: int, bridges: nat, now: int): State {
    State(idle, bridges, 0, false, Core(None, None, false, []), Net(Some({}), {}, {}), Usage(0, now, now),
          [], [], Waiting)
  }

  /** What one handler step does to shared state. */
  datatype Effect =
    | Nothing
    | Track(x: Conn) | Untrack(x: Conn)      // g.conns[x] = struct{}{}, delete(g.conns, x)
    | Open(x: Conn) | Shut(x: Conn)          // a successful dial, x.Close()
    | Enter | Exit                           // active.Add(1), active.Add(-1)
    | Touch                                  // lastUse.Store(now)
    | Lock                                   // ensure found the gate open and cold, and keeps mu
    | Unlock                                 // instance creation failed
    | Create                                 // CreateXrayInstance succeeded
    | Abandon(i: nat)                        // prepare or Start failed: instance.Close, unlock
    | Install(i: nat)                        // g.instance = instance, unlock

  /** Only the entry to ensure can block: every other critical section is a single step. */
  predicate HandlerEnabled(s: State, h: nat) {
    h < |s.handlers| && !s.handlers[h].Done? && (s.handlers[h].Touched? ==> s.core.mu.None?)
  }

  /** handle and ensure, line by line: where handler h goes next and what it does on the way. */
  function HandlerMove(s: State, h: nat, ok: bool): (HandlerPc, Effect)
    requires HandlerEnabled(s, h)
  {
    match s.handlers[h]
    case Accepted => if s.net.conns.None? then (Refused, Nothing) else (Tracked, Track(Client(h)))
    case Refused => (Done, Shut(Client(h)))
    case Tracked => (Counted, Enter)
    case Counted => (Touched, Touch)
    case Touched =>
      if s.core.closed then (Leaving, Nothing)
      else if s.core.instance.Some? then (Ready, Nothing)
      else (Locked(None), Lock)
    case Locked(None) => if ok then (Locked(Some(|s.core.closes|)), Create) else (Leaving, Unlock)
    case Locked(Some(i)) => if ok then (Ready, Install(i)) else (Leaving, Abandon(i))
    case Ready => if ok then (Dialed, Open(Upstream(h))) else (Leaving, Nothing)
    case Dialed => if s.net.conns.None? then (UpRefused, Nothing) else (Relaying, Track(Upstream(h)))
    case UpRefused => (Leaving, Shut(Upstream(h)))
    case Relaying => (UpForgotten, Untrack(Upstream(h)))
    case UpForgotten => (Leaving, Shut(Upstream(h)))
    case Leaving => (Uncounted, Exit)
    case Uncounted => (Retouched, Touch)
    case Retouched => (Forgotten, Untrack(Client(h)))
    case Forgotten => (Done, Shut(Client(h)))
  }

  function NetAfter(n: Net, f: Effect): Net {
    match f
    case Track(x) => if n.conns.Some? then n.(conns := Some(n.conns.value + {x})) else n
    case Untrack(x) => if n.conns.Some? then n.(conns := Some(n.conns.value - {x})) else n
    case Open(x) => n.(everOpen := n.everOpen + {x})
    case Shut(x) => n.(closed := n.closed + {x})
    case _ => n
  }

  function UsageAfter(u: Usage, f: Effect): Usage {
    match f
    case Enter => u.(active := u.active + 1)
    case Exit => u.(active := u.active - 1)
    case Touch => u.(lastUse := u.now)
    case _ => u
  }

  function CloseInstance(g: Core, inst: Option<nat>): Core {
    if inst.Some? && inst.value < |g.closes| then
      g.(closes := g.closes[inst.value := g.closes[inst.value] + 1])
    else g
  }

  function CoreAfter(g: Core, h: nat, f: Effect): Core {
    match f
    case Lock => g.(mu := Some(h))
    case Unlock => g.(mu := None)
    case Create => g.(closes := g.closes + [0])
    case Abandon(i) => CloseInstance(g, Some(i)).(mu := None)
    case Install(i) => g.(instance := Some(i), mu := None)
    case _ => g
  }

  function HandlerNext(s: State, h: nat, ok: bool): State
    requires HandlerEnabled(s, h)
  {
    var (pc, f) := HandlerMove(s, h, ok);
    s.(handlers := s.handlers[h := pc], net := NetAfter(s.net, f),
       usage := UsageAfter(s.usage, f), core := CoreAfter(s.core, h, f))
  }

  function Becomes(s: State, c: nat, pc: CloserPc): State
    requires c < |s.closers|
  {
    s.(closers := s.closers[c := pc])
  }

  predicate CloserEnabled(s: State, c: nat, x: Conn) {
    && c < |s.closers|
    && match s.closers[c]
       case Calling => s.core.mu.None?
       case Closing(_, pending) => pending != {} ==> x in pending
       case TurnedAway => false
       case Finished => false
       case _ => true
  }

  function CloserNext(s: State, c: nat, x: Conn): State
    requires CloserEnabled(s, c, x)
  {
    match s.closers[c]
    case Calling =>
      if s.core.closed then Becomes(s, c, TurnedAway)
      else Becomes(s.(core := s.core.(closed := true, instance := None)), c, Took(s.core.instance))
    case Took(inst) => Becomes(s.(stopped := true), c, Shutting(inst))
    case Shutting(inst) =>
      if s.shut < s.bridges then s.(shut := s.shut + 1)
      else
        Becomes(s.(net := s.net.(conns := None)), c,
                Closing(inst, if s.net.conns.Some? then s.net.conns.value else {}))
    case Closing(inst, pending) =>
      if pending != {} then Becomes(s.(net := NetAfter(s.net, Shut(x))), c, Closing(inst, pending - {x}))
      else Becomes(s.(core := CloseInstance(s.core, inst)), c, Finished)
  }

  predicate SweeperEnabled(s: State, stop: bool) {
    match s.sweeper
    case Waiting => stop ==> s.stopped
    case Expired => s.core.mu.None?
    case Stopped => false
    case _ => true
  }

  function SweeperNext(s: State, stop: bool): State
    requires SweeperEnabled(s, stop)
  {
    match s.sweeper
    case Waiting =>
      if stop then s.(sweeper := Stopped)
      else if s.idle <= 0 || s.usage.active > 0 then s
      else s.(sweeper := Inactive)
    case Inactive =>
      if s.usage.now - s.usage.lastUse < s.idle then s.(sweeper := Waiting) else s.(sweeper := Expired)
    case Expired =>
      if s.core.instance.None? then s.(sweeper := Waiting)
      else s.(core := s.core.(instance := None), sweeper := Holding(s.core.instance.value))
    case Holding(i) => s.(core := CloseInstance(s.core, Some(i)), sweeper := Waiting)
  }

  /** A listener accepts until Close has shut it. */
  function AcceptNext(s: State, b: nat): State {
    if s.shut <= b < s.bridges then
      s.(handlers := s.handlers + [Accepted], net := NetAfter(s.net, Open(Client(|s.handlers|))))
    else s
  }

  /** One scheduling decision. */
  function Step(s: State, e: Event): State {
    match e
    case Accept(b) => AcceptNext(s, b)
    case Handler(h, ok) => if HandlerEnabled(s, h) then HandlerNext(s, h, ok) else s
    case CallClose => s.(closers := s.closers + [Calling])
    case Closer(c, x) => if CloserEnabled(s, c, x) then CloserNext(s, c, x) else s
    case Sweeper(stop) => if SweeperEnabled(s, stop) then SweeperNext(s, stop) else s
    case Clock(t) => if s.usage.now <= t then s.(usage := s.usage.(now := t)) else s
  }

  function Run(s: State, es: seq<Event>): State {
    if es == [] then s else Step(Run(s, es[..|es| - 1]), es[|es| - 1])
  }

  lemma RunSnoc(s: State, es: seq<Event>, e: Event)
    ensures Run(s, es + [e]) == Step(Run(s, es), e)
  {
    assert (es + [e])[..|es|] == es;
  }

  lemma {:induction false} RunConcat(s: State, a: seq<Event>, b: seq<Event>)
    ensures Run(s, a + b) == Run(Run(s, a), b)
  {
    if b == [] {
      assert a + b == a;
    } else {
      assert (a + b)[..|a + b| - 1] == a + b[..|b| - 1];
      RunConcat(s, a, b[..|b| - 1]);
    }
  }

  /** One more move of an enabled handler, spelled out. */
  lemma HandlerThen(f: State, es: seq<Event>, h: nat, ok: bool) returns (more: seq<Event>)
    requires HandlerEnabled(Run(f, es), h)
    ensures more == es + [Handler(h, ok)]
    ensures var s := Run(f, es);
      var (pc, x) := HandlerMove(s, h, ok);
      Run(f, more) == s.(handlers := s.handlers[h := pc], net := NetAfter(s.net, x),
                         usage := UsageAfter(s.usage, x), core := CoreAfter(s.core, h, x))
  {
    more := es + [Handler(h, ok)];
    RunSnoc(f, es, Handler(h, ok));
  }
}

/**
 The Gate struct (internal/xray/gate.go) and its methods on real fields. Each method is one or more
 critical sections; what it does to the fields is stated with GateProtocol's own transition functions,
 and the lemmas at the end run a goroutine of the transition system by itself and arrive where the
 method does. What other goroutines may do in between is GateSafety's subject.
 */
module GateObject {
  import opened Common
  import opened GateProtocol

  class Gate {
    const idle: int
    const bridges: nat
    var instance: Option<nat>
    var closed: bool
    var closes: seq<nat>                // Close calls per instance ever created
    var conns: Option<set<Conn>>
    var everOpen: set<Conn>
    var shutConns: set<Conn>
    var active: int
    var lastUse: int
    var stopped: bool
    var shut: nat                       // listeners closed

    function CoreView(): Core
      reads this
    {
      Core(None, instance, closed, closes)
    }

    function NetView(): Net
      reads this
    {
      Net(conns, everOpen, shutConns)
    }

    constructor (idle: int, bridges: nat, now: int)
      ensures this.idle == idle && this.bridges == bridges && !stopped && shut == 0
      ensures CoreView() == Fresh(idle, bridges, now).core && NetView() == Fresh(idle, bridges, now).net
      ensures active == 0 && lastUse == now
    {
      this.idle, this.bridges := idle, bridges;
      instance, closed, closes, conns, everOpen, shutConns := None, false, [], Some({}), {}, {};
      active, lastUse, stopped, shut := 0, now, false, 0;
    }

    method Track(x: Conn) returns (ok: bool)
      modifies this`conns
      ensures ok == old(conns).Some? && NetView() == NetAfter(old(NetView()), GateProtocol.Track(x))
    {
      if conns.None? { return false; }
      conns := Some(conns.value + {x});
      return true;
    }

    /** delete on a nil map does nothing. */
    method Forget(x: Conn)
      modifies this`conns
      ensures NetView() == NetAfter(old(NetView()), Untrack(x))
    {
      if conns.Some? { conns := Some(conns.value - {x}); }
    }

    method CloseConn(x: Conn)
      modifies this`shutConns
      ensures NetView() == NetAfter(old(NetView()), Shut(x))
    {
      shutConns := shutConns + {x};
    }

    /** instance.Close */
    method CloseBuilt(i: nat)
      requires i < |closes|
      modifies this`closes
      ensures CoreView() == CloseInstance(old(CoreView()), Some(i))
    {
      closes := closes[i := closes[i] + 1];
    }

    /** ensure, one critical section from end to end. */
    method Ensure(created: bool, up: bool) returns (ready: bool)
      modifies this`instance, this`closes
      ensures (CoreView(), ready) == Ensured(old(CoreView()), created, up)
    {
      if closed { return false; }
      if instance.Some? { return true; }
      if !created { return false; }
      var built := |closes|;
      closes := closes + [0];
      if !up {
        CloseBuilt(built);
        return false;
      }
      instance := Some(built);
      return true;
    }

    /** Dial, track, relay to the end, forget, close; a gate closed meanwhile refuses to track. */
    method Relay(upstream: Conn)
      requires conns.Some? ==> upstream !in conns.value
      modifies this`conns, this`everOpen, this`shutConns
      ensures NetView() == Net(old(conns), old(everOpen) + {upstream}, old(shutConns) + {upstream})
    {
      everOpen := everOpen + {upstream};
      var kept := Track(upstream);
      if kept { Forget(upstream); }
      CloseConn(upstream);
    }

    /**
     handle, run by itself on a fresh connection from `arrive` to `leave`: whatever fails on the way, the
     client and any upstream end up closed, nothing it tracked stays tracked, the counter is back where it
     was, and the last use is the moment it left. A closed gate turns the connection away untouched.
     */
    method Handle(h: nat, created: bool, up: bool, dials: bool, arrive: int, leave: int)
      requires Client(h) in everOpen && Upstream(h) !in everOpen
      requires conns.Some? ==> Client(h) !in conns.value && Upstream(h) !in conns.value
      requires shutConns <= everOpen
      modifies this`conns, this`everOpen, this`shutConns, this`active, this`lastUse, this`instance, this`closes
      ensures conns == old(conns) && active == old(active) && Client(h) in shutConns
      ensures everOpen - old(everOpen) == shutConns - old(shutConns) - {Client(h)} <= {Upstream(h)}
      ensures NetView() == HandledNet(old(NetView()), h, Ensured(old(CoreView()), created, up).1 && dials)
      ensures CoreView() == if old(conns).None? then old(CoreView()) else Ensured(old(CoreView()), created, up).0
      ensures Upstream(h) in shutConns <==> old(conns).Some? && Ensured(old(CoreView()), created, up).1 && dials
      ensures lastUse == if old(conns).Some? then leave else old(lastUse)
    {
      hide Ensured;
      var client, upstream := Client(h), Upstream(h);
      var tracked := Track(client);
      if !tracked {
        CloseConn(client);
        return;
      }
      active := active + 1;
      lastUse := arrive;
      var ready := Ensure(created, up);
      if ready && dials { Relay(upstream); }
      active := active - 1;
      lastUse := leave;
      Forget(client);
      CloseConn(client);
    }

    method CloseListeners()
      modifies this`shut
      ensures shut == if old(shut) > bridges then old(shut) else bridges
    {
      while shut < bridges
        invariant shut == old(shut) || shut <= bridges
      {
        shut := shut + 1;
      }
    }

    /** The loop over what was in the map, in whatever order. */
    method CloseConns(all: set<Conn>)
      modifies this`shutConns
      ensures shutConns == old(shutConns) + all
    {
      var pending := all;
      while pending != {}
        invariant pending <= all && shutConns == old(shutConns) + (all - pending)
        decreases |pending|
      {
        var x :| x in pending;
        CloseConn(x);
        pending := pending - {x};
      }
    }

    /** Close: the second caller changes nothing; the first leaves nothing installed, tracked, listening or open. */
    method Close()
      requires instance.Some? ==> instance.value < |closes|
      modifies this`instance, this`closed, this`closes, this`conns, this`shutConns, this`stopped, this`shut
      ensures old(closed) ==>
        CoreView() == old(CoreView()) && NetView() == old(NetView()) && shut == old(shut) && stopped == old(stopped)
      ensures !old(closed) ==>
        && CoreView() == CloseInstance(old(CoreView()).(closed := true, instance := None), old(instance))
        && NetView() == old(NetView()).(conns := None, closed := old(shutConns) + Members(old(conns)))
        && stopped && shut == (if old(shut) > bridges then old(shut) else bridges)
    {
      if closed { return; }
      closed := true;
      var taken := instance;
      instance := None;
      stopped := true;
      CloseListeners();
      var pending := Members(conns);
      conns := None;
      CloseConns(pending);
      if taken.Some? { CloseBuilt(taken.value); }
    }

    /** One tick by itself takes and closes the instance exactly when nobody is counted and it has gone unused. */
    method SweepTick(now: int) returns (swept: bool)
      requires instance.Some? ==> instance.value < |closes|
      modifies this`instance, this`closes
      ensures swept <==> old(instance).Some? && idle > 0 && active <= 0 && now - lastUse >= idle
      ensures CoreView() ==
        if swept then CloseInstance(old(CoreView()).(instance := None), old(instance)) else old(CoreView())
    {
      if idle <= 0 || active > 0 { return false; }
      if now - lastUse < idle { return false; }
      var taken := instance;
      instance := None;
      if taken.None? { return false; }
      CloseBuilt(taken.value);
      return true;
    }
  }

  function Members(conns: Option<set<Conn>>): set<Conn> {
    if conns.Some? then conns.value else {}
  }

  /** ensure's effect on what mu guards, and whether it succeeds. */
  function Ensured(g: Core, created: bool, up: bool): (Core, bool) {
    if g.closed then (g, false)
    else if g.instance.Some? then (g, true)
    else if !created then (g, false)
    else
      var c := CoreAfter(g, 0, Create);
      if up then (c.(instance := Some(|g.closes|)), true) else (CloseInstance(c, Some(|g.closes|)), false)
  }

  /** What a whole handler leaves of its connections. */
  function HandledNet(n: Net, h: nat, opens: bool): Net {
    var upstream := if opens && n.conns.Some? then {Upstream(h)} else {};
    n.(everOpen := n.everOpen + upstream, closed := n.closed + upstream + {Client(h)})
  }

  /** A handler that goes through ensure undisturbed does to the state what Gate.Ensure does to the fields. */
  lemma EnsureRuns(s: State, h: nat, created: bool, up: bool) returns (es: seq<Event>)
    requires h < |s.handlers| && s.handlers[h].Touched? && s.core.mu.None?
    ensures var (core, ready) := Ensured(s.core, created, up);
      Run(s, es) == s.(core := core, handlers := s.handlers[h := if ready then Ready else Leaving])
  {
    assert Run(s, []) == s;
    assert s.handlers[h := Locked(None)][h := Leaving] == s.handlers[h := Leaving];
    hide Run;
    es := [Handler(h, created)];
    RunSnoc(s, [], es[0]);
    assert [] + es == es;
    if !s.core.closed && s.core.instance.None? {
      var t := s.(core := s.core.(mu := Some(h)), handlers := s.handlers[h := Locked(None)]);
      assert Run(s, es) == t;
      RunSnoc(s, es, Handler(h, created));
      es := es + [Handler(h, created)];
      if created {
        BringUp(t, h, up);
        RunSnoc(s, es, Handler(h, up));
        es := es + [Handler(h, up)];
      }
    }
  }

  /** ensure's second half: an instance is created, then brought up or closed again. */
  lemma BringUp(t: State, h: nat, up: bool)
    requires h < |t.handlers| && t.handlers[h] == Locked(None)
    requires t.core.mu == Some(h) && !t.core.closed && t.core.instance.None?
    ensures var (core, ready) := Ensured(t.core.(mu := None), true, up);
      Step(Step(t, Handler(h, true)), Handler(h, up))
        == t.(core := core, handlers := t.handlers[h := if ready then Ready else Leaving])
  {
    var i := |t.core.closes|;
    var b := t.(core := t.core.(closes := t.core.closes + [0]), handlers := t.handlers[h := Locked(Some(i))]);
    assert Step(t, Handler(h, true)) == b;
    assert b.handlers[h := Ready] == t.handlers[h := Ready] && b.handlers[h := Leaving] == t.handlers[h := Leaving];
  }

  // ---- a whole handler

  /** A move of handler h that leaves the instances alone. */
  lemma MovesTo(s: State, h: nat, pc: HandlerPc, net: Net, usage: Usage)
    requires HandlerEnabled(s, h)
    requires var (p, f) := HandlerMove(s, h, true);
      p == pc && NetAfter(s.net, f) == net && UsageAfter(s.usage, f) == usage && CoreAfter(s.core, h, f) == s.core
    ensures Step(s, Handler(h, true)) == s.(handlers := s.handlers[h := pc], net := net, usage := usage)
  {
  }

  lemma RunMoves(s: State, h: nat) returns (es: seq<Event>)
    ensures var e := Handler(h, true); es == [e, e] && Run(s, es) == Step(Step(s, e), e)
  {
    var e := Handler(h, true);
    RunSnoc(s, [], e);
    RunSnoc(s, [e], e);
    assert [] + [e] == [e] && [e] + [e] == [e, e] && Run(s, []) == s;
    es := [e, e];
  }

  /** Accepted to Touched: tracked, counted, touched. */
  lemma ArriveRuns(s: State, h: nat) returns (es: seq<Event>)
    requires h < |s.handlers| && s.handlers[h].Accepted? && s.net.conns.Some?
    ensures Run(s, es) == s.(
      net := s.net.(conns := Some(s.net.conns.value + {Client(h)})), handlers := s.handlers[h := Touched],
      usage := s.usage.(active := s.usage.active + 1, lastUse := s.usage.now))
  {
    var held := s.net.(conns := Some(s.net.conns.value + {Client(h)}));
    var more := s.usage.(active := s.usage.active + 1);
    var tracked := s.(handlers := s.handlers[h := Tracked], net := held);
    MovesTo(s, h, Tracked, held, s.usage);
    MovesTo(tracked, h, Counted, held, more);
    var counted := s.(handlers := s.handlers[h := Counted], net := held, usage := more);
    MovesTo(counted, h, Touched, held, more.(lastUse := s.usage.now));
    hide Run, Step;
    es := RunMoves(s, h);
    assert tracked.handlers[h := Counted] == s.handlers[h := Counted];
    RunSnoc(s, es, Handler(h, true));
    es := es + [Handler(h, true)];
    assert counted.handlers[h := Touched] == s.handlers[h := Touched];
  }

  /** Ready to Relaying: dialed and tracked. */
  lemma DialRuns(s: State, h: nat) returns (es: seq<Event>)
    requires h < |s.handlers| && s.handlers[h].Ready? && s.net.conns.Some?
    ensures var x := Upstream(h);
      Run(s, es) == s.(
        net := s.net.(everOpen := s.net.everOpen + {x}, conns := Some(s.net.conns.value + {x})),
        handlers := s.handlers[h := Relaying])
  {
    var x := Upstream(h);
    var open := s.net.(everOpen := s.net.everOpen + {x});
    var dialed := s.(handlers := s.handlers[h := Dialed], net := open);
    MovesTo(s, h, Dialed, open, s.usage);
    MovesTo(dialed, h, Relaying, open.(conns := Some(s.net.conns.value + {x})), s.usage);
    hide Run, Step;
    es := RunMoves(s, h);
    assert dialed.handlers[h := Relaying] == s.handlers[h := Relaying];
  }

  /** Relaying to Leaving: the upstream is forgotten and closed. */
  lemma HangUpRuns(s: State, h: nat) returns (es: seq<Event>)
    requires h < |s.handlers| && s.handlers[h].Relaying? && s.net.conns.Some?
    ensures var x := Upstream(h);
      Run(s, es) == s.(
        net := s.net.(conns := Some(s.net.conns.value - {x}), closed := s.net.closed + {x}),
        handlers := s.handlers[h := Leaving])
  {
    var x := Upstream(h);
    var untracked := s.net.(conns := Some(s.net.conns.value - {x}));
    var forgotten := s.(handlers := s.handlers[h := UpForgotten], net := untracked);
    MovesTo(s, h, UpForgotten, untracked, s.usage);
    MovesTo(forgotten, h, Leaving, untracked.(closed := s.net.closed + {x}), s.usage);
    hide Run, Step;
    es := RunMoves(s, h);
    assert forgotten.handlers[h := Leaving] == s.handlers[h := Leaving];
  }

  /** Ready to Leaving, relaying until `leave`. */
  lemma RelayRuns(s: State, h: nat, leave: int) returns (es: seq<Event>)
    requires h < |s.handlers| && s.handlers[h].Ready? && s.net.conns.Some? && s.usage.now <= leave
    requires Upstream(h) !in s.net.conns.value
    ensures var x := Upstream(h);
      Run(s, es) == s.(
        net := s.net.(everOpen := s.net.everOpen + {x}, closed := s.net.closed + {x}),
        handlers := s.handlers[h := Leaving], usage := s.usage.(now := leave))
  {
    hide Run;
    es := DialRuns(s, h);
    es := WaitRuns(s, es, leave);
    var t := Run(s, es);
    var rest := HangUpRuns(t, h);
    RunConcat(s, es, rest);
    es := es + rest;
    assert s.net.conns.value + {Upstream(h)} - {Upstream(h)} == s.net.conns.value;
    assert t.handlers[h := Leaving] == s.handlers[h := Leaving];
  }

  /** Ready to Leaving, with the dial succeeding or not. */
  lemma TalkRuns(s: State, h: nat, dials: bool, leave: int) returns (es: seq<Event>)
    requires h < |s.handlers| && s.handlers[h].Ready? && s.net.conns.Some? && s.usage.now <= leave
    requires Upstream(h) !in s.net.conns.value
    ensures var upstream := if dials then {Upstream(h)} else {};
      Run(s, es) == s.(
        net := s.net.(everOpen := s.net.everOpen + upstream, closed := s.net.closed + upstream),
        handlers := s.handlers[h := Leaving], usage := s.usage.(now := leave))
  {
    assert Run(s, []) == s;
    hide Run;
    if dials {
      es := RelayRuns(s, h, leave);
    } else {
      es := HandlerThen(s, [], h, false);
      es := WaitRuns(s, es, leave);
      assert s.net.everOpen + {} == s.net.everOpen && s.net.closed + {} == s.net.closed;
    }
  }

  lemma WaitRuns(s: State, es: seq<Event>, t: int) returns (more: seq<Event>)
    requires Run(s, es).usage.now <= t
    ensures Run(s, more) == Run(s, es).(usage := Run(s, es).usage.(now := t))
  {
    more := es + [Clock(t)];
    RunSnoc(s, es, Clock(t));
  }

  /** Leaving to Done: uncounted, touched, forgotten, closed. */
  lemma LeaveRuns(s: State, h: nat) returns (es: seq<Event>)
    requires h < |s.handlers| && s.handlers[h].Leaving? && s.net.conns.Some?
    ensures Run(s, es) == s.(
      net := s.net.(conns := Some(s.net.conns.value - {Client(h)}), closed := s.net.closed + {Client(h)}),
      handlers := s.handlers[h := Done],
      usage := s.usage.(active := s.usage.active - 1, lastUse := s.usage.now))
  {
    var less := s.usage.(active := s.usage.active - 1);
    var uncounted := s.(handlers := s.handlers[h := Uncounted], usage := less);
    MovesTo(s, h, Uncounted, s.net, less);
    MovesTo(uncounted, h, Retouched, s.net, less.(lastUse := s.usage.now));
    hide Run, Step;
    es := RunMoves(s, h);
    var t := s.(handlers := s.handlers[h := Retouched], usage := less.(lastUse := s.usage.now));
    assert uncounted.handlers[h := Retouched] == s.handlers[h := Retouched];
    var rest := ForgetRuns(t, h);
    RunConcat(s, es, rest);
    es := es + rest;
    assert t.handlers[h := Done] == s.handlers[h := Done];
  }

  lemma ForgetRuns(s: State, h: nat) returns (es: seq<Event>)
    requires h < |s.handlers| && s.handlers[h].Retouched? && s.net.conns.Some?
    ensures Run(s, es) == s.(
      net := s.net.(conns := Some(s.net.conns.value - {Client(h)}), closed := s.net.closed + {Client(h)}),
      handlers := s.handlers[h := Done])
  {
    var x := Client(h);
    var untracked := s.net.(conns := Some(s.net.conns.value - {x}));
    var forgotten := s.(handlers := s.handlers[h := Forgotten], net := untracked);
    MovesTo(s, h, Forgotten, untracked, s.usage);
    MovesTo(forgotten, h, Done, untracked.(closed := s.net.closed + {x}), s.usage);
    hide Run, Step;
    es := RunMoves(s, h);
    assert forgotten.handlers[h := Done] == s.handlers[h := Done];
  }

  lemma RefuseRuns(s: State, h: nat) returns (es: seq<Event>)
    requires h < |s.handlers| && s.handlers[h].Accepted? && s.net.conns.None?
    ensures Run(s, es) == s.(net := HandledNet(s.net, h, false), handlers := s.handlers[h := Done])
  {
    var refused := s.(handlers := s.handlers[h := Refused]);
    MovesTo(s, h, Refused, s.net, s.usage);
    MovesTo(refused, h, Done, s.net.(closed := s.net.closed + {Client(h)}), s.usage);
    hide Run, Step;
    es := RunMoves(s, h);
    assert refused.handlers[h := Done] == s.handlers[h := Done];
    assert s.net.everOpen + {} == s.net.everOpen && s.net.closed + {} == s.net.closed;
  }

  /**
   A handler that runs from accept to its end by itself, with the clock moving while it relays, does to the
   state what Gate.Handle does to the fields.
   */
  lemma HandleRuns(s: State, h: nat, created: bool, up: bool, dials: bool, leave: int) returns (es: seq<Event>)
    requires h < |s.handlers| && s.handlers[h].Accepted? && s.core.mu.None? && s.usage.now <= leave
    requires s.net.conns.Some? ==> Client(h) !in s.net.conns.value && Upstream(h) !in s.net.conns.value
    ensures var (core, ready) := Ensured(s.core, created, up);
      Run(s, es) ==
        if s.net.conns.None? then s.(net := HandledNet(s.net, h, false), handlers := s.handlers[h := Done])
        else s.(core := core, net := HandledNet(s.net, h, ready && dials), handlers := s.handlers[h := Done],
                usage := Usage(s.usage.active, leave, leave))
  {
    hide Run, Ensured;
    if s.net.conns.None? {
      es := RefuseRuns(s, h);
    } else {
      var a := ArriveRuns(s, h);
      var s1 := Run(s, a);
      var b := EnsureRuns(s1, h, created, up);
      RunConcat(s, a, b);
      var s2 := Run(s1, b);
      var (core, ready) := Ensured(s.core, created, up);
      assert s2.handlers == s.handlers[h := if ready then Ready else Leaving];
      var c := LastRuns(s2, h, ready, dials, leave);
      RunConcat(s, a + b, c);
      es := a + b + c;
      assert s.net.conns.value + {Client(h)} - {Client(h)} == s.net.conns.value;
      assert s2.handlers[h := Done] == s.handlers[h := Done];
    }
  }

  /** From the end of ensure on. */
  lemma LastRuns(s: State, h: nat, ready: bool, dials: bool, leave: int) returns (es: seq<Event>)
    requires h < |s.handlers| && s.handlers[h] == (if ready then Ready else Leaving)
    requires s.net.conns.Some? && Upstream(h) !in s.net.conns.value && s.usage.now <= leave
    ensures var upstream := if ready && dials then {Upstream(h)} else {};
      Run(s, es) == s.(
        net := s.net.(conns := Some(s.net.conns.value - {Client(h)}), everOpen := s.net.everOpen + upstream,
                      closed := s.net.closed + upstream + {Client(h)}),
        handlers := s.handlers[h := Done], usage := Usage(s.usage.active - 1, leave, leave))
  {
    assert Run(s, []) == s;
    hide Run;
    if ready { es := TalkRuns(s, h, dials, leave); } else { es := WaitRuns(s, [], leave); }
    var t := Run(s, es);
    assert s.net.everOpen + {} == s.net.everOpen && s.net.closed + {} == s.net.closed;
    var rest := LeaveRuns(t, h);
    RunConcat(s, es, rest);
    es := es + rest;
    assert t.handlers[h := Done] == s.handlers[h := Done];
  }

  // ---- a whole Close

  /** What a caller of Close does between two of its program points. */
  function Marked(s: State): State {
    s.(core := s.core.(closed := true, instance := None), stopped := true)
  }

  lemma MarkMoves(s: State, c: nat, x: Conn)
    requires c < |s.closers| && s.closers[c].Calling? && s.core.mu.None? && !s.core.closed
    ensures Step(Step(s, Closer(c, x)), Closer(c, x)) == Becomes(Marked(s), c, Shutting(s.core.instance))
  {
    var inst := s.core.instance;
    var t := Becomes(s.(core := s.core.(closed := true, instance := None)), c, Took(inst));
    assert Step(s, Closer(c, x)) == t;
    assert t.closers[c := Shutting(inst)] == s.closers[c := Shutting(inst)];
  }

  lemma ShutMoves(s: State, c: nat, x: Conn)
    requires c < |s.closers| && s.closers[c].Shutting?
    ensures Step(s, Closer(c, x)) ==
      if s.shut < s.bridges then s.(shut := s.shut + 1)
      else Becomes(s.(net := s.net.(conns := None)), c, Closing(s.closers[c].inst, Members(s.net.conns)))
  {
  }

  lemma CloseMoves(s: State, c: nat, x: Conn)
    requires c < |s.closers| && s.closers[c].Closing? && (s.closers[c].pending != {} ==> x in s.closers[c].pending)
    ensures Step(s, Closer(c, x)) ==
      if s.closers[c].pending == {} then Becomes(s.(core := CloseInstance(s.core, s.closers[c].inst)), c, Finished)
      else Becomes(s.(net := s.net.(closed := s.net.closed + {x})), c,
                   Closing(s.closers[c].inst, s.closers[c].pending - {x}))
  {
  }

  /** A caller of Close that runs to the end by itself does to the state what Gate.Close does to the fields. */
  lemma CloseRuns(s: State, c: nat) returns (es: seq<Event>)
    requires c < |s.closers| && s.closers[c].Calling? && s.core.mu.None? && !s.core.closed
    ensures Run(s, es) == s.(
      core := CloseInstance(s.core.(closed := true, instance := None), s.core.instance),
      net := s.net.(conns := None, closed := s.net.closed + Members(s.net.conns)),
      stopped := true, shut := if s.shut > s.bridges then s.shut else s.bridges,
      closers := s.closers[c := Finished])
  {
    assert Run(s, []) == s;
    var none := Client(0);
    RunSnoc(s, [], Closer(c, none));
    RunSnoc(s, [] + [Closer(c, none)], Closer(c, none));
    es := [] + [Closer(c, none)] + [Closer(c, none)];
    MarkMoves(s, c, none);
    hide Run, Step;
    var m := Becomes(Marked(s), c, Shutting(s.core.instance));
    var t := m;
    while t.shut < t.bridges
      invariant Run(s, es) == t && t == m.(shut := t.shut) && (t.shut == s.shut || t.shut <= t.bridges)
    {
      ShutMoves(t, c, none);
      RunSnoc(s, es, Closer(c, none));
      es, t := es + [Closer(c, none)], t.(shut := t.shut + 1);
    }
    ShutMoves(t, c, none);
    RunSnoc(s, es, Closer(c, none));
    es := es + [Closer(c, none)];
    var all := Members(s.net.conns);
    es := CloseRest(s, t, c, es, all);
  }

  /** The closer has closed `done` of the connections it took and still has `pending` to go. */
  function Halfway(m: State, c: nat, inst: Option<nat>, done: set<Conn>, pending: set<Conn>): State
    requires c < |m.closers|
  {
    Becomes(m.(net := m.net.(conns := None, closed := m.net.closed + done)), c, Closing(inst, pending))
  }

  lemma HalfwayMoves(m: State, c: nat, inst: Option<nat>, done: set<Conn>, pending: set<Conn>, x: Conn)
    requires c < |m.closers| && x in pending
    ensures Step(Halfway(m, c, inst, done, pending), Closer(c, x)) == Halfway(m, c, inst, done + {x}, pending - {x})
  {
    var t := Halfway(m, c, inst, done, pending);
    CloseMoves(t, c, x);
    assert t.net.closed + {x} == m.net.closed + (done + {x});
    assert t.closers[c := Closing(inst, pending - {x})] == m.closers[c := Closing(inst, pending - {x})];
  }

  /** The second half of Close: every connection it took, then the instance. */
  lemma CloseRest(s: State, m: State, c: nat, front: seq<Event>, all: set<Conn>) returns (es: seq<Event>)
    requires c < |m.closers| && m.closers[c].Shutting?
    requires Run(s, front) == Becomes(m.(net := m.net.(conns := None)), c, Closing(m.closers[c].inst, all))
    ensures Run(s, es) == Becomes(m.(core := CloseInstance(m.core, m.closers[c].inst),
      net := m.net.(conns := None, closed := m.net.closed + all)), c, Finished)
  {
    var inst := m.closers[c].inst;
    var pending, done := all, {};
    assert m.net.closed + {} == m.net.closed;
    assert Run(s, front) == Halfway(m, c, inst, {}, all);
    hide Run, Step, Becomes, Halfway;
    es := front;
    while pending != {}
      invariant done + pending == all
      invariant Run(s, es) == Halfway(m, c, inst, done, pending)
      decreases |pending|
    {
      var x :| x in pending;
      HalfwayMoves(m, c, inst, done, pending, x);
      RunSnoc(s, es, Closer(c, x));
      es, pending, done := es + [Closer(c, x)], pending - {x}, done + {x};
    }
    assert done == all;
    HalfwayEnds(m, c, inst, all);
    RunSnoc(s, es, Closer(c, Client(0)));
    es := es + [Closer(c, Client(0))];
  }

  lemma HalfwayEnds(m: State, c: nat, inst: Option<nat>, all: set<Conn>)
    requires c < |m.closers|
    ensures Step(Halfway(m, c, inst, all, {}), Closer(c, Client(0))) ==
      Becomes(m.(core := CloseInstance(m.core, inst), net := m.net.(conns := None, closed := m.net.closed + all)), c,
              Finished)
  {
    var t := Halfway(m, c, inst, all, {});
    CloseMoves(t, c, Client(0));
    assert t.closers[c := Finished] == m.closers[c := Finished];
  }
}

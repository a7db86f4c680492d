/**
 What stays true of the interfaces over every sequence of events: when the original configuration can
 be recovered, and which interfaces carry a mark.
 */
module DnsRecovery {
  import opened Common
  import opened SystemDns

  datatype Event =
    | Ask(ifc: Option<int>, default: Option<int>, clear: bool, io: Io)
    | Change(ifc: Option<int>, io: Io, ioLast: Io)
    | Lease(index: int, leased: seq<Addr>)      // DHCP renews an interface's servers

  function Step(m: Manager, e: Event): Manager {
    match e
    case Ask(ifc, default, clear, io) => Asked(m, ifc, default, clear, io)
    case Change(ifc, io, ioLast) => Changed(m, ifc, io, ioLast)
    case Lease(index, leased) =>
      if index in m.ifcs then m.(ifcs := m.ifcs[index := m.ifcs[index].(leased := leased)]) else m
  }

  function Run(m: Manager, es: seq<Event>): Manager {
    if es == [] then m else Step(Run(m, es[..|es| - 1]), es[|es| - 1])
  }

  // ---- one interface

  /** An interface nobody has touched: valid and free of marker addresses. */
  ghost predicate Pristine(c: Ifc) {
    c.Valid() && NoMarks(c.fixed) && NoMarks(c.leased)
  }

  /** c is what it was (static list `fixed`, or DHCP), or a marked form of that. */
  ghost predicate Recoverable(c: Ifc, fixed: seq<Addr>) {
    && c.Valid() && NoMarks(c.leased) && NoMarks(fixed)
    && (|| c.fixed == fixed
        || c.fixed == [LOCAL] + fixed + [SET_MARK]
        || (fixed == [] && exists d :: NoMarks(d) && c.fixed == [LOCAL] + d + [DHCP_MARK]))
  }

  ghost predicate Marked(c: Ifc) {
    exists d, mark :: NoMarks(d) && IsMark(mark) && c.fixed == [LOCAL] + d + [mark]
  }

  lemma PlainIsUnmarked(c: Ifc)
    requires Pristine(c)
    ensures LastMark(InForce(c)).None? && Carried(InForce(c)) == InForce(c)
    ensures DHCP_MARK !in c.Servers()
  {
    UnmarkedOf(InForce(c));
    assert DHCP_MARK !in c.six;
  }

  /** From any recoverable configuration one restore gives the original back exactly. */
  lemma OneRestoreRecovers(c: Ifc, fixed: seq<Addr>)
    requires Recoverable(c, fixed)
    ensures Restored(c) == c.(fixed := fixed)
    ensures Recoverable(Restored(c), fixed)
  {
    if c.fixed == fixed {
      PlainIsUnmarked(c);
      SixIsIrrelevant(c);
    } else if c.fixed == [LOCAL] + fixed + [SET_MARK] {
      RestoreDecodes(c, fixed, SET_MARK);
    } else {
      var d :| NoMarks(d) && c.fixed == [LOCAL] + d + [DHCP_MARK];
      RestoreDecodes(c, d, DHCP_MARK);
    }
  }

  lemma NoDhcpMark(c: Ifc, d: seq<Addr>)
    requires c.Valid() && NoMarks(d) && c.fixed == [LOCAL] + d + [SET_MARK]
    ensures DHCP_MARK !in c.Servers()
  {
    assert DHCP_MARK !in d && DHCP_MARK !in c.six;
  }

  lemma AgainTheSame(c: Ifc, d: seq<Addr>, mark: Addr)
    requires c.Valid() && NoMarks(d) && IsMark(mark) && c.fixed == [LOCAL] + d + [mark]
    ensures Set(c, Works) == c
  {
    hide LastMark, Carried, Set, OnlyV4, Unmarked, NoMarks;
    SetShape(c, Works);
    RestoreDecodes(c, d, mark);
    if mark == SET_MARK { NoDhcpMark(c, d); }
  }

  /** A set with a working check gives the marked form, local resolver first, and a second one changes nothing. */
  lemma SetMarksOnce(c: Ifc, fixed: seq<Addr>)
    requires Recoverable(c, fixed)
    ensures Recoverable(Set(c, Works), fixed) && Marked(Set(c, Works))
    ensures Set(c, Works).Servers()[0] == LOCAL
    ensures Set(Set(c, Works), Works) == Set(c, Works)
  {
    SetShape(c, Works);
    SetKeepsIff(c, fixed, Works);
    AgainTheSame(Set(c, Works), Carried(InForce(c)), if MarksDhcp(c, Works) then DHCP_MARK else SET_MARK);
  }

  /**
   What a caller can see before the set: an unreadable registry value harms exactly an interface that had
   a static list, an error of the check exactly an unmarked DHCP interface that has leased servers.
   */
  ghost predicate Harmless(c: Ifc, fixed: seq<Addr>, check: Check) {
    match check
    case Works => true
    case Unreadable => fixed == []
    case _ => c.fixed != [] || c.leased == []
  }

  /** A set keeps the original recoverable if and only if it is harmless. */
  lemma SetKeepsIff(c: Ifc, fixed: seq<Addr>, check: Check)
    requires Recoverable(c, fixed)
    ensures Recoverable(Set(c, check), fixed) <==> Harmless(c, fixed, check)
  {
    if c.fixed == fixed {
      SetOnPlain(c, check);
    } else if c.fixed == [LOCAL] + fixed + [SET_MARK] {
      SetOnMarked(c, fixed, SET_MARK, fixed, check);
    } else {
      var d :| NoMarks(d) && c.fixed == [LOCAL] + d + [DHCP_MARK];
      SetOnMarked(c, d, DHCP_MARK, fixed, check);
    }
  }

  lemma SetOnPlain(c: Ifc, check: Check)
    requires Pristine(c)
    ensures Recoverable(Set(c, check), c.fixed) <==> Harmless(c, c.fixed, check)
  {
    SetShape(c, check);
    PlainIsUnmarked(c);
    hide Recoverable, LastMark, Carried, Set;
    MarkedForms(Set(c, check), InForce(c), c.fixed, if MarksDhcp(c, check) then DHCP_MARK else SET_MARK);
  }

  lemma SetOnMarked(c: Ifc, d: seq<Addr>, mark: Addr, fixed: seq<Addr>, check: Check)
    requires c.Valid() && NoMarks(c.leased) && NoMarks(d) && NoMarks(fixed) && IsMark(mark)
    requires c.fixed == [LOCAL] + d + [mark] && if mark == DHCP_MARK then fixed == [] else d == fixed
    ensures Recoverable(Set(c, check), fixed) <==> Harmless(c, fixed, check)
  {
    SetShape(c, check);
    RestoreDecodes(c, d, mark);
    if mark == SET_MARK { NoDhcpMark(c, d); }
    hide Recoverable, LastMark, Carried, Set;
    MarkedForms(Set(c, check), d, fixed, if MarksDhcp(c, check) then DHCP_MARK else SET_MARK);
  }

  /** Which marked forms the original can be recovered from. */
  lemma MarkedForms(t: Ifc, d: seq<Addr>, fixed: seq<Addr>, mark: Addr)
    requires t.Valid() && NoMarks(t.leased) && NoMarks(d) && NoMarks(fixed) && IsMark(mark)
    requires t.fixed == [LOCAL] + d + [mark]
    ensures Recoverable(t, fixed) <==> if mark == DHCP_MARK then fixed == [] else d == fixed
  {
    assert t.fixed[|t.fixed| - 1] == mark;
    if Recoverable(t, fixed) {
      assert t.fixed != fixed;
      if t.fixed == [LOCAL] + fixed + [SET_MARK] {
        assert ([LOCAL] + fixed + [SET_MARK])[1..|fixed| + 1] == fixed;
        assert ([LOCAL] + d + [mark])[1..|d| + 1] == d;
        assert ([LOCAL] + fixed + [SET_MARK])[|fixed| + 1] == SET_MARK;
      } else {
        var e :| NoMarks(e) && t.fixed == [LOCAL] + e + [DHCP_MARK];
        assert ([LOCAL] + e + [DHCP_MARK])[|e| + 1] == DHCP_MARK;
      }
    }
  }

  // ---- every sequence of events: recovery

  /** Every interface is recoverable to the static list (or DHCP) it had in `o`. */
  ghost predicate AllRecoverable(ifcs: map<int, Ifc>, o: map<int, Ifc>) {
    ifcs.Keys == o.Keys && forall i :: i in ifcs ==> Recoverable(ifcs[i], o[i].fixed)
  }

  /** The interface an event sets, and with which outcome, if it sets one. */
  function Sets(m: Manager, e: Event): Option<(int, Check)> {
    match e
    case Ask(ifc, default, clear, io) =>
      var target := if ifc.Some? then ifc else default;
      if target.Some? && !clear && target.value in m.ifcs && io.Done? then Some((target.value, io.check)) else None
    case Change(ifc, io, _) =>
      if ifc.Some? && m.isSet && ifc.value in m.ifcs && io.Done? then Some((ifc.value, io.check)) else None
    case Lease(_, _) => None
  }

  ghost predicate HarmlessEvent(m: Manager, o: map<int, Ifc>, e: Event) {
    Sets(m, e).Some? ==>
      var (i, check) := Sets(m, e).value; i in o && i in m.ifcs && Harmless(m.ifcs[i], o[i].fixed, check)
  }

  ghost predicate HarmlessRun(o: Manager, es: seq<Event>) {
    es != [] ==> HarmlessRun(o, es[..|es| - 1]) && HarmlessEvent(Run(o, es[..|es| - 1]), o.ifcs, es[|es| - 1])
  }

  /** What is assumed of the outside: leases are IPv4 and carry no marker address. */
  ghost predicate Proper(e: Event) {
    e.Lease? ==> NoMarks(e.leased) && forall i :: 0 <= i < |e.leased| ==> e.leased[i].V4?
  }

  lemma RestoreKeeps(ifcs: map<int, Ifc>, o: map<int, Ifc>, index: int, io: Io)
    requires AllRecoverable(ifcs, o)
    ensures AllRecoverable(RestoreAt(ifcs, index, io), o)
  {
    if index in ifcs { OneRestoreRecovers(ifcs[index], o[index].fixed); }
  }

  lemma SetAtKeepsIff(ifcs: map<int, Ifc>, o: map<int, Ifc>, index: int, io: Io)
    requires AllRecoverable(ifcs, o)
    ensures AllRecoverable(SetAt(ifcs, index, io), o) <==>
      (index in ifcs && index in o && io.Done? ==> Harmless(ifcs[index], o[index].fixed, io.check))
  {
    if index in ifcs && io.Done? {
      SetKeepsIff(ifcs[index], o[index].fixed, io.check);
      var t := SetAt(ifcs, index, io);
      assert t[index] == Set(ifcs[index], io.check) && t.Keys == ifcs.Keys;
    }
  }

  /** Restoring another interface neither mends nor harms this one. */
  lemma RestoreElsewhere(ifcs: map<int, Ifc>, o: map<int, Ifc>, index: int, io: Io, i: int)
    requires ifcs.Keys == o.Keys && i in ifcs && i != index && !Recoverable(ifcs[i], o[i].fixed)
    ensures !AllRecoverable(RestoreAt(ifcs, index, io), o)
  {
    assert RestoreAt(ifcs, index, io)[i] == ifcs[i];
  }

  lemma ChangeKeepsIff(m: Manager, o: map<int, Ifc>, i: int, io: Io, ioLast: Io)
    requires AllRecoverable(m.ifcs, o)
    ensures AllRecoverable(Changed(m, Some(i), io, ioLast).ifcs, o)
       <==> HarmlessEvent(m, o, Change(Some(i), io, ioLast))
  {
    hide Recoverable, Harmless, Set, Restored;
    var one := if m.isSet then SetAt(m.ifcs, i, io) else RestoreAt(m.ifcs, i, io);
    if m.isSet { SetAtKeepsIff(m.ifcs, o, i, io); } else { RestoreKeeps(m.ifcs, o, i, io); }
    if m.last.Some? && m.last.value != i {
      if AllRecoverable(one, o) {
        RestoreKeeps(one, o, m.last.value, ioLast);
      } else {
        assert forall j :: j in one && j != i ==> one[j] == m.ifcs[j];
        RestoreElsewhere(one, o, m.last.value, ioLast, i);
      }
    }
  }

  lemma AskKeepsIff(m: Manager, o: map<int, Ifc>, e: Event)
    requires AllRecoverable(m.ifcs, o) && e.Ask?
    ensures AllRecoverable(Step(m, e).ifcs, o) <==> HarmlessEvent(m, o, e)
  {
    hide Recoverable, Harmless, Set, Restored;
    var target := if e.ifc.Some? then e.ifc else e.default;
    if target.Some? {
      RestoreKeeps(m.ifcs, o, target.value, e.io);
      SetAtKeepsIff(m.ifcs, o, target.value, e.io);
    }
  }

  lemma LeaseKeeps(m: Manager, o: map<int, Ifc>, e: Event)
    requires AllRecoverable(m.ifcs, o) && e.Lease? && Proper(e)
    ensures AllRecoverable(Step(m, e).ifcs, o)
  {
  }

  lemma StepKeepsIff(m: Manager, o: map<int, Ifc>, e: Event)
    requires AllRecoverable(m.ifcs, o) && Proper(e)
    ensures AllRecoverable(Step(m, e).ifcs, o) <==> HarmlessEvent(m, o, e)
  {
    hide AllRecoverable, Harmless;
    match e
    case Ask(_, _, _, _) => AskKeepsIff(m, o, e);
    case Change(ifc, io, ioLast) => if ifc.Some? { ChangeKeepsIff(m, o, ifc.value, io, ioLast); }
    case Lease(_, _) => LeaseKeeps(m, o, e);
  }

  /** At every moment of the run. */
  ghost predicate AlwaysRecoverable(o: Manager, es: seq<Event>) {
    AllRecoverable(Run(o, es).ifcs, o.ifcs) && (es != [] ==> AlwaysRecoverable(o, es[..|es| - 1]))
  }

  /**
   DNS marking is always reversible, exactly: over any sequence of set, clear and interface-change events,
   OS errors and lease renewals, every interface is at every moment its original or a marked form of it if
   and only if every set was harmless where it happened. One restore then gives back the original static
   list, or DHCP.
   */
  lemma {:induction false} AlwaysReversible(o: Manager, es: seq<Event>)
    requires forall i :: i in o.ifcs ==> Pristine(o.ifcs[i])
    requires forall k :: 0 <= k < |es| ==> Proper(es[k])
    ensures HarmlessRun(o, es) <==> AlwaysRecoverable(o, es)
    ensures HarmlessRun(o, es) ==> forall i :: i in o.ifcs ==>
      i in Run(o, es).ifcs && Restored(Run(o, es).ifcs[i]).fixed == o.ifcs[i].fixed
  {
    hide AllRecoverable, HarmlessEvent, Restored, Step;
    if es == [] {
      PristineRecoverable(o);
    } else {
      var n := |es| - 1;
      assert forall k :: 0 <= k < n ==> es[..n][k] == es[k];
      AlwaysReversible(o, es[..n]);
      if AlwaysRecoverable(o, es[..n]) { StepKeepsIff(Run(o, es[..n]), o.ifcs, es[n]); }
    }
    if HarmlessRun(o, es) { RestoresAll(Run(o, es).ifcs, o.ifcs); }
  }

  lemma PristineRecoverable(o: Manager)
    requires forall i :: i in o.ifcs ==> Pristine(o.ifcs[i])
    ensures AllRecoverable(o.ifcs, o.ifcs)
  {
  }

  lemma RestoresAll(ifcs: map<int, Ifc>, o: map<int, Ifc>)
    requires AllRecoverable(ifcs, o)
    ensures forall i :: i in o ==> i in ifcs && Restored(ifcs[i]).fixed == o[i].fixed
  {
    forall i | i in o ensures i in ifcs && Restored(ifcs[i]).fixed == o[i].fixed {
      assert i in ifcs.Keys;
      OneRestoreRecovers(ifcs[i], o[i].fixed);
    }
  }

  // ---- every sequence of events: which interfaces are marked

  /** The interfaces whose static list carries a marker. */
  function MarkedOnes(ifcs: map<int, Ifc>): set<int> {
    set i | i in ifcs && LastMark(ifcs[i].fixed).Some?
  }

  ghost predicate AllValid(ifcs: map<int, Ifc>) { forall i :: i in ifcs ==> ifcs[i].Valid() }

  lemma SetMarks(c: Ifc, check: Check)
    requires c.Valid()
    ensures Set(c, check).Valid() && LastMark(Set(c, check).fixed).Some?
  {
    SetShape(c, check);
    RestoreDecodes(Set(c, check), Carried(InForce(c)), if MarksDhcp(c, check) then DHCP_MARK else SET_MARK);
  }

  /** Whatever restore writes is a valid list without markers. */
  lemma Written(v: seq<Addr>)
    requires forall i :: 0 <= i < |v| ==> v[i].V4?
    ensures var r := DropLocal(Unmarked(v)); LastMark(r).None? && forall i :: 0 <= i < |r| ==> r[i].V4?
  {
    hide Unmarked, LastMark, DropLocal;
    UnmarkedIsClean(v);
    DropLocalKeeps(Unmarked(v));
    UnmarkedOf(DropLocal(Unmarked(v)));
  }

  lemma DropLocalKeeps(u: seq<Addr>)
    requires NoMarks(u) && forall i :: 0 <= i < |u| ==> u[i].V4?
    ensures NoMarks(DropLocal(u)) && forall i :: 0 <= i < |DropLocal(u)| ==> DropLocal(u)[i].V4?
  {
  }

  lemma RestoreUnmarks(c: Ifc)
    requires c.Valid()
    ensures Restored(c).Valid() && LastMark(Restored(c).fixed).None?
  {
    SixIsIrrelevant(c);
    Written(InForce(c));
    hide LastMark, Unmarked, DropLocal;
    assert OnlyV4([]) == [] && LastMark([]).None? by { NothingMarked(); }
  }

  lemma NothingMarked()
    ensures LastMark([]).None? && OnlyV4([]) == []
  {
  }

  lemma SetAtMarks(ifcs: map<int, Ifc>, i: int, io: Io)
    requires AllValid(ifcs)
    ensures AllValid(SetAt(ifcs, i, io))
    ensures MarkedOnes(SetAt(ifcs, i, io)) == MarkedOnes(ifcs) + if i in ifcs && io.Done? then {i} else {}
  {
    if i in ifcs && io.Done? { SetMarks(ifcs[i], io.check); }
    hide Set, LastMark;
  }

  lemma RestoreAtUnmarks(ifcs: map<int, Ifc>, i: int, io: Io)
    requires AllValid(ifcs)
    ensures AllValid(RestoreAt(ifcs, i, io))
    ensures MarkedOnes(RestoreAt(ifcs, i, io)) == MarkedOnes(ifcs) - if io.Done? then {i} else {}
  {
    if i in ifcs && io.Done? { RestoreUnmarks(ifcs[i]); }
    hide Restored, LastMark;
  }

  /** The interfaces an event restores. */
  function Restores(m: Manager, e: Event): set<int> {
    match e
    case Ask(ifc, default, clear, io) =>
      var target := if ifc.Some? then ifc else default;
      if target.Some? && clear && io.Done? then {target.value} else {}
    case Change(ifc, io, ioLast) =>
      if ifc.None? then {}
      else
        (if !m.isSet && io.Done? then {ifc.value} else {})
          + if m.last.Some? && m.last.value != ifc.value && ioLast.Done? then {m.last.value} else {}
    case Lease(_, _) => {}
  }

  function SetOnes(m: Manager, e: Event): set<int> {
    if Sets(m, e).Some? then {Sets(m, e).value.0} else {}
  }

  /** What any event does to the set of marked interfaces, in any state, OS errors included. */
  lemma MarksAfter(m: Manager, e: Event)
    requires AllValid(m.ifcs) && Proper(e)
    ensures AllValid(Step(m, e).ifcs)
    ensures MarkedOnes(Step(m, e).ifcs) == MarkedOnes(m.ifcs) + SetOnes(m, e) - Restores(m, e)
    ensures SetOnes(m, e) !! Restores(m, e)
  {
    hide LastMark, SetAt, RestoreAt;
    match e
    case Ask(ifc, default, clear, io) =>
      var target := if ifc.Some? then ifc else default;
      if target.Some? {
        SetAtMarks(m.ifcs, target.value, io);
        RestoreAtUnmarks(m.ifcs, target.value, io);
      }
    case Change(ifc, io, ioLast) =>
      if ifc.Some? {
        SetAtMarks(m.ifcs, ifc.value, io);
        RestoreAtUnmarks(m.ifcs, ifc.value, io);
        var one := if m.isSet then SetAt(m.ifcs, ifc.value, io) else RestoreAt(m.ifcs, ifc.value, io);
        if m.last.Some? { RestoreAtUnmarks(one, m.last.value, ioLast); }
      }
    case Lease(_, _) =>
  }

  ghost predicate AtMostOne(s: set<int>) { forall i, j :: i in s && j in s ==> i == j }

  /** Can be looked at before the event: what is marked and not about to be restored is what is about to be set. */
  ghost predicate KeepsOne(m: Manager, e: Event) {
    Sets(m, e).Some? ==> MarkedOnes(m.ifcs) - Restores(m, e) <= SetOnes(m, e)
  }

  /** An event leaves at most one interface marked if and only if the guard holds. */
  lemma OneMarkIff(m: Manager, e: Event)
    requires AllValid(m.ifcs) && Proper(e) && AtMostOne(MarkedOnes(m.ifcs))
    ensures AtMostOne(MarkedOnes(Step(m, e).ifcs)) <==> KeepsOne(m, e)
  {
    MarksAfter(m, e);
    var before, after := MarkedOnes(m.ifcs), MarkedOnes(Step(m, e).ifcs);
    hide MarkedOnes, Step, Restores;
    if Sets(m, e).Some? {
      var i := Sets(m, e).value.0;
      assert i in after;
      if AtMostOne(after) {
        forall j | j in before && j !in Restores(m, e) ensures j in SetOnes(m, e) { assert j in after; }
      }
    }
  }

  ghost predicate KeepsOneRun(o: Manager, es: seq<Event>) {
    es != [] ==> KeepsOneRun(o, es[..|es| - 1]) && KeepsOne(Run(o, es[..|es| - 1]), es[|es| - 1])
  }

  ghost predicate NeverTwo(o: Manager, es: seq<Event>) {
    && AtMostOne(MarkedOnes(Run(o, es).ifcs))
    && (es != [] ==> NeverTwo(o, es[..|es| - 1]))
  }

  /** Two interfaces are never marked at once if and only if every event passes the guard where it happens. */
  lemma {:induction false} NeverTwoIff(o: Manager, es: seq<Event>)
    requires AllValid(o.ifcs) && MarkedOnes(o.ifcs) == {}
    requires forall k :: 0 <= k < |es| ==> Proper(es[k])
    ensures AllValid(Run(o, es).ifcs) && (NeverTwo(o, es) <==> KeepsOneRun(o, es))
  {
    hide Step, MarkedOnes, KeepsOne;
    if es != [] {
      var n := |es| - 1;
      assert forall k :: 0 <= k < n ==> es[..n][k] == es[k];
      NeverTwoIff(o, es[..n]);
      MarksAfter(Run(o, es[..n]), es[n]);
      if NeverTwo(o, es[..n]) { OneMarkIff(Run(o, es[..n]), es[n]); }
    }
  }

  /** The guard for a change of interface while DNS is set: every marked one other than the last set one is it. */
  lemma ChangeGuard(m: Manager, i: int)
    requires i in m.ifcs && m.isSet
    ensures KeepsOne(m, Change(Some(i), Done(Works), Done(Works))) <==>
      forall j :: j in MarkedOnes(m.ifcs) && m.last != Some(j) ==> j == i
    ensures m.last == Some(i) ==>
      (KeepsOne(m, Change(Some(i), Done(Works), Done(Works))) <==> MarkedOnes(m.ifcs) <= {i})
  {
    var e := Change(Some(i), Done(Works), Done(Works));
    var marked := MarkedOnes(m.ifcs);
    hide MarkedOnes;
    assert SetOnes(m, e) == {i} && Restores(m, e) == if m.last.Some? && m.last.value != i then {m.last.value} else {};
    if KeepsOne(m, e) {
      forall j | j in marked && m.last != Some(j) ensures j == i { assert j in marked - Restores(m, e); }
    }
    if forall j :: j in marked && m.last != Some(j) ==> j == i {
      forall j | j in marked - Restores(m, e) ensures j in SetOnes(m, e) { }
    }
  }

  lemma StepKeepsKeys(m: Manager, e: Event)
    ensures Step(m, e).ifcs.Keys == m.ifcs.Keys
    ensures e.Change? ==> Step(m, e).isSet == m.isSet && Step(m, e).last == m.last
  {
  }

  lemma RunThree(m: Manager, a: Event, b: Event, c: Event)
    ensures Run(m, [a, b, c]) == Step(Step(Step(m, a), b), c)
  {
    assert [a, b, c][..2] == [a, b] && [a, b][..1] == [a] && [a][..0] == [];
    assert Run(m, [a]) == Step(m, a);
    assert Run(m, [a, b]) == Step(Run(m, [a]), b);
  }

  /**
   lastIfc moves only in SetSystemDNS, so the property fails on every manager with three interfaces: set one,
   then let the default move to a second and on to a third, and the last two are both marked.
   */
  lemma TwoInterfacesMarked(o: Manager, a: int, i: int, j: int)
    requires AllValid(o.ifcs) && MarkedOnes(o.ifcs) == {} && {a, i, j} <= o.ifcs.Keys && a != i && a != j && i != j
    ensures var fine := Done(Works);
      var es := [Ask(Some(a), None, false, fine), Change(Some(i), fine, fine), Change(Some(j), fine, fine)];
      MarkedOnes(Run(o, es).ifcs) == {i, j} && !AtMostOne(MarkedOnes(Run(o, es).ifcs))
  {
    var fine := Done(Works);
    var e1, e2, e3 := Ask(Some(a), None, false, fine), Change(Some(i), fine, fine), Change(Some(j), fine, fine);
    RunThree(o, e1, e2, e3);
    var m1 := Step(o, e1);
    var m2 := Step(m1, e2);
    assert m1.isSet && m1.last == Some(a);
    StepKeepsKeys(o, e1);
    StepKeepsKeys(m1, e2);
    MarksAfter(o, e1);
    MarksAfter(m1, e2);
    MarksAfter(m2, e3);
    hide Step, MarkedOnes;
    assert MarkedOnes(m2.ifcs) == {i};
    assert i in {i, j} && j in {i, j};
  }

  // ---- what a set or a clear switches

  /** The interface a call of SetSystemDNS is about. */
  function Target(e: Event): Option<int>
    requires e.Ask?
  {
    if e.ifc.Some? then e.ifc else e.default
  }

  /** A call of SetSystemDNS that finds an interface and does not clear. */
  predicate IsSet(e: Event) { e.Ask? && !e.clear && Target(e).Some? }

  predicate IsClear(e: Event) { e.Ask? && e.clear && Target(e).Some? }

  /** Whether DNS counts as set, and on which interface last, by the calls so far. */
  function LastAsk(o: Manager, es: seq<Event>): (bool, Option<int>) {
    if es == [] then (o.isSet, o.last)
    else
      var e := es[|es| - 1];
      var (on, last) := LastAsk(o, es[..|es| - 1]);
      if IsSet(e) then (true, Target(e)) else if IsClear(e) then (false, last) else (on, last)
  }

  lemma AskStep(m: Manager, e: Event)
    ensures var t := Step(m, e);
      && t.isSet == (if IsSet(e) then true else if IsClear(e) then false else m.isSet)
      && t.last == (if IsSet(e) then Target(e) else m.last)
  {
  }

  /** In every run DNS counts as set exactly if the latest call that found an interface set it. */
  lemma {:induction false} SetAsLastAsked(o: Manager, es: seq<Event>)
    ensures (Run(o, es).isSet, Run(o, es).last) == LastAsk(o, es)
  {
    hide Step;
    if es != [] {
      SetAsLastAsked(o, es[..|es| - 1]);
      AskStep(Run(o, es[..|es| - 1]), es[|es| - 1]);
    }
  }

  /** After a clear, and until the next set, no interface change sets anything: the marked interfaces only get fewer. */
  lemma {:induction false} ClearedStaysClear(m: Manager, es: seq<Event>)
    requires AllValid(m.ifcs) && !m.isSet
    requires forall k :: 0 <= k < |es| ==> Proper(es[k]) && !IsSet(es[k])
    ensures var t := Run(m, es);
      && AllValid(t.ifcs) && !t.isSet && MarkedOnes(t.ifcs) <= MarkedOnes(m.ifcs)
  {
    hide Step, MarkedOnes, AllValid;
    if es != [] {
      var n := |es| - 1;
      assert forall k :: 0 <= k < n ==> es[..n][k] == es[k];
      ClearedStaysClear(m, es[..n]);
      MarksAfter(Run(m, es[..n]), es[n]);
      AskStep(Run(m, es[..n]), es[n]);
    }
  }
}

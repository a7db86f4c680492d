/**
 Windows system DNS (internal/boxdns/dns_manager_windows.go). Setting DNS on an interface puts the
 local resolver first and a marker address last; the marker is the only record of whether the
 interface was on DHCP or had a static list, and restoring decodes it.

 Contract for the two OS calls: SetDNS(AF_INET, list) keeps only IPv4 addresses and an empty list
 means DHCP; DNS() lists the IPv4 servers in force, then the IPv6 ones.
 */
module SystemDns {
  import opened Common

  /** An address by its numeric value. */
  datatype Addr = V4(value: nat) | V6(value: nat)

  const LOCAL: Addr := V4(0x7F01_0101)        // 127.1.1.1
  const DHCP_MARK: Addr := V4(0x7F01_0203)    // 127.1.2.3
  const SET_MARK: Addr := V4(0x7F03_0201)     // 127.3.2.1

  predicate IsMark(a: Addr) { a == DHCP_MARK || a == SET_MARK }

  /** The static IPv4 list ([] is DHCP), the servers DHCP supplies, and the IPv6 servers. */
  datatype Ifc = Ifc(fixed: seq<Addr>, leased: seq<Addr>, six: seq<Addr>) {
    predicate Valid() {
      && (forall i :: 0 <= i < |fixed| ==> fixed[i].V4?)
      && (forall i :: 0 <= i < |leased| ==> leased[i].V4?)
      && (forall i :: 0 <= i < |six| ==> six[i].V6?)
    }

    /** luid.DNS() */
    function Servers(): seq<Addr> {
      (if fixed == [] then leased else fixed) + six
    }

    /** luid.SetDNS(AF_INET, list, nil) */
    function WithDns(list: seq<Addr>): Ifc {
      this.(fixed := OnlyV4(list))
    }
  }

  function OnlyV4(list: seq<Addr>): (r: seq<Addr>)
    ensures forall i :: 0 <= i < |r| ==> r[i].V4?
  {
    if list == [] then [] else (if list[0].V4? then [list[0]] else []) + OnlyV4(list[1..])
  }

  function Unmarked(list: seq<Addr>): seq<Addr> {
    if list == [] then []
    else Unmarked(list[..|list| - 1]) + if IsMark(list[|list| - 1]) then [] else [list[|list| - 1]]
  }

  /** The marker met last, if any: both loops let a later marker overrule an earlier one. */
  function LastMark(list: seq<Addr>): Option<Addr> {
    if list == [] then None
    else if IsMark(list[|list| - 1]) then Some(list[|list| - 1])
    else LastMark(list[..|list| - 1])
  }

  function DropLocal(list: seq<Addr>): seq<Addr> {
    if list != [] && list[0] == LOCAL then list[1..] else list
  }

  /**
   How isIfcDNSDhcp goes: the adapter cannot be queried; its registry key cannot be opened, which is only
   tried after the marker scan; or the NameServer value cannot be read, which is not reported at all.
   */
  datatype Check = Works | FailsEarly | FailsLate | Unreadable

  /** isIfcDNSDhcp's answer; an error counts as "not DHCP", an unreadable value as "DHCP". */
  predicate SaysDhcp(c: Ifc, check: Check) {
    && !check.FailsEarly?
    && (DHCP_MARK in c.Servers() || (check.Works? && c.fixed == []) || check.Unreadable?)
  }

  /** restoreSystemDNS on one interface. */
  function Restored(c: Ifc): Ifc {
    var list := c.Servers();
    if LastMark(list).None? then c
    else if LastMark(list) == Some(DHCP_MARK) then c.WithDns([])
    else c.WithDns(DropLocal(Unmarked(list)))
  }

  /** setSystemDNS on one interface. */
  function Set(c: Ifc, check: Check): Ifc {
    var list := c.Servers();
    var kept := if LastMark(list).Some? then DropLocal(Unmarked(list)) else Unmarked(list);
    var dhcp := SaysDhcp(c, check) || LastMark(list) == Some(DHCP_MARK);
    c.WithDns([LOCAL] + kept + [if dhcp then DHCP_MARK else SET_MARK])
  }

  // ---- lists

  lemma {:induction false} OnlyV4Concat(a: seq<Addr>, b: seq<Addr>)
    ensures OnlyV4(a + b) == OnlyV4(a) + OnlyV4(b)
  {
    if a == [] {
      assert a + b == b;
    } else {
      assert (a + b)[1..] == a[1..] + b;
      OnlyV4Concat(a[1..], b);
    }
  }

  lemma {:induction false} OnlyV4Of(a: seq<Addr>)
    ensures (forall i :: 0 <= i < |a| ==> a[i].V4?) ==> OnlyV4(a) == a
    ensures (forall i :: 0 <= i < |a| ==> a[i].V6?) ==> OnlyV4(a) == []
  {
    if a != [] {
      OnlyV4Of(a[1..]);
      assert a == [a[0]] + a[1..];
    }
  }

  lemma {:induction false} UnmarkedConcat(a: seq<Addr>, b: seq<Addr>)
    ensures Unmarked(a + b) == Unmarked(a) + Unmarked(b)
    ensures LastMark(a + b) == if LastMark(b).Some? then LastMark(b) else LastMark(a)
  {
    if b == [] {
      assert a + b == a;
    } else {
      assert (a + b)[..|a + b| - 1] == a + b[..|b| - 1];
      UnmarkedConcat(a, b[..|b| - 1]);
    }
  }

  ghost predicate NoMarks(a: seq<Addr>) {
    forall i :: 0 <= i < |a| ==> !IsMark(a[i])
  }

  lemma {:induction false} UnmarkedOf(a: seq<Addr>)
    ensures |Unmarked(a)| <= |a|
    ensures NoMarks(a) ==> Unmarked(a) == a
    ensures NoMarks(a) <==> LastMark(a).None?
  {
    if a != [] {
      var b := a[..|a| - 1];
      UnmarkedOf(b);
      assert a == b + [a[|a| - 1]];
      assert NoMarks(a) ==> NoMarks(b);
    }
  }

  lemma {:induction false} UnmarkedIsClean(a: seq<Addr>)
    ensures NoMarks(Unmarked(a))
    ensures (forall i :: 0 <= i < |a| ==> a[i].V4?) ==> forall i :: 0 <= i < |Unmarked(a)| ==> Unmarked(a)[i].V4?
  {
    if a != [] { UnmarkedIsClean(a[..|a| - 1]); }
  }

  /** The IPv4 servers in force. */
  function InForce(c: Ifc): seq<Addr> {
    if c.fixed == [] then c.leased else c.fixed
  }

  /** What set carries over from the servers in force. */
  function Carried(list: seq<Addr>): seq<Addr> {
    if LastMark(list).Some? then DropLocal(Unmarked(list)) else list
  }

  predicate MarksDhcp(c: Ifc, check: Check) {
    SaysDhcp(c, check) || LastMark(InForce(c)) == Some(DHCP_MARK)
  }

  lemma SixFallsAway(u: seq<Addr>, six: seq<Addr>)
    requires forall i :: 0 <= i < |u| ==> u[i].V4?
    requires forall i :: 0 <= i < |six| ==> six[i].V6?
    ensures OnlyV4(u + six) == u
  {
    OnlyV4Of(six);
    OnlyV4Of(u);
    OnlyV4Concat(u, six);
  }

  lemma DropLocalConcat(u: seq<Addr>, six: seq<Addr>)
    requires forall i :: 0 <= i < |six| ==> six[i].V6?
    ensures DropLocal(u + six) == DropLocal(u) + six
  {
    if u == [] { assert u + six == six; }
  }

  /** IPv6 servers hold no marker and never reach the IPv4 list, so only the servers in force matter. */
  lemma SixIsIrrelevant(c: Ifc)
    requires c.Valid()
    ensures LastMark(c.Servers()) == LastMark(InForce(c))
    ensures OnlyV4(Unmarked(c.Servers())) == Unmarked(InForce(c))
    ensures OnlyV4(DropLocal(Unmarked(c.Servers()))) == DropLocal(Unmarked(InForce(c)))
  {
    var v := InForce(c);
    UnmarkedConcat(v, c.six);
    assert NoMarks(c.six);
    UnmarkedOf(c.six);
    UnmarkedIsClean(v);
    SixFallsAway(Unmarked(v), c.six);
    SixFallsAway(DropLocal(Unmarked(v)), c.six);
    DropLocalConcat(Unmarked(v), c.six);
  }

  lemma OnlyV4Wrapped(kept: seq<Addr>, mark: Addr)
    requires mark.V4?
    ensures OnlyV4([LOCAL] + kept + [mark]) == [LOCAL] + OnlyV4(kept) + [mark]
  {
    OnlyV4Concat([LOCAL], kept);
    OnlyV4Concat([LOCAL] + kept, [mark]);
    OnlyV4Of([LOCAL]);
    OnlyV4Of([mark]);
  }

  lemma CarriedIsClean(v: seq<Addr>)
    ensures NoMarks(Carried(v))
  {
    UnmarkedOf(v);
    UnmarkedIsClean(v);
  }

  /** Set, with the IPv6 noise gone. */
  lemma SetShape(c: Ifc, check: Check)
    requires c.Valid()
    ensures Set(c, check).Valid()
    ensures Set(c, check)
         == c.(fixed := [LOCAL] + Carried(InForce(c)) + [if MarksDhcp(c, check) then DHCP_MARK else SET_MARK])
    ensures NoMarks(Carried(InForce(c)))
  {
    SixIsIrrelevant(c);
    UnmarkedOf(InForce(c));
    CarriedIsClean(InForce(c));
    var list := c.Servers();
    var kept := if LastMark(list).Some? then DropLocal(Unmarked(list)) else Unmarked(list);
    OnlyV4Wrapped(kept, if MarksDhcp(c, check) then DHCP_MARK else SET_MARK);
  }

  /** What the marker scan sees in a marked list. */
  lemma WrappedIs(kept: seq<Addr>, mark: Addr)
    requires NoMarks(kept) && IsMark(mark)
    ensures Unmarked([LOCAL] + kept + [mark]) == [LOCAL] + kept
    ensures LastMark([LOCAL] + kept + [mark]) == Some(mark)
  {
    var list := [LOCAL] + kept;
    assert NoMarks(list);
    UnmarkedOf(list);
    assert (list + [mark])[..|list|] == list;
  }

  /** Restoring a marked interface decodes it: DHCP for the DHCP marker, the carried list otherwise. */
  lemma RestoreDecodes(c: Ifc, kept: seq<Addr>, mark: Addr)
    requires c.Valid() && NoMarks(kept) && IsMark(mark) && c.fixed == [LOCAL] + kept + [mark]
    ensures Restored(c) == c.(fixed := if mark == DHCP_MARK then [] else kept)
    ensures Carried(c.fixed) == kept && LastMark(c.fixed) == Some(mark)
  {
    SixIsIrrelevant(c);
    WrappedIs(kept, mark);
    hide Unmarked, LastMark, NoMarks;
    assert ([LOCAL] + kept)[1..] == kept;
  }

  lemma RestoreAfterSet(c: Ifc, check: Check)
    requires c.Valid()
    ensures Restored(Set(c, check))
         == c.(fixed := if MarksDhcp(c, check) then [] else Carried(InForce(c)))
  {
    SetShape(c, check);
    var mark := if MarksDhcp(c, check) then DHCP_MARK else SET_MARK;
    RestoreDecodes(Set(c, check), Carried(InForce(c)), mark);
  }

  /** A static list without markers is recognised as static, unless the registry value cannot be read. */
  lemma StaticIsSeen(c: Ifc, check: Check)
    requires c.Valid() && c.fixed != [] && NoMarks(c.fixed)
    ensures MarksDhcp(c, check) <==> check.Unreadable?
    ensures Carried(InForce(c)) == c.fixed
  {
    UnmarkedOf(c.fixed);
    assert DHCP_MARK !in c.fixed && DHCP_MARK !in c.six;
    hide LastMark, Unmarked, NoMarks;
  }

  /**
   Exactly when one restore undoes one set, for every interface and every outcome of the check: a static
   list survives if and only if it held no marker address and the registry value could be read; DHCP
   survives if and only if the check reported no error, or a DHCP marker among the leased servers was
   seen before it did, or there was nothing to carry over.
   */
  lemma SetIsReversibleIff(c: Ifc, check: Check)
    requires c.Valid()
    ensures Restored(Set(c, check)) == c <==>
      if c.fixed != [] then NoMarks(c.fixed) && !check.Unreadable?
      else
        || check.Works? || check.Unreadable? || (check.FailsLate? && DHCP_MARK in c.leased)
        || LastMark(c.leased) == Some(DHCP_MARK) || Carried(c.leased) == []
  {
    RestoreAfterSet(c, check);
    if c.fixed == [] {
      assert DHCP_MARK !in c.six;
    } else if NoMarks(c.fixed) {
      StaticIsSeen(c, check);
    } else {
      CarriedIsClean(c.fixed);
    }
  }

  /** On every interface with a static list, an unreadable registry value makes set and restore erase the list. */
  lemma UnreadableErasesList(c: Ifc)
    requires c.Valid() && c.fixed != [] && NoMarks(c.fixed)
    ensures Restored(Set(c, Unreadable)) == c.(fixed := [])
  {
    hide Restored, Set, Carried;
    RestoreAfterSet(c, Unreadable);
    StaticIsSeen(c, Unreadable);
  }

  /** The marked forms, address by address: 127.1.1.1 first, then the list, then 127.3.2.1 or, for DHCP, 127.1.2.3. */
  lemma MarkedFormIs(c: Ifc)
    requires c.Valid() && NoMarks(InForce(c))
    ensures Set(c, Works).fixed ==
      [V4(((127 * 256 + 1) * 256 + 1) * 256 + 1)] + InForce(c)
      + [if c.fixed != [] then V4(((127 * 256 + 3) * 256 + 2) * 256 + 1) else V4(((127 * 256 + 1) * 256 + 2) * 256 + 3)]
  {
    hide LastMark, Unmarked, Set, NoMarks;
    SetShape(c, Works);
    UnmarkedOf(InForce(c));
    if c.fixed != [] { StaticIsSeen(c, Works); }
  }

  // ---- the manager

  /** The package state: dnsIsSet, lastIfc and the interfaces' configurations. */
  datatype Manager = Manager(isSet: bool, last: Option<int>, ifcs: map<int, Ifc>)

  /** How the OS calls of one restore or set go: an error leaves the interface alone, except in the DHCP check. */
  datatype Io = Broken | Done(check: Check)

  function RestoreAt(ifcs: map<int, Ifc>, index: int, io: Io): map<int, Ifc> {
    if index in ifcs && !io.Broken? then ifcs[index := Restored(ifcs[index])] else ifcs
  }

  function SetAt(ifcs: map<int, Ifc>, index: int, io: Io): map<int, Ifc> {
    if index in ifcs && !io.Broken? then ifcs[index := Set(ifcs[index], io.check)] else ifcs
  }

  /** HandleSystemDNS: the default interface changed. */
  function Changed(m: Manager, ifc: Option<int>, io: Io, ioLast: Io): Manager {
    if ifc.None? then m
    else
      var one := if m.isSet then SetAt(m.ifcs, ifc.value, io) else RestoreAt(m.ifcs, ifc.value, io);
      if m.last.Some? && m.last.value != ifc.value then m.(ifcs := RestoreAt(one, m.last.value, ioLast))
      else m.(ifcs := one)
  }

  /** SetSystemDNS on an interface, or on the default one; with neither it only reports an error. */
  function Asked(m: Manager, ifc: Option<int>, default: Option<int>, clear: bool, io: Io): Manager {
    var target := if ifc.Some? then ifc else default;
    if target.None? then m
    else if clear then m.(isSet := false, ifcs := RestoreAt(m.ifcs, target.value, io))
    else Manager(true, target, SetAt(m.ifcs, target.value, io))
  }

  class DnsManager {
    var dnsIsSet: bool
    var lastIfc: Option<int>
    var ifcs: map<int, Ifc>

    constructor (ifcs: map<int, Ifc>)
      ensures View() == Manager(false, None, ifcs)
    {
      dnsIsSet, lastIfc, this.ifcs := false, None, ifcs;
    }

    function View(): Manager
      reads this
    {
      Manager(dnsIsSet, lastIfc, ifcs)
    }

    /** The marker scan both operations share: the unmarked servers, and which marker was met last. */
    static method Scan(servers: seq<Addr>) returns (kept: seq<Addr>, wasSet: bool, wasDhcp: bool)
      ensures kept == Unmarked(servers)
      ensures wasSet == LastMark(servers).Some? && wasDhcp == (LastMark(servers) == Some(DHCP_MARK))
    {
      kept, wasSet, wasDhcp := [], false, false;
      for i := 0 to |servers|
        invariant kept == Unmarked(servers[..i])
        invariant wasSet == LastMark(servers[..i]).Some? && wasDhcp == (LastMark(servers[..i]) == Some(DHCP_MARK))
      {
        assert servers[..i + 1][..i] == servers[..i];
        if servers[i] == SET_MARK || servers[i] == DHCP_MARK {
          wasSet, wasDhcp := true, servers[i] == DHCP_MARK;
        } else {
          kept := kept + [servers[i]];
        }
      }
      assert servers[..|servers|] == servers;
    }

    method RestoreOn(index: int, io: Io)
      modifies this`ifcs
      ensures ifcs == RestoreAt(old(ifcs), index, io)
    {
      if index !in ifcs || io.Broken? { return; }
      var c := ifcs[index];
      var kept, wasSet, isDhcp := Scan(c.Servers());
      if !wasSet { return; }
      if |kept| > 0 && kept[0] == LOCAL { kept := kept[1..]; }
      ifcs := ifcs[index := if isDhcp then c.WithDns([]) else c.WithDns(kept)];
    }

    method SetOn(index: int, io: Io)
      modifies this`ifcs
      ensures ifcs == SetAt(old(ifcs), index, io)
    {
      if index !in ifcs || io.Broken? { return; }
      var c := ifcs[index];
      var kept, wasSet, wasDhcp := Scan(c.Servers());
      if wasSet && |kept| > 0 && kept[0] == LOCAL { kept := kept[1..]; }
      kept := [LOCAL] + kept;
      if SaysDhcp(c, io.check) || wasDhcp {
        kept := kept + [DHCP_MARK];
      } else {
        kept := kept + [SET_MARK];
      }
      ifcs := ifcs[index := c.WithDns(kept)];
    }

    method HandleSystemDNS(ifc: Option<int>, io: Io, ioLast: Io)
      modifies this`ifcs
      ensures View() == Changed(old(View()), ifc, io, ioLast)
    {
      if ifc.Some? {
        if !dnsIsSet {
          RestoreOn(ifc.value, io);
        } else {
          SetOn(ifc.value, io);
        }
        if lastIfc.Some? && lastIfc.value != ifc.value {
          RestoreOn(lastIfc.value, ioLast);
        }
      }
    }

    method SetSystemDNS(ifc: Option<int>, default: Option<int>, clear: bool, io: Io) returns (failed: bool)
      modifies this
      ensures View() == Asked(old(View()), ifc, default, clear, io)
      ensures failed <==> ifc.None? && default.None?
    {
      var target := ifc;
      if target.None? {
        target := default;
        if target.None? { return true; }
      }
      if clear {
        dnsIsSet := false;
        RestoreOn(target.value, io);
      } else {
        dnsIsSet := true;
        lastIfc := target;
        SetOn(target.value, io);
      }
      return false;
    }
  }
}

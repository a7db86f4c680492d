/**
 remapInbounds and the listening half of StartGate (internal/xray/gate.go). JSON is abstract: a
 config is its top-level members. The OS is the set of open listeners; that no two of them share a
 host and port is the one thing assumed of it, and it may refuse any request.
 */
module GateRemap {
  import opened Common

  datatype Json =
    | Null | Bool(b: bool) | Num(r: real) | Str(s: string)
    | Arr(items: seq<Json>) | Obj(fields: map<string, Json>)

  type Members = map<string, Json>

  datatype Addr = Addr(host: string, port: int)

  datatype Pair = Pair(gate: Addr, target: Addr)

  /** Unmarshalling the inbounds into []map[string]any: null members and a null array decode as empty. */
  function DecodeInbounds(root: Members): Option<seq<Members>> {
    if "inbounds" !in root || root["inbounds"].Null? then Some([])
    else if !root["inbounds"].Arr? then None
    else DecodeAll(root["inbounds"].items)
  }

  function DecodeAll(items: seq<Json>): Option<seq<Members>> {
    if items == [] then Some([])
    else
      var last := items[|items| - 1];
      var rest := DecodeAll(items[..|items| - 1]);
      if rest.None? then None
      else if last.Null? then Some(rest.value + [map[]])
      else if last.Obj? then Some(rest.value + [last.fields])
      else None
  }

  function HostOf(inbound: Members): string {
    if "listen" in inbound && inbound["listen"].Str? && inbound["listen"].s != "" then inbound["listen"].s
    else "127.0.0.1"
  }

  predicate HasFixedPort(inbound: Members) {
    "port" in inbound && inbound["port"].Num? && inbound["port"].r > 0.0
  }

  function PortOf(inbound: Members): int
    requires HasFixedPort(inbound)
  {
    inbound["port"].r.Floor
  }

  /** The configs remapInbounds can rewrite, if the OS lets it. */
  predicate Gateable(config: Option<Members>) {
    && config.Some? && DecodeInbounds(config.value).Some?
    && var inbounds := DecodeInbounds(config.value).value;
       inbounds != [] && forall i :: 0 <= i < |inbounds| ==> HasFixedPort(inbounds[i])
  }

  /** inbound["port"] = moved */
  function Moved(inbound: Members, port: int): Json {
    Obj(inbound["port" := Num(port as real)])
  }

  // ---- what the above means, by the fields themselves

  /** The rewritten inbound has the new port and every other field as it was, and nothing else. */
  ghost predicate OnlyPortMoved(inbound: Members, item: Json, port: int) {
    && item.Obj? && item.fields.Keys == inbound.Keys + {"port"}
    && (forall k :: k in inbound && k != "port" ==> item.fields[k] == inbound[k])
    && item.fields["port"] == Num(port as real)
  }

  /** The address an inbound asks for: its port, cut to a whole number, on its listen address or on 127.0.0.1. */
  ghost predicate AsksFor(inbound: Members, a: Addr) {
    && "port" in inbound && inbound["port"].Num? && inbound["port"].r > 0.0
    && a.port as real <= inbound["port"].r < (a.port + 1) as real
    && if "listen" in inbound && inbound["listen"].Str? && inbound["listen"].s != "" then a.host == inbound["listen"].s
       else a.host == "127.0.0.1"
  }

  /** The inbounds of a config, item by item: an object's fields, or none for a null. */
  ghost predicate Lists(root: Members, inbounds: seq<Members>) {
    if "inbounds" !in root || root["inbounds"].Null? then inbounds == []
    else
      && root["inbounds"].Arr? && |inbounds| == |root["inbounds"].items|
      && forall i :: 0 <= i < |inbounds| ==> ItemIs(root["inbounds"].items[i], inbounds[i])
  }

  predicate ItemIs(item: Json, inbound: Members) {
    (item.Obj? && inbound == item.fields) || (item.Null? && inbound == map[])
  }

  lemma {:induction false} DecodesAll(items: seq<Json>, inbounds: seq<Members>)
    ensures DecodeAll(items) == Some(inbounds) <==>
      |inbounds| == |items| && forall i :: 0 <= i < |items| ==> ItemIs(items[i], inbounds[i])
  {
    if items == [] {
    } else if inbounds != [] {
      var n := |items| - 1;
      DecodesAll(items[..n], inbounds[..|inbounds| - 1]);
      assert inbounds == inbounds[..|inbounds| - 1] + [inbounds[|inbounds| - 1]];
    }
  }

  /** Decoding yields exactly the config's inbounds, or fails when there is no such list. */
  lemma DecodesExactly(root: Members, inbounds: seq<Members>)
    ensures DecodeInbounds(root) == Some(inbounds) <==> Lists(root, inbounds)
  {
    if "inbounds" in root && root["inbounds"].Arr? { DecodesAll(root["inbounds"].items, inbounds); }
  }

  /** A config can be gated exactly when it lists inbounds, at least one, each with a positive number for a port. */
  lemma GateableExactly(root: Members)
    ensures Gateable(Some(root)) <==>
      exists inbounds :: Lists(root, inbounds) && inbounds != [] && AllNumbered(inbounds)
  {
    if DecodeInbounds(root).Some? { DecodesExactly(root, DecodeInbounds(root).value); }
    if exists inbounds :: Lists(root, inbounds) && inbounds != [] && AllNumbered(inbounds) {
      var inbounds :| Lists(root, inbounds) && inbounds != [] && AllNumbered(inbounds);
      DecodesExactly(root, inbounds);
    }
  }

  ghost predicate AllNumbered(inbounds: seq<Members>) {
    forall i :: 0 <= i < |inbounds| ==>
      "port" in inbounds[i] && inbounds[i]["port"].Num? && inbounds[i]["port"].r > 0.0
  }

  class Os {
    var open: set<Addr>
    var refusals: nat      // how many requests it has turned down

    constructor (open: set<Addr>)
      ensures this.open == open && refusals == 0
    {
      this.open, refusals := open, 0;
    }

    /** net.Listen on port 0: any free port of the host, or refusal. */
    method ListenAny(host: string) returns (port: Option<int>)
      modifies this
      ensures port.None? ==> open == old(open) && refusals == old(refusals) + 1
      ensures port.Some? ==> Addr(host, port.value) !in old(open) && open == old(open) + {Addr(host, port.value)}
      ensures port.Some? ==> refusals == old(refusals)
    {
      if * {
        refusals := refusals + 1;
        return None;
      }
      if p :| 1 <= p < 65536 && Addr(host, p) !in open {
        open := open + {Addr(host, p)};
        return Some(p);
      } else {
        refusals := refusals + 1;
        return None;
      }
    }

    /** net.Listen on a given address: impossible while another listener has it, and refusable otherwise. */
    method Listen(a: Addr) returns (ok: bool)
      modifies this
      ensures !ok ==> open == old(open) && refusals == old(refusals) + 1
      ensures ok ==> a !in old(open) && open == old(open) + {a} && refusals == old(refusals)
    {
      ok := *;
      if a in open { ok := false; }
      if ok { open := open + {a}; } else { refusals := refusals + 1; }
    }

    method Close(a: Addr)
      modifies this
      ensures open == old(open) - {a} && refusals == old(refusals)
    {
      open := open - {a};
    }
  }

  function Targets(pairs: seq<Pair>): seq<Addr> {
    seq(|pairs|, i requires 0 <= i < |pairs| => pairs[i].target)
  }

  function Gates(pairs: seq<Pair>): seq<Addr> {
    seq(|pairs|, i requires 0 <= i < |pairs| => pairs[i].gate)
  }

  /** Pair i joins the address inbound i asks for to the port it was moved to, on the same host. */
  ghost predicate Joins(inbounds: seq<Members>, pairs: seq<Pair>) {
    && |pairs| <= |inbounds|
    && forall i :: 0 <= i < |pairs| ==>
         AsksFor(inbounds[i], pairs[i].gate) && pairs[i].target.host == pairs[i].gate.host
  }

  /** The rewritten config: only the ports of the inbounds differ from the original. */
  ghost predicate Rewrites(root: Members, inbounds: seq<Members>, pairs: seq<Pair>, out: Members) {
    && |pairs| == |inbounds| && out.Keys == root.Keys + {"inbounds"}
    && (forall k :: k in root && k != "inbounds" ==> out[k] == root[k])
    && out["inbounds"].Arr? && |out["inbounds"].items| == |inbounds|
    && forall i :: 0 <= i < |inbounds| ==> OnlyPortMoved(inbounds[i], out["inbounds"].items[i], pairs[i].target.port)
  }

  lemma Append(addrs: seq<Addr>, a: Addr, taken: set<Addr>)
    requires Distinct(addrs) && a !in taken && Elements(addrs) <= taken
    ensures Distinct(addrs + [a]) && Elements(addrs + [a]) == Elements(addrs) + {a}
  {
    forall i | 0 <= i < |addrs| ensures addrs[i] != a { assert addrs[i] in Elements(addrs); }
  }

  /** Closes listeners one after another, as both deferred clean-up loops do. */
  method CloseAll(os: Os, addrs: seq<Addr>, ghost before: set<Addr>)
    requires os.open == before + Elements(addrs) && before !! Elements(addrs)
    modifies os
    ensures os.open == before && os.refusals == old(os.refusals)
  {
    for i := 0 to |addrs|
      invariant os.refusals == old(os.refusals)
      invariant before <= os.open <= before + Elements(addrs)
      invariant forall j :: 0 <= j < i ==> addrs[j] !in os.open
    {
      assert addrs[i] in Elements(addrs);
      os.Close(addrs[i]);
    }
  }

  datatype Remapped = Remapped(config: Members, pairs: seq<Pair>)

  lemma MovedKeeps(inbound: Members, port: int)
    ensures OnlyPortMoved(inbound, Moved(inbound, port), port)
  {
  }

  lemma OwnAddress(inbound: Members)
    requires HasFixedPort(inbound)
    ensures AsksFor(inbound, Addr(HostOf(inbound), PortOf(inbound)))
  {
  }

  /** One pass over the inbounds, holding every probe listener open until the whole set is chosen. */
  method ChoosePorts(os: Os, inbounds: seq<Members>)
    returns (probes: seq<Addr>, pairs: seq<Pair>, patched: seq<Json>)
    modifies os
    ensures os.open == old(os.open) + Elements(probes) && old(os.open) !! Elements(probes)
    ensures Joins(inbounds, pairs) && probes == Targets(pairs) && Distinct(probes) && |patched| == |pairs|
    ensures forall i :: 0 <= i < |pairs| ==> OnlyPortMoved(inbounds[i], patched[i], pairs[i].target.port)
    ensures |pairs| < |inbounds| ==> os.refusals > old(os.refusals) || !AllNumbered(inbounds)
    ensures |pairs| == |inbounds| ==> os.refusals == old(os.refusals)
  {
    probes, pairs, patched := [], [], [];
    for i := 0 to |inbounds|
      invariant |pairs| == |patched| == i && os.refusals == old(os.refusals)
      invariant os.open == old(os.open) + Elements(probes) && old(os.open) !! Elements(probes)
      invariant Joins(inbounds, pairs) && probes == Targets(pairs) && Distinct(probes)
      invariant forall j :: 0 <= j < i ==> OnlyPortMoved(inbounds[j], patched[j], pairs[j].target.port)
    {
      hide OnlyPortMoved, AsksFor, HostOf, PortOf, Moved;
      var inbound := inbounds[i];
      var host := HostOf(inbound);
      if !HasFixedPort(inbound) { return; }
      ghost var taken := os.open;
      var moved := os.ListenAny(host);
      if moved.None? { return; }
      var probe := Addr(host, moved.value);
      Append(probes, probe, taken);
      MovedKeeps(inbound, moved.value);
      OwnAddress(inbound);
      probes := probes + [probe];
      pairs := pairs + [Pair(Addr(host, PortOf(inbound)), probe)];
      patched := patched + [Moved(inbound, moved.value)];
      assert probes == Targets(pairs);
    }
  }

  /**
   Remapping keeps the config: every top-level value except inbounds, and every inbound field except
   port, is unchanged; pair i joins the address inbound i asks for to its new port; the targets are
   pairwise distinct and were free; and every listener used on the way is released again. It fails
   only on configs that cannot be gated, which it never accepts, or when the OS turned a request down.
   */
  method RemapInbounds(os: Os, config: Option<Members>) returns (r: Option<Remapped>)
    modifies os
    ensures os.open == old(os.open)
    ensures r.None? ==> os.refusals > old(os.refusals) || !Gateable(config)
    ensures r.Some? ==> os.refusals == old(os.refusals) && IsRemapping(config, r.value)
    ensures r.Some? ==> old(os.open) !! Elements(Targets(r.value.pairs))
  {
    r := None;
    if config.None? { return; }
    var root := config.value;
    var decoded := DecodeInbounds(root);
    if decoded.None? { return; }
    var inbounds := decoded.value;
    if |inbounds| == 0 { return; }
    DecodesExactly(root, inbounds);
    var probes, pairs, patched := ChoosePorts(os, inbounds);
    CloseAll(os, probes, old(os.open));
    if |pairs| == |inbounds| {
      r := Some(Remapped(root["inbounds" := Arr(patched)], pairs));
      assert Rewrites(root, inbounds, pairs, r.value.config) by { hide OnlyPortMoved; }
    }
  }

  /** r is a rewriting of the config, one pair per inbound. */
  ghost predicate IsRemapping(config: Option<Members>, r: Remapped) {
    && config.Some?
    && exists inbounds ::
         && Lists(config.value, inbounds) && inbounds != [] && AllNumbered(inbounds)
         && Joins(inbounds, r.pairs) && Rewrites(config.value, inbounds, r.pairs, r.config)
         && Distinct(Targets(r.pairs))
  }

  /**
   The gate listens on every original address or on none: on success its config is a rewriting that passes
   the check, and the new listeners are exactly the addresses its inbounds ask for, pairwise distinct and
   previously free, each bridged to its target. On failure nothing has changed, and the config could not be
   gated, its rewriting failed the check, or the OS turned a request down.
   */
  method StartGate(os: Os, config: Option<Members>, check: Members -> bool)
    returns (gate: Option<Remapped>, ghost rejected: Option<Remapped>)
    modifies os
    ensures gate.None? ==> os.open == old(os.open)
    ensures gate.None? ==>
      || !Gateable(config) || os.refusals > old(os.refusals)
      || (rejected.Some? && IsRemapping(config, rejected.value) && !check(rejected.value.config))
    ensures gate.Some? ==>
      && IsRemapping(config, gate.value) && check(gate.value.config) && Distinct(Gates(gate.value.pairs))
      && os.open == old(os.open) + Elements(Gates(gate.value.pairs))
      && old(os.open) !! Elements(Gates(gate.value.pairs))
  {
    hide IsRemapping, Gateable;
    rejected := None;
    var r := RemapInbounds(os, config);
    if r.None? { return None, None; }
    if !check(r.value.config) { return None, r; }
    var pairs := r.value.pairs;
    var listeners: seq<Addr> := [];
    for i := 0 to |pairs|
      invariant listeners == Gates(pairs)[..i] && Distinct(listeners) && os.refusals == old(os.refusals)
      invariant os.open == old(os.open) + Elements(listeners) && old(os.open) !! Elements(listeners)
    {
      ghost var taken := os.open;
      var ok := os.Listen(pairs[i].gate);
      if !ok {
        CloseAll(os, listeners, old(os.open));
        return None, None;
      }
      Append(listeners, pairs[i].gate, taken);
      listeners := listeners + [pairs[i].gate];
    }
    assert Gates(pairs)[..|pairs|] == Gates(pairs);
    return r, None;
  }
}

/**
 prepareTestEnv and its helpers startXrayFullConfigs and closeXrayInstances (internal/rpc/testenv.go,
 internal/rpc/xray.go): resources acquired one after another behind a stack of clean-ups that is
 unwound on failure, and handed to the caller as the environment's close on success.
 */
module TestEnv {
  import opened Common
  import opened Resources

  /** One entry of the cleanups slice: an instance, the full-config instances together, or the box. */
  datatype Cleanup = CloseOne(r: Resource) | CloseMany(rs: seq<Resource>)

  function Covers(c: Cleanup): seq<Resource> {
    match c
    case CloseOne(r) => [r]
    case CloseMany(rs) => rs
  }

  /** What a stack of clean-ups closes, in the order unwinding closes it: last entry first. */
  function Unwound(cs: seq<Cleanup>): seq<Resource> {
    if cs == [] then [] else Covers(cs[|cs| - 1]) + Unwound(cs[..|cs| - 1])
  }

  datatype Request = Request(
    current: bool,                 // measure the running box instead of building one
    running: bool,                 // is there one
    xray: Option<Attempt>,         // the sidecar, if one is needed
    full: seq<Attempt>,            // the full configs
    boxUp: bool)                   // does boxmain.Create succeed

  // ---- what is acquired and what is closed, in order

  function Instances(n: nat, k: nat): seq<Resource> { seq(k, (i: nat) => Instance(n + i)) }

  predicate AllStart(configs: seq<Attempt>) { forall i :: 0 <= i < |configs| ==> configs[i].Up? }

  /** The first config whose instance does not come up, or the number of configs. */
  function FirstDown(configs: seq<Attempt>): (k: nat)
    ensures k <= |configs| && AllStart(configs[..k]) && (k < |configs| ==> !configs[k].Up?)
  {
    if configs == [] || !configs[0].Up? then 0 else 1 + FirstDown(configs[1..])
  }

  /** The instance the failed attempt created and closed itself. */
  function HalfUp(n: nat, how: Attempt): seq<Resource> {
    if how.NoPrepare? || how.NoStart? then [Instance(n)] else []
  }

  function FullAcquired(n: nat, configs: seq<Attempt>): seq<Resource> {
    var k := FirstDown(configs);
    Instances(n, k) + if k < |configs| then HalfUp(n + k, configs[k]) else []
  }

  /** The failed instance first, then the started ones in config order. */
  function FullReleased(n: nat, configs: seq<Attempt>): seq<Resource> {
    var k := FirstDown(configs);
    (if k < |configs| then HalfUp(n + k, configs[k]) else []) + Instances(n, k)
  }

  predicate SidecarUp(q: Request) { q.xray.Some? ==> q.xray.value.Up? }

  function Sidecar(n: nat, q: Request): seq<Resource> {
    if q.xray.Some? && !q.xray.value.NoCreate? then [Instance(n)] else []
  }

  predicate Builds(q: Request) { SidecarUp(q) && AllStart(q.full) && q.boxUp }

  /** Everything prepareTestEnv creates, in order, when resource n is the next. */
  function Acquired(n: nat, q: Request): seq<Resource> {
    if q.current then []
    else
      var side := Sidecar(n, q);
      if !SidecarUp(q) then side
      else
        var full := FullAcquired(n + |side|, q.full);
        side + full + if Builds(q) then [Box(n + |side| + |full|)] else []
  }

  /** Everything that is closed, in order: on the way out of a failure, or by the environment's close. */
  function Released(n: nat, q: Request): seq<Resource> {
    if q.current then []
    else
      var side := Sidecar(n, q);
      if !SidecarUp(q) then side
      else
        var full := FullReleased(n + |side|, q.full);
        (if Builds(q) then [Box(n + |side| + |full|)] else []) + full + side
  }

  /** Every step of the construction works out. */
  predicate Succeeds(q: Request) { if q.current then q.running else Builds(q) }

  ghost predicate Numbered(rs: seq<Resource>, n: nat) { forall i :: 0 <= i < |rs| ==> rs[i].n == n + i }

  /** Two sequences over the same elements without repeats. */
  ghost predicate Rearranged(a: seq<Resource>, b: seq<Resource>) {
    Distinct(a) && Distinct(b) && Elements(a) == Elements(b) && |a| == |b|
  }

  lemma NumberedDistinct(rs: seq<Resource>, n: nat)
    requires Numbered(rs, n)
    ensures Distinct(rs) && forall r :: r in Elements(rs) ==> n <= r.n < n + |rs|
  {
  }

  lemma Swap(a: seq<Resource>, b: seq<Resource>, c: seq<Resource>, d: seq<Resource>)
    requires Rearranged(a, c) && Rearranged(b, d) && Elements(a) !! Elements(b)
    ensures Rearranged(a + b, d + c)
  {
    var s := d + c;
    assert Elements(a + b) == Elements(a) + Elements(b) && Elements(s) == Elements(d) + Elements(c);
    forall i, j | 0 <= i < j < |s| ensures s[i] != s[j] {
      if i < |d| <= j { assert s[i] in Elements(d) && s[j] in Elements(c); }
    }
    var t := a + b;
    forall i, j | 0 <= i < j < |t| ensures t[i] != t[j] {
      if i < |a| <= j { assert t[i] in Elements(a) && t[j] in Elements(b); }
    }
  }

  /** Two runs of consecutive numbers, the second released before the first. */
  lemma SwapNumbered(a: seq<Resource>, b: seq<Resource>, c: seq<Resource>, d: seq<Resource>, n: nat)
    requires Numbered(a, n) && Numbered(b, n + |a|) && Rearranged(a, c) && Rearranged(b, d)
    ensures Numbered(a + b, n) && Rearranged(a + b, d + c)
  {
    hide Distinct;
    NumberedDistinct(a, n);
    NumberedDistinct(b, n + |a|);
    Swap(a, b, c, d);
  }

  lemma Alone(rs: seq<Resource>, n: nat)
    requires Numbered(rs, n)
    ensures Rearranged(rs, rs)
  {
    NumberedDistinct(rs, n);
  }

  lemma FullRearranged(n: nat, configs: seq<Attempt>)
    ensures Numbered(FullAcquired(n, configs), n) && Rearranged(FullAcquired(n, configs), FullReleased(n, configs))
  {
    hide Rearranged;
    var k := FirstDown(configs);
    var half := if k < |configs| then HalfUp(n + k, configs[k]) else [];
    Alone(Instances(n, k), n);
    Alone(half, n + k);
    SwapNumbered(Instances(n, k), half, Instances(n, k), half, n);
  }

  /** Whatever happens, exactly what was acquired is closed, each resource once. */
  lemma ReleasesEach(n: nat, q: Request)
    ensures Numbered(Acquired(n, q), n) && Rearranged(Acquired(n, q), Released(n, q))
  {
    hide Rearranged, FullAcquired, FullReleased, AllStart;
    var side := Sidecar(n, q);
    assert Numbered(side, n);
    Alone(side, n);
    if q.current {
      Alone([], n);
    } else if SidecarUp(q) {
      var m := n + |side|;
      var full, back := FullAcquired(m, q.full), FullReleased(m, q.full);
      FullRearranged(m, q.full);
      SwapNumbered(side, full, side, back, n);
      var box := if Builds(q) then [Box(m + |full|)] else [];
      Alone(box, m + |full|);
      SwapNumbered(side + full, box, back + side, box, n);
      SameLength(m, q.full);
      Regroup(box, back, side);
    }
  }

  lemma SameLength(n: nat, configs: seq<Attempt>)
    ensures |FullAcquired(n, configs)| == |FullReleased(n, configs)|
  {
  }

  /**
   All or nothing, for every request and every failure point: after a failure, or after the close of a
   successful environment, exactly what was live before is live, everything created since has been
   closed since, and nothing was closed twice.
   */
  lemma NothingIsLeft(w: World, q: Request)
    requires Accounted(w)
    ensures var n := |w.created|;
      var t := Closed(Created(w, Acquired(n, q)), Released(n, q));
      && Accounted(t) && t.live == w.live && t.created == w.created + Acquired(n, q)
      && t.closed == w.closed + Released(n, q) && Elements(Released(n, q)) == Elements(Acquired(n, q))
  {
    ReleasesEach(|w.created|, q);
    BriefKeeps(w, Acquired(|w.created|, q), Released(|w.created|, q));
  }

  /** A successful environment holds exactly what was acquired for it: sidecar, full instances, box. */
  lemma HoldsWhatWasAsked(w: World, q: Request)
    requires Accounted(w) && Succeeds(q) && !q.current
    ensures var n := |w.created|;
      var t := Created(w, Acquired(n, q));
      var side := if q.xray.Some? then [Instance(n)] else [];
      && Accounted(t) && w.live !! Elements(Acquired(n, q)) && t.live == w.live + Elements(Acquired(n, q))
      && Acquired(n, q) == side + Instances(n + |side|, |q.full|) + [Box(n + |side| + |q.full|)]
      && Released(n, q) == [Box(n + |side| + |q.full|)] + Instances(n + |side|, |q.full|) + side
  {
    ReleasesEach(|w.created|, q);
    CreatedKeeps(w, Acquired(|w.created|, q));
    assert FirstDown(q.full) == |q.full|;
  }

  /**
   Where construction stops and what is closed then, in order: a sidecar that does not come up closes only
   itself; a full config that does not come up closes itself, then the full instances before it in config
   order, then the sidecar; a box that does not come up closes all full instances in config order, then the
   sidecar.
   */
  lemma FailureCloses(n: nat, q: Request)
    requires !q.current && !Succeeds(q)
    ensures var side := if q.xray.Some? && !q.xray.value.NoCreate? then [Instance(n)] else [];
      var m := n + |side|;
      if q.xray.Some? && !q.xray.value.Up? then Released(n, q) == side
      else if forall i :: 0 <= i < |q.full| ==> q.full[i].Up? then
        !q.boxUp && Released(n, q) == Instances(m, |q.full|) + side
      else
        var k := FirstDown(q.full);
        && k < |q.full| && !q.full[k].Up? && (forall i :: 0 <= i < k ==> q.full[i].Up?)
        && Released(n, q) ==
             (if q.full[k].NoCreate? then [] else [Instance(m + k)]) + Instances(m, k) + side
  {
    var k := FirstDown(q.full);
    assert forall i :: 0 <= i < k ==> q.full[..k][i] == q.full[i];
    if AllStart(q.full) { assert k == |q.full|; }
  }

  /** Measuring the running box needs only that there is one, and acquires nothing. */
  lemma CurrentAcquiresNothing(n: nat, q: Request)
    requires q.current
    ensures (Succeeds(q) <==> q.running) && Acquired(n, q) == [] == Released(n, q)
  {
  }

  // ---- the code

  /** closeXrayInstances. */
  method CloseInstances(e: Engines, rs: seq<Resource>)
    modifies e
    ensures e.world == Closed(old(e.world), rs)
  {
    ClosedTwice(e.world, [], []);
    for i := 0 to |rs|
      invariant e.world == Closed(old(e.world), rs[..i])
    {
      e.Close(rs[i]);
      ClosedTwice(old(e.world), rs[..i], [rs[i]]);
      assert rs[..i] + [rs[i]] == rs[..i + 1];
    }
    assert rs[..|rs|] == rs;
  }

  /** One create, prepare, start sequence; an instance that was created but did not come up is closed again. */
  method StartInstance(e: Engines, how: Attempt) returns (r: Option<Resource>)
    modifies e
    ensures var n := |old(e.world).created|;
      && r == (if how.Up? then Some(Instance(n)) else None)
      && e.world == if how.Up? then Created(old(e.world), [Instance(n)])
                    else Closed(Created(old(e.world), HalfUp(n, how)), HalfUp(n, how))
  {
    CreatedTwice(e.world, [], []);
    ClosedTwice(e.world, [], []);
    if how.NoCreate? { return None; }
    var inst := Instance(|e.world.created|);
    e.Create(inst);
    if how.NoPrepare? || how.NoStart? {
      e.Close(inst);
      return None;
    }
    return Some(inst);
  }

  /** startXrayFullConfigs: all instances up in config order, or every one that was created closed again. */
  method StartFullConfigs(e: Engines, configs: seq<Attempt>) returns (started: Option<seq<Resource>>)
    modifies e
    ensures var n := |old(e.world).created|;
      var up := Created(old(e.world), FullAcquired(n, configs));
      && started == (if AllStart(configs) then Some(Instances(n, |configs|)) else None)
      && e.world == if AllStart(configs) then up else Closed(up, FullReleased(n, configs))
  {
    hide Created, Closed;
    ghost var w, n := e.world, |e.world.created|;
    var up: seq<Resource> := [];
    CreatedTwice(w, [], []);
    for i := 0 to |configs|
      invariant up == Instances(n, i) && e.world == Created(w, up) && AllStart(configs[..i])
    {
      CreatedLength(w, up);
      var inst := StartInstance(e, configs[i]);
      if inst.None? {
        DownAt(configs, i);
        CloseInstances(e, up);
        CreatedTwice(w, up, HalfUp(n + i, configs[i]));
        ClosedTwice(Created(w, FullAcquired(n, configs)), HalfUp(n + i, configs[i]), up);
        return None;
      }
      CreatedTwice(w, up, [inst.value]);
      up := up + [inst.value];
    }
    assert configs[..|configs|] == configs && FirstDown(configs) == |configs|;
    assert FullAcquired(n, configs) == up;
    return Some(up);
  }

  lemma CreatedLength(w: World, rs: seq<Resource>)
    ensures |Created(w, rs).created| == |w.created| + |rs|
  {
  }

  lemma DownAt(configs: seq<Attempt>, i: nat)
    requires i < |configs| && AllStart(configs[..i]) && !configs[i].Up?
    ensures FirstDown(configs) == i && !AllStart(configs)
  {
    if i > 0 {
      assert configs[..i][0].Up? && configs[1..][..i - 1] == configs[..i][1..];
      DownAt(configs[1..], i - 1);
    }
  }

  /** The unwind closure: every clean-up, last registered first. */
  method Unwind(e: Engines, cleanups: seq<Cleanup>)
    modifies e
    ensures e.world == Closed(old(e.world), Unwound(cleanups))
  {
    hide Closed, Unwound;
    ghost var w := e.world;
    var i := |cleanups|;
    assert cleanups[..i] == cleanups;
    ghost var done: seq<Resource> := [];
    ClosedTwice(w, [], []);
    while i > 0
      invariant 0 <= i <= |cleanups|
      invariant e.world == Closed(w, done) && done + Unwound(cleanups[..i]) == Unwound(cleanups)
    {
      i := i - 1;
      UnwoundNext(cleanups, i);
      CloseInstances(e, Covers(cleanups[i]));
      ClosedTwice(w, done, Covers(cleanups[i]));
      Regroup(done, Covers(cleanups[i]), Unwound(cleanups[..i]));
      done := done + Covers(cleanups[i]);
    }
    NothingUnwound();
    assert cleanups[..0] == [] && done + Unwound([]) == done;
  }

  lemma NothingUnwound()
    ensures Unwound([]) == []
  {
  }

  lemma UnwoundNext(cs: seq<Cleanup>, i: nat)
    requires i < |cs|
    ensures Unwound(cs[..i + 1]) == Covers(cs[i]) + Unwound(cs[..i])
  {
    assert cs[..i + 1][..i] == cs[..i];
  }

  lemma UnwoundPush(cs: seq<Cleanup>, c: Cleanup)
    ensures Unwound(cs + [c]) == Covers(c) + Unwound(cs)
  {
    assert (cs + [c])[..|cs|] == cs;
  }

  /**
   prepareTestEnv. It creates exactly Acquired, and succeeds exactly when every step does; then nothing
   has been closed and unwinding its clean-ups closes exactly Released, in that order. On failure
   exactly Released has been closed, in that order. What the two lists are to each other, and that
   nothing is left, are ReleasesEach and NothingIsLeft.
   */
  method PrepareTestEnv(e: Engines, q: Request) returns (cleanups: Option<seq<Cleanup>>)
    modifies e
    ensures cleanups.Some? <==> Succeeds(q)
    ensures q.current ==> (cleanups.Some? <==> q.running) && e.world == old(e.world)
    ensures q.current && q.running ==> cleanups == Some([])
    ensures cleanups.Some? ==> Unwound(cleanups.value) == Released(|old(e.world).created|, q)
    ensures var n := |old(e.world).created|;
      var up := Created(old(e.world), Acquired(n, q));
      e.world == if cleanups.Some? then up else Closed(up, Released(n, q))
  {
    hide Created, Closed, Unwound, FullAcquired, FullReleased, AllStart;
    ghost var w, n := e.world, |e.world.created|;
    CreatedTwice(w, [], []);
    ClosedTwice(w, [], []);
    if q.current {
      if !q.running { return None; }
      NothingUnwound();
      return Some([]);
    }
    var stack: seq<Cleanup> := [];
    NothingUnwound();
    ghost var side := Sidecar(n, q);
    if q.xray.Some? {
      var inst := StartInstance(e, q.xray.value);
      if inst.None? {
        ClosedTwice(e.world, [], []);
        Unwind(e, stack);
        return None;
      }
      UnwoundPush(stack, CloseOne(inst.value));
      stack := stack + [CloseOne(inst.value)];
    }
    assert e.world == Created(w, side) && Unwound(stack) == side;
    CreatedLength(w, side);
    cleanups := FinishTestEnv(e, q, stack, w, n);
  }

  /** The full configs and the box, with the sidecar already behind its clean-up. */
  method FinishTestEnv(e: Engines, q: Request, pushed: seq<Cleanup>, ghost w: World, ghost n: nat)
    returns (cleanups: Option<seq<Cleanup>>)
    requires !q.current && SidecarUp(q) && n == |w.created|
    requires e.world == Created(w, Sidecar(n, q)) && Unwound(pushed) == Sidecar(n, q)
    modifies e
    ensures cleanups.Some? <==> Builds(q)
    ensures cleanups.Some? ==> Unwound(cleanups.value) == Released(n, q)
    ensures var up := Created(w, Acquired(n, q));
      e.world == if cleanups.Some? then up else Closed(up, Released(n, q))
  {
    hide Created, Closed, Unwound, FullAcquired, FullReleased, AllStart;
    var stack := pushed;
    ghost var side := Sidecar(n, q);
    ghost var m := n + |side|;
    CreatedLength(w, side);
    var full := StartFullConfigs(e, q.full);
    ghost var got := side + FullAcquired(m, q.full);
    CreatedTwice(w, side, FullAcquired(m, q.full));
    if full.None? {
      ClosedTwice(Created(w, got), FullReleased(m, q.full), side);
      Unwind(e, stack);
      assert got == Acquired(n, q) && FullReleased(m, q.full) + side == Released(n, q);
      return None;
    }
    AllUpLists(m, q.full);
    UnwoundPush(stack, CloseMany(full.value));
    stack := stack + [CloseMany(full.value)];
    if !q.boxUp {
      Unwind(e, stack);
      assert got == Acquired(n, q) && full.value + side == Released(n, q);
      return None;
    }
    CreatedLength(w, got);
    var box := Box(|e.world.created|);
    e.Create(box);
    CreatedTwice(w, got, [box]);
    UnwoundPush(stack, CloseOne(box));
    Regroup([box], full.value, side);
    return Some(stack + [CloseOne(box)]);
  }

  lemma AllUpLists(n: nat, configs: seq<Attempt>)
    requires AllStart(configs)
    ensures FullAcquired(n, configs) == FullReleased(n, configs) == Instances(n, |configs|)
  {
    assert FirstDown(configs) == |configs|;
  }

  /**
   A whole test: prepare, use, close. On every path, failure included, what is closed is exactly what
   was acquired, in the stated order, and by NothingIsLeft nothing of it is live afterwards.
   */
  method UseTestEnv(e: Engines, q: Request) returns (ok: bool)
    requires Accounted(e.world)
    modifies e
    ensures ok == Succeeds(q) && Accounted(e.world) && e.world.live == old(e.world).live
    ensures var n := |old(e.world).created|;
      e.world == Closed(Created(old(e.world), Acquired(n, q)), Released(n, q))
  {
    NothingIsLeft(e.world, q);
    var cleanups := PrepareTestEnv(e, q);
    if cleanups.Some? { Unwind(e, cleanups.value); }
    ok := cleanups.Some?;
  }
}

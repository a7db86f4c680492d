/**
 The wire format of internal/rpc/dispatch.go: little-endian frames
   request   [u32 id][u16 method_len][method][u32 payload_len][payload]
   response  [u32 id][u8 status][u32 data_len][data]
 and the request parser of Serve, which pulls frames off a stream that arrives in arbitrary pieces.
 */
module Framing {
  import opened Common

  type byte = b: int | 0 <= b < 256

  const U16: nat := 0x1_0000
  const U32: nat := 0x1_0000_0000

  // ---- little-endian integers

  /** The low `width` bytes of n: a wider value is cut, as Go's integer conversions cut it. */
  function LE(n: nat, width: nat): (bs: seq<byte>)
    ensures |bs| == width
  {
    if width == 0 then [] else [n % 256] + LE(n / 256, width - 1)
  }

  function FromLE(bs: seq<byte>): nat {
    if bs == [] then 0 else bs[0] + 256 * FromLE(bs[1..])
  }

  function Pow256(width: nat): (p: nat)
    ensures p > 0
  {
    if width == 0 then 1 else 256 * Pow256(width - 1)
  }

  lemma {:induction false} FromLEBounded(bs: seq<byte>)
    ensures FromLE(bs) < Pow256(|bs|)
  {
    if bs != [] { FromLEBounded(bs[1..]); }
  }

  lemma ModSplit(n: nat, p: nat)
    requires p > 0
    ensures n % (256 * p) == n % 256 + 256 * ((n / 256) % p)
  {
    var q, r := n / 256, n % 256;
    var a, b := q / p, q % p;
    assert n == 256 * (a * p + b) + r;
    assert n == a * (256 * p) + (256 * b + r);
    assert 256 * b + r < 256 * p;
    ModUnique(n, 256 * p, a, 256 * b + r);
  }

  lemma ModUnique(n: nat, m: nat, a: nat, r: nat)
    requires m > 0 && r < m && n == a * m + r
    ensures n % m == r
  {
    var d := n / m - a;
    assert d * m == r - n % m by {
      assert n == (n / m) * m + n % m;
      assert (n / m - a) * m == (n / m) * m - a * m;
    }
    assert d >= 1 ==> d * m >= m;
    assert -d >= 1 ==> -d * m >= m;
  }

  /** Reading back what LE wrote gives the value modulo 256^width. */
  lemma {:induction false} ReadBack(n: nat, width: nat)
    ensures FromLE(LE(n, width)) == n % Pow256(width)
  {
    if width > 0 {
      ReadBack(n / 256, width - 1);
      ModSplit(n, Pow256(width - 1));
    }
  }

  /** Every byte string is the encoding of the number it reads as. */
  lemma {:induction false} WriteBack(bs: seq<byte>)
    ensures LE(FromLE(bs), |bs|) == bs
  {
    if bs != [] {
      var tail := bs[1..];
      WriteBack(tail);
      Cons(bs[0], FromLE(tail), |tail|);
      assert bs == [bs[0]] + tail;
    }
  }

  lemma Cons(b: byte, n: nat, width: nat)
    ensures LE(b + 256 * n, width + 1) == [b] + LE(n, width)
  {
    assert (b + 256 * n) % 256 == b && (b + 256 * n) / 256 == n;
  }

  lemma Widths()
    ensures Pow256(2) == U16 && Pow256(4) == U32
  {
    assert Pow256(1) == 256;
    assert Pow256(2) == 0x1_0000;
    assert Pow256(3) == 0x100_0000;
  }

  lemma ReadBackSmall(n: nat, width: nat)
    requires n < Pow256(width)
    ensures FromLE(LE(n, width)) == n
  {
    ReadBack(n, width);
  }

  // ---- request frames

  datatype Request = Request(id: nat, name: seq<byte>, payload: seq<byte>) {
    /** The fields fit their wire widths. */
    predicate Fits() {
      id < U32 && |name| < U16 && |payload| < U32
    }
  }

  function EncodeRequest(r: Request): (bs: seq<byte>)
    ensures |bs| == 10 + |r.name| + |r.payload|
  {
    LE(r.id, 4) + (LE(|r.name|, 2) + r.name) + (LE(|r.payload|, 4) + r.payload)
  }

  function EncodeAll(rs: seq<Request>): seq<byte> {
    if rs == [] then [] else EncodeRequest(rs[0]) + EncodeAll(rs[1..])
  }

  predicate StartsWith(bs: seq<byte>, e: seq<byte>) {
    |e| <= |bs| && bs[..|e|] == e
  }

  /** A length-prefixed string at the head of bs: `width` length bytes, then the string itself. */
  function Block(bs: seq<byte>, width: nat): Option<seq<byte>> {
    if |bs| < width then None
    else
      var n := FromLE(bs[..width]);
      if |bs| < width + n then None else Some(bs[width..width + n])
  }

  /** The request at the head of bs, if a whole frame is there. */
  function Frame(bs: seq<byte>): Option<Request> {
    if |bs| < 4 then None
    else match Block(bs[4..], 2)
      case None => None
      case Some(name) =>
        match Block(bs[6 + |name|..], 4)
        case None => None
        case Some(payload) => Some(Request(FromLE(bs[..4]), name, payload))
  }

  /** The requests Serve hands out when bs is everything that ever arrives. */
  function ParseAll(bs: seq<byte>): seq<Request> {
    match Frame(bs)
    case None => []
    case Some(r) => [r] + ParseAll(bs[|EncodeRequest(r)|..])
  }

  function Leftover(bs: seq<byte>): seq<byte> {
    match Frame(bs)
    case None => bs
    case Some(r) => Leftover(bs[|EncodeRequest(r)|..])
  }

  lemma PrefixConcat(bs: seq<byte>, a: seq<byte>, b: seq<byte>)
    ensures StartsWith(bs, a + b) <==> StartsWith(bs, a) && StartsWith(bs[|a|..], b)
  {
    var n := |a| + |b|;
    if n <= |bs| {
      TakeSplit(bs, |a|, n);
      DropSplit(bs, |a|, |b|);
      if bs[..n] == a + b {
        assert bs[..|a|] == bs[..n][..|a|] && bs[|a|..n] == bs[..n][|a|..];
      }
    }
  }

  lemma BlockPrefixes(bs: seq<byte>, width: nat, s: seq<byte>)
    requires Block(bs, width) == Some(s)
    ensures |s| < Pow256(width) && StartsWith(bs, LE(|s|, width) + s)
  {
    hide LE, FromLE, Pow256, StartsWith;
    var h := bs[..width];
    FromLEBounded(h);
    WriteBack(h);
    SliceStarts(bs, width, FromLE(h));
  }

  lemma SliceStarts(bs: seq<byte>, i: nat, n: nat)
    requires i + n <= |bs|
    ensures StartsWith(bs, bs[..i] + bs[i..i + n])
  {
    TakeSplit(bs, i, i + n);
  }

  lemma PrefixIsBlock(bs: seq<byte>, width: nat, s: seq<byte>)
    requires |s| < Pow256(width) && StartsWith(bs, LE(|s|, width) + s)
    ensures Block(bs, width) == Some(s)
  {
    hide LE, FromLE, Pow256;
    var h := LE(|s|, width);
    ReadBackSmall(|s|, width);
    PrefixConcat(bs, h, s);
    DropSplit(bs, width, |s|);
  }

  /** A block is found exactly when the bytes begin with its length, which fits the width, and its contents. */
  lemma BlockIsPrefixed(bs: seq<byte>, width: nat, s: seq<byte>)
    ensures Block(bs, width) == Some(s) <==> |s| < Pow256(width) && StartsWith(bs, LE(|s|, width) + s)
  {
    hide LE, FromLE, Pow256;
    if Block(bs, width) == Some(s) { BlockPrefixes(bs, width, s); }
    if |s| < Pow256(width) && StartsWith(bs, LE(|s|, width) + s) { PrefixIsBlock(bs, width, s); }
  }

  /** Likewise for a bare number. */
  lemma NumberIsPrefix(bs: seq<byte>, width: nat, n: nat)
    ensures width <= |bs| && FromLE(bs[..width]) == n <==> n < Pow256(width) && StartsWith(bs, LE(n, width))
  {
    hide LE, FromLE, Pow256;
    if width <= |bs| {
      FromLEBounded(bs[..width]);
      WriteBack(bs[..width]);
    }
    if n < Pow256(width) { ReadBackSmall(n, width); }
  }

  /** A frame is found exactly when the bytes begin with the encoding of a request that fits. */
  lemma FrameIsEncoding(bs: seq<byte>, r: Request)
    ensures Frame(bs) == Some(r) <==> r.Fits() && StartsWith(bs, EncodeRequest(r))
  {
    hide LE, FromLE, Pow256, Block;
    Widths();
    var a, b, c := LE(r.id, 4), LE(|r.name|, 2) + r.name, LE(|r.payload|, 4) + r.payload;
    PrefixConcat(bs, a + b, c);
    PrefixConcat(bs, a, b);
    NumberIsPrefix(bs, 4, r.id);
    if 4 <= |bs| {
      BlockIsPrefixed(bs[4..], 2, r.name);
      if 6 + |r.name| <= |bs| { BlockIsPrefixed(bs[6 + |r.name|..], 4, r.payload); }
    }
  }

  /** Little-endian: byte k of a number is its k-th digit to the base 256. */
  lemma {:induction false} ByteOrder(n: nat, width: nat, k: nat)
    requires k < width
    ensures LE(n, width)[k] == (n / Pow256(k)) % 256
  {
    if k > 0 {
      ByteOrder(n / 256, width - 1, k - 1);
      DivTwice(n, Pow256(k - 1));
    }
  }

  lemma DivTwice(n: nat, p: nat)
    requires p > 0
    ensures n / (256 * p) == (n / 256) / p
  {
    var q, r := n / 256, n % 256;
    var a, b := q / p, q % p;
    assert n == a * (256 * p) + (256 * b + r);
    DivUnique(n, 256 * p, a, 256 * b + r);
  }

  lemma DivUnique(n: nat, m: nat, a: nat, r: nat)
    requires m > 0 && r < m && n == a * m + r
    ensures n / m == a
  {
    ModUnique(n, m, a, r);
    var d := n / m - a;
    assert d * m == 0 by { assert n == (n / m) * m + n % m; }
    assert d >= 1 ==> d * m >= m;
    assert -d >= 1 ==> -d * m >= m;
  }

  /** Where each field of a request is. */
  lemma RequestLayout(r: Request)
    ensures var bs, n := EncodeRequest(r), |r.name|;
      && bs[..4] == LE(r.id, 4) && bs[4..6] == LE(n, 2) && bs[6..6 + n] == r.name
      && bs[6 + n..10 + n] == LE(|r.payload|, 4) && bs[10 + n..] == r.payload
  {
    hide LE;
  }

  ghost predicate AllFit(rs: seq<Request>) {
    forall i :: 0 <= i < |rs| ==> rs[i].Fits()
  }

  /** Whatever arrives is the encodings of the requests parsed, then a rest with no whole frame at its head. */
  lemma {:induction false} ParseSplits(bs: seq<byte>)
    ensures AllFit(ParseAll(bs)) && bs == EncodeAll(ParseAll(bs)) + Leftover(bs) && Frame(Leftover(bs)).None?
  {
    hide LE, FromLE, Block, Frame, EncodeRequest;
    if Frame(bs).Some? {
      var r := Frame(bs).value;
      FrameIsEncoding(bs, r);
      var tail := bs[|EncodeRequest(r)|..];
      ParseSplits(tail);
      EncodeCons(r, ParseAll(tail));
      Regroup(EncodeRequest(r), EncodeAll(ParseAll(tail)), Leftover(tail));
      assert bs == EncodeRequest(r) + tail;
    }
  }

  lemma EncodeCons(r: Request, rs: seq<Request>)
    ensures EncodeAll([r] + rs) == EncodeRequest(r) + EncodeAll(rs)
  {
    assert ([r] + rs)[1..] == rs;
  }

  lemma ParseOne(r: Request, tail: seq<byte>)
    requires r.Fits()
    ensures ParseAll(EncodeRequest(r) + tail) == [r] + ParseAll(tail)
    ensures Leftover(EncodeRequest(r) + tail) == Leftover(tail)
  {
    var bs := EncodeRequest(r) + tail;
    FrameIsEncoding(bs, r);
    assert bs[|EncodeRequest(r)|..] == tail;
  }

  /** And encodings followed by such a rest parse back to what was encoded. */
  lemma {:induction false} EncodedParses(rs: seq<Request>, rest: seq<byte>)
    requires AllFit(rs) && Frame(rest).None?
    ensures ParseAll(EncodeAll(rs) + rest) == rs && Leftover(EncodeAll(rs) + rest) == rest
  {
    if rs == [] {
      assert EncodeAll(rs) + rest == rest;
    } else {
      EncodedParses(rs[1..], rest);
      var tail := EncodeAll(rs[1..]) + rest;
      ParseOne(rs[0], tail);
      assert EncodeAll(rs) + rest == EncodeRequest(rs[0]) + tail;
      assert [rs[0]] + rs[1..] == rs;
    }
  }

  /**
   The parser is the exact inverse of the encoder: it yields rs and stops at rest exactly when the
   stream is the encodings of rs, all fitting, followed by a rest with no whole frame at its head.
   */
  lemma ParseInvertsEncode(bs: seq<byte>, rs: seq<Request>, rest: seq<byte>)
    ensures ParseAll(bs) == rs && Leftover(bs) == rest
       <==> AllFit(rs) && bs == EncodeAll(rs) + rest && Frame(rest).None?
  {
    ParseSplits(bs);
    if AllFit(rs) && Frame(rest).None? { EncodedParses(rs, rest); }
  }

  /** A frame cut short anywhere is no frame. */
  lemma CutFrameIsNone(r: Request, cut: nat)
    requires r.Fits() && cut < |EncodeRequest(r)|
    ensures Frame(EncodeRequest(r)[..cut]).None?
  {
    var t := EncodeRequest(r)[..cut];
    if Frame(t).Some? {
      var q := Frame(t).value;
      FrameIsEncoding(t, q);
      FrameIsEncoding(EncodeRequest(r), q);
      FrameIsEncoding(EncodeRequest(r), r);
      assert false;
    }
  }

  /** Round trip with a truncated tail: exactly the complete requests come out. */
  lemma RoundTrip(rs: seq<Request>, last: Request, cut: nat)
    requires AllFit(rs) && last.Fits() && cut < |EncodeRequest(last)|
    ensures ParseAll(EncodeAll(rs)) == rs
    ensures ParseAll(EncodeAll(rs) + EncodeRequest(last)[..cut]) == rs
  {
    CutFrameIsNone(last, cut);
    ParseInvertsEncode(EncodeAll(rs) + EncodeRequest(last)[..cut], rs, EncodeRequest(last)[..cut]);
    ParseInvertsEncode(EncodeAll(rs), rs, []);
    assert EncodeAll(rs) + [] == EncodeAll(rs);
  }

  // ---- response frames

  datatype Response = Response(id: nat, status: byte, data: seq<byte>)

  /** writeResponse's bytes: the length field is a uint32, so LE keeps only the length's low four bytes. */
  function EncodeResponse(r: Response): (bs: seq<byte>)
    ensures |bs| == 9 + |r.data|
  {
    LE(r.id, 4) + [r.status] + (LE(|r.data|, 4) + r.data)
  }

  /** Where each field of a response is. */
  lemma ResponseLayout(r: Response)
    ensures var bs := EncodeResponse(r);
      bs[..4] == LE(r.id, 4) && bs[4] == r.status && bs[5..9] == LE(|r.data|, 4) && bs[9..] == r.data
  {
    hide LE;
  }

  /** The peer's reading of one response. */
  function ReadResponse(bs: seq<byte>): Option<Response> {
    if |bs| < 5 then None
    else match Block(bs[5..], 4)
      case None => None
      case Some(data) => Some(Response(FromLE(bs[..4]), bs[4], data))
  }

  function ReadResponses(bs: seq<byte>): seq<Response> {
    match ReadResponse(bs)
    case None => []
    case Some(r) => [r] + ReadResponses(bs[9 + |r.data|..])
  }

  /** A response survives the wire exactly when its data length fits the u32 field. */
  lemma ResponseRoundTrip(r: Response, rest: seq<byte>)
    requires r.id < U32
    ensures ReadResponse(EncodeResponse(r) + rest) == Some(r) <==> |r.data| < U32
  {
    hide LE, FromLE, Pow256, Block;
    Widths();
    var a, b := LE(r.id, 4) + [r.status], LE(|r.data|, 4) + r.data;
    var bs := EncodeResponse(r) + rest;
    assert bs[..4] == LE(r.id, 4) && bs[4] == r.status;
    ReadBackSmall(r.id, 4);
    Regroup(a, b, rest);
    assert bs[5..] == b + rest;
    BlockIsPrefixed(bs[5..], 4, r.data);
  }

  /** Part of a response is not mistaken for a response. */
  lemma CutResponseIsNone(r: Response, cut: nat)
    requires r.id < U32 && |r.data| < U32 && cut < |EncodeResponse(r)|
    ensures ReadResponse(EncodeResponse(r)[..cut]).None?
  {
    hide LE, FromLE, Pow256;
    Widths();
    if cut >= 9 {
      var h := LE(|r.data|, 4);
      var bs := EncodeResponse(r)[..cut];
      assert bs[5..][..4] == h;
      ReadBackSmall(|r.data|, 4);
    }
  }

  // ---- the stream

  function Concat(chunks: seq<seq<byte>>): seq<byte> {
    if chunks == [] then [] else chunks[0] + Concat(chunks[1..])
  }

  /** A connection delivers its bytes in whatever pieces the network chose. */
  class Conn {
    var chunks: seq<seq<byte>>

    constructor (chunks: seq<seq<byte>>)
      ensures this.chunks == chunks
    {
      this.chunks := chunks;
    }

    function Stream(): seq<byte>
      reads this
    {
      Concat(chunks)
    }

    /** io.ReadFull: n bytes from as many reads as it takes, or failure at the end of the stream. */
    method ReadFull(n: nat) returns (ok: bool, data: seq<byte>)
      modifies this
      ensures ok <==> n <= |old(Stream())|
      ensures ok ==> data == old(Stream())[..n] && Stream() == old(Stream())[n..]
    {
      data := [];
      while |data| < n && chunks != []
        invariant |data| <= n
        invariant data + Stream() == old(Stream())
        decreases |chunks|, n - |data|
      {
        var want := n - |data|;
        var head, tail := chunks[0], chunks[1..];
        if |head| <= want {
          assert data + (head + Concat(tail)) == (data + head) + Concat(tail);
          data, chunks := data + head, tail;
        } else {
          assert head == head[..want] + head[want..];
          assert data + (head + Concat(tail)) == (data + head[..want]) + (head[want..] + Concat(tail));
          assert ([head[want..]] + tail)[1..] == tail;
          data, chunks := data + head[..want], [head[want..]] + tail;
        }
      }
      ok := |data| == n;
    }
  }

  /** A length field of `width` bytes and as many bytes as it says. */
  method ReadBlock(conn: Conn, width: nat) returns (r: Option<seq<byte>>)
    modifies conn
    ensures r == Block(old(conn.Stream()), width)
    ensures r.Some? ==> width + |r.value| <= |old(conn.Stream())|
    ensures r.Some? ==> conn.Stream() == old(conn.Stream())[width + |r.value|..]
  {
    hide FromLE;
    ghost var bs := conn.Stream();
    r := None;
    var ok, data := conn.ReadFull(width);
    if !ok { return; }
    var n := FromLE(data);
    ok, data := conn.ReadFull(n);
    if !ok { return; }
    DropSplit(bs, width, n);
    r := Some(data);
  }

  /** One turn of Serve's loop: the five reads of a request, giving up at the first that fails. */
  method ReadRequest(conn: Conn) returns (r: Option<Request>)
    modifies conn
    ensures r == Frame(old(conn.Stream()))
    ensures r.Some? ==> |EncodeRequest(r.value)| <= |old(conn.Stream())|
    ensures r.Some? ==> conn.Stream() == old(conn.Stream())[|EncodeRequest(r.value)|..]
  {
    hide FromLE, Block;
    ghost var bs := conn.Stream();
    r := None;
    var ok, id := conn.ReadFull(4);
    if !ok { return; }
    var name := ReadBlock(conn, 2);
    if name.None? { return; }
    DropSplit(bs, 4, 2 + |name.value|);
    var payload := ReadBlock(conn, 4);
    if payload.None? { return; }
    DropSplit(bs, 6 + |name.value|, 4 + |payload.value|);
    r := Some(Request(FromLE(id), name.value, payload.value));
  }

  /**
   Serve's read loop, with the requests it starts goroutines for in order. The result depends on the
   bytes alone, not on how they were cut into reads.
   */
  method Serve(conn: Conn) returns (requests: seq<Request>)
    modifies conn
    ensures requests == ParseAll(old(conn.Stream()))
  {
    requests := [];
    var r := ReadRequest(conn);
    while r.Some?
      invariant requests + (if r.Some? then [r.value] + ParseAll(conn.Stream()) else []) == ParseAll(old(conn.Stream()))
      decreases r.Some?, |conn.Stream()|
    {
      requests := requests + [r.value];
      r := ReadRequest(conn);
    }
  }
}

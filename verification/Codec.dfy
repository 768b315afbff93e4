/** The frame codec: an 8-byte header (version, encoding, kind, code, big-endian length)
    and a payload.  The payload serializers are parameters. */
module Codec {
  import opened Protocol

  type byte = x: int | 0 <= x < 256

  const HEADER_SIZE: nat := 8
  const FRAME_VERSION: byte := 1
  const WORD: nat := 0x1_0000_0000

  datatype Encoding = Json | MessagePack

  datatype FrameData<W, N> = Web(web: W) | Node(node: N)

  datatype Frame<W, N> = Frame(version: byte, encoding: Encoding, data: FrameData<W, N>)

  /** The serializers and the frame code, which decoding ignores. */
  datatype Serde<!W, !N> = Serde(
    encode: (Encoding, FrameData<W, N>) -> Option<seq<byte>>,
    decodeWeb: (Encoding, seq<byte>) -> Option<W>,
    decodeNode: (Encoding, seq<byte>) -> Option<N>,
    code: FrameData<W, N> -> byte)

  /** Decoding a payload gives back what was encoded. */
  ghost predicate RoundTrips<W(!new), N(!new)>(s: Serde<W, N>) {
    && (forall e, w :: s.encode(e, Web(w)).Some? ==> s.decodeWeb(e, s.encode(e, Web(w)).value) == Some(w))
    && (forall e, n :: s.encode(e, Node(n)).Some? ==> s.decodeNode(e, s.encode(e, Node(n)).value) == Some(n))
  }

  function EncodingCode(e: Encoding): byte {
    if e.Json? then 0 else 1
  }

  function EncodingFrom(code: byte): Option<Encoding> {
    if code == 0 then Some(Json) else if code == 1 then Some(MessagePack) else None
  }

  function ToBe32(n: nat): (bs: seq<byte>)
    ensures |bs| == 4
  {
    [n / 0x100_0000 % 256, n / 0x1_0000 % 256, n / 0x100 % 256, n % 256]
  }

  function FromBe32(b0: byte, b1: byte, b2: byte, b3: byte): (n: nat)
    ensures n < WORD
  {
    b0 * 0x100_0000 + b1 * 0x1_0000 + b2 * 0x100 + b3
  }

  /** The length field round-trips exactly for lengths that fit 32 bits. */
  lemma Be32RoundTrip(n: nat)
    ensures var bs := ToBe32(n); FromBe32(bs[0], bs[1], bs[2], bs[3]) == n % WORD
  {
    var q := n / 0x100;
    assert n == q * 0x100 + n % 0x100;
    var r := n / 0x1_0000;
    assert q / 0x100 == r;
    assert q == r * 0x100 + q % 0x100;
    var t := n / 0x100_0000;
    assert r / 0x100 == t;
    assert r == t * 0x100 + r % 0x100;
    assert t == t / 0x100 * 0x100 + t % 0x100;
    var low := (t % 0x100) * 0x100_0000 + (r % 0x100) * 0x1_0000 + (q % 0x100) * 0x100 + n % 0x100;
    assert n == (t / 0x100) * WORD + low;
    ModIs(n, t / 0x100, low);
  }

  lemma ModIs(n: nat, q: nat, r: nat)
    requires n == q * WORD + r && r < WORD
    ensures n % WORD == r
  {
  }

  datatype Target = Native64 | Wasm32

  datatype Decoded<W, N> = Ok(frame: Frame<W, N>) | Malformed | Panic

  /** `HEADER_SIZE + len` in the target's word: a 32-bit sum wraps around. */
  function PayloadEnd(target: Target, len: nat): nat {
    if target.Wasm32? then (HEADER_SIZE + len) % WORD else HEADER_SIZE + len
  }

  function DeclaredLength(data: seq<byte>): nat
    requires |data| >= HEADER_SIZE
  {
    FromBe32(data[4], data[5], data[6], data[7])
  }

  function Decode<W, N>(s: Serde<W, N>, target: Target, data: seq<byte>): Decoded<W, N> {
    if |data| < HEADER_SIZE then Malformed
    else if EncodingFrom(data[1]).None? then Malformed
    else
      var encoding := EncodingFrom(data[1]).value;
      var end := PayloadEnd(target, DeclaredLength(data));
      if |data| < end then Malformed
      else if end < HEADER_SIZE then Panic
      else Dispatch(s, target, data[0], encoding, data[2], data[HEADER_SIZE..end])
  }

  /** The wasm build knows no node frames. */
  function Dispatch<W, N>(s: Serde<W, N>, target: Target, version: byte, encoding: Encoding, kind: byte,
                          payload: seq<byte>): Decoded<W, N> {
    if kind == 0 then
      match s.decodeWeb(encoding, payload)
      case Some(w) => Ok(Frame(version, encoding, Web(w)))
      case None => Malformed
    else if kind == 1 && target.Native64? then
      match s.decodeNode(encoding, payload)
      case Some(n) => Ok(Frame(version, encoding, Node(n)))
      case None => Malformed
    else Malformed
  }

  function Kind<W, N>(d: FrameData<W, N>): byte {
    if d.Web? then 0 else 1
  }

  /** The header for a payload of `len` bytes; longer lengths are truncated to 32 bits. */
  function Header<W, N>(s: Serde<W, N>, f: Frame<W, N>, len: nat): (h: seq<byte>)
    ensures |h| == HEADER_SIZE
  {
    [FRAME_VERSION, EncodingCode(f.encoding), Kind(f.data), s.code(f.data)] + ToBe32(len)
  }

  method Encode<W, N>(s: Serde<W, N>, f: Frame<W, N>) returns (r: Option<seq<byte>>)
    ensures r.Some? <==> s.encode(f.encoding, f.data).Some?
    ensures r.Some? ==>
      var payload := s.encode(f.encoding, f.data).value;
      r.value == Header(s, f, |payload|) + payload
  {
    var payload := s.encode(f.encoding, f.data);
    if payload.None? {
      return None;
    }
    var buf: seq<byte> := [];
    buf := buf + [FRAME_VERSION];
    buf := buf + [EncodingCode(f.encoding)];
    buf := buf + [Kind(f.data)];
    buf := buf + [s.code(f.data)];
    buf := buf + ToBe32(|payload.value|);
    buf := buf + payload.value;
    return Some(buf);
  }

  lemma HeaderFields<W, N>(s: Serde<W, N>, f: Frame<W, N>, len: nat, rest: seq<byte>)
    ensures var h := Header(s, f, len) + rest;
            && h[0] == FRAME_VERSION && h[1] == EncodingCode(f.encoding) && h[2] == Kind(f.data)
            && DeclaredLength(h) == len % WORD && h[HEADER_SIZE..] == rest
  {
    Be32RoundTrip(len);
    var bs := ToBe32(len);
    var h := Header(s, f, len) + rest;
    assert h[4] == bs[0] && h[5] == bs[1] && h[6] == bs[2] && h[7] == bs[3];
  }

  /** The frames a build can decode: any below 4 GiB with 64-bit words; with 32-bit words only
      web frames, and only up to the length at which the index arithmetic wraps around. */
  predicate Fits<W, N>(target: Target, d: FrameData<W, N>, len: nat) {
    if target.Wasm32? then d.Web? && len <= WORD - 9 else len < WORD
  }

  /** Decoding an encoded frame, whatever bytes follow it, gives the frame back with the
      version byte replaced by the current version: so it gives the same frame exactly
      when that was its version. */
  lemma DecodeEncoded<W(!new), N(!new)>(s: Serde<W, N>, target: Target, f: Frame<W, N>, payload: seq<byte>,
                        tail: seq<byte>)
    requires RoundTrips(s) && s.encode(f.encoding, f.data) == Some(payload) && Fits(target, f.data, |payload|)
    ensures var d := Decode(s, target, Header(s, f, |payload|) + payload + tail);
            d == Ok(f.(version := FRAME_VERSION)) && (d == Ok(f) <==> f.version == FRAME_VERSION)
  {
    hide Header, FromBe32, ToBe32;
    var data := Header(s, f, |payload|) + payload + tail;
    assert data == Header(s, f, |payload|) + (payload + tail);
    HeaderFields(s, f, |payload|, payload + tail);
    EndFits(target, |payload|);
    assert data[HEADER_SIZE..HEADER_SIZE + |payload|] == payload;
    match f.data
    case Web(w) => assert s.encode(f.encoding, Web(w)).Some?;
    case Node(n) => assert s.encode(f.encoding, Node(n)).Some?;
  }

  lemma EndFits(target: Target, len: nat)
    requires target.Wasm32? ==> len <= WORD - 9
    ensures PayloadEnd(target, len) == HEADER_SIZE + len
  {
    ModIs(HEADER_SIZE + len, (HEADER_SIZE + len) / WORD, (HEADER_SIZE + len) % WORD);
  }

  /** Decoding looks at nothing beyond the declared payload. */
  lemma DecodeReadsPrefix<W, N>(s: Serde<W, N>, target: Target, data: seq<byte>, tail: seq<byte>)
    requires |data| >= HEADER_SIZE && |data| == HEADER_SIZE + DeclaredLength(data)
    requires target.Wasm32? ==> DeclaredLength(data) <= WORD - 9
    ensures Decode(s, target, data + tail) == Decode(s, target, data)
  {
    var whole := data + tail;
    assert DeclaredLength(whole) == DeclaredLength(data);
    EndFits(target, DeclaredLength(data));
    assert whole[HEADER_SIZE..|data|] == data[HEADER_SIZE..|data|];
  }

  /** A frame cut short anywhere is refused. */
  lemma TruncatedIsMalformed<W, N>(s: Serde<W, N>, f: Frame<W, N>, payload: seq<byte>, cut: nat)
    requires |payload| < WORD && cut < HEADER_SIZE + |payload|
    ensures Decode(s, Native64, (Header(s, f, |payload|) + payload)[..cut]) == Malformed
  {
    hide Header, FromBe32, ToBe32, Dispatch;
    var whole := Header(s, f, |payload|) + payload;
    HeaderFields(s, f, |payload|, payload);
    if cut >= HEADER_SIZE {
      assert DeclaredLength(whole[..cut]) == DeclaredLength(whole);
    }
  }

  /** With 64-bit words no input makes decoding index out of range; with 32-bit words an
      input long enough to have a header and a known encoding does so exactly when its
      declared length exceeds 2^32 - 9. */
  lemma DecodePanics<W, N>(s: Serde<W, N>, data: seq<byte>)
    ensures Decode(s, Native64, data) != Panic
    ensures |data| >= HEADER_SIZE && EncodingFrom(data[1]).Some? ==>
      (Decode(s, Wasm32, data) == Panic <==> DeclaredLength(data) > WORD - 9)
  {
    if |data| >= HEADER_SIZE {
      var len := DeclaredLength(data);
      if len > WORD - 9 {
        ModIs(HEADER_SIZE + len, 1, HEADER_SIZE + len - WORD);
      } else {
        ModIs(HEADER_SIZE + len, 0, HEADER_SIZE + len);
      }
    }
  }
}

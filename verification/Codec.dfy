/** The binary envelope of a frame: two big-endian lengths, the header bytes, the
    payload. The header codec itself is a parameter. */
module Codec {
  import opened Wire

  const MAX_HEADER: nat := 65536
  const TWO_TO_32: nat := 0x1_0000_0000

  /** A header: its type, and everything else in it. */
  datatype Header<R> = Header(kind: string, rest: R)

  datatype FrameError =
    | TypeRequired | UnexpectedPayload | PayloadTooLarge | HeaderTooLarge
    | TruncatedEnvelope | TruncatedBody | BadHeader

  datatype Result<+T> = Ok(value: T) | Err(error: FrameError)

  /** The last `k` base-256 digits of a number, most significant first. */
  function BigEndian(n: nat, k: nat): (b: seq<byte>)
    ensures |b| == k
  {
    if k == 0 then [] else BigEndian(n / 256, k - 1) + [(n % 256) as byte]
  }

  function Number(b: seq<byte>): nat {
    if b == [] then 0 else Number(b[..|b| - 1]) * 256 + b[|b| - 1] as nat
  }

  function Pow256(k: nat): nat {
    if k == 0 then 1 else 256 * Pow256(k - 1)
  }

  /** Numbers below 256^k and k bytes are in bijection. */
  lemma {:induction false} DigitsRoundTrip(n: nat, k: nat)
    requires n < Pow256(k)
    ensures Number(BigEndian(n, k)) == n
    decreases k
  {
    if k > 0 {
      DigitsRoundTrip(n / 256, k - 1);
      assert BigEndian(n, k)[..k - 1] == BigEndian(n / 256, k - 1);
    }
  }

  lemma {:induction false} NumberRoundTrip(b: seq<byte>)
    ensures Number(b) < Pow256(|b|) && BigEndian(Number(b), |b|) == b
    decreases |b|
  {
    if b != [] {
      NumberRoundTrip(b[..|b| - 1]);
      LastDigit(Number(b[..|b| - 1]), b[|b| - 1] as nat, Pow256(|b| - 1));
      assert b == b[..|b| - 1] + [b[|b| - 1]];
    }
  }

  lemma LastDigit(x: nat, d: nat, p: nat)
    requires d < 256 && x < p
    ensures (x * 256 + d) / 256 == x && (x * 256 + d) % 256 == d && x * 256 + d < 256 * p
  {
  }

  lemma FourBytes()
    ensures Pow256(4) == TWO_TO_32
  {
    assert Pow256(1) == 256 && Pow256(2) == 0x1_0000 && Pow256(3) == 0x100_0000;
  }

  function Be32(n: nat): (b: seq<byte>)
    requires n < TWO_TO_32
    ensures |b| == 4
  {
    BigEndian(n, 4)
  }

  function U32(b: seq<byte>): (n: nat)
    requires |b| == 4
    ensures n < TWO_TO_32
  {
    NumberRoundTrip(b);
    FourBytes();
    Number(b)
  }

  lemma Be32RoundTrip(n: nat)
    requires n < TWO_TO_32
    ensures U32(Be32(n)) == n
  {
    FourBytes();
    DigitsRoundTrip(n, 4);
  }

  lemma U32RoundTrip(b: seq<byte>)
    requires |b| == 4
    ensures Be32(U32(b)) == b
  {
    NumberRoundTrip(b);
  }

  // ---- the envelope ----

  /** The message that carries these header bytes and this payload; the lengths are
      cast to 32 bits. */
  function Envelope(header: seq<byte>, payload: seq<byte>): seq<byte> {
    Be32(|header| % TWO_TO_32) + Be32(|payload| % TWO_TO_32) + header + payload
  }

  function Write<R>(encode: Header<R> -> seq<byte>, h: Header<R>, payload: seq<byte>): Result<seq<byte>> {
    if h.kind == "" then Err(TypeRequired)
    else if h.kind != "data" && |payload| != 0 then Err(UnexpectedPayload)
    else if h.kind == "data" && |payload| > MAX_PAYLOAD then Err(PayloadTooLarge)
    else if |encode(h)| > MAX_HEADER then Err(HeaderTooLarge)
    else Ok(Envelope(encode(h), payload))
  }

  function Read<R>(decode: seq<byte> -> Option<Header<R>>, msg: seq<byte>): Result<(Header<R>, seq<byte>)> {
    if |msg| < 8 then Err(TruncatedEnvelope)
    else
      var headerLen, payloadLen := U32(msg[0..4]), U32(msg[4..8]);
      if headerLen > MAX_HEADER then Err(HeaderTooLarge)
      else if payloadLen > MAX_PAYLOAD then Err(PayloadTooLarge)
      else if |msg| != 8 + headerLen + payloadLen then Err(TruncatedBody)
      else
        match decode(msg[8..8 + headerLen])
        case None => Err(BadHeader)
        case Some(h) =>
          if h.kind == "" then Err(TypeRequired)
          else if h.kind != "data" && payloadLen != 0 then Err(UnexpectedPayload)
          else Ok((h, msg[8 + headerLen..]))
  }

  /** `writeFrame`: fills the message in place. */
  method WriteFrame<R>(encode: Header<R> -> seq<byte>, h: Header<R>, payload: seq<byte>) returns (r: Result<seq<byte>>)
    ensures r == Write(encode, h, payload)
  {
    if h.kind == "" {
      return Err(TypeRequired);
    }
    if h.kind != "data" && |payload| != 0 {
      return Err(UnexpectedPayload);
    }
    if h.kind == "data" && |payload| > MAX_PAYLOAD {
      return Err(PayloadTooLarge);
    }
    var header := encode(h);
    if |header| > MAX_HEADER {
      return Err(HeaderTooLarge);
    }
    var msg := new byte[8 + |header| + |payload|](_ => 0);
    PutUint32(msg, 0, |header| % TWO_TO_32);
    ghost var first := msg[..4];
    PutUint32(msg, 4, |payload| % TWO_TO_32);
    assert msg[..8] == first + msg[4..8];
    ghost var lengths := msg[..8];
    Copy(msg, 8, header);
    assert msg[..8 + |header|] == lengths + header;
    ghost var front := msg[..8 + |header|];
    Copy(msg, 8 + |header|, payload);
    assert msg[..] == front + payload;
    r := Ok(msg[..]);
  }

  /** Copies `s` over the part of `a` that starts at `at`. */
  method Copy(a: array<byte>, at: nat, s: seq<byte>)
    requires at + |s| <= a.Length
    modifies a
    ensures a[at..at + |s|] == s && a[..at] == old(a[..at]) && a[at + |s|..] == old(a[at + |s|..])
  {
    for i := 0 to |s|
      invariant a[at..at + i] == s[..i] && a[..at] == old(a[..at]) && a[at + i..] == old(a[at + i..])
    {
      a[at + i] := s[i];
      assert a[at..at + i + 1] == a[at..at + i] + [s[i]];
      assert a[at + i + 1..] == a[at + i..][1..];
    }
  }

  method PutUint32(a: array<byte>, at: nat, n: nat)
    requires at + 4 <= a.Length && n < TWO_TO_32
    modifies a
    ensures a[at..at + 4] == Be32(n) && a[..at] == old(a[..at]) && a[at + 4..] == old(a[at + 4..])
  {
    Copy(a, at, Be32(n));
  }

  /** `readFrame`, on a message that was received. */
  method ReadFrame<R>(decode: seq<byte> -> Option<Header<R>>, msg: seq<byte>)
      returns (r: Result<(Header<R>, seq<byte>)>)
    ensures r == Read(decode, msg)
  {
    if |msg| < 8 {
      return Err(TruncatedEnvelope);
    }
    var headerLen, payloadLen := U32(msg[0..4]), U32(msg[4..8]);
    if headerLen > MAX_HEADER {
      return Err(HeaderTooLarge);
    }
    if payloadLen > MAX_PAYLOAD {
      return Err(PayloadTooLarge);
    }
    if |msg| != 8 + headerLen + payloadLen {
      return Err(TruncatedBody);
    }
    var h := decode(msg[8..8 + headerLen]);
    if h.None? {
      return Err(BadHeader);
    }
    if h.value.kind == "" {
      return Err(TypeRequired);
    }
    var payload := msg[8 + headerLen..];
    if h.value.kind != "data" && |payload| != 0 {
      return Err(UnexpectedPayload);
    }
    r := Ok((h.value, payload));
  }

  // ---- what the format promises ----

  ghost predicate WithinLimits(header: seq<byte>, payload: seq<byte>) {
    |header| <= MAX_HEADER && |payload| <= MAX_PAYLOAD
  }

  lemma EnvelopeParts(header: seq<byte>, payload: seq<byte>)
    requires WithinLimits(header, payload)
    ensures var m := Envelope(header, payload);
            && |m| == 8 + |header| + |payload|
            && U32(m[0..4]) == |header| && U32(m[4..8]) == |payload|
            && m[8..8 + |header|] == header && m[8 + |header|..] == payload
  {
    assert |header| % TWO_TO_32 == |header| && |payload| % TWO_TO_32 == |payload|;
    Be32RoundTrip(|header|);
    Be32RoundTrip(|payload|);
    var m := Envelope(header, payload);
    assert m[0..4] == Be32(|header|) && m[4..8] == Be32(|payload|);
  }

  /** The number that four bytes make, most significant first. */
  function Word(a: byte, b: byte, c: byte, d: byte): nat {
    a as nat * 16777216 + b as nat * 65536 + c as nat * 256 + d as nat
  }

  lemma MostSignificantFirst(b: seq<byte>)
    requires |b| == 4
    ensures U32(b) == Word(b[0], b[1], b[2], b[3])
  {
    assert b[..3][..2] == b[..2] && b[..2][..1] == b[..1] && b[..1][..0] == [];
    assert Number(b[..1]) == b[0] as nat && Number(b[..2]) == Number(b[..1]) * 256 + b[1] as nat;
    assert Number(b[..3]) == Number(b[..2]) * 256 + b[2] as nat && Number(b) == Number(b[..3]) * 256 + b[3] as nat;
  }

  /** What is written, byte by byte; and what is refused, with which error. */
  lemma WritesExactly<R>(encode: Header<R> -> seq<byte>, h: Header<R>, payload: seq<byte>)
    ensures var r, header := Write(encode, h, payload), encode(h);
            if h.kind == "" then r == Err(TypeRequired)
            else if h.kind != "data" && payload != [] then r == Err(UnexpectedPayload)
            else if |payload| > 1048576 then r == Err(PayloadTooLarge)
            else if |header| > 65536 then r == Err(HeaderTooLarge)
            else
              && r.Ok? && |r.value| == 8 + |header| + |payload|
              && Word(r.value[0], r.value[1], r.value[2], r.value[3]) == |header|
              && Word(r.value[4], r.value[5], r.value[6], r.value[7]) == |payload|
              && r.value[8..8 + |header|] == header && r.value[8 + |header|..] == payload
  {
    var r := Write(encode, h, payload);
    if r.Ok? {
      EnvelopeParts(encode(h), payload);
      MostSignificantFirst(r.value[0..4]);
      MostSignificantFirst(r.value[4..8]);
    }
  }

  /** What is read, and what is refused, with which error. */
  lemma ReadsExactly<R>(decode: seq<byte> -> Option<Header<R>>, msg: seq<byte>)
    ensures var r := Read(decode, msg);
            if |msg| < 8 then r == Err(TruncatedEnvelope)
            else
              var k := Word(msg[0], msg[1], msg[2], msg[3]);
              var l := Word(msg[4], msg[5], msg[6], msg[7]);
              if k > 65536 then r == Err(HeaderTooLarge)
              else if l > 1048576 then r == Err(PayloadTooLarge)
              else if |msg| != 8 + k + l then r == Err(TruncatedBody)
              else
                var h := decode(msg[8..8 + k]);
                if h.None? then r == Err(BadHeader)
                else if h.value.kind == "" then r == Err(TypeRequired)
                else if h.value.kind != "data" && l != 0 then r == Err(UnexpectedPayload)
                else r == Ok((h.value, msg[8 + k..]))
  {
    if |msg| >= 8 {
      MostSignificantFirst(msg[0..4]);
      MostSignificantFirst(msg[4..8]);
    }
  }

  /** The two lengths make the split of a message unique. */
  lemma EnvelopeIsInjective(h1: seq<byte>, p1: seq<byte>, h2: seq<byte>, p2: seq<byte>)
    requires WithinLimits(h1, p1) && WithinLimits(h2, p2) && Envelope(h1, p1) == Envelope(h2, p2)
    ensures h1 == h2 && p1 == p2
  {
    EnvelopeParts(h1, p1);
    EnvelopeParts(h2, p2);
  }

  /** Whatever `writeFrame` produces, `readFrame` accepts and takes apart again,
      given a header codec that inverts itself on this header. */
  lemma RoundTrip<R>(encode: Header<R> -> seq<byte>, decode: seq<byte> -> Option<Header<R>>, h: Header<R>,
                     payload: seq<byte>)
    requires Write(encode, h, payload).Ok? && decode(encode(h)) == Some(h)
    ensures Read(decode, Write(encode, h, payload).value) == Ok((h, payload))
  {
    EnvelopeParts(encode(h), payload);
  }

  /** What is accepted: exactly the envelopes within the limits of a decodable
      typed header, with a payload only on data frames. */
  lemma ReadAcceptsExactly<R>(decode: seq<byte> -> Option<Header<R>>, msg: seq<byte>, h: Header<R>, payload: seq<byte>)
    ensures Read(decode, msg) == Ok((h, payload))
            <==> exists header ::
                   && |header| <= 65536 && |payload| <= 1048576 && msg == Envelope(header, payload)
                   && decode(header) == Some(h) && h.kind != "" && (h.kind == "data" || payload == [])
  {
    if Read(decode, msg) == Ok((h, payload)) {
      var header := AcceptedHeader(decode, msg, h, payload);
    }
    forall header | WithinLimits(header, payload) && msg == Envelope(header, payload) && decode(header) == Some(h)
                    && h.kind != "" && (h.kind == "data" || payload == [])
      ensures Read(decode, msg) == Ok((h, payload))
    {
      EnvelopeParts(header, payload);
    }
  }

  lemma AcceptedHeader<R>(decode: seq<byte> -> Option<Header<R>>, msg: seq<byte>, h: Header<R>, payload: seq<byte>)
      returns (header: seq<byte>)
    requires Read(decode, msg) == Ok((h, payload))
    ensures WithinLimits(header, payload) && msg == Envelope(header, payload)
    ensures header == msg[8..|msg| - |payload|] && decode(header) == Some(h) && h.kind != ""
            && (h.kind == "data" || payload == [])
  {
    header := msg[8..8 + U32(msg[0..4])];
    SplitsBack(msg);
  }

  /** A message whose lengths add up is the envelope of its two parts. */
  lemma SplitsBack(msg: seq<byte>)
    requires |msg| >= 8 && |msg| == 8 + U32(msg[0..4]) + U32(msg[4..8])
    ensures var h := U32(msg[0..4]); msg == Envelope(msg[8..8 + h], msg[8 + h..])
  {
    var h, p := U32(msg[0..4]), U32(msg[4..8]);
    U32RoundTrip(msg[0..4]);
    U32RoundTrip(msg[4..8]);
    assert h % TWO_TO_32 == h && p % TWO_TO_32 == p;
    assert msg == msg[0..4] + msg[4..8] + msg[8..8 + h] + msg[8 + h..];
  }

  /** An accepted message can be written again unless the codec's own bytes for its
      header are too many, and then unchanged exactly if those are its header bytes. */
  lemma RewriteIsIdentity<R>(encode: Header<R> -> seq<byte>, decode: seq<byte> -> Option<Header<R>>, msg: seq<byte>,
                             h: Header<R>, payload: seq<byte>)
    requires Read(decode, msg) == Ok((h, payload))
    ensures 8 + |payload| <= |msg|
    ensures Write(encode, h, payload).Ok? <==> |encode(h)| <= MAX_HEADER
    ensures |encode(h)| > MAX_HEADER ==> Write(encode, h, payload) == Err(HeaderTooLarge)
    ensures Write(encode, h, payload) == Ok(msg) <==> encode(h) == msg[8..|msg| - |payload|]
  {
    var header := AcceptedHeader(decode, msg, h, payload);
    if |encode(h)| <= MAX_HEADER {
      EnvelopeParts(encode(h), payload);
    }
  }

  /** The accepted messages are prefix-free: none is a proper beginning of another. */
  lemma AcceptedIsPrefixFree<R>(decode: seq<byte> -> Option<Header<R>>, msg: seq<byte>, longer: seq<byte>)
    requires Read(decode, msg).Ok? && msg < longer
    ensures Read(decode, longer) == Err(TruncatedBody)
  {
    assert longer[..|msg|] == msg;
    assert longer[0..4] == msg[0..4] && longer[4..8] == msg[4..8];
  }
}

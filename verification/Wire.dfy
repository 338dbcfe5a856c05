/** Framing of one client payload as one tunnel datagram: a 4-byte big-endian
    flow identifier, then the payload unchanged. */
module Wire {
  import opened Common

  const HEADER_LEN: nat := 4

  type FlowId = U32

  datatype DecodeError = Malformed

  datatype Decoded = Decoded(flow: FlowId, payload: seq<Byte>)

  function BigEndian(n: U32): (b: seq<Byte>)
    ensures |b| == HEADER_LEN
  {
    [n / 0x100_0000, n / 0x1_0000 % 256, n / 256 % 256, n % 256]
  }

  function FromBigEndian(b0: Byte, b1: Byte, b2: Byte, b3: Byte): U32 {
    b0 * 0x100_0000 + b1 * 0x1_0000 + b2 * 256 + b3
  }

  /** The datagram that carries `payload` for `flow`. */
  function Frame(flow: FlowId, payload: seq<Byte>): seq<Byte> {
    BigEndian(flow) + payload
  }

  function Decode(datagram: seq<Byte>): Result<Decoded, DecodeError> {
    if |datagram| < HEADER_LEN then Err(Malformed)
    else
      Ok(Decoded(FromBigEndian(datagram[0], datagram[1], datagram[2], datagram[3]), datagram[HEADER_LEN..]))
  }

  /** Largest payload a connection can carry, `None` when it carries none. */
  function PayloadLimit(maxDatagram: Option<nat>): Option<nat> {
    match maxDatagram
    case None => None
    case Some(max) => if max <= HEADER_LEN then None else Some(max - HEADER_LEN)
  }

  /** The buffer grows by the header, then by the payload. */
  method Encode(flow: FlowId, payload: seq<Byte>) returns (out: seq<Byte>)
    ensures out == Frame(flow, payload)
    ensures Decode(out) == Ok(Decoded(flow, payload))
  {
    out := [];
    out := out + BigEndian(flow);
    out := out + payload;
    DecodeInvertsFrame(flow, payload);
  }

  lemma BigEndianRoundTrip(n: U32)
    ensures var b := BigEndian(n); FromBigEndian(b[0], b[1], b[2], b[3]) == n
  {
    assert n / 0x1_0000 == n / 256 / 256;
    assert n / 0x100_0000 == n / 0x1_0000 / 256;
  }

  lemma BigEndianOnto(b0: Byte, b1: Byte, b2: Byte, b3: Byte)
    ensures BigEndian(FromBigEndian(b0, b1, b2, b3)) == [b0, b1, b2, b3]
  {
    var n := FromBigEndian(b0, b1, b2, b3);
    assert n / 256 == b0 * 0x1_0000 + b1 * 256 + b2;
    assert n / 0x1_0000 == b0 * 256 + b1;
    assert n / 0x100_0000 == b0;
  }

  lemma DecodeInvertsFrame(flow: FlowId, payload: seq<Byte>)
    ensures Decode(Frame(flow, payload)) == Ok(Decoded(flow, payload))
  {
    BigEndianRoundTrip(flow);
    assert Frame(flow, payload)[HEADER_LEN..] == payload;
  }

  /** Decoding succeeds on exactly the frames, and recovers the one pair that
      frames to that datagram: nothing is forged and nothing is ambiguous. */
  lemma DecodeIsExactInverse(datagram: seq<Byte>, flow: FlowId, payload: seq<Byte>)
    ensures Decode(datagram) == Ok(Decoded(flow, payload)) <==> datagram == Frame(flow, payload)
    ensures Decode(datagram).Err? <==> forall f: FlowId, p: seq<Byte> :: datagram != Frame(f, p)
  {
    DecodeInvertsFrame(flow, payload);
    if |datagram| >= HEADER_LEN {
      var d := Decode(datagram).value;
      BigEndianOnto(datagram[0], datagram[1], datagram[2], datagram[3]);
      assert datagram == datagram[..HEADER_LEN] + datagram[HEADER_LEN..];
      assert datagram == Frame(d.flow, d.payload);
    }
  }

  /** A limit is withheld exactly when no non-empty payload would fit, and
      otherwise separates the payloads whose frame fits from those that do not. */
  lemma PayloadLimitIsExact(maxDatagram: Option<nat>)
    ensures PayloadLimit(maxDatagram).None? <==>
            maxDatagram.None? || forall f: FlowId, p: seq<Byte> | p != [] :: |Frame(f, p)| > maxDatagram.value
    ensures PayloadLimit(maxDatagram).Some? ==>
              forall f: FlowId, p: seq<Byte> ::
                |p| <= PayloadLimit(maxDatagram).value <==> |Frame(f, p)| <= maxDatagram.value
  {
    if maxDatagram.Some? && maxDatagram.value > HEADER_LEN {
      var one: seq<Byte> := [0];
      assert |Frame(0, one)| <= maxDatagram.value;
    }
  }
}

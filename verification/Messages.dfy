/** Control messages, their bincode form, and their framing on a byte stream
    (crates/core/src/protocol.rs, crates/core/src/message.rs). */
module Messages {
  import opened Common

  const MAX_CONTROL_MSG_BYTES: nat := 64 * 1024

  datatype Protocol = Tcp | Udp

  /** A string is its UTF-8 bytes. */
  datatype ControlMessage =
    | Register(protocol: Protocol, localPort: u16, token: Token, recoveryId: Token)
    | TunnelReady(publicPort: u16)
    | NewConnection(streamId: u64)
    | Error(message: seq<byte>)
    | RotateIdentity(oldToken: Token, newToken: Token)
    | IdentityRotated(claimPort: Option<u16>)
    | RecoverIdentity(recoverySecret: Token, newToken: Token)
    | IdentityRecovered(publicPort: u16)

  // ---- UTF-8 ----

  predicate Continuation(b: byte) {
    0x80 <= b <= 0xBF
  }

  /** The length of the well-formed character at the front, or 0. */
  function CharLength(s: seq<byte>): nat {
    if s == [] then 0
    else if s[0] <= 0x7F then 1
    else if 0xC2 <= s[0] <= 0xDF && |s| >= 2 && Continuation(s[1]) then 2
    else if |s| >= 3 && Continuation(s[1]) && Continuation(s[2])
            && (   (s[0] == 0xE0 && 0xA0 <= s[1]) || 0xE1 <= s[0] <= 0xEC
                || (s[0] == 0xED && s[1] <= 0x9F) || 0xEE <= s[0] <= 0xEF) then 3
    else if |s| >= 4 && Continuation(s[1]) && Continuation(s[2]) && Continuation(s[3])
            && ((s[0] == 0xF0 && 0x90 <= s[1]) || 0xF1 <= s[0] <= 0xF3 || (s[0] == 0xF4 && s[1] <= 0x8F)) then 4
    else 0
  }

  predicate IsUtf8(s: seq<byte>) {
    s == [] || (0 < CharLength(s) <= |s| && IsUtf8(s[CharLength(s)..]))
  }

  /** A message the program can hold: its string is a string, and its length a `u64`. */
  predicate WellFormed(m: ControlMessage) {
    m.Error? ==> IsUtf8(m.message) && |m.message| <= U64_MAX
  }

  // ---- Fixed-width integers ----

  function LittleEndian(n: nat, width: nat): (s: seq<byte>)
    ensures |s| == width
    decreases width, n
  {
    if width == 0 then [] else [n % 0x100] + LittleEndian(n / 0x100, width - 1)
  }

  function FromLittleEndian(s: seq<byte>): nat {
    if s == [] then 0 else s[0] + 0x100 * FromLittleEndian(s[1..])
  }

  function Power256(width: nat): nat {
    if width == 0 then 1 else 0x100 * Power256(width - 1)
  }

  lemma {:induction false} LittleEndianRoundTrip(n: nat, width: nat)
    requires n < Power256(width)
    ensures FromLittleEndian(LittleEndian(n, width)) == n
  {
    if width > 0 {
      LittleEndianRoundTrip(n / 0x100, width - 1);
    }
  }

  lemma Powers()
    ensures Power256(2) == 0x1_0000 && Power256(4) == 0x1_0000_0000 && Power256(8) == U64_MAX + 1
  {
    assert Power256(2) == 0x1_0000;
    assert Power256(4) == 0x1_0000 * Power256(2);
    assert Power256(6) == 0x1_0000 * Power256(4);
    assert Power256(8) == 0x1_0000 * Power256(6);
  }

  // ---- bincode ----

  function VariantOf(m: ControlMessage): byte {
    match m
    case Register(_, _, _, _) => 0
    case TunnelReady(_) => 1
    case NewConnection(_) => 2
    case Error(_) => 3
    case RotateIdentity(_, _) => 4
    case IdentityRotated(_) => 5
    case RecoverIdentity(_, _) => 6
    case IdentityRecovered(_) => 7
  }

  function FieldsOf(m: ControlMessage): seq<byte> {
    match m
    case Register(protocol, port, token, id) =>
      LittleEndian(if protocol.Tcp? then 0 else 1, 4) + LittleEndian(port, 2) + token + id
    case TunnelReady(port) => LittleEndian(port, 2)
    case NewConnection(id) => LittleEndian(id, 8)
    case Error(message) => LittleEndian(|message|, 8) + message
    case RotateIdentity(former, next) => former + next
    case IdentityRotated(port) => if port.Some? then [1] + LittleEndian(port.value, 2) else [0]
    case RecoverIdentity(secret, next) => secret + next
    case IdentityRecovered(port) => LittleEndian(port, 2)
  }

  function Serialize(m: ControlMessage): seq<byte> {
    LittleEndian(VariantOf(m), 4) + FieldsOf(m)
  }

  /** The integer in the first `width` bytes, if they are there. */
  function Unsigned(data: seq<byte>, width: nat): Option<nat> {
    if |data| < width then None else Some(FromLittleEndian(data[..width]))
  }

  function PortField(data: seq<byte>): Option<u16> {
    var n := Unsigned(data, 2);
    if n.Some? && n.value < 0x1_0000 then Some(n.value) else None
  }

  function TwoTokens(data: seq<byte>): Option<(Token, Token)> {
    if |data| < 64 then None else Some((data[..32], data[32..64]))
  }

  function DecodeRegister(data: seq<byte>): Option<ControlMessage> {
    if |data| < 70 then None
    else
      var protocol, port := Unsigned(data, 4).value, PortField(data[4..]);
      if protocol > 1 || port.None? then None
      else Some(Register(if protocol == 0 then Tcp else Udp, port.value, data[6..38], data[38..70]))
  }

  function DecodeText(data: seq<byte>): Option<ControlMessage> {
    var n := Unsigned(data, 8);
    if n.None? || |data| - 8 < n.value || !IsUtf8(data[8..8 + n.value]) then None
    else Some(Error(data[8..8 + n.value]))
  }

  function DecodeRotated(data: seq<byte>): Option<ControlMessage> {
    if data == [] then None
    else if data[0] == 0 then Some(IdentityRotated(None))
    else if data[0] == 1 && PortField(data[1..]).Some? then Some(IdentityRotated(PortField(data[1..])))
    else None
  }

  /** Reads one message from the front; bytes after it are ignored. */
  function DecodeFields(variant: nat, data: seq<byte>): Option<ControlMessage> {
    match variant
    case 0 => DecodeRegister(data)
    case 1 => var port := PortField(data); if port.Some? then Some(TunnelReady(port.value)) else None
    case 2 =>
      var id := Unsigned(data, 8);
      if id.Some? && id.value <= U64_MAX then Some(NewConnection(id.value)) else None
    case 3 => DecodeText(data)
    case 4 => var pair := TwoTokens(data); if pair.Some? then Some(RotateIdentity(pair.value.0, pair.value.1)) else None
    case 5 => DecodeRotated(data)
    case 6 => var pair := TwoTokens(data); if pair.Some? then Some(RecoverIdentity(pair.value.0, pair.value.1)) else None
    case 7 => var port := PortField(data); if port.Some? then Some(IdentityRecovered(port.value)) else None
    case _ => None
  }

  function Deserialize(data: seq<byte>): Option<ControlMessage> {
    if |data| < 4 then None else DecodeFields(Unsigned(data, 4).value, data[4..])
  }

  lemma UnsignedAt(n: nat, width: nat, rest: seq<byte>)
    requires n < Power256(width)
    ensures Unsigned(LittleEndian(n, width) + rest, width) == Some(n)
    ensures (LittleEndian(n, width) + rest)[width..] == rest
  {
    LittleEndianRoundTrip(n, width);
    assert (LittleEndian(n, width) + rest)[..width] == LittleEndian(n, width);
  }

  lemma RegisterParts(protocol: seq<byte>, port: seq<byte>, token: Token, id: Token, data: seq<byte>)
    requires |protocol| == 4 && |port| == 2 && data == protocol + port + token + id
    ensures |data| == 70 && data[..4] == protocol && data[4..][..2] == port && data[6..38] == token && data[38..70] == id
  {
  }

  lemma RegisterFields(m: ControlMessage)
    requires m.Register?
    ensures DecodeRegister(FieldsOf(m)) == Some(m)
  {
    Powers();
    var protocol := if m.protocol.Tcp? then 0 else 1;
    RegisterParts(LittleEndian(protocol, 4), LittleEndian(m.localPort, 2), m.token, m.recoveryId, FieldsOf(m));
    LittleEndianRoundTrip(protocol, 4);
    LittleEndianRoundTrip(m.localPort, 2);
  }

  lemma TextFields(m: ControlMessage)
    requires m.Error? && WellFormed(m)
    ensures DecodeText(FieldsOf(m)) == Some(m)
  {
    Powers();
    UnsignedAt(|m.message|, 8, m.message);
    assert FieldsOf(m)[8..8 + |m.message|] == m.message;
  }

  lemma NumberFields(n: nat, width: nat)
    requires n < Power256(width)
    ensures Unsigned(LittleEndian(n, width), width) == Some(n)
  {
    UnsignedAt(n, width, []);
    assert LittleEndian(n, width) + [] == LittleEndian(n, width);
  }

  lemma FieldsRoundTrip(m: ControlMessage)
    requires WellFormed(m)
    ensures DecodeFields(VariantOf(m), FieldsOf(m)) == Some(m)
  {
    Powers();
    match m
    case Register(_, _, _, _) => RegisterFields(m);
    case TunnelReady(port) => NumberFields(port, 2);
    case NewConnection(id) => NumberFields(id, 8);
    case Error(_) => TextFields(m);
    case RotateIdentity(former, next) => assert (former + next)[..32] == former && (former + next)[32..64] == next;
    case IdentityRotated(port) =>
      if port.Some? {
        NumberFields(port.value, 2);
        assert FieldsOf(m)[1..] == LittleEndian(port.value, 2);
      }
    case RecoverIdentity(secret, next) => assert (secret + next)[..32] == secret && (secret + next)[32..64] == next;
    case IdentityRecovered(port) => NumberFields(port, 2);
  }

  lemma MessageRoundTrip(m: ControlMessage)
    requires WellFormed(m)
    ensures Deserialize(Serialize(m)) == Some(m)
  {
    Powers();
    UnsignedAt(VariantOf(m), 4, FieldsOf(m));
    FieldsRoundTrip(m);
  }

  // ---- Frames ----

  function BigEndian4(n: nat): seq<byte> {
    [n / 0x100_0000 % 0x100, n / 0x1_0000 % 0x100, n / 0x100 % 0x100, n % 0x100]
  }

  function FromBigEndian4(s: seq<byte>): nat
    requires |s| == 4
  {
    0x100_0000 * (s[0] as int) + 0x1_0000 * (s[1] as int) + 0x100 * (s[2] as int) + s[3]
  }

  function Framed(payload: seq<byte>): seq<byte> {
    BigEndian4(|payload| % 0x1_0000_0000) + payload
  }

  /** What `send_msg` writes; the length is cut to 32 bits. */
  function Frame(m: ControlMessage): seq<byte> {
    Framed(Serialize(m))
  }

  datatype Received = Message(message: ControlMessage) | CleanEnd | CutOff | TooLarge | Undecodable

  /** What `recv_msg` makes of the bytes up to the end of the stream, and what it leaves of them. */
  function Receive(bytes: seq<byte>): (Received, seq<byte>) {
    if bytes == [] then (CleanEnd, [])
    else if |bytes| < 4 then (CutOff, [])
    else
      var n := FromBigEndian4(bytes[..4]);
      if n > MAX_CONTROL_MSG_BYTES then (TooLarge, bytes[4..])
      else if |bytes| < 4 + n then (CutOff, [])
      else
        var m := Deserialize(bytes[4..4 + n]);
        (if m.Some? then Message(m.value) else Undecodable, bytes[4 + n..])
  }

  lemma LittleEndianBytes(n: nat)
    ensures LittleEndian(n, 2) == [n % 0x100, n / 0x100 % 0x100]
    ensures LittleEndian(n, 4) == [n % 0x100, n / 0x100 % 0x100, n / 0x1_0000 % 0x100, n / 0x100_0000 % 0x100]
  {
    assert LittleEndian(n / 0x100 / 0x100 / 0x100, 1)
        == [n / 0x100 / 0x100 / 0x100 % 0x100] + LittleEndian(n / 0x100 / 0x100 / 0x100 / 0x100, 0);
    assert LittleEndian(n / 0x100 / 0x100, 2) == [n / 0x100 / 0x100 % 0x100] + LittleEndian(n / 0x100 / 0x100 / 0x100, 1);
    assert LittleEndian(n / 0x100, 3) == [n / 0x100 % 0x100] + LittleEndian(n / 0x100 / 0x100, 2);
    assert LittleEndian(n / 0x100, 1) == [n / 0x100 % 0x100] + LittleEndian(n / 0x100 / 0x100, 0);
    assert n / 0x100 / 0x100 == n / 0x1_0000 && n / 0x100 / 0x100 / 0x100 == n / 0x100_0000;
  }

  lemma FromLittleEndianBytes(a: byte, b: byte, c: byte, d: byte)
    ensures FromLittleEndian([a, b, c, d]) == a + 0x100 * (b + 0x100 * (c + 0x100 * d))
  {
    assert [a, b, c, d][1..] == [b, c, d] && [b, c, d][1..] == [c, d] && [c, d][1..] == [d];
    assert FromLittleEndian([d]) == d;
    assert FromLittleEndian([c, d]) == c + 0x100 * d;
    assert FromLittleEndian([b, c, d]) == b + 0x100 * FromLittleEndian([c, d]);
  }

  /** The header is the length with its highest byte first. */
  lemma HeaderBytes(n: nat, s: seq<byte>)
    requires |s| == 4
    ensures BigEndian4(n) == [LittleEndian(n, 4)[3], LittleEndian(n, 4)[2], LittleEndian(n, 4)[1], LittleEndian(n, 4)[0]]
    ensures FromBigEndian4(s) == FromLittleEndian([s[3], s[2], s[1], s[0]])
  {
    LittleEndianBytes(n);
    FromLittleEndianBytes(s[3], s[2], s[1], s[0]);
  }

  /** What `recv_msg` answers: an end between frames is clean, one inside a frame is not; more than
      64 KiB is refused before it is read; the rest is the decoder's. */
  lemma ReceiveAnswers(bytes: seq<byte>)
    ensures Receive(bytes).0 == CleanEnd <==> bytes == []
    ensures 0 < |bytes| < 4 ==> Receive(bytes).0 == CutOff
    ensures |bytes| >= 4 ==>
              var length := FromLittleEndian([bytes[3], bytes[2], bytes[1], bytes[0]]);
              var r := Receive(bytes).0;
              && (r == TooLarge <==> length > 65536)
              && (r == CutOff <==> length <= 65536 && |bytes| < 4 + length)
              && (length <= 65536 && 4 + length <= |bytes| ==>
                    && Receive(bytes).1 == bytes[4 + length..]
                    && (r == Undecodable <==> Deserialize(bytes[4..4 + length]) == None)
                    && forall m :: r == Message(m) <==> Deserialize(bytes[4..4 + length]) == Some(m))
  {
    if |bytes| >= 4 {
      HeaderBytes(0, bytes[..4]);
    }
  }

  lemma KindBytes(n: byte)
    ensures LittleEndian(n, 4) == [n, 0, 0, 0]
  {
    LittleEndianBytes(n);
  }

  lemma PortBytes(port: u16)
    ensures LittleEndian(port, 2) == [port % 0x100, port / 0x100]
  {
    LittleEndianBytes(port);
  }

  lemma RegisterForm(protocol: Protocol, port: u16, a: Token, b: Token)
    ensures Serialize(Register(protocol, port, a, b))
         == [0, 0, 0, 0] + ([if protocol.Tcp? then 0 else 1, 0, 0, 0] + [port % 0x100, port / 0x100] + a + b)
  {
    KindBytes(0);
    KindBytes(1);
    PortBytes(port);
  }

  /** The bytes of the other messages: the number of their kind, then their fields, low bytes first. */
  lemma WireForm(port: u16, id: u64, text: seq<byte>, a: Token, b: Token)
    ensures Serialize(TunnelReady(port)) == [1, 0, 0, 0] + [port % 0x100, port / 0x100]
    ensures Serialize(NewConnection(id)) == [2, 0, 0, 0] + LittleEndian(id, 8)
    ensures Serialize(Error(text)) == [3, 0, 0, 0] + (LittleEndian(|text|, 8) + text)
    ensures Serialize(RotateIdentity(a, b)) == [4, 0, 0, 0] + (a + b)
    ensures Serialize(IdentityRotated(None)) == [5, 0, 0, 0] + [0]
    ensures Serialize(IdentityRotated(Some(port))) == [5, 0, 0, 0] + ([1] + [port % 0x100, port / 0x100])
    ensures Serialize(RecoverIdentity(a, b)) == [6, 0, 0, 0] + (a + b)
    ensures Serialize(IdentityRecovered(port)) == [7, 0, 0, 0] + [port % 0x100, port / 0x100]
  {
    forall n: byte ensures LittleEndian(n, 4) == [n, 0, 0, 0] {
      KindBytes(n);
    }
    PortBytes(port);
  }

  /** One frame, byte by byte. */
  lemma ReadyFrame(port: u16)
    ensures Frame(TunnelReady(port)) == [0, 0, 0, 6, 1, 0, 0, 0, port % 0x100, port / 0x100]
  {
    var payload := Serialize(TunnelReady(port));
    KindBytes(1);
    PortBytes(port);
    assert payload == [1, 0, 0, 0, port % 0x100, port / 0x100];
    SmallFrame(payload);
  }

  class ByteWriter {
    var sent: seq<byte>

    method SendMsg(m: ControlMessage)
      modifies this
      ensures sent == old(sent) + Frame(m)
    {
      var payload := Serialize(m);
      SendFramed(payload);
    }

    method SendFramed(payload: seq<byte>)
      modifies this
      ensures sent == old(sent) + Framed(payload)
    {
      var length := BigEndian4(|payload| % 0x1_0000_0000);
      sent := sent + length;
      sent := sent + payload;
      assert sent == old(sent) + (length + payload);
    }
  }

  function Flatten(chunks: seq<seq<byte>>): seq<byte> {
    if chunks == [] then [] else chunks[0] + Flatten(chunks[1..])
  }

  /** A stream that arrives in non-empty pieces of any size. */
  class ByteReader {
    var chunks: seq<seq<byte>>

    ghost predicate Valid()
      reads this
    {
      forall c | c in chunks :: c != []
    }

    ghost function Remaining(): seq<byte>
      reads this
    {
      Flatten(chunks)
    }

    constructor (chunks: seq<seq<byte>>)
      requires forall c | c in chunks :: c != []
      ensures Valid() && Remaining() == Flatten(chunks)
    {
      this.chunks := chunks;
    }

    /** One read: some bytes, at most `max`; none only at the end. */
    method Read(max: nat) returns (got: seq<byte>)
      requires Valid() && max > 0
      modifies this
      ensures Valid() && |got| <= max && old(Remaining()) == got + Remaining()
      ensures got == [] <==> old(Remaining()) == []
    {
      if chunks == [] {
        return [];
      }
      var first := chunks[0];
      var rest := chunks[1..];
      assert first in chunks && forall c | c in rest :: c in chunks;
      if |first| <= max {
        chunks := rest;
        return first;
      }
      chunks := [first[max..]] + rest;
      assert chunks[1..] == rest;
      assert forall c | c in chunks :: c == first[max..] || c in rest;
      assert first == first[..max] + first[max..];
      return first[..max];
    }

    /** Reads exactly `n` bytes, over as many reads as it takes, or reaches the end. */
    method ReadExact(n: nat) returns (r: Option<seq<byte>>)
      requires Valid()
      modifies this
      ensures Valid()
      ensures |old(Remaining())| >= n ==> r == Some(old(Remaining())[..n]) && Remaining() == old(Remaining())[n..]
      ensures |old(Remaining())| < n ==> r == None && Remaining() == []
    {
      var data: seq<byte> := [];
      while |data| < n
        invariant Valid() && |data| <= n && old(Remaining()) == data + Remaining()
        decreases n - |data|
      {
        var got := Read(n - |data|);
        if got == [] {
          return None;
        }
        data := data + got;
      }
      return Some(data);
    }

    method RecvMsg() returns (r: Received)
      requires Valid()
      modifies this
      ensures Valid() && (r, Remaining()) == Receive(old(Remaining()))
    {
      ghost var bytes := Remaining();
      var first := Read(1);
      if first == [] {
        return CleanEnd;
      }
      var others := ReadExact(3);
      if others.None? {
        return CutOff;
      }
      var header := first + others.value;
      assert bytes == first + bytes[1..];
      assert header == bytes[..4] && Remaining() == bytes[4..];
      var n := FromBigEndian4(header);
      if n > MAX_CONTROL_MSG_BYTES {
        return TooLarge;
      }
      var data := ReadExact(n);
      if data.None? {
        return CutOff;
      }
      assert data.value == bytes[4..4 + n] && Remaining() == bytes[4 + n..];
      var m := Deserialize(data.value);
      return if m.Some? then Message(m.value) else Undecodable;
    }
  }

  // ---- Streams of frames ----

  function Frames(ms: seq<ControlMessage>): seq<byte> {
    if ms == [] then [] else Frame(ms[0]) + Frames(ms[1..])
  }

  lemma ReceiveShrinks(bytes: seq<byte>)
    ensures Receive(bytes).0.Message? ==> |Receive(bytes).1| < |bytes|
  {
  }

  /** Repeated `recv_msg`: the messages before the end, and the end. */
  function ReceiveAll(bytes: seq<byte>): (seq<ControlMessage>, Received)
    decreases |bytes|
  {
    var (r, rest) := Receive(bytes);
    if r.Message? then
      ReceiveShrinks(bytes);
      var (ms, end) := ReceiveAll(rest);
      ([r.message] + ms, end)
    else ([], r)
  }

  ghost predicate Sendable(m: ControlMessage) {
    WellFormed(m) && |Serialize(m)| <= MAX_CONTROL_MSG_BYTES
  }

  lemma BigEndianRoundTrip(n: nat)
    requires n <= MAX_CONTROL_MSG_BYTES
    ensures FromBigEndian4(BigEndian4(n)) == n
  {
  }

  lemma ReceiveFramed(payload: seq<byte>, rest: seq<byte>)
    requires |payload| <= MAX_CONTROL_MSG_BYTES && Deserialize(payload).Some?
    ensures Receive(Framed(payload) + rest) == (Message(Deserialize(payload).value), rest)
  {
    SmallFrame(payload);
    BigEndianRoundTrip(|payload|);
    ReceiveHead(BigEndian4(|payload|), payload, rest);
  }

  /** The length of a small payload is not cut. */
  lemma SmallFrame(payload: seq<byte>)
    requires |payload| <= MAX_CONTROL_MSG_BYTES
    ensures Framed(payload) == BigEndian4(|payload|) + payload
  {
  }

  lemma ReceiveHead(head: seq<byte>, payload: seq<byte>, rest: seq<byte>)
    requires |head| == 4 && FromBigEndian4(head) == |payload| <= MAX_CONTROL_MSG_BYTES
    ensures Receive(head + payload + rest) ==
              (if Deserialize(payload).Some? then Message(Deserialize(payload).value) else Undecodable, rest)
  {
    FrameParts(head, payload, rest);
    ReceiveParts(head + payload + rest, payload, rest);
  }

  lemma ReceiveParts(bytes: seq<byte>, payload: seq<byte>, rest: seq<byte>)
    requires |bytes| == 4 + |payload| + |rest| && FromBigEndian4(bytes[..4]) == |payload| <= MAX_CONTROL_MSG_BYTES
    requires bytes[4..4 + |payload|] == payload && bytes[4 + |payload|..] == rest
    ensures Receive(bytes) ==
              (if Deserialize(payload).Some? then Message(Deserialize(payload).value) else Undecodable, rest)
  {
  }

  lemma FrameParts(head: seq<byte>, payload: seq<byte>, rest: seq<byte>)
    requires |head| == 4
    ensures var bytes := head + payload + rest;
            bytes[..4] == head && bytes[4..4 + |payload|] == payload && bytes[4 + |payload|..] == rest
  {
  }

  lemma ReceiveFrame(m: ControlMessage, rest: seq<byte>)
    requires Sendable(m)
    ensures Receive(Frame(m) + rest) == (Message(m), rest)
  {
    MessageRoundTrip(m);
    ReceiveFramed(Serialize(m), rest);
  }

  /** A frame at the front is the first message of the rest of the stream. */
  lemma ReceiveAllFrame(m: ControlMessage, rest: seq<byte>)
    requires Sendable(m)
    ensures ReceiveAll(Frame(m) + rest) == ([m] + ReceiveAll(rest).0, ReceiveAll(rest).1)
  {
    ReceiveFrame(m, rest);
  }

  /** Every list of messages that are small enough is received as it was sent, then a clean end. */
  lemma {:induction false} StreamRoundTrip(ms: seq<ControlMessage>)
    requires forall m | m in ms :: Sendable(m)
    ensures ReceiveAll(Frames(ms)) == (ms, CleanEnd)
  {
    if ms != [] {
      assert ms[0] in ms;
      ReceiveAllFrame(ms[0], Frames(ms[1..]));
      StreamRoundTrip(ms[1..]);
      assert [ms[0]] + ms[1..] == ms;
    }
  }

  /** A proper, non-empty part of a frame is cut off. */
  lemma PartOfFrame(payload: seq<byte>, n: nat)
    requires |payload| <= MAX_CONTROL_MSG_BYTES && 0 < n < |Framed(payload)|
    ensures ReceiveAll(Framed(payload)[..n]) == ([], CutOff)
  {
    BigEndianRoundTrip(|payload|);
    var part := Framed(payload)[..n];
    if n >= 4 { assert part[..4] == BigEndian4(|payload|); }
  }

  lemma TakeOfConcat(a: seq<byte>, b: seq<byte>, n: nat)
    requires n <= |a| + |b|
    ensures (a + b)[..n] == if n < |a| then a[..n] else a + b[..n - |a|]
  {
  }

  /** A cut inside the first frame, and one after it. */
  lemma CutStream(m: ControlMessage, rest: seq<byte>, n: nat)
    requires Sendable(m) && n <= |Frame(m)| + |rest|
    ensures n < |Frame(m)| ==> ReceiveAll((Frame(m) + rest)[..n]) == ([], if n == 0 then CleanEnd else CutOff)
    ensures n >= |Frame(m)| ==>
              var tail := ReceiveAll(rest[..n - |Frame(m)|]);
              ReceiveAll((Frame(m) + rest)[..n]) == ([m] + tail.0, tail.1)
  {
    TakeOfConcat(Frame(m), rest, n);
    if n >= |Frame(m)| {
      ReceiveAllFrame(m, rest[..n - |Frame(m)|]);
    } else if n > 0 {
      PartOfFrame(Serialize(m), n);
    }
  }

  lemma FramesPrefix(ms: seq<ControlMessage>, j: nat)
    requires j < |ms|
    ensures ms[..j + 1] == [ms[0]] + ms[1..][..j]
    ensures |Frames(ms[..j + 1])| == |Frame(ms[0])| + |Frames(ms[1..][..j])|
  {
    assert ms[..j + 1][1..] == ms[1..][..j];
  }

  /** A stream cut after `n` bytes gives the messages whose frames are complete, then a clean end
      exactly if the cut is between two frames, and an error otherwise. */
  lemma {:induction false} TruncatedStream(ms: seq<ControlMessage>, n: nat) returns (k: nat)
    requires (forall m | m in ms :: Sendable(m)) && n <= |Frames(ms)|
    ensures k <= |ms| && |Frames(ms[..k])| <= n
    ensures k < |ms| ==> n < |Frames(ms[..k])| + |Frame(ms[k])|
    ensures ReceiveAll(Frames(ms)[..n]) == (ms[..k], if n == |Frames(ms[..k])| then CleanEnd else CutOff)
  {
    k := 0;
    if ms != [] {
      assert ms[0] in ms;
      CutStream(ms[0], Frames(ms[1..]), n);
      if n >= |Frame(ms[0])| {
        var j := TruncatedStream(ms[1..], n - |Frame(ms[0])|);
        k := j + 1;
        FramesPrefix(ms, j);
      }
    }
  }
}

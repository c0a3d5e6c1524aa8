/** The message framing on the wire: length, type name, protobuf body and checksum, written into and parsed out of the
    network buffer.  The bytes arrive in segments cut anywhere. */
module ProtobufCodecs {
  import opened ByteBuffers
  import opened NetworkOrder

  const HEADER_LEN: nat := 4
  const MIN_MESSAGE_LEN: nat := 2 * HEADER_LEN + 2
  const MAX_MESSAGE_LEN: nat := 64 * 1024 * 1024

  datatype Message = Message(typeName: seq<Byte>, body: seq<Byte>)

  datatype ErrorCode = NoError | InvalidLength | CheckSumError | InvalidNameLen | UnknownMessageType | ParseError

  /** The protobuf runtime: which type names it can create, which bodies it can parse. */
  datatype Registry = Registry(knows: seq<Byte> -> bool, parses: Message -> bool)

  // ---------------------------------------------------------------------------------------------------------------
  // The checksum

  /** The two sums of adler32(1, bytes), section 8.2 of RFC 1950. */
  function AdlerSums(bytes: seq<Byte>): (sums: (nat, nat))
    ensures sums.0 < 65521 && sums.1 < 65521
  {
    if bytes == [] then (1, 0)
    else
      var (a, b) := AdlerSums(bytes[..|bytes| - 1]);
      var a' := (a + bytes[|bytes| - 1]) % 65521;
      (a', (b + a') % 65521)
  }

  /** The checksum as the int32_t the code stores and compares. */
  function CheckSum(bytes: seq<Byte>): int {
    var u := AdlerSums(bytes).1 * 65536 + AdlerSums(bytes).0;
    if u < 0x8000_0000 then u else u - 0x1_0000_0000
  }

  function ByteSum(bytes: seq<Byte>): nat {
    if bytes == [] then 0 else ByteSum(bytes[..|bytes| - 1]) + bytes[|bytes| - 1]
  }

  /** The first `k` bytes, each as often as there are bytes from it to the end. */
  function WeightedSum(bytes: seq<Byte>, k: nat): nat
    requires k <= |bytes|
  {
    if k == 0 then 0 else WeightedSum(bytes, k - 1) + (|bytes| - (k - 1)) * bytes[k - 1]
  }

  lemma {:induction false} OneMoreByte(bytes: seq<Byte>, x: Byte, k: nat)
    requires k <= |bytes|
    ensures WeightedSum(bytes + [x], k) == WeightedSum(bytes, k) + ByteSum(bytes[..k])
  {
    if k > 0 {
      OneMoreByte(bytes, x, k - 1);
      assert bytes[..k][..k - 1] == bytes[..k - 1];
      assert (|bytes| + 1 - (k - 1)) * bytes[k - 1] == (|bytes| - (k - 1)) * bytes[k - 1] + bytes[k - 1];
    }
  }

  lemma ShiftModulo(a: int, d: int)
    ensures (a % 65521 + d) % 65521 == (a + d) % 65521
  {
  }

  lemma AddModulo(a: int, b: int, x: int)
    ensures (a % 65521 + x) % 65521 == (a + x) % 65521
    ensures (b % 65521 + (a % 65521 + x) % 65521) % 65521 == (b + a + x) % 65521
  {
    ShiftModulo(a, x);
    ShiftModulo(b, (a + x) % 65521);
    ShiftModulo(a + x, b);
  }

  /** The sums in closed form: one plus all bytes, and the sum of all the values the first sum has taken. */
  lemma {:induction false} AdlerClosedForm(bytes: seq<Byte>)
    ensures AdlerSums(bytes).0 == (1 + ByteSum(bytes)) % 65521
    ensures AdlerSums(bytes).1 == (|bytes| + WeightedSum(bytes, |bytes|)) % 65521
  {
    if bytes != [] {
      var n := |bytes| - 1;
      var before, x := bytes[..n], bytes[n];
      AdlerClosedForm(before);
      assert before + [x] == bytes && before[..n] == before;
      OneMoreByte(before, x, n);
      AddModulo(1 + ByteSum(before), n + WeightedSum(before, n), x);
    }
  }

  /** The checksum is adler32(1, bytes) as a signed 32-bit integer: the second sum in the high half. */
  lemma CheckSumIsAdler32(bytes: seq<Byte>)
    ensures var u := (|bytes| + WeightedSum(bytes, |bytes|)) % 65521 * 65536 + (1 + ByteSum(bytes)) % 65521;
            CheckSum(bytes) == if u < 0x8000_0000 then u else u - 0x1_0000_0000
  {
    AdlerClosedForm(bytes);
  }

  // ---------------------------------------------------------------------------------------------------------------
  // Writing

  function Payload(m: Message): seq<Byte> {
    Encoded(|m.typeName| + 1, 4) + m.typeName + [0] + m.body
  }

  /** What the length field says: everything after it. */
  function Length(m: Message): nat {
    4 + |m.typeName| + 1 + |m.body| + 4
  }

  function Frame(m: Message): (frame: seq<Byte>)
    ensures |frame| == HEADER_LEN + Length(m)
  {
    Encoded(Length(m), 4) + (Payload(m) + Encoded(CheckSum(Payload(m)), 4))
  }

  function Frames(messages: seq<Message>): seq<Byte> {
    if messages == [] then [] else Frame(messages[0]) + Frames(messages[1..])
  }

  // ---------------------------------------------------------------------------------------------------------------
  // Parsing

  datatype Parsed = Bad(error: ErrorCode) | Good(message: Message)

  /** ProtobufCodec::parse on the bytes after the length field. */
  function Parse(registry: Registry, buf: seq<Byte>): Parsed
    requires |buf| >= MIN_MESSAGE_LEN
  {
    var n := |buf| - HEADER_LEN;
    if CheckSum(buf[..n]) != Decoded(buf[n..]) then Bad(CheckSumError)
    else
      var nameLen := Decoded(buf[..4]);
      if !(2 <= nameLen <= |buf| - 2 * HEADER_LEN) then Bad(InvalidNameLen)
      else
        var m := Message(buf[4..4 + nameLen - 1], buf[4 + nameLen..n]);
        if !registry.knows(m.typeName) then Bad(UnknownMessageType)
        else if !registry.parses(m) then Bad(ParseError)
        else Good(m)
  }

  /** One turn of onMessage's loop on the bytes at hand. */
  datatype Step = NeedMore | Fail(error: ErrorCode) | Take(message: Message, size: nat)

  function Next(registry: Registry, stream: seq<Byte>): (step: Step)
    ensures step.Take? ==> 0 < step.size <= |stream|
  {
    if |stream| < MIN_MESSAGE_LEN + HEADER_LEN then NeedMore
    else
      var len := Decoded(stream[..4]);
      if len > MAX_MESSAGE_LEN || len < MIN_MESSAGE_LEN then Fail(InvalidLength)
      else if |stream| < len + HEADER_LEN then NeedMore
      else
        match Parse(registry, stream[4..4 + len])
        case Bad(error) => Fail(error)
        case Good(m) => Take(m, HEADER_LEN + len)
  }

  /** All of onMessage: the messages delivered, the bytes left in the buffer, and the error reported if any. */
  datatype Outcome = Outcome(messages: seq<Message>, rest: seq<Byte>, error: ErrorCode)

  /** What was delivered before, then what comes after. */
  function Then(before: seq<Message>, after: Outcome): Outcome {
    after.(messages := before + after.messages)
  }

  lemma ThenAssoc(a: seq<Message>, b: seq<Message>, after: Outcome)
    ensures Then(a, Then(b, after)) == Then(a + b, after) && Then([], after) == after
  {
    assert a + (b + after.messages) == a + b + after.messages;
    assert [] + after.messages == after.messages;
  }

  function Decode(registry: Registry, stream: seq<Byte>): Outcome
    decreases |stream|
  {
    match Next(registry, stream)
    case NeedMore => Outcome([], stream, NoError)
    case Fail(error) => Outcome([], stream, error)
    case Take(m, size) => Then([m], Decode(registry, stream[size..]))
  }

  /** onMessage called after each segment, until an error closes the connection. */
  function DecodeSegments(registry: Registry, buffered: seq<Byte>, segments: seq<seq<Byte>>): Outcome
    decreases |segments|
  {
    if segments == [] then Outcome([], buffered, NoError)
    else
      var now := Decode(registry, buffered + segments[0]);
      if now.error != NoError then now
      else Then(now.messages, DecodeSegments(registry, now.rest, segments[1..]))
  }

  function Joined(segments: seq<seq<Byte>>): seq<Byte> {
    if segments == [] then [] else segments[0] + Joined(segments[1..])
  }

  // ---------------------------------------------------------------------------------------------------------------
  // Segmentation does not matter

  /** A verdict once reached is not changed by bytes that come later. */
  lemma NextIsStable(registry: Registry, s: seq<Byte>, t: seq<Byte>)
    requires !Next(registry, s).NeedMore?
    ensures Next(registry, s + t) == Next(registry, s)
  {
    assert (s + t)[..4] == s[..4];
    var len := Decoded(s[..4]);
    if MIN_MESSAGE_LEN <= len <= MAX_MESSAGE_LEN {
      assert (s + t)[4..4 + len] == s[4..4 + len];
    }
  }

  lemma {:induction false} DecodeAppend(registry: Registry, s: seq<Byte>, t: seq<Byte>)
    ensures var now := Decode(registry, s);
            if now.error != NoError then
              Decode(registry, s + t).messages == now.messages && Decode(registry, s + t).error == now.error
            else
              Decode(registry, s + t) == Then(now.messages, Decode(registry, now.rest + t))
    decreases |s|
  {
    var step := Next(registry, s);
    match step {
      case NeedMore => ThenAssoc([], [], Decode(registry, s + t));
      case Fail(_) => NextIsStable(registry, s, t);
      case Take(m, size) =>
        NextIsStable(registry, s, t);
        assert (s + t)[size..] == s[size..] + t;
        DecodeAppend(registry, s[size..], t);
        var now := Decode(registry, s[size..]);
        ThenAssoc([m], now.messages, Decode(registry, now.rest + t));
    }
  }

  lemma {:induction false} RestNeedsMore(registry: Registry, s: seq<Byte>)
    requires Decode(registry, s).error == NoError
    ensures Next(registry, Decode(registry, s).rest).NeedMore?
    decreases |s|
  {
    var step := Next(registry, s);
    if step.Take? {
      RestNeedsMore(registry, s[step.size..]);
    }
  }

  /** However the stream is cut into segments, the same messages are delivered, in the same order, with the same error;
      without an error the same bytes stay behind. */
  lemma {:induction false} SegmentationIsInvisible(registry: Registry, buffered: seq<Byte>, segments: seq<seq<Byte>>)
    requires Next(registry, buffered).NeedMore?
    ensures var whole := Decode(registry, buffered + Joined(segments));
            var cut := DecodeSegments(registry, buffered, segments);
            && cut.messages == whole.messages && cut.error == whole.error
            && (cut.error == NoError ==> cut.rest == whole.rest)
    decreases |segments|
  {
    if segments == [] {
      assert buffered + Joined(segments) == buffered;
    } else {
      var s, t := buffered + segments[0], Joined(segments[1..]);
      assert buffered + Joined(segments) == s + t;
      DecodeAppend(registry, s, t);
      var now := Decode(registry, s);
      if now.error == NoError {
        RestNeedsMore(registry, s);
        SegmentationIsInvisible(registry, now.rest, segments[1..]);
      }
    }
  }

  // ---------------------------------------------------------------------------------------------------------------
  // Round trip

  /** What the receiver takes: a known, parseable type with a name, within the size limit. */
  predicate Receivable(registry: Registry, m: Message) {
    |m.typeName| > 0 && Length(m) <= MAX_MESSAGE_LEN && registry.knows(m.typeName) && registry.parses(m)
  }

  lemma Pow256Of4()
    ensures Pow256(4) == 0x1_0000_0000
  {
    assert Pow256(2) == 0x1_0000;
  }

  lemma SmallRoundTrip(x: int)
    requires -0x8000_0000 <= x < 0x8000_0000
    ensures Decoded(Encoded(x, 4)) == x
  {
    Pow256Of4();
    IntRoundTrip(x, 4);
  }

  lemma ParsePayload(registry: Registry, m: Message)
    requires |m.typeName| > 0 && Length(m) <= MAX_MESSAGE_LEN
    ensures |Payload(m)| + 4 == Length(m) >= MIN_MESSAGE_LEN
    ensures Parse(registry, Payload(m) + Encoded(CheckSum(Payload(m)), 4)) ==
            if !registry.knows(m.typeName) then Bad(UnknownMessageType)
            else if !registry.parses(m) then Bad(ParseError)
            else Good(m)
  {
    var p, sum := Payload(m), Encoded(CheckSum(Payload(m)), 4);
    var buf := p + sum;
    var n, nameLen := |p|, |m.typeName| + 1;
    SmallRoundTrip(CheckSum(p));
    SmallRoundTrip(nameLen);
    assert buf[..n] == p && buf[n..] == sum;
    assert buf[..4] == Encoded(nameLen, 4);
    assert buf[4..4 + nameLen - 1] == m.typeName;
    assert buf[4 + nameLen..n] == m.body;
  }

  /** A frame at the head of the stream is taken exactly when the message is receivable. */
  lemma NextTakesFrame(registry: Registry, m: Message, t: seq<Byte>)
    requires |m.typeName| > 0 && Length(m) < 0x8000_0000
    ensures if Receivable(registry, m) then Next(registry, Frame(m) + t) == Take(m, |Frame(m)|)
            else Next(registry, Frame(m) + t).Fail?
    ensures Length(m) > MAX_MESSAGE_LEN ==> Next(registry, Frame(m) + t) == Fail(InvalidLength)
  {
    var stream, body := Frame(m) + t, Payload(m) + Encoded(CheckSum(Payload(m)), 4);
    assert stream[..4] == Encoded(Length(m), 4);
    SmallRoundTrip(Length(m));
    assert |body| == Length(m);
    assert stream[4..4 + Length(m)] == body;
    if Length(m) <= MAX_MESSAGE_LEN {
      ParsePayload(registry, m);
    }
  }

  lemma {:induction false} DecodeFrames(registry: Registry, messages: seq<Message>)
    requires forall i :: 0 <= i < |messages| ==> Receivable(registry, messages[i])
    ensures Decode(registry, Frames(messages)) == Outcome(messages, [], NoError)
  {
    if messages != [] {
      var m, later := messages[0], Frames(messages[1..]);
      NextTakesFrame(registry, m, later);
      assert (Frame(m) + later)[|Frame(m)|..] == later;
      DecodeFrames(registry, messages[1..]);
      assert [m] + messages[1..] == messages;
    }
  }

  /** End to end: whatever way the network cuts the frames of a sequence of receivable messages into segments, the
      receiver delivers exactly those messages, in order, and is left with an empty buffer. */
  lemma WireRoundTrip(registry: Registry, messages: seq<Message>, segments: seq<seq<Byte>>)
    requires forall i :: 0 <= i < |messages| ==> Receivable(registry, messages[i])
    requires Joined(segments) == Frames(messages)
    ensures DecodeSegments(registry, [], segments) == Outcome(messages, [], NoError)
  {
    DecodeFrames(registry, messages);
    assert [] + Joined(segments) == Joined(segments);
    SegmentationIsInvisible(registry, [], segments);
  }

  /** The transport format, field by field. */
  lemma FrameLayout(m: Message)
    ensures var frame, n, b := Frame(m), |m.typeName|, |m.body|;
            && |frame| == 4 + 4 + n + 1 + b + 4
            && frame[..4] == Encoded(4 + n + 1 + b + 4, 4)
            && frame[4..8] == Encoded(n + 1, 4)
            && frame[8..8 + n] == m.typeName && frame[8 + n] == 0
            && frame[9 + n..9 + n + b] == m.body
            && frame[9 + n + b..] == Encoded(CheckSum(frame[4..9 + n + b]), 4)
  {
    var frame, n, b := Frame(m), |m.typeName|, |m.body|;
    var payload := Payload(m);
    assert payload[..4] == Encoded(n + 1, 4) && payload[4..4 + n] == m.typeName && payload[5 + n..] == m.body;
    assert frame[4..9 + n + b] == payload;
    assert frame[4..8] == payload[..4] && frame[8..8 + n] == payload[4..4 + n] && frame[8 + n] == payload[4 + n];
    assert frame[9 + n..9 + n + b] == payload[5 + n..];
  }

  // ---------------------------------------------------------------------------------------------------------------
  // What is accepted

  /** The bytes between length and checksum with any byte behind the name: the parser does not look at it. */
  function Body(m: Message, terminator: Byte): seq<Byte> {
    Encoded(|m.typeName| + 1, 4) + m.typeName + [terminator] + m.body
  }

  lemma ParseBody(registry: Registry, m: Message, terminator: Byte)
    requires |m.typeName| > 0 && Length(m) <= MAX_MESSAGE_LEN && registry.knows(m.typeName) && registry.parses(m)
    ensures var body := Body(m, terminator); Parse(registry, body + Encoded(CheckSum(body), 4)) == Good(m)
  {
    var p, sum := Body(m, terminator), Encoded(CheckSum(Body(m, terminator)), 4);
    var buf := p + sum;
    var n, nameLen := |p|, |m.typeName| + 1;
    SmallRoundTrip(CheckSum(p));
    SmallRoundTrip(nameLen);
    assert buf[..n] == p && buf[n..] == sum;
    assert buf[..4] == Encoded(nameLen, 4);
    assert buf[4..4 + nameLen - 1] == m.typeName;
    assert buf[4 + nameLen..n] == m.body;
  }

  lemma FieldIs(bytes: seq<Byte>, x: int)
    requires |bytes| == 4 && -0x8000_0000 <= x < 0x8000_0000 && Decoded(bytes) == x
    ensures bytes == Encoded(x, 4)
  {
    SmallRoundTrip(x);
    DecodedInjective(bytes, Encoded(x, 4));
  }

  /** What a parsed message was: its frame, the byte behind the name aside. */
  lemma ParsedWasFramed(registry: Registry, buf: seq<Byte>, m: Message)
    requires MIN_MESSAGE_LEN <= |buf| <= MAX_MESSAGE_LEN && Parse(registry, buf) == Good(m)
    ensures |m.typeName| > 0 && Length(m) == |buf| && registry.knows(m.typeName) && registry.parses(m)
    ensures var body := Body(m, buf[4 + |m.typeName|]); buf == body + Encoded(CheckSum(body), 4)
  {
    var n, nameLen := |buf| - 4, Decoded(buf[..4]);
    var body := Body(m, buf[4 + nameLen - 1]);
    FieldIs(buf[..4], nameLen);
    assert buf[..n] == buf[..4] + buf[4..4 + nameLen - 1] + [buf[4 + nameLen - 1]] + buf[4 + nameLen..n];
    FieldIs(buf[n..], CheckSum(body));
    assert buf == buf[..n] + buf[n..];
  }

  /** Parsing inverts framing, exactly: a message comes out of those bytes, and only those, that frame it -- but for the
      byte behind the name, which may be anything. */
  lemma ParsesIff(registry: Registry, buf: seq<Byte>, m: Message)
    requires MIN_MESSAGE_LEN <= |buf| <= MAX_MESSAGE_LEN
    ensures Parse(registry, buf) == Good(m) <==>
            && |m.typeName| > 0 && registry.knows(m.typeName) && registry.parses(m)
            && exists z: Byte :: buf == Body(m, z) + Encoded(CheckSum(Body(m, z)), 4)
  {
    if Parse(registry, buf) == Good(m) {
      ParsedWasFramed(registry, buf, m);
    } else if |m.typeName| > 0 && registry.knows(m.typeName) && registry.parses(m) {
      forall z: Byte ensures buf != Body(m, z) + Encoded(CheckSum(Body(m, z)), 4) {
        if buf == Body(m, z) + Encoded(CheckSum(Body(m, z)), 4) {
          ParseBody(registry, m, z);
        }
      }
    }
  }

  /** Past the checksum, a name length is refused exactly if it leaves no name, or no room for the name. */
  lemma NameLengthRefusedIff(registry: Registry, buf: seq<Byte>)
    requires |buf| >= MIN_MESSAGE_LEN && Parse(registry, buf) != Bad(CheckSumError)
    ensures Parse(registry, buf) == Bad(InvalidNameLen) <==> Decoded(buf[..4]) < 2 || Decoded(buf[..4]) > |buf| - 8
  {
  }

  /** More bytes are waited for exactly with less than 14 of them, or with a length between 10 and 64 MB that is not all
      there; any other length is refused, and nothing else as InvalidLength. */
  lemma WaitsIff(registry: Registry, stream: seq<Byte>)
    ensures Next(registry, stream) == NeedMore <==>
            |stream| < 14 || (10 <= Decoded(stream[..4]) <= 67108864 && |stream| < 4 + Decoded(stream[..4]))
    ensures Next(registry, stream) == Fail(InvalidLength) <==>
            |stream| >= 14 && (Decoded(stream[..4]) < 10 || Decoded(stream[..4]) > 67108864)
  {
  }

  // ---------------------------------------------------------------------------------------------------------------
  // What the checksum is for

  /** Changing one byte shifts the sum by the difference. */
  lemma {:induction false} ByteSumShift(bytes: seq<Byte>, i: nat, b: Byte)
    requires i < |bytes|
    ensures ByteSum(bytes[i := b]) == ByteSum(bytes) + b - bytes[i]
  {
    var n := |bytes| - 1;
    if i == n {
      assert bytes[i := b][..n] == bytes[..n];
    } else {
      assert bytes[i := b][..n] == bytes[..n][i := b];
      ByteSumShift(bytes[..n], i, b);
    }
  }

  lemma ModuloSeesShift(a: int, d: int)
    requires -256 < d < 256 && d != 0
    ensures (a + d) % 65521 != a % 65521
  {
    ShiftModulo(a, d);
  }

  lemma SameHalves(a: int, b: int, a': int, b': int)
    requires 0 <= a < 65536 && 0 <= a' < 65536 && b * 65536 + a == b' * 65536 + a'
    ensures a == a'
  {
  }

  lemma SameCheckSumSameSum(x: seq<Byte>, y: seq<Byte>)
    requires CheckSum(x) == CheckSum(y)
    ensures AdlerSums(x).0 == AdlerSums(y).0
  {
    var p, q := AdlerSums(x), AdlerSums(y);
    SameHalves(p.0, p.1, q.0, q.1);
  }

  lemma OtherByteOtherCheckSum(bytes: seq<Byte>, i: nat, b: Byte)
    requires i < |bytes| && b != bytes[i]
    ensures CheckSum(bytes[i := b]) != CheckSum(bytes)
  {
    var altered := bytes[i := b];
    AdlerClosedForm(bytes);
    AdlerClosedForm(altered);
    ByteSumShift(bytes, i, b);
    ModuloSeesShift(1 + ByteSum(bytes), b - bytes[i]);
    if CheckSum(altered) == CheckSum(bytes) {
      SameCheckSumSameSum(altered, bytes);
    }
  }

  lemma OtherByteOtherNumber(bytes: seq<Byte>, i: nat, b: Byte)
    requires i < |bytes| && b != bytes[i]
    ensures Decoded(bytes[i := b]) != Decoded(bytes)
  {
    var altered := bytes[i := b];
    assert altered[i] != bytes[i];
    if Decoded(altered) == Decoded(bytes) {
      DecodedInjective(altered, bytes);
    }
  }

  /** Any one byte altered after the length field of a frame whose checksum was right is noticed. */
  lemma AlteredByteIsNoticed(registry: Registry, buf: seq<Byte>, i: nat, b: Byte)
    requires |buf| >= MIN_MESSAGE_LEN && Parse(registry, buf) != Bad(CheckSumError)
    requires i < |buf| && b != buf[i]
    ensures Parse(registry, buf[i := b]) == Bad(CheckSumError)
  {
    var n := |buf| - HEADER_LEN;
    var altered := buf[i := b];
    if i < n {
      assert altered[..n] == buf[..n][i := b] && altered[n..] == buf[n..];
      OtherByteOtherCheckSum(buf[..n], i, b);
    } else {
      assert altered[..n] == buf[..n] && altered[n..] == buf[n..][i - n := b];
      OtherByteOtherNumber(buf[n..], i - n, b);
    }
  }

  /** So a message damaged in one byte on its way is refused, not misread. */
  lemma AlteredFrameIsRefused(registry: Registry, m: Message, t: seq<Byte>, i: nat, b: Byte)
    requires |m.typeName| > 0 && Length(m) <= MAX_MESSAGE_LEN
    requires HEADER_LEN <= i < HEADER_LEN + Length(m)
    ensures b != Frame(m)[i] ==> Next(registry, Frame(m)[i := b] + t) == Fail(CheckSumError)
  {
    var body := Payload(m) + Encoded(CheckSum(Payload(m)), 4);
    var stream := Frame(m)[i := b] + t;
    assert stream[..4] == Encoded(Length(m), 4);
    SmallRoundTrip(Length(m));
    ParsePayload(registry, m);
    assert |body| == Length(m);
    assert stream[4..4 + Length(m)] == body[i - 4 := b];
    if b != Frame(m)[i] {
      AlteredByteIsNoticed(registry, body, i - 4, b);
    }
  }

  // ---------------------------------------------------------------------------------------------------------------
  // The code on the buffer

  /** fillEmptyBuffer, up to the body. */
  method FillPayload(buf: Buffer, m: Message)
    requires buf.Valid() && buf.Readable() == [] && buf.readerIndex >= 4
    modifies buf, buf.buffer
    ensures buf.Valid() && buf.Readable() == Payload(m) && buf.readerIndex >= 4
    ensures buf.buffer == old(buf.buffer) || fresh(buf.buffer)
  {
    var nameLen := |m.typeName| + 1;
    buf.AppendInt(nameLen, 4);
    buf.Append(m.typeName + [0]);
    assert buf.Readable() == Encoded(nameLen, 4) + m.typeName + [0];
    buf.EnsureWritableBytes(|m.body|);
    buf.Write(m.body);
  }

  /** fillEmptyBuffer: checksum behind, length in front. */
  method FillEmptyBuffer(buf: Buffer, m: Message)
    requires buf.Valid() && buf.Readable() == [] && buf.readerIndex >= 4
    modifies buf, buf.buffer
    ensures buf.Valid() && buf.Readable() == Frame(m)
  {
    FillPayload(buf, m);
    var written := buf.buffer[buf.readerIndex..buf.writerIndex];
    buf.AppendInt(CheckSum(written), 4);
    var len := buf.writerIndex - buf.readerIndex;
    assert len == |buf.Readable()| == Length(m);
    buf.PrependInt(len, 4);
  }

  /** The body of onMessage's loop. */
  method TakeOne(buf: Buffer, registry: Registry) returns (step: Step)
    requires buf.Valid()
    modifies buf`readerIndex, buf`writerIndex
    ensures buf.Valid() && step == Next(registry, old(buf.Readable()))
    ensures buf.Readable() == if step.Take? then old(buf.Readable())[step.size..] else old(buf.Readable())
  {
    if buf.writerIndex - buf.readerIndex < MIN_MESSAGE_LEN + HEADER_LEN {
      return NeedMore;
    }
    var len := buf.PeekInt(4);
    if len > MAX_MESSAGE_LEN || len < MIN_MESSAGE_LEN {
      return Fail(InvalidLength);
    }
    if buf.writerIndex - buf.readerIndex < len + HEADER_LEN {
      return NeedMore;
    }
    var frame := buf.buffer[buf.readerIndex + HEADER_LEN..buf.readerIndex + HEADER_LEN + len];
    assert frame == buf.Readable()[4..4 + len];
    var parsed := Parse(registry, frame);
    if parsed.Bad? {
      return Fail(parsed.error);
    }
    step := Take(parsed.message, HEADER_LEN + len);
    buf.Retrieve(HEADER_LEN + len);
  }

  /** onMessage: deliver until a message is incomplete or in error. */
  method OnMessage(buf: Buffer, registry: Registry) returns (messages: seq<Message>, error: ErrorCode)
    requires buf.Valid()
    modifies buf`readerIndex, buf`writerIndex
    ensures buf.Valid()
    ensures Outcome(messages, buf.Readable(), error) == Decode(registry, old(buf.Readable()))
  {
    ghost var whole := Decode(registry, buf.Readable());
    ThenAssoc([], [], whole);
    messages, error := [], NoError;
    while true
      invariant buf.Valid() && error == NoError
      invariant whole == Then(messages, Decode(registry, buf.Readable()))
      decreases |buf.Readable()|
    {
      ghost var stream := buf.Readable();
      var step := TakeOne(buf, registry);
      match step {
        case NeedMore => return;
        case Fail(e) =>
          error := e;
          return;
        case Take(m, size) =>
          ThenAssoc(messages, [m], Decode(registry, stream[size..]));
          messages := messages + [m];
      }
    }
  }
}

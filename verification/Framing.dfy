/** The wire protocol: messages in protobuf encoding, each behind a 4-byte little-endian length. */
module Framing {
  import opened Common

  type Byte = b: nat | b < 256

  type Bytes = seq<Byte>

  /** protocol.Message. The command is held as its UTF-8 bytes. */
  datatype Message = Message(command: Bytes, data: Bytes)

  const U32: nat := 0x1_0000_0000

  // ----- Base 128 varints and length-delimited records -----

  function EncodeVarint(n: nat): Bytes {
    if n < 128 then [n] else [128 + n % 128] + EncodeVarint(n / 128)
  }

  datatype Parsed<T> = Parsed(value: T, rest: Bytes)

  /** Reads a varint of at most `limit` bytes. */
  function DecodeVarint(s: Bytes, limit: nat): Option<Parsed<nat>>
    decreases limit
  {
    if limit == 0 || s == [] then None
    else if s[0] < 128 then Some(Parsed(s[0], s[1..]))
    else
      match DecodeVarint(s[1..], limit - 1)
      case None => None
      case Some(p) => Some(Parsed(s[0] - 128 + 128 * p.value, p.rest))
  }

  /** Base 128 digits: numbers that fit `limit` bytes. */
  function Range(limit: nat): nat { if limit == 0 then 1 else 128 * Range(limit - 1) }

  lemma {:induction false} VarintRoundTrip(n: nat, limit: nat, rest: Bytes)
    requires limit > 0 && n < Range(limit)
    ensures DecodeVarint(EncodeVarint(n) + rest, limit) == Some(Parsed(n, rest))
    decreases limit
  {
    var s := EncodeVarint(n) + rest;
    if n < 128 {
      assert s[1..] == rest;
    } else {
      assert s[1..] == EncodeVarint(n / 128) + rest;
      assert n / 128 < Range(limit - 1);
      assert limit - 1 > 0;
      VarintRoundTrip(n / 128, limit - 1, rest);
    }
  }

  /** What a varint's bytes say, the lowest seven bits first. */
  function VarintValue(s: Bytes): nat {
    if s == [] then 0 else
      var low: nat := s[0] % 128;
      low + 128 * VarintValue(s[1..])
  }

  /** An encoded number is its base 128 digits, and all bytes but the last have the high bit set. */
  lemma {:induction false} VarintForm(n: nat)
    ensures var s := EncodeVarint(n);
            && VarintValue(s) == n && |s| > 0 && s[|s| - 1] < 128
            && (forall i :: 0 <= i < |s| - 1 ==> s[i] >= 128)
            && (n > 0 ==> s[|s| - 1] > 0)
  {
    var s := EncodeVarint(n);
    if n >= 128 {
      VarintForm(n / 128);
      assert s[1..] == EncodeVarint(n / 128);
    }
  }

  const MAX_VARINT: nat := 10

  /** A length-delimited field. */
  function Field(tag: Byte, value: Bytes): Bytes { [tag] + EncodeVarint(|value|) + value }

  const COMMAND_TAG: Byte := 0x0A   // field 1, wire type 2
  const DATA_TAG: Byte := 0x12      // field 2, wire type 2

  /** Fields at their default value are left out. */
  function Marshal(m: Message): Bytes {
    (if m.command == [] then [] else Field(COMMAND_TAG, m.command))
    + (if m.data == [] then [] else Field(DATA_TAG, m.data))
  }

  function Take(s: Bytes, n: nat): Option<Parsed<Bytes>> {
    if n <= |s| then Some(Parsed(s[..n], s[n..])) else None
  }

  /** Reads one field into m; fields it does not know are skipped by wire type. */
  function DecodeField(m: Message, s: Bytes): (r: Option<Parsed<Message>>)
    requires s != []
    ensures r.Some? ==> |r.value.rest| < |s|
  {
    match DecodeVarint(s, MAX_VARINT)
    case None => None
    case Some(tag) =>
      VarintShortens(s, MAX_VARINT);
      var wire := tag.value % 8;
      if wire == 2 then
        match DecodeVarint(tag.rest, MAX_VARINT)
        case None => None
        case Some(len) =>
          VarintShortens(tag.rest, MAX_VARINT);
          match Take(len.rest, len.value)
          case None => None
          case Some(v) =>
            Some(Parsed(if tag.value == 0x0A then m.(command := v.value)
                        else if tag.value == 0x12 then m.(data := v.value) else m, v.rest))
      else if wire == 0 then
        match DecodeVarint(tag.rest, MAX_VARINT)
        case None => None
        case Some(v) => VarintShortens(tag.rest, MAX_VARINT); Some(Parsed(m, v.rest))
      else if wire == 1 || wire == 5 then
        match Take(tag.rest, if wire == 1 then 8 else 4)
        case None => None
        case Some(v) => Some(Parsed(m, v.rest))
      else None
  }

  lemma {:induction false} VarintShortens(s: Bytes, limit: nat)
    ensures DecodeVarint(s, limit).Some? ==> |DecodeVarint(s, limit).value.rest| < |s|
    decreases limit
  {
    if limit > 0 && s != [] {
      VarintShortens(s[1..], limit - 1);
    }
  }

  function DecodeFields(m: Message, s: Bytes): Option<Message>
    decreases |s|
  {
    if s == [] then Some(m)
    else
      match DecodeField(m, s)
      case None => None
      case Some(p) => DecodeFields(p.value, p.rest)
  }

  function Unmarshal(s: Bytes): Option<Message> { DecodeFields(Message([], []), s) }

  lemma RangeLarge()
    ensures Range(10) > 0x1_0000_0000_0000_0000
  {
    assert Range(5) == 128 * Range(4) == 128 * 128 * Range(3) == 128 * 128 * 128 * Range(2);
    assert Range(10) == 128 * Range(9) == 128 * 128 * Range(8) == 128 * 128 * 128 * Range(7);
    assert Range(7) == 128 * Range(6) == 128 * 128 * Range(5);
  }

  lemma FieldRoundTrip(m: Message, tag: Byte, value: Bytes, rest: Bytes)
    requires tag in {COMMAND_TAG, DATA_TAG} && |value| < 0x1_0000_0000_0000_0000
    ensures DecodeField(m, Field(tag, value) + rest) ==
            Some(Parsed(if tag == COMMAND_TAG then m.(command := value) else m.(data := value), rest))
  {
    hide Range, DecodeVarint;
    var s := Field(tag, value) + rest;
    RangeLarge();
    assert s == EncodeVarint(tag) + (EncodeVarint(|value|) + (value + rest));
    VarintRoundTrip(tag, MAX_VARINT, EncodeVarint(|value|) + (value + rest));
    VarintRoundTrip(|value|, MAX_VARINT, value + rest);
    assert (value + rest)[..|value|] == value && (value + rest)[|value|..] == rest;
  }

  /** Decoding undoes encoding. */
  lemma MarshalRoundTrip(m: Message)
    requires |m.command| < 0x1_0000_0000_0000_0000 && |m.data| < 0x1_0000_0000_0000_0000
    ensures Unmarshal(Marshal(m)) == Some(m)
  {
    var none := Message([], []);
    var tail := if m.data == [] then [] else Field(DATA_TAG, m.data);
    if m.data != [] {
      FieldRoundTrip(none, DATA_TAG, m.data, []);
      FieldRoundTrip(none.(command := m.command), DATA_TAG, m.data, []);
      assert Field(DATA_TAG, m.data) + [] == tail;
      assert DecodeFields(none.(command := m.command), tail) == DecodeFields(m, []);
    }
    assert DecodeFields(none.(command := m.command), tail) == Some(m);
    if m.command != [] {
      FieldRoundTrip(none, COMMAND_TAG, m.command, tail);
      assert Marshal(m) == Field(COMMAND_TAG, m.command) + tail;
    } else {
      assert Marshal(m) == tail;
      assert none.(command := m.command) == none;
    }
  }

  /** A message on the wire: its command under tag 10, its data under tag 18, each behind its length,
      and nothing for an empty field. */
  lemma MarshalForm(m: Message)
    ensures m.command == [] && m.data == [] ==> Marshal(m) == []
    ensures m.command != [] && m.data == [] ==> Marshal(m) == [10] + EncodeVarint(|m.command|) + m.command
    ensures m.command == [] && m.data != [] ==> Marshal(m) == [18] + EncodeVarint(|m.data|) + m.data
    ensures m.command != [] && m.data != [] ==>
              Marshal(m) == [10] + EncodeVarint(|m.command|) + m.command + ([18] + EncodeVarint(|m.data|) + m.data)
  {
    if m.command == [] {
      assert [] + Field(DATA_TAG, m.data) == Field(DATA_TAG, m.data);
    } else if m.data == [] {
      assert Field(COMMAND_TAG, m.command) + [] == Field(COMMAND_TAG, m.command);
    }
  }

  /** The fields may come in either order. */
  lemma DataFirst(m: Message)
    requires |m.command| < 0x1_0000_0000_0000_0000 && |m.data| < 0x1_0000_0000_0000_0000
    ensures Unmarshal(Field(DATA_TAG, m.data) + Field(COMMAND_TAG, m.command)) == Some(m)
  {
    var none := Message([], []);
    var half := none.(data := m.data);
    FieldRoundTrip(none, DATA_TAG, m.data, Field(COMMAND_TAG, m.command));
    FieldRoundTrip(half, COMMAND_TAG, m.command, []);
    assert Field(COMMAND_TAG, m.command) + [] == Field(COMMAND_TAG, m.command);
    assert DecodeFields(half, Field(COMMAND_TAG, m.command)) == DecodeFields(m, []);
  }

  /** A field of a later version of the protocol is skipped. */
  lemma UnknownSkipped(m: Message, tag: Byte, value: Bytes, rest: Bytes)
    requires tag < 128 && tag % 8 == 2 && tag !in {COMMAND_TAG, DATA_TAG} && |value| < 0x1_0000_0000_0000_0000
    ensures DecodeFields(m, Field(tag, value) + rest) == DecodeFields(m, rest)
  {
    hide Range, DecodeVarint;
    var s := Field(tag, value) + rest;
    RangeLarge();
    assert EncodeVarint(tag) == [tag];
    assert s == EncodeVarint(tag) + (EncodeVarint(|value|) + (value + rest));
    VarintRoundTrip(tag, MAX_VARINT, EncodeVarint(|value|) + (value + rest));
    VarintRoundTrip(|value|, MAX_VARINT, value + rest);
    assert (value + rest)[..|value|] == value && (value + rest)[|value|..] == rest;
  }

  // ----- Frames -----

  /** binary.LittleEndian: n in k bytes, the lowest first. */
  function Little(n: nat, k: nat): (b: Bytes)
    ensures |b| == k
    decreases k
  {
    if k == 0 then [] else [n % 256] + Little(n / 256, k - 1)
  }

  function FromLittle(b: Bytes): nat {
    if b == [] then 0 else
      var low: nat := b[0];
      low + 256 * FromLittle(b[1..])
  }

  function Power256(k: nat): nat { if k == 0 then 1 else 256 * Power256(k - 1) }

  /** k bytes carry every number below 256^k. */
  lemma {:induction false} LittleRoundTrip(n: nat, k: nat)
    requires n < Power256(k)
    ensures FromLittle(Little(n, k)) == n
    decreases k
  {
    if k > 0 {
      LittleRoundTrip(n / 256, k - 1);
      assert Little(n, k)[1..] == Little(n / 256, k - 1);
    }
  }

  /** WriteProtobuf: the length is cut to 32 bits. */
  function Frame(data: Bytes): Bytes { Little(|data| % U32, 4) + data }

  /** What ReadMessage makes of the bytes to come: a message, the end of the stream, or an error. */
  datatype Reading = Got(message: Message) | EndOfFile | Malformed

  datatype ReadResult = ReadResult(reading: Reading, rest: Bytes)

  /** One Read into a buffer of n bytes, when the reader has `ready` bytes at hand: the buffer is
      filled as far as these and the stream go, and is zero beyond. */
  function ReadBytes(s: Bytes, n: nat, ready: nat): (r: Option<Parsed<Bytes>>)
    ensures r.Some? ==> |r.value.value| == n
  {
    if n > 0 && s == [] then None
    else
      var k := Least(n, Least(|s|, ready));
      Some(Parsed(s[..k] + Zeros(n - k), s[k..]))
  }

  function Least(a: nat, b: nat): nat { if a <= b then a else b }

  function Zeros(n: nat): Bytes { seq(n, _ => 0) }

  /** How much is at hand for the two Reads of a frame. */
  datatype Ready = Ready(size: nat, data: nat)

  /** The data of the next frame. */
  function ReadFrame(s: Bytes, ready: Ready): Option<Parsed<Bytes>> {
    match ReadBytes(s, 4, ready.size)
    case None => None
    case Some(size) => ReadBytes(size.rest, FromLittle(size.value), ready.data)
  }

  function ReadMessage(s: Bytes, ready: Ready): ReadResult {
    match ReadBytes(s, 4, ready.size)
    case None => ReadResult(EndOfFile, [])
    case Some(size) =>
      match ReadBytes(size.rest, FromLittle(size.value), ready.data)
      case None => ReadResult(EndOfFile, [])
      case Some(data) =>
        match Unmarshal(data.value)
        case None => ReadResult(Malformed, data.rest)
        case Some(m) => ReadResult(Got(m), data.rest)
  }

  lemma LengthRoundTrip(n: nat)
    requires n < U32
    ensures FromLittle(Little(n, 4)) == n
  {
    assert Power256(4) == 256 * Power256(3) == 256 * 256 * Power256(2) == U32;
    LittleRoundTrip(n, 4);
  }

  /** Four bytes are, from the first, the units, the 256s, the 65536s and the 16777216s. */
  lemma LittleForm(n: nat)
    requires n < U32
    ensures var b := Little(n, 4);
            var b0: nat, b1: nat, b2: nat, b3: nat := b[0], b[1], b[2], b[3];
            n == b0 + 0x100 * b1 + 0x1_0000 * b2 + 0x100_0000 * b3
  {
    LengthRoundTrip(n);
    var b := Little(n, 4);
    var b0: nat, b1: nat, b2: nat, b3: nat := b[0], b[1], b[2], b[3];
    assert FromLittle(b[3..]) == b3;
    assert b[2..][1..] == b[3..] && FromLittle(b[2..]) == b2 + 256 * b3;
    assert b[1..][1..] == b[2..] && FromLittle(b[1..]) == b1 + 256 * FromLittle(b[2..]);
    assert FromLittle(b) == b0 + 256 * FromLittle(b[1..]);
  }

  /** What one Read gives, byte by byte. */
  lemma ReadBytesForm(s: Bytes, n: nat, ready: nat)
    ensures ReadBytes(s, n, ready).None? <==> n > 0 && s == []
    ensures ReadBytes(s, n, ready).Some? ==>
              var k := if ready < n && ready < |s| then ready else if |s| < n then |s| else n;
              var p := ReadBytes(s, n, ready).value;
              && |p.value| == n && p.rest == s[k..]
              && forall i :: 0 <= i < n ==> p.value[i] == if i < k then s[i] else 0
  {
  }

  /** What ReadMessage makes of a stream, case by case: the end of the stream at a frame's start, or
      after its length if that is not zero; else a message or an error, past the frame. */
  lemma ReadMessageCases(s: Bytes, ready: Ready)
    ensures var r := ReadMessage(s, ready);
            && (s == [] ==> r == ReadResult(EndOfFile, []))
            && (s != [] ==>
                  var size := ReadBytes(s, 4, ready.size).value;
                  var n := FromLittle(size.value);
                  && (n > 0 && size.rest == [] ==> r == ReadResult(EndOfFile, []))
                  && (n == 0 ==> r == ReadResult(Got(Message([], [])), size.rest))
                  && (n > 0 && size.rest != [] ==>
                        var data := ReadBytes(size.rest, n, ready.data).value;
                        && r.rest == data.rest && !r.reading.EndOfFile?
                        && (r.reading.Malformed? <==> Unmarshal(data.value).None?)
                        && (r.reading.Got? ==> Unmarshal(data.value) == Some(r.reading.message))))
  {
    if s != [] {
      var size := ReadBytes(s, 4, ready.size).value;
      if FromLittle(size.value) == 0 {
        assert size.rest[..0] + Zeros(0) == [] && size.rest[0..] == size.rest;
        assert ReadBytes(size.rest, 0, ready.data) == Some(Parsed([], size.rest));
      }
    }
  }

  lemma FullRead(s: Bytes, n: nat, ready: nat)
    requires n <= |s| && n <= ready
    ensures ReadBytes(s, n, ready) == Some(Parsed(s[..n], s[n..]))
  {
    assert s[..n] + Zeros(0) == s[..n];
  }

  /** A frame whose two Reads are filled gives its data back if this is shorter than 2^32 bytes; of
      longer data it gives a prefix, and the remainder is taken for the next frame. */
  lemma FilledFrame(data: Bytes, rest: Bytes, ready: Ready)
    requires ready.size >= 4 && ready.data >= |data| % U32
    ensures ReadFrame(Frame(data) + rest, ready) == Some(Parsed(data[..|data| % U32], data[|data| % U32..] + rest))
  {
    hide ReadBytes, Little, FromLittle;
    var n := |data| % U32;
    LengthRoundTrip(n);
    HeadAndTail(Little(n, 4), data, rest);
    FullRead(Frame(data) + rest, 4, ready.size);
    FullRead(data + rest, n, ready.data);
    assert (data + rest)[..n] == data[..n] && (data + rest)[n..] == data[n..] + rest;
  }

  lemma HeadAndTail(size: Bytes, data: Bytes, rest: Bytes)
    requires |size| == 4
    ensures (size + data + rest)[..4] == size && (size + data + rest)[4..] == data + rest
  {
  }

  /** Reading after writing gives the data back, and leaves what follows, exactly if the data is
      shorter than 2^32 bytes and neither Read comes back short. */
  lemma FrameReadsBackIff(data: Bytes, rest: Bytes, ready: Ready)
    ensures ReadFrame(Frame(data) + rest, ready) == Some(Parsed(data, rest)) <==>
            |data| < U32 && ready.size >= 4 && ready.data >= |data|
  {
    var s := Frame(data) + rest;
    if |data| < U32 && ready.size >= 4 && ready.data >= |data| {
      FilledFrame(data, rest, ready);
      assert data[..|data|] == data && data[|data|..] + rest == rest;
    } else if ReadFrame(s, ready) == Some(Parsed(data, rest)) {
      FrameConsumes(s, ready);
    }
  }

  /** What a frame's data can be, and how much of the stream it takes. */
  lemma FrameConsumes(s: Bytes, ready: Ready)
    requires ReadFrame(s, ready).Some?
    ensures var frame := ReadFrame(s, ready).value;
            |frame.value| < U32 && |s| <= Least(4, ready.size) + Least(|frame.value|, ready.data) + |frame.rest|
  {
    FromLittleFits(ReadBytes(s, 4, ready.size).value.value);
  }

  lemma FromLittleFits(b: Bytes)
    requires |b| == 4
    ensures FromLittle(b) < U32
  {
    FromLittleBound(b);
    assert Power256(4) == 256 * Power256(3) == 256 * 256 * Power256(2) == U32;
  }

  lemma {:induction false} FromLittleBound(b: Bytes)
    ensures FromLittle(b) < Power256(|b|)
  {
    if b != [] {
      FromLittleBound(b[1..]);
    }
  }

  function WriteAll(ms: seq<Message>): Bytes {
    if ms == [] then [] else Frame(Marshal(ms[0])) + WriteAll(ms[1..])
  }

  datatype Session = Session(messages: seq<Message>, rest: Bytes)

  /** One message for each entry of `ready`, if the stream has them. */
  function ReadAll(s: Bytes, ready: seq<Ready>): Option<Session>
    decreases |ready|
  {
    if ready == [] then Some(Session([], s))
    else
      var r := ReadMessage(s, ready[0]);
      if !r.reading.Got? then None
      else
        match ReadAll(r.rest, ready[1..])
        case None => None
        case Some(more) => Some(Session([r.reading.message] + more.messages, more.rest))
  }

  /** Neither Read of a message comes back short. */
  predicate Fills(ready: seq<Ready>, ms: seq<Message>) {
    |ready| == |ms| && forall i :: 0 <= i < |ms| ==> ready[i].size >= 4 && ready[i].data >= |Marshal(ms[i])|
  }

  lemma ReadsOne(m: Message, later: Bytes, ready: Ready)
    requires |Marshal(m)| < U32 && ready.size >= 4 && ready.data >= |Marshal(m)|
    ensures ReadMessage(Frame(Marshal(m)) + later, ready) == ReadResult(Got(m), later)
  {
    FieldsFit(m);
    hide Marshal, Frame, ReadBytes;
    FrameReadsBackIff(Marshal(m), later, ready);
    MarshalRoundTrip(m);
  }

  /** Framing round trip: reading as many messages as were written, no Read coming back short,
      returns exactly those, in order, and leaves any bytes after them untouched. */
  lemma {:induction false} FramingRoundTrip(ms: seq<Message>, ready: seq<Ready>, rest: Bytes)
    requires Fills(ready, ms) && forall i :: 0 <= i < |ms| ==> |Marshal(ms[i])| < U32
    ensures ReadAll(WriteAll(ms) + rest, ready) == Some(Session(ms, rest))
    decreases |ms|
  {
    hide ReadMessage, Frame, Marshal;
    if ms == [] {
      assert WriteAll(ms) + rest == rest;
    } else {
      var later := WriteAll(ms[1..]) + rest;
      assert WriteAll(ms) + rest == Frame(Marshal(ms[0])) + later;
      ReadsOne(ms[0], later, ready[0]);
      FramingRoundTrip(ms[1..], ready[1..], rest);
      assert [ms[0]] + ms[1..] == ms;
    }
  }

  lemma FieldsFit(m: Message)
    requires |Marshal(m)| < U32
    ensures |m.command| < U32 && |m.data| < U32
  {
  }

  // ----- The connection ends -----

  /** An io.Writer and what has been written to it. */
  class Writer {
    var output: Bytes

    constructor ()
      ensures output == []
    {
      output := [];
    }

    method WriteMessage(m: Message)
      modifies this
      ensures output == old(output) + Frame(Marshal(m))
    {
      var data := Marshal(m);
      var size := |data| % U32;
      var b: Bytes := [];
      b := b + Little(size, 4);
      b := b + data;
      assert b == Frame(data);
      output := output + b;
    }
  }

  /** A bufio.Reader over a stream, and how far it has got. */
  class Reader {
    const input: Bytes
    var pos: nat

    ghost predicate Valid()
      reads this
    {
      pos <= |input|
    }

    function Rest(): Bytes
      requires Valid()
      reads this
    {
      input[pos..]
    }

    constructor (input: Bytes)
      ensures Valid() && Rest() == input
    {
      this.input := input;
      pos := 0;
    }

    /** Fills the buffer as far as the stream, and what is ready of it, go. */
    method Read(n: nat, ready: nat) returns (buffer: Bytes, eof: bool)
      requires Valid()
      modifies this
      ensures Valid() && |buffer| == n
      ensures eof == ReadBytes(old(Rest()), n, ready).None?
      ensures eof ==> Rest() == []
      ensures !eof ==> ReadBytes(old(Rest()), n, ready) == Some(Parsed(buffer, Rest()))
      ensures eof <==> n > 0 && old(Rest()) == []
      ensures var k := Least(n, Least(|old(Rest())|, ready));
              !eof ==>
                && Rest() == old(Rest())[k..]
                && forall i :: 0 <= i < n ==> buffer[i] == if i < k then old(Rest())[i] else 0
    {
      ghost var before := Rest();
      var there := |input| - pos;
      eof := n > 0 && there == 0;
      var k := Least(n, Least(there, ready));
      buffer := input[pos..pos + k] + Zeros(n - k);
      pos := pos + k;
      assert input[old(pos)..old(pos) + k] == before[..k];
      assert input[pos..] == before[k..];
    }

    method Next(ready: Ready) returns (r: Reading)
      requires Valid()
      modifies this
      ensures Valid() && ReadMessage(old(Rest()), ready) == ReadResult(r, Rest())
    {
      var size, eof := Read(4, ready.size);
      if eof {
        return EndOfFile;
      }
      var data;
      data, eof := Read(FromLittle(size), ready.data);
      if eof {
        return EndOfFile;
      }
      var m := Unmarshal(data);
      r := if m.None? then Malformed else Got(m.value);
    }
  }
}

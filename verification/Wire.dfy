/** The bytes on the wire: the two-byte category frame (src/helpers/common.rs)
    and the Bebop records it carries (src/generated/schema.rs). */
module Wire {
  import opened Results

  type byte = b: nat | b < 256
  type u16 = n: nat | n < 0x1_0000
  type Frame = seq<byte>

  // ---------------------------------------------------------------- integers

  function Pow256(width: nat): (p: nat)
    ensures p > 0
  {
    if width == 0 then 1 else 256 * Pow256(width - 1)
  }

  function EncodeUInt(width: nat, n: nat): (bytes: seq<byte>)
    ensures |bytes| == width
  {
    if width == 0 then [] else [n % 256] + EncodeUInt(width - 1, n / 256)
  }

  function DecodeUInt(bytes: seq<byte>): nat {
    if bytes == [] then 0 else bytes[0] + 256 * DecodeUInt(bytes[1..])
  }

  lemma {:induction false} DecodeEncodeUInt(width: nat, n: nat)
    requires n < Pow256(width)
    ensures DecodeUInt(EncodeUInt(width, n)) == n
  {
    if width > 0 {
      DecodeEncodeUInt(width - 1, n / 256);
      assert EncodeUInt(width, n)[1..] == EncodeUInt(width - 1, n / 256);
    }
  }

  lemma {:induction false} EncodeDecodeUInt(bytes: seq<byte>)
    ensures DecodeUInt(bytes) < Pow256(|bytes|)
    ensures EncodeUInt(|bytes|, DecodeUInt(bytes)) == bytes
  {
    if bytes != [] {
      var high := DecodeUInt(bytes[1..]);
      EncodeDecodeUInt(bytes[1..]);
      assert DecodeUInt(bytes) % 256 == bytes[0] && DecodeUInt(bytes) / 256 == high;
    }
  }

  /** What the bytes are worth when byte i weighs 256^i. */
  function Worth(bytes: seq<byte>): nat {
    if bytes == [] then 0
    else Worth(bytes[..|bytes| - 1]) + bytes[|bytes| - 1] * Pow256(|bytes| - 1)
  }

  /** The low byte comes first. */
  lemma {:induction false} LittleEndian(bytes: seq<byte>)
    ensures DecodeUInt(bytes) == Worth(bytes)
    decreases |bytes|
  {
    if bytes != [] {
      LittleEndian(bytes[..|bytes| - 1]);
      LastByteWeighs(bytes[..|bytes| - 1], bytes[|bytes| - 1]);
      assert bytes == bytes[..|bytes| - 1] + [bytes[|bytes| - 1]];
    }
  }

  lemma {:induction false} LastByteWeighs(front: seq<byte>, last: byte)
    ensures DecodeUInt(front + [last]) == DecodeUInt(front) + last * Pow256(|front|)
  {
    if front == [] {
      assert front + [last] == [last] && [last][1..] == [];
    } else {
      LastByteWeighs(front[1..], last);
      assert (front + [last])[1..] == front[1..] + [last];
      assert 256 * (last * Pow256(|front| - 1)) == last * Pow256(|front|);
    }
  }

  // ------------------------------------------------------------------ fields

  /** The field types the generated records use. A string is its UTF-8 bytes. */
  datatype FieldType = UInt(width: nat) | Int32 | Bytes | Str

  datatype Value = Num(n: int) | Raw(raw: seq<byte>)

  const LEN_SIZE: nat := 4

  /** A length has to fit its u32 prefix. */
  const LEN_LIMIT: nat := 0x1_0000_0000

  datatype DecodeError = MoreDataExpected(missing: nat) | InvalidUtf8

  /** How many bytes the character starting at `b[0]` takes; 0 when it is
      malformed (section 4 of RFC 3629). */
  function Utf8CharLength(b: seq<byte>): (n: nat)
    requires b != []
    ensures n <= |b|
  {
    if b[0] <= 0x7F then 1
    else if 0xC2 <= b[0] <= 0xDF then if Utf8Tail(b, 1) then 2 else 0
    else if 0xE0 <= b[0] <= 0xEF then
      if Utf8Tail(b, 1) && Utf8Tail(b, 2) && (b[0] == 0xE0 ==> b[1] >= 0xA0) && (b[0] == 0xED ==> b[1] <= 0x9F) then 3 else 0
    else if 0xF0 <= b[0] <= 0xF4 then
      if Utf8Tail(b, 1) && Utf8Tail(b, 2) && Utf8Tail(b, 3) && (b[0] == 0xF0 ==> b[1] >= 0x90) && (b[0] == 0xF4 ==> b[1] <= 0x8F) then 4
      else 0
    else 0
  }

  predicate Utf8Tail(b: seq<byte>, i: nat) {
    i < |b| && 0x80 <= b[i] <= 0xBF
  }

  predicate IsUtf8(b: seq<byte>) {
    b == [] || (Utf8CharLength(b) > 0 && IsUtf8(b[Utf8CharLength(b)..]))
  }

  /** A Unicode scalar value, and its encoding (section 3 of RFC 3629). */
  type Scalar = n: nat | n < 0xD800 || 0xE000 <= n < 0x11_0000

  function EncodeChar(c: Scalar): (b: seq<byte>)
    ensures 1 <= |b| <= 4
  {
    if c < 0x80 then [c]
    else if c < 0x800 then [0xC0 + c / 0x40, 0x80 + c % 0x40]
    else if c < 0x1_0000 then [0xE0 + c / 0x40 / 0x40, 0x80 + c / 0x40 % 0x40, 0x80 + c % 0x40]
    else [0xF0 + c / 0x40 / 0x40 / 0x40, 0x80 + c / 0x40 / 0x40 % 0x40, 0x80 + c / 0x40 % 0x40, 0x80 + c % 0x40]
  }

  function EncodeText(cs: seq<Scalar>): seq<byte> {
    if cs == [] then [] else EncodeChar(cs[0]) + EncodeText(cs[1..])
  }

  lemma CharIsAccepted(c: Scalar, rest: seq<byte>)
    ensures Utf8CharLength(EncodeChar(c) + rest) == |EncodeChar(c)|
  {
  }

  lemma Sextet(high: nat, low: nat)
    requires low < 0x40
    ensures (high * 0x40 + low) / 0x40 == high && (high * 0x40 + low) % 0x40 == low
  {
  }

  lemma AcceptedIsChar(b: seq<byte>) returns (c: Scalar)
    requires b != [] && Utf8CharLength(b) > 0
    ensures EncodeChar(c) == b[..Utf8CharLength(b)]
  {
    if b[0] <= 0x7F {
      c := b[0];
    } else {
      c := LongCharIs(b);
    }
  }

  /** The bits behind the marks, put back together. */
  lemma LongCharIs(b: seq<byte>) returns (c: Scalar)
    requires b != [] && Utf8CharLength(b) >= 2
    ensures EncodeChar(c) == b[..Utf8CharLength(b)]
  {
    var n := Utf8CharLength(b);
    var b0: nat, b1: nat := b[0], b[1];
    if n == 2 {
      c := (b0 - 0xC0) * 0x40 + (b1 - 0x80);
      Sextet(b0 - 0xC0, b1 - 0x80);
    } else if n == 3 {
      var b2: nat := b[2];
      var high := (b0 - 0xE0) * 0x40 + (b1 - 0x80);
      c := high * 0x40 + (b2 - 0x80);
      Sextet(high, b2 - 0x80);
      Sextet(b0 - 0xE0, b1 - 0x80);
    } else {
      var b2: nat, b3: nat := b[2], b[3];
      var top := (b0 - 0xF0) * 0x40 + (b1 - 0x80);
      var high := top * 0x40 + (b2 - 0x80);
      c := high * 0x40 + (b3 - 0x80);
      Sextet(high, b3 - 0x80);
      Sextet(top, b2 - 0x80);
      Sextet(b0 - 0xF0, b1 - 0x80);
    }
  }

  /** The bytes a string field accepts are exactly the encodings of texts. */
  lemma Utf8ExactlyWhen(b: seq<byte>)
    ensures IsUtf8(b) <==> exists cs :: EncodeText(cs) == b
  {
    if IsUtf8(b) {
      var cs := TextOf(b);
    }
    if cs :| EncodeText(cs) == b {
      TextIsAccepted(cs);
    }
  }

  lemma {:induction false} TextOf(b: seq<byte>) returns (cs: seq<Scalar>)
    requires IsUtf8(b)
    ensures EncodeText(cs) == b
    decreases |b|
  {
    hide EncodeChar, Utf8CharLength;
    if b == [] {
      cs := [];
    } else {
      var n := Utf8CharLength(b);
      var c := AcceptedIsChar(b);
      var tail := TextOf(b[n..]);
      cs := [c] + tail;
      assert cs[1..] == tail && b == b[..n] + b[n..];
    }
  }

  lemma {:induction false} TextIsAccepted(cs: seq<Scalar>)
    ensures IsUtf8(EncodeText(cs))
    decreases |cs|
  {
    hide EncodeChar, Utf8CharLength;
    if cs != [] {
      var b, tail := EncodeChar(cs[0]), EncodeText(cs[1..]);
      TextIsAccepted(cs[1..]);
      CharIsAccepted(cs[0], tail);
      assert (b + tail)[|b|..] == tail;
    }
  }

  predicate Fits(v: Value, t: FieldType) {
    match t
    case UInt(width) => v.Num? && 0 <= v.n < Pow256(width)
    case Int32 => v.Num? && -0x8000_0000 <= v.n < 0x8000_0000
    case Bytes => v.Raw? && |v.raw| < LEN_LIMIT
    case Str => v.Raw? && |v.raw| < LEN_LIMIT && IsUtf8(v.raw)
  }

  function EncodeField(v: Value, t: FieldType): seq<byte>
    requires Fits(v, t)
  {
    match t
    case UInt(width) => EncodeUInt(width, v.n)
    case Int32 => EncodeUInt(4, if v.n < 0 then v.n + 0x1_0000_0000 else v.n)
    case Bytes => EncodeUInt(LEN_SIZE, |v.raw|) + v.raw
    case Str => EncodeUInt(LEN_SIZE, |v.raw|) + v.raw
  }

  function MinFieldSize(t: FieldType): nat {
    match t
    case UInt(width) => width
    case Int32 => 4
    case Bytes => LEN_SIZE
    case Str => LEN_SIZE
  }

  /** A value and how many bytes of the input it took. */
  function DecodeField(raw: seq<byte>, t: FieldType): Result<(nat, Value), DecodeError> {
    if |raw| < MinFieldSize(t) then Err(MoreDataExpected(MinFieldSize(t) - |raw|))
    else
      match t
      case UInt(width) => Ok((width, Num(DecodeUInt(raw[..width]))))
      case Int32 =>
        var n := DecodeUInt(raw[..4]);
        Ok((4, Num(if n >= 0x8000_0000 then n - 0x1_0000_0000 else n)))
      case Bytes => DecodePrefixed(raw)
      case Str =>
        var r := DecodePrefixed(raw);
        if r.Ok? && !IsUtf8(r.value.1.raw) then Err(InvalidUtf8) else r
  }

  /** A u32 length and that many bytes. */
  function DecodePrefixed(raw: seq<byte>): (r: Result<(nat, Value), DecodeError>)
    requires |raw| >= LEN_SIZE
    ensures r.Ok? ==> r.value.1.Raw?
  {
    var end := LEN_SIZE + DecodeUInt(raw[..LEN_SIZE]);
    if |raw| < end then Err(MoreDataExpected(end - |raw|)) else Ok((end, Raw(raw[LEN_SIZE..end])))
  }

  lemma Pow256Four()
    ensures Pow256(4) == 0x1_0000_0000
  {
    assert Pow256(1) == 256 && Pow256(2) == 0x1_0000 && Pow256(3) == 0x100_0000;
  }

  /** The integer a field's encoding starts with: its own value, or its length. */
  function Head(v: Value, t: FieldType): nat
    requires Fits(v, t)
  {
    if v.Raw? then |v.raw| else if v.n < 0 then v.n + 0x1_0000_0000 else v.n
  }

  lemma EncodeFieldShape(v: Value, t: FieldType)
    requires Fits(v, t)
    ensures EncodeField(v, t) == EncodeUInt(MinFieldSize(t), Head(v, t)) + (if v.Raw? then v.raw else [])
    ensures DecodeUInt(EncodeUInt(MinFieldSize(t), Head(v, t))) == Head(v, t)
  {
    Pow256Four();
    DecodeEncodeUInt(MinFieldSize(t), Head(v, t));
  }

  lemma DecodedFieldIsEncoded(raw: seq<byte>, t: FieldType, n: nat, v: Value)
    requires DecodeField(raw, t) == Ok((n, v))
    ensures n <= |raw| && Fits(v, t) && EncodeField(v, t) == raw[..n]
  {
    hide Utf8CharLength, IsUtf8, EncodeUInt, DecodeUInt;
    Pow256Four();
    EncodeDecodeUInt(raw[..MinFieldSize(t)]);
  }

  lemma EncodedFieldIsDecoded(v: Value, t: FieldType, suffix: seq<byte>)
    requires Fits(v, t)
    ensures DecodeField(EncodeField(v, t) + suffix, t) == Ok((|EncodeField(v, t)|, v))
  {
    EncodeFieldShape(v, t);
    var raw, size := EncodeField(v, t) + suffix, MinFieldSize(t);
    assert raw[..size] == EncodeUInt(size, Head(v, t));
    assert v.Raw? ==> raw[size..|EncodeField(v, t)|] == v.raw;
  }

  // ----------------------------------------------------------------- records

  type Schema = seq<FieldType>

  const DATA: Schema := [UInt(2), Bytes]
  const PING: Schema := [Str, Int32]
  const PONG: Schema := [Int32]
  const DISCONNECT: Schema := [Str]
  const APP_STARTUP: Schema := [Str, UInt(1)]
  const SAVE_DATA: Schema := [UInt(2), Bytes]
  const SERVER_CONNECT_INFO: Schema := [Str, Str]

  predicate RecordFits(vs: seq<Value>, schema: Schema) {
    |vs| == |schema| && forall i :: 0 <= i < |vs| ==> Fits(vs[i], schema[i])
  }

  function EncodeRecord(vs: seq<Value>, schema: Schema): seq<byte>
    requires RecordFits(vs, schema)
  {
    if schema == [] then [] else EncodeField(vs[0], schema[0]) + EncodeRecord(vs[1..], schema[1..])
  }

  function MinRecordSize(schema: Schema): nat {
    if schema == [] then 0 else MinFieldSize(schema[0]) + MinRecordSize(schema[1..])
  }

  /** The fields one after another, each from where the previous one stopped. */
  function DecodeFields(raw: seq<byte>, schema: Schema): (r: Result<(nat, seq<Value>), DecodeError>)
    ensures r.Ok? ==> r.value.0 <= |raw|
  {
    if schema == [] then Ok((0, []))
    else
      match DecodeField(raw, schema[0])
      case Err(e) => Err(e)
      case Ok((read, v)) =>
        match DecodeFields(raw[read..], schema[1..])
        case Err(e) => Err(e)
        case Ok((rest, vs)) => Ok((read + rest, [v] + vs))
  }

  function DecodeRecord(raw: seq<byte>, schema: Schema): Result<(nat, seq<Value>), DecodeError> {
    if |raw| < MinRecordSize(schema) then Err(MoreDataExpected(MinRecordSize(schema) - |raw|))
    else DecodeFields(raw, schema)
  }

  lemma {:induction false} DecodedFieldsAreEncoded(raw: seq<byte>, schema: Schema, n: nat, vs: seq<Value>)
    requires DecodeFields(raw, schema) == Ok((n, vs))
    ensures RecordFits(vs, schema) && EncodeRecord(vs, schema) == raw[..n]
  {
    hide DecodeField, EncodeField, Fits;
    if schema != [] {
      var (read, v) := DecodeField(raw, schema[0]).value;
      var (rest, ws) := DecodeFields(raw[read..], schema[1..]).value;
      DecodedFieldIsEncoded(raw, schema[0], read, v);
      DecodedFieldsAreEncoded(raw[read..], schema[1..], rest, ws);
      assert vs[0] == v && vs[1..] == ws;
      assert raw[..n] == raw[..read] + raw[read..][..rest];
    }
  }

  lemma {:induction false} EncodedFieldsAreDecoded(vs: seq<Value>, schema: Schema, suffix: seq<byte>)
    requires RecordFits(vs, schema)
    ensures DecodeFields(EncodeRecord(vs, schema) + suffix, schema) == Ok((|EncodeRecord(vs, schema)|, vs))
  {
    hide DecodeField, EncodeField, Fits;
    if schema != [] {
      var e, rest := EncodeField(vs[0], schema[0]), EncodeRecord(vs[1..], schema[1..]);
      EncodedFieldIsDecoded(vs[0], schema[0], rest + suffix);
      EncodedFieldsAreDecoded(vs[1..], schema[1..], suffix);
      assert EncodeRecord(vs, schema) + suffix == e + (rest + suffix);
      assert (e + (rest + suffix))[|e|..] == rest + suffix;
      assert vs == [vs[0]] + vs[1..];
    }
  }

  lemma {:induction false} MinRecordSizeBound(vs: seq<Value>, schema: Schema)
    requires RecordFits(vs, schema)
    ensures |EncodeRecord(vs, schema)| >= MinRecordSize(schema)
  {
    if schema != [] {
      MinRecordSizeBound(vs[1..], schema[1..]);
    }
  }

  /** For every record type: a decoder answers (n, vs) exactly when the first n
      bytes are the encoding of vs, whatever follows them. */
  lemma DecodeRecordExact(raw: seq<byte>, schema: Schema, n: nat, vs: seq<Value>)
    ensures DecodeRecord(raw, schema) == Ok((n, vs))
       <==> RecordFits(vs, schema) && EncodeRecord(vs, schema) <= raw && n == |EncodeRecord(vs, schema)|
  {
    hide DecodeFields, EncodeRecord, RecordFits;
    if DecodeRecord(raw, schema) == Ok((n, vs)) {
      DecodedFieldsAreEncoded(raw, schema, n, vs);
    }
    if RecordFits(vs, schema) && EncodeRecord(vs, schema) <= raw {
      MinRecordSizeBound(vs, schema);
      EncodedFieldsAreDecoded(vs, schema, raw[|EncodeRecord(vs, schema)|..]);
      assert raw == EncodeRecord(vs, schema) + raw[|EncodeRecord(vs, schema)|..];
    }
  }

  lemma RecordRoundTrip(vs: seq<Value>, schema: Schema, suffix: seq<byte>)
    requires RecordFits(vs, schema)
    ensures DecodeRecord(EncodeRecord(vs, schema) + suffix, schema) == Ok((|EncodeRecord(vs, schema)|, vs))
  {
    DecodeRecordExact(EncodeRecord(vs, schema) + suffix, schema, |EncodeRecord(vs, schema)|, vs);
  }

  lemma EncodingsAreDistinct(vs: seq<Value>, ws: seq<Value>, schema: Schema)
    requires RecordFits(vs, schema) && RecordFits(ws, schema)
    requires EncodeRecord(vs, schema) <= EncodeRecord(ws, schema)
    ensures vs == ws
  {
    var raw := EncodeRecord(ws, schema);
    DecodeRecordExact(raw, schema, |EncodeRecord(vs, schema)|, vs);
    DecodeRecordExact(raw, schema, |raw|, ws);
  }

  /** A field cut short asks for more, and for no more than is missing. */
  lemma ShortFieldAsks(v: Value, t: FieldType, raw: seq<byte>)
    requires Fits(v, t) && raw <= EncodeField(v, t) && raw != EncodeField(v, t)
    ensures var r := DecodeField(raw, t);
      r.Err? && r.error.MoreDataExpected? && 1 <= r.error.missing <= |EncodeField(v, t)| - |raw|
  {
    EncodeFieldShape(v, t);
    var size := MinFieldSize(t);
    if |raw| >= size {
      assert raw[..size] == EncodeUInt(size, Head(v, t));
    }
    hide EncodeUInt, DecodeUInt, IsUtf8, Pow256;
  }

  /** A string field is refused as text exactly when all its bytes are there
      and are not UTF-8. */
  lemma RefusesTextExactlyWhen(raw: seq<byte>, t: FieldType)
    ensures DecodeField(raw, t) == Err(InvalidUtf8) <==>
      t.Str? && |raw| >= 4 && |raw| >= 4 + DecodeUInt(raw[..4]) && !IsUtf8(raw[4..4 + DecodeUInt(raw[..4])])
  {
    hide IsUtf8, DecodeUInt;
  }

  lemma {:induction false} ShortFieldsAsk(vs: seq<Value>, schema: Schema, raw: seq<byte>)
    requires RecordFits(vs, schema) && raw <= EncodeRecord(vs, schema) && raw != EncodeRecord(vs, schema)
    ensures var r := DecodeFields(raw, schema);
      r.Err? && r.error.MoreDataExpected? && 1 <= r.error.missing <= |EncodeRecord(vs, schema)| - |raw|
    decreases |schema|
  {
    hide DecodeField, EncodeField, Fits;
    var e, rest := EncodeField(vs[0], schema[0]), EncodeRecord(vs[1..], schema[1..]);
    assert EncodeRecord(vs, schema) == e + rest;
    if |raw| < |e| {
      assert raw == e[..|raw|];
      ShortFieldAsks(vs[0], schema[0], raw);
    } else {
      assert raw[..|e|] == e && raw == e + raw[|e|..] && raw[|e|..] == rest[..|raw| - |e|];
      EncodedFieldIsDecoded(vs[0], schema[0], raw[|e|..]);
      ShortFieldsAsk(vs[1..], schema[1..], raw[|e|..]);
    }
  }

  /** Any proper prefix of a record's encoding is refused, with a request for at
      least one byte and at most as many as are missing. */
  lemma TruncatedRecordAsks(vs: seq<Value>, schema: Schema, raw: seq<byte>)
    requires RecordFits(vs, schema) && raw <= EncodeRecord(vs, schema) && raw != EncodeRecord(vs, schema)
    ensures var r := DecodeRecord(raw, schema);
      r.Err? && r.error.MoreDataExpected? && 1 <= r.error.missing <= |EncodeRecord(vs, schema)| - |raw|
  {
    MinRecordSizeBound(vs, schema);
    ShortFieldsAsk(vs, schema, raw);
    hide DecodeFields, EncodeRecord, RecordFits, MinRecordSize;
  }

  /** A generated `_deserialize_chained`: the size check, then one field at a
      time with the cursor `i`. */
  method Deserialize(raw: seq<byte>, schema: Schema) returns (r: Result<(nat, seq<Value>), DecodeError>)
    ensures r == DecodeRecord(raw, schema)
  {
    hide DecodeField;
    if |raw| < MinRecordSize(schema) {
      return Err(MoreDataExpected(MinRecordSize(schema) - |raw|));
    }
    var i, k, vs := 0, 0, [];
    assert raw[0..] == raw && schema[0..] == schema && forall ws: seq<Value> :: [] + ws == ws;
    while k < |schema|
      invariant 0 <= k <= |schema| && 0 <= i <= |raw|
      invariant DecodeFields(raw, schema) == After(i, vs, DecodeFields(raw[i..], schema[k..]))
    {
      match DecodeField(raw[i..], schema[k]) {
        case Err(e) => return Err(e);
        case Ok((read, v)) =>
          DecodeNextField(raw, schema, i, k, vs, read, v);
          i, k, vs := i + read, k + 1, vs + [v];
      }
    }
    assert vs + [] == vs;
    return Ok((i, vs));
  }

  /** The whole answer, once `i` bytes gave `vs` and the rest answers `r`. */
  function After(i: nat, vs: seq<Value>, r: Result<(nat, seq<Value>), DecodeError>): Result<(nat, seq<Value>), DecodeError> {
    match r
    case Err(e) => Err(e)
    case Ok((rest, ws)) => Ok((i + rest, vs + ws))
  }

  lemma DecodeNextField(raw: seq<byte>, schema: Schema, i: nat, k: nat, vs: seq<Value>, read: nat, v: Value)
    requires i <= |raw| && k < |schema| && DecodeField(raw[i..], schema[k]) == Ok((read, v))
    ensures i + read <= |raw|
    ensures After(i, vs, DecodeFields(raw[i..], schema[k..])) ==
            After(i + read, vs + [v], DecodeFields(raw[i + read..], schema[k + 1..]))
  {
    DecodedFieldIsEncoded(raw[i..], schema[k], read, v);
    hide DecodeField;
    assert raw[i..][read..] == raw[i + read..] && schema[k..][1..] == schema[k + 1..];
    assert forall ws: seq<Value> :: vs + ([v] + ws) == vs + [v] + ws;
  }

  // ------------------------------------------------------------------ frames

  datatype Category =
    | Ping | Pong | Expired | Disconnect | AppStartup | AppStartupOutput
    | SaveData | ServerConnectInfo | ValidClient | ClientId

  function Code(c: Category): u16 {
    match c
    case Ping => 10000
    case Pong => 10001
    case Expired => 10002
    case Disconnect => 10003
    case AppStartup => 10004
    case AppStartupOutput => 10005
    case SaveData => 10006
    case ServerConnectInfo => 10007
    case ValidClient => 10008
    case ClientId => 10009
  }

  datatype Data = Data(category: u16, datas: seq<byte>)

  function MakeAtomicMessage(category: u16, datas: seq<byte>): Frame {
    [category % 256, category / 256] + datas
  }

  /** None is the error for a frame that is too short to hold a category. */
  function GetDataSchema(frame: Frame): Option<Data> {
    if |frame| < 2 then None
    else
      var low: nat, high: nat := frame[0], frame[1];
      Some(Data(low + high * 256, frame[2..]))
  }

  predicate IsDisconnect(frame: Frame) {
    var data := GetDataSchema(frame);
    data.Some? && data.value.category == Code(Disconnect)
  }

  /** Framing and unframing are mutually inverse. */
  lemma FrameExact(frame: Frame, data: Data)
    ensures GetDataSchema(frame) == Some(data) <==> frame == MakeAtomicMessage(data.category, data.datas)
  {
  }

  /** What the receiving side hands to the application for one frame. */
  function HandlerBytes(data: Data): seq<byte>
    requires |data.datas| < LEN_LIMIT
  {
    Pow256Two();
    EncodeRecord([Num(data.category), Raw(data.datas)], DATA)
  }

  lemma Pow256Two()
    ensures Pow256(2) == 0x1_0000
  {
    assert Pow256(1) == 256;
  }

  /** From `make_atomic_message` on one side to the application's decoded
      `Data` on the other, category and payload survive. */
  lemma MessagePathRoundTrip(category: u16, datas: seq<byte>)
    requires |datas| < LEN_LIMIT
    ensures var received := GetDataSchema(MakeAtomicMessage(category, datas));
      received.Some? && |received.value.datas| < LEN_LIMIT &&
      var handed := HandlerBytes(received.value);
      DecodeRecord(handed, DATA) == Ok((|handed|, [Num(category), Raw(datas)]))
  {
    FrameExact(MakeAtomicMessage(category, datas), Data(category, datas));
    Pow256Two();
    RecordRoundTrip([Num(category), Raw(datas)], DATA, []);
    var e := HandlerBytes(Data(category, datas));
    assert e + [] == e;
  }

  // -------------------------------------------------------- control messages

  type Text = s: seq<byte> | |s| < LEN_LIMIT && IsUtf8(s)

  function MakePing(peer: Text): Frame {
    MakeAtomicMessage(Code(Ping), EncodeRecord([Raw(peer), Num(0)], PING))
  }

  function MakePong(): Frame {
    MakeAtomicMessage(Code(Pong), [])
  }

  function MakeDisconnect(peer: Text): Frame {
    MakeAtomicMessage(Code(Disconnect), EncodeRecord([Raw(peer)], DISCONNECT))
  }

  /** The peer id in a decodable Ping payload. */
  function PingPeer(datas: seq<byte>): Option<seq<byte>> {
    match DecodeRecord(datas, PING)
    case Err(_) => None
    case Ok((_, vs)) => if |vs| == 2 && vs[0].Raw? then Some(vs[0].raw) else None
  }

  /** Every Ping a client builds is read back as a Ping from that client. */
  lemma PingIsUnderstood(peer: Text)
    ensures GetDataSchema(MakePing(peer)).Some?
    ensures GetDataSchema(MakePing(peer)).value.category == Code(Ping)
    ensures PingPeer(GetDataSchema(MakePing(peer)).value.datas) == Some(peer)
  {
    var body := EncodeRecord([Raw(peer), Num(0)], PING);
    FrameExact(MakePing(peer), Data(Code(Ping), body));
    RecordRoundTrip([Raw(peer), Num(0)], PING, []);
    assert body + [] == body;
  }

  /** The whole of a Ping on the wire: its code, the name's length and bytes,
      and an activation count of zero. */
  lemma PingOnTheWire(peer: Text)
    ensures MakePing(peer) == [0x10, 0x27] + EncodeUInt(4, |peer|) + peer + [0, 0, 0, 0]
  {
    FourZeros();
    hide EncodeUInt, IsUtf8, Pow256;
    assert EncodeField(Raw(peer), Str) == EncodeUInt(4, |peer|) + peer;
    assert EncodeField(Num(0), Int32) == [0, 0, 0, 0];
    PairOnTheWire(Raw(peer), Num(0), Str, Int32);
    hide EncodeRecord, EncodeField, Fits;
    Gather([0x10, 0x27], EncodeUInt(4, |peer|), peer, [0, 0, 0, 0]);
  }

  lemma Gather(a: seq<byte>, b: seq<byte>, c: seq<byte>, d: seq<byte>)
    ensures a + (b + c + d) == a + b + c + d && a + (b + c) == a + b + c
  {
  }

  lemma FourZeros()
    ensures EncodeUInt(4, 0) == [0, 0, 0, 0]
  {
    assert EncodeUInt(1, 0) == [0] && EncodeUInt(2, 0) == [0, 0] && EncodeUInt(3, 0) == [0, 0, 0];
  }

  lemma PairOnTheWire(a: Value, b: Value, ta: FieldType, tb: FieldType)
    requires Fits(a, ta) && Fits(b, tb)
    ensures EncodeRecord([a, b], [ta, tb]) == EncodeField(a, ta) + EncodeField(b, tb)
  {
    hide EncodeField, Fits;
    var vs, schema := [a, b], [ta, tb];
    assert vs[1..] == [b] && schema[1..] == [tb] && vs[1..][1..] == [] && schema[1..][1..] == [];
    assert EncodeRecord(vs[1..][1..], schema[1..][1..]) == [];
    assert EncodeRecord(vs[1..], schema[1..]) == EncodeField(b, tb) + [];
  }

  lemma DisconnectOnTheWire(peer: Text)
    ensures MakeDisconnect(peer) == [0x13, 0x27] + EncodeUInt(4, |peer|) + peer
  {
    hide EncodeUInt, IsUtf8, Pow256;
    var vs: seq<Value>, schema: Schema := [Raw(peer)], DISCONNECT;
    assert vs[1..] == [] && schema[1..] == [] && EncodeRecord(vs[1..], schema[1..]) == [];
    assert EncodeRecord(vs, schema) == EncodeUInt(4, |peer|) + peer + [];
    hide EncodeRecord, Fits;
    Gather([0x13, 0x27], EncodeUInt(4, |peer|), peer, []);
  }

  /** A Ping payload names its client exactly when it begins with the encoding
      of that name and some count. */
  lemma PingPeerExactlyWhen(datas: seq<byte>, peer: seq<byte>)
    ensures PingPeer(datas) == Some(peer) <==>
      exists n :: RecordFits([Raw(peer), Num(n)], PING) && EncodeRecord([Raw(peer), Num(n)], PING) <= datas
  {
    hide DecodeRecord, EncodeRecord;
    if PingPeer(datas) == Some(peer) {
      var (read, vs) := DecodeRecord(datas, PING).value;
      DecodeRecordExact(datas, PING, read, vs);
      assert Fits(vs[1], PING[1]);
      assert vs == [Raw(peer), Num(vs[1].n)];
    }
    if n :| RecordFits([Raw(peer), Num(n)], PING) && EncodeRecord([Raw(peer), Num(n)], PING) <= datas {
      var vs := [Raw(peer), Num(n)];
      DecodeRecordExact(datas, PING, |EncodeRecord(vs, PING)|, vs);
    }
  }

  /** The conversion of a number into a category; None is the error for one
      that names none. */
  function CategoryOf(value: nat): Option<Category> {
    match value
    case 10000 => Some(Ping)
    case 10001 => Some(Pong)
    case 10002 => Some(Expired)
    case 10003 => Some(Disconnect)
    case 10004 => Some(AppStartup)
    case 10005 => Some(AppStartupOutput)
    case 10006 => Some(SaveData)
    case 10007 => Some(ServerConnectInfo)
    case 10008 => Some(ValidClient)
    case 10009 => Some(ClientId)
    case _ => None
  }

  /** The two conversions are mutually inverse, and exactly ten numbers convert. */
  lemma CategoryExactlyWhen(value: nat, c: Category)
    ensures CategoryOf(value) == Some(c) <==> value == Code(c)
    ensures CategoryOf(value).Some? <==> 10000 <= value < 10010
  {
  }

  // ----------------------------------------------------------- other records

  /** The stored server record and the application's records, each from its own
      fields and before any suffix. */
  lemma RecordsRoundTrip(
    ip: Text, port: Text, activations: int, id: Text, appType: byte, saveKey: u16, datas: seq<byte>, suffix: seq<byte>)
    requires -0x8000_0000 <= activations < 0x8000_0000 && |datas| < LEN_LIMIT
    ensures RoundTrips([Raw(ip), Raw(port)], SERVER_CONNECT_INFO, suffix)
    ensures RoundTrips([Num(activations)], PONG, suffix)
    ensures RoundTrips([Raw(id), Num(appType)], APP_STARTUP, suffix)
    ensures RoundTrips([Num(saveKey), Raw(datas)], SAVE_DATA, suffix)
  {
    hide EncodeRecord, DecodeRecord, IsUtf8;
    Pow256Two();
    assert Pow256(1) == 256;
    RecordRoundTrip([Raw(ip), Raw(port)], SERVER_CONNECT_INFO, suffix);
    RecordRoundTrip([Num(activations)], PONG, suffix);
    RecordRoundTrip([Raw(id), Num(appType)], APP_STARTUP, suffix);
    RecordRoundTrip([Num(saveKey), Raw(datas)], SAVE_DATA, suffix);
  }

  predicate RoundTrips(vs: seq<Value>, schema: Schema, suffix: seq<byte>) {
    RecordFits(vs, schema) &&
    DecodeRecord(EncodeRecord(vs, schema) + suffix, schema) == Ok((|EncodeRecord(vs, schema)|, vs))
  }
}

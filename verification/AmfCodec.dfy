/**
 * AMF 0 values, their encoding and the reader, on flat bytes (brpc/brpc/amf.cpp). The reader is
 * the code's: it reads into fields that may already hold values, ignores markers it does not know
 * and takes a name that runs off the stream for the end of an object.
 */
module AmfCodec {
  import opened Bytes
  import opened Options

  /** Numbers are the 64 bits of the double. An object's fields are sorted by name (std::map). */
  datatype Value =
    | Number(bits: nat)
    | Boolean(b: bool)
    | Str(s: bytes)
    | Object(fields: seq<Field>)
    | Array(items: seq<Value>)
    | Null
    | Undefined
    | Unsupported

  datatype Field = Field(name: bytes, value: Value)

  const NUMBER: byte := 0
  const BOOLEAN: byte := 1
  const STRING: byte := 2
  const OBJECT: byte := 3
  const NULL: byte := 5
  const UNDEFINED: byte := 6
  const ECMA_ARRAY: byte := 8
  const OBJECT_END: byte := 9
  const STRICT_ARRAY: byte := 10
  const LONG_STRING: byte := 12
  const UNSUPPORTED: byte := 13
  const TYPED_OBJECT: byte := 16

  /** movieclip, reference, date, recordset, xml-document, avmplus-object */
  predicate Refused(m: byte) { m in [4, 7, 11, 14, 15, 17] }

  // ---- the ordered map of an object's fields ----

  /** Lexicographic order of unsigned bytes. */
  predicate Less(a: bytes, b: bytes) {
    b != [] && (a == [] || a[0] < b[0] || (a[0] == b[0] && Less(a[1..], b[1..])))
  }

  predicate Sorted(fs: seq<Field>) { forall i :: 0 < i < |fs| ==> Less(fs[i - 1].name, fs[i].name) }

  function Lookup(fs: seq<Field>, name: bytes): Option<Value> {
    if fs == [] || Less(fs[|fs| - 1].name, name) then None
    else if fs[|fs| - 1].name == name then Some(fs[|fs| - 1].value)
    else Lookup(fs[..|fs| - 1], name)
  }

  function Insert(fs: seq<Field>, name: bytes, v: Value): seq<Field> {
    if fs == [] || Less(fs[|fs| - 1].name, name) then fs + [Field(name, v)]
    else if fs[|fs| - 1].name == name then fs[..|fs| - 1] + [Field(name, v)]
    else Insert(fs[..|fs| - 1], name, v) + [fs[|fs| - 1]]
  }

  // ---- writing ----

  /** What is written, and whether no name was too long. */
  datatype Encoded = Encoded(out: bytes, ok: bool)

  function EncodeString(s: bytes): bytes {
    if |s| < 65536 then [STRING] + BigEndian(|s|, 2) + s else [LONG_STRING] + BigEndian(|s|, 4) + s
  }

  /** WriteAMFField */
  function Encode(v: Value): Encoded
    decreases v
  {
    match v
    case Number(bits) => Encoded([NUMBER] + BigEndian(bits, 8), true)
    case Boolean(b) => Encoded([BOOLEAN, if b then 1 else 0], true)
    case Str(s) => Encoded(EncodeString(s), true)
    case Object(fs) =>
      var e := EncodeFields(fs);
      Encoded([OBJECT] + e.out, e.ok)
    case Array(items) =>
      var e := EncodeItems(items);
      Encoded([STRICT_ARRAY] + BigEndian(|items|, 4) + e.out, e.ok)
    case Null => Encoded([NULL], true)
    case Undefined => Encoded([UNDEFINED], true)
    case Unsupported => Encoded([UNSUPPORTED], true)
  }

  /** The loop of WriteAMFObject: it gives up at a name that does not fit 16 bits. */
  function EncodeFields(fs: seq<Field>): Encoded
    decreases fs
  {
    if fs == [] then Encoded(BigEndian(0, 2) + [OBJECT_END], true)
    else if |fs[0].name| >= 65536 then Encoded([], false)
    else
      var e := Encode(fs[0].value);
      var head := BigEndian(|fs[0].name|, 2) + fs[0].name + e.out;
      if !e.ok then Encoded(head, false)
      else var more := EncodeFields(fs[1..]); Encoded(head + more.out, more.ok)
  }

  function EncodeItems(vs: seq<Value>): Encoded
    decreases vs
  {
    if vs == [] then Encoded([], true)
    else
      var e := Encode(vs[0]);
      if !e.ok then e
      else var more := EncodeItems(vs[1..]); Encoded(e.out + more.out, more.ok)
  }

  // ---- reading ----

  /** Fail stands for `return false`; otherwise what was read and what is left. */
  datatype Parsed<T> = Fail | Ok(val: T, rest: bytes)

  /** ReadAMFShortStringBody (width 2) and ReadAMFLongStringBody (width 4) */
  function ReadString(s: bytes, width: nat): (r: Parsed<bytes>)
    ensures r.Ok? ==> |r.rest| + width <= |s|
  {
    if |s| < width then Fail
    else
      var end := width + FromBigEndian(s[..width]);
      if |s| < end then Fail else Ok(s[width..end], s[end..])
  }

  function AsStr(p: Parsed<bytes>): Parsed<Option<Value>> {
    if p.Fail? then Fail else Ok(Some(Str(p.val)), p.rest)
  }

  /** What follows a marker without nested values; None when nothing is stored. */
  function ReadScalar(m: byte, s: bytes): (r: Parsed<Option<Value>>)
    ensures r.Ok? ==> |r.rest| <= |s|
  {
    if m == NUMBER then if |s| < 8 then Fail else Ok(Some(Number(FromBigEndian(s[..8]))), s[8..])
    else if m == BOOLEAN then if s == [] then Fail else Ok(Some(Boolean(s[0] != 0)), s[1..])
    else if m == STRING then AsStr(ReadString(s, 2))
    else if m == LONG_STRING then AsStr(ReadString(s, 4))
    else if m == NULL then Ok(Some(Null), s)
    else if m == UNDEFINED then Ok(Some(Undefined), s)
    else if m == UNSUPPORTED then Ok(Some(Unsupported), s)
    else if Refused(m) then Fail
    else Ok(None, s)
  }

  /** MutableObject: an object already there is read into. */
  function FieldsOf(slot: Option<Value>): seq<Field> {
    if slot.Some? && slot.value.Object? then slot.value.fields else []
  }

  /** MutableArray */
  function ItemsOf(slot: Option<Value>): seq<Value> {
    if slot.Some? && slot.value.Array? then slot.value.items else []
  }

  function AsObject(p: Parsed<seq<Field>>): Parsed<Option<Value>> {
    if p.Fail? then Fail else Ok(Some(Object(p.val)), p.rest)
  }

  function AsArray(p: Parsed<seq<Value>>): Parsed<Option<Value>> {
    if p.Fail? then Fail else Ok(Some(Array(p.val)), p.rest)
  }

  /** ReadAMFObjectField and ReadAMFArrayItem: read a value into a slot. */
  function ReadValue(slot: Option<Value>, s: bytes): (r: Parsed<Option<Value>>)
    ensures r.Ok? ==> |r.rest| < |s|
    decreases |s|, 0
  {
    if s == [] then Fail
    else if s[0] == OBJECT then AsObject(ReadFields(FieldsOf(slot), s[1..]))
    else if s[0] == TYPED_OBJECT then
      // a class name that cannot be read is only logged; the stream is used up then
      var p := ReadString(s[1..], 2);
      AsObject(ReadFields(FieldsOf(slot), if p.Ok? then p.rest else []))
    else if s[0] == ECMA_ARRAY then AsObject(EcmaBody(FieldsOf(slot), s[1..]))
    else if s[0] == STRICT_ARRAY then AsArray(ArrayBody(ItemsOf(slot), s[1..]))
    else ReadScalar(s[0], s[1..])
  }

  function Store(fs: seq<Field>, name: bytes, v: Option<Value>): seq<Field> {
    if v.Some? then Insert(fs, name, v.value) else fs
  }

  /** ReadAMFObjectBody */
  function ReadFields(fs: seq<Field>, s: bytes): (r: Parsed<seq<Field>>)
    ensures r.Ok? ==> |r.rest| <= |s|
    decreases |s|, 0
  {
    match ReadString(s, 2)
    case Fail => Ok(fs, [])
    case Ok(name, t) =>
      if name == [] then
        if t == [] || t[0] != OBJECT_END then Fail else Ok(fs, t[1..])
      else
        var p := ReadValue(Lookup(fs, name), t);
        if p.Fail? then Fail else ReadFields(Store(fs, name, p.val), p.rest)
  }

  /** ReadAMFEcmaArrayBody */
  function EcmaBody(fs: seq<Field>, s: bytes): (r: Parsed<seq<Field>>)
    ensures r.Ok? ==> |r.rest| <= |s|
    decreases |s|, 0
  {
    if |s| < 4 then Fail else ReadEcma(FromBigEndian(s[..4]), fs, s[4..])
  }

  /** ReadAMFArrayBody */
  function ArrayBody(vs: seq<Value>, s: bytes): (r: Parsed<seq<Value>>)
    ensures r.Ok? ==> |r.rest| <= |s|
    decreases |s|, 0
  {
    if |s| < 4 then Fail else ReadItems(FromBigEndian(s[..4]), vs, s[4..])
  }

  function ReadEcma(count: nat, fs: seq<Field>, s: bytes): (r: Parsed<seq<Field>>)
    ensures r.Ok? ==> |r.rest| <= |s|
    decreases |s|, 2
  {
    if count == 0 then Ok(fs, s)
    else
      var p := ReadNamed(fs, s);
      if p.Fail? then Fail else ReadEcma(count - 1, p.val, p.rest)
  }

  /** A name and its value, in an ECMA array. */
  function ReadNamed(fs: seq<Field>, s: bytes): (r: Parsed<seq<Field>>)
    ensures r.Ok? ==> |r.rest| < |s|
    decreases |s|, 1
  {
    match ReadString(s, 2)
    case Fail => Fail
    case Ok(name, t) =>
      var p := ReadValue(Lookup(fs, name), t);
      if p.Fail? then Fail else Ok(Store(fs, name, p.val), p.rest)
  }

  function Append(vs: seq<Value>, v: Option<Value>): seq<Value> { if v.Some? then vs + [v.value] else vs }

  function ReadItems(count: nat, vs: seq<Value>, s: bytes): (r: Parsed<seq<Value>>)
    ensures r.Ok? ==> |r.rest| <= |s|
    decreases |s|, 1
  {
    if count == 0 then Ok(vs, s)
    else
      var p := ReadValue(None, s);
      if p.Fail? then Fail else ReadItems(count - 1, Append(vs, p.val), p.rest)
  }

  /** ReadAMFObject; null is an object without fields. */
  function ReadObject(fs: seq<Field>, s: bytes): Parsed<seq<Field>> {
    if s == [] then Fail
    else if s[0] == OBJECT then ReadFields(fs, s[1..])
    else if s[0] == ECMA_ARRAY then EcmaBody(fs, s[1..])
    else if s[0] == NULL then Ok(fs, s[1..])
    else Fail
  }

  /** ReadAMFArray; null is an array without items. */
  function ReadArray(vs: seq<Value>, s: bytes): Parsed<seq<Value>> {
    if s == [] then Fail
    else if s[0] == STRICT_ARRAY then ArrayBody(vs, s[1..])
    else if s[0] == NULL then Ok(vs, s[1..])
    else Fail
  }
}

/** The AMF readers as loops over the stream of blocks (brpc/brpc/amf.cpp). */
module AmfReader {
  import opened AmfCodec
  import opened AmfStream
  import opened Bytes
  import opened Options

  /** A reader that returned ok with v, leaving `rest`, did what the flat reader does. */
  predicate Agrees<T(==)>(ok: bool, v: T, rest: bytes, p: Parsed<T>) {
    ok == p.Ok? && (ok ==> v == p.val && rest == p.rest)
  }

  lemma {:induction false} PaddedFull(s: bytes, n: nat)
    requires |s| >= n
    ensures Padded(Take(s, n), n) == s[..n]
  {}

  lemma {:induction false} StringSlices(s: bytes, i: nat, n: nat)
    requires i <= |s|
    ensures i + n <= |s| ==> Take(s[i..], n) == s[i..i + n] && Drop(s[i..], n) == s[i + n..]
    ensures i + n > |s| ==> Drop(s[i..], n) == []
    ensures n == 0 ==> s[i..i] == []
  {}

  /** ReadAMFShortStringBody and ReadAMFLongStringBody: a failed read uses up the stream. */
  method ReadStringBody(st: AMFInputStream, width: nat) returns (ok: bool, str: bytes)
    modifies st
    ensures Agrees(ok, str, st.Rest(), ReadString(old(st.Rest()), width))
    ensures !ok ==> st.Rest() == []
  {
    ghost var s := st.Rest();
    var count, len := st.CutUint(width);
    if count != width { return false, []; }
    PaddedFull(s, width);
    StringSlices(s, width, len);
    str := [];
    if len != 0 {
      str := st.CutN(len);
      if |str| != len { return false, []; }
    }
    ok := true;
  }

  method ReadMarker(st: AMFInputStream) returns (ok: bool, m: byte)
    modifies st
    ensures ok == (old(st.Rest()) != [])
    ensures ok ==> m == old(st.Rest())[0] && st.Rest() == old(st.Rest())[1..]
    ensures !ok ==> st.Rest() == []
  {
    ghost var s := st.Rest();
    var count, val := st.CutUint(1);
    if count != 1 { return false, 0; }
    PaddedFull(s, 1);
    assert s[..1] == [s[0]] && [s[0]][..0] == [];
    assert FromBigEndian([s[0]]) == s[0];
    return true, val;
  }

  /** The cases of ReadAMFObjectField without nested values. */
  method ReadScalarBody(m: byte, st: AMFInputStream) returns (ok: bool, v: Option<Value>)
    modifies st
    ensures Agrees(ok, v, st.Rest(), ReadScalar(m, old(st.Rest())))
  {
    ghost var s := st.Rest();
    if m == NUMBER {
      var count, val := st.CutUint(8);
      if count != 8 { return false, None; }
      PaddedFull(s, 8);
      return true, Some(Number(val));
    } else if m == BOOLEAN {
      var read, val := ReadMarker(st);
      return read, Some(Boolean(val != 0));
    } else if m == STRING {
      var read, str := ReadStringBody(st, 2);
      return read, Some(Str(str));
    } else if m == LONG_STRING {
      var read, str := ReadStringBody(st, 4);
      return read, Some(Str(str));
    }
    ok := !Refused(m);
    v := if m == NULL then Some(Null)
         else if m == UNDEFINED then Some(Undefined)
         else if m == UNSUPPORTED then Some(Unsupported)
         else None;
  }

  /** ReadAMFObjectField and ReadAMFArrayItem. */
  method ReadInto(st: AMFInputStream, slot: Option<Value>) returns (ok: bool, v: Option<Value>)
    modifies st
    ensures Agrees(ok, v, st.Rest(), ReadValue(slot, old(st.Rest())))
    decreases |st.Rest()|, 0
  {
    var m;
    v := None;
    ok, m := ReadMarker(st);
    if !ok { return; }
    if m == OBJECT || m == TYPED_OBJECT {
      if m == TYPED_OBJECT {
        var _, className := ReadStringBody(st, 2);
      }
      var fs;
      ok, fs := ReadObjectBody(st, FieldsOf(slot));
      v := Some(Object(fs));
    } else if m == ECMA_ARRAY {
      var fs;
      ok, fs := ReadEcmaArrayBody(st, FieldsOf(slot));
      v := Some(Object(fs));
    } else if m == STRICT_ARRAY {
      var vs;
      ok, vs := ReadArrayBody(st, ItemsOf(slot));
      v := Some(Array(vs));
    } else {
      ok, v := ReadScalarBody(m, st);
    }
  }

  method ReadObjectBody(st: AMFInputStream, into: seq<Field>) returns (ok: bool, fs: seq<Field>)
    modifies st
    ensures Agrees(ok, fs, st.Rest(), ReadFields(into, old(st.Rest())))
    decreases |st.Rest()|, 1
  {
    fs := into;
    ghost var spec := ReadFields(into, st.Rest());
    while true
      invariant ReadFields(fs, st.Rest()) == spec && |st.Rest()| <= old(|st.Rest()|)
      decreases |st.Rest()|
    {
      var read, name := ReadStringBody(st, 2);
      if !read { return true, fs; }
      if name == [] {
        var m;
        ok, m := ReadMarker(st);
        ok := ok && m == OBJECT_END;
        return;
      }
      var v;
      ok, v := ReadInto(st, Lookup(fs, name));
      if !ok { return; }
      fs := Store(fs, name, v);
    }
  }

  /** Reads the count of an array. */
  method ReadCount(st: AMFInputStream) returns (ok: bool, n: nat)
    modifies st
    ensures ok == (|old(st.Rest())| >= 4)
    ensures ok ==> n == FromBigEndian(old(st.Rest())[..4]) && st.Rest() == old(st.Rest())[4..]
  {
    ghost var s := st.Rest();
    var count;
    count, n := st.CutUint(4);
    ok := count == 4;
    if ok { PaddedFull(s, 4); }
  }

  method ReadEcmaArrayBody(st: AMFInputStream, into: seq<Field>) returns (ok: bool, fs: seq<Field>)
    modifies st
    ensures Agrees(ok, fs, st.Rest(), EcmaBody(into, old(st.Rest())))
    decreases |st.Rest()|, 1
  {
    fs := into;
    var count;
    ghost var spec := EcmaBody(into, st.Rest());
    ok, count := ReadCount(st);
    if !ok { return; }
    var i: nat := 0;
    while i < count
      invariant i <= count && ReadEcma(count - i, fs, st.Rest()) == spec && |st.Rest()| < old(|st.Rest()|)
    {
      ok, fs := ReadEcmaField(st, fs);
      if !ok { return; }
      i := i + 1;
    }
    ok := true;
  }

  method ReadEcmaField(st: AMFInputStream, into: seq<Field>) returns (ok: bool, fs: seq<Field>)
    modifies st
    ensures Agrees(ok, fs, st.Rest(), ReadNamed(into, old(st.Rest())))
    decreases |st.Rest()|, 1
  {
    var name, v;
    fs := into;
    ok, name := ReadStringBody(st, 2);
    if !ok { return; }
    ok, v := ReadInto(st, Lookup(fs, name));
    if !ok { return; }
    fs := Store(fs, name, v);
  }

  method ReadArrayBody(st: AMFInputStream, into: seq<Value>) returns (ok: bool, vs: seq<Value>)
    modifies st
    ensures Agrees(ok, vs, st.Rest(), ArrayBody(into, old(st.Rest())))
    decreases |st.Rest()|, 1
  {
    vs := into;
    var count;
    ghost var spec := ArrayBody(into, st.Rest());
    ok, count := ReadCount(st);
    if !ok { return; }
    var i: nat := 0;
    while i < count
      invariant i <= count && ReadItems(count - i, vs, st.Rest()) == spec && |st.Rest()| < old(|st.Rest()|)
    {
      var v;
      ok, v := ReadInto(st, None);
      if !ok { return; }
      vs := Append(vs, v);
      i := i + 1;
    }
    ok := true;
  }

  method ReadAMFObject(st: AMFInputStream, into: seq<Field>) returns (ok: bool, fs: seq<Field>)
    modifies st
    ensures Agrees(ok, fs, st.Rest(), ReadObject(into, old(st.Rest())))
  {
    var m;
    fs := into;
    ok, m := ReadMarker(st);
    if !ok { return; }
    if m == OBJECT {
      ok, fs := ReadObjectBody(st, into);
    } else if m == ECMA_ARRAY {
      ok, fs := ReadEcmaArrayBody(st, into);
    } else {
      ok := m == NULL;
    }
  }

  method ReadAMFArray(st: AMFInputStream, into: seq<Value>) returns (ok: bool, vs: seq<Value>)
    modifies st
    ensures Agrees(ok, vs, st.Rest(), ReadArray(into, old(st.Rest())))
  {
    var m;
    vs := into;
    ok, m := ReadMarker(st);
    if !ok { return; }
    if m == STRICT_ARRAY {
      ok, vs := ReadArrayBody(st, into);
    } else {
      ok := m == NULL;
    }
  }
}

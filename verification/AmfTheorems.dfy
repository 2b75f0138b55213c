/** Reading what was written gives it back, and what the reader accepts beyond that. */
module AmfTheorems {
  import opened AmfCodec
  import opened Bytes
  import opened Options

  // ---- well-formed values ----

  /** Sizes fit their length fields, names are sorted (keys of a std::map). */
  predicate Wf(v: Value)
    decreases v
  {
    match v
    case Number(bits) => bits < 0x1_0000_0000_0000_0000
    case Str(s) => |s| < 0x8000_0000
    case Object(fs) => Sorted(fs) && WfFields(fs)
    case Array(vs) => |vs| < 0x1_0000_0000 && WfItems(vs)
    case _ => true
  }

  predicate WfFields(fs: seq<Field>)
    decreases fs
  {
    fs == [] || (|fs[0].name| < 65536 && Wf(fs[0].value) && WfFields(fs[1..]))
  }

  predicate WfItems(vs: seq<Value>)
    decreases vs
  {
    vs == [] || (Wf(vs[0]) && WfItems(vs[1..]))
  }

  /** No object in the value has a field with an empty name. */
  predicate Named(v: Value)
    decreases v
  {
    match v
    case Object(fs) => NamedFields(fs)
    case Array(vs) => NamedItems(vs)
    case _ => true
  }

  predicate NamedFields(fs: seq<Field>)
    decreases fs
  {
    fs == [] || (fs[0].name != [] && Named(fs[0].value) && NamedFields(fs[1..]))
  }

  predicate NamedItems(vs: seq<Value>)
    decreases vs
  {
    vs == [] || (Named(vs[0]) && NamedItems(vs[1..]))
  }

  // ---- round trip ----

  lemma {:induction false} UintReads(n: nat, width: nat, t: bytes)
    requires n < Pow256(width)
    ensures var s := BigEndian(n, width) + t; s[..width] == BigEndian(n, width) && s[width..] == t
    ensures FromBigEndian(BigEndian(n, width)) == n
  {
    BigEndianRoundTrip(n, width);
  }

  lemma {:induction false} StringReads(str: bytes, width: nat, t: bytes)
    requires |str| < Pow256(width)
    ensures ReadString(BigEndian(|str|, width) + str + t, width) == Ok(str, t)
  {
    var s := BigEndian(|str|, width) + str + t;
    assert s == BigEndian(|str|, width) + (str + t);
    UintReads(|str|, width, str + t);
    assert s[width..width + |str|] == str && s[width + |str|..] == t;
  }

  lemma {:induction false} StringValueReads(str: bytes, t: bytes)
    requires |str| < 0x8000_0000
    ensures ReadValue(None, EncodeString(str) + t) == Ok(Some(Str(str)), t)
  {
    PowValues();
    if |str| < 65536 { MarkedString(STRING, str, 2, t); } else { MarkedString(LONG_STRING, str, 4, t); }
  }

  lemma {:induction false} MarkedString(m: byte, str: bytes, width: nat, t: bytes)
    requires |str| < Pow256(width) && ((m == STRING && width == 2) || (m == LONG_STRING && width == 4))
    ensures ReadValue(None, [m] + BigEndian(|str|, width) + str + t) == Ok(Some(Str(str)), t)
  {
    var s := [m] + BigEndian(|str|, width) + str + t;
    assert s[1..] == BigEndian(|str|, width) + str + t;
    StringReads(str, width, t);
  }

  lemma {:induction false} NumberReads(bits: nat, t: bytes)
    requires bits < 0x1_0000_0000_0000_0000
    ensures ReadValue(None, Encode(Number(bits)).out + t) == Ok(Some(Number(bits)), t)
  {
    PowValues();
    UintReads(bits, 8, t);
    assert ([NUMBER] + BigEndian(bits, 8) + t)[1..] == BigEndian(bits, 8) + t;
  }

  lemma {:induction false} MarkerReads(v: Value, t: bytes)
    requires v.Boolean? || v.Null? || v.Undefined? || v.Unsupported?
    ensures ReadValue(None, Encode(v).out + t) == Ok(Some(v), t)
  {
    var s := Encode(v).out + t;
    if v.Boolean? {
      assert s[1..] == [s[1]] + t;
      assert s[1..][1..] == t;
    } else {
      assert s[1..] == t;
    }
  }

  /** No value starts like the end of an object. */
  lemma {:induction false} FirstByte(v: Value)
    ensures Encode(v).out != [] && Encode(v).out[0] != OBJECT_END
  {}

  /**
   * For every well-formed value and whatever follows it: the value is written completely, and
   * reading gives back the value and exactly what followed, unless some object in it has a field
   * with an empty name; then reading fails.
   */
  lemma {:induction false} ValueReads(v: Value, t: bytes)
    requires Wf(v)
    ensures Encode(v).ok
    ensures ReadValue(None, Encode(v).out + t) == if Named(v) then Ok(Some(v), t) else Fail
    decreases v
  {
    match v
    case Number(bits) => NumberReads(bits, t);
    case Str(s) => StringValueReads(s, t);
    case Object(fs) =>
      FieldsRead([], fs, t);
      assert [] + fs == fs;
      ObjectReads(fs, t);
    case Array(vs) =>
      ItemsRead([], vs, t);
      assert [] + vs == vs;
      ArrayReads(vs, t);
    case _ => MarkerReads(v, t);
  }

  lemma {:induction false} ObjectReads(fs: seq<Field>, t: bytes)
    ensures ReadValue(None, Encode(Object(fs)).out + t) == AsObject(ReadFields([], EncodeFields(fs).out + t))
  {
    var e := EncodeFields(fs).out;
    assert ([OBJECT] + e + t)[1..] == e + t;
  }

  lemma {:induction false} ArrayHead(n: nat, e: bytes, t: bytes)
    requires n < 0x1_0000_0000
    ensures var s := ([STRICT_ARRAY] + BigEndian(n, 4) + e + t)[1..];
      |s| >= 4 && FromBigEndian(s[..4]) == n && s[4..] == e + t
  {
    PowValues();
    UintReads(n, 4, e + t);
    AfterMarker(STRICT_ARRAY, BigEndian(n, 4), e, t);
  }

  lemma {:induction false} AfterMarker(m: byte, c: bytes, e: bytes, t: bytes)
    ensures ([m] + c + e + t)[1..] == c + (e + t)
  {}

  lemma {:induction false} ArrayReads(vs: seq<Value>, t: bytes)
    requires |vs| < 0x1_0000_0000
    ensures ReadValue(None, Encode(Array(vs)).out + t) == AsArray(ReadItems(|vs|, [], EncodeItems(vs).out + t))
  {
    ArrayHead(|vs|, EncodeItems(vs).out, t);
  }

  lemma {:induction false} FieldsRead(acc: seq<Field>, fs: seq<Field>, t: bytes)
    requires WfFields(fs) && Sorted(acc + fs)
    ensures EncodeFields(fs).ok
    ensures ReadFields(acc, EncodeFields(fs).out + t) == if NamedFields(fs) then Ok(acc + fs, t) else Fail
    decreases fs
  {
    if fs == [] {
      EndReads(acc, t);
      assert acc + fs == acc;
    } else {
      var f, more := fs[0], EncodeFields(fs[1..]).out + t;
      var next := acc + [f];
      assert next + fs[1..] == acc + fs;
      FieldsRead(next, fs[1..], t);
      ValueReads(f.value, more);
      FieldSplits(fs, t);
      NameReads(f, Encode(f.value).out + more);
      if f.name == [] {
        FirstByte(f.value);
        assert (Encode(f.value).out + more)[0] == Encode(f.value).out[0];
      } else {
        NewName(acc, fs);
      }
    }
  }

  lemma {:induction false} EndReads(acc: seq<Field>, t: bytes)
    ensures ReadFields(acc, BigEndian(0, 2) + [OBJECT_END] + t) == Ok(acc, t)
  {
    PowValues();
    var s := BigEndian(0, 2) + [OBJECT_END] + t;
    assert s == BigEndian(0, 2) + [] + ([OBJECT_END] + t);
    StringReads([], 2, [OBJECT_END] + t);
    assert ([OBJECT_END] + t)[1..] == t;
  }

  lemma {:induction false} FieldSplits(fs: seq<Field>, t: bytes)
    requires fs != [] && |fs[0].name| < 65536 && Encode(fs[0].value).ok
    ensures EncodeFields(fs).out + t ==
      BigEndian(|fs[0].name|, 2) + fs[0].name + (Encode(fs[0].value).out + (EncodeFields(fs[1..]).out + t))
  {}

  lemma {:induction false} NameReads(f: Field, u: bytes)
    requires |f.name| < 65536
    ensures ReadString(BigEndian(|f.name|, 2) + f.name + u, 2) == Ok(f.name, u)
  {
    PowValues();
    StringReads(f.name, 2, u);
  }

  /** The first remaining name is above all names read so far. */
  lemma {:induction false} NewName(acc: seq<Field>, fs: seq<Field>)
    requires fs != [] && Sorted(acc + fs)
    ensures Lookup(acc, fs[0].name) == None
    ensures Insert(acc, fs[0].name, fs[0].value) == acc + [fs[0]]
  {
    if acc != [] {
      var both, i := acc + fs, |acc|;
      assert Less(both[i - 1].name, both[i].name);
    }
  }

  lemma {:induction false} ItemsSplit(acc: seq<Value>, vs: seq<Value>, t: bytes)
    requires vs != [] && Encode(vs[0]).ok
    ensures EncodeItems(vs).out + t == Encode(vs[0]).out + (EncodeItems(vs[1..]).out + t)
    ensures acc + [vs[0]] + vs[1..] == acc + vs
  {}

  lemma {:induction false} ItemsRead(acc: seq<Value>, vs: seq<Value>, t: bytes)
    requires WfItems(vs)
    ensures EncodeItems(vs).ok
    ensures ReadItems(|vs|, acc, EncodeItems(vs).out + t) == if NamedItems(vs) then Ok(acc + vs, t) else Fail
    decreases vs
  {
    if vs == [] {
      assert [] + t == t && acc + vs == acc;
    } else {
      ValueReads(vs[0], EncodeItems(vs[1..]).out + t);
      ItemsRead(acc + [vs[0]], vs[1..], t);
      ItemsSplit(acc, vs, t);
    }
  }

  /** ReadAMFObject into a fresh object. */
  lemma {:induction false} ObjectRoundTrip(fs: seq<Field>, t: bytes)
    requires Wf(Object(fs))
    ensures ReadObject([], Encode(Object(fs)).out + t) == if NamedFields(fs) then Ok(fs, t) else Fail
  {
    FieldsRead([], fs, t);
    assert [] + fs == fs;
    MarkedObject([], EncodeFields(fs).out, t);
  }

  lemma {:induction false} MarkedObject(fs: seq<Field>, e: bytes, t: bytes)
    ensures ReadObject(fs, [OBJECT] + e + t) == ReadFields(fs, e + t)
  {
    assert ([OBJECT] + e + t)[1..] == e + t;
  }

  /** ReadAMFArray into a fresh array. */
  lemma {:induction false} ArrayRoundTrip(vs: seq<Value>, t: bytes)
    requires Wf(Array(vs))
    ensures ReadArray([], Encode(Array(vs)).out + t) == if NamedItems(vs) then Ok(vs, t) else Fail
  {
    ItemsRead([], vs, t);
    assert [] + vs == vs;
    ArrayHead(|vs|, EncodeItems(vs).out, t);
  }

  /** No encoding is a prefix of another: different values never read alike, whatever follows. */
  lemma {:induction false} PrefixFree(v: Value, w: Value, t: bytes, u: bytes)
    requires Wf(v) && Named(v) && Wf(w) && Named(w)
    requires Encode(v).out + t == Encode(w).out + u
    ensures v == w && t == u
  {
    ValueReads(v, t);
    ValueReads(w, u);
  }

  // ---- truncated objects ----

  /** The fields of an object without its end. */
  function Body(fs: seq<Field>): bytes {
    if fs == [] then []
    else BigEndian(|fs[0].name|, 2) + fs[0].name + (Encode(fs[0].value).out + Body(fs[1..]))
  }

  lemma {:induction false} BodyReads(acc: seq<Field>, fs: seq<Field>, u: bytes)
    requires WfFields(fs) && NamedFields(fs) && Sorted(acc + fs)
    ensures ReadFields(acc, Body(fs) + u) == ReadFields(acc + fs, u)
    decreases |fs|
  {
    if fs == [] {
      assert Body(fs) + u == u && acc + fs == acc;
    } else {
      assert acc + [fs[0]] + fs[1..] == acc + fs;
      FirstFieldReads(acc, fs, u);
      BodyReads(acc + [fs[0]], fs[1..], u);
    }
  }

  lemma {:induction false} FirstFieldReads(acc: seq<Field>, fs: seq<Field>, u: bytes)
    requires fs != [] && WfFields(fs) && NamedFields(fs) && Sorted(acc + fs)
    ensures ReadFields(acc, Body(fs) + u) == ReadFields(acc + [fs[0]], Body(fs[1..]) + u)
  {
    var f, more := fs[0], Body(fs[1..]) + u;
    var t := Encode(f.value).out + more;
    ValueReads(f.value, more);
    NameReads(f, t);
    NewName(acc, fs);
    BodySplits(fs, u);
    FieldStep(acc, Body(fs) + u, f.name, t);
  }

  lemma {:induction false} BodySplits(fs: seq<Field>, u: bytes)
    requires fs != []
    ensures Body(fs) + u ==
      BigEndian(|fs[0].name|, 2) + fs[0].name + (Encode(fs[0].value).out + (Body(fs[1..]) + u))
  {}

  lemma {:induction false} FieldStep(acc: seq<Field>, s: bytes, name: bytes, t: bytes)
    requires ReadString(s, 2) == Ok(name, t) && name != []
    ensures var p := ReadValue(Lookup(acc, name), t);
      ReadFields(acc, s) == if p.Fail? then Fail else ReadFields(Store(acc, name, p.val), p.rest)
  {}

  lemma {:induction false} WfConcat(a: seq<Field>, b: seq<Field>)
    requires WfFields(a + b) && NamedFields(a + b)
    ensures WfFields(a) && NamedFields(a) && WfFields(b)
    decreases |a|
  {
    if a == [] {
      assert a + b == b;
    } else {
      assert (a + b)[1..] == a[1..] + b;
      WfConcat(a[1..], b);
    }
  }

  lemma {:induction false} SortedPrefix(a: seq<Field>, b: seq<Field>)
    requires Sorted(a + b)
    ensures Sorted(a)
  {
    forall i | 0 < i < |a| ensures Less(a[i - 1].name, a[i].name) {
      assert Less((a + b)[i - 1].name, (a + b)[i].name);
    }
  }

  /** The encoding of some fields and what remains of the object behind them. */
  lemma {:induction false} BodyThenRest(a: seq<Field>, b: seq<Field>)
    requires WfFields(a)
    ensures EncodeFields(a + b).out == Body(a) + EncodeFields(b).out
    decreases |a|
  {
    if a == [] {
      assert a + b == b;
    } else {
      var ab := a + b;
      assert ab[1..] == a[1..] + b && ab[0] == a[0];
      BodyThenRest(a[1..], b);
      ValueReads(a[0].value, []);
      FieldSplits(ab, []);
      BodySplits(a, EncodeFields(b).out);
      Unpadded(EncodeFields(ab).out, EncodeFields(ab[1..]).out);
    }
  }

  lemma {:induction false} Unpadded(x: bytes, y: bytes)
    ensures x + [] == x && y + [] == y
  {}

  /** What the reader reads next: the name of the first field, or the empty name of the end. */
  function NextName(fs: seq<Field>): bytes {
    if fs == [] then BigEndian(0, 2) else BigEndian(|fs[0].name|, 2) + fs[0].name
  }

  lemma {:induction false} CutName(fs: seq<Field>, cut: bytes)
    requires WfFields(fs) && cut < NextName(fs)
    ensures ReadString(cut, 2).Fail? && cut < EncodeFields(fs).out
  {
    PowValues();
    if fs != [] {
      ValueReads(fs[0].value, []);
      BigEndianRoundTrip(|fs[0].name|, 2);
      if |cut| >= 2 { assert cut[..2] == NextName(fs)[..2] == BigEndian(|fs[0].name|, 2); }
    }
  }

  /**
   * Truncation goes unnoticed whenever it hits a name: every prefix of an object's encoding that
   * ends inside the name of a field, or inside the end, is read as an object that has only the
   * fields before it.
   */
  lemma {:induction false} TruncationAccepted(a: seq<Field>, b: seq<Field>, cut: bytes)
    requires Wf(Object(a + b)) && Named(Object(a + b)) && cut < NextName(b)
    ensures [OBJECT] + Body(a) + cut < Encode(Object(a + b)).out
    ensures ReadObject([], [OBJECT] + Body(a) + cut) == Ok(a, [])
  {
    WfConcat(a, b);
    CutName(b, cut);
    TruncationReads(a, b, cut);
    BodyThenRest(a, b);
    PrefixBehind([OBJECT], Body(a), cut, EncodeFields(b).out);
  }

  lemma {:induction false} PrefixBehind(m: bytes, x: bytes, cut: bytes, y: bytes)
    requires cut < y
    ensures m + x + cut < m + (x + y)
  {}

  lemma {:induction false} TruncationReads(a: seq<Field>, b: seq<Field>, cut: bytes)
    requires Sorted(a + b) && WfFields(a) && NamedFields(a) && ReadString(cut, 2).Fail?
    ensures ReadObject([], [OBJECT] + Body(a) + cut) == Ok(a, [])
  {
    SortedPrefix(a, b);
    assert [] + a == a;
    BodyReads([], a, cut);
    MarkedObject([], Body(a), cut);
  }

  predicate Suffix(r: bytes, s: bytes) { |r| <= |s| && EndsWith(s, r) }

  predicate EndsWith(s: bytes, r: bytes)
    requires |r| <= |s|
  {
    s[|s| - |r|..] == r
  }

  lemma {:induction false} ValueSuffix(slot: Option<Value>, s: bytes)
    requires ReadValue(slot, s).Ok?
    ensures Suffix(ReadValue(slot, s).rest, s)
    decreases |s|, 0
  {
    BodySuffix(slot, s);
    DropSuffix(s, 1);
    SuffixTrans(ReadValue(slot, s).rest, s[1..], s);
  }

  lemma {:induction false} BodySuffix(slot: Option<Value>, s: bytes)
    requires ReadValue(slot, s).Ok?
    ensures Suffix(ReadValue(slot, s).rest, s[1..])
    decreases |s|, 0, 0
  {
    var t := s[1..];
    if s[0] == OBJECT {
      FieldsSuffix(FieldsOf(slot), t);
    } else if s[0] == TYPED_OBJECT {
      var p := ReadString(t, 2);
      var u := if p.Ok? then p.rest else [];
      FieldsSuffix(FieldsOf(slot), u);
      if p.Ok? { StringSuffix(t, 2); }
      SuffixTrans(ReadFields(FieldsOf(slot), u).rest, u, t);
    } else if s[0] == ECMA_ARRAY {
      EcmaSuffix(FromBigEndian(t[..4]), FieldsOf(slot), t[4..]);
      DropSuffix(t, 4);
      SuffixTrans(ReadValue(slot, s).rest, t[4..], t);
    } else if s[0] == STRICT_ARRAY {
      ItemsSuffix(FromBigEndian(t[..4]), ItemsOf(slot), t[4..]);
      DropSuffix(t, 4);
      SuffixTrans(ReadValue(slot, s).rest, t[4..], t);
    } else {
      ScalarSuffix(s[0], t);
    }
  }

  lemma {:induction false} ScalarSuffix(m: byte, s: bytes)
    requires ReadScalar(m, s).Ok?
    ensures Suffix(ReadScalar(m, s).rest, s)
  {}

  lemma {:induction false} DropSuffix(s: bytes, k: nat)
    requires k <= |s|
    ensures Suffix(s[k..], s)
  {}

  predicate EndsObject(s: bytes) { |s| >= 3 && s[|s| - 3..] == [0, 0, OBJECT_END] }

  lemma {:induction false} SuffixTrans(a: bytes, b: bytes, c: bytes)
    requires Suffix(a, b) && Suffix(b, c)
    ensures Suffix(a, c)
  {}

  lemma {:induction false} SuffixEnds(r: bytes, a: bytes, c: bytes)
    requires EndedSuffix(r, a) && Suffix(a, c)
    ensures EndedSuffix(r, c)
  {
    var k := |c| - |a|;
    assert c[k..|c| - |r|] == a[..|a| - |r|];
  }

  lemma {:induction false} EmptyName(s: bytes)
    requires ReadString(s, 2).Ok? && ReadString(s, 2).val == []
    ensures s[..2] == [0, 0] && ReadString(s, 2).rest == s[2..]
  {
    var h := s[..2];
    assert h[..1][..0] == [];
    assert FromBigEndian(h[..1]) == s[0];
    assert FromBigEndian(h) == s[0] * 256 + s[1];
  }

  lemma {:induction false} ObjectEnds(fs: seq<Field>, s: bytes)
    requires ReadString(s, 2).Ok? && ReadString(s, 2).val == [] && ReadFields(fs, s).Ok?
    ensures EndedSuffix(ReadFields(fs, s).rest, s)
  {
    EmptyName(s);
    assert s[2..][1..] == s[3..] && s[..3] == [0, 0, OBJECT_END];
  }

  lemma {:induction false} StringSuffix(s: bytes, width: nat)
    requires ReadString(s, width).Ok?
    ensures Suffix(ReadString(s, width).rest, s)
  {}

  /** What follows an object is preceded by the object's end, unless the stream ran out. */
  lemma {:induction false} FieldsSuffix(fs: seq<Field>, s: bytes)
    requires ReadFields(fs, s).Ok?
    ensures EndedSuffix(ReadFields(fs, s).rest, s)
    decreases |s|, 0
  {
    var n := ReadString(s, 2);
    if n.Ok? {
      if n.val == [] {
        ObjectEnds(fs, s);
      } else {
        FieldStep(fs, s, n.val, n.rest);
        var slot := Lookup(fs, n.val);
        var p := ReadValue(slot, n.rest);
        var more := Store(fs, n.val, p.val);
        ValueSuffix(slot, n.rest);
        FieldsSuffix(more, p.rest);
        StringSuffix(s, 2);
        SuffixTrans(p.rest, n.rest, s);
        SuffixEnds(ReadFields(more, p.rest).rest, p.rest, s);
      }
    }
  }

  predicate EndedSuffix(r: bytes, s: bytes) { Suffix(r, s) && (r == [] || EndsObject(s[..|s| - |r|])) }

  lemma {:induction false} NamedSuffix(fs: seq<Field>, s: bytes)
    requires ReadNamed(fs, s).Ok?
    ensures Suffix(ReadNamed(fs, s).rest, s)
    decreases |s|, 1
  {
    var n := ReadString(s, 2);
    ValueSuffix(Lookup(fs, n.val), n.rest);
    StringSuffix(s, 2);
    SuffixTrans(ReadNamed(fs, s).rest, n.rest, s);
  }

  lemma {:induction false} EcmaSuffix(count: nat, fs: seq<Field>, s: bytes)
    requires ReadEcma(count, fs, s).Ok?
    ensures Suffix(ReadEcma(count, fs, s).rest, s)
    decreases |s|, 2
  {
    if count > 0 {
      var p := ReadNamed(fs, s);
      NamedSuffix(fs, s);
      EcmaSuffix(count - 1, p.val, p.rest);
      SuffixTrans(ReadEcma(count, fs, s).rest, p.rest, s);
    }
  }

  lemma {:induction false} ItemsSuffix(count: nat, vs: seq<Value>, s: bytes)
    requires ReadItems(count, vs, s).Ok?
    ensures Suffix(ReadItems(count, vs, s).rest, s)
    decreases |s|, 1
  {
    if count > 0 {
      var p := ReadValue(None, s);
      ValueSuffix(None, s);
      ItemsSuffix(count - 1, Append(vs, p.val), p.rest);
      SuffixTrans(ReadItems(count, vs, s).rest, p.rest, s);
    }
  }

  // ---- the fields of an object form a map ----

  lemma {:induction false} LessOrder(a: bytes, b: bytes, c: bytes)
    ensures !Less(a, a)
    ensures Less(a, b) || a == b || Less(b, a)
    ensures Less(a, b) && Less(b, c) ==> Less(a, c)
    decreases |a|
  {
    if a != [] && b != [] {
      LessOrder(a[1..], b[1..], if c == [] then c else c[1..]);
      assert a == [a[0]] + a[1..] && b == [b[0]] + b[1..];
    } else if a != [] {
      LessOrder(a[1..], b, c);
    }
  }

  predicate Below(fs: seq<Field>, name: bytes) { fs == [] || Less(fs[|fs| - 1].name, name) }

  lemma {:induction false} SortedInit(fs: seq<Field>)
    requires fs != []
    ensures var init := fs[..|fs| - 1];
      Sorted(fs) <==> Sorted(init) && Below(init, fs[|fs| - 1].name)
  {
    var init := fs[..|fs| - 1];
    if Sorted(init) && Below(init, fs[|fs| - 1].name) {
      forall i | 0 < i < |fs| ensures Less(fs[i - 1].name, fs[i].name) {
        if i < |init| { assert Less(init[i - 1].name, init[i].name); }
      }
    }
  }

  /** Insert keeps names strictly increasing. */
  lemma {:induction false} InsertSorted(fs: seq<Field>, name: bytes, v: Value)
    requires Sorted(fs)
    ensures Sorted(Insert(fs, name, v))
    ensures forall b :: Below(fs, b) && Less(name, b) ==> Below(Insert(fs, name, v), b)
    decreases |fs|
  {
    var r := Insert(fs, name, v);
    if fs == [] || Less(fs[|fs| - 1].name, name) {
      assert r[..|r| - 1] == fs;
      SortedInit(r);
    } else {
      var init, last := fs[..|fs| - 1], fs[|fs| - 1];
      SortedInit(fs);
      LessOrder(last.name, name, name);
      if last.name == name {
        assert r[..|r| - 1] == init;
      } else {
        InsertSorted(init, name, v);
        assert r[..|r| - 1] == Insert(init, name, v);
      }
      SortedInit(r);
    }
  }

  lemma {:induction false} LookupAbove(fs: seq<Field>, name: bytes)
    requires Below(fs, name)
    ensures Lookup(fs, name) == None
  {}

  /** Reading a name back from the map: what was stored last, other names are untouched. */
  lemma {:induction false} LookupInsert(fs: seq<Field>, name: bytes, v: Value, other: bytes)
    requires Sorted(fs)
    ensures Lookup(Insert(fs, name, v), other) == if other == name then Some(v) else Lookup(fs, other)
    decreases |fs|
  {
    var r := Insert(fs, name, v);
    LessOrder(name, other, other);
    LessOrder(other, name, name);
    if fs == [] || Less(fs[|fs| - 1].name, name) {
      assert r[..|r| - 1] == fs;
      if fs != [] { LessOrder(fs[|fs| - 1].name, name, other); }
    } else {
      var init, last := fs[..|fs| - 1], fs[|fs| - 1];
      SortedInit(fs);
      LessOrder(last.name, name, other);
      LessOrder(name, last.name, other);
      if last.name == name {
        assert r[..|r| - 1] == init;
        if Less(other, name) {} else if other != name { LookupAbove(fs, other); }
      } else {
        assert r[..|r| - 1] == Insert(init, name, v);
        LookupInsert(init, name, v, other);
      }
    }
  }

  /** Every object in the value is sorted. */
  predicate Ordered(v: Value)
    decreases v
  {
    match v
    case Object(fs) => Sorted(fs) && forall i :: 0 <= i < |fs| ==> Ordered(fs[i].value)
    case Array(vs) => forall i :: 0 <= i < |vs| ==> Ordered(vs[i])
    case _ => true
  }

  predicate OrderedSlot(slot: Option<Value>) { slot.Some? ==> Ordered(slot.value) }

  lemma {:induction false} LookupOrdered(fs: seq<Field>, name: bytes)
    requires Ordered(Object(fs))
    ensures OrderedSlot(Lookup(fs, name))
    decreases |fs|
  {
    if fs != [] {
      var init := fs[..|fs| - 1];
      SortedInit(fs);
      assert Ordered(Object(init)) by { assert forall i :: 0 <= i < |init| ==> Ordered(fs[i].value); }
      LookupOrdered(init, name);
    }
  }

  lemma {:induction false} StoreOrdered(fs: seq<Field>, name: bytes, v: Option<Value>)
    requires Ordered(Object(fs)) && OrderedSlot(v)
    ensures Ordered(Object(Store(fs, name, v)))
    decreases |fs|
  {
    if v.Some? {
      InsertSorted(fs, name, v.value);
      assert AllOrdered(fs);
      InsertElements(fs, name, v.value);
    }
  }

  lemma {:induction false} InsertElements(fs: seq<Field>, name: bytes, v: Value)
    requires Ordered(v) && AllOrdered(fs)
    ensures AllOrdered(Insert(fs, name, v))
    decreases |fs|
  {
    if fs != [] {
      var init := fs[..|fs| - 1];
      assert Ordered(fs[|fs| - 1].value);
      assert AllOrdered(init);
      InsertElements(init, name, v);
    }
  }

  predicate AllOrdered(fs: seq<Field>) { forall i :: 0 <= i < |fs| ==> Ordered(fs[i].value) }

  /** Whatever bytes arrive, every object read is a map with strictly increasing names. */
  lemma {:induction false} ValueOrdered(slot: Option<Value>, s: bytes)
    requires OrderedSlot(slot) && ReadValue(slot, s).Ok?
    ensures OrderedSlot(ReadValue(slot, s).val)
    decreases |s|, 0
  {
    if s[0] == OBJECT {
      FieldsOrdered(FieldsOf(slot), s[1..]);
    } else if s[0] == TYPED_OBJECT {
      var p := ReadString(s[1..], 2);
      FieldsOrdered(FieldsOf(slot), if p.Ok? then p.rest else []);
    } else if s[0] == ECMA_ARRAY {
      EcmaOrdered(FromBigEndian(s[1..][..4]), FieldsOf(slot), s[1..][4..]);
    } else if s[0] == STRICT_ARRAY {
      ItemsOrdered(FromBigEndian(s[1..][..4]), ItemsOf(slot), s[1..][4..]);
    }
  }

  lemma {:induction false} FieldsOrdered(fs: seq<Field>, s: bytes)
    requires Ordered(Object(fs)) && ReadFields(fs, s).Ok?
    ensures Ordered(Object(ReadFields(fs, s).val))
    decreases |s|, 0
  {
    var n := ReadString(s, 2);
    if n.Ok? && n.val != [] {
      FieldStep(fs, s, n.val, n.rest);
      LookupOrdered(fs, n.val);
      var p := ReadValue(Lookup(fs, n.val), n.rest);
      ValueOrdered(Lookup(fs, n.val), n.rest);
      StoreOrdered(fs, n.val, p.val);
      FieldsOrdered(Store(fs, n.val, p.val), p.rest);
    }
  }

  lemma {:induction false} NamedOrdered(fs: seq<Field>, s: bytes)
    requires Ordered(Object(fs)) && ReadNamed(fs, s).Ok?
    ensures Ordered(Object(ReadNamed(fs, s).val))
    decreases |s|, 1
  {
    var n := ReadString(s, 2);
    LookupOrdered(fs, n.val);
    ValueOrdered(Lookup(fs, n.val), n.rest);
    StoreOrdered(fs, n.val, ReadValue(Lookup(fs, n.val), n.rest).val);
  }

  lemma {:induction false} EcmaOrdered(count: nat, fs: seq<Field>, s: bytes)
    requires Ordered(Object(fs)) && ReadEcma(count, fs, s).Ok?
    ensures Ordered(Object(ReadEcma(count, fs, s).val))
    decreases |s|, 2
  {
    if count > 0 {
      var p := ReadNamed(fs, s);
      NamedOrdered(fs, s);
      EcmaOrdered(count - 1, p.val, p.rest);
    }
  }

  lemma {:induction false} ItemsOrdered(count: nat, vs: seq<Value>, s: bytes)
    requires Ordered(Array(vs)) && ReadItems(count, vs, s).Ok?
    ensures Ordered(Array(ReadItems(count, vs, s).val))
    decreases |s|, 1
  {
    if count > 0 {
      var p := ReadValue(None, s);
      ValueOrdered(None, s);
      ItemsOrdered(count - 1, Append(vs, p.val), p.rest);
    }
  }
}

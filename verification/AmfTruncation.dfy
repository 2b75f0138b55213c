/**
 * Exactly which truncated values the AMF reader accepts (brpc/brpc/amf.cpp): those cut inside a
 * field name, or inside the empty name that ends an object, at any depth, provided that nothing has
 * to follow the objects the cut is in.
 */
module AmfTruncation {
  import opened AmfCodec
  import opened AmfTheorems
  import opened Bytes
  import opened Options

  function Size(v: Value): nat { |Encode(v).out| }

  function NameSize(fs: seq<Field>): nat { if fs == [] then 2 else 2 + |fs[0].name| }

  /** The first n bytes of the value end inside a name: of this object, or of an object that is being
      read in its last readable place. */
  predicate CutInName(v: Value, n: nat)
    decreases v
  {
    match v
    case Object(fs) => n >= 1 && FieldsCutInName(fs, n - 1)
    case Array(vs) => n >= 5 && ItemsCutInName(vs, n - 5)
    case _ => false
  }

  predicate FieldsCutInName(fs: seq<Field>, n: nat)
    decreases fs
  {
    if n < NameSize(fs) then true
    else if fs == [] then false
    else
      var k := n - NameSize(fs);
      if k < Size(fs[0].value) then CutInName(fs[0].value, k) else FieldsCutInName(fs[1..], k - Size(fs[0].value))
  }

  /** Only the last item may be cut: the count says that others follow. */
  predicate ItemsCutInName(vs: seq<Value>, n: nat)
    decreases vs
  {
    if vs == [] then false
    else if n < Size(vs[0]) then |vs| == 1 && CutInName(vs[0], n)
    else ItemsCutInName(vs[1..], n - Size(vs[0]))
  }

  /** What is left of the value: every object loses the field the cut is in and those behind it. */
  function Kept(v: Value, n: nat): Value
    requires CutInName(v, n)
    decreases v
  {
    match v
    case Object(fs) => Object(KeptFields(fs, n - 1))
    case Array(vs) => Array(KeptItems(vs, n - 5))
  }

  function KeptFields(fs: seq<Field>, n: nat): seq<Field>
    requires FieldsCutInName(fs, n)
    decreases fs
  {
    if n < NameSize(fs) then []
    else
      var k := n - NameSize(fs);
      if k < Size(fs[0].value) then [Field(fs[0].name, Kept(fs[0].value, k))]
      else [fs[0]] + KeptFields(fs[1..], k - Size(fs[0].value))
  }

  function KeptItems(vs: seq<Value>, n: nat): seq<Value>
    requires ItemsCutInName(vs, n)
    decreases vs
  {
    if n < Size(vs[0]) then [Kept(vs[0], n)] else [vs[0]] + KeptItems(vs[1..], n - Size(vs[0]))
  }

  // ---- values without nesting ----

  lemma {:induction false} BehindMarker(m: byte, a: bytes, b: bytes, n: nat)
    requires 0 < n <= 1 + |a| + |b|
    ensures ([m] + a + b)[..n][0] == m && ([m] + a + b)[..n][1..] == (a + b)[..n - 1]
  {
    assert [m] + a + b == [m] + (a + b);
  }

  lemma {:induction false} StringBodyCut(str: bytes, width: nat, k: nat)
    requires |str| < Pow256(width) && k < width + |str|
    ensures ReadString((BigEndian(|str|, width) + str)[..k], width) == Fail
  {
    var t := (BigEndian(|str|, width) + str)[..k];
    if k >= width {
      assert t[..width] == BigEndian(|str|, width);
      BigEndianRoundTrip(|str|, width);
    }
  }

  lemma {:induction false} StringCut(m: byte, str: bytes, width: nat, n: nat)
    requires |str| < Pow256(width) && ((m == STRING && width == 2) || (m == LONG_STRING && width == 4))
    requires n < 1 + width + |str|
    ensures ReadValue(None, ([m] + BigEndian(|str|, width) + str)[..n]) == Fail
  {
    if n > 0 {
      BehindMarker(m, BigEndian(|str|, width), str, n);
      StringBodyCut(str, width, n - 1);
    }
  }

  lemma {:induction false} ScalarCut(v: Value, n: nat)
    requires Wf(v) && !v.Object? && !v.Array? && n < Size(v)
    ensures ReadValue(None, Encode(v).out[..n]) == Fail
  {
    if v.Str? {
      PowValues();
      if |v.s| < 65536 { StringCut(STRING, v.s, 2, n); } else { StringCut(LONG_STRING, v.s, 4, n); }
    } else if n > 0 {
      assert Encode(v).out[..n][0] == Encode(v).out[0];
    }
  }

  // ---- objects and arrays ----

  /** A cut inside a name: the fields read so far are taken for the whole object. */
  lemma {:induction false} NameCut(acc: seq<Field>, fs: seq<Field>, n: nat)
    requires WfFields(fs) && n < NameSize(fs) && n <= |EncodeFields(fs).out|
    ensures ReadFields(acc, EncodeFields(fs).out[..n]) == Ok(acc, [])
  {
    var e := EncodeFields(fs).out;
    if fs != [] {
      ValueReads(fs[0].value, []);
      FieldSplits(fs, []);
      assert e + [] == e;
    }
    assert e[..n] < NextName(fs);
    CutName(fs, e[..n]);
  }

  /** A cut behind the empty name but before the end marker is refused. */
  lemma {:induction false} EndCut(acc: seq<Field>)
    ensures ReadFields(acc, BigEndian(0, 2)) == Fail
  {
    PowValues();
    assert BigEndian(0, 2) == BigEndian(0, 2) + [] + [];
    StringReads([], 2, []);
  }

  lemma {:induction false} ValueCut(v: Value, n: nat)
    requires Wf(v) && Named(v) && n < Size(v)
    ensures ReadValue(None, Encode(v).out[..n]) ==
      if CutInName(v, n) then Ok(Some(Kept(v, n)), []) else Fail
    decreases v
  {
    match v
    case Object(fs) =>
      if n > 0 {
        Whole(fs);
        FieldsCut([], fs, n - 1);
        ObjectPrefix(fs, n);
        if FieldsCutInName(fs, n - 1) { Whole(KeptFields(fs, n - 1)); }
      }
    case Array(vs) =>
      ArrayPrefix(vs, n);
      if n >= 5 {
        ItemsCut([], vs, n - 5);
        if ItemsCutInName(vs, n - 5) { Whole(KeptItems(vs, n - 5)); }
      }
    case _ => ScalarCut(v, n);
  }

  lemma {:induction false} Whole<T>(s: seq<T>)
    ensures [] + s == s
  {}

  lemma {:induction false} ObjectPrefix(fs: seq<Field>, n: nat)
    requires 0 < n < Size(Object(fs))
    ensures ReadValue(None, Encode(Object(fs)).out[..n]) == AsObject(ReadFields([], EncodeFields(fs).out[..n - 1]))
  {
    var e := EncodeFields(fs).out;
    assert ([OBJECT] + e)[..n][1..] == e[..n - 1];
  }

  lemma {:induction false} ArrayPrefix(vs: seq<Value>, n: nat)
    requires |vs| < 0x1_0000_0000 && n < Size(Array(vs))
    ensures n < 5 ==> ReadValue(None, Encode(Array(vs)).out[..n]) == Fail
    ensures n >= 5 ==>
      ReadValue(None, Encode(Array(vs)).out[..n]) == AsArray(ReadItems(|vs|, [], EncodeItems(vs).out[..n - 5]))
  {
    var e, c := EncodeItems(vs).out, BigEndian(|vs|, 4);
    if n > 0 {
      var t := ([STRICT_ARRAY] + c + e)[..n][1..];
      assert t == (c + e)[..n - 1];
      if n >= 5 {
        PowValues();
        BigEndianRoundTrip(|vs|, 4);
        assert t[..4] == c && t[4..] == e[..n - 5];
      }
    }
  }

  /** What the reader makes of the first n bytes of the fields, after those in acc. */
  ghost predicate FieldsCutOk(acc: seq<Field>, fs: seq<Field>, n: nat)
    requires n <= |EncodeFields(fs).out|
  {
    ReadFields(acc, EncodeFields(fs).out[..n]) ==
      if FieldsCutInName(fs, n) then Ok(acc + KeptFields(fs, n), []) else Fail
  }

  lemma {:induction false} FieldsCut(acc: seq<Field>, fs: seq<Field>, n: nat)
    requires WfFields(fs) && NamedFields(fs) && Sorted(acc + fs) && n < |EncodeFields(fs).out|
    ensures FieldsCutOk(acc, fs, n)
    decreases fs
  {
    if n < NameSize(fs) {
      NameCut(acc, fs, n);
      assert acc + [] == acc;
    } else if fs == [] {
      assert EncodeFields(fs).out[..2] == BigEndian(0, 2);
      EndCut(acc);
    } else if n < NameSize(fs) + Size(fs[0].value) {
      ValueCut(fs[0].value, n - NameSize(fs));
      FirstValueCut(acc, fs, n);
    } else {
      var rest := n - NameSize(fs) - Size(fs[0].value);
      assert acc + [fs[0]] + fs[1..] == acc + fs;
      RestSize(fs);
      FieldsCut(acc + [fs[0]], fs[1..], rest);
      LaterCut(acc, fs, n);
    }
  }

  lemma {:induction false} RestSize(fs: seq<Field>)
    requires WfFields(fs) && fs != []
    ensures |EncodeFields(fs).out| == NameSize(fs) + Size(fs[0].value) + |EncodeFields(fs[1..]).out|
  {
    ValueReads(fs[0].value, []);
    FieldSplits(fs, []);
  }

  lemma {:induction false} FirstValueCut(acc: seq<Field>, fs: seq<Field>, n: nat)
    requires WfFields(fs) && NamedFields(fs) && Sorted(acc + fs) && fs != []
    requires NameSize(fs) <= n < NameSize(fs) + Size(fs[0].value) && n < |EncodeFields(fs).out|
    requires var v, k := fs[0].value, n - NameSize(fs);
      ReadValue(None, Encode(v).out[..k]) == if CutInName(v, k) then Ok(Some(Kept(v, k)), []) else Fail
    ensures FieldsCutOk(acc, fs, n)
  {
    CutInValue(acc, fs, n);
  }

  lemma {:induction false} LaterCut(acc: seq<Field>, fs: seq<Field>, n: nat)
    requires WfFields(fs) && NamedFields(fs) && Sorted(acc + fs) && fs != []
    requires NameSize(fs) + Size(fs[0].value) <= n < |EncodeFields(fs).out|
    requires n - NameSize(fs) - Size(fs[0].value) <= |EncodeFields(fs[1..]).out|
    requires FieldsCutOk(acc + [fs[0]], fs[1..], n - NameSize(fs) - Size(fs[0].value))
    ensures FieldsCutOk(acc, fs, n)
  {
    var rest := n - NameSize(fs) - Size(fs[0].value);
    CutBehindValue(acc, fs, n);
    if FieldsCutInName(fs[1..], rest) { Regroup(acc, fs[0], KeptFields(fs[1..], rest)); }
  }

  /** The cut is in the first value: its reader decides, and nothing follows it. */
  lemma {:induction false} CutInValue(acc: seq<Field>, fs: seq<Field>, n: nat)
    requires WfFields(fs) && NamedFields(fs) && Sorted(acc + fs) && fs != []
    requires NameSize(fs) <= n < NameSize(fs) + Size(fs[0].value) && n < |EncodeFields(fs).out|
    requires var p := ReadValue(None, Encode(fs[0].value).out[..n - NameSize(fs)]);
      p.Ok? ==> p.val.Some? && p.rest == []
    ensures var p := ReadValue(None, Encode(fs[0].value).out[..n - NameSize(fs)]);
      ReadFields(acc, EncodeFields(fs).out[..n]) ==
        if p.Fail? then Fail else Ok(acc + [Field(fs[0].name, p.val.value)], [])
  {
    var f, s, t := fs[0], EncodeFields(fs).out[..n], Encode(fs[0].value).out[..n - NameSize(fs)];
    NewName(acc, fs);
    FieldPrefix(fs, n, t);
    FieldStep(acc, s, f.name, t);
    if ReadValue(None, t).Ok? { LastField(acc, fs, ReadValue(None, t).val.value); }
  }

  /** The cut is behind the first value, which is read completely. */
  lemma {:induction false} CutBehindValue(acc: seq<Field>, fs: seq<Field>, n: nat)
    requires WfFields(fs) && NamedFields(fs) && Sorted(acc + fs) && fs != []
    requires NameSize(fs) + Size(fs[0].value) <= n < |EncodeFields(fs).out|
    requires n - NameSize(fs) - Size(fs[0].value) <= |EncodeFields(fs[1..]).out|
    ensures ReadFields(acc, EncodeFields(fs).out[..n]) ==
            ReadFields(acc + [fs[0]], EncodeFields(fs[1..]).out[..n - NameSize(fs) - Size(fs[0].value)])
  {
    var f, s := fs[0], EncodeFields(fs).out[..n];
    var more := EncodeFields(fs[1..]).out[..n - NameSize(fs) - Size(f.value)];
    NewName(acc, fs);
    ValueReads(f.value, more);
    FieldPrefix(fs, n, Encode(f.value).out + more);
    FieldStep(acc, s, f.name, Encode(f.value).out + more);
  }

  lemma {:induction false} Regroup(acc: seq<Field>, f: Field, rest: seq<Field>)
    ensures acc + [f] + rest == acc + ([f] + rest)
  {}

  /** A name above all others is stored behind them, and an exhausted stream ends the object. */
  lemma {:induction false} LastField(acc: seq<Field>, fs: seq<Field>, w: Value)
    requires fs != [] && Sorted(acc + fs)
    ensures ReadFields(Insert(acc, fs[0].name, w), []) == Ok(acc + [Field(fs[0].name, w)], [])
  {
    if acc != [] {
      var both, i := acc + fs, |acc|;
      assert Less(both[i - 1].name, both[i].name);
    }
  }

  lemma {:induction false} FieldPrefix(fs: seq<Field>, n: nat, x: bytes)
    requires WfFields(fs) && fs != [] && NameSize(fs) <= n < |EncodeFields(fs).out|
    requires var all := Encode(fs[0].value).out + EncodeFields(fs[1..]).out;
      n - NameSize(fs) <= |all| && x == all[..n - NameSize(fs)]
    ensures ReadString(EncodeFields(fs).out[..n], 2) == Ok(fs[0].name, x)
  {
    var f, e := fs[0], EncodeFields(fs).out;
    ValueReads(f.value, []);
    FieldSplits(fs, []);
    Unpadded(e, EncodeFields(fs[1..]).out);
    var head, all := BigEndian(|f.name|, 2) + f.name, Encode(f.value).out + EncodeFields(fs[1..]).out;
    assert e == head + all;
    assert e[..n] == head + x;
    NameReads(f, x);
  }

  lemma {:induction false} ItemsCut(acc: seq<Value>, vs: seq<Value>, n: nat)
    requires WfItems(vs) && NamedItems(vs) && n < |EncodeItems(vs).out|
    ensures ReadItems(|vs|, acc, EncodeItems(vs).out[..n]) ==
      if ItemsCutInName(vs, n) then Ok(acc + KeptItems(vs, n), []) else Fail
    decreases vs
  {
    var k := Size(vs[0]);
    ItemsPrefix(vs, n);
    if n < k {
      ValueCut(vs[0], n);
      FirstItemCut(acc, vs, n);
    } else {
      ItemsCut(acc + [vs[0]], vs[1..], n - k);
      ValueReads(vs[0], EncodeItems(vs[1..]).out[..n - k]);
      if ItemsCutInName(vs[1..], n - k) { RegroupItems(acc, vs[0], KeptItems(vs[1..], n - k)); }
    }
  }

  lemma {:induction false} FirstItemCut(acc: seq<Value>, vs: seq<Value>, n: nat)
    requires vs != [] && n < Size(vs[0]) && n < |EncodeItems(vs).out|
    requires EncodeItems(vs).out[..n] == Encode(vs[0]).out[..n]
    requires ReadValue(None, Encode(vs[0]).out[..n]) == if CutInName(vs[0], n) then Ok(Some(Kept(vs[0], n)), []) else Fail
    ensures ReadItems(|vs|, acc, EncodeItems(vs).out[..n]) ==
      if ItemsCutInName(vs, n) then Ok(acc + KeptItems(vs, n), []) else Fail
  {
    if |vs| > 1 && CutInName(vs[0], n) { NothingFollows(|vs| - 1, acc + [Kept(vs[0], n)]); }
  }

  lemma {:induction false} ItemsPrefix(vs: seq<Value>, n: nat)
    requires vs != [] && WfItems(vs) && n < |EncodeItems(vs).out|
    ensures n < Size(vs[0]) ==> EncodeItems(vs).out[..n] == Encode(vs[0]).out[..n]
    ensures n >= Size(vs[0]) ==>
      && n - Size(vs[0]) < |EncodeItems(vs[1..]).out|
      && EncodeItems(vs).out[..n] == Encode(vs[0]).out + EncodeItems(vs[1..]).out[..n - Size(vs[0])]
  {
    ValueReads(vs[0], []);
  }

  lemma {:induction false} RegroupItems(acc: seq<Value>, v: Value, rest: seq<Value>)
    ensures acc + [v] + rest == acc + ([v] + rest)
  {}

  lemma {:induction false} NothingFollows(count: nat, acc: seq<Value>)
    requires count > 0
    ensures ReadItems(count, acc, []) == Fail
  {}

  /**
   * For every well-formed named value and every proper prefix of its encoding: the reader accepts
   * the prefix iff it ends inside a name, and then it reads what is kept of the value.
   */
  lemma {:induction false} TruncationAcceptedExactly(v: Value, n: nat)
    requires Wf(v) && Named(v) && n < Size(v)
    ensures var p := ReadValue(None, Encode(v).out[..n]);
      (p.Ok? <==> CutInName(v, n)) && (p.Ok? ==> p == Ok(Some(Kept(v, n)), []))
  {
    ValueCut(v, n);
  }

  /** The same for ReadAMFObject into a fresh object. */
  lemma {:induction false} ObjectTruncation(fs: seq<Field>, n: nat)
    requires Wf(Object(fs)) && NamedFields(fs) && n < Size(Object(fs))
    ensures var p := ReadObject([], Encode(Object(fs)).out[..n]);
      (p.Ok? <==> n >= 1 && FieldsCutInName(fs, n - 1)) && (p.Ok? ==> p == Ok(KeptFields(fs, n - 1), []))
  {
    if n > 0 {
      ValueCut(Object(fs), n);
      ObjectPrefix(fs, n);
      MarkedPrefix(EncodeFields(fs).out, n);
    }
  }

  lemma {:induction false} MarkedPrefix(e: bytes, n: nat)
    requires 0 < n <= |e| + 1
    ensures ReadObject([], ([OBJECT] + e)[..n]) == ReadFields([], e[..n - 1])
  {
    assert ([OBJECT] + e)[..n][1..] == e[..n - 1];
  }
}

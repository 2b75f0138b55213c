/** The AMF writers over a stream of limited space (brpc/brpc/amf.cpp). */
module AmfWriter {
  import opened AmfCodec
  import opened AmfStream
  import opened Bytes

  /** Where a stream stands. */
  datatype Mark = Mark(written: bytes, space: nat, good: bool, pushed: nat)

  function At(st: AMFOutputStream): Mark
    requires st.Valid()
    reads st
  {
    Mark(st.Written(), st.Space(), st.good, st.pushed)
  }

  /** Writing e puts as much of it as there is space for; the stream stays good iff all fits. */
  function After(m: Mark, e: Encoded): Mark {
    var k := Min(|e.out|, m.space);
    Mark(m.written + e.out[..k], m.space - k, m.good && e.ok && k == |e.out|, m.pushed + k)
  }

  function All(out: bytes): Encoded { Encoded(out, true) }

  /** What is written when `rest` follows `done`. */
  function Rest(done: bytes, rest: Encoded): Encoded { Encoded(done + rest.out, rest.ok) }

  lemma {:induction false} TooLong(m: Mark, a: bytes, e: Encoded)
    requires |a| > m.space
    ensures After(After(m, All(a)), e) == After(m, Rest(a, e)) == After(m, All(a))
  {
    assert (a + e.out)[..m.space] == a[..m.space];
    assert e.out[..0] == [];
  }

  lemma {:induction false} FitsFirst(m: Mark, a: bytes, e: Encoded)
    requires |a| <= m.space
    ensures After(After(m, All(a)), e) == After(m, Rest(a, e))
  {
    var k := Min(|e.out|, m.space - |a|);
    assert a[..|a|] == a && (a + e.out)[..|a| + k] == a + e.out[..k];
    assert m.written + a + e.out[..k] == m.written + (a + e.out[..k]);
  }

  /** Writing in two steps, the second of which may be skipped once the stream is bad. */
  lemma {:induction false} InTwo(m: Mark, a: bytes, e: Encoded)
    ensures After(After(m, All(a)), e) == After(m, Rest(a, e))
    ensures |a| > m.space ==> After(m, All(a)) == After(m, Rest(a, e))
  {
    if |a| > m.space { TooLong(m, a, e); } else { FitsFirst(m, a, e); }
  }

  method Put(st: AMFOutputStream, data: bytes)
    requires st.Valid()
    modifies st
    ensures st.Valid() && At(st) == After(old(At(st)), All(data))
  {
    st.PutN(data);
  }

  method PutMarker(st: AMFOutputStream, m: byte)
    requires st.Valid()
    modifies st
    ensures st.Valid() && At(st) == After(old(At(st)), All([m]))
  {
    st.PutU8(m);
  }

  method PutLength(st: AMFOutputStream, n: nat, width: nat)
    requires st.Valid()
    modifies st
    ensures st.Valid() && At(st) == After(old(At(st)), All(BigEndian(n, width)))
  {
    st.PutUint(n, width);
  }

  /** A marker and what follows it. */
  method WriteMarked(st: AMFOutputStream, m: byte, data: bytes)
    requires st.Valid()
    modifies st
    ensures st.Valid() && At(st) == After(old(At(st)), All([m] + data))
  {
    InTwo(At(st), [m], All(data));
    PutMarker(st, m);
    Put(st, data);
  }

  /** WriteAMFString */
  method WriteString(st: AMFOutputStream, s: bytes)
    requires st.Valid()
    modifies st
    ensures st.Valid() && At(st) == After(old(At(st)), All(EncodeString(s)))
  {
    var m, width := if |s| < 65536 then STRING else LONG_STRING, if |s| < 65536 then 2 else 4;
    InTwo(At(st), [m], All(BigEndian(|s|, width)));
    InTwo(At(st), [m] + BigEndian(|s|, width), All(s));
    PutMarker(st, m);
    PutLength(st, |s|, width);
    Put(st, s);
  }

  // ---- streams that are already bad ----

  /** What a stream gets that was bad before: loops stop after their first round. */
  function Stub(v: Value): bytes
    decreases v
  {
    match v
    case Object(fs) => [OBJECT] + StubFields(fs)
    case Array(vs) => [STRICT_ARRAY] + BigEndian(|vs|, 4) + (if vs == [] then [] else Stub(vs[0]))
    case _ => Encode(v).out
  }

  function StubFields(fs: seq<Field>): bytes
    decreases fs
  {
    if fs == [] then BigEndian(0, 2) + [OBJECT_END]
    else if |fs[0].name| >= 65536 then []
    else BigEndian(|fs[0].name|, 2) + fs[0].name + Stub(fs[0].value)
  }

  /** What is written for a value to a good or a bad stream. */
  function Wanted(v: Value, good: bool): Encoded { if good then Encode(v) else Encoded(Stub(v), false) }

  /** A stream that is bad because it is full stays as it is. */
  lemma {:induction false} Full(m: Mark, e: Encoded)
    requires !m.good && m.space == 0
    ensures After(m, e) == m
  {}

  /** Once the stream is full, what would still follow makes no difference. */
  lemma {:induction false} GiveUp(m: Mark, a: bytes, e: Encoded)
    requires m.good && !After(m, All(a)).good
    ensures After(m, All(a)).space == 0
    ensures After(m, All(a)) == After(m, Rest(a, e))
  {
    InTwo(m, a, e);
  }

  lemma {:induction false} ThenValue(m: Mark, a: bytes, v: Value)
    ensures var n := After(m, All(a));
      After(n, Wanted(v, n.good)) == After(m, Rest(a, Wanted(v, m.good)))
  {
    var n := After(m, All(a));
    InTwo(m, a, Wanted(v, m.good));
    if m.good && !n.good {
      GiveUp(m, a, Encode(v));
      Full(n, Wanted(v, false));
    }
  }

  /** One field, or the point where a name too long is noticed. */
  function FieldStep(f: Field, good: bool): Encoded {
    if |f.name| >= 65536 then Encoded([], false) else Rest(BigEndian(|f.name|, 2) + f.name, Wanted(f.value, good))
  }

  /** e, then r unless e failed. */
  function Seq(e: Encoded, r: Encoded): Encoded { if e.ok then Rest(e.out, r) else e }

  /** One round of a writer's loop, begun on a good stream: either everything is done so far, or
      stopping is right. */
  lemma {:induction false} Round(m: Mark, done: bytes, good: Encoded, bad: Encoded, r: Encoded)
    requires m.good
    ensures var n := After(m, All(done)); var t := After(n, if n.good then good else bad);
      if t.good then
        t == After(m, All(done + good.out)) && Rest(done, Seq(good, r)) == Rest(done + good.out, r)
      else t == After(m, Rest(done, Seq(good, r)))
  {
    var n := After(m, All(done));
    if n.good {
      InTwo(m, done, good);
      if good.ok {
        Regroup(done, good.out, r.out);
        if !After(m, All(done + good.out)).good { GiveUp(m, done + good.out, r); }
      }
    } else {
      GiveUp(m, done, Seq(good, r));
      Full(n, bad);
    }
  }

  lemma {:induction false} Regroup(a: bytes, b: bytes, c: bytes)
    ensures (a + b) + c == a + (b + c)
  {}

  lemma {:induction false} ObjectEnd(m: Mark, done: bytes)
    ensures After(After(After(m, All(done)), All(BigEndian(0, 2))), All([OBJECT_END]))
         == After(m, Rest(done, EncodeFields([])))
  {
    var z := BigEndian(0, 2);
    InTwo(After(m, All(done)), z, All([OBJECT_END]));
    InTwo(m, done, All(z + [OBJECT_END]));
  }

  /** What is still to be written from the i-th field or item on. */
  lemma {:induction false} FieldsFrom(fs: seq<Field>, i: nat)
    requires i < |fs|
    ensures EncodeFields(fs[i..]) == Seq(FieldStep(fs[i], true), EncodeFields(fs[i + 1..]))
  {
    assert fs[i..][1..] == fs[i + 1..];
  }

  lemma {:induction false} ItemsFrom(vs: seq<Value>, i: nat)
    requires i < |vs|
    ensures EncodeItems(vs[i..]) == Seq(Encode(vs[i]), EncodeItems(vs[i + 1..]))
  {
    assert vs[i..][1..] == vs[i + 1..];
  }

  /** What the loop over an object's fields has written before the i-th one. */
  predicate ObjectLoop(m: Mark, done: bytes, fs: seq<Field>, i: nat)
    requires i <= |fs|
  {
    if m.good then Encode(Object(fs)) == Rest(done, EncodeFields(fs[i..])) else i == 0 && done == [OBJECT]
  }

  lemma {:induction false} ObjectRound(m: Mark, done: bytes, fs: seq<Field>, i: nat)
    requires i < |fs| && ObjectLoop(m, done, fs, i)
    ensures var n := After(m, All(done)); var t := After(n, FieldStep(fs[i], n.good));
      var more := done + FieldStep(fs[i], true).out;
      && (t.good ==> t == After(m, All(more)) && ObjectLoop(m, more, fs, i + 1))
      && (!t.good ==> t == After(m, Wanted(Object(fs), m.good)))
  {
    if m.good {
      FieldsFrom(fs, i);
      Round(m, done, FieldStep(fs[i], true), FieldStep(fs[i], false), EncodeFields(fs[i + 1..]));
    } else {
      InTwo(m, done, FieldStep(fs[i], false));
      assert StubFields(fs) == FieldStep(fs[0], false).out;
    }
  }

  lemma {:induction false} ObjectDone(m: Mark, done: bytes, fs: seq<Field>)
    requires ObjectLoop(m, done, fs, |fs|)
    ensures After(After(After(m, All(done)), All(BigEndian(0, 2))), All([OBJECT_END])) == After(m, Wanted(Object(fs), m.good))
  {
    ObjectEnd(m, done);
    assert fs[|fs|..] == [];
  }

  predicate ArrayLoop(m: Mark, done: bytes, vs: seq<Value>, i: nat)
    requires i <= |vs|
  {
    if m.good then Encode(Array(vs)) == Rest(done, EncodeItems(vs[i..]))
    else i == 0 && done == [STRICT_ARRAY] + BigEndian(|vs|, 4)
  }

  lemma {:induction false} ArrayRound(m: Mark, done: bytes, vs: seq<Value>, i: nat)
    requires i < |vs| && ArrayLoop(m, done, vs, i)
    ensures var n := After(m, All(done)); var t := After(n, Wanted(vs[i], n.good)); var more := done + Encode(vs[i]).out;
      && (t.good ==> t == After(m, All(more)) && ArrayLoop(m, more, vs, i + 1))
      && (!t.good ==> t == After(m, Wanted(Array(vs), m.good)))
  {
    if m.good {
      ItemsFrom(vs, i);
      Round(m, done, Encode(vs[i]), Wanted(vs[i], false), EncodeItems(vs[i + 1..]));
    } else {
      InTwo(m, done, Wanted(vs[i], false));
    }
  }

  lemma {:induction false} ArrayDone(m: Mark, done: bytes, vs: seq<Value>)
    requires ArrayLoop(m, done, vs, |vs|)
    ensures After(m, All(done)) == After(m, Wanted(Array(vs), m.good))
  {
    assert vs[|vs|..] == [] && done + [] == done;
  }

  // ---- the writers ----

  /** WriteAMFField: what reaches a good stream is the encoding, cut where the space ends; it stays good
      iff all of it fits and no name is too long. */
  method WriteField(st: AMFOutputStream, v: Value)
    requires st.Valid()
    modifies st
    ensures st.Valid() && At(st) == After(old(At(st)), Wanted(v, old(st.good)))
    decreases v
  {
    match v
    case Number(bits) => WriteMarked(st, NUMBER, BigEndian(bits, 8));
    case Boolean(b) =>
      assert [BOOLEAN] + [if b then 1 else 0] == [BOOLEAN, if b then 1 else 0];
      WriteMarked(st, BOOLEAN, [if b then 1 else 0]);
    case Str(s) => WriteString(st, s);
    case Object(fs) => WriteObject(st, fs);
    case Array(vs) => WriteArray(st, vs);
    case Null => PutMarker(st, NULL);
    case Undefined => PutMarker(st, UNDEFINED);
    case Unsupported => PutMarker(st, UNSUPPORTED);
  }

  /** The name of a field. */
  method WriteName(st: AMFOutputStream, name: bytes)
    requires st.Valid()
    modifies st
    ensures st.Valid() && At(st) == After(old(At(st)), All(BigEndian(|name|, 2) + name))
  {
    InTwo(At(st), BigEndian(|name|, 2), All(name));
    PutLength(st, |name|, 2);
    Put(st, name);
  }

  /** One field of an object; false when the loop has to stop. */
  method WriteNamed(st: AMFOutputStream, f: Field) returns (more: bool)
    requires st.Valid()
    modifies st
    ensures st.Valid() && more == st.good
    ensures At(st) == After(old(At(st)), FieldStep(f, old(st.good)))
    decreases f
  {
    if |f.name| >= 65536 {
      st.good := false;
      return false;
    }
    ThenValue(At(st), BigEndian(|f.name|, 2) + f.name, f.value);
    WriteName(st, f.name);
    WriteField(st, f.value);
    more := st.good;
  }

  method WriteObject(st: AMFOutputStream, fs: seq<Field>)
    requires st.Valid()
    modifies st
    ensures st.Valid() && At(st) == After(old(At(st)), Wanted(Object(fs), old(st.good)))
    decreases fs
  {
    ghost var m := At(st);
    ghost var done := [OBJECT];
    PutMarker(st, OBJECT);
    var i := 0;
    assert fs[0..] == fs;
    while i < |fs|
      invariant 0 <= i <= |fs| && st.Valid() && At(st) == After(m, All(done)) && ObjectLoop(m, done, fs, i)
    {
      ObjectRound(m, done, fs, i);
      var more := WriteNamed(st, fs[i]);
      if !more { return; }
      done := done + FieldStep(fs[i], true).out;
      i := i + 1;
    }
    ObjectDone(m, done, fs);
    PutLength(st, 0, 2);
    PutMarker(st, OBJECT_END);
  }

  method WriteArrayHead(st: AMFOutputStream, n: nat)
    requires st.Valid()
    modifies st
    ensures st.Valid() && At(st) == After(old(At(st)), All([STRICT_ARRAY] + BigEndian(n, 4)))
  {
    InTwo(At(st), [STRICT_ARRAY], All(BigEndian(n, 4)));
    PutMarker(st, STRICT_ARRAY);
    PutLength(st, n, 4);
  }

  method WriteArray(st: AMFOutputStream, vs: seq<Value>)
    requires st.Valid()
    modifies st
    ensures st.Valid() && At(st) == After(old(At(st)), Wanted(Array(vs), old(st.good)))
    decreases vs
  {
    ghost var m := At(st);
    ghost var done := [STRICT_ARRAY] + BigEndian(|vs|, 4);
    WriteArrayHead(st, |vs|);
    var i := 0;
    assert vs[0..] == vs;
    while i < |vs|
      invariant 0 <= i <= |vs| && st.Valid() && At(st) == After(m, All(done)) && ArrayLoop(m, done, vs, i)
    {
      ArrayRound(m, done, vs, i);
      WriteField(st, vs[i]);
      if !st.good { return; }
      done := done + Encode(vs[i]).out;
      i := i + 1;
    }
    ArrayDone(m, done, vs);
  }
}

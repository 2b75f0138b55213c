/**
 * Exactly which bytes the AMF reader of brpc/brpc/amf.cpp accepts: those that start with a phrase of the
 * grammar, and those that are a phrase broken off where the reader takes the end of the stream for the
 * end of an object.
 */
module AmfLanguage {
  import opened AmfCodec
  import opened AmfGrammar
  import opened AmfTheorems
  import opened Bytes
  import opened Options

  /** Phrases broken off in the name of a field or of a class, at any depth; whatever encloses the break
      has nothing left to read. */
  datatype Open =
    | OpenObject(entries: seq<Entry>, ending: Ending)
    | OpenTyped(className: bytes, entries: seq<Entry>, ending: Ending)
    | Nameless(c: bytes)
    | OpenEcma(entries: seq<Entry>, name: bytes, last: Open)
    | OpenArray(items: seq<Node>, item: Open)

  /** How the entries of an object end. */
  datatype Ending = Closed | CutOff(c: bytes) | Deeper(name: bytes, last: Open)

  /** Too short for a name: the length, or less bytes than it announces. */
  predicate NoName(c: bytes) { |c| < 2 || |c| < 2 + 0x100 * (c[0] as int) + c[1] }

  predicate ValidOpen(o: Open)
    decreases o
  {
    match o
    case OpenObject(es, e) => ValidEntries(es) && NoEmptyName(es) && !e.Closed? && ValidEnding(e)
    case OpenTyped(c, es, e) => |c| < 65536 && ValidEntries(es) && NoEmptyName(es) && !e.Closed? && ValidEnding(e)
    case Nameless(c) => NoName(c)
    case OpenEcma(es, name, last) => |es| + 1 < 0x1_0000_0000 && ValidEntries(es) && |name| < 65536 && ValidOpen(last)
    case OpenArray(ns, last) => |ns| + 1 < 0x1_0000_0000 && ValidItems(ns) && ValidOpen(last)
  }

  predicate ValidEnding(e: Ending)
    decreases e
  {
    match e
    case Closed => true
    case CutOff(c) => NoName(c)
    case Deeper(name, last) => 0 < |name| < 65536 && ValidOpen(last)
  }

  function Head(name: bytes): bytes { BigEndian(|name|, 2) + name }

  function PrintOpen(o: Open): bytes
    decreases o
  {
    match o
    case OpenObject(es, e) => [3] + (PrintEntries(es) + PrintEnding(e))
    case OpenTyped(c, es, e) => [16] + (Head(c) + (PrintEntries(es) + PrintEnding(e)))
    case Nameless(c) => [16] + c
    case OpenEcma(es, name, last) => [8] + (BigEndian(|es| + 1, 4) + (PrintEntries(es) + (Head(name) + PrintOpen(last))))
    case OpenArray(ns, last) => [10] + (BigEndian(|ns| + 1, 4) + (PrintItems(ns) + PrintOpen(last)))
  }

  function PrintEnding(e: Ending): bytes
    decreases e
  {
    match e
    case Closed => [0, 0, 9]
    case CutOff(c) => c
    case Deeper(name, last) => Head(name) + PrintOpen(last)
  }

  /** What is read of a broken phrase: all entries and items before the break. */
  function OpenMeaning(o: Open, slot: Option<Value>): Value
    decreases o
  {
    var fs := if slot.Some? && slot.value.Object? then slot.value.fields else [];
    match o
    case OpenObject(es, e) => Object(EndMeaning(e, Merge(fs, es)))
    case OpenTyped(_, es, e) => Object(EndMeaning(e, Merge(fs, es)))
    case Nameless(_) => Object(fs)
    case OpenEcma(es, name, last) =>
      var all := Merge(fs, es);
      Object(Insert(all, name, OpenMeaning(last, Lookup(all, name))))
    case OpenArray(ns, last) =>
      Array(Gather(if slot.Some? && slot.value.Array? then slot.value.items else [], ns) + [OpenMeaning(last, None)])
  }

  function EndMeaning(e: Ending, fs: seq<Field>): seq<Field>
    decreases e
  {
    if e.Deeper? then Insert(fs, e.name, OpenMeaning(e.last, Lookup(fs, e.name))) else fs
  }

  // ---- broken phrases are accepted ----

  lemma {:induction false} TwoBytes(c: bytes)
    requires |c| >= 2
    ensures FromBigEndian(c[..2]) == 0x100 * (c[0] as int) + c[1]
  {
    var d := c[..2];
    assert d[..1][..0] == [] && FromBigEndian(d[..1]) == d[0];
    assert FromBigEndian(d) == FromBigEndian(d[..1]) * 256 + d[1];
  }

  lemma {:induction false} NoNameFails(c: bytes)
    ensures NoName(c) <==> ReadString(c, 2) == Fail
  {
    if |c| >= 2 { TwoBytes(c); }
  }

  lemma {:induction false} HeadReads(name: bytes, t: bytes)
    requires |name| < 65536
    ensures ReadString(Head(name) + t, 2) == Ok(name, t)
  {
    PowValues();
    StringReads(name, 2, t);
  }

  /** Whole entries are read, then the rest. */
  lemma {:induction false} EntriesThen(fs: seq<Field>, es: seq<Entry>, t: bytes)
    requires ValidEntries(es) && NoEmptyName(es)
    ensures ReadFields(fs, PrintEntries(es) + t) == ReadFields(Merge(fs, es), t)
    decreases es
  {
    if es == [] {
      assert [] + t == t;
    } else {
      var rest := PrintEntries(es[1..]) + t;
      Assoc(PrintEntry(es[0]), PrintEntries(es[1..]), t);
      EntryHead(es[0], rest);
      NodeReads(es[0].node, Lookup(fs, es[0].name), rest);
      EntriesThen(Store(fs, es[0].name, Meaning(es[0].node, Lookup(fs, es[0].name))), es[1..], t);
    }
  }

  lemma {:induction false} OneNamed(count: nat, fs: seq<Field>, e: Entry, rest: bytes)
    requires count > 0 && |e.name| < 65536 && Valid(e.node)
    ensures ReadEcma(count, fs, PrintEntry(e) + rest) ==
      ReadEcma(count - 1, Store(fs, e.name, Meaning(e.node, Lookup(fs, e.name))), rest)
  {
    EntryHead(e, rest);
    NodeReads(e.node, Lookup(fs, e.name), rest);
  }

  lemma {:induction false} OneItem(count: nat, vs: seq<Value>, n: Node, rest: bytes)
    requires count > 0 && Valid(n)
    ensures ReadItems(count, vs, Print(n) + rest) == ReadItems(count - 1, Append(vs, Meaning(n, None)), rest)
  {
    NodeReads(n, None, rest);
    FirstMarker(n, rest);
  }

  /** A marker and what follows it. */
  lemma {:induction false} Marked(m: byte, body: bytes)
    ensures ([m] + body)[0] == m && ([m] + body)[1..] == body
  {}

  lemma {:induction false} Counted(n: nat, body: bytes)
    requires n < 0x1_0000_0000
    ensures var s := BigEndian(n, 4) + body; |s| >= 4 && FromBigEndian(s[..4]) == n && s[4..] == body
  {
    CountHead(n, body, []);
    assert BigEndian(n, 4) + body + [] == BigEndian(n, 4) + body && body + [] == body;
  }

  lemma {:induction false} ObjectShell(slot: Option<Value>, body: bytes)
    ensures ReadValue(slot, [3] + body) == AsObject(ReadFields(FieldsOf(slot), body))
  {
    Marked(3, body);
  }

  lemma {:induction false} TypedShell(slot: Option<Value>, c: bytes, body: bytes)
    requires |c| < 65536
    ensures ReadValue(slot, [16] + (Head(c) + body)) == AsObject(ReadFields(FieldsOf(slot), body))
  {
    Marked(16, Head(c) + body);
    HeadReads(c, body);
  }

  lemma {:induction false} NamelessShell(slot: Option<Value>, c: bytes)
    requires NoName(c)
    ensures ReadValue(slot, [16] + c) == Ok(Some(Object(FieldsOf(slot))), [])
  {
    Marked(16, c);
    NoNameFails(c);
    NoNameFails([]);
  }

  lemma {:induction false} EcmaShell(slot: Option<Value>, n: nat, body: bytes)
    requires n < 0x1_0000_0000
    ensures ReadValue(slot, [8] + (BigEndian(n, 4) + body)) == AsObject(ReadEcma(n, FieldsOf(slot), body))
  {
    Marked(8, BigEndian(n, 4) + body);
    Counted(n, body);
  }

  lemma {:induction false} ArrayShell(slot: Option<Value>, n: nat, body: bytes)
    requires n < 0x1_0000_0000
    ensures ReadValue(slot, [10] + (BigEndian(n, 4) + body)) == AsArray(ReadItems(n, ItemsOf(slot), body))
  {
    Marked(10, BigEndian(n, 4) + body);
    Counted(n, body);
  }

  /** A broken phrase at the end of the stream is read as its meaning, and nothing is left. */
  lemma {:induction false} OpenReads(o: Open, slot: Option<Value>)
    requires ValidOpen(o)
    ensures ReadValue(slot, PrintOpen(o)) == Ok(Some(OpenMeaning(o, slot)), [])
    decreases o, 0
  {
    match o
    case OpenObject(es, e) =>
      ObjectShell(slot, PrintEntries(es) + PrintEnding(e));
      BodyReads(FieldsOf(slot), es, e);
    case OpenTyped(c, es, e) =>
      TypedShell(slot, c, PrintEntries(es) + PrintEnding(e));
      BodyReads(FieldsOf(slot), es, e);
    case Nameless(c) => NamelessShell(slot, c);
    case OpenEcma(es, name, last) =>
      EcmaShell(slot, |es| + 1, PrintEntries(es) + (Head(name) + PrintOpen(last)));
      LastNamedReads(FieldsOf(slot), es, name, last);
    case OpenArray(ns, last) =>
      ArrayShell(slot, |ns| + 1, PrintItems(ns) + PrintOpen(last));
      LastItemReads(ItemsOf(slot), ns, last);
  }

  lemma {:induction false} BodyReads(fs: seq<Field>, es: seq<Entry>, e: Ending)
    requires ValidEntries(es) && NoEmptyName(es) && !e.Closed? && ValidEnding(e)
    ensures ReadFields(fs, PrintEntries(es) + PrintEnding(e)) == Ok(EndMeaning(e, Merge(fs, es)), [])
    decreases e
  {
    EntriesThen(fs, es, PrintEnding(e));
    var all := Merge(fs, es);
    if e.CutOff? {
      NoNameFails(e.c);
    } else {
      HeadReads(e.name, PrintOpen(e.last));
      OpenReads(e.last, Lookup(all, e.name));
      NoNameFails([]);
    }
  }

  lemma {:induction false} LastNamedReads(fs: seq<Field>, es: seq<Entry>, name: bytes, last: Open)
    requires ValidEntries(es) && |name| < 65536 && ValidOpen(last)
    ensures var all := Merge(fs, es);
      ReadEcma(|es| + 1, fs, PrintEntries(es) + (Head(name) + PrintOpen(last))) ==
      Ok(Insert(all, name, OpenMeaning(last, Lookup(all, name))), [])
    decreases last, 1, |es|
  {
    var t := Head(name) + PrintOpen(last);
    if es == [] {
      assert [] + t == t;
      HeadReads(name, PrintOpen(last));
      OpenReads(last, Lookup(fs, name));
    } else {
      Assoc(PrintEntry(es[0]), PrintEntries(es[1..]), t);
      OneNamed(|es| + 1, fs, es[0], PrintEntries(es[1..]) + t);
      LastNamedReads(Store(fs, es[0].name, Meaning(es[0].node, Lookup(fs, es[0].name))), es[1..], name, last);
    }
  }

  lemma {:induction false} OneBrokenItem(vs: seq<Value>, s: bytes, v: Value)
    requires ReadValue(None, s) == Ok(Some(v), [])
    ensures ReadItems(1, vs, s) == Ok(vs + [v], [])
  {
    assert s != [];
  }

  lemma {:induction false} LastItemReads(vs: seq<Value>, ns: seq<Node>, last: Open)
    requires ValidItems(ns) && ValidOpen(last)
    ensures ReadItems(|ns| + 1, vs, PrintItems(ns) + PrintOpen(last)) == Ok(Gather(vs, ns) + [OpenMeaning(last, None)], [])
    decreases last, 1, |ns|
  {
    if ns == [] {
      assert [] + PrintOpen(last) == PrintOpen(last);
      OpenReads(last, None);
      OneBrokenItem(vs, PrintOpen(last), OpenMeaning(last, None));
    } else {
      Assoc(Print(ns[0]), PrintItems(ns[1..]), PrintOpen(last));
      OneItem(|ns| + 1, vs, ns[0], PrintItems(ns[1..]) + PrintOpen(last));
      LastItemReads(Append(vs, Meaning(ns[0], None)), ns[1..], last);
    }
  }

  // ---- whatever is accepted is a phrase ----

  /** Reading a number and writing it in as many bytes gives back the bytes. */
  lemma {:induction false} BytesBack(s: bytes)
    ensures BigEndian(FromBigEndian(s), |s|) == s && FromBigEndian(s) < Pow256(|s|)
  {
    if s != [] { BytesBack(s[..|s| - 1]); }
  }

  lemma {:induction false} StringBack(s: bytes, width: nat)
    requires ReadString(s, width).Ok?
    ensures var p := ReadString(s, width);
      s == BigEndian(|p.val|, width) + p.val + p.rest && |p.val| < Pow256(width)
  {
    var p, head := ReadString(s, width), s[..width];
    BytesBack(head);
    assert |p.val| == FromBigEndian(head);
    assert s == head + p.val + p.rest;
  }

  lemma {:induction false} HeadBack(s: bytes)
    requires ReadString(s, 2).Ok?
    ensures var p := ReadString(s, 2); s == Head(p.val) + p.rest && |p.val| < 65536
  {
    PowValues();
    StringBack(s, 2);
  }

  lemma {:induction false} CountBack(s: bytes)
    requires |s| >= 4
    ensures var n := FromBigEndian(s[..4]); n < 0x1_0000_0000 && s == BigEndian(n, 4) + s[4..]
  {
    PowValues();
    BytesBack(s[..4]);
  }

  /** What the reader accepts at the front of the stream. */
  datatype Phrase = Complete(n: Node) | Broken(o: Open)

  predicate PhraseOk(p: Phrase, s: bytes, t: bytes) {
    match p
    case Complete(n) => Valid(n) && s == Print(n) + t
    case Broken(o) => ValidOpen(o) && s == PrintOpen(o) && t == []
  }

  lemma {:induction false} NumberBack(t: bytes) returns (n: Node)
    requires |t| >= 8
    ensures Valid(n) && [0] + t == Print(n) + t[8..]
  {
    PowValues();
    BytesBack(t[..8]);
    n := NumberNode(FromBigEndian(t[..8]));
    assert t == t[..8] + t[8..];
  }

  lemma {:induction false} ShortBack(t: bytes) returns (n: Node)
    requires ReadString(t, 2).Ok?
    ensures Valid(n) && [2] + t == Print(n) + ReadString(t, 2).rest
  {
    HeadBack(t);
    var p := ReadString(t, 2);
    n := ShortNode(p.val);
    Assoc([2], Head(p.val), p.rest);
  }

  lemma {:induction false} LongBack(t: bytes) returns (n: Node)
    requires ReadString(t, 4).Ok?
    ensures Valid(n) && [12] + t == Print(n) + ReadString(t, 4).rest
  {
    PowValues();
    StringBack(t, 4);
    var p := ReadString(t, 4);
    n := LongNode(p.val);
    Assoc([12], BigEndian(|p.val|, 4) + p.val, p.rest);
  }

  lemma {:induction false} PlainBack(m: byte, t: bytes) returns (n: Node)
    requires m in [5, 6, 9, 13] || m > 17
    ensures Valid(n) && [m] + t == Print(n) + t
  {
    n := if m == 5 then NullNode else if m == 6 then UndefinedNode else if m == 13 then UnsupportedNode else UnknownNode(m);
  }

  lemma {:induction false} ScalarBack(s: bytes) returns (n: Node)
    requires s != [] && s[0] != OBJECT && s[0] != TYPED_OBJECT && s[0] != ECMA_ARRAY && s[0] != STRICT_ARRAY
    requires ReadScalar(s[0], s[1..]).Ok?
    ensures Valid(n) && s == Print(n) + ReadScalar(s[0], s[1..]).rest
  {
    var m, t := s[0], s[1..];
    assert s == [m] + t;
    if m == NUMBER {
      n := NumberBack(t);
    } else if m == BOOLEAN {
      n := BooleanNode(t[0]);
    } else if m == STRING {
      n := ShortBack(t);
    } else if m == LONG_STRING {
      n := LongBack(t);
    } else {
      n := PlainBack(m, t);
    }
  }

  lemma {:induction false} Assoc4(a: bytes, b: bytes, c: bytes, d: bytes)
    ensures a + (b + c + d) == (a + b) + c + d && a + (b + (c + d)) == a + (b + c) + d
  {}

  /** Entries and their end, for any bytes accepted as the body of an object. */
  lemma {:induction false} FieldsBack(fs: seq<Field>, s: bytes) returns (es: seq<Entry>, e: Ending)
    requires ReadFields(fs, s).Ok?
    ensures ValidEntries(es) && NoEmptyName(es) && ValidEnding(e)
    ensures var t := ReadFields(fs, s).rest; s == PrintEntries(es) + PrintEnding(e) + t && (!e.Closed? ==> t == [])
    decreases |s|, 0
  {
    es := [];
    if ReadString(s, 2).Fail? {
      NoNameFails(s);
      e := CutOff(s);
      return;
    }
    var name, u := ReadString(s, 2).val, ReadString(s, 2).rest;
    HeadBack(s);
    if name == [] {
      e := Closed;
      assert Head([]) == [0, 0];
      return;
    }
    var slot := Lookup(fs, name);
    var p := ValueBack(slot, u);
    var r := ReadValue(slot, u);
    var next := Store(fs, name, r.val);
    if p.Broken? {
      NoNameFails([]);
      e := Deeper(name, p.o);
    } else {
      es, e := FieldsBack(next, r.rest);
      es := FirstEntry(name, p.n, es, PrintEnding(e), ReadFields(next, r.rest).rest);
    }
  }

  lemma {:induction false} FirstEntry(name: bytes, n: Node, es: seq<Entry>, a: bytes, b: bytes) returns (all: seq<Entry>)
    requires |name| < 65536 && Valid(n) && ValidEntries(es)
    ensures ValidEntries(all) && |all| == |es| + 1 && (NoEmptyName(es) && name != [] ==> NoEmptyName(all))
    ensures Head(name) + (Print(n) + (PrintEntries(es) + a + b)) == PrintEntries(all) + a + b
  {
    var e := Entry(name, n);
    all := [e] + es;
    assert all[1..] == es;
    assert PrintEntries(all) == PrintEntry(e) + PrintEntries(es);
    Assoc(Head(name), Print(n), PrintEntries(es) + a + b);
    Assoc4(PrintEntry(e), PrintEntries(es), a, b);
  }

  function PrintLast(last: Option<(bytes, Open)>): bytes {
    if last.None? then [] else Head(last.value.0) + PrintOpen(last.value.1)
  }

  predicate ValidLast(last: Option<(bytes, Open)>) { last.Some? ==> |last.value.0| < 65536 && ValidOpen(last.value.1) }

  function One<T>(o: Option<T>): nat { if o.Some? then 1 else 0 }

  /** These entries, the last of them possibly broken, and t. */
  function NamedText(es: seq<Entry>, last: Option<(bytes, Open)>, t: bytes): bytes
    decreases es
  {
    if es == [] then PrintLast(last) + t else PrintEntry(es[0]) + NamedText(es[1..], last, t)
  }

  lemma {:induction false} NamedTextIs(es: seq<Entry>, last: Option<(bytes, Open)>, t: bytes)
    ensures NamedText(es, last, t) == PrintEntries(es) + PrintLast(last) + t
    decreases es
  {
    if es != [] {
      NamedTextIs(es[1..], last, t);
      Assoc4(PrintEntry(es[0]), PrintEntries(es[1..]), PrintLast(last), t);
    }
  }

  lemma {:induction false} MoreNamed(e: Entry, s: bytes, u: bytes, es: seq<Entry>, last: Option<(bytes, Open)>, t: bytes)
    returns (all: seq<Entry>)
    requires |e.name| < 65536 && Valid(e.node) && ValidEntries(es)
    requires s == PrintEntry(e) + u && u == NamedText(es, last, t)
    ensures ValidEntries(all) && |all| == |es| + 1 && s == NamedText(all, last, t)
  {
    all := [e] + es;
    assert all[1..] == es;
  }

  lemma {:induction false} NothingNamed(count: nat, fs: seq<Field>, t: bytes)
    requires ReadEcma(count, fs, []).Ok? && ReadEcma(count, fs, []).rest == t
    ensures count == 0 && t == []
  {}

  lemma {:induction false} NamedBack(fs: seq<Field>, s: bytes) returns (name: bytes, p: Phrase, r: Parsed<seq<Field>>)
    requires ReadNamed(fs, s).Ok?
    ensures r == ReadNamed(fs, s) && |name| < 65536 && |r.rest| < |s|
    ensures match p
      case Complete(n) => Valid(n) && s == PrintEntry(Entry(name, n)) + r.rest
      case Broken(o) => ValidOpen(o) && s == Head(name) + PrintOpen(o) && r.rest == []
    decreases |s|, 0
  {
    r := ReadNamed(fs, s);
    name := ReadString(s, 2).val;
    HeadBack(s);
    p := ValueBack(Lookup(fs, name), ReadString(s, 2).rest);
    if p.Complete? { Assoc(Head(name), Print(p.n), r.rest); }
  }

  /** Reads one entry: a complete one, and then the others, or a broken one, and then nothing. */
  lemma {:induction false} EcmaStep(count: nat, fs: seq<Field>, s: bytes, t: bytes)
    returns (name: bytes, p: Phrase, next: seq<Field>, u: bytes)
    requires count > 0 && ReadEcma(count, fs, s).Ok? && ReadEcma(count, fs, s).rest == t
    ensures |name| < 65536 && |u| < |s|
    ensures p.Complete? ==>
      && Valid(p.n) && s == PrintEntry(Entry(name, p.n)) + u
      && ReadEcma(count - 1, next, u).Ok? && ReadEcma(count - 1, next, u).rest == t
    ensures p.Broken? ==> ValidOpen(p.o) && s == NamedText([], Some((name, p.o)), t) && count == 1 && t == []
    decreases |s|, 1
  {
    var r;
    name, p, r := NamedBack(fs, s);
    next, u := r.val, r.rest;
    if p.Broken? { NothingNamed(count - 1, next, t); }
  }

  lemma {:induction false} EcmaBack(count: nat, fs: seq<Field>, s: bytes, t: bytes)
    returns (es: seq<Entry>, last: Option<(bytes, Open)>)
    requires ReadEcma(count, fs, s).Ok? && ReadEcma(count, fs, s).rest == t
    ensures ValidEntries(es) && ValidLast(last) && |es| + One(last) == count
    ensures s == NamedText(es, last, t) && (last.Some? ==> t == [])
    decreases |s|, 2
  {
    if count == 0 {
      return [], None;
    }
    var name, p, next, u := EcmaStep(count, fs, s, t);
    if p.Broken? {
      return [], Some((name, p.o));
    }
    es, last := EcmaBack(count - 1, next, u, t);
    es := MoreNamed(Entry(name, p.n), s, u, es, last, t);
  }

  function PrintLastItem(last: Option<Open>): bytes { if last.None? then [] else PrintOpen(last.value) }

  /** These items, the last of them possibly broken, and t. */
  function ItemsText(ns: seq<Node>, last: Option<Open>, t: bytes): bytes
    decreases ns
  {
    if ns == [] then PrintLastItem(last) + t else Print(ns[0]) + ItemsText(ns[1..], last, t)
  }

  lemma {:induction false} ItemsTextIs(ns: seq<Node>, last: Option<Open>, t: bytes)
    ensures ItemsText(ns, last, t) == PrintItems(ns) + PrintLastItem(last) + t
    decreases ns
  {
    if ns != [] {
      ItemsTextIs(ns[1..], last, t);
      Assoc4(Print(ns[0]), PrintItems(ns[1..]), PrintLastItem(last), t);
    }
  }

  lemma {:induction false} MoreItems(n: Node, s: bytes, u: bytes, ns: seq<Node>, last: Option<Open>, t: bytes)
    returns (all: seq<Node>)
    requires Valid(n) && ValidItems(ns) && s == Print(n) + u && u == ItemsText(ns, last, t)
    ensures ValidItems(all) && |all| == |ns| + 1 && s == ItemsText(all, last, t)
  {
    all := [n] + ns;
    assert all[1..] == ns;
  }

  lemma {:induction false} NoItems(count: nat, vs: seq<Value>, t: bytes)
    requires ReadItems(count, vs, []).Ok? && ReadItems(count, vs, []).rest == t
    ensures count == 0 && t == []
  {}

  lemma {:induction false} ItemsStep(count: nat, vs: seq<Value>, s: bytes, t: bytes)
    returns (p: Phrase, next: seq<Value>, u: bytes)
    requires count > 0 && ReadItems(count, vs, s).Ok? && ReadItems(count, vs, s).rest == t
    ensures |u| < |s|
    ensures p.Complete? ==>
      && Valid(p.n) && s == Print(p.n) + u
      && ReadItems(count - 1, next, u).Ok? && ReadItems(count - 1, next, u).rest == t
    ensures p.Broken? ==> ValidOpen(p.o) && s == ItemsText([], Some(p.o), t) && count == 1 && t == []
    decreases |s|, 2
  {
    p := ValueBack(None, s);
    var r := ReadValue(None, s);
    next, u := Append(vs, r.val), r.rest;
    if p.Broken? {
      NoItems(count - 1, next, t);
      assert PrintOpen(p.o) + [] == PrintOpen(p.o);
    }
  }

  lemma {:induction false} ItemsBack(count: nat, vs: seq<Value>, s: bytes, t: bytes)
    returns (ns: seq<Node>, last: Option<Open>)
    requires ReadItems(count, vs, s).Ok? && ReadItems(count, vs, s).rest == t
    ensures ValidItems(ns) && (last.Some? ==> ValidOpen(last.value) && t == []) && |ns| + One(last) == count
    ensures s == ItemsText(ns, last, t)
    decreases |s|, 3
  {
    if count == 0 {
      return [], None;
    }
    var p, next, u := ItemsStep(count, vs, s, t);
    if p.Broken? {
      return [], Some(p.o);
    }
    ns, last := ItemsBack(count - 1, next, u, t);
    ns := MoreItems(p.n, s, u, ns, last, t);
  }

  lemma {:induction false} ObjectBack(slot: Option<Value>, s: bytes) returns (p: Phrase)
    requires ReadValue(slot, s).Ok? && s[0] == OBJECT
    ensures PhraseOk(p, s, ReadValue(slot, s).rest)
    decreases |s|, 0
  {
    var es, e := FieldsBack(FieldsOf(slot), s[1..]);
    var t := ReadValue(slot, s).rest;
    assert s == [3] + s[1..];
    if e.Closed? {
      p := Complete(ObjectNode(es));
      Assoc([3], PrintEntries(es) + [0, 0, 9], t);
    } else {
      p := Broken(OpenObject(es, e));
    }
  }

  lemma {:induction false} TypedBack(slot: Option<Value>, s: bytes) returns (p: Phrase)
    requires ReadValue(slot, s).Ok? && s[0] == TYPED_OBJECT
    ensures PhraseOk(p, s, ReadValue(slot, s).rest)
    decreases |s|, 0
  {
    assert s == [16] + s[1..];
    var q, t := ReadString(s[1..], 2), ReadValue(slot, s).rest;
    if q.Fail? {
      NoNameFails(s[1..]);
      NoNameFails([]);
      p := Broken(Nameless(s[1..]));
      return;
    }
    HeadBack(s[1..]);
    var es, e := FieldsBack(FieldsOf(slot), q.rest);
    p := TypedPhrase(q.val, es, e, t);
  }

  lemma {:induction false} TypedPhrase(c: bytes, es: seq<Entry>, e: Ending, t: bytes) returns (p: Phrase)
    requires |c| < 65536 && ValidEntries(es) && NoEmptyName(es) && ValidEnding(e) && (!e.Closed? ==> t == [])
    ensures PhraseOk(p, [16] + (Head(c) + (PrintEntries(es) + PrintEnding(e) + t)), t)
  {
    var body := PrintEntries(es) + PrintEnding(e);
    if e.Closed? {
      p := Complete(TypedNode(c, es));
      Assoc(Head(c), body, t);
      Assoc([16], Head(c) + body, t);
    } else {
      p := Broken(OpenTyped(c, es, e));
      assert body + [] == body;
    }
  }

  /** A marker, a head and a body, and what follows them. */
  lemma {:induction false} Regroup(m: bytes, head: bytes, body: bytes, t: bytes)
    ensures m + (head + (body + [] + t)) == (m + (head + body)) + t
  {
    assert body + [] == body;
  }

  lemma {:induction false} EcmaPhrase(es: seq<Entry>, last: Option<(bytes, Open)>, t: bytes) returns (p: Phrase)
    requires ValidEntries(es) && ValidLast(last) && |es| + One(last) < 0x1_0000_0000 && (last.Some? ==> t == [])
    ensures PhraseOk(p, [8] + (BigEndian(|es| + One(last), 4) + (PrintEntries(es) + PrintLast(last) + t)), t)
  {
    if last.None? {
      p := WholeEcma(es, t);
    } else {
      p := Broken(OpenEcma(es, last.value.0, last.value.1));
      assert PrintEntries(es) + PrintLast(last) + [] == PrintEntries(es) + PrintLast(last);
    }
  }

  lemma {:induction false} WholeEcma(es: seq<Entry>, t: bytes) returns (p: Phrase)
    requires ValidEntries(es) && |es| < 0x1_0000_0000
    ensures PhraseOk(p, [8] + (BigEndian(|es|, 4) + (PrintEntries(es) + [] + t)), t)
  {
    p := Complete(EcmaNode(es));
    Regroup([8], BigEndian(|es|, 4), PrintEntries(es), t);
  }

  lemma {:induction false} EcmaNodeBack(slot: Option<Value>, s: bytes) returns (p: Phrase)
    requires ReadValue(slot, s).Ok? && s[0] == ECMA_ARRAY
    ensures PhraseOk(p, s, ReadValue(slot, s).rest)
    decreases |s|, 0
  {
    var body := s[1..];
    assert s == [8] + body;
    CountBack(body);
    var t := ReadValue(slot, s).rest;
    var es, last := EcmaBack(FromBigEndian(body[..4]), FieldsOf(slot), body[4..], t);
    NamedTextIs(es, last, t);
    p := EcmaPhrase(es, last, t);
  }

  lemma {:induction false} ArrayPhrase(ns: seq<Node>, last: Option<Open>, t: bytes) returns (p: Phrase)
    requires ValidItems(ns) && (last.Some? ==> ValidOpen(last.value) && t == []) && |ns| + One(last) < 0x1_0000_0000
    ensures PhraseOk(p, [10] + (BigEndian(|ns| + One(last), 4) + (PrintItems(ns) + PrintLastItem(last) + t)), t)
  {
    if last.None? {
      p := WholeArray(ns, t);
    } else {
      p := Broken(OpenArray(ns, last.value));
      assert PrintItems(ns) + PrintLastItem(last) + [] == PrintItems(ns) + PrintLastItem(last);
    }
  }

  lemma {:induction false} WholeArray(ns: seq<Node>, t: bytes) returns (p: Phrase)
    requires ValidItems(ns) && |ns| < 0x1_0000_0000
    ensures PhraseOk(p, [10] + (BigEndian(|ns|, 4) + (PrintItems(ns) + [] + t)), t)
  {
    p := Complete(ArrayNode(ns));
    Regroup([10], BigEndian(|ns|, 4), PrintItems(ns), t);
  }

  lemma {:induction false} ArrayNodeBack(slot: Option<Value>, s: bytes) returns (p: Phrase)
    requires ReadValue(slot, s).Ok? && s[0] == STRICT_ARRAY
    ensures PhraseOk(p, s, ReadValue(slot, s).rest)
    decreases |s|, 0
  {
    var body := s[1..];
    assert s == [10] + body;
    CountBack(body);
    var t := ReadValue(slot, s).rest;
    var ns, last := ItemsBack(FromBigEndian(body[..4]), ItemsOf(slot), body[4..], t);
    ItemsTextIs(ns, last, t);
    p := ArrayPhrase(ns, last, t);
  }

  lemma {:induction false} ValueBack(slot: Option<Value>, s: bytes) returns (p: Phrase)
    requires ReadValue(slot, s).Ok?
    ensures PhraseOk(p, s, ReadValue(slot, s).rest)
    decreases |s|, 1
  {
    if s[0] == OBJECT {
      p := ObjectBack(slot, s);
    } else if s[0] == TYPED_OBJECT {
      p := TypedBack(slot, s);
    } else if s[0] == ECMA_ARRAY {
      p := EcmaNodeBack(slot, s);
    } else if s[0] == STRICT_ARRAY {
      p := ArrayNodeBack(slot, s);
    } else {
      var n := ScalarBack(s);
      p := Complete(n);
    }
  }

  // ---- the language ----

  function PhraseMeaning(p: Phrase, slot: Option<Value>): Option<Value> {
    match p
    case Complete(n) => Meaning(n, slot)
    case Broken(o) => Some(OpenMeaning(o, slot))
  }

  /** The input starts with this phrase, whose meaning is v, and t is left. */
  ghost predicate Says(slot: Option<Value>, s: bytes, v: Option<Value>, t: bytes) {
    exists p :: PhraseOk(p, s, t) && PhraseMeaning(p, slot) == v
  }

  /**
   * For all bytes, read into any field: the reader accepts them with a value and a rest iff they are a
   * phrase of that meaning followed by that rest; a phrase that breaks off is followed by nothing.
   */
  lemma {:induction false} AcceptedExactly(slot: Option<Value>, s: bytes, v: Option<Value>, t: bytes)
    ensures ReadValue(slot, s) == Ok(v, t) <==> Says(slot, s, v, t)
  {
    if Says(slot, s, v, t) {
      var p :| PhraseOk(p, s, t) && PhraseMeaning(p, slot) == v;
      PhraseReads(p, slot, s, t);
    } else if ReadValue(slot, s) == Ok(v, t) {
      var p := ValueBack(slot, s);
      PhraseReads(p, slot, s, t);
      assert false;
    }
  }

  lemma {:induction false} PhraseReads(p: Phrase, slot: Option<Value>, s: bytes, t: bytes)
    requires PhraseOk(p, s, t)
    ensures ReadValue(slot, s) == Ok(PhraseMeaning(p, slot), t)
  {
    match p
    case Complete(n) => NodeReads(n, slot, t);
    case Broken(o) => OpenReads(o, slot);
  }
}

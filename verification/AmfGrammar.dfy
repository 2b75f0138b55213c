/**
 * AMF 0 as a grammar: syntax trees of everything the reader of brpc/brpc/amf.cpp accepts completely,
 * the bytes each stands for, and what reading them leaves in a field. The reader agrees with it, and
 * the writer writes the bytes of the grammar. Markers are written out here.
 */
module AmfGrammar {
  import opened AmfCodec
  import opened AmfTheorems
  import opened Bytes
  import opened Options

  datatype Node =
    | NumberNode(bits: nat)
    | BooleanNode(b: byte)
    | ShortNode(s: bytes)
    | LongNode(s: bytes)
    | ObjectNode(entries: seq<Entry>)
    | TypedNode(className: bytes, entries: seq<Entry>)
    | EcmaNode(entries: seq<Entry>)
    | ArrayNode(items: seq<Node>)
    | NullNode
    | UndefinedNode
    | UnsupportedNode
    | UnknownNode(marker: byte)   // object-end, or no marker of AMF 0

  datatype Entry = Entry(name: bytes, node: Node)

  /** Lengths fit; an object's names are not empty, for an empty name ends it. */
  predicate Valid(n: Node)
    decreases n
  {
    match n
    case NumberNode(bits) => bits < 0x1_0000_0000_0000_0000
    case ShortNode(s) => |s| < 65536
    case LongNode(s) => |s| < 0x1_0000_0000
    case ObjectNode(es) => ValidEntries(es) && NoEmptyName(es)
    case TypedNode(c, es) => |c| < 65536 && ValidEntries(es) && NoEmptyName(es)
    case EcmaNode(es) => |es| < 0x1_0000_0000 && ValidEntries(es)
    case ArrayNode(ns) => |ns| < 0x1_0000_0000 && ValidItems(ns)
    case UnknownNode(m) => m == 9 || m > 17
    case _ => true
  }

  predicate NoEmptyName(es: seq<Entry>) { forall i :: 0 <= i < |es| ==> es[i].name != [] }

  predicate ValidEntries(es: seq<Entry>)
    decreases es
  {
    es == [] || (|es[0].name| < 65536 && Valid(es[0].node) && ValidEntries(es[1..]))
  }

  predicate ValidItems(ns: seq<Node>)
    decreases ns
  {
    ns == [] || (Valid(ns[0]) && ValidItems(ns[1..]))
  }

  // ---- bytes ----

  function Print(n: Node): bytes
    decreases n
  {
    match n
    case NumberNode(bits) => [0] + BigEndian(bits, 8)
    case BooleanNode(b) => [1, b]
    case ShortNode(s) => [2] + (BigEndian(|s|, 2) + s)
    case LongNode(s) => [12] + (BigEndian(|s|, 4) + s)
    case ObjectNode(es) => [3] + (PrintEntries(es) + [0, 0, 9])
    case TypedNode(c, es) => [16] + (BigEndian(|c|, 2) + c + (PrintEntries(es) + [0, 0, 9]))
    case EcmaNode(es) => [8] + (BigEndian(|es|, 4) + PrintEntries(es))
    case ArrayNode(ns) => [10] + (BigEndian(|ns|, 4) + PrintItems(ns))
    case NullNode => [5]
    case UndefinedNode => [6]
    case UnsupportedNode => [13]
    case UnknownNode(m) => [m]
  }

  function PrintEntry(e: Entry): bytes
    decreases e
  {
    BigEndian(|e.name|, 2) + e.name + Print(e.node)
  }

  function PrintEntries(es: seq<Entry>): bytes
    decreases es
  {
    if es == [] then [] else PrintEntry(es[0]) + PrintEntries(es[1..])
  }

  function PrintItems(ns: seq<Node>): bytes
    decreases ns
  {
    if ns == [] then [] else Print(ns[0]) + PrintItems(ns[1..])
  }

  // ---- meaning ----

  /** What reading the node into a field that holds `slot` leaves there; None: nothing is stored. Objects
      and arrays already there are added to, everything else is replaced. */
  function Meaning(n: Node, slot: Option<Value>): Option<Value>
    decreases n
  {
    match n
    case NumberNode(bits) => Some(Number(bits))
    case BooleanNode(b) => Some(Boolean(b != 0))
    case ShortNode(s) => Some(Str(s))
    case LongNode(s) => Some(Str(s))
    case ObjectNode(es) => Some(Object(Merge(if slot.Some? && slot.value.Object? then slot.value.fields else [], es)))
    case TypedNode(_, es) => Some(Object(Merge(if slot.Some? && slot.value.Object? then slot.value.fields else [], es)))
    case EcmaNode(es) => Some(Object(Merge(if slot.Some? && slot.value.Object? then slot.value.fields else [], es)))
    case ArrayNode(ns) => Some(Array(Gather(if slot.Some? && slot.value.Array? then slot.value.items else [], ns)))
    case NullNode => Some(Null)
    case UndefinedNode => Some(Undefined)
    case UnsupportedNode => Some(Unsupported)
    case UnknownNode(_) => None
  }

  /** The fields of an object after more entries: each name holds what its last entry left. */
  function Merge(fs: seq<Field>, es: seq<Entry>): seq<Field>
    decreases es
  {
    if es == [] then fs
    else
      var v := Meaning(es[0].node, Lookup(fs, es[0].name));
      Merge(if v.Some? then Insert(fs, es[0].name, v.value) else fs, es[1..])
  }

  function Gather(vs: seq<Value>, ns: seq<Node>): seq<Value>
    decreases ns
  {
    if ns == [] then vs
    else
      var v := Meaning(ns[0], None);
      Gather(if v.Some? then vs + [v.value] else vs, ns[1..])
  }

  // ---- the reader agrees ----

  lemma {:induction false} Behind(m: byte, body: bytes, t: bytes)
    ensures ([m] + body) + t != [] && (([m] + body) + t)[0] == m && (([m] + body) + t)[1..] == body + t
  {}

  lemma {:induction false} Assoc(a: bytes, b: bytes, c: bytes)
    ensures (a + b) + c == a + (b + c)
  {}

  lemma {:induction false} NumberNodeReads(bits: nat, t: bytes)
    requires bits < 0x1_0000_0000_0000_0000
    ensures ReadScalar(0, BigEndian(bits, 8) + t) == Ok(Some(Number(bits)), t)
  {
    PowValues();
    UintReads(bits, 8, t);
  }

  lemma {:induction false} ScalarNodeReads(n: Node, slot: Option<Value>, t: bytes)
    requires Valid(n) && !n.ObjectNode? && !n.TypedNode? && !n.EcmaNode? && !n.ArrayNode?
    ensures ReadValue(slot, Print(n) + t) == Ok(Meaning(n, slot), t)
  {
    PowValues();
    match n
    case NumberNode(bits) =>
      Behind(0, BigEndian(bits, 8), t);
      NumberNodeReads(bits, t);
    case BooleanNode(b) =>
      var s := Print(n) + t;
      assert s[0] == 1 && s[1..][0] == b && s[1..][1..] == t;
    case ShortNode(str) =>
      Behind(2, BigEndian(|str|, 2) + str, t);
      StringReads(str, 2, t);
    case LongNode(str) =>
      Behind(12, BigEndian(|str|, 4) + str, t);
      StringReads(str, 4, t);
    case NullNode => assert ([5] + t)[1..] == t;
    case UndefinedNode => assert ([6] + t)[1..] == t;
    case UnsupportedNode => assert ([13] + t)[1..] == t;
    case UnknownNode(m) => assert ([m] + t)[1..] == t;
  }

  /** Whatever the reader of brpc is given: a node of the grammar is read as its meaning, and exactly its
      bytes are used. */
  lemma {:induction false} NodeReads(n: Node, slot: Option<Value>, t: bytes)
    requires Valid(n)
    ensures ReadValue(slot, Print(n) + t) == Ok(Meaning(n, slot), t)
    decreases n
  {
    match n
    case ObjectNode(es) =>
      Behind(3, PrintEntries(es) + [0, 0, 9], t);
      EntriesRead(FieldsOf(slot), es, t);
    case TypedNode(c, es) =>
      var body := PrintEntries(es) + [0, 0, 9];
      Behind(16, BigEndian(|c|, 2) + c + body, t);
      TypedHead(c, body, t);
      EntriesRead(FieldsOf(slot), es, t);
    case EcmaNode(es) =>
      Behind(8, BigEndian(|es|, 4) + PrintEntries(es), t);
      CountHead(|es|, PrintEntries(es), t);
      EcmaReads(FieldsOf(slot), es, t);
    case ArrayNode(ns) =>
      Behind(10, BigEndian(|ns|, 4) + PrintItems(ns), t);
      CountHead(|ns|, PrintItems(ns), t);
      NodesRead(ItemsOf(slot), ns, t);
    case _ => ScalarNodeReads(n, slot, t);
  }

  lemma {:induction false} TypedHead(c: bytes, body: bytes, t: bytes)
    requires |c| < 65536
    ensures ReadString(BigEndian(|c|, 2) + c + body + t, 2) == Ok(c, body + t)
  {
    PowValues();
    StringReads(c, 2, body + t);
    Assoc(BigEndian(|c|, 2) + c, body, t);
  }

  lemma {:induction false} CountHead(n: nat, body: bytes, t: bytes)
    requires n < 0x1_0000_0000
    ensures var s := BigEndian(n, 4) + body + t; |s| >= 4 && FromBigEndian(s[..4]) == n && s[4..] == body + t
  {
    PowValues();
    UintReads(n, 4, body + t);
    Assoc(BigEndian(n, 4), body, t);
  }

  lemma {:induction false} EntryHead(e: Entry, rest: bytes)
    requires |e.name| < 65536
    ensures ReadString(PrintEntry(e) + rest, 2) == Ok(e.name, Print(e.node) + rest)
  {
    PowValues();
    StringReads(e.name, 2, Print(e.node) + rest);
    Assoc(BigEndian(|e.name|, 2) + e.name, Print(e.node), rest);
  }

  lemma {:induction false} EndOfObject(fs: seq<Field>, t: bytes)
    ensures ReadFields(fs, [0, 0, 9] + t) == Ok(fs, t)
  {
    var s := [0, 0, 9] + t;
    assert BigEndian(0, 2) == [0, 0];
    StringReads([], 2, [9] + t);
    assert BigEndian(0, 2) + [] + ([9] + t) == s;
    assert ([9] + t)[1..] == t;
  }

  lemma {:induction false} EntriesRead(fs: seq<Field>, es: seq<Entry>, t: bytes)
    requires ValidEntries(es) && NoEmptyName(es)
    ensures ReadFields(fs, (PrintEntries(es) + [0, 0, 9]) + t) == Ok(Merge(fs, es), t)
    decreases es
  {
    if es == [] {
      assert [] + [0, 0, 9] == [0, 0, 9];
      EndOfObject(fs, t);
    } else {
      var rest := (PrintEntries(es[1..]) + [0, 0, 9]) + t;
      assert (PrintEntries(es) + [0, 0, 9]) + t == PrintEntry(es[0]) + rest;
      EntryHead(es[0], rest);
      NodeReads(es[0].node, Lookup(fs, es[0].name), rest);
      EntriesRead(Store(fs, es[0].name, Meaning(es[0].node, Lookup(fs, es[0].name))), es[1..], t);
    }
  }

  lemma {:induction false} EcmaReads(fs: seq<Field>, es: seq<Entry>, t: bytes)
    requires ValidEntries(es)
    ensures ReadEcma(|es|, fs, PrintEntries(es) + t) == Ok(Merge(fs, es), t)
    decreases es
  {
    if es == [] {
      assert [] + t == t;
    } else {
      var rest := PrintEntries(es[1..]) + t;
      Assoc(PrintEntry(es[0]), PrintEntries(es[1..]), t);
      EntryHead(es[0], rest);
      NodeReads(es[0].node, Lookup(fs, es[0].name), rest);
      EcmaReads(Store(fs, es[0].name, Meaning(es[0].node, Lookup(fs, es[0].name))), es[1..], t);
    }
  }

  lemma {:induction false} NodesRead(vs: seq<Value>, ns: seq<Node>, t: bytes)
    requires ValidItems(ns)
    ensures ReadItems(|ns|, vs, PrintItems(ns) + t) == Ok(Gather(vs, ns), t)
    decreases ns
  {
    if ns == [] {
      assert [] + t == t;
    } else {
      Assoc(Print(ns[0]), PrintItems(ns[1..]), t);
      NodeReads(ns[0], None, PrintItems(ns[1..]) + t);
      NodesRead(Append(vs, Meaning(ns[0], None)), ns[1..], t);
    }
  }

  /** ReadAMFObject takes an object or an ECMA array, adds to the fields already there, takes null for no
      fields, and refuses everything else. */
  lemma {:induction false} ObjectReadsExactly(fs: seq<Field>, n: Node, t: bytes)
    requires Valid(n)
    ensures ReadObject(fs, Print(n) + t) ==
      if n.ObjectNode? || n.EcmaNode? then Ok(Merge(fs, n.entries), t) else if n.NullNode? then Ok(fs, t) else Fail
  {
    match n
    case ObjectNode(es) =>
      Behind(3, PrintEntries(es) + [0, 0, 9], t);
      EntriesRead(fs, es, t);
    case EcmaNode(es) =>
      Behind(8, BigEndian(|es|, 4) + PrintEntries(es), t);
      CountHead(|es|, PrintEntries(es), t);
      EcmaReads(fs, es, t);
    case NullNode => assert ([5] + t)[1..] == t;
    case _ => FirstMarker(n, t);
  }

  /** ReadAMFArray takes a strict array, adds to the items already there, takes null for no items, and
      refuses everything else. */
  lemma {:induction false} ArrayReadsExactly(vs: seq<Value>, n: Node, t: bytes)
    requires Valid(n)
    ensures ReadArray(vs, Print(n) + t) ==
      if n.ArrayNode? then Ok(Gather(vs, n.items), t) else if n.NullNode? then Ok(vs, t) else Fail
  {
    match n
    case ArrayNode(ns) =>
      Behind(10, BigEndian(|ns|, 4) + PrintItems(ns), t);
      CountHead(|ns|, PrintItems(ns), t);
      NodesRead(vs, ns, t);
    case NullNode => assert ([5] + t)[1..] == t;
    case _ => FirstMarker(n, t);
  }

  function Marker(n: Node): byte {
    match n
    case NumberNode(_) => 0
    case BooleanNode(_) => 1
    case ShortNode(_) => 2
    case ObjectNode(_) => 3
    case NullNode => 5
    case UndefinedNode => 6
    case EcmaNode(_) => 8
    case ArrayNode(_) => 10
    case LongNode(_) => 12
    case UnsupportedNode => 13
    case TypedNode(_, _) => 16
    case UnknownNode(m) => m
  }

  lemma {:induction false} FirstMarker(n: Node, t: bytes)
    ensures Print(n) != [] && (Print(n) + t)[0] == Marker(n)
  {}

  /** The reader refuses the kinds it does not support, and an empty input. */
  lemma {:induction false} UnsupportedKindsFail(slot: Option<Value>, m: byte, t: bytes)
    requires m in [4, 7, 11, 14, 15, 17]
    ensures ReadValue(slot, [m] + t) == Fail && ReadValue(slot, []) == Fail
    ensures ReadObject(FieldsOf(slot), []) == Fail && ReadArray(ItemsOf(slot), []) == Fail
  {
    assert ([m] + t)[0] == m;
  }

  // ---- the writer writes the grammar ----

  function NodeOf(v: Value): Node
    decreases v
  {
    match v
    case Number(bits) => NumberNode(bits)
    case Boolean(b) => BooleanNode(if b then 1 else 0)
    case Str(s) => if |s| < 65536 then ShortNode(s) else LongNode(s)
    case Object(fs) => ObjectNode(EntriesOf(fs))
    case Array(vs) => ArrayNode(NodesOf(vs))
    case Null => NullNode
    case Undefined => UndefinedNode
    case Unsupported => UnsupportedNode
  }

  function EntriesOf(fs: seq<Field>): (es: seq<Entry>)
    ensures |es| == |fs|
    decreases fs
  {
    if fs == [] then [] else [Entry(fs[0].name, NodeOf(fs[0].value))] + EntriesOf(fs[1..])
  }

  function NodesOf(vs: seq<Value>): (ns: seq<Node>)
    ensures |ns| == |vs|
    decreases vs
  {
    if vs == [] then [] else [NodeOf(vs[0])] + NodesOf(vs[1..])
  }

  /** The bytes written for a value are those the grammar gives its kind. */
  lemma {:induction false} WriterPrints(v: Value)
    requires Wf(v)
    ensures Encode(v).ok && Encode(v).out == Print(NodeOf(v))
    decreases v
  {
    match v
    case Object(fs) => FieldsPrint(fs);
    case Array(vs) =>
      ItemsPrint(vs);
      Assoc([10], BigEndian(|vs|, 4), PrintItems(NodesOf(vs)));
    case Str(str) => Assoc([if |str| < 65536 then 2 else 12], BigEndian(|str|, if |str| < 65536 then 2 else 4), str);
    case _ =>
  }

  lemma {:induction false} FieldsPrint(fs: seq<Field>)
    requires WfFields(fs)
    ensures EncodeFields(fs).ok && EncodeFields(fs).out == PrintEntries(EntriesOf(fs)) + [0, 0, 9]
    ensures Body(fs) == PrintEntries(EntriesOf(fs))
    decreases fs
  {
    if fs == [] {
      assert BigEndian(0, 2) == [0, 0];
      assert [] + [0, 0, 9] == [0, 0, 9] == BigEndian(0, 2) + [9];
    } else {
      WriterPrints(fs[0].value);
      FieldsPrint(fs[1..]);
      var es := EntriesOf(fs);
      assert es[1..] == EntriesOf(fs[1..]);
      var head := BigEndian(|fs[0].name|, 2) + fs[0].name;
      Assoc(head, Encode(fs[0].value).out, PrintEntries(es[1..]));
      Assoc(PrintEntry(es[0]), PrintEntries(es[1..]), [0, 0, 9]);
    }
  }

  lemma {:induction false} ItemsPrint(vs: seq<Value>)
    requires WfItems(vs)
    ensures EncodeItems(vs).ok && EncodeItems(vs).out == PrintItems(NodesOf(vs))
    decreases vs
  {
    if vs != [] {
      WriterPrints(vs[0]);
      ItemsPrint(vs[1..]);
      assert NodesOf(vs)[1..] == NodesOf(vs[1..]);
    }
  }

  // ---- ECMA arrays and typed objects ----

  predicate NamedValues(fs: seq<Field>) { forall i :: 0 <= i < |fs| ==> Named(fs[i].value) }

  lemma {:induction false} NodeOfIsValid(v: Value)
    requires Wf(v) && Named(v)
    ensures Valid(NodeOf(v))
    decreases v
  {
    match v
    case Object(fs) =>
      EntriesAreValid(fs);
      NamesStay(fs);
    case Array(vs) => NodesAreValid(vs);
    case _ =>
  }

  lemma {:induction false} NamesStay(fs: seq<Field>)
    requires NamedFields(fs)
    ensures NoEmptyName(EntriesOf(fs)) && NamedValues(fs)
    decreases fs
  {
    if fs != [] {
      NamesStay(fs[1..]);
      var es := EntriesOf(fs);
      assert es[1..] == EntriesOf(fs[1..]);
      forall i | 0 <= i < |es| ensures es[i].name != [] && Named(fs[i].value) {
        if i > 0 { assert es[i] == es[1..][i - 1] && fs[i] == fs[1..][i - 1]; }
      }
    }
  }

  lemma {:induction false} EntriesAreValid(fs: seq<Field>)
    requires WfFields(fs) && (NamedFields(fs) || NamedValues(fs))
    ensures ValidEntries(EntriesOf(fs))
    decreases fs
  {
    if fs != [] {
      if NamedFields(fs) { NamesStay(fs); }
      assert forall i :: 0 <= i < |fs[1..]| ==> fs[1..][i] == fs[i + 1];
      NodeOfIsValid(fs[0].value);
      EntriesAreValid(fs[1..]);
      assert EntriesOf(fs)[1..] == EntriesOf(fs[1..]);
    }
  }

  lemma {:induction false} NodesAreValid(vs: seq<Value>)
    requires WfItems(vs) && NamedItems(vs)
    ensures ValidItems(NodesOf(vs))
    decreases vs
  {
    if vs != [] {
      NodeOfIsValid(vs[0]);
      NodesAreValid(vs[1..]);
      assert NodesOf(vs)[1..] == NodesOf(vs[1..]);
    }
  }

  lemma {:induction false} NodeOfMeans(v: Value)
    requires Wf(v) && Named(v)
    ensures Meaning(NodeOf(v), None) == Some(v)
  {
    NodeOfIsValid(v);
    NodeReads(NodeOf(v), None, []);
    WriterPrints(v);
    ValueReads(v, []);
  }

  /** New fields in the order of the map are simply added. */
  lemma {:induction false} MergeAdds(acc: seq<Field>, fs: seq<Field>)
    requires WfFields(fs) && NamedValues(fs) && Sorted(acc + fs)
    ensures Merge(acc, EntriesOf(fs)) == acc + fs
    decreases fs
  {
    if fs == [] {
      assert acc + fs == acc;
    } else {
      NodeOfMeans(fs[0].value);
      NewName(acc, fs);
      assert acc + [fs[0]] + fs[1..] == acc + fs && EntriesOf(fs)[1..] == EntriesOf(fs[1..]);
      MergeAdds(acc + [fs[0]], fs[1..]);
    }
  }

  /**
   * An ECMA array of the fields of any object reads as that object, through ReadAMFObject and as a field,
   * whatever follows; unlike in an object, names may be empty.
   */
  lemma {:induction false} EcmaRoundTrip(fs: seq<Field>, t: bytes)
    requires Wf(Object(fs)) && NamedValues(fs) && |fs| < 0x1_0000_0000
    ensures var s := [8] + (BigEndian(|fs|, 4) + Body(fs)) + t;
      ReadObject([], s) == Ok(fs, t) && ReadValue(None, s) == Ok(Some(Object(fs)), t)
  {
    var n := EcmaNode(EntriesOf(fs));
    EntriesAreValid(fs);
    FieldsPrint(fs);
    assert [] + fs == fs;
    MergeAdds([], fs);
    NodeReads(n, None, t);
    ObjectReadsExactly([], n, t);
  }

  /** A typed object reads as the object it holds: its class name is skipped. */
  lemma {:induction false} TypedRoundTrip(className: bytes, fs: seq<Field>, t: bytes)
    requires Wf(Object(fs)) && NamedFields(fs) && |className| < 65536
    ensures var s := [16] + (BigEndian(|className|, 2) + className + EncodeFields(fs).out) + t;
      ReadValue(None, s) == Ok(Some(Object(fs)), t)
  {
    var n := TypedNode(className, EntriesOf(fs));
    NamesStay(fs);
    EntriesAreValid(fs);
    FieldsPrint(fs);
    assert [] + fs == fs;
    MergeAdds([], fs);
    NodeReads(n, None, t);
  }
}

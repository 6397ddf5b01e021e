/** The tag-length-value layout `build` writes (src/Paynow.php:195-205):
    every data object is a two-character id, a length field and the value;
    a template's value is the serialisation of its own sub-objects. */
module Tlv {
  import opened Wrappers
  import opened Decimal

  /** A data object whose value is a plain string. */
  datatype Field = Field(id: string, value: string)

  /** A top-level entry of `$mainData`: a plain value, or a template whose
      value is a list of sub-objects (tags 26 and 62). */
  datatype Node = Leaf(id: string, text: string) | Template(id: string, subs: seq<Field>)

  /** `id . padLeft(strlen(value), 2) . value` */
  function Emit(id: string, value: string): string {
    id + LengthField(|value|) + value
  }

  function SerializeFields(fs: seq<Field>): string {
    if fs == [] then "" else Emit(fs[0].id, fs[0].value) + SerializeFields(fs[1..])
  }

  /** The string that becomes a node's value once nested templates are
      serialised (`$mainDataValue['value'] = $tempValue`). */
  function NodeValue(n: Node): string {
    match n
    case Leaf(_, text) => text
    case Template(_, subs) => SerializeFields(subs)
  }

  /** The top level after its templates are serialised: one field per node. */
  function Flattened(ns: seq<Node>): (fs: seq<Field>)
    ensures |fs| == |ns|
    ensures forall i :: 0 <= i < |ns| ==> fs[i] == Field(ns[i].id, NodeValue(ns[i]))
  {
    if ns == [] then [] else [Field(ns[0].id, NodeValue(ns[0]))] + Flattened(ns[1..])
  }

  function SerializeNodes(ns: seq<Node>): string {
    SerializeFields(Flattened(ns))
  }

  /** Serialising one more sub-object appends its encoding: the step of the
      loops at src/Paynow.php:199-201 and 196-205. */
  lemma {:induction false} SerializeFieldsSnoc(fs: seq<Field>, f: Field)
    ensures SerializeFields(fs + [f]) == SerializeFields(fs) + Emit(f.id, f.value)
  {
    if fs == [] {
      assert [f][1..] == [];
    } else {
      assert (fs + [f])[1..] == fs[1..] + [f];
      SerializeFieldsSnoc(fs[1..], f);
    }
  }

  lemma SerializeNodesSnoc(ns: seq<Node>, n: Node)
    ensures SerializeNodes(ns + [n]) == SerializeNodes(ns) + Emit(n.id, NodeValue(n))
  {
    assert Flattened(ns + [n]) == Flattened(ns) + [Field(n.id, NodeValue(n))];
    SerializeFieldsSnoc(Flattened(ns), Field(n.id, NodeValue(n)));
  }

  /** The loop steps in prefix form: the first j + 1 objects serialise to the
      first j followed by object j. */
  lemma SerializeFieldsPrefix(fs: seq<Field>, j: nat)
    requires j < |fs|
    ensures SerializeFields(fs[..j + 1]) == SerializeFields(fs[..j]) + Emit(fs[j].id, fs[j].value)
  {
    assert fs[..j + 1] == fs[..j] + [fs[j]];
    SerializeFieldsSnoc(fs[..j], fs[j]);
  }

  lemma SerializeNodesPrefix(ns: seq<Node>, i: nat)
    requires i < |ns|
    ensures SerializeNodes(ns[..i + 1]) == SerializeNodes(ns[..i]) + Emit(ns[i].id, NodeValue(ns[i]))
  {
    assert ns[..i + 1] == ns[..i] + [ns[i]];
    SerializeNodesSnoc(ns[..i], ns[i]);
  }

  /** What the two-digit layout can carry: a two-character id and a value of
      at most 99 bytes. */
  predicate Fits(f: Field) {
    |f.id| == 2 && |f.value| <= 99
  }

  predicate NodeFits(n: Node) {
    Fits(Field(n.id, NodeValue(n))) && (n.Template? ==> forall f :: f in n.subs ==> Fits(f))
  }

  /** Reads a string left to right as (2-character id, 2-digit length, value)
      objects; None when a length field is not two digits or overruns. */
  function Scan(s: string): Option<seq<Field>>
    decreases |s|
  {
    if s == [] then Some([])
    else if |s| < 4 then None
    else match ParseLength(s[2..4])
      case None => None
      case Some(len) =>
        if |s| < 4 + len then None
        else match Scan(s[4 + len..])
          case None => None
          case Some(rest) => Some([Field(s[..2], s[4..4 + len])] + rest)
  }

  /** One step of the scan: an id, a length field denoting |v|, v, and the
      rest. */
  lemma ScanStep(id: string, lf: string, v: string, rest: string)
    requires |id| == 2 && |lf| == 2 && ParseLength(lf) == Some(|v|)
    ensures Scan(id + lf + v + rest) ==
      match Scan(rest) case None => None case Some(fs) => Some([Field(id, v)] + fs)
  {
    var s := id + lf + v + rest;
    assert s[..2] == id && s[2..4] == lf;
    assert s[4..4 + |v|] == v && s[4 + |v|..] == rest;
  }

  /** Scanning an encoded object followed by anything reads the object back
      and continues with what follows. */
  lemma ScanEmit(f: Field, rest: string)
    requires Fits(f)
    ensures Scan(Emit(f.id, f.value) + rest) ==
      match Scan(rest) case None => None case Some(fs) => Some([f] + fs)
  {
    LengthFieldTwoDigits(|f.value|);
    ScanStep(f.id, LengthField(|f.value|), f.value, rest);
  }

  /** Every length field is exact: scanning the serialisation of objects that
      fit recovers exactly those objects. */
  lemma {:induction false} ScanSerializeFields(fs: seq<Field>)
    requires forall f :: f in fs ==> Fits(f)
    ensures Scan(SerializeFields(fs)) == Some(fs)
  {
    if fs != [] {
      assert forall f :: f in fs[1..] ==> f in fs;
      var tail := SerializeFields(fs[1..]);
      ScanSerializeFields(fs[1..]);
      assert Scan(tail) == Some(fs[1..]);
      ScanEmit(fs[0], tail);
      assert SerializeFields(fs) == Emit(fs[0].id, fs[0].value) + tail;
      assert [fs[0]] + fs[1..] == fs;
    }
  }

  /** The round trip at both levels: the top level scans back to one field per
      node, and the value of every template scans back to its sub-objects. */
  lemma ScanSerializeNodes(ns: seq<Node>)
    requires forall n :: n in ns ==> NodeFits(n)
    ensures Scan(SerializeNodes(ns)) == Some(Flattened(ns))
    ensures forall i :: 0 <= i < |ns| && ns[i].Template? ==>
      Scan(Flattened(ns)[i].value) == Some(ns[i].subs)
  {
    var fs := Flattened(ns);
    forall f | f in fs ensures Fits(f) {
      var i :| 0 <= i < |fs| && fs[i] == f;
      assert NodeFits(ns[i]);
    }
    ScanSerializeFields(fs);
    forall i | 0 <= i < |ns| && ns[i].Template?
      ensures Scan(Flattened(ns)[i].value) == Some(ns[i].subs)
    {
      assert NodeFits(ns[i]);
      ScanSerializeFields(ns[i].subs);
    }
  }

  lemma EmitSize(f: Field)
    requires Fits(f)
    ensures |Emit(f.id, f.value)| == 4 + |f.value|
  {
    LengthFieldTwoDigits(|f.value|);
  }

  /** The total byte size of encoded objects that fit. */
  function EncodedSize(fs: seq<Field>): nat {
    if fs == [] then 0 else 4 + |fs[0].value| + EncodedSize(fs[1..])
  }

  /** A template's length field counts the bytes of all its encoded
      sub-objects: four bytes of id and length for each, plus its value. */
  lemma {:induction false} SerializedSize(fs: seq<Field>)
    requires forall f :: f in fs ==> Fits(f)
    ensures |SerializeFields(fs)| == EncodedSize(fs)
  {
    if fs != [] {
      assert forall f :: f in fs[1..] ==> f in fs;
      SerializedSize(fs[1..]);
      EmitSize(fs[0]);
      assert |SerializeFields(fs)| == |Emit(fs[0].id, fs[0].value)| + |SerializeFields(fs[1..])|;
    }
  }

  /** The size of a template of five sub-objects that fit. */
  lemma SerializedSizeFive(a: Field, b: Field, c: Field, d: Field, e: Field)
    requires Fits(a) && Fits(b) && Fits(c) && Fits(d) && Fits(e)
    ensures |SerializeFields([a, b, c, d, e])| == 20 + |a.value| + |b.value| + |c.value| + |d.value| + |e.value|
  {
    var fs := [a, b, c, d, e];
    SerializedSize(fs);
    assert EncodedSize(fs[4..]) == 4 + |e.value| by { assert fs[4..][1..] == []; }
    assert EncodedSize(fs[3..]) == 4 + |d.value| + EncodedSize(fs[4..]) by { assert fs[3..][1..] == fs[4..]; }
    assert EncodedSize(fs[2..]) == 4 + |c.value| + EncodedSize(fs[3..]) by { assert fs[2..][1..] == fs[3..]; }
    assert EncodedSize(fs[1..]) == 4 + |b.value| + EncodedSize(fs[2..]) by { assert fs[1..][1..] == fs[2..]; }
  }

  /** The strings of `ss` one after another. */
  function Join(ss: seq<string>): string {
    if ss == [] then "" else ss[0] + Join(ss[1..])
  }

  /** The encoding of each object on its own. */
  function Encodings(fs: seq<Field>): (es: seq<string>)
    ensures |es| == |fs| && forall i :: 0 <= i < |fs| ==> es[i] == Emit(fs[i].id, fs[i].value)
  {
    if fs == [] then [] else [Emit(fs[0].id, fs[0].value)] + Encodings(fs[1..])
  }

  /** Serialising is writing the objects' encodings one after another. */
  lemma {:induction false} SerializeFieldsJoin(fs: seq<Field>)
    ensures SerializeFields(fs) == Join(Encodings(fs))
  {
    if fs != [] {
      SerializeFieldsJoin(fs[1..]);
      assert Encodings(fs)[1..] == Encodings(fs[1..]);
    }
  }
}

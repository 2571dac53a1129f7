/** A typed table of fields, written as a document tree and read back by visitors that
    dispatch on the hash of the key. */
module Reflection {
  import opened Wrappers
  import opened KeyHash

  type Int32 = n: int | -0x8000_0000 <= n < 0x8000_0000
  type Int64 = n: int | -0x8000_0000_0000_0000 <= n < 0x8000_0000_0000_0000

  datatype Number = DoubleOf(r: real) | BoolOf(b: bool) | Int32Of(n: Int32) | Int64Of(m: Int64)
  datatype NumberType = Double | Bool | Int32Type | Int64Type

  datatype Type = NumberField(number: NumberType) | TextField | Struct(members: seq<Member>)
  datatype Member = Member(name: seq<Byte>, of: Type)

  datatype Value = NumberValue(number: Number) | TextValue(text: seq<Byte>) | Record(fields: seq<Value>)

  datatype Content = NumberContent(number: Number) | TextContent(text: seq<Byte>) | Document(elements: seq<Element>)
  datatype Element = Element(key: seq<Byte>, content: Content)

  function TypeOf(n: Number): NumberType {
    match n
    case DoubleOf(_) => Double
    case BoolOf(_) => Bool
    case Int32Of(_) => Int32Type
    case Int64Of(_) => Int64Type
  }

  predicate HasType(v: Value, t: Type)
    decreases t, 1
  {
    match t
    case NumberField(number) => v.NumberValue? && TypeOf(v.number) == number
    case TextField => v.TextValue?
    case Struct(members) => v.Record? && HasTypes(v.fields, t)
  }

  predicate HasTypes(values: seq<Value>, t: Type)
    requires t.Struct?
    decreases t, 0
  {
    |values| == |t.members| && forall i :: 0 <= i < |values| ==> HasType(values[i], t.members[i].of)
  }

  /** The fields of the struct in member `i`. */
  function FieldsOf(t: Type, values: seq<Value>, i: nat): (fields: seq<Value>)
    requires t.Struct? && HasTypes(values, t) && i < |t.members| && t.members[i].of.Struct?
    ensures HasTypes(fields, t.members[i].of) && values[i] == Record(fields)
  {
    assert HasType(values[i], t.members[i].of);
    values[i].fields
  }

  function Hash(t: Type, i: nat, kind: CharKind): Word
    requires t.Struct? && i < |t.members|
  {
    HashOf(t.members[i].name, kind)
  }

  // ---------------------------------------------------------------- conversions

  function Truncate(r: real): int {
    if r >= 0.0 then r.Floor else -((-r).Floor)
  }

  function Wrap32(n: int): Int32 {
    (n + 0x8000_0000) % 0x1_0000_0000 - 0x8000_0000
  }

  function Wrap64(n: int): Int64 {
    (n + 0x8000_0000_0000_0000) % 0x1_0000_0000_0000_0000 - 0x8000_0000_0000_0000
  }

  function AsInt(n: Number): int {
    match n
    case DoubleOf(r) => Truncate(r)
    case BoolOf(b) => if b then 1 else 0
    case Int32Of(i) => i
    case Int64Of(i) => i
  }

  /** The implicit conversion between arithmetic types. */
  function Convert(n: Number, to: NumberType): (r: Number)
    ensures TypeOf(r) == to
    ensures TypeOf(n) == to ==> r == n
  {
    if TypeOf(n) == to then n
    else match to
      case Double => DoubleOf(AsInt(n) as real)
      case Bool => BoolOf(if n.DoubleOf? then n.r != 0.0 else AsInt(n) != 0)
      case Int32Type => Int32Of(Wrap32(AsInt(n)))
      case Int64Type => Int64Of(Wrap64(AsInt(n)))
  }

  // ---------------------------------------------------------------- writing

  /** Appends the members from `i` on. A string ends at its first NUL. */
  function Serialize(t: Type, values: seq<Value>, i: nat): (elements: seq<Element>)
    requires t.Struct? && HasTypes(values, t) && i <= |t.members|
    ensures |elements| == |t.members| - i
    decreases t, |t.members| - i
  {
    if i == |t.members| then []
    else [Element(Cut(t.members[i].name), ContentOf(t, values, i))] + Serialize(t, values, i + 1)
  }

  function ContentOf(t: Type, values: seq<Value>, i: nat): Content
    requires t.Struct? && HasTypes(values, t) && i < |t.members|
    decreases t, 0
  {
    assert HasType(values[i], t.members[i].of);
    match t.members[i].of
    case NumberField(_) => NumberContent(values[i].number)
    case TextField => TextContent(Cut(values[i].text))
    case Struct(_) => Document(Serialize(t.members[i].of, FieldsOf(t, values, i), 0))
  }

  // ---------------------------------------------------------------- reading

  /** A number goes to the first numeric member from `i` on with its hash. `None` if a member
      of another kind with its hash comes first: an assertion of the program fails. */
  function Store(t: Type, values: seq<Value>, i: nat, hash: Word, n: Number, kind: CharKind): (r: Option<seq<Value>>)
    requires t.Struct? && HasTypes(values, t) && i <= |t.members|
    ensures r.Some? ==> HasTypes(r.value, t)
    decreases |t.members| - i
  {
    if i == |t.members| then Some(values)
    else if t.members[i].of.NumberField? then
      if Hash(t, i, kind) == hash then Some(values[i := NumberValue(Convert(n, t.members[i].of.number))])
      else Store(t, values, i + 1, hash, n, kind)
    else if Hash(t, i, kind) == hash then None
    else Store(t, values, i + 1, hash, n, kind)
  }

  /** A string goes to the first string member from `i` on with its hash. */
  function StoreText(t: Type, values: seq<Value>, i: nat, hash: Word,
      text: seq<Byte>, kind: CharKind): (r: Option<seq<Value>>)
    requires t.Struct? && HasTypes(values, t) && i <= |t.members|
    ensures r.Some? ==> HasTypes(r.value, t)
    decreases |t.members| - i
  {
    if i == |t.members| then Some(values)
    else if t.members[i].of.TextField? then
      if Hash(t, i, kind) == hash then Some(values[i := TextValue(text)])
      else StoreText(t, values, i + 1, hash, text, kind)
    else if Hash(t, i, kind) == hash then None
    else StoreText(t, values, i + 1, hash, text, kind)
  }

  /** A document goes to the first struct member from `i` on, whatever its hash. */
  function Recurse(t: Type, values: seq<Value>, i: nat, hash: Word,
      child: Content, kind: CharKind): (r: Option<seq<Value>>)
    requires t.Struct? && HasTypes(values, t) && i <= |t.members| && child.Document?
    ensures r.Some? ==> HasTypes(r.value, t)
    decreases child, |child.elements| + 1, |t.members| - i
  {
    if i == |t.members| then Some(values)
    else if t.members[i].of.Struct? then
      match Visit(t.members[i].of, FieldsOf(t, values, i), child, |child.elements|, kind)
      case Some(fields) => Some(values[i := Record(fields)])
      case None => None
    else if Hash(t, i, kind) == hash then None
    else Recurse(t, values, i + 1, hash, child, kind)
  }

  /** The values after visiting the first `n` elements. */
  function Visit(t: Type, values: seq<Value>, doc: Content, n: nat, kind: CharKind): (r: Option<seq<Value>>)
    requires t.Struct? && HasTypes(values, t) && doc.Document? && n <= |doc.elements|
    ensures r.Some? ==> HasTypes(r.value, t)
    decreases doc, n, 0
  {
    if n == 0 then Some(values)
    else match Visit(t, values, doc, n - 1, kind)
      case None => None
      case Some(before) => Take(t, before, HashOf(doc.elements[n - 1].key, kind), doc.elements[n - 1].content, kind)
  }

  /** The visitor for one element, by the type of its content. */
  function Take(t: Type, values: seq<Value>, hash: Word, content: Content, kind: CharKind): (r: Option<seq<Value>>)
    requires t.Struct? && HasTypes(values, t)
    ensures r.Some? ==> HasTypes(r.value, t)
    decreases content, if content.Document? then |content.elements| + 2 else 0, 0
  {
    match content
    case NumberContent(number) => Store(t, values, 0, hash, number, kind)
    case TextContent(text) => StoreText(t, values, 0, hash, text, kind)
    case Document(_) => Recurse(t, values, 0, hash, content, kind)
  }

  function Serialized(t: Type, values: seq<Value>): Content
    requires t.Struct? && HasTypes(values, t)
  {
    Document(Serialize(t, values, 0))
  }

  function Restored(t: Type, values: seq<Value>, doc: Content, kind: CharKind): (r: Option<seq<Value>>)
    requires t.Struct? && HasTypes(values, t) && doc.Document?
    ensures r.Some? ==> HasTypes(r.value, t)
  {
    Visit(t, values, doc, |doc.elements|, kind)
  }

  // ---------------------------------------------------------------- when it works

  /** At every level the member hashes differ and at most one member is a struct. */
  predicate Separated(t: Type, kind: CharKind) {
    t.Struct? ==>
      && (forall i, j :: 0 <= i < j < |t.members| ==> Hash(t, i, kind) != Hash(t, j, kind))
      && (forall i, j :: 0 <= i < j < |t.members| ==> !(t.members[i].of.Struct? && t.members[j].of.Struct?))
      && (forall i :: 0 <= i < |t.members| ==> Separated(t.members[i].of, kind))
  }

  /** A struct has at least one member, at every level. */
  predicate Inhabited(t: Type) {
    t.Struct? ==> t.members != [] && forall i :: 0 <= i < |t.members| ==> Inhabited(t.members[i].of)
  }

  /** Every string cut at its first NUL. */
  function CutValue(v: Value): Value {
    match v
    case NumberValue(_) => v
    case TextValue(text) => TextValue(Cut(text))
    case Record(fields) => Record(seq(|fields|, i requires 0 <= i < |fields| => CutValue(fields[i])))
  }

  function CutValues(values: seq<Value>): seq<Value> {
    seq(|values|, i requires 0 <= i < |values| => CutValue(values[i]))
  }

  predicate NulFree(v: Value) {
    match v
    case NumberValue(_) => true
    case TextValue(text) => 0 !in text
    case Record(fields) => forall i :: 0 <= i < |fields| ==> NulFree(fields[i])
  }

  lemma {:induction false} CutKeeps(v: Value)
    ensures CutValue(v) == v <==> NulFree(v)
  {
    match v
    case NumberValue(_) =>
    case TextValue(text) =>
      if 0 !in text {
        CutIsWhole(text);
      }
    case Record(fields) =>
      forall i | 0 <= i < |fields|
        ensures CutValue(fields[i]) == fields[i] <==> NulFree(fields[i])
      {
        CutKeeps(fields[i]);
      }
      assert CutValue(v) == v ==> forall i :: 0 <= i < |fields| ==> CutValue(v).fields[i] == fields[i];
      assert (forall i :: 0 <= i < |fields| ==> CutValue(fields[i]) == fields[i]) ==> CutValue(v).fields == fields;
  }

  // ---------------------------------------------------------------- every member finds itself

  lemma {:induction false} SerializeAt(t: Type, values: seq<Value>, i: nat, k: nat)
    requires t.Struct? && HasTypes(values, t) && i <= k < |t.members|
    ensures Serialize(t, values, i)[k - i] == Element(Cut(t.members[k].name), ContentOf(t, values, k))
    decreases k - i
  {
    if i < k {
      SerializeAt(t, values, i + 1, k);
    }
  }

  predicate FirstWithHash(t: Type, i: nat, k: nat, kind: CharKind)
    requires t.Struct? && k < |t.members|
  {
    i <= k && forall j :: i <= j < k ==> Hash(t, j, kind) != Hash(t, k, kind)
  }

  lemma {:induction false} StoreFinds(t: Type, values: seq<Value>, i: nat, k: nat, n: Number, kind: CharKind)
    requires t.Struct? && HasTypes(values, t) && k < |t.members| && FirstWithHash(t, i, k, kind)
    requires t.members[k].of.NumberField?
    ensures Store(t, values, i, Hash(t, k, kind), n, kind) ==
            Some(values[k := NumberValue(Convert(n, t.members[k].of.number))])
    decreases k - i
  {
    if i < k {
      StoreFinds(t, values, i + 1, k, n, kind);
    }
  }

  lemma {:induction false} StoreTextFinds(t: Type, values: seq<Value>, i: nat, k: nat, text: seq<Byte>, kind: CharKind)
    requires t.Struct? && HasTypes(values, t) && k < |t.members| && FirstWithHash(t, i, k, kind)
    requires t.members[k].of.TextField?
    ensures StoreText(t, values, i, Hash(t, k, kind), text, kind) == Some(values[k := TextValue(text)])
    decreases k - i
  {
    if i < k {
      StoreTextFinds(t, values, i + 1, k, text, kind);
    }
  }

  lemma {:induction false} RecurseFinds(t: Type, values: seq<Value>, i: nat, k: nat, child: Content, kind: CharKind)
    requires t.Struct? && HasTypes(values, t) && k < |t.members| && FirstWithHash(t, i, k, kind)
    requires t.members[k].of.Struct? && child.Document?
    requires forall j :: i <= j < k ==> !t.members[j].of.Struct?
    ensures Recurse(t, values, i, Hash(t, k, kind), child, kind) ==
            match Restored(t.members[k].of, FieldsOf(t, values, k), child, kind)
            case Some(fields) => Some(values[k := Record(fields)])
            case None => None
    decreases k - i
  {
    if i < k {
      RecurseFinds(t, values, i + 1, k, child, kind);
    }
  }

  /** The round trip: on a separated type, visiting the serialised document into any target
      restores every field at every depth, with strings cut at their first NUL, and no
      assertion fails on the way. */
  lemma {:induction false} RoundTrip(t: Type, values: seq<Value>, target: seq<Value>, kind: CharKind)
    requires t.Struct? && Separated(t, kind) && HasTypes(values, t) && HasTypes(target, t)
    ensures Restored(t, target, Serialized(t, values), kind) == Some(CutValues(values))
    decreases t, |t.members| + 1
  {
    RoundTripPrefix(t, values, target, |t.members|, kind);
    assert CutValues(values) + target[|values|..] == CutValues(values);
    assert CutValues(values)[..|values|] == CutValues(values);
  }

  /** After the first `n` elements the first `n` fields are restored, and no other changed. */
  lemma {:induction false} RoundTripPrefix(t: Type, values: seq<Value>, target: seq<Value>, n: nat, kind: CharKind)
    requires t.Struct? && Separated(t, kind) && HasTypes(values, t) && HasTypes(target, t) && n <= |t.members|
    ensures Visit(t, target, Serialized(t, values), n, kind) == Some(CutValues(values)[..n] + target[n..])
    decreases t, n
  {
    hide Visit;
    hide Take;
    hide HasType;
    hide Separated;
    hide CutValue;
    hide HashOf;
    hide ContentOf;
    var doc := Serialized(t, values);
    if n == 0 {
      VisitNone(t, target, doc, kind);
      assert CutValues(values)[..0] + target[0..] == target;
    } else {
      var k := n - 1;
      RoundTripPrefix(t, values, target, k, kind);
      var before := CutValues(values)[..k] + target[k..];
      if t.members[k].of.Struct? {
        SeparatedBelow(t, k, kind);
        RoundTrip(t.members[k].of, FieldsOf(t, values, k), FieldsOf(t, target, k), kind);
      }
      RestoresOne(t, values, target, before, k, kind);
      Spliced(CutValues(values), target, k);
    }
  }

  /** Visiting element `k` of the serialised document restores field `k`. */
  lemma RestoresOne(t: Type, values: seq<Value>, target: seq<Value>, before: seq<Value>, k: nat, kind: CharKind)
    requires t.Struct? && Separated(t, kind) && k < |t.members|
    requires HasTypes(values, t) && HasTypes(target, t) && HasTypes(before, t) && before[k] == target[k]
    requires Visit(t, target, Serialized(t, values), k, kind) == Some(before)
    requires t.members[k].of.Struct? ==>
               Restored(t.members[k].of, FieldsOf(t, target, k),
                   Serialized(t.members[k].of, FieldsOf(t, values, k)), kind)
               == Some(CutValues(FieldsOf(t, values, k)))
    ensures Visit(t, target, Serialized(t, values), k + 1, kind) == Some(before[k := CutValue(values[k])])
  {
    hide Visit;
    hide Take;
    hide HasType;
    hide Separated;
    hide CutValue;
    hide HashOf;
    hide ContentOf;
    VisitOne(t, target, Serialized(t, values), k + 1, kind);
    SerializeAt(t, values, 0, k);
    HashStopsAtNul(t.members[k].name, kind);
    hide Serialize;
    OneMember(t, values, target, before, k, kind);
  }


  lemma Spliced(values: seq<Value>, target: seq<Value>, k: nat)
    requires |values| == |target| && k < |values|
    ensures (values[..k] + target[k..])[k := values[k]] == values[..k + 1] + target[k + 1..]
  {
  }

  lemma SeparatedBelow(t: Type, k: nat, kind: CharKind)
    requires t.Struct? && Separated(t, kind) && k < |t.members|
    ensures Separated(t.members[k].of, kind)
  {
  }

  lemma VisitNone(t: Type, target: seq<Value>, doc: Content, kind: CharKind)
    requires t.Struct? && HasTypes(target, t) && doc.Document?
    ensures Visit(t, target, doc, 0, kind) == Some(target)
  {
  }

  lemma VisitOne(t: Type, target: seq<Value>, doc: Content, n: nat, kind: CharKind)
    requires t.Struct? && HasTypes(target, t) && doc.Document? && 0 < n <= |doc.elements|
    ensures var before := Visit(t, target, doc, n - 1, kind); var element := doc.elements[n - 1];
            Visit(t, target, doc, n, kind) ==
              if before.Some? then Take(t, before.value, HashOf(element.key, kind), element.content, kind) else None
  {
  }

  lemma OneMember(t: Type, values: seq<Value>, target: seq<Value>, before: seq<Value>, k: nat, kind: CharKind)
    requires t.Struct? && Separated(t, kind) && k < |t.members|
    requires HasTypes(values, t) && HasTypes(target, t) && HasTypes(before, t) && before[k] == target[k]
    requires t.members[k].of.Struct? ==>
               Restored(t.members[k].of, FieldsOf(t, target, k),
                   Serialized(t.members[k].of, FieldsOf(t, values, k)), kind)
               == Some(CutValues(FieldsOf(t, values, k)))
    ensures Take(t, before, Hash(t, k, kind), ContentOf(t, values, k), kind) == Some(before[k := CutValue(values[k])])
  {
    assert HasType(values[k], t.members[k].of);
    assert FirstWithHash(t, 0, k, kind);
    match t.members[k].of
    case NumberField(_) => StoreFinds(t, before, 0, k, values[k].number, kind);
    case TextField => StoreTextFinds(t, before, 0, k, Cut(values[k].text), kind);
    case Struct(_) => RecurseFinds(t, before, 0, k, ContentOf(t, values, k), kind);
  }
}

/** Exactly which types the codec restores: those where at every level the member hashes
    differ and at most one member is a struct. */
module ReflectionLimits {
  import opened Wrappers
  import opened KeyHash
  import opened Reflection

  // ---------------------------------------------------------------- two values of every type

  function Sample(t: Type, other: bool): (v: Value)
    ensures HasType(v, t)
    decreases t, 1
  {
    match t
    case NumberField(number) =>
      NumberValue(match number
                  case Double => DoubleOf(if other then 1.0 else 0.0)
                  case Bool => BoolOf(other)
                  case Int32Type => Int32Of(if other then 1 else 0)
                  case Int64Type => Int64Of(if other then 1 else 0))
    case TextField => TextValue(if other then [97] else [])
    case Struct(_) => Record(Samples(t, other))
  }

  function Samples(t: Type, other: bool): (values: seq<Value>)
    requires t.Struct?
    ensures HasTypes(values, t)
    ensures forall i :: 0 <= i < |t.members| ==> values[i] == Sample(t.members[i].of, other)
    decreases t, 0
  {
    seq(|t.members|, i requires 0 <= i < |t.members| => Sample(t.members[i].of, other))
  }

  lemma {:induction false} SamplesDiffer(t: Type)
    requires Inhabited(t)
    ensures Sample(t, false) != Sample(t, true)
  {
    if t.Struct? {
      SamplesDiffer(t.members[0].of);
      assert Sample(t, false).fields[0] != Sample(t, true).fields[0];
    }
  }

  lemma {:induction false} SampleHasNoNul(t: Type, other: bool)
    ensures NulFree(Sample(t, other))
  {
    if t.Struct? {
      forall i | 0 <= i < |t.members|
        ensures NulFree(Samples(t, other)[i])
      {
        SampleHasNoNul(t.members[i].of, other);
      }
    }
  }

  lemma SamplesUncut(t: Type, other: bool)
    requires t.Struct?
    ensures CutValues(Samples(t, other)) == Samples(t, other)
  {
    forall i | 0 <= i < |t.members|
      ensures CutValues(Samples(t, other))[i] == Samples(t, other)[i]
    {
      SampleHasNoNul(t.members[i].of, other);
      CutKeeps(Samples(t, other)[i]);
    }
  }

  // ---------------------------------------------------------------- fields nothing is written to

  /** An earlier member has the same hash. */
  ghost predicate Shadowed(t: Type, from: nat, j: nat, kind: CharKind)
    requires t.Struct? && j < |t.members|
  {
    exists i :: from <= i < j && Hash(t, i, kind) == Hash(t, j, kind)
  }

  ghost predicate StructBefore(t: Type, from: nat, j: nat)
    requires t.Struct? && j < |t.members|
  {
    exists i :: from <= i < j && t.members[i].of.Struct?
  }

  lemma {:induction false} StoreKeeps(t: Type, values: seq<Value>, i: nat, hash: Word, n: Number,
      j: nat, kind: CharKind)
    requires t.Struct? && HasTypes(values, t) && i <= |t.members| && j < |t.members|
    requires t.members[j].of.Struct? || Hash(t, j, kind) != hash || Shadowed(t, i, j, kind)
    ensures var r := Store(t, values, i, hash, n, kind); r.Some? ==> r.value[j] == values[j]
    decreases |t.members| - i
  {
    if i < |t.members| && Hash(t, i, kind) != hash {
      StoreKeeps(t, values, i + 1, hash, n, j, kind);
    }
  }

  lemma {:induction false} StoreTextKeeps(t: Type, values: seq<Value>, i: nat, hash: Word, text: seq<Byte>,
      j: nat, kind: CharKind)
    requires t.Struct? && HasTypes(values, t) && i <= |t.members| && j < |t.members|
    requires t.members[j].of.Struct? || Hash(t, j, kind) != hash || Shadowed(t, i, j, kind)
    ensures var r := StoreText(t, values, i, hash, text, kind); r.Some? ==> r.value[j] == values[j]
    decreases |t.members| - i
  {
    if i < |t.members| && Hash(t, i, kind) != hash {
      StoreTextKeeps(t, values, i + 1, hash, text, j, kind);
    }
  }

  lemma {:induction false} RecurseKeeps(t: Type, values: seq<Value>, i: nat, hash: Word, child: Content,
      j: nat, kind: CharKind)
    requires t.Struct? && HasTypes(values, t) && i <= |t.members| && j < |t.members| && child.Document?
    requires !t.members[j].of.Struct? || StructBefore(t, i, j)
    ensures var r := Recurse(t, values, i, hash, child, kind); r.Some? ==> r.value[j] == values[j]
    decreases |t.members| - i
  {
    if i < |t.members| && !t.members[i].of.Struct? {
      RecurseKeeps(t, values, i + 1, hash, child, j, kind);
    }
  }

  /** A visit of `content` cannot write member `j`. */
  ghost predicate Untouchable(t: Type, j: nat, content: Content, kind: CharKind)
    requires t.Struct? && j < |t.members|
  {
    if content.Document? then !t.members[j].of.Struct? || StructBefore(t, 0, j)
    else t.members[j].of.Struct? || Shadowed(t, 0, j, kind)
  }

  lemma TakeKeeps(t: Type, values: seq<Value>, hash: Word, content: Content, j: nat, kind: CharKind)
    requires t.Struct? && HasTypes(values, t) && j < |t.members| && Untouchable(t, j, content, kind)
    ensures var r := Take(t, values, hash, content, kind); r.Some? ==> r.value[j] == values[j]
  {
    match content
    case NumberContent(n) => StoreKeeps(t, values, 0, hash, n, j, kind);
    case TextContent(text) => StoreTextKeeps(t, values, 0, hash, text, j, kind);
    case Document(_) => RecurseKeeps(t, values, 0, hash, content, j, kind);
  }

  /** A stretch of elements none of which can write member `j`. */
  lemma {:induction false} VisitKeeps(t: Type, target: seq<Value>, doc: Content, m: nat, n: nat, j: nat, kind: CharKind)
    requires t.Struct? && HasTypes(target, t) && doc.Document? && m <= n <= |doc.elements| && j < |t.members|
    requires forall k :: m <= k < n ==> Untouchable(t, j, doc.elements[k].content, kind)
    ensures var before, after := Visit(t, target, doc, m, kind), Visit(t, target, doc, n, kind);
            after.Some? ==> before.Some? && after.value[j] == before.value[j]
    decreases n
  {
    if m < n {
      hide Visit;
      hide Take;
      hide HasTypes;
      hide Untouchable;
      VisitKeeps(t, target, doc, m, n - 1, j, kind);
      VisitOne(t, target, doc, n, kind);
      var before := Visit(t, target, doc, n - 1, kind);
      if before.Some? {
        TakeKeeps(t, before.value, HashOf(doc.elements[n - 1].key, kind), doc.elements[n - 1].content, j, kind);
      }
    }
  }

  lemma {:induction false} RecurseFails(t: Type, values: seq<Value>, from: nat, i: nat, hash: Word,
      child: Content, kind: CharKind)
    requires t.Struct? && HasTypes(values, t) && from <= i < |t.members| && child.Document?
    requires Hash(t, i, kind) == hash && forall k :: from <= k <= i ==> !t.members[k].of.Struct?
    ensures Recurse(t, values, from, hash, child, kind).None?
    decreases i - from
  {
    if from < i && Hash(t, from, kind) != hash {
      RecurseFails(t, values, from + 1, i, hash, child, kind);
    }
  }

  // ---------------------------------------------------------------- types that are not restored

  /** Some field of every result has kept what the target had. */
  lemma KeptFieldFails(t: Type, j: nat, kind: CharKind)
    requires t.Struct? && Inhabited(t) && j < |t.members|
    requires t.members[j].of.Struct? || Shadowed(t, 0, j, kind)
    requires !t.members[j].of.Struct? || StructBefore(t, 0, j)
    ensures Restored(t, Samples(t, true), Serialized(t, Samples(t, false)), kind) != Some(Samples(t, false))
  {
    var doc := Serialized(t, Samples(t, false));
    VisitKeeps(t, Samples(t, true), doc, 0, |doc.elements|, j, kind);
    VisitNone(t, Samples(t, true), doc, kind);
    SamplesDiffer(t.members[j].of);
  }

  /** An element that fails makes the whole visit fail. */
  lemma {:induction false} FailureStays(t: Type, target: seq<Value>, doc: Content, m: nat, n: nat, kind: CharKind)
    requires t.Struct? && HasTypes(target, t) && doc.Document? && m <= n <= |doc.elements|
    requires Visit(t, target, doc, m, kind).None?
    ensures Visit(t, target, doc, n, kind).None?
    decreases n
  {
    if m < n {
      FailureStays(t, target, doc, m, n - 1, kind);
      VisitOne(t, target, doc, n, kind);
    }
  }

  /** A struct whose document trips over an earlier scalar member with its hash. */
  lemma AssertionFails(t: Type, values: seq<Value>, target: seq<Value>, i: nat, j: nat, kind: CharKind)
    requires t.Struct? && HasTypes(values, t) && HasTypes(target, t) && i < j < |t.members|
    requires t.members[j].of.Struct? && !StructBefore(t, 0, j) && Hash(t, i, kind) == Hash(t, j, kind)
    ensures Restored(t, target, Serialized(t, values), kind).None?
  {
    hide Visit;
    hide Take;
    hide Recurse;
    hide Serialize;
    hide HashOf;
    hide HasTypes;
    hide ContentOf;
    var doc := Serialized(t, values);
    SerializeAt(t, values, 0, j);
    HashStopsAtNul(t.members[j].name, kind);
    VisitOne(t, target, doc, j + 1, kind);
    StructContent(t, values, j);
    var before := Visit(t, target, doc, j, kind);
    if before.Some? {
      TakeDocument(t, before.value, Hash(t, j, kind), doc.elements[j].content, kind);
      RecurseFails(t, before.value, 0, i, Hash(t, j, kind), doc.elements[j].content, kind);
    }
    FailureStays(t, target, doc, j + 1, |doc.elements|, kind);
  }

  lemma StructContent(t: Type, values: seq<Value>, j: nat)
    requires t.Struct? && HasTypes(values, t) && j < |t.members| && t.members[j].of.Struct?
    ensures ContentOf(t, values, j).Document?
  {
  }

  lemma TakeDocument(t: Type, values: seq<Value>, hash: Word, content: Content, kind: CharKind)
    requires t.Struct? && HasTypes(values, t) && content.Document?
    ensures Take(t, values, hash, content, kind) == Recurse(t, values, 0, hash, content, kind)
  {
  }

  /** Two members clash. */
  lemma ClashFails(t: Type, i: nat, j: nat, kind: CharKind)
    requires t.Struct? && Inhabited(t) && i < j < |t.members|
    requires Hash(t, i, kind) == Hash(t, j, kind) || (t.members[i].of.Struct? && t.members[j].of.Struct?)
    ensures Restored(t, Samples(t, true), Serialized(t, Samples(t, false)), kind) != Some(Samples(t, false))
  {
    if t.members[j].of.Struct? && !StructBefore(t, 0, j) {
      AssertionFails(t, Samples(t, false), Samples(t, true), i, j, kind);
    } else {
      KeptFieldFails(t, j, kind);
    }
  }

  /** Members do not clash, and member `k` is the struct: it gets what its own visit gives. */
  lemma StructGetsVisit(t: Type, values: seq<Value>, target: seq<Value>, k: nat, kind: CharKind)
    requires t.Struct? && HasTypes(values, t) && HasTypes(target, t) && k < |t.members| && t.members[k].of.Struct?
    requires forall i, j :: 0 <= i < j < |t.members| ==> Hash(t, i, kind) != Hash(t, j, kind)
    requires forall i :: 0 <= i < |t.members| && i != k ==> !t.members[i].of.Struct?
    ensures var r := Restored(t, target, Serialized(t, values), kind);
            r.Some? ==> Restored(t.members[k].of, FieldsOf(t, target, k),
                Serialized(t.members[k].of, FieldsOf(t, values, k)), kind)
                        == Some(FieldsOf(t, r.value, k))
  {
    var doc := Serialized(t, values);
    forall m | 0 <= m < |t.members| && m != k
      ensures Untouchable(t, k, doc.elements[m].content, kind)
    {
      SerializeAt(t, values, 0, m);
    }
    VisitNone(t, target, doc, kind);
    VisitKeeps(t, target, doc, 0, k, k, kind);
    VisitKeeps(t, target, doc, k + 1, |doc.elements|, k, kind);
    VisitOne(t, target, doc, k + 1, kind);
    SerializeAt(t, values, 0, k);
    HashStopsAtNul(t.members[k].name, kind);
    var before := Visit(t, target, doc, k, kind);
    if before.Some? {
      RecurseFinds(t, before.value, 0, k, doc.elements[k].content, kind);
    }
  }

  lemma NestedFails(t: Type, k: nat, kind: CharKind)
    requires t.Struct? && Inhabited(t) && k < |t.members| && t.members[k].of.Struct?
    requires forall i, j :: 0 <= i < j < |t.members| ==> Hash(t, i, kind) != Hash(t, j, kind)
    requires forall i :: 0 <= i < |t.members| && i != k ==> !t.members[i].of.Struct?
    requires var u := t.members[k].of;
             Restored(u, Samples(u, true), Serialized(u, Samples(u, false)), kind) != Some(Samples(u, false))
    ensures Restored(t, Samples(t, true), Serialized(t, Samples(t, false)), kind) != Some(Samples(t, false))
  {
    var u := t.members[k].of;
    StructGetsVisit(t, Samples(t, false), Samples(t, true), k, kind);
    assert FieldsOf(t, Samples(t, true), k) == Samples(u, true);
    assert FieldsOf(t, Samples(t, false), k) == Samples(u, false);
  }

  /** On a type that is not separated there are values, without any NUL, and a target that
      the round trip fails for. */
  lemma {:induction false} NotSeparatedFails(t: Type, kind: CharKind)
    requires t.Struct? && Inhabited(t) && !Separated(t, kind)
    ensures Restored(t, Samples(t, true), Serialized(t, Samples(t, false)), kind) != Some(Samples(t, false))
  {
    if i, j :|
        0 <= i < j < |t.members| &&
        (Hash(t, i, kind) == Hash(t, j, kind) || (t.members[i].of.Struct? && t.members[j].of.Struct?)) {
      ClashFails(t, i, j, kind);
    } else {
      var k :| 0 <= k < |t.members| && !Separated(t.members[k].of, kind);
      NotSeparatedFails(t.members[k].of, kind);
      NestedFails(t, k, kind);
    }
  }

  // ---------------------------------------------------------------- the exact condition

  /** Whatever the values and whatever the target held, the round trip restores the values. */
  ghost predicate RestoresAll(t: Type, kind: CharKind)
    requires t.Struct?
  {
    forall values, target :: HasTypes(values, t) && HasTypes(target, t) ==>
      Restored(t, target, Serialized(t, values), kind) == Some(CutValues(values))
  }

  /** A type is restored, for all values and targets, exactly if at every level its member
      hashes differ and at most one member is a struct. */
  lemma RestoresExactly(t: Type, kind: CharKind)
    requires t.Struct? && Inhabited(t)
    ensures RestoresAll(t, kind) <==> Separated(t, kind)
  {
    if Separated(t, kind) {
      forall values, target | HasTypes(values, t) && HasTypes(target, t)
        ensures Restored(t, target, Serialized(t, values), kind) == Some(CutValues(values))
      {
        RoundTrip(t, values, target, kind);
      }
    } else {
      NotSeparatedFails(t, kind);
      SamplesUncut(t, false);
    }
  }

  /** On such a type the very values come back exactly if none of their strings has a NUL. */
  lemma RoundTripExactly(t: Type, values: seq<Value>, target: seq<Value>, kind: CharKind)
    requires t.Struct? && Separated(t, kind) && HasTypes(values, t) && HasTypes(target, t)
    ensures Restored(t, target, Serialized(t, values), kind) == Some(values) <==>
            forall i :: 0 <= i < |values| ==> NulFree(values[i])
  {
    RoundTrip(t, values, target, kind);
    forall i | 0 <= i < |values|
      ensures CutValues(values)[i] == values[i] <==> NulFree(values[i])
    {
      CutKeeps(values[i]);
    }
    hide CutValue;
    hide Separated;
    hide HasType;
    hide Restored;
    var cut := CutValues(values);
    assert (forall i :: 0 <= i < |values| ==> cut[i] == values[i]) ==> cut == values;
  }

  /** Names as the key hash separates them: equally long, and different in one byte. */
  ghost predicate OneByteDiffers(a: seq<Byte>, b: seq<Byte>) {
    && 0 !in a && 0 !in b && |a| == |b|
    && exists k :: 0 <= k < |a| && a[k] != b[k] && forall j :: 0 <= j < |a| && j != k ==> a[j] == b[j]
  }

  /** A family of types that is restored for sure: scalars whose names differ pairwise in
      exactly one byte, on either sign of `char`. */
  lemma NumberedFieldsRestored(t: Type, kind: CharKind)
    requires t.Struct? && Inhabited(t)
    requires forall i :: 0 <= i < |t.members| ==> !t.members[i].of.Struct?
    requires forall i, j :: 0 <= i < j < |t.members| ==> OneByteDiffers(t.members[i].name, t.members[j].name)
    ensures RestoresAll(t, kind)
  {
    forall i, j | 0 <= i < j < |t.members|
      ensures Hash(t, i, kind) != Hash(t, j, kind)
    {
      var a, b := t.members[i].name, t.members[j].name;
      assert OneByteDiffers(a, b);
      var k :| 0 <= k < |a| && a[k] != b[k] && forall j :: 0 <= j < |a| && j != k ==> a[j] == b[j];
      OneByteApart(a, b, k, kind);
    }
    hide HashOf;
    RestoresExactly(t, kind);
  }
}

/** Documents read by another version of their type, whose numbers have other types: what a
    conversion means, where an element goes, what is read, and what survives the way back. */
module ReflectionRetyped {
  import opened Wrappers
  import opened KeyHash
  import opened Reflection

  // ---------------------------------------------------------------- conversions

  /** The number that a value stands for. */
  function Amount(n: Number): real {
    match n
    case DoubleOf(r) => r
    case BoolOf(b) => if b then 1.0 else 0.0
    case Int32Of(i) => i as real
    case Int64Of(i) => i as real
  }

  /** `i` is `r` without its fraction: at a distance of less than one, on the side of zero. */
  predicate WithoutFraction(i: int, r: real) {
    if r >= 0.0 then 0 <= i && i as real <= r < i as real + 1.0 else i <= 0 && i as real - 1.0 < r <= i as real
  }

  /** What a conversion means, to a floating-point number and to a truth value. */
  lemma ConvertMeans(n: Number, to: NumberType)
    ensures TypeOf(Convert(n, to)) == to
    ensures to == Double ==> Convert(n, to).r == Amount(n)
    ensures to == Bool ==> (Convert(n, to).b <==> Amount(n) != 0.0)
  {
  }

  /** To an integer, the number without its fraction, where that is in range. What is out of
      range stays the same modulo the size of the target type, if it was an integer. */
  lemma ConvertToInteger(n: Number)
    ensures -2147483649.0 < Amount(n) < 2147483648.0 ==> WithoutFraction(Convert(n, Int32Type).n, Amount(n))
    ensures -9223372036854775809.0 < Amount(n) < 9223372036854775808.0 ==>
              WithoutFraction(Convert(n, Int64Type).m, Amount(n))
    ensures n.Int64Of? ==> (n.m - Convert(n, Int32Type).n) % 4294967296 == 0
  {
    Truncated(n);
    hide Truncate;
    WrapIsIdentity(AsInt(n));
    hide Wrap32;
    hide Wrap64;
    hide AsInt;
  }

  lemma Truncated(n: Number)
    ensures WithoutFraction(AsInt(n), Amount(n))
    ensures n.Int64Of? ==> AsInt(n) == n.m
    ensures n.Int32Of? ==> AsInt(n) == n.n
    ensures -2147483649.0 < Amount(n) < 2147483648.0 ==> -0x8000_0000 <= AsInt(n) < 0x8000_0000
    ensures -9223372036854775809.0 < Amount(n) < 9223372036854775808.0 ==>
              -0x8000_0000_0000_0000 <= AsInt(n) < 0x8000_0000_0000_0000
  {
  }

  lemma WrapIsIdentity(n: int)
    ensures -0x8000_0000 <= n < 0x8000_0000 ==> Wrap32(n) == n
    ensures -0x8000_0000_0000_0000 <= n < 0x8000_0000_0000_0000 ==> Wrap64(n) == n
    ensures (n - Wrap32(n)) % 0x1_0000_0000 == 0
  {
  }

  /** A number that another type can hold. */
  predicate Survives(n: Number, to: NumberType) {
    match n
    case DoubleOf(_) => to == Double
    case BoolOf(_) => true
    case Int32Of(_) => to != Bool
    case Int64Of(i) =>
      match to
      case Double => -0x20_0000_0000_0000 <= i <= 0x20_0000_0000_0000
      case Bool => false
      case Int32Type => -0x8000_0000 <= i < 0x8000_0000
      case Int64Type => true
  }

  lemma ThereAndBack(n: Number, to: NumberType)
    requires Survives(n, to)
    ensures Amount(Convert(n, to)) == Amount(n) && Convert(Convert(n, to), TypeOf(n)) == n
  {
    WrapIsIdentity(AsInt(n));
    WrapIsIdentity(AsInt(Convert(n, to)));
    hide Wrap32;
    hide Wrap64;
  }

  // ---------------------------------------------------------------- where an element goes

  /** Member `k` is the first with the hash. */
  predicate FirstAt(t: Type, k: nat, hash: Word, kind: CharKind)
    requires t.Struct?
  {
    k < |t.members| && Hash(t, k, kind) == hash && forall j :: 0 <= j < k ==> Hash(t, j, kind) != hash
  }

  predicate NoneAt(t: Type, i: nat, hash: Word, kind: CharKind)
    requires t.Struct?
  {
    forall j :: i <= j < |t.members| ==> Hash(t, j, kind) != hash
  }

  lemma {:induction false} NothingStored(t: Type, values: seq<Value>, i: nat, hash: Word, n: Number,
      text: seq<Byte>, kind: CharKind)
    requires t.Struct? && HasTypes(values, t) && i <= |t.members| && NoneAt(t, i, hash, kind)
    ensures Store(t, values, i, hash, n, kind) == Some(values) == StoreText(t, values, i, hash, text, kind)
    decreases |t.members| - i
  {
    if i < |t.members| {
      NothingStored(t, values, i + 1, hash, n, text, kind);
    }
  }

  lemma {:induction false} WrongKind(t: Type, values: seq<Value>, i: nat, k: nat, hash: Word, n: Number,
      text: seq<Byte>, kind: CharKind)
    requires t.Struct? && HasTypes(values, t) && i <= k && FirstAt(t, k, hash, kind)
    ensures !t.members[k].of.NumberField? ==> Store(t, values, i, hash, n, kind) == None
    ensures !t.members[k].of.TextField? ==> StoreText(t, values, i, hash, text, kind) == None
    decreases k - i
  {
    if i < k {
      WrongKind(t, values, i + 1, k, hash, n, text, kind);
    }
  }

  /** A number goes, converted, to the first member with the hash of its key, if that is a
      number; an assertion fails if it is not; and without such a member nothing changes. */
  lemma NumberGoesTo(t: Type, values: seq<Value>, hash: Word, n: Number, kind: CharKind)
    requires t.Struct? && HasTypes(values, t)
    ensures var r := Store(t, values, 0, hash, n, kind);
            && (NoneAt(t, 0, hash, kind) ==> r == Some(values))
            && forall k: nat :: FirstAt(t, k, hash, kind) ==>
                 r == if t.members[k].of.NumberField? then
                   Some(values[k := NumberValue(Convert(n, t.members[k].of.number))]) else None
  {
    if NoneAt(t, 0, hash, kind) {
      NothingStored(t, values, 0, hash, n, [], kind);
    }
    forall k: nat | FirstAt(t, k, hash, kind)
      ensures Store(t, values, 0, hash, n, kind) ==
              if t.members[k].of.NumberField? then
                Some(values[k := NumberValue(Convert(n, t.members[k].of.number))]) else None
    {
      if t.members[k].of.NumberField? {
        StoreFinds(t, values, 0, k, n, kind);
      } else {
        WrongKind(t, values, 0, k, hash, n, [], kind);
      }
    }
  }

  lemma TextGoesTo(t: Type, values: seq<Value>, hash: Word, text: seq<Byte>, kind: CharKind)
    requires t.Struct? && HasTypes(values, t)
    ensures var r := StoreText(t, values, 0, hash, text, kind);
            && (NoneAt(t, 0, hash, kind) ==> r == Some(values))
            && forall k: nat :: FirstAt(t, k, hash, kind) ==>
                 r == if t.members[k].of.TextField? then Some(values[k := TextValue(text)]) else None
  {
    if NoneAt(t, 0, hash, kind) {
      NothingStored(t, values, 0, hash, BoolOf(false), text, kind);
    }
    forall k: nat | FirstAt(t, k, hash, kind)
      ensures StoreText(t, values, 0, hash, text, kind) ==
              if t.members[k].of.TextField? then Some(values[k := TextValue(text)]) else None
    {
      if t.members[k].of.TextField? {
        StoreTextFinds(t, values, 0, k, text, kind);
      } else {
        WrongKind(t, values, 0, k, hash, BoolOf(false), text, kind);
      }
    }
  }

  /** Member `k` is the first struct. */
  predicate FirstStruct(t: Type, k: nat)
    requires t.Struct?
  {
    k < |t.members| && t.members[k].of.Struct? && forall j :: 0 <= j < k ==> !t.members[j].of.Struct?
  }

  lemma {:induction false} RecurseFrom(t: Type, values: seq<Value>, i: nat, k: nat, hash: Word,
      child: Content, kind: CharKind)
    requires t.Struct? && HasTypes(values, t) && child.Document? && i <= k <= |t.members|
    requires forall j :: i <= j < k ==> !t.members[j].of.Struct?
    requires k < |t.members| ==> t.members[k].of.Struct?
    ensures (exists j :: i <= j < k && Hash(t, j, kind) == hash) ==> Recurse(t, values, i, hash, child, kind) == None
    ensures (forall j :: i <= j < k ==> Hash(t, j, kind) != hash) ==>
              Recurse(t, values, i, hash, child, kind) ==
              if k == |t.members| then Some(values)
              else match Restored(t.members[k].of, FieldsOf(t, values, k), child, kind)
                case Some(fields) => Some(values[k := Record(fields)])
                case None => None
    decreases k - i
  {
    if i < k {
      RecurseFrom(t, values, i + 1, k, hash, child, kind);
    }
  }

  /** A document goes to the first struct member whatever the hash of its key, unless a member
      before that, or any if there is no struct, has the hash: then an assertion fails. */
  lemma DocumentGoesTo(t: Type, values: seq<Value>, hash: Word, child: Content, kind: CharKind)
    requires t.Struct? && HasTypes(values, t) && child.Document?
    ensures var r := Recurse(t, values, 0, hash, child, kind);
            && ((forall j :: 0 <= j < |t.members| ==> !t.members[j].of.Struct?) ==>
                 r == if NoneAt(t, 0, hash, kind) then Some(values) else None)
            && forall k: nat :: FirstStruct(t, k) ==>
                 if exists j :: 0 <= j < k && Hash(t, j, kind) == hash then r == None
                 else
                   var inner := Restored(t.members[k].of, FieldsOf(t, values, k), child, kind);
                   r == if inner.Some? then Some(values[k := Record(inner.value)]) else None
  {
    hide Recurse;
    if forall j :: 0 <= j < |t.members| ==> !t.members[j].of.Struct? {
      RecurseFrom(t, values, 0, |t.members|, hash, child, kind);
    }
    forall k: nat | FirstStruct(t, k)
      ensures var r := Recurse(t, values, 0, hash, child, kind);
              if exists j :: 0 <= j < k && Hash(t, j, kind) == hash then r == None
              else
                var inner := Restored(t.members[k].of, FieldsOf(t, values, k), child, kind);
                r == if inner.Some? then Some(values[k := Record(inner.value)]) else None
    {
      RecurseFrom(t, values, 0, k, hash, child, kind);
    }
  }

  /** The document has one element for each member, in order: its name, as far as a C string
      goes, and its value as it is, a string likewise, a struct as a document of its own. */
  lemma DocumentMeans(t: Type, values: seq<Value>, k: nat)
    requires t.Struct? && HasTypes(values, t) && k < |t.members|
    ensures |Serialized(t, values).elements| == |t.members|
    ensures var element := Serialized(t, values).elements[k]; var name := t.members[k].name;
            && element.key <= name && 0 !in element.key && (|element.key| < |name| ==> name[|element.key|] == 0)
            && (t.members[k].of.NumberField? ==>
                 values[k].NumberValue? && element.content == NumberContent(values[k].number))
            && (t.members[k].of.TextField? ==>
                 && values[k].TextValue? && element.content.TextContent? && element.content.text <= values[k].text
                 && 0 !in element.content.text
                 && (|element.content.text| < |values[k].text| ==> values[k].text[|element.content.text|] == 0))
            && (t.members[k].of.Struct? ==>
                 element.content == Serialized(t.members[k].of, FieldsOf(t, values, k)))
  {
    SerializeAt(t, values, 0, k);
    assert HasType(values[k], t.members[k].of);
  }

  // ---------------------------------------------------------------- reading another version

  /** The same names and nesting; the types of numbers may differ. */
  predicate SameShape(t: Type, u: Type) {
    match t
    case NumberField(_) => u.NumberField?
    case TextField => u.TextField?
    case Struct(members) =>
      && u.Struct? && |members| == |u.members|
      && forall i :: 0 <= i < |members| ==>
           members[i].name == u.members[i].name && SameShape(members[i].of, u.members[i].of)
  }

  /** Every number converted to the type it has in `u`, every string cut at its first NUL. */
  function Converted(v: Value, u: Type): Value {
    match v
    case NumberValue(n) => if u.NumberField? then NumberValue(Convert(n, u.number)) else v
    case TextValue(text) => TextValue(Cut(text))
    case Record(fields) => if u.Struct? && |u.members| == |fields| then Record(ConvertedAll(fields, u)) else v
  }

  function ConvertedAll(values: seq<Value>, u: Type): seq<Value>
    requires u.Struct? && |u.members| == |values|
  {
    seq(|values|, i requires 0 <= i < |values| => Converted(values[i], u.members[i].of))
  }

  lemma {:induction false} ConvertedHasType(v: Value, t: Type, u: Type)
    requires HasType(v, t) && SameShape(t, u)
    ensures HasType(Converted(v, u), u)
    decreases v
  {
    match v
    case NumberValue(_) =>
    case TextValue(_) =>
    case Record(fields) => ConvertedHaveTypes(fields, t, u);
  }

  lemma {:induction false} ConvertedHaveTypes(values: seq<Value>, t: Type, u: Type)
    requires t.Struct? && HasTypes(values, t) && SameShape(t, u)
    ensures HasTypes(ConvertedAll(values, u), u)
    decreases values
  {
    forall i | 0 <= i < |values|
      ensures HasType(ConvertedAll(values, u)[i], u.members[i].of)
    {
      ConvertedHasType(values[i], t.members[i].of, u.members[i].of);
    }
  }

  /** A document written from one version of a type and read into a target of another: every
      field ends up converted, at every depth, and no assertion fails. */
  lemma {:induction false} ReadsOtherVersion(t: Type, u: Type, values: seq<Value>, target: seq<Value>, kind: CharKind)
    requires t.Struct? && u.Struct? && SameShape(t, u) && Separated(u, kind)
    requires HasTypes(values, t) && HasTypes(target, u)
    ensures Restored(u, target, Serialized(t, values), kind) == Some(ConvertedAll(values, u))
    decreases t, |t.members| + 1
  {
    ReadsPrefix(t, u, values, target, |t.members|, kind);
    assert ConvertedAll(values, u)[..|values|] + target[|values|..] == ConvertedAll(values, u);
  }

  lemma {:induction false} ReadsPrefix(t: Type, u: Type, values: seq<Value>, target: seq<Value>,
      n: nat, kind: CharKind)
    requires t.Struct? && u.Struct? && SameShape(t, u) && Separated(u, kind)
    requires HasTypes(values, t) && HasTypes(target, u) && n <= |t.members|
    ensures Visit(u, target, Serialized(t, values), n, kind) == Some(ConvertedAll(values, u)[..n] + target[n..])
    decreases t, n
  {
    hide Visit;
    hide Take;
    hide HasType;
    hide Separated;
    hide Converted;
    hide HashOf;
    hide ContentOf;
    if n == 0 {
      VisitNone(u, target, Serialized(t, values), kind);
      assert ConvertedAll(values, u)[..0] + target[0..] == target;
    } else {
      var k := n - 1;
      ReadsPrefix(t, u, values, target, k, kind);
      ConvertedHaveTypes(values, t, u);
      var before := ConvertedAll(values, u)[..k] + target[k..];
      if t.members[k].of.Struct? {
        SeparatedBelow(u, k, kind);
        ReadsOtherVersion(t.members[k].of, u.members[k].of, FieldsOf(t, values, k), FieldsOf(u, target, k), kind);
      }
      ReadsOne(t, u, values, target, before, k, kind);
      Spliced(ConvertedAll(values, u), target, k);
    }
  }

  /** The struct in member `k` is read as it should be. */
  ghost predicate ReadsInner(t: Type, u: Type, values: seq<Value>, target: seq<Value>, k: nat, kind: CharKind)
    requires t.Struct? && u.Struct? && HasTypes(values, t) && HasTypes(target, u)
    requires k < |t.members| == |u.members| && t.members[k].of.Struct?
  {
    && u.members[k].of.Struct? && |u.members[k].of.members| == |t.members[k].of.members|
    && Restored(u.members[k].of, FieldsOf(u, target, k),
           Serialized(t.members[k].of, FieldsOf(t, values, k)), kind)
       == Some(ConvertedAll(FieldsOf(t, values, k), u.members[k].of))
  }

  lemma ReadsOne(t: Type, u: Type, values: seq<Value>, target: seq<Value>, before: seq<Value>, k: nat, kind: CharKind)
    requires t.Struct? && u.Struct? && SameShape(t, u) && Separated(u, kind) && k < |t.members|
    requires HasTypes(values, t) && HasTypes(target, u) && HasTypes(before, u) && before[k] == target[k]
    requires Visit(u, target, Serialized(t, values), k, kind) == Some(before)
    requires t.members[k].of.Struct? ==> ReadsInner(t, u, values, target, k, kind)
    ensures Visit(u, target, Serialized(t, values), k + 1, kind) ==
            Some(before[k := Converted(values[k], u.members[k].of)])
  {
    hide Visit;
    hide Take;
    hide HasType;
    hide Separated;
    hide Converted;
    hide HashOf;
    hide ContentOf;
    VisitOne(u, target, Serialized(t, values), k + 1, kind);
    SerializeAt(t, values, 0, k);
    HashStopsAtNul(t.members[k].name, kind);
    hide Serialize;
    TakesOne(t, u, values, target, before, k, kind);
  }

  lemma TakesOne(t: Type, u: Type, values: seq<Value>, target: seq<Value>, before: seq<Value>, k: nat, kind: CharKind)
    requires t.Struct? && u.Struct? && SameShape(t, u) && Separated(u, kind) && k < |t.members|
    requires HasTypes(values, t) && HasTypes(target, u) && HasTypes(before, u) && before[k] == target[k]
    requires t.members[k].of.Struct? ==> ReadsInner(t, u, values, target, k, kind)
    ensures Take(u, before, Hash(u, k, kind), ContentOf(t, values, k), kind) ==
            Some(before[k := Converted(values[k], u.members[k].of)])
  {
    assert HasType(values[k], t.members[k].of) && SameShape(t.members[k].of, u.members[k].of);
    assert FirstWithHash(u, 0, k, kind);
    match t.members[k].of
    case NumberField(_) => StoreFinds(u, before, 0, k, values[k].number, kind);
    case TextField => StoreTextFinds(u, before, 0, k, Cut(values[k].text), kind);
    case Struct(_) => RecurseFinds(u, before, 0, k, ContentOf(t, values, k), kind);
  }

  // ---------------------------------------------------------------- and back

  /** Every number can be held by the type it has in `u`. */
  predicate AllSurvive(v: Value, u: Type) {
    match v
    case NumberValue(n) => u.NumberField? && Survives(n, u.number)
    case TextValue(_) => true
    case Record(fields) =>
      u.Struct? && |u.members| == |fields| && forall i :: 0 <= i < |fields| ==> AllSurvive(fields[i], u.members[i].of)
  }

  lemma {:induction false} ConvertedBack(v: Value, t: Type, u: Type)
    requires HasType(v, t) && SameShape(t, u) && AllSurvive(v, u)
    ensures Converted(Converted(v, u), t) == CutValue(v)
    decreases v
  {
    match v
    case NumberValue(n) => ThereAndBack(n, u.number);
    case TextValue(text) => CutIsWhole(Cut(text));
    case Record(fields) =>
      forall i | 0 <= i < |fields|
        ensures Converted(Converted(fields[i], u.members[i].of), t.members[i].of) == CutValue(fields[i])
      {
        assert HasType(fields[i], t.members[i].of);
        ConvertedBack(fields[i], t.members[i].of, u.members[i].of);
      }
  }

  lemma {:induction false} ShapeIsSymmetric(t: Type, u: Type)
    requires SameShape(t, u)
    ensures SameShape(u, t)
  {
    if t.Struct? {
      forall i | 0 <= i < |t.members|
        ensures SameShape(u.members[i].of, t.members[i].of)
      {
        ShapeIsSymmetric(t.members[i].of, u.members[i].of);
      }
    }
  }

  lemma {:induction false} ShapeIsSeparated(t: Type, u: Type, kind: CharKind)
    requires SameShape(t, u) && Separated(u, kind)
    ensures Separated(t, kind)
  {
    if t.Struct? {
      forall i | 0 <= i < |t.members|
        ensures Separated(t.members[i].of, kind) && Hash(t, i, kind) == Hash(u, i, kind)
        ensures t.members[i].of.Struct? ==> u.members[i].of.Struct?
      {
        ShapeIsSeparated(t.members[i].of, u.members[i].of, kind);
      }
    }
  }

  /** Written from one version, read and written again by another, and read back: nothing but
      what follows a NUL is lost, if the other version can hold the numbers. */
  lemma ThroughOtherVersion(t: Type, u: Type, values: seq<Value>, target: seq<Value>, last: seq<Value>, kind: CharKind)
    requires t.Struct? && u.Struct? && SameShape(t, u) && Separated(u, kind)
    requires HasTypes(values, t) && HasTypes(target, u) && HasTypes(last, t)
    requires forall i :: 0 <= i < |values| ==> AllSurvive(values[i], u.members[i].of)
    ensures var middle := Restored(u, target, Serialized(t, values), kind);
            middle.Some? && Restored(t, last, Serialized(u, middle.value), kind) == Some(CutValues(values))
  {
    hide Restored;
    hide Separated;
    ReadsOtherVersion(t, u, values, target, kind);
    ConvertedHaveTypes(values, t, u);
    ShapeIsSymmetric(t, u);
    ShapeIsSeparated(t, u, kind);
    ReadsOtherVersion(u, t, ConvertedAll(values, u), last, kind);
    forall i | 0 <= i < |values|
      ensures ConvertedAll(ConvertedAll(values, u), t)[i] == CutValue(values[i])
    {
      ConvertedBack(values[i], t.members[i].of, u.members[i].of);
    }
    assert ConvertedAll(ConvertedAll(values, u), t) == CutValues(values);
  }
}

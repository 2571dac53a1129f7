/** The codec as the program runs it: checks that write through the references to the
    fields, and a serialiser that appends to a document in place. Each is proved against
    its function in `Reflection`. */
module ReflectionRecord {
  import opened Wrappers
  import opened KeyHash
  import opened Reflection

  /** A document under construction. */
  class Builder {
    var elements: seq<Element>

    constructor ()
      ensures elements == []
    {
      elements := [];
    }

    method Append(key: seq<Byte>, content: Content)
      modifies this
      ensures elements == old(elements) + [Element(Cut(key), content)]
    {
      elements := elements + [Element(Cut(key), content)];
    }
  }

  class BsonReflection {
    const schema: Type
    const kind: CharKind
    /** What the references refer to. */
    var refs: seq<Value>

    ghost predicate Valid()
      reads this
    {
      schema.Struct? && HasTypes(refs, schema)
    }

    constructor (schema: Type, kind: CharKind, refs: seq<Value>)
      requires schema.Struct? && HasTypes(refs, schema)
      ensures Valid() && this.schema == schema && this.kind == kind && this.refs == refs
    {
      this.schema, this.kind, this.refs := schema, kind, refs;
    }

    method KeyHash(key: seq<Byte>) returns (hash: Word)
      ensures hash == HashOf(key, kind)
    {
      hash := HashOfCString(key + [0], kind);
      Terminated(key);
    }

    /** Asks not to be called where an assertion of the program fails. Never stops the visit. */
    method CheckAndStore(i: nat, hash: Word, n: Number) returns (found: bool)
      requires Valid() && i < |schema.members| && Store(schema, refs, i, hash, n, kind).Some?
      modifies this
      ensures Valid() && found && Some(refs) == Store(schema, old(refs), i, hash, n, kind)
      decreases |schema.members| - i
    {
      var matches := HashOf(schema.members[i].name, kind) == hash;
      if schema.members[i].of.NumberField? {
        if matches {
          refs := refs[i := NumberValue(Convert(n, schema.members[i].of.number))];
          return true;
        }
      } else {
        assert !matches;
      }
      if i + 1 < |schema.members| {
        found := CheckAndStore(i + 1, hash, n);
      } else {
        found := true;
      }
    }

    method CheckAndStoreString(i: nat, hash: Word, text: seq<Byte>) returns (found: bool)
      requires Valid() && i < |schema.members| && StoreText(schema, refs, i, hash, text, kind).Some?
      modifies this
      ensures Valid() && found && Some(refs) == StoreText(schema, old(refs), i, hash, text, kind)
      decreases |schema.members| - i
    {
      var matches := HashOf(schema.members[i].name, kind) == hash;
      if schema.members[i].of.TextField? {
        if matches {
          refs := refs[i := TextValue(text)];
          return true;
        }
      } else {
        assert !matches;
      }
      if i + 1 < |schema.members| {
        found := CheckAndStoreString(i + 1, hash, text);
      } else {
        found := true;
      }
    }

    /** The nested record is visited as a record of its own and put back. */
    method CheckAndRecurse(i: nat, hash: Word, doc: Content) returns (found: bool)
      requires Valid() && Inhabited(schema) && i < |schema.members| && doc.Document?
      requires Recurse(schema, refs, i, hash, doc, kind).Some?
      modifies this
      ensures Valid() && found && Some(refs) == Recurse(schema, old(refs), i, hash, doc, kind)
      decreases doc, 1, |schema.members| - i
    {
      var matches := HashOf(schema.members[i].name, kind) == hash;
      if schema.members[i].of.Struct? {
        var nested := new BsonReflection(schema.members[i].of, kind, FieldsOf(schema, refs, i));
        nested.VisitAll(doc);
        refs := refs[i := Record(nested.refs)];
        return true;
      } else {
        assert !matches;
      }
      if i + 1 < |schema.members| {
        found := CheckAndRecurse(i + 1, hash, doc);
      } else {
        found := true;
      }
    }

    /** Visits every element in turn, until a visitor asks to stop, which none does. */
    method VisitAll(doc: Content)
      requires Valid() && Inhabited(schema) && doc.Document? && Restored(schema, refs, doc, kind).Some?
      modifies this
      ensures Valid() && Some(refs) == Restored(schema, old(refs), doc, kind)
      decreases doc, 0, 0
    {
      hide Store;
      hide StoreText;
      hide Recurse;
      hide Visit;
      hide HashOf;
      VisitNone(schema, refs, doc, kind);
      ghost var target := refs;
      var n := 0;
      var stop := false;
      while n < |doc.elements| && !stop
        invariant n <= |doc.elements| && !stop && Valid()
        invariant Visit(schema, target, doc, n, kind) == Some(refs)
      {
        var element := doc.elements[n];
        SomeBefore(schema, target, doc, n + 1, kind);
        VisitOne(schema, target, doc, n + 1, kind);
        var hash := KeyHash(element.key);
        var found: bool;
        match element.content {
          case NumberContent(number) => found := CheckAndStore(0, hash, number);
          case TextContent(text) => found := CheckAndStoreString(0, hash, text);
          case Document(_) => found := CheckAndRecurse(0, hash, element.content);
        }
        stop := !found;
        n := n + 1;
      }
    }

    method SerializeMembers(i: nat, doc: Builder)
      requires Valid() && Inhabited(schema) && i < |schema.members|
      modifies doc
      ensures doc.elements == old(doc.elements) + Serialize(schema, refs, i)
      decreases schema, |schema.members| - i
    {
      hide Serialize;
      ghost var before := doc.elements;
      var name := schema.members[i].name;
      assert HasType(refs[i], schema.members[i].of);
      match schema.members[i].of {
        case NumberField(_) => doc.Append(name, NumberContent(refs[i].number));
        case TextField => doc.Append(name, TextContent(Cut(refs[i].text)));
        case Struct(_) =>
          var child := new Builder();
          var nested := new BsonReflection(schema.members[i].of, kind, FieldsOf(schema, refs, i));
          nested.SerializeMembers(0, child);
          assert child.elements == Serialize(nested.schema, nested.refs, 0);
          doc.Append(name, Document(child.elements));
      }
      ghost var element := Element(Cut(name), ContentOf(schema, refs, i));
      assert doc.elements == before + [element];
      SerializeUnfold(schema, refs, i);
      if i + 1 < |schema.members| {
        SerializeMembers(i + 1, doc);
        assert doc.elements == before + [element] + Serialize(schema, refs, i + 1);
      } else {
        assert Serialize(schema, refs, i + 1) == [];
      }
      assert before + [element] + Serialize(schema, refs, i + 1) ==
          before + ([element] + Serialize(schema, refs, i + 1));
    }

    method SerializeAll() returns (doc: Content)
      requires Valid() && Inhabited(schema)
      ensures doc == Serialized(schema, refs)
    {
      var builder := new Builder();
      SerializeMembers(0, builder);
      doc := Document(builder.elements);
    }
  }

  lemma SerializeUnfold(t: Type, values: seq<Value>, i: nat)
    requires t.Struct? && HasTypes(values, t) && i < |t.members|
    ensures Serialize(t, values, i) ==
            [Element(Cut(t.members[i].name), ContentOf(t, values, i))] + Serialize(t, values, i + 1)
    ensures Serialize(t, values, |t.members|) == []
  {
  }

  lemma Terminated(key: seq<Byte>)
    ensures HashOf(key + [0], UnsignedChar) == HashOf(key, UnsignedChar)
    ensures HashOf(key + [0], SignedChar) == HashOf(key, SignedChar)
  {
    CutTerminated(key);
  }

  lemma {:induction false} CutTerminated(key: seq<Byte>)
    ensures Cut(key + [0]) == Cut(key)
  {
    if key != [] {
      CutTerminated(key[1..]);
      assert (key + [0])[1..] == key[1..] + [0];
    }
  }

  /** If the whole visit succeeds, so does every part of it. */
  lemma SomeBefore(t: Type, target: seq<Value>, doc: Content, n: nat, kind: CharKind)
    requires t.Struct? && HasTypes(target, t) && doc.Document? && n <= |doc.elements|
    requires Restored(t, target, doc, kind).Some?
    ensures Visit(t, target, doc, n, kind).Some?
    decreases |doc.elements| - n
  {
    if n < |doc.elements| {
      SomeBefore(t, target, doc, n + 1, kind);
      VisitOne(t, target, doc, n + 1, kind);
    }
  }

  /** Serialising one record and visiting the document into another of the same schema makes
      the other equal to the first, at every depth, whatever it held. */
  method Copy(from: BsonReflection, to: BsonReflection)
    requires from.Valid() && to.Valid() && to.schema == from.schema && to.kind == from.kind
    requires Inhabited(from.schema) && Separated(from.schema, from.kind)
    modifies to
    ensures to.Valid() && to.refs == CutValues(old(from.refs))
  {
    var doc := from.SerializeAll();
    RoundTrip(from.schema, from.refs, to.refs, from.kind);
    to.VisitAll(doc);
  }
}

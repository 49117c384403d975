// src/serialization.rs in its own form: two global tables that register_remote_message changes in
// place.
module MessageRegistry {
  import opened Vocabulary
  import opened Codec

  class Registry {
    const format: Format
    // TYPEID_TO_NAME and REGISTRY
    var names: Option<map<TypeId, TypeName>>
    var entries: Option<map<TypeName, TypeId>>
    ghost var history: seq<Registration>

    ghost predicate Valid()
      reads this
    {
      Tables(names, entries) == After(history)
    }

    constructor (format: Format)
      ensures Valid() && history == [] && this.format == format
    {
      this.format := format;
      names, entries, history := None, None, [];
    }

    method Register(typeId: TypeId, name: TypeName)
      requires Valid()
      modifies this
      ensures Valid() && history == old(history) + [Registration(typeId, name)]
    {
      if names.None? {
        names := Some(map[]);
      }
      names := Some(names.value[typeId := name]);
      if entries.None? {
        entries := Some(map[]);
      }
      entries := Some(entries.value[name := typeId]);
      history := history + [Registration(typeId, name)];
      assert history[..|history| - 1] == old(history);
    }

    // The name of the last registration of the message's type.
    method GetTypeName(m: Message) returns (name: Option<TypeName>)
      requires Valid()
      ensures name.Some? <==> exists k | 0 <= k < |history| :: history[k].typeId == TypeOf(m)
      ensures forall k | 0 <= k < |history| && LastOfType(history, k) && history[k].typeId == TypeOf(m) ::
                name == Some(history[k].name)
    {
      name := None;
      if names.Some? && TypeOf(m) in names.value {
        name := Some(names.value[TypeOf(m)]);
      }
      NameIff(history, m);
    }

    // Succeeds if the message has the type that was registered last under that name.
    method Serialize(m: Message, name: TypeName) returns (json: Option<Json>)
      requires Valid()
      ensures json.Some? <==> exists k: nat :: LastOfName(history, k) && history[k] == Registration(TypeOf(m), name)
      ensures json.Some? ==> json.value == format.encode(m)
    {
      json := None;
      if entries.Some? && name in entries.value && entries.value[name] == TypeOf(m) {
        json := Some(format.encode(m));
      }
      EntryIff(history, Registration(TypeOf(m), name));
    }

    // Decodes as the type that was registered last under that name.
    method TryDeserialize(name: TypeName, json: Json) returns (parsed: Parsed)
      requires Valid()
      ensures parsed == Codec.TryDeserialize(After(history), format, name, json)
      ensures forall k | 0 <= k < |history| && LastOfName(history, k) && history[k].name == name ::
                match format.decode(history[k].typeId, json)
                case Some(m) => parsed == Ok(m)
                case None => parsed == Panic
      ensures parsed.Err? <==> forall k | 0 <= k < |history| :: history[k].name != name
      ensures parsed.Err? ==>
                parsed.reason == if history == [] then "No messages registered" else "Unknown message type: " + name
    {
      if entries.None? {
        parsed := Err("No messages registered");
      } else if name !in entries.value {
        parsed := Err("Unknown message type: " + name);
      } else {
        var decoded := format.decode(entries.value[name], json);
        parsed := if decoded.Some? then Ok(decoded.value) else Panic;
      }
      KnownNames(history, name);
    }
  }

  lemma {:induction false} KnownNames(h: seq<Registration>, name: TypeName)
    ensures name in OrNew(After(h).entries) <==> exists k | 0 <= k < |h| :: h[k].name == name
    ensures forall k | 0 <= k < |h| && LastOfName(h, k) && h[k].name == name ::
              name in OrNew(After(h).entries) && OrNew(After(h).entries)[name] == h[k].typeId
  {
    hide After;
    if name in OrNew(After(h).entries) {
      var _ := LastOfKnownName(h, name);
    }
    forall k | 0 <= k < |h| && LastOfName(h, k) && h[k].name == name
      ensures name in OrNew(After(h).entries) && OrNew(After(h).entries)[name] == h[k].typeId
    {
      EntryOfLast(h, k);
    }
    if k :| 0 <= k < |h| && h[k].name == name {
      var l := LastUnder(h, k);
      EntryOfLast(h, l);
    }
  }

  lemma LastUnder(h: seq<Registration>, i: nat) returns (k: nat)
    requires i < |h|
    ensures LastOfName(h, k) && h[k].name == h[i].name
    decreases |h| - i
  {
    if j :| i < j < |h| && h[j].name == h[i].name {
      k := LastUnder(h, j);
    } else {
      k := i;
    }
  }

  lemma EntryIff(h: seq<Registration>, r: Registration)
    ensures (r.name in OrNew(After(h).entries) && OrNew(After(h).entries)[r.name] == r.typeId)
            <==> exists k: nat :: LastOfName(h, k) && h[k] == r
  {
    hide After;
    if r.name in OrNew(After(h).entries) {
      var k := LastOfKnownName(h, r.name);
      EntryOfLast(h, k);
    }
    forall k: nat | LastOfName(h, k) && h[k] == r
      ensures r.name in OrNew(After(h).entries) && OrNew(After(h).entries)[r.name] == r.typeId
    {
      EntryOfLast(h, k);
    }
  }

  lemma NameIff(h: seq<Registration>, m: Message)
    ensures TypeOf(m) in OrNew(After(h).names) <==> exists k | 0 <= k < |h| :: h[k].typeId == TypeOf(m)
    ensures forall k | 0 <= k < |h| && LastOfType(h, k) && h[k].typeId == TypeOf(m) ::
              Codec.GetTypeName(After(h), m) == Some(h[k].name)
  {
    hide After;
    if TypeOf(m) in OrNew(After(h).names) {
      var _ := LastOfKnownType(h, TypeOf(m));
    }
    forall k | 0 <= k < |h| && LastOfType(h, k) && h[k].typeId == TypeOf(m)
      ensures Codec.GetTypeName(After(h), m) == Some(h[k].name)
    {
      NameOfLast(h, k);
    }
    if k :| 0 <= k < |h| && h[k].typeId == TypeOf(m) {
      var l := LastFrom(h, k);
      NameOfLast(h, l);
    }
  }
}

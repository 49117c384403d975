// The two global tables of src/serialization.rs over any history of registrations.
module Codec {
  import opened Vocabulary

  type Json = string

  // Every message type has its own id; App types come after those of the runtime.
  function TypeOf(m: Message): TypeId {
    match m
    case Start => 0
    case Shutdown => 1
    case Timeout(_) => 2
    case Reject(_, _, _) => 3
    case App(k, _) => k + 4
  }

  const REJECT: TypeId := 3

  // Two messages are of one Rust type.
  predicate SameType(m: Message, n: Message) {
    match (m, n)
    case (Start, Start) => true
    case (Shutdown, Shutdown) => true
    case (Timeout(_), Timeout(_)) => true
    case (Reject(_, _, _), Reject(_, _, _)) => true
    case (App(k, _), App(l, _)) => k == l
    case _ => false
  }

  lemma OwnIds(m: Message, n: Message)
    ensures TypeOf(m) == TypeOf(n) <==> SameType(m, n)
  {
  }

  // What serde does for each type; None where from_value fails and the caller panics.
  datatype Format = Format(encode: Message -> Json, decode: (TypeId, Json) -> Option<Message>)

  // Decoding inverts encoding, and yields a message of the type asked for.
  ghost predicate Faithful(f: Format) {
    && (forall m :: f.decode(TypeOf(m), f.encode(m)) == Some(m))
    && (forall t, j :: f.decode(t, j).Some? ==> TypeOf(f.decode(t, j).value) == t)
  }

  // One call of register_remote_message.
  datatype Registration = Registration(typeId: TypeId, name: TypeName)

  // TYPEID_TO_NAME and REGISTRY.  A registry entry consists of closures made for one type, so it is
  // known by that type.
  datatype Tables = Tables(names: Option<map<TypeId, TypeName>>, entries: Option<map<TypeName, TypeId>>)

  const EMPTY: Tables := Tables(None, None)

  function OrNew<K, V>(m: Option<map<K, V>>): map<K, V> {
    if m.Some? then m.value else map[]
  }

  function Register(t: Tables, r: Registration): Tables {
    Tables(Some(OrNew(t.names)[r.typeId := r.name]), Some(OrNew(t.entries)[r.name := r.typeId]))
  }

  function After(history: seq<Registration>): Tables {
    if history == [] then EMPTY
    else Register(After(history[..|history| - 1]), history[|history| - 1])
  }

  // ----- lookups

  function GetTypeName(t: Tables, m: Message): Option<TypeName> {
    if t.names.Some? && TypeOf(m) in t.names.value then Some(t.names.value[TypeOf(m)]) else None
  }

  // None where serialize_message panics: nothing registered, no entry, or the entry of another type.
  function Serialize(t: Tables, f: Format, m: Message, name: TypeName): Option<Json> {
    if t.entries.Some? && name in t.entries.value && t.entries.value[name] == TypeOf(m) then Some(f.encode(m))
    else None
  }

  datatype Parsed = Ok(msg: Message) | Err(reason: string) | Panic

  function TryDeserialize(t: Tables, f: Format, name: TypeName, json: Json): Parsed {
    if t.entries.None? then Err("No messages registered")
    else if name !in t.entries.value then Err("Unknown message type: " + name)
    else
      match f.decode(t.entries.value[name], json)
      case Some(m) => Ok(m)
      case None => Panic
  }

  // What send_to makes of a message: its name and its JSON, or None for a panic.
  function Encode(t: Tables, f: Format, m: Message): Option<(TypeName, Json)> {
    match GetTypeName(t, m)
    case None => None
    case Some(name) =>
      match Serialize(t, f, m, name)
      case None => None
      case Some(json) => Some((name, json))
  }

  // What one registration more, of the type of `n`, does to a message: one of that type goes by the new
  // name from then on, one whose name is taken away cannot be sent, and for all others nothing changes.
  lemma OneMoreRegistration(h: seq<Registration>, f: Format, m: Message, n: Message, name: TypeName)
    ensures var before, now := After(h), After(h + [Registration(TypeOf(n), name)]);
            && GetTypeName(now, m) == (if SameType(m, n) then Some(name) else GetTypeName(before, m))
            && Encode(now, f, m) == if SameType(m, n) then Some((name, f.encode(m)))
                                    else if GetTypeName(before, m) == Some(name) then None
                                    else Encode(before, f, m)
  {
    OwnIds(m, n);
    var r := Registration(TypeOf(n), name);
    assert (h + [r])[..|h|] == h;
    hide TypeOf, SameType;
  }

  // ----- histories

  // Registration `k` is the last one of its type.
  predicate LastOfType(h: seq<Registration>, k: nat) {
    k < |h| && forall j | k < j < |h| :: h[j].typeId != h[k].typeId
  }

  // Registration `k` is the last one under its name.
  predicate LastOfName(h: seq<Registration>, k: nat) {
    k < |h| && forall j | k < j < |h| :: h[j].name != h[k].name
  }

  // The tables remember the last registration of each type and of each name, and nothing else.
  lemma {:induction false} NameOfLast(h: seq<Registration>, k: nat)
    requires LastOfType(h, k)
    ensures var names := OrNew(After(h).names); h[k].typeId in names && names[h[k].typeId] == h[k].name
  {
    var n := |h| - 1;
    if k < n {
      assert LastOfType(h[..n], k) && h[n].typeId != h[k].typeId;
      NameOfLast(h[..n], k);
    }
  }

  lemma {:induction false} EntryOfLast(h: seq<Registration>, k: nat)
    requires LastOfName(h, k)
    ensures var entries := OrNew(After(h).entries); h[k].name in entries && entries[h[k].name] == h[k].typeId
  {
    var n := |h| - 1;
    if k < n {
      assert LastOfName(h[..n], k) && h[n].name != h[k].name;
      EntryOfLast(h[..n], k);
    }
  }

  lemma {:induction false} LastOfKnownType(h: seq<Registration>, t: TypeId) returns (k: nat)
    requires t in OrNew(After(h).names)
    ensures LastOfType(h, k) && h[k].typeId == t
  {
    var n := |h| - 1;
    if h[n].typeId == t {
      k := n;
    } else {
      k := LastOfKnownType(h[..n], t);
    }
  }

  lemma {:induction false} LastOfKnownName(h: seq<Registration>, name: TypeName) returns (k: nat)
    requires name in OrNew(After(h).entries)
    ensures LastOfName(h, k) && h[k].name == name
  {
    var n := |h| - 1;
    if h[n].name == name {
      k := n;
    } else {
      k := LastOfKnownName(h[..n], name);
    }
  }

  // Every name that a type goes by has an entry.
  lemma {:induction false} NamesHaveEntries(h: seq<Registration>)
    ensures forall t | t in OrNew(After(h).names) :: OrNew(After(h).names)[t] in OrNew(After(h).entries)
  {
    if h != [] {
      NamesHaveEntries(h[..|h| - 1]);
    }
  }

  // The type of `m` has been registered, and its current name has not gone to another type since.
  predicate Owns(h: seq<Registration>, m: Message, k: nat) {
    && LastOfType(h, k) && h[k].typeId == TypeOf(m)
    && forall j | k < j < |h| :: h[j].name != h[k].name
  }

  lemma OwnerEncodes(h: seq<Registration>, f: Format, m: Message, k: nat)
    requires Owns(h, m, k)
    ensures Encode(After(h), f, m) == Some((h[k].name, f.encode(m)))
  {
    NameOfLast(h, k);
    EntryOfLast(h, k);
    hide After;
  }

  lemma EncoderOwns(h: seq<Registration>, f: Format, m: Message) returns (k: nat)
    requires Encode(After(h), f, m).Some?
    ensures Owns(h, m, k)
  {
    hide After;
    k := LastOfKnownType(h, TypeOf(m));
    NameOfLast(h, k);
    var l := LastOfKnownName(h, h[k].name);
    EntryOfLast(h, l);
    assert l <= k;
  }

  // A message can be sent if and only if its type was the last one registered under its current name.
  lemma EncodesIff(h: seq<Registration>, f: Format, m: Message)
    ensures Encode(After(h), f, m).Some? <==> exists k: nat :: Owns(h, m, k)
    ensures forall k: nat | Owns(h, m, k) :: Encode(After(h), f, m) == Some((h[k].name, f.encode(m)))
  {
    forall k: nat | Owns(h, m, k) ensures Encode(After(h), f, m) == Some((h[k].name, f.encode(m))) {
      OwnerEncodes(h, f, m, k);
    }
    if Encode(After(h), f, m).Some? {
      var k := EncoderOwns(h, f, m);
    }
  }

  // What is sent is what is received, by a process with the same registrations.
  lemma EncodeDecode(h: seq<Registration>, f: Format, m: Message)
    requires Faithful(f)
    ensures match Encode(After(h), f, m)
            case None => true
            case Some((name, json)) => TryDeserialize(After(h), f, name, json) == Ok(m)
  {
  }

  // No name is ever given to two types.
  predicate Unshared(h: seq<Registration>) {
    forall j, k | 0 <= j < |h| && 0 <= k < |h| && h[j].name == h[k].name :: h[j].typeId == h[k].typeId
  }

  // Then every registered type can be sent.
  lemma UnsharedNamesEncode(h: seq<Registration>, f: Format, m: Message, i: nat)
    requires Unshared(h)
    requires i < |h| && h[i].typeId == TypeOf(m)
    ensures Encode(After(h), f, m).Some?
  {
    hide After, Encode;
    var k := LastFrom(h, i);
    assert Owns(h, m, k);
    EncodesIff(h, f, m);
  }

  lemma LastFrom(h: seq<Registration>, i: nat) returns (k: nat)
    requires i < |h|
    ensures LastOfType(h, k) && h[k].typeId == h[i].typeId
    decreases |h| - i
  {
    if j :| i < j < |h| && h[j].typeId == h[i].typeId {
      k := LastFrom(h, j);
    } else {
      k := i;
    }
  }

  // A type whose name has gone to another type since cannot be sent, whatever else was registered, until
  // it is registered again, under any name.
  lemma SharedNameBreaks(h: seq<Registration>, f: Format, m: Message, k: nat, j: nat, name: TypeName)
    requires LastOfType(h, k) && h[k].typeId == TypeOf(m) && k < j < |h| && h[j].name == h[k].name
    ensures Encode(After(h), f, m) == None
    ensures Encode(After(h + [Registration(TypeOf(m), name)]), f, m) == Some((name, f.encode(m)))
  {
    hide After, Encode;
    forall i: nat ensures !Owns(h, m, i) {
      if i < k && i < |h| && h[i].typeId == TypeOf(m) {
        assert !LastOfType(h, i);
      }
    }
    EncodesIff(h, f, m);
    var h' := h + [Registration(TypeOf(m), name)];
    assert Owns(h', m, |h|);
    EncodesIff(h', f, m);
  }
}

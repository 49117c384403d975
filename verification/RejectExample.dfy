// examples/reject_example: a sender that knows a message type and a receiver that does not.
module RejectExample {
  import opened Vocabulary
  import opened Codec
  import opened Routing
  import opened RoutingRuns

  const SENDER: Endpoint := "tcp://localhost:5002"
  const RECEIVER: Endpoint := "tcp://localhost:5001"

  function Ping(count: int): Message { App(1, count) }

  function Pong(count: int): Message { App(2, count) }

  function UnknownMessage(data: int): Message { App(3, data) }

  function Registered(m: Message, name: TypeName): Registration {
    Registration(TypeOf(m), name)
  }

  const COMMON: seq<Registration> :=
    [Registered(Ping(0), "Ping"), Registered(Pong(0), "Pong"), Registered(Reject("", "", ""), "Reject")]

  const HISTORIES: map<Endpoint, seq<Registration>> :=
    map[SENDER := [Registered(UnknownMessage(0), TYPE)] + COMMON, RECEIVER := COMMON]

  const SENDER_REF: Ref := Local(0, "sender")
  const RECEIVER_REF: Ref := Local(0, "receiver")

  function Example(f: Format): World {
    World(map[SENDER := Process(SENDER, map["sender" := SENDER_REF], After(HISTORIES[SENDER])),
              RECEIVER := Process(RECEIVER, map["receiver" := RECEIVER_REF], After(HISTORIES[RECEIVER]))], f)
  }

  lemma ExampleIsHealthy(f: Format)
    requires Faithful(f)
    ensures Healthy(Example(f)) && Agree(Example(f))
  {
    hide After, Faithful, Agree, Encode;
    assert HISTORIES[SENDER][3].typeId == REJECT && HISTORIES[RECEIVER][2].typeId == REJECT;
    UnsharedIsHealthy(Example(f), HISTORIES);
  }

  lemma ExampleIsAcyclic(f: Format)
    ensures Acyclic(Example(f))
  {
    hide After, Acyclic;
    OrderedIsAcyclic(Example(f), (e, n) => 0);
  }

  // So whatever the two processes send each other is dealt with in the end.
  lemma ExampleEnds(f: Format)
    requires Faithful(f)
    ensures AlwaysEnds(Example(f))
  {
    ExampleIsHealthy(f);
    ExampleIsAcyclic(f);
    hide Healthy, Acyclic, AlwaysEnds, After, Faithful;
    EndsIff(Example(f));
  }

  const TYPE: TypeName := "UnknownMessage"

  // What the sender's actor is told.
  const REFUSAL: Message := Reject(TYPE, "Unknown message type: " + TYPE, "receiver")

  function UnknownWire(f: Format, data: int): Wire {
    Wire(Some("sender"), Some(SENDER), Some("receiver"), Some(TYPE), f.encode(UnknownMessage(data)))
  }

  // The first rejection scenario of the guide: the message is refused because the receiver's process
  // does not know its type, and the sender's actor gets the Reject that says so.
  lemma UnknownTypeIsRejected(f: Format, data: int)
    requires Faithful(f)
    ensures var world := Example(f);
            var sent := SendTo(world.processes[SENDER], f, "receiver", UnknownMessage(data), Some(SENDER_REF));
            && sent.Some?
            && var v := Arrive(world, RECEIVER, sent.value);
               && v.RejectTo? && v.endpoint == SENDER
               && Arrive(world, SENDER, v.wire) == Deliver(SENDER_REF, REFUSAL, None)
  {
    hide After, Encode, Acyclic, Healthy, Faithful, Handle, Agree;
    SenderSends(f, data);
    ReceiverRefuses(f, data);
    ExampleIsHealthy(f);
    Known(SENDER, f, REFUSAL, 3);
    Known(RECEIVER, f, REFUSAL, 2);
    RefusalIsSent(Example(f).processes[RECEIVER], f, UnknownWire(f, data));
    RejectComesBack(Example(f), RECEIVER, UnknownWire(f, data), 0);
  }

  // The second scenario of the guide: nobody at the receiver has the name that the message is for.
  lemma UnknownActorIsRejected(f: Format, name: Name, count: int)
    requires Faithful(f) && name != "receiver"
    ensures var world := Example(f);
            var sent := SendTo(world.processes[SENDER], f, name, Ping(count), Some(SENDER_REF));
            && sent.Some?
            && var v := Arrive(world, RECEIVER, sent.value);
               && v.RejectTo? && v.endpoint == SENDER
               && Arrive(world, SENDER, v.wire)
                  == Deliver(SENDER_REF, Reject("Ping", "Actor '" + name + "' not found", name), None)
  {
    hide After, Encode, Acyclic, Healthy, Faithful, Handle, Agree;
    var refusal := Reject("Ping", "Actor '" + name + "' not found", name);
    var w := Wire(Some("sender"), Some(SENDER), Some(name), Some("Ping"), f.encode(Ping(count)));
    Known(SENDER, f, Ping(count), 1);
    ExampleIsHealthy(f);
    Known(SENDER, f, refusal, 3);
    Known(RECEIVER, f, refusal, 2);
    RefusalIsSent(Example(f).processes[RECEIVER], f, w);
    RejectComesBack(Example(f), RECEIVER, w, 0);
  }

  lemma SenderSends(f: Format, data: int)
    ensures SendTo(Example(f).processes[SENDER], f, "receiver", UnknownMessage(data), Some(SENDER_REF))
            == Some(UnknownWire(f, data))
  {
    hide After, Encode;
    Known(SENDER, f, UnknownMessage(data), 0);
  }

  lemma ReceiverRefuses(f: Format, data: int)
    ensures var p, w := Example(f).processes[RECEIVER], UnknownWire(f, data);
            Refused(p, w) && HasPair(w) && Refusal(p, w) == REFUSAL
  {
    hide After;
    NotKnown(TYPE);
  }

  // A registered message can be sent under the name it was registered with.
  lemma Known(e: Endpoint, f: Format, m: Message, k: nat)
    requires e in HISTORIES && k < |HISTORIES[e]| && HISTORIES[e][k].typeId == TypeOf(m)
    ensures Encode(After(HISTORIES[e]), f, m) == Some((HISTORIES[e][k].name, f.encode(m)))
    ensures HISTORIES[e][k].name in OrNew(After(HISTORIES[e]).entries) && After(HISTORIES[e]).entries.Some?
  {
    var h := HISTORIES[e];
    assert Owns(h, m, k);
    EncodesIff(h, f, m);
    EntryOfLast(h, k);
  }

  lemma NotKnown(name: TypeName)
    requires forall k | 0 <= k < |COMMON| :: COMMON[k].name != name
    ensures name !in OrNew(After(COMMON).entries) && After(COMMON).entries.Some?
  {
    if name in OrNew(After(COMMON).entries) {
      var k := LastOfKnownName(COMMON, name);
    }
  }
}

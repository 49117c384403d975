// Remote messages between processes (src/remote.rs): the wire envelope, and what a receiver does
// with it.
module Routing {
  import opened Vocabulary
  import opened Codec

  // The JSON object on the wire.  A field that is missing or not a string is None.
  datatype Wire = Wire(
    senderActor: Option<Name>,
    senderEndpoint: Option<Endpoint>,
    receiver: Option<Name>,
    messageType: Option<TypeName>,
    message: Json)

  // A process: the endpoint it gives as its own, its ActorRegistry and its message tables.
  datatype Process = Process(local: Endpoint, registry: map<Name, Ref>, tables: Tables)

  datatype World = World(processes: map<Endpoint, Process>, format: Format)

  function OrEmpty(s: Option<string>): string {
    if s.Some? then s.value else ""
  }

  // The sender fields that send_to writes.
  function SenderPair(p: Process, sender: Option<Ref>): (Option<Name>, Option<Endpoint>) {
    match sender
    case Some(Local(_, name)) => (Some(name), Some(p.local))
    case Some(Remote(name, endpoint)) => (Some(name), Some(endpoint))
    case Some(Cpp(name)) => (Some(name), None)
    case None => (None, None)
  }

  // send_to: the wire envelope for actor `name` of another process, or None where it panics.
  function SendTo(p: Process, f: Format, name: Name, m: Message, sender: Option<Ref>): Option<Wire> {
    match Encode(p.tables, f, m)
    case None => None
    case Some((typeName, json)) =>
      var (actor, endpoint) := SenderPair(p, sender);
      Some(Wire(actor, endpoint, Some(name), Some(typeName), json))
  }

  // What handle_remote_message_async does with an envelope.
  datatype Verdict =
    | Deliver(to: Ref, msg: Message, sender: Option<Ref>)
    | Forward(endpoint: Endpoint, wire: Wire)
    | RejectTo(endpoint: Endpoint, wire: Wire)
    | Discard
    | Crash

  // The sender fields, if both are there.
  predicate HasPair(w: Wire) {
    w.senderActor.Some? && w.senderEndpoint.Some?
  }

  predicate HasNone(w: Wire) {
    w.senderActor.None? && w.senderEndpoint.None?
  }

  // A Reject goes back to the sender, if the envelope names one, and carries no sender itself.
  function Refuse(p: Process, f: Format, w: Wire, reason: string): Verdict {
    if HasPair(w) then
      match SendTo(p, f, w.senderActor.value, Reject(OrEmpty(w.messageType), reason, OrEmpty(w.receiver)), None)
      case Some(r) => RejectTo(w.senderEndpoint.value, r)
      case None => Crash
    else Discard
  }

  function SenderRef(w: Wire): Option<Ref> {
    if HasPair(w) then Some(Remote(w.senderActor.value, w.senderEndpoint.value)) else None
  }

  function Handle(p: Process, f: Format, w: Wire): Verdict {
    var name := OrEmpty(w.receiver);
    if name !in p.registry then Refuse(p, f, w, "Actor '" + name + "' not found")
    else
      match TryDeserialize(p.tables, f, OrEmpty(w.messageType), w.message)
      case Err(reason) => Refuse(p, f, w, reason)
      case Panic => Crash
      case Ok(m) =>
        match p.registry[name]
        case Remote(next, endpoint) =>
          (match SendTo(p, f, next, m, SenderRef(w))
           case Some(w') => Forward(endpoint, w')
           case None => Crash)
        case _ => Deliver(p.registry[name], m, SenderRef(w))
  }

  // ----- one hop

  // A relay keeps the sender fields if and only if they come as a pair or not at all.
  lemma RelayKeepsPairIff(p: Process, f: Format, w: Wire)
    requires Handle(p, f, w).Forward?
    ensures var w' := Handle(p, f, w).wire;
            && ((w'.senderActor == w.senderActor && w'.senderEndpoint == w.senderEndpoint)
                <==> HasPair(w) || HasNone(w))
            && (HasPair(w') || HasNone(w'))
  {
  }

  // ----- what a wire envelope says

  function Entries(world: World, e: Endpoint): map<TypeName, TypeId> {
    if e in world.processes then OrNew(world.processes[e].tables.entries) else map[]
  }

  // A type name that these tables know stands for the same type wherever else it is known.  Processes
  // need not know the same names.
  ghost predicate AgreeWith(world: World, t: Tables) {
    forall e, n | n in Entries(world, e) && n in OrNew(t.entries) :: Entries(world, e)[n] == OrNew(t.entries)[n]
  }

  ghost predicate Agree(world: World) {
    forall e | e in world.processes :: AgreeWith(world, world.processes[e].tables)
  }

  // Whoever knows the type name of the envelope reads message `m` in it.
  ghost predicate Carries(world: World, w: Wire, m: Message) {
    forall e | OrEmpty(w.messageType) in Entries(world, e) ::
      TryDeserialize(world.processes[e].tables, world.format, OrEmpty(w.messageType), w.message) == Ok(m)
  }

  // What is sent is carried.
  lemma SentIsCarried(world: World, p: Process, name: Name, m: Message, sender: Option<Ref>)
    requires Faithful(world.format) && AgreeWith(world, p.tables)
    requires SendTo(p, world.format, name, m, sender).Some?
    ensures Carries(world, SendTo(p, world.format, name, m, sender).value, m)
  {
    var w := SendTo(p, world.format, name, m, sender).value;
    var typeName := OrEmpty(w.messageType);
    assert typeName in OrNew(p.tables.entries) && OrNew(p.tables.entries)[typeName] == TypeOf(m);
    forall e | typeName in Entries(world, e)
      ensures TryDeserialize(world.processes[e].tables, world.format, typeName, w.message) == Ok(m)
    {
      assert Entries(world, e)[typeName] == TypeOf(m);
    }
  }

  // A relay passes on the message that it read, under the name that it has for its type.
  lemma RelayKeepsMessage(world: World, e: Endpoint, w: Wire, m: Message)
    requires Faithful(world.format) && Agree(world) && Carries(world, w, m)
    requires e in world.processes && Handle(world.processes[e], world.format, w).Forward?
    ensures Carries(world, Handle(world.processes[e], world.format, w).wire, m)
  {
    var p := world.processes[e];
    var r := p.registry[OrEmpty(w.receiver)];
    SentIsCarried(world, p, r.name, m, SenderRef(w));
  }

  // ----- chains of relays

  // A message under its way: where it is, for whom, and the name of its type.
  datatype Stop = Stop(at: Endpoint, name: Name, typeName: TypeName)

  function StopOf(e: Endpoint, w: Wire): Stop {
    Stop(e, OrEmpty(w.receiver), OrEmpty(w.messageType))
  }

  // Where a relay leads from there.
  function Hop(world: World, x: Stop): Option<Stop> {
    if x.at in world.processes && x.name in world.processes[x.at].registry && x.typeName in Entries(world, x.at) then
      var p := world.processes[x.at];
      var t := Entries(world, x.at)[x.typeName];
      match p.registry[x.name]
      case Remote(name, endpoint) =>
        if t in OrNew(p.tables.names) then Some(Stop(endpoint, name, OrNew(p.tables.names)[t])) else None
      case _ => None
    else None
  }

  // A chain of relays that comes back to where it began.
  predicate Cycle(world: World, c: seq<Stop>) {
    && c != []
    && forall i: nat | i < |c| :: Hop(world, c[i]) == Some(Following(c, i))
  }

  function Following(c: seq<Stop>, i: nat): Stop
    requires i < |c|
  {
    if i + 1 < |c| then c[i + 1] else c[0]
  }

  ghost predicate Acyclic(world: World) {
    forall c :: !Cycle(world, c)
  }

  // An endpoint where nobody listens loses what is sent there.
  function Arrive(world: World, e: Endpoint, w: Wire): Verdict {
    if e in world.processes then Handle(world.processes[e], world.format, w) else Discard
  }

  lemma ForwardIsHop(world: World, e: Endpoint, w: Wire)
    requires Faithful(world.format) && Arrive(world, e, w).Forward?
    ensures var v := Arrive(world, e, w);
            Hop(world, StopOf(e, w)) == Some(StopOf(v.endpoint, v.wire))
  {
  }

  // How many relays follow, as far as `fuel` goes.
  function Length(world: World, x: Stop, fuel: nat): (n: nat)
    ensures n <= fuel
    decreases fuel
  {
    if fuel == 0 then 0
    else
      match Hop(world, x)
      case None => 0
      case Some(y) => 1 + Length(world, y, fuel - 1)
  }

  // The places with a relay that knows the type are among these.
  function Stops(world: World): set<Stop> {
    set e, n, t | e in world.processes && n in world.processes[e].registry && t in Entries(world, e) :: Stop(e, n, t)
  }

  function Rank(world: World, x: Stop): nat {
    Length(world, x, |Stops(world)| + 1)
  }

  // The first `n` stops of a chain that is long enough.
  function Path(world: World, x: Stop, n: nat): (path: seq<Stop>)
    requires Length(world, x, n) == n
    ensures |path| == n
    ensures forall i | 0 <= i < n :: path[i] in Stops(world)
    ensures forall i | 0 <= i < n - 1 :: Hop(world, path[i]) == Some(path[i + 1])
    ensures n > 0 ==> path[0] == x
    decreases n
  {
    if n == 0 then [] else [x] + Path(world, Hop(world, x).value, n - 1)
  }

  lemma {:induction false} Pigeonhole(xs: seq<Stop>, s: set<Stop>) returns (i: nat, j: nat)
    requires |xs| > |s| && forall k | 0 <= k < |xs| :: xs[k] in s
    ensures i < j < |xs| && xs[i] == xs[j]
    decreases |s|
  {
    var n := |xs| - 1;
    if k :| 0 <= k < n && xs[k] == xs[n] {
      i, j := k, n;
    } else {
      i, j := Pigeonhole(xs[..n], s - {xs[n]});
    }
  }

  // A chain that is longer than there are places comes back to one of them.
  lemma LongChainIsCycle(world: World, x: Stop, n: nat)
    requires n > |Stops(world)| && Length(world, x, n) == n
    ensures !Acyclic(world)
  {
    var path := Path(world, x, n);
    hide Stops, Hop;
    var i, j := Pigeonhole(path, Stops(world));
    var c := path[i..j];
    assert forall k | 0 <= k < |c| :: c[k] == path[i + k];
    assert Cycle(world, c);
  }

  lemma {:induction false} LongerFuel(world: World, x: Stop, fuel: nat)
    requires Length(world, x, fuel) < fuel
    ensures Length(world, x, fuel + 1) == Length(world, x, fuel)
    decreases fuel
  {
    if Hop(world, x).Some? {
      LongerFuel(world, Hop(world, x).value, fuel - 1);
    }
  }

  lemma RankIsSmall(world: World, x: Stop)
    requires Acyclic(world)
    ensures Rank(world, x) <= |Stops(world)|
  {
    if Rank(world, x) > |Stops(world)| {
      LongChainIsCycle(world, x, |Stops(world)| + 1);
    }
  }

  lemma HopDescends(world: World, x: Stop)
    requires Acyclic(world) && Hop(world, x).Some?
    ensures Rank(world, Hop(world, x).value) < Rank(world, x)
  {
    var n := |Stops(world)|;
    var y := Hop(world, x).value;
    hide Stops, Hop;
    assert Length(world, x, n + 1) == 1 + Length(world, y, n);
    if Length(world, y, n) == n {
      RankIsSmall(world, x);
    } else {
      LongerFuel(world, y, n);
    }
  }

  lemma ForwardDescends(world: World, e: Endpoint, w: Wire)
    requires Acyclic(world) && Faithful(world.format) && Arrive(world, e, w).Forward?
    ensures var v := Arrive(world, e, w);
            Rank(world, StopOf(v.endpoint, v.wire)) < Rank(world, StopOf(e, w))
  {
    ForwardIsHop(world, e, w);
    hide Arrive, Hop, Rank;
    HopDescends(world, StopOf(e, w));
  }

  // It is enough to look at the registries: if relays lead downwards in some order of the processes'
  // actors, there is no cycle.
  lemma OrderedIsAcyclic(world: World, rank: (Endpoint, Name) -> nat)
    requires forall e, n | e in world.processes && n in world.processes[e].registry ::
               var r := world.processes[e].registry[n];
               r.Remote? ==> rank(r.endpoint, r.name) < rank(e, n)
    ensures Acyclic(world)
  {
    forall c: seq<Stop> ensures !Cycle(world, c) {
      if Cycle(world, c) {
        forall i: nat | i < |c| ensures RankOf(rank, Following(c, i)) < RankOf(rank, c[i]) {
          assert Hop(world, c[i]) == Some(Following(c, i));
        }
        Descending(rank, c, |c| - 1);
      }
    }
  }

  function RankOf(rank: (Endpoint, Name) -> nat, x: Stop): nat {
    rank(x.at, x.name)
  }

  lemma {:induction false} Descending(rank: (Endpoint, Name) -> nat, c: seq<Stop>, i: nat)
    requires i < |c|
    requires forall k: nat | k < |c| :: RankOf(rank, Following(c, k)) < RankOf(rank, c[k])
    ensures RankOf(rank, c[i]) <= RankOf(rank, c[0])
  {
    if i > 0 {
      Descending(rank, c, i - 1);
      assert Following(c, i - 1) == c[i];
    }
  }

  // Where a message is after all its relays.
  ghost function Follow(world: World, e: Endpoint, w: Wire): (r: (Endpoint, Wire))
    requires Acyclic(world) && Faithful(world.format)
    ensures !Arrive(world, r.0, r.1).Forward?
    decreases Rank(world, StopOf(e, w))
  {
    var v := Arrive(world, e, w);
    if v.Forward? then
      ForwardDescends(world, e, w);
      Follow(world, v.endpoint, v.wire)
    else (e, w)
  }

  // A chain of relays of any length keeps the sender that the first process wrote.
  lemma {:induction false} FollowKeepsPair(world: World, e: Endpoint, w: Wire)
    requires Acyclic(world) && Faithful(world.format) && (HasPair(w) || HasNone(w))
    ensures var w' := Follow(world, e, w).1;
            w'.senderActor == w.senderActor && w'.senderEndpoint == w.senderEndpoint
    decreases Rank(world, StopOf(e, w))
  {
    var v := Arrive(world, e, w);
    if v.Forward? {
      ForwardDescends(world, e, w);
      RelayKeepsPairIff(world.processes[e], world.format, w);
      FollowKeepsPair(world, v.endpoint, v.wire);
    }
  }

  // It also keeps the message, whatever types the processes on the way know besides.
  lemma {:induction false} FollowKeepsMessage(world: World, e: Endpoint, w: Wire, m: Message)
    requires Acyclic(world) && Faithful(world.format) && Agree(world) && Carries(world, w, m)
    ensures Carries(world, Follow(world, e, w).1, m)
    decreases Rank(world, StopOf(e, w))
  {
    hide Agree, Faithful, Carries, Acyclic, Rank, Handle;
    var v := Arrive(world, e, w);
    if v.Forward? {
      ForwardDescends(world, e, w);
      RelayKeepsMessage(world, e, w, m);
      FollowKeepsMessage(world, v.endpoint, v.wire, m);
    }
  }

  // Sender fields that are no pair never become one.
  lemma {:induction false} FollowNoPair(world: World, e: Endpoint, w: Wire)
    requires Acyclic(world) && Faithful(world.format) && !HasPair(w)
    ensures !HasPair(Follow(world, e, w).1)
    decreases Rank(world, StopOf(e, w))
  {
    var v := Arrive(world, e, w);
    if v.Forward? {
      ForwardDescends(world, e, w);
      hide Rank, StopOf, Acyclic;
      assert !HasPair(v.wire);
      FollowNoPair(world, v.endpoint, v.wire);
    }
  }

  // What a process sends to a remote actor, wherever its relays lead: if an actor gets it, it gets
  // the message that was sent, from the sender that sent it.  A C++ sender has no endpoint: then the
  // message arrives as if nobody had sent it, and is never rejected.
  lemma RelayTransparency(world: World, p: Process, e: Endpoint, name: Name, m: Message, sender: Option<Ref>)
    requires Acyclic(world) && Faithful(world.format) && Agree(world) && AgreeWith(world, p.tables)
    requires SendTo(p, world.format, name, m, sender).Some?
    ensures var w := SendTo(p, world.format, name, m, sender).value;
            var (e', w') := Follow(world, e, w);
            var v := Arrive(world, e', w');
            && (v.Deliver? ==>
                  && v.msg == m
                  && v.sender == match sender
                                 case Some(Local(_, n)) => Some(Remote(n, p.local))
                                 case Some(Remote(n, home)) => Some(Remote(n, home))
                                 case Some(Cpp(_)) => None
                                 case None => None)
            && (v.RejectTo? ==> sender.Some? && !sender.value.Cpp?)
  {
    var w := SendTo(p, world.format, name, m, sender).value;
    SentIsCarried(world, p, name, m, sender);
    if HasPair(w) {
      FollowKeepsPair(world, e, w);
    } else {
      FollowNoPair(world, e, w);
    }
    FollowKeepsMessage(world, e, w, m);
    var (e', w') := Follow(world, e, w);
    hide Follow, Acyclic, Agree, AgreeWith, Faithful;
    if Arrive(world, e', w').Deliver? {
      assert OrEmpty(w'.messageType) in Entries(world, e');
    }
  }

  // A reply of `final` to an actor of `home` is delivered there if and only if `home` knows the name
  // that `final` has for its type; then the actor gets the reply, and who made it.
  lemma AnswerArrives(world: World, final: Process, home: Endpoint, box: nat, self: Name, answer: Message, author: Ref)
    requires Faithful(world.format) && AgreeWith(world, final.tables) && author.Local?
    requires home in world.processes
    requires self in world.processes[home].registry && world.processes[home].registry[self] == Local(box, self)
    requires SendTo(final, world.format, self, answer, Some(author)).Some?
    ensures var back := SendTo(final, world.format, self, answer, Some(author)).value;
            if OrEmpty(back.messageType) in Entries(world, home) then
              Arrive(world, home, back) == Deliver(Local(box, self), answer, Some(Remote(author.name, final.local)))
            else !Arrive(world, home, back).Deliver?
  {
    SentIsCarried(world, final, self, answer, Some(author));
  }

  // Whoever got a relayed message has the way back: its reply goes straight to the process of the
  // sender, whatever relays the question went through, and is delivered there to the actor registered
  // under the sender's name, if that process knows its type.
  lemma ReplyComesBack(world: World, home: Endpoint, e: Endpoint, name: Name, m: Message, box: nat, self: Name,
                       answer: Message, author: Ref)
    requires Acyclic(world) && Faithful(world.format) && Agree(world)
    requires home in world.processes && world.processes[home].local == home
    requires self in world.processes[home].registry && world.processes[home].registry[self] == Local(box, self)
    requires author.Local?
    requires SendTo(world.processes[home], world.format, name, m, Some(Local(box, self))).Some?
    ensures var w := SendTo(world.processes[home], world.format, name, m, Some(Local(box, self))).value;
            var (e', w') := Follow(world, e, w);
            var v := Arrive(world, e', w');
            v.Deliver? ==>
              && v.sender == Some(Remote(self, home)) && e' in world.processes
              && var final := world.processes[e'];
                 var back := SendTo(final, world.format, v.sender.value.name, answer, Some(author));
                 back.Some? ==>
                   if OrEmpty(back.value.messageType) in Entries(world, home) then
                     Arrive(world, v.sender.value.endpoint, back.value)
                     == Deliver(Local(box, self), answer, Some(Remote(author.name, final.local)))
                   else !Arrive(world, v.sender.value.endpoint, back.value).Deliver?
  {
    var w := SendTo(world.processes[home], world.format, name, m, Some(Local(box, self))).value;
    RelayTransparency(world, world.processes[home], e, name, m, Some(Local(box, self)));
    var (e', w') := Follow(world, e, w);
    if Arrive(world, e', w').Deliver? {
      var final := world.processes[e'];
      hide Follow, Acyclic, Faithful, Handle, AgreeWith;
      if SendTo(final, world.format, self, answer, Some(author)).Some? {
        AnswerArrives(world, final, home, box, self, answer, author);
      }
    }
  }

  // ----- refusals

  // Why a message is refused: nobody of that name, or nothing registered under its type name.
  function Reason(p: Process, w: Wire): string {
    if OrEmpty(w.receiver) !in p.registry then "Actor '" + OrEmpty(w.receiver) + "' not found"
    else if p.tables.entries.None? then "No messages registered"
    else "Unknown message type: " + OrEmpty(w.messageType)
  }

  predicate Refused(p: Process, w: Wire) {
    OrEmpty(w.receiver) !in p.registry || OrEmpty(w.messageType) !in OrNew(p.tables.entries)
  }

  function Refusal(p: Process, w: Wire): Message {
    Reject(OrEmpty(w.messageType), Reason(p, w), OrEmpty(w.receiver))
  }

  // A Reject is sent just when the message is refused and names its sender.  It goes to the process and
  // actor that the message came from and says what was refused, why and by whom.  The actor registered
  // there gets it, without a sender, if and only if its process knows the name that the refusing one has
  // for Reject; otherwise it is dropped.
  lemma RejectComesBack(world: World, e: Endpoint, w: Wire, box: nat)
    requires Faithful(world.format) && Agree(world) && e in world.processes
    requires Encode(world.processes[e].tables, world.format, Refusal(world.processes[e], w)).Some?
    ensures var p := world.processes[e];
            var v := Arrive(world, e, w);
            && (v.RejectTo? <==> Refused(p, w) && HasPair(w))
            && (v.RejectTo? ==>
                  var home, name := w.senderEndpoint.value, w.senderActor.value;
                  && v.endpoint == home && HasNone(v.wire) && v.wire.receiver == Some(name)
                  && (home in world.processes && name in world.processes[home].registry
                      && world.processes[home].registry[name] == Local(box, name) ==>
                        Arrive(world, home, v.wire)
                        == if OrEmpty(v.wire.messageType) in Entries(world, home)
                           then Deliver(Local(box, name), Refusal(p, w), None) else Discard))
  {
    var p := world.processes[e];
    RefusalIsSent(p, world.format, w);
    var v := Arrive(world, e, w);
    if v.RejectTo? {
      SentIsCarried(world, p, w.senderActor.value, Refusal(p, w), None);
    }
  }

  lemma RefusalIsSent(p: Process, f: Format, w: Wire)
    requires Faithful(f) && Encode(p.tables, f, Refusal(p, w)).Some?
    ensures Handle(p, f, w).RejectTo? <==> Refused(p, w) && HasPair(w)
    ensures Handle(p, f, w).RejectTo? ==>
              && Handle(p, f, w).endpoint == w.senderEndpoint.value
              && SendTo(p, f, w.senderActor.value, Refusal(p, w), None) == Some(Handle(p, f, w).wire)
  {
  }
}

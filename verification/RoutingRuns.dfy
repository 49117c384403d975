// All schedules of a set of remote messages: they end, and they all end alike.
module RoutingRuns {
  import opened Vocabulary
  import opened Codec
  import opened Routing

  // The k-th message of the set, or the Reject that its failure causes.
  datatype Id = Original(k: nat) | RejectOf(k: nat)

  datatype Packet = Packet(id: Id, endpoint: Endpoint, wire: Wire)

  datatype Fate = Delivered(at: Endpoint, to: Ref, msg: Message, sender: Option<Ref>) | Rejected | Dropped

  datatype Entry = Entry(id: Id, fate: Fate)

  // The messages on their way, and what has become of the others.
  datatype Traffic = Traffic(inFlight: seq<Packet>, log: seq<Entry>)

  // No process can panic: type names stand for the same types everywhere, and each process can send a
  // Reject and every type that it can read.  Which types those are may differ.
  ghost predicate Healthy(world: World) {
    && Faithful(world.format) && Agree(world)
    && forall e, m: Message | e in world.processes && (m.Reject? || TypeOf(m) in Entries(world, e).Values) ::
         Encode(world.processes[e].tables, world.format, m).Some?
  }

  // Each process makes the registrations `hs` gives for it.
  ghost predicate Registers(world: World, hs: map<Endpoint, seq<Registration>>) {
    forall e | e in world.processes :: e in hs && world.processes[e].tables == After(hs[e])
  }

  // It is enough that every process registers Reject, and that no name is ever given to two types, in
  // one process or in two.
  lemma UnsharedIsHealthy(world: World, hs: map<Endpoint, seq<Registration>>)
    requires Faithful(world.format) && Registers(world, hs)
    requires forall e, q, j, k | e in hs && q in hs && 0 <= j < |hs[e]| && 0 <= k < |hs[q]| ::
               hs[e][j].name == hs[q][k].name ==> hs[e][j].typeId == hs[q][k].typeId
    requires forall e | e in hs :: exists k :: 0 <= k < |hs[e]| && hs[e][k].typeId == REJECT
    ensures Healthy(world)
  {
    hide After, Encode, Faithful;
    forall e | e in world.processes ensures AgreeWith(world, world.processes[e].tables) {
      forall q, n | n in Entries(world, q) && n in OrNew(world.processes[e].tables.entries)
        ensures Entries(world, q)[n] == OrNew(world.processes[e].tables.entries)[n]
      {
        var j := LastOfKnownName(hs[e], n);
        var k := LastOfKnownName(hs[q], n);
        EntryOfLast(hs[e], j);
        EntryOfLast(hs[q], k);
      }
    }
    forall e, m: Message | e in world.processes && (m.Reject? || TypeOf(m) in Entries(world, e).Values)
      ensures Encode(world.processes[e].tables, world.format, m).Some?
    {
      var k := RegistrationOf(hs[e], m);
      UnsharedNamesEncode(hs[e], world.format, m, k);
    }
  }

  lemma RegistrationOf(h: seq<Registration>, m: Message) returns (k: nat)
    requires exists k :: 0 <= k < |h| && h[k].typeId == REJECT
    requires m.Reject? || TypeOf(m) in OrNew(After(h).entries).Values
    ensures k < |h| && h[k].typeId == TypeOf(m)
  {
    hide After;
    if m.Reject? {
      k :| k < |h| && h[k].typeId == REJECT;
    } else {
      var name :| name in OrNew(After(h).entries) && OrNew(After(h).entries)[name] == TypeOf(m);
      k := LastOfKnownName(h, name);
      EntryOfLast(h, k);
    }
  }

  // The payload is well formed for the type that the envelope names, wherever that is known.
  ghost predicate WellFormed(world: World, w: Wire) {
    forall e | e in world.processes ::
      TryDeserialize(world.processes[e].tables, world.format, OrEmpty(w.messageType), w.message) != Panic
  }

  lemma CarriedIsWellFormed(world: World, w: Wire, m: Message)
    requires Carries(world, w, m)
    ensures WellFormed(world, w)
  {
    forall e | e in world.processes
      ensures TryDeserialize(world.processes[e].tables, world.format, OrEmpty(w.messageType), w.message) != Panic
    {
      if OrEmpty(w.messageType) in Entries(world, e) {
        assert TryDeserialize(world.processes[e].tables, world.format, OrEmpty(w.messageType), w.message) == Ok(m);
      }
    }
  }

  lemma NoCrash(world: World, e: Endpoint, w: Wire)
    requires Healthy(world) && WellFormed(world, w)
    ensures var v := Arrive(world, e, w);
            && v != Crash
            && (v.Forward? || v.RejectTo? ==> WellFormed(world, v.wire))
  {
    if e in world.processes {
      var p := world.processes[e];
      var parsed := TryDeserialize(p.tables, world.format, OrEmpty(w.messageType), w.message);
      var m := if parsed.Ok? then parsed.msg else Refusal(p, w);
      assert parsed.Ok? ==> Entries(world, e)[OrEmpty(w.messageType)] == TypeOf(m);
      assert Encode(p.tables, world.format, m).Some?;
      assert Encode(p.tables, world.format, Refusal(p, w)).Some?;
      var v := Arrive(world, e, w);
      if v.Forward? {
        SentIsCarried(world, p, p.registry[OrEmpty(w.receiver)].name, m, SenderRef(w));
        CarriedIsWellFormed(world, v.wire, m);
      } else if v.RejectTo? {
        RefusalIsSent(p, world.format, w);
        SentIsCarried(world, p, w.senderActor.value, Refusal(p, w), None);
        CarriedIsWellFormed(world, v.wire, Refusal(p, w));
      }
    }
  }

  // ----- one message on its own

  function Weight(world: World, p: Packet): nat {
    1 + Rank(world, StopOf(p.endpoint, p.wire)) + if HasPair(p.wire) then |Stops(world)| + 2 else 0
  }

  function Number(id: Id): nat {
    id.k
  }

  // The packet that `p` turns into when it is relayed or rejected.
  function Next(p: Packet, v: Verdict): Packet
    requires v.Forward? || v.RejectTo?
  {
    Packet(if v.Forward? then p.id else RejectOf(Number(p.id)), v.endpoint, v.wire)
  }

  lemma NextIsLighter(world: World, p: Packet)
    requires Acyclic(world) && Faithful(world.format)
    requires var v := Arrive(world, p.endpoint, p.wire); v.Forward? || v.RejectTo?
    ensures Weight(world, Next(p, Arrive(world, p.endpoint, p.wire))) < Weight(world, p)
  {
    var v := Arrive(world, p.endpoint, p.wire);
    if v.Forward? {
      ForwardDescends(world, p.endpoint, p.wire);
      RelayKeepsPairIff(world.processes[p.endpoint], world.format, p.wire);
      hide Stops, Rank;
    } else {
      RankIsSmall(world, StopOf(v.endpoint, v.wire));
      hide Stops, Rank;
      assert HasPair(p.wire) && !HasPair(v.wire);
    }
  }

  // All that becomes of a packet, followed to its end.
  ghost function Ends(world: World, p: Packet): seq<Entry>
    requires Acyclic(world) && Healthy(world) && WellFormed(world, p.wire)
    decreases Weight(world, p)
  {
    var v := Arrive(world, p.endpoint, p.wire);
    NoCrash(world, p.endpoint, p.wire);
    match v
    case Deliver(to, msg, sender) => [Entry(p.id, Delivered(p.endpoint, to, msg, sender))]
    case Discard => [Entry(p.id, Dropped)]
    case Forward(_, _) => NextIsLighter(world, p); Ends(world, Next(p, v))
    case RejectTo(_, _) =>
      NextIsLighter(world, p);
      [Entry(p.id, Rejected)] + Ends(world, Next(p, v))
  }

  // A message without sender fields, such as a Reject, never causes a Reject.
  lemma {:induction false} NoPairNoReject(world: World, p: Packet)
    requires Acyclic(world) && Healthy(world) && WellFormed(world, p.wire) && !HasPair(p.wire)
    ensures var ends := Ends(world, p);
            |ends| == 1 && ends[0].id == p.id && !ends[0].fate.Rejected?
    decreases Weight(world, p)
  {
    var v := Arrive(world, p.endpoint, p.wire);
    NoCrash(world, p.endpoint, p.wire);
    if v.Forward? {
      NextIsLighter(world, p);
      NoPairNoReject(world, Next(p, v));
    }
  }

  // Every message ends once: delivered, dropped or rejected.  If it is rejected there is one Reject,
  // which is delivered or dropped.
  lemma {:induction false} EndsShape(world: World, p: Packet)
    requires Acyclic(world) && Healthy(world) && WellFormed(world, p.wire)
    ensures var ends := Ends(world, p);
            && ends != [] && ends[0].id == p.id
            && |ends| == (if ends[0].fate.Rejected? then 2 else 1)
            && (|ends| == 2 ==> ends[1].id == RejectOf(Number(p.id)) && !ends[1].fate.Rejected?)
    decreases Weight(world, p)
  {
    var v := Arrive(world, p.endpoint, p.wire);
    NoCrash(world, p.endpoint, p.wire);
    if v.Forward? {
      NextIsLighter(world, p);
      EndsShape(world, Next(p, v));
    } else if v.RejectTo? {
      NextIsLighter(world, p);
      assert !HasPair(v.wire);
      NoPairNoReject(world, Next(p, v));
    }
  }

  // The actor and the message type are known where the message ends up.
  predicate Accepted(world: World, e: Endpoint, w: Wire) {
    && e in world.processes && OrEmpty(w.receiver) in world.processes[e].registry
    && TryDeserialize(world.processes[e].tables, world.format, OrEmpty(w.messageType), w.message).Ok?
  }

  // Which of the three it is can be read off the place where its relays lead.
  lemma {:induction false} FateIff(world: World, p: Packet)
    requires Acyclic(world) && Healthy(world) && WellFormed(world, p.wire)
    ensures Ends(world, p) != []
    ensures var fate := Ends(world, p)[0].fate;
            var (e, w) := Follow(world, p.endpoint, p.wire);
            && (fate.Delivered? <==> Accepted(world, e, w))
            && (fate.Rejected? <==> !Accepted(world, e, w) && e in world.processes && HasPair(w))
            && (fate.Delivered? ==> fate.at == e && fate.to == world.processes[e].registry[OrEmpty(w.receiver)])
    decreases Weight(world, p)
  {
    EndsShape(world, p);
    var v := Arrive(world, p.endpoint, p.wire);
    NoCrash(world, p.endpoint, p.wire);
    if v.Forward? {
      NextIsLighter(world, p);
      EndsShape(world, Next(p, v));
      FateIff(world, Next(p, v));
    }
  }

  // ----- all of them at once

  function Remove<T>(xs: seq<T>, i: nat): seq<T>
    requires i < |xs|
  {
    xs[..i] + xs[i + 1..]
  }

  // Some process handles the `i`-th message that is on its way.
  function Step(world: World, s: Traffic, i: nat): Traffic
    requires i < |s.inFlight|
  {
    var p := s.inFlight[i];
    match Arrive(world, p.endpoint, p.wire)
    case Deliver(to, msg, sender) =>
      Traffic(Remove(s.inFlight, i), s.log + [Entry(p.id, Delivered(p.endpoint, to, msg, sender))])
    case Forward(_, _) => s.(inFlight := s.inFlight[i := Next(p, Arrive(world, p.endpoint, p.wire))])
    case RejectTo(_, _) =>
      Traffic(s.inFlight[i := Next(p, Arrive(world, p.endpoint, p.wire))], s.log + [Entry(p.id, Rejected)])
    case Discard => Traffic(Remove(s.inFlight, i), s.log + [Entry(p.id, Dropped)])
    case Crash => s
  }

  // The schedule picks one message after the other.
  function Exec(world: World, s: Traffic, picks: seq<nat>): Option<Traffic>
    decreases |picks|
  {
    if picks == [] then Some(s)
    else if picks[0] >= |s.inFlight| then None
    else Exec(world, Step(world, s, picks[0]), picks[1..])
  }

  function TotalWeight(world: World, ps: seq<Packet>): nat {
    if ps == [] then 0 else Weight(world, ps[0]) + TotalWeight(world, ps[1..])
  }

  ghost predicate AllReady(world: World, ps: seq<Packet>) {
    forall i | 0 <= i < |ps| :: WellFormed(world, ps[i].wire)
  }

  ghost function AllEnds(world: World, ps: seq<Packet>): seq<Entry>
    requires Acyclic(world) && Healthy(world) && AllReady(world, ps)
  {
    if ps == [] then [] else Ends(world, ps[0]) + AllEnds(world, ps[1..])
  }

  lemma {:induction false} WeightCat(world: World, a: seq<Packet>, b: seq<Packet>)
    ensures TotalWeight(world, a + b) == TotalWeight(world, a) + TotalWeight(world, b)
  {
    if a == [] {
      assert a + b == b;
    } else {
      assert (a + b)[1..] == a[1..] + b;
      WeightCat(world, a[1..], b);
    }
  }

  lemma {:induction false} EndsCat(world: World, a: seq<Packet>, b: seq<Packet>)
    requires Acyclic(world) && Healthy(world)
    requires AllReady(world, a) && AllReady(world, b) && AllReady(world, a + b)
    ensures AllEnds(world, a + b) == AllEnds(world, a) + AllEnds(world, b)
  {
    hide Healthy, Acyclic, Ends;
    if a == [] {
      assert a + b == b;
    } else {
      var ab := a + b;
      assert ab[1..] == a[1..] + b && ab[0] == a[0];
      EndsCat(world, a[1..], b);
      var first := Ends(world, a[0]);
      var x, y := AllEnds(world, a[1..]), AllEnds(world, b);
      assert first + (x + y) == (first + x) + y;
    }
  }

  // What a step makes of the packet it picks: log entries, and what is left on its way.
  ghost function Done(world: World, p: Packet): (r: (seq<Entry>, seq<Packet>)) {
    match Arrive(world, p.endpoint, p.wire)
    case Deliver(to, msg, sender) => ([Entry(p.id, Delivered(p.endpoint, to, msg, sender))], [])
    case Forward(_, _) => ([], [Next(p, Arrive(world, p.endpoint, p.wire))])
    case RejectTo(_, _) => ([Entry(p.id, Rejected)], [Next(p, Arrive(world, p.endpoint, p.wire))])
    case Discard => ([Entry(p.id, Dropped)], [])
    case Crash => ([], [p])
  }

  lemma StepIsDone(world: World, s: Traffic, i: nat)
    requires i < |s.inFlight|
    ensures var (entries, left) := Done(world, s.inFlight[i]);
            Step(world, s, i) == Traffic(s.inFlight[..i] + left + s.inFlight[i + 1..], s.log + entries)
  {
    var p := s.inFlight[i];
    var v := Arrive(world, p.endpoint, p.wire);
    var q := if v.Forward? || v.RejectTo? then Next(p, v) else p;
    assert s.inFlight[..i] + [p] + s.inFlight[i + 1..] == s.inFlight;
    assert s.inFlight[..i] + [q] + s.inFlight[i + 1..] == s.inFlight[i := q];
    assert s.inFlight[..i] + [] + s.inFlight[i + 1..] == Remove(s.inFlight, i);
    assert s.log + [] == s.log;
  }

  lemma DoneAccounts(world: World, p: Packet)
    requires Acyclic(world) && Healthy(world) && WellFormed(world, p.wire)
    ensures var (entries, left) := Done(world, p);
            && AllReady(world, left) && TotalWeight(world, left) < Weight(world, p)
            && entries + AllEnds(world, left) == Ends(world, p)
  {
    NoCrash(world, p.endpoint, p.wire);
    var v := Arrive(world, p.endpoint, p.wire);
    if v.Forward? || v.RejectTo? {
      NextIsLighter(world, p);
      var q := Next(p, v);
      assert [q][1..] == [];
      assert AllEnds(world, [q]) == Ends(world, q) + [];
    }
  }

  // The packets around the one that is picked keep their part.
  lemma Around(world: World, a: seq<Packet>, xs: seq<Packet>, b: seq<Packet>)
    requires Acyclic(world) && Healthy(world)
    requires AllReady(world, a) && AllReady(world, xs) && AllReady(world, b)
    ensures AllReady(world, a + xs + b)
    ensures TotalWeight(world, a + xs + b) == TotalWeight(world, a) + TotalWeight(world, xs) + TotalWeight(world, b)
    ensures AllEnds(world, a + xs + b) == AllEnds(world, a) + AllEnds(world, xs) + AllEnds(world, b)
  {
    hide Acyclic, Healthy, Weight, WellFormed;
    WeightCat(world, a, xs);
    WeightCat(world, a + xs, b);
    EndsCat(world, a, xs);
    EndsCat(world, a + xs, b);
  }

  lemma OneOnly(world: World, p: Packet)
    requires Acyclic(world) && Healthy(world) && WellFormed(world, p.wire)
    ensures AllReady(world, [p]) && TotalWeight(world, [p]) == Weight(world, p)
    ensures AllEnds(world, [p]) == Ends(world, p)
  {
    hide Acyclic, Healthy, Weight, WellFormed, Ends;
    assert [p][1..] == [];
    assert AllEnds(world, [p]) == Ends(world, p) + [];
  }

  lemma StepAccounts(world: World, s: Traffic, i: nat)
    requires Acyclic(world) && Healthy(world) && AllReady(world, s.inFlight) && i < |s.inFlight|
    ensures var s' := Step(world, s, i);
            && AllReady(world, s'.inFlight)
            && TotalWeight(world, s'.inFlight) < TotalWeight(world, s.inFlight)
            && multiset(s'.log) + multiset(AllEnds(world, s'.inFlight))
               == multiset(s.log) + multiset(AllEnds(world, s.inFlight))
  {
    var p := s.inFlight[i];
    var a, b := s.inFlight[..i], s.inFlight[i + 1..];
    assert AllReady(world, a) && AllReady(world, b) && WellFormed(world, p.wire);
    assert s.inFlight == a + [p] + b;
    hide *;
    var (entries, left) := Done(world, p);
    StepIsDone(world, s, i);
    DoneAccounts(world, p);
    OneOnly(world, p);
    Around(world, a, [p], b);
    Around(world, a, left, b);
    Shuffle(s.log, entries, AllEnds(world, a), AllEnds(world, left), AllEnds(world, b));
  }

  lemma Shuffle(log: seq<Entry>, entries: seq<Entry>, a: seq<Entry>, left: seq<Entry>, b: seq<Entry>)
    ensures multiset(log + entries) + multiset(a + left + b) == multiset(log) + multiset(a + (entries + left) + b)
  {
  }

  // Whatever the schedule: what is in the log and what will still become of the messages on their
  // way make up the same multiset at all times, and every pick brings the end nearer.
  lemma {:induction false} Accounting(world: World, s: Traffic,
                                      picks: seq<nat>, s': Traffic)
    requires Acyclic(world) && Healthy(world) && AllReady(world, s.inFlight)
    requires Exec(world, s, picks) == Some(s')
    ensures AllReady(world, s'.inFlight)
    ensures |picks| + TotalWeight(world, s'.inFlight) <= TotalWeight(world, s.inFlight)
    ensures multiset(s'.log) + multiset(AllEnds(world, s'.inFlight))
            == multiset(s.log) + multiset(AllEnds(world, s.inFlight))
    decreases |picks|
  {
    if picks != [] {
      StepAccounts(world, s, picks[0]);
      Accounting(world, Step(world, s, picks[0]), picks[1..], s');
    }
  }

  // So when nothing is on its way any more, every message has ended just as it would have alone,
  // and the number of Rejects is the number of rejected messages.
  lemma AllSchedulesAgree(world: World, ps: seq<Packet>,
                          picks: seq<nat>, s': Traffic)
    requires Acyclic(world) && Healthy(world) && AllReady(world, ps)
    requires Exec(world, Traffic(ps, []), picks) == Some(s') && s'.inFlight == []
    ensures multiset(s'.log) == multiset(AllEnds(world, ps))
    ensures |picks| <= TotalWeight(world, ps)
    ensures |s'.log| == |ps| + Rejections(s'.log)
  {
    hide Acyclic, Healthy, Exec, Ends;
    Accounting(world, Traffic(ps, []), picks, s');
    assert AllEnds(world, s'.inFlight) == [];
    var all := AllEnds(world, ps);
    hide AllEnds, AllReady;
    assert multiset(s'.log) == multiset(s'.log) + multiset([]) == multiset([]) + multiset(all) == multiset(all);
    EndsCount(world, ps);
    RejectionsPerm(s'.log, all);
  }

  function Rejections(log: seq<Entry>): nat {
    if log == [] then 0 else (if log[0].fate.Rejected? then 1 else 0) + Rejections(log[1..])
  }

  lemma {:induction false} RejectionsCat(a: seq<Entry>, b: seq<Entry>)
    ensures Rejections(a + b) == Rejections(a) + Rejections(b)
  {
    if a == [] {
      assert a + b == b;
    } else {
      assert (a + b)[1..] == a[1..] + b;
      RejectionsCat(a[1..], b);
    }
  }

  lemma BagWithout(b: seq<Entry>, j: nat)
    requires j < |b|
    ensures multiset(b) == multiset(Remove(b, j)) + multiset{b[j]}
  {
    assert b == b[..j] + [b[j]] + b[j + 1..];
  }

  lemma RejectionsOfOne(x: Entry)
    ensures Rejections([x]) == if x.fate.Rejected? then 1 else 0
  {
    assert [x][1..] == [];
  }

  lemma RejectionsWithout(b: seq<Entry>, j: nat)
    requires j < |b|
    ensures Rejections(b) == Rejections(Remove(b, j)) + if b[j].fate.Rejected? then 1 else 0
  {
    hide Rejections;
    var l, x, r := b[..j], [b[j]], b[j + 1..];
    assert b == l + (x + r);
    RejectionsCat(l, x + r);
    RejectionsCat(x, r);
    RejectionsCat(l, r);
    RejectionsOfOne(b[j]);
  }

  lemma {:induction false} RejectionsPerm(a: seq<Entry>, b: seq<Entry>)
    requires multiset(a) == multiset(b)
    ensures Rejections(a) == Rejections(b) && |a| == |b|
  {
    assert |multiset(a)| == |a| && |multiset(b)| == |b|;
    if a != [] {
      assert a[0] in multiset(b);
      var j :| 0 <= j < |b| && b[j] == a[0];
      RejectionsWithout(a, 0);
      RejectionsWithout(b, j);
      BagWithout(a, 0);
      BagWithout(b, j);
      var a', b' := Remove(a, 0), Remove(b, j);
      hide Rejections, Remove;
      assert multiset(a') == multiset(a) - multiset{a[0]} == multiset(b');
      RejectionsPerm(a', b');
    }
  }

  lemma {:induction false} EndsCount(world: World, ps: seq<Packet>)
    requires Acyclic(world) && Healthy(world) && AllReady(world, ps)
    ensures |AllEnds(world, ps)| == |ps| + Rejections(AllEnds(world, ps))
  {
    if ps != [] {
      EndsShape(world, ps[0]);
      var ends := Ends(world, ps[0]);
      EndsCount(world, ps[1..]);
      RejectionsCat(ends, AllEnds(world, ps[1..]));
      assert ends[1..] == [] || (ends[1..] == [ends[1]] && ends[1..][1..] == []);
    }
  }

  // ----- exactly when schedules end

  // A type has messages.
  function MessageOf(t: TypeId): (m: Message)
    ensures TypeOf(m) == t
  {
    if t == 0 then Start
    else if t == 1 then Shutdown
    else if t == 2 then Timeout(0)
    else if t == 3 then Reject("", "", "")
    else App(t - 4, 0)
  }

  lemma CycleStep(world: World, c: seq<Stop>, i: nat, p: Packet, m: Message)
    requires Healthy(world) && Cycle(world, c) && i < |c|
    requires StopOf(p.endpoint, p.wire) == c[i] && Carries(world, p.wire, m)
    ensures var v := Arrive(world, p.endpoint, p.wire);
            v.Forward? && StopOf(v.endpoint, v.wire) == Following(c, i) && Carries(world, v.wire, m)
  {
    var e, w := p.endpoint, p.wire;
    assert Hop(world, c[i]) == Some(Following(c, i));
    assert TryDeserialize(world.processes[e].tables, world.format, OrEmpty(w.messageType), w.message) == Ok(m);
    assert Entries(world, e)[OrEmpty(w.messageType)] == TypeOf(m);
    assert Encode(world.processes[e].tables, world.format, m).Some?;
    assert Arrive(world, e, w).Forward?;
    ForwardIsHop(world, e, w);
    RelayKeepsMessage(world, e, w, m);
  }

  // A message that comes into a cycle of relays, of any length, stays on its way for ever.
  lemma {:induction false} CycleNeverEnds(world: World, c: seq<Stop>, i: nat, p: Packet, m: Message, picks: seq<nat>)
    requires Healthy(world) && Cycle(world, c) && i < |c|
    requires StopOf(p.endpoint, p.wire) == c[i] && Carries(world, p.wire, m)
    requires forall k | 0 <= k < |picks| :: picks[k] == 0
    ensures var s := Exec(world, Traffic([p], []), picks);
            s.Some? && |s.value.inFlight| == 1 && s.value.log == []
    decreases |picks|
  {
    hide Healthy, Cycle, Arrive, Carries;
    if picks != [] {
      CycleStep(world, c, i, p, m);
      var q := Next(p, Arrive(world, p.endpoint, p.wire));
      assert [p][0 := q] == [q];
      assert Step(world, Traffic([p], []), 0) == Traffic([q], []);
      CycleNeverEnds(world, c, if i + 1 < |c| then i + 1 else 0, q, m, picks[1..]);
    }
  }

  // No schedule of these messages is longer than `bound`.
  ghost predicate Bounded(world: World, ps: seq<Packet>, bound: nat) {
    forall picks :: Exec(world, Traffic(ps, []), picks).Some? ==> |picks| <= bound
  }

  ghost predicate AlwaysEnds(world: World) {
    forall ps | AllReady(world, ps) :: exists bound: nat :: Bounded(world, ps, bound)
  }

  lemma AcyclicEnds(world: World, ps: seq<Packet>)
    requires Healthy(world) && Acyclic(world) && AllReady(world, ps)
    ensures Bounded(world, ps, TotalWeight(world, ps))
  {
    hide Healthy, Acyclic, AllReady, TotalWeight;
    forall picks | Exec(world, Traffic(ps, []), picks).Some? ensures |picks| <= TotalWeight(world, ps) {
      Accounting(world, Traffic(ps, []), picks, Exec(world, Traffic(ps, []), picks).value);
    }
  }

  // A message that starts out in the cycle.
  function Lost(world: World, x: Stop): Packet
    requires x.typeName in Entries(world, x.at)
  {
    var m := MessageOf(Entries(world, x.at)[x.typeName]);
    Packet(Original(0), x.at, Wire(None, None, Some(x.name), Some(x.typeName), world.format.encode(m)))
  }

  lemma CycleBreaksBound(world: World, c: seq<Stop>, bound: nat)
    requires Healthy(world) && Cycle(world, c)
    ensures c != [] && c[0].typeName in Entries(world, c[0].at) && AllReady(world, [Lost(world, c[0])])
    ensures !Bounded(world, [Lost(world, c[0])], bound)
  {
    var x := c[0];
    assert Hop(world, x) == Some(Following(c, 0));
    var p, m := Lost(world, x), MessageOf(Entries(world, x.at)[x.typeName]);
    assert AgreeWith(world, world.processes[x.at].tables);
    assert Carries(world, p.wire, m);
    CarriedIsWellFormed(world, p.wire, m);
    hide Healthy, Cycle, Carries, WellFormed, Lost;
    var picks: seq<nat> := seq(bound + 1, _ => 0);
    CycleNeverEnds(world, c, 0, p, m, picks);
    assert |picks| > bound;
  }

  // Every finite set of well-formed messages is dealt with in a bounded number of steps, whatever the
  // schedule, if and only if no chain of relays comes back to where it was with the same type name.
  lemma EndsIff(world: World)
    requires Healthy(world)
    ensures AlwaysEnds(world) <==> Acyclic(world)
  {
    hide Healthy, Bounded, Cycle, AllReady;
    if Acyclic(world) {
      forall ps | AllReady(world, ps) ensures exists bound: nat :: Bounded(world, ps, bound) {
        AcyclicEnds(world, ps);
      }
    } else {
      var c :| Cycle(world, c);
      hide Acyclic;
      CycleBreaksBound(world, c, 0);
      var ps := [Lost(world, c[0])];
      forall bound: nat ensures !Bounded(world, ps, bound) {
        CycleBreaksBound(world, c, bound);
      }
    }
  }
}

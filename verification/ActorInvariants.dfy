// What every step of the actor system keeps.
module ActorInvariants {
  import opened Vocabulary
  import opened ActorModel

  // How many envelopes of `mailbox` carry token `t`.
  function InMail(mailbox: seq<Envelope>, t: Token): nat {
    if mailbox == [] then 0
    else InMail(mailbox[..|mailbox| - 1], t) + if mailbox[|mailbox| - 1].reply == Some(t) then 1 else 0
  }

  // How many places of one actor hold token `t`: its mailbox and its context.
  function InActor(a: Actor, t: Token): nat {
    InMail(a.mailbox, t) + if a.reply == Some(t) then 1 else 0
  }

  function InActors(actors: seq<Actor>, t: Token): nat {
    if actors == [] then 0
    else InActors(actors[..|actors| - 1], t) + InActor(actors[|actors| - 1], t)
  }

  // How many places hold token `t`, counting its use or loss.
  function Places(s: Sys, t: Token): nat {
    InActors(s.actors, t) + if t in s.outcomes then 1 else 0
  }

  function Received(turns: seq<Turn>): seq<Envelope> {
    seq(|turns|, k requires 0 <= k < |turns| => turns[k].env)
  }

  function Sent(arrivals: seq<Arrival>): seq<Envelope> {
    seq(|arrivals|, k requires 0 <= k < |arrivals| => arrivals[k].env)
  }

  // ----- the invariant

  // A reply token is never copied and never lost.
  ghost predicate Linear(s: Sys) {
    forall t: Token :: Places(s, t) == if t < |s.calls| then 1 else 0
  }

  // It stays with the actor that was called, and only its caller waits for it.
  ghost predicate Addressed(s: Sys) {
    && (forall t | 0 <= t < |s.calls| :: s.calls[t].target < |s.actors|)
    && (forall i, t: Token {:trigger InActor(s.actors[i], t)} | 0 <= i < |s.actors| && InActor(s.actors[i], t) > 0 ::
          t < |s.calls| && s.calls[t].target == i)
    && (forall i | 0 <= i < |s.actors| && s.actors[i].pc.Blocked? ::
          s.actors[i].pc.token < |s.calls| && s.calls[s.actors[i].pc.token].caller == ByActor(i))
  }

  // What became of the token that turn `k` of actor `a` was given.
  predicate TurnOk(s: Sys, i: nat, k: nat)
    requires i < |s.actors| && k < |s.actors[i].turns|
  {
    var a := s.actors[i];
    var turn := a.turns[k];
    turn.env.reply.Some? ==>
      var t := turn.env.reply.value;
      && t < |s.calls| && s.calls[t].target == i
      && if turn.replies != [] then t in s.outcomes && s.outcomes[t] == Answer(turn.replies[0], k)
         else if k == |a.turns| - 1 && !a.pc.Gone? then a.reply == Some(t)
         else t in s.outcomes && s.outcomes[t] == Hangup
  }

  predicate Answered(s: Sys, t: Token, msg: Message, k: nat) {
    && t < |s.calls| && s.calls[t].target < |s.actors|
    && var a := s.actors[s.calls[t].target];
       && k < |a.turns| && a.turns[k].env.reply == Some(t)
       && a.turns[k].replies != [] && a.turns[k].replies[0] == msg
  }

  // An answer is the first reply of the turn that was given the token, and of no other.
  ghost predicate FirstReply(s: Sys) {
    && (forall i, k | 0 <= i < |s.actors| && 0 <= k < |s.actors[i].turns| :: TurnOk(s, i, k))
    && (forall t | t in s.outcomes && s.outcomes[t].Answer? ::
          Answered(s, t, s.outcomes[t].msg, s.outcomes[t].turn))
    && (forall i | 0 <= i < |s.actors| && s.actors[i].reply.Some? ::
          var turns := s.actors[i].turns;
          turns != [] && turns[|turns| - 1].env.reply == s.actors[i].reply && turns[|turns| - 1].replies == [])
  }

  // A thread that is inside a handler is in a turn, whose sender the context names; one that is gone
  // has nothing left.
  predicate ActorOk(a: Actor) {
    && (a.pc.Running? || a.pc.Blocked? ==> a.turns != [] && a.sender == a.turns[|a.turns| - 1].env.sender)
    && (a.pc.Unborn? ==> a.turns == [] && a.reply.None?)
    && (a.pc.Gone? ==> a.mailbox == [] && a.reply.None?)
    && (if a.pc.Gone? then Received(a.turns) <= Sent(a.arrivals)
        else Received(a.turns) + a.mailbox == Sent(a.arrivals))
  }

  ghost predicate AllOk(s: Sys) {
    forall i | 0 <= i < |s.actors| :: ActorOk(s.actors[i])
  }

  // init() sends Start to each actor just before it spawns its thread.
  ghost predicate InOrder(s: Sys) {
    && s.spawned <= s.booted <= s.spawned + 1
    && s.booted <= |s.actors|
    && (forall i | 0 <= i < |s.actors| :: s.actors[i].pc.Unborn? <==> s.spawned <= i)
    && (forall i | 0 <= i < |s.actors| :: StartsAfter(s.actors[i].arrivals, i, i < s.booted))
    && (forall i, p | 0 <= i < |s.actors| && s.booted <= i && 0 <= p < |s.actors[i].arrivals| ::
          s.actors[i].arrivals[p].origin.From? ==> s.actors[i].arrivals[p].origin.actor < s.spawned)
  }

  // What the actor itself or a later one has sent comes after Start, which comes once, when `booted`.
  ghost predicate StartsAfter(arrivals: seq<Arrival>, i: nat, booted: bool) {
    && (booted <==> exists q :: 0 <= q < |arrivals| && arrivals[q].origin.Boot?)
    && (forall p, q | 0 <= p < |arrivals| && 0 <= q < |arrivals| ::
          arrivals[p].origin.Boot? && arrivals[q].origin.Boot? ==> p == q)
    && (forall p, q | 0 <= p < q < |arrivals| && arrivals[q].origin.Boot? && arrivals[p].origin.From? ::
          arrivals[p].origin.actor < i)
  }

  // A token arrives at most once, at the actor that was called.
  ghost predicate Stamped(s: Sys) {
    forall i | 0 <= i < |s.actors| :: Distinct(s.actors[i].arrivals, |s.calls|)
  }

  ghost predicate Distinct(arrivals: seq<Arrival>, bound: nat) {
    && (forall p | 0 <= p < |arrivals| && arrivals[p].env.reply.Some? :: arrivals[p].env.reply.value < bound)
    && (forall p, q | 0 <= p < q < |arrivals| && arrivals[p].env.reply.Some? ::
          arrivals[p].env.reply != arrivals[q].env.reply)
  }

  ghost predicate Inv(s: Sys) {
    && Stamped(s) && Linear(s) && Addressed(s) && FirstReply(s) && InOrder(s)
    && AllOk(s)
  }

  // ----- counting tokens

  lemma InMailSnoc(mailbox: seq<Envelope>, env: Envelope, t: Token)
    ensures InMail(mailbox + [env], t) == InMail(mailbox, t) + if env.reply == Some(t) then 1 else 0
  {
    assert (mailbox + [env])[..|mailbox|] == mailbox;
  }

  lemma {:induction false} InMailTail(mailbox: seq<Envelope>, t: Token)
    requires mailbox != []
    ensures InMail(mailbox, t) == InMail(mailbox[1..], t) + if mailbox[0].reply == Some(t) then 1 else 0
  {
    var n := |mailbox| - 1;
    if n > 0 {
      InMailTail(mailbox[..n], t);
      assert mailbox[1..][..n - 1] == mailbox[..n][1..];
    }
  }

  lemma {:induction false} InMailIn(mailbox: seq<Envelope>, t: Token)
    ensures t in Tokens(mailbox) <==> InMail(mailbox, t) > 0
  {
    if mailbox != [] {
      var n := |mailbox| - 1;
      InMailIn(mailbox[..n], t);
      assert forall env :: env in mailbox <==> env in mailbox[..n] || env == mailbox[n];
    }
  }

  lemma {:induction false} InActorsUpdate(actors: seq<Actor>, i: nat, a: Actor, t: Token)
    requires i < |actors|
    ensures InActors(actors[i := a], t) + InActor(actors[i], t) == InActors(actors, t) + InActor(a, t)
  {
    var n := |actors| - 1;
    if i == n {
      assert actors[i := a][..n] == actors[..n];
    } else {
      assert actors[i := a][..n] == actors[..n][i := a];
      InActorsUpdate(actors[..n], i, a, t);
    }
  }

  lemma {:induction false} InActorsAt(actors: seq<Actor>, i: nat, t: Token)
    requires i < |actors|
    ensures InActor(actors[i], t) <= InActors(actors, t)
  {
    if i < |actors| - 1 {
      InActorsAt(actors[..|actors| - 1], i, t);
    }
  }

  lemma {:induction false} InActorsWhere(actors: seq<Actor>, t: Token) returns (i: nat)
    requires InActors(actors, t) > 0
    ensures i < |actors| && InActor(actors[i], t) > 0
  {
    var n := |actors| - 1;
    if InActor(actors[n], t) > 0 {
      i := n;
    } else {
      i := InActorsWhere(actors[..n], t);
    }
  }

  // ----- Linear and Addressed

  lemma DeliverCounts(a: Actor, origin: Origin, env: Envelope, t: Token)
    ensures InActor(Deliver(a, origin, env), t)
            == InActor(a, t) + if !a.pc.Gone? && env.reply == Some(t) then 1 else 0
  {
    InMailSnoc(a.mailbox, env, t);
  }

  lemma SendCounts(s: Sys, j: nat, origin: Origin, env: Envelope, t: Token)
    ensures var s' := SendTo(s, j, origin, env);
            InActors(s'.actors, t) == InActors(s.actors, t)
              + if j < |s.actors| && !s.actors[j].pc.Gone? && env.reply == Some(t) then 1 else 0
  {
    if j < |s.actors| {
      DeliverCounts(s.actors[j], origin, env, t);
      InActorsUpdate(s.actors, j, Deliver(s.actors[j], origin, env), t);
    }
  }

  lemma AskKeepsLinear(s: Sys, caller: Caller, origin: Origin, j: nat, msg: Message, sender: Option<Ref>)
    requires Linear(s) && j < |s.actors|
    ensures Linear(Ask(s, caller, origin, j, msg, sender))
  {
    var n := |s.calls|;
    var s' := Ask(s, caller, origin, j, msg, sender);
    forall t: Token ensures Places(s', t) == if t < |s'.calls| then 1 else 0 {
      assert Places(s, t) == if t < |s.calls| then 1 else 0;
      SendCounts(s.(calls := s'.calls), j, origin, Envelope(msg, sender, Some(n)), t);
    }
  }

  // An actor takes another pc; the tokens do not move.
  lemma SameCounts(s: Sys, i: nat, a: Actor, t: Token)
    requires i < |s.actors| && a.mailbox == s.actors[i].mailbox && a.reply == s.actors[i].reply
    ensures InActors(Put(s, i, a).actors, t) == InActors(s.actors, t)
  {
    InActorsUpdate(s.actors, i, a, t);
  }

  lemma TestKeepsLinear(s: Sys, i: nat)
    requires Linear(s) && Enabled(s, Test(i))
    ensures Linear(TestStep(s, i))
  {
    var a, s' := s.actors[i], TestStep(s, i);
    forall t: Token ensures Places(s', t) == if t < |s'.calls| then 1 else 0 {
      assert Places(s, t) == if t < |s.calls| then 1 else 0;
      InActorsUpdate(s.actors, i, s'.actors[i], t);
      InActorsAt(s.actors, i, t);
      InMailIn(a.mailbox, t);
    }
  }

  lemma ReceiveKeepsLinear(s: Sys, i: nat)
    requires Linear(s) && Enabled(s, Receive(i))
    ensures Linear(ReceiveStep(s, i))
  {
    var a, s' := s.actors[i], ReceiveStep(s, i);
    forall t: Token ensures Places(s', t) == if t < |s'.calls| then 1 else 0 {
      assert Places(s, t) == if t < |s.calls| then 1 else 0;
      InActorsUpdate(s.actors, i, s'.actors[i], t);
      InActorsAt(s.actors, i, t);
      InMailTail(a.mailbox, t);
    }
  }

  lemma ReplyKeepsLinear(s: Sys, i: nat, msg: Message)
    requires Linear(s) && Enabled(s, Reply(i, msg))
    ensures Linear(ReplyStep(s, i, msg))
  {
    var a, s' := s.actors[i], ReplyStep(s, i, msg);
    var mid := Put(s, i, NoteReply(a, msg));
    forall t: Token ensures Places(s', t) == if t < |s'.calls| then 1 else 0 {
      assert Places(s, t) == if t < |s.calls| then 1 else 0;
      InActorsUpdate(s.actors, i, mid.actors[i], t);
      InActorsAt(s.actors, i, t);
      if a.reply.None? && a.sender.Some? && a.sender.value.Local? {
        SendCounts(mid, a.sender.value.box, From(i), Envelope(msg, Some(Local(i, a.name)), None), t);
      }
    }
  }

  lemma PutKeepsLinear(s: Sys, i: nat, a: Actor)
    requires Linear(s) && i < |s.actors| && a.mailbox == s.actors[i].mailbox && a.reply == s.actors[i].reply
    ensures Linear(Put(s, i, a))
  {
    forall t: Token ensures Places(Put(s, i, a), t) == Places(s, t) {
      SameCounts(s, i, a, t);
    }
  }

  lemma SendKeepsLinear(s: Sys, j: nat, origin: Origin, env: Envelope)
    requires Linear(s) && env.reply.None?
    ensures Linear(SendTo(s, j, origin, env))
  {
    forall t: Token ensures Places(SendTo(s, j, origin, env), t) == Places(s, t) {
      SendCounts(s, j, origin, env, t);
    }
  }

  lemma LinearDoesNotRead(s: Sys, s': Sys)
    requires Linear(s) && s'.actors == s.actors && s'.calls == s.calls && s'.outcomes == s.outcomes
    ensures Linear(s')
  {
    forall t: Token ensures Places(s', t) == Places(s, t) {}
  }

  lemma StepKeepsLinear(s: Sys, step: Step)
    requires Linear(s) && Enabled(s, step)
    ensures Linear(Apply(s, step))
  {
    hide Linear, Deliver, TestStep, ReceiveStep, ReplyStep, Ask;
    match step
    case SendBoot =>
      var env := Envelope(Start, None, None);
      SendKeepsLinear(s, s.booted, Boot, env);
      LinearDoesNotRead(SendTo(s, s.booted, Boot, env), Apply(s, step));
    case Spawn =>
      var a := s.actors[s.spawned].(pc := Top);
      PutKeepsLinear(s, s.spawned, a);
      LinearDoesNotRead(Put(s, s.spawned, a), Apply(s, step));
    case Post(j, msg, sender) => SendKeepsLinear(s, j, Outside, Envelope(msg, sender, None));
    case CallIn(j, msg, sender) => AskKeepsLinear(s, ByOutside, Outside, j, msg, sender);
    case Stop(i) => PutKeepsLinear(s, i, s.actors[i].(running := false));
    case Test(i) => TestKeepsLinear(s, i);
    case Receive(i) => ReceiveKeepsLinear(s, i);
    case Send(i, j, msg, sender) => SendKeepsLinear(s, j, From(i), Envelope(msg, sender, None));
    case Reply(i, msg) => ReplyKeepsLinear(s, i, msg);
    case Call(i, j, msg, sender) =>
      AskKeepsLinear(s, ByActor(i), From(i), j, msg, sender);
      var s' := Ask(s, ByActor(i), From(i), j, msg, sender);
      AskKeepsActors(s, ByActor(i), From(i), j, msg, sender);
      PutKeepsLinear(s', i, s'.actors[i].(pc := Blocked(|s.calls|)));
    case Return(i) => PutKeepsLinear(s, i, s.actors[i].(pc := Running));
    case Finish(i) => PutKeepsLinear(s, i, s.actors[i].(pc := Top));
  }

  lemma AskKeepsActors(s: Sys, caller: Caller, origin: Origin, j: nat, msg: Message, sender: Option<Ref>)
    requires j < |s.actors|
    ensures var s' := Ask(s, caller, origin, j, msg, sender);
            && |s'.actors| == |s.actors| && s'.calls == s.calls + [CallRecord(caller, j, msg)]
            && forall i | 0 <= i < |s.actors| && i != j :: s'.actors[i] == s.actors[i]
  {
  }

  // `s'` has the calls of `s` and at most one more, and no actor of `s'` holds or awaits a token
  // that it did not hold or await before, except that of the new call.
  ghost predicate NoNewHolder(s: Sys, s': Sys) {
    && |s'.actors| == |s.actors| && |s.calls| <= |s'.calls| <= |s.calls| + 1
    && s'.calls[..|s.calls|] == s.calls
    && (|s'.calls| > |s.calls| ==> s'.calls[|s.calls|].target < |s.actors|)
    && (forall i, t: Token {:trigger InActor(s'.actors[i], t)} | 0 <= i < |s.actors| && InActor(s'.actors[i], t) > 0 ::
          InActor(s.actors[i], t) > 0 || (t == |s.calls| < |s'.calls| && s'.calls[t].target == i))
    && (forall i | 0 <= i < |s.actors| && s'.actors[i].pc.Blocked? ::
          var t := s'.actors[i].pc.token;
          s.actors[i].pc == Blocked(t) || (t == |s.calls| < |s'.calls| && s'.calls[t].caller == ByActor(i)))
  }

  lemma AddressedFrame(s: Sys, s': Sys)
    requires Addressed(s) && NoNewHolder(s, s')
    ensures Addressed(s')
  {
    assert forall t | 0 <= t < |s.calls| :: s'.calls[t] == s'.calls[..|s.calls|][t] == s.calls[t];
  }

  lemma NoNewHolderTrans(s: Sys, mid: Sys, s': Sys)
    requires NoNewHolder(s, mid) && NoNewHolder(mid, s') && (mid.calls == s.calls || s'.calls == mid.calls)
    ensures NoNewHolder(s, s')
  {
  }

  lemma PutNoNewHolder(s: Sys, s': Sys, i: nat)
    requires i < |s.actors| == |s'.actors| && s'.calls == s.calls && s'.actors == s.actors[i := s'.actors[i]]
    requires forall t: Token :: InActor(s'.actors[i], t) <= InActor(s.actors[i], t)
    requires s'.actors[i].pc.Blocked? ==> s'.actors[i].pc == s.actors[i].pc
    ensures NoNewHolder(s, s')
  {
  }

  lemma SendNoNewHolder(s: Sys, s': Sys, j: nat, origin: Origin, env: Envelope)
    requires env.reply.None? && s'.calls == s.calls && s'.actors == SendTo(s, j, origin, env).actors
    ensures NoNewHolder(s, s')
  {
    if j < |s.actors| {
      forall t: Token ensures InActor(s'.actors[j], t) <= InActor(s.actors[j], t) {
        DeliverCounts(s.actors[j], origin, env, t);
      }
      PutNoNewHolder(s, s', j);
    }
  }

  lemma AskNoNewHolder(s: Sys, caller: Caller, origin: Origin, j: nat, msg: Message, sender: Option<Ref>)
    requires j < |s.actors|
    ensures NoNewHolder(s, Ask(s, caller, origin, j, msg, sender))
  {
    var s' := Ask(s, caller, origin, j, msg, sender);
    forall t: Token | t != |s.calls| ensures InActor(s'.actors[j], t) <= InActor(s.actors[j], t) {
      DeliverCounts(s.actors[j], origin, Envelope(msg, sender, Some(|s.calls|)), t);
    }
  }

  lemma LeavesNoNewHolder(s: Sys, i: nat)
    requires i < |s.actors|
    ensures Enabled(s, Test(i)) ==> NoNewHolder(s, TestStep(s, i))
    ensures Enabled(s, Receive(i)) ==> NoNewHolder(s, ReceiveStep(s, i))
  {
    var a := s.actors[i];
    if Enabled(s, Test(i)) {
      PutNoNewHolder(s, TestStep(s, i), i);
    } else if Enabled(s, Receive(i)) {
      forall t: Token ensures InActor(BeginTurn(a), t) <= InActor(a, t) {
        InMailTail(a.mailbox, t);
      }
      PutNoNewHolder(s, ReceiveStep(s, i), i);
    }
  }

  lemma ReplyNoNewHolder(s: Sys, i: nat, msg: Message)
    requires Enabled(s, Reply(i, msg))
    ensures NoNewHolder(s, ReplyStep(s, i, msg))
  {
    var a, s' := s.actors[i], ReplyStep(s, i, msg);
    var mid := Put(s, i, NoteReply(a, msg));
    PutNoNewHolder(s, mid, i);
    if a.reply.None? && a.sender.Some? && a.sender.value.Local? {
      SendNoNewHolder(mid, s', a.sender.value.box, From(i), Envelope(msg, Some(Local(i, a.name)), None));
      NoNewHolderTrans(s, mid, s');
    }
  }

  lemma CallNoNewHolder(s: Sys, i: nat, j: nat, msg: Message, sender: Option<Ref>)
    requires Enabled(s, Call(i, j, msg, sender))
    ensures NoNewHolder(s, CallStep(s, i, j, msg, sender))
  {
    AskNoNewHolder(s, ByActor(i), From(i), j, msg, sender);
    var mid, s' := Ask(s, ByActor(i), From(i), j, msg, sender), CallStep(s, i, j, msg, sender);
    forall k, t: Token | 0 <= k < |s.actors| && InActor(s'.actors[k], t) > 0
      ensures InActor(mid.actors[k], t) > 0
    {
      assert k != i ==> s'.actors[k] == mid.actors[k];
    }
    assert s'.calls == mid.calls;
  }

  lemma StepNoNewHolder(s: Sys, step: Step)
    requires Enabled(s, step)
    ensures NoNewHolder(s, Apply(s, step))
  {
    hide NoNewHolder, Deliver, TestStep, ReceiveStep, ReplyStep, CallStep, Ask;
    var s' := Apply(s, step);
    match step
    case SendBoot => SendNoNewHolder(s, s', s.booted, Boot, Envelope(Start, None, None));
    case Spawn => PutNoNewHolder(s, s', s.spawned);
    case Post(j, msg, sender) => SendNoNewHolder(s, s', j, Outside, Envelope(msg, sender, None));
    case CallIn(j, msg, sender) => AskNoNewHolder(s, ByOutside, Outside, j, msg, sender);
    case Stop(i) => PutNoNewHolder(s, s', i);
    case Test(i) => LeavesNoNewHolder(s, i);
    case Receive(i) => LeavesNoNewHolder(s, i);
    case Send(i, j, msg, sender) => SendNoNewHolder(s, s', j, From(i), Envelope(msg, sender, None));
    case Reply(i, msg) => ReplyNoNewHolder(s, i, msg);
    case Call(i, j, msg, sender) => CallNoNewHolder(s, i, j, msg, sender);
    case Return(i) => PutNoNewHolder(s, s', i);
    case Finish(i) => PutNoNewHolder(s, s', i);
  }

  // ----- FirstReply

  // Nothing that FirstReply speaks about changes, except for calls that start or are hung up.
  ghost predicate Quiet(s: Sys, s': Sys) {
    && |s'.actors| == |s.actors| && s.calls <= s'.calls
    && (forall i | 0 <= i < |s.actors| ::
          && s'.actors[i].turns == s.actors[i].turns && s'.actors[i].reply == s.actors[i].reply
          && s'.actors[i].pc.Gone? == s.actors[i].pc.Gone?)
    && (forall t | t in s.outcomes :: t in s'.outcomes && s'.outcomes[t] == s.outcomes[t])
    && (forall t | t in s'.outcomes && t !in s.outcomes :: s'.outcomes[t] == Hangup)
  }

  lemma SendIsQuiet(s: Sys, s': Sys, j: nat, origin: Origin, env: Envelope)
    requires s'.actors == SendTo(s, j, origin, env).actors && s'.calls == s.calls && s'.outcomes == s.outcomes
    ensures Quiet(s, s')
  {
  }

  lemma PutIsQuiet(s: Sys, s': Sys, i: nat, a: Actor)
    requires i < |s.actors| && s'.actors == s.actors[i := a] && s'.calls == s.calls && s'.outcomes == s.outcomes
    requires a.turns == s.actors[i].turns && a.reply == s.actors[i].reply
    requires a.pc.Gone? == s.actors[i].pc.Gone?
    ensures Quiet(s, s')
  {
  }

  lemma AskIsQuiet(s: Sys, caller: Caller, origin: Origin, j: nat, msg: Message, sender: Option<Ref>)
    requires Linear(s) && j < |s.actors|
    ensures Quiet(s, Ask(s, caller, origin, j, msg, sender))
  {
    assert Places(s, |s.calls|) == 0;
  }

  lemma CallIsQuiet(s: Sys, i: nat, j: nat, msg: Message, sender: Option<Ref>)
    requires Linear(s) && Enabled(s, Call(i, j, msg, sender))
    ensures Quiet(s, CallStep(s, i, j, msg, sender))
  {
    AskIsQuiet(s, ByActor(i), From(i), j, msg, sender);
  }

  lemma FirstReplyFrame(s: Sys, s': Sys)
    requires FirstReply(s) && Quiet(s, s')
    ensures FirstReply(s')
  {
    forall i, k | 0 <= i < |s'.actors| && 0 <= k < |s'.actors[i].turns| ensures TurnOk(s', i, k) {
      assert TurnOk(s, i, k);
    }
    forall t | t in s'.outcomes && s'.outcomes[t].Answer?
      ensures Answered(s', t, s'.outcomes[t].msg, s'.outcomes[t].turn)
    {
      assert Answered(s, t, s.outcomes[t].msg, s.outcomes[t].turn);
    }
  }

  // A token that an actor holds is not used up yet.
  lemma HeldIsOpen(s: Sys, i: nat, t: Token)
    requires Linear(s) && i < |s.actors| && InActor(s.actors[i], t) > 0
    ensures t !in s.outcomes && InActor(s.actors[i], t) == 1 && t < |s.calls|
  {
    assert Places(s, t) == if t < |s.calls| then 1 else 0;
    InActorsAt(s.actors, i, t);
  }

  lemma ExitKeepsFirstReply(s: Sys, i: nat)
    requires Linear(s) && FirstReply(s) && Enabled(s, Test(i)) && !s.actors[i].running
    ensures FirstReply(TestStep(s, i))
  {
    var s' := TestStep(s, i);
    var a := s.actors[i];
    forall t | t in Carried(a) ensures t !in s.outcomes {
      InMailIn(a.mailbox, t);
      HeldIsOpen(s, i, t);
    }
    forall j, k | 0 <= j < |s'.actors| && 0 <= k < |s'.actors[j].turns| ensures TurnOk(s', j, k) {
      assert TurnOk(s, j, k);
    }
    forall t | t in s'.outcomes && s'.outcomes[t].Answer?
      ensures Answered(s', t, s'.outcomes[t].msg, s'.outcomes[t].turn)
    {
      assert Answered(s, t, s.outcomes[t].msg, s.outcomes[t].turn);
    }
  }

  lemma ReceiveKeepsFirstReply(s: Sys, i: nat)
    requires Linear(s) && Addressed(s) && FirstReply(s) && Enabled(s, Receive(i))
    ensures FirstReply(ReceiveStep(s, i))
  {
    var s' := ReceiveStep(s, i);
    var a := s.actors[i];
    var env := a.mailbox[0];
    if env.reply.Some? {
      InMailTail(a.mailbox, env.reply.value);
      HeldIsOpen(s, i, env.reply.value);
    }
    if a.reply.Some? {
      HeldIsOpen(s, i, a.reply.value);
    }
    forall j, k | 0 <= j < |s'.actors| && 0 <= k < |s'.actors[j].turns| ensures TurnOk(s', j, k) {
      if !(j == i && k == |a.turns|) {
        assert TurnOk(s, j, k);
      }
    }
    forall t | t in s'.outcomes && s'.outcomes[t].Answer?
      ensures Answered(s', t, s'.outcomes[t].msg, s'.outcomes[t].turn)
    {
      assert Answered(s, t, s.outcomes[t].msg, s.outcomes[t].turn);
    }
  }

  lemma NoteKeepsFirstReply(s: Sys, s': Sys, i: nat, msg: Message)
    requires Linear(s) && Addressed(s) && FirstReply(s) && Enabled(s, Reply(i, msg))
    requires var a := s.actors[i];
             && s'.actors == s.actors[i := NoteReply(a, msg)] && s'.calls == s.calls
             && s'.outcomes == if a.reply.Some? then s.outcomes[a.reply.value := Answer(msg, |a.turns| - 1)]
                               else s.outcomes
    ensures FirstReply(s')
  {
    var a := s.actors[i];
    if a.reply.Some? {
      HeldIsOpen(s, i, a.reply.value);
    }
    forall j, k | 0 <= j < |s'.actors| && 0 <= k < |s'.actors[j].turns| ensures TurnOk(s', j, k) {
      assert TurnOk(s, j, k);
    }
    forall t | t in s'.outcomes && s'.outcomes[t].Answer?
      ensures Answered(s', t, s'.outcomes[t].msg, s'.outcomes[t].turn)
    {
      if t in s.outcomes {
        assert Answered(s, t, s.outcomes[t].msg, s.outcomes[t].turn);
      }
    }
  }

  lemma ReplyKeepsFirstReply(s: Sys, i: nat, msg: Message)
    requires Linear(s) && Addressed(s) && FirstReply(s) && Enabled(s, Reply(i, msg))
    ensures FirstReply(ReplyStep(s, i, msg))
  {
    var a, s' := s.actors[i], ReplyStep(s, i, msg);
    if a.reply.Some? {
      NoteKeepsFirstReply(s, s', i, msg);
    } else {
      var mid := Put(s, i, NoteReply(a, msg));
      NoteKeepsFirstReply(s, mid, i, msg);
      FirstReplyFrame(mid, s');
    }
  }

  lemma StepIsQuiet(s: Sys, step: Step)
    requires Linear(s) && InOrder(s) && Enabled(s, step)
    requires !step.Receive? && !step.Reply? && (step.Test? ==> s.actors[step.actor].running)
    ensures Quiet(s, Apply(s, step))
  {
    hide Linear, Quiet, Deliver, Ask, CallStep;
    var s' := Apply(s, step);
    match step
    case SendBoot => SendIsQuiet(s, s', s.booted, Boot, Envelope(Start, None, None));
    case Spawn => PutIsQuiet(s, s', s.spawned, s'.actors[s.spawned]);
    case Post(j, msg, sender) => SendIsQuiet(s, s', j, Outside, Envelope(msg, sender, None));
    case CallIn(j, msg, sender) => AskIsQuiet(s, ByOutside, Outside, j, msg, sender);
    case Stop(i) => PutIsQuiet(s, s', i, s'.actors[i]);
    case Test(i) => PutIsQuiet(s, s', i, s'.actors[i]);
    case Send(i, j, msg, sender) => SendIsQuiet(s, s', j, From(i), Envelope(msg, sender, None));
    case Call(i, j, msg, sender) => CallIsQuiet(s, i, j, msg, sender);
    case Return(i) => PutIsQuiet(s, s', i, s'.actors[i]);
    case Finish(i) => PutIsQuiet(s, s', i, s'.actors[i]);
  }

  lemma StepKeepsFirstReply(s: Sys, step: Step)
    requires Linear(s) && Addressed(s) && FirstReply(s) && InOrder(s) && Enabled(s, step)
    ensures FirstReply(Apply(s, step))
  {
    hide Linear, Addressed, FirstReply, InOrder, Quiet;
    if step.Receive? {
      ReceiveKeepsFirstReply(s, step.actor);
    } else if step.Reply? {
      ReplyKeepsFirstReply(s, step.actor, step.msg);
    } else if step.Test? && !s.actors[step.actor].running {
      ExitKeepsFirstReply(s, step.actor);
    } else {
      StepIsQuiet(s, step);
      FirstReplyFrame(s, Apply(s, step));
    }
  }

  // ----- ActorOk

  lemma SentSnoc(arrivals: seq<Arrival>, x: Arrival)
    ensures Sent(arrivals + [x]) == Sent(arrivals) + [x.env]
  {
  }

  lemma DeliverOk(a: Actor, origin: Origin, env: Envelope)
    requires ActorOk(a)
    ensures ActorOk(Deliver(a, origin, env))
  {
    SentSnoc(a.arrivals, Arrival(origin, env));
  }

  lemma BeginTurnOk(a: Actor)
    requires ActorOk(a) && a.pc.Receiving? && a.mailbox != []
    ensures ActorOk(BeginTurn(a))
  {
    var b := BeginTurn(a);
    assert Received(b.turns) == Received(a.turns) + [a.mailbox[0]];
  }

  lemma NoteReplyOk(a: Actor, msg: Message)
    requires ActorOk(a) && a.pc.Running?
    ensures ActorOk(NoteReply(a, msg))
  {
    assert Received(NoteReply(a, msg).turns) == Received(a.turns);
  }

  lemma SendAllOk(s: Sys, j: nat, origin: Origin, env: Envelope)
    requires AllOk(s)
    ensures AllOk(SendTo(s, j, origin, env))
  {
    if j < |s.actors| {
      DeliverOk(s.actors[j], origin, env);
    }
  }

  lemma PutAllOk(s: Sys, s': Sys, i: nat, a: Actor)
    requires AllOk(s) && i < |s.actors| && s'.actors == s.actors[i := a] && ActorOk(a)
    ensures AllOk(s')
  {
  }

  lemma AllOkFrame(s: Sys, s': Sys)
    requires AllOk(s) && s'.actors == s.actors
    ensures AllOk(s')
  {
  }

  lemma AskAllOk(s: Sys, caller: Caller, origin: Origin, j: nat, msg: Message, sender: Option<Ref>)
    requires AllOk(s) && j < |s.actors|
    ensures AllOk(Ask(s, caller, origin, j, msg, sender))
  {
    DeliverOk(s.actors[j], origin, Envelope(msg, sender, Some(|s.calls|)));
  }

  lemma TurnAllOk(s: Sys, step: Step)
    requires AllOk(s) && Enabled(s, step) && (step.Test? || step.Receive? || step.Reply? || step.Call?)
    ensures AllOk(Apply(s, step))
  {
    var i := step.actor;
    var a, s' := s.actors[i], Apply(s, step);
    match step
    case Test(_) =>
    case Receive(_) => BeginTurnOk(a);
    case Reply(_, msg) =>
      NoteReplyOk(a, msg);
      var mid := Put(s, i, NoteReply(a, msg));
      if a.reply.None? && a.sender.Some? && a.sender.value.Local? {
        SendAllOk(mid, a.sender.value.box, From(i), Envelope(msg, Some(Local(i, a.name)), None));
      }
    case Call(_, j, msg, sender) => AskAllOk(s, ByActor(i), From(i), j, msg, sender);
  }

  lemma StepKeepsAllOk(s: Sys, step: Step)
    requires AllOk(s) && InOrder(s) && Enabled(s, step)
    ensures AllOk(Apply(s, step))
  {
    if step.Test? || step.Receive? || step.Reply? || step.Call? {
      TurnAllOk(s, step);
    } else {
      hide AllOk, Deliver, Ask, TestStep, ReceiveStep, ReplyStep, CallStep;
      var s' := Apply(s, step);
      match step
      case SendBoot =>
        SendAllOk(s, s.booted, Boot, Envelope(Start, None, None));
        AllOkFrame(SendTo(s, s.booted, Boot, Envelope(Start, None, None)), s');
      case Spawn => PutAllOk(s, s', s.spawned, s'.actors[s.spawned]);
      case Post(j, msg, sender) => SendAllOk(s, j, Outside, Envelope(msg, sender, None));
      case CallIn(j, msg, sender) => AskAllOk(s, ByOutside, Outside, j, msg, sender);
      case Stop(i) => PutAllOk(s, s', i, s'.actors[i]);
      case Send(i, j, msg, sender) => SendAllOk(s, j, From(i), Envelope(msg, sender, None));
      case Return(i) => PutAllOk(s, s', i, s'.actors[i]);
      case Finish(i) => PutAllOk(s, s', i, s'.actors[i]);
      case _ => assert false;
    }
  }

  // ----- InOrder

  lemma LaterArrival(arrivals: seq<Arrival>, x: Arrival, i: nat, booted: bool)
    requires StartsAfter(arrivals, i, booted) && !x.origin.Boot?
    ensures StartsAfter(arrivals + [x], i, booted)
  {
    var all := arrivals + [x];
    if booted {
      var q :| 0 <= q < |arrivals| && arrivals[q].origin.Boot?;
      assert all[q].origin.Boot?;
    }
  }

  lemma BootArrival(arrivals: seq<Arrival>, x: Arrival, i: nat)
    requires StartsAfter(arrivals, i, false) && x.origin.Boot?
    requires forall p | 0 <= p < |arrivals| && arrivals[p].origin.From? :: arrivals[p].origin.actor < i
    ensures StartsAfter(arrivals + [x], i, true)
  {
    var all := arrivals + [x];
    assert all[|arrivals|].origin.Boot?;
    assert forall p | 0 <= p < |arrivals| :: !arrivals[p].origin.Boot?;
  }

  // The step does not touch init()'s progress, and what arrives comes from outside or from a running
  // actor.
  ghost predicate Ordinary(s: Sys, s': Sys) {
    && |s'.actors| == |s.actors| && s'.booted == s.booted && s'.spawned == s.spawned
    && |s.calls| <= |s'.calls|
    && (forall i | 0 <= i < |s.actors| :: s'.actors[i].pc.Unborn? == s.actors[i].pc.Unborn?)
    && (forall i | 0 <= i < |s.actors| ::
          || s'.actors[i].arrivals == s.actors[i].arrivals
          || exists x: Arrival ::
               && s'.actors[i].arrivals == s.actors[i].arrivals + [x] && !x.origin.Boot?
               && (x.origin.From? ==> x.origin.actor < s.spawned)
               && (x.env.reply.None? || (x.env.reply == Some(|s.calls|) && |s.calls| < |s'.calls|)))
  }

  lemma OrdinaryKeepsStamped(s: Sys, s': Sys)
    requires Stamped(s) && Ordinary(s, s')
    ensures Stamped(s')
  {
    forall i | 0 <= i < |s'.actors| ensures Distinct(s'.actors[i].arrivals, |s'.calls|) {
      assert Distinct(s.actors[i].arrivals, |s.calls|);
    }
  }

  lemma OrdinaryKeepsInOrder(s: Sys, s': Sys)
    requires InOrder(s) && Ordinary(s, s')
    ensures InOrder(s')
  {
    forall i | 0 <= i < |s'.actors|
      ensures StartsAfter(s'.actors[i].arrivals, i, i < s'.booted)
      ensures s.booted <= i ==> forall p | 0 <= p < |s'.actors[i].arrivals| && s'.actors[i].arrivals[p].origin.From? ::
                                  s'.actors[i].arrivals[p].origin.actor < s.spawned
    {
      assert StartsAfter(s.actors[i].arrivals, i, i < s.booted);
      if s'.actors[i].arrivals != s.actors[i].arrivals {
        var x: Arrival :| s'.actors[i].arrivals == s.actors[i].arrivals + [x] && !x.origin.Boot?
                          && (x.origin.From? ==> x.origin.actor < s.spawned);
        LaterArrival(s.actors[i].arrivals, x, i, i < s.booted);
      }
    }
  }

  lemma SendIsOrdinary(s: Sys, s': Sys, j: nat, origin: Origin, env: Envelope)
    requires s'.actors == SendTo(s, j, origin, env).actors && s'.booted == s.booted && s'.spawned == s.spawned
    requires |s.calls| <= |s'.calls|
    requires env.reply.None? || (env.reply == Some(|s.calls|) && |s.calls| < |s'.calls|)
    requires !origin.Boot? && (origin.From? ==> origin.actor < s.spawned)
    ensures Ordinary(s, s')
  {
    if j < |s.actors| && !s.actors[j].pc.Gone? {
      var x := Arrival(origin, env);
      assert s'.actors[j].arrivals == s.actors[j].arrivals + [x];
    }
  }

  lemma PutIsOrdinary(s: Sys, s': Sys, i: nat)
    requires i < |s.actors| == |s'.actors| && s'.actors == s.actors[i := s'.actors[i]]
    requires s'.booted == s.booted && s'.spawned == s.spawned && |s.calls| <= |s'.calls|
    requires s'.actors[i].arrivals == s.actors[i].arrivals
    requires s'.actors[i].pc.Unborn? == s.actors[i].pc.Unborn?
    ensures Ordinary(s, s')
  {
  }

  lemma AskIsOrdinary(s: Sys, caller: Caller, origin: Origin, j: nat, msg: Message, sender: Option<Ref>)
    requires j < |s.actors| && !origin.Boot? && (origin.From? ==> origin.actor < s.spawned)
    ensures Ordinary(s, Ask(s, caller, origin, j, msg, sender))
  {
    if !s.actors[j].pc.Gone? {
      SendIsOrdinary(s, Ask(s, caller, origin, j, msg, sender), j, origin, Envelope(msg, sender, Some(|s.calls|)));
    }
  }

  lemma ReplyKeepsInOrder(s: Sys, i: nat, msg: Message)
    requires InOrder(s) && Stamped(s) && Enabled(s, Reply(i, msg))
    ensures InOrder(ReplyStep(s, i, msg)) && Stamped(ReplyStep(s, i, msg))
  {
    var a, s' := s.actors[i], ReplyStep(s, i, msg);
    var mid := Put(s, i, NoteReply(a, msg));
    PutIsOrdinary(s, mid, i);
    OrdinaryKeepsInOrder(s, mid);
    OrdinaryKeepsStamped(s, mid);
    if a.reply.None? && a.sender.Some? && a.sender.value.Local? {
      SendIsOrdinary(mid, s', a.sender.value.box, From(i), Envelope(msg, Some(Local(i, a.name)), None));
      OrdinaryKeepsInOrder(mid, s');
      OrdinaryKeepsStamped(mid, s');
    } else {
      PutIsOrdinary(s, s', i);
      OrdinaryKeepsInOrder(s, s');
      OrdinaryKeepsStamped(s, s');
    }
  }

  lemma CallKeepsInOrder(s: Sys, i: nat, j: nat, msg: Message, sender: Option<Ref>)
    requires InOrder(s) && Stamped(s) && Enabled(s, Call(i, j, msg, sender))
    ensures InOrder(CallStep(s, i, j, msg, sender)) && Stamped(CallStep(s, i, j, msg, sender))
  {
    var mid := Ask(s, ByActor(i), From(i), j, msg, sender);
    AskIsOrdinary(s, ByActor(i), From(i), j, msg, sender);
    OrdinaryKeepsInOrder(s, mid);
    OrdinaryKeepsStamped(s, mid);
    PutIsOrdinary(mid, CallStep(s, i, j, msg, sender), i);
    OrdinaryKeepsInOrder(mid, CallStep(s, i, j, msg, sender));
    OrdinaryKeepsStamped(mid, CallStep(s, i, j, msg, sender));
  }

  lemma BootKeepsInOrder(s: Sys)
    requires InOrder(s) && Stamped(s) && Enabled(s, SendBoot)
    ensures InOrder(Apply(s, SendBoot)) && Stamped(Apply(s, SendBoot))
  {
    var b, s' := s.booted, Apply(s, SendBoot);
    var x := Arrival(Boot, Envelope(Start, None, None));
    BootArrival(s.actors[b].arrivals, x, b);
    assert s'.actors[b].arrivals == s.actors[b].arrivals + [x];
    assert forall i | 0 <= i < |s.actors| && i != b :: s'.actors[i] == s.actors[i];
  }

  lemma SpawnKeepsInOrder(s: Sys)
    requires InOrder(s) && Stamped(s) && Enabled(s, Spawn)
    ensures InOrder(Apply(s, Spawn)) && Stamped(Apply(s, Spawn))
  {
    var s' := Apply(s, Spawn);
    forall i | 0 <= i < |s'.actors| ensures StartsAfter(s'.actors[i].arrivals, i, i < s'.booted) {
      assert StartsAfter(s.actors[i].arrivals, i, i < s.booted);
    }
  }

  lemma StepKeepsInOrder(s: Sys, step: Step)
    requires InOrder(s) && Stamped(s) && Enabled(s, step)
    ensures InOrder(Apply(s, step)) && Stamped(Apply(s, step))
  {
    var s' := Apply(s, step);
    if step.SendBoot? {
      BootKeepsInOrder(s);
    } else if step.Spawn? {
      SpawnKeepsInOrder(s);
    } else if step.Reply? {
      ReplyKeepsInOrder(s, step.actor, step.msg);
    } else if step.Call? {
      CallKeepsInOrder(s, step.actor, step.to, step.msg, step.sender);
    } else {
      StepIsOrdinary(s, step);
      OrdinaryKeepsInOrder(s, s');
      OrdinaryKeepsStamped(s, s');
    }
  }

  lemma StepIsOrdinary(s: Sys, step: Step)
    requires InOrder(s) && Enabled(s, step)
    requires !step.SendBoot? && !step.Spawn? && !step.Reply? && !step.Call?
    ensures Ordinary(s, Apply(s, step))
  {
    var s' := Apply(s, step);
    match step
    case Post(j, msg, sender) => SendIsOrdinary(s, s', j, Outside, Envelope(msg, sender, None));
    case CallIn(j, msg, sender) => AskIsOrdinary(s, ByOutside, Outside, j, msg, sender);
    case Send(i, j, msg, sender) => SendIsOrdinary(s, s', j, From(i), Envelope(msg, sender, None));
    case Stop(i) => PutIsOrdinary(s, s', i);
    case Test(i) => PutIsOrdinary(s, s', i);
    case Receive(i) => PutIsOrdinary(s, s', i);
    case Return(i) => PutIsOrdinary(s, s', i);
    case Finish(i) => PutIsOrdinary(s, s', i);
  }

  // ----- all of it

  lemma StepKeepsInv(s: Sys, step: Step)
    requires Inv(s) && Enabled(s, step)
    ensures Inv(Apply(s, step))
  {
    hide Apply, Enabled, Stamped, Linear, Addressed, FirstReply, InOrder, ActorOk, NoNewHolder;
    StepKeepsLinear(s, step);
    StepNoNewHolder(s, step);
    AddressedFrame(s, Apply(s, step));
    StepKeepsFirstReply(s, step);
    StepKeepsAllOk(s, step);
    StepKeepsInOrder(s, step);
  }

  lemma {:induction false} NoTokens(actors: seq<Actor>, t: Token)
    requires forall i | 0 <= i < |actors| :: actors[i].mailbox == [] && actors[i].reply.None?
    ensures InActors(actors, t) == 0
  {
    if actors != [] {
      NoTokens(actors[..|actors| - 1], t);
    }
  }

  lemma NewSysInv(names: seq<Name>)
    ensures Inv(NewSys(names))
  {
    var s := NewSys(names);
    forall t: Token ensures Places(s, t) == 0 {
      NoTokens(s.actors, t);
    }
  }

  lemma {:induction false} ExecKeepsInv(s: Sys, steps: seq<Step>, t: Sys)
    requires Inv(s) && Exec(s, steps) == Some(t)
    ensures Inv(t)
    decreases |steps|
  {
    hide Inv, Apply, Enabled;
    if steps != [] {
      StepKeepsInv(s, steps[0]);
      ExecKeepsInv(Apply(s, steps[0]), steps[1..], t);
    }
  }
}

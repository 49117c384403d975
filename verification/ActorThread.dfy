// src/actor.rs in its own form: channels, and an ActorRuntime whose fields its thread changes in place.
module ActorThread {
  import opened Vocabulary
  import opened ActorModel

  // The actor's code: its new state and the replies that it makes.
  type Handler<!S> = (S, Envelope) -> (S, seq<Message>)

  // ----- what an actor makes of envelopes that it handles one after the other

  function StateAfter<S>(handler: Handler<S>, state: S, envs: seq<Envelope>): S {
    if envs == [] then state
    else handler(StateAfter(handler, state, envs[..|envs| - 1]), envs[|envs| - 1]).0
  }

  function TurnsOf<S>(handler: Handler<S>, state: S, envs: seq<Envelope>): (turns: seq<Turn>)
    ensures |turns| == |envs| && forall k | 0 <= k < |envs| :: turns[k].env == envs[k]
  {
    if envs == [] then []
    else
      var n := |envs| - 1;
      TurnsOf(handler, state, envs[..n])
      + [Turn(envs[n], handler(StateAfter(handler, state, envs[..n]), envs[n]).1)]
  }

  // The first replies to the calls among the turns.
  function FirstReplies(turns: seq<Turn>): map<Token, Message> {
    if turns == [] then map[]
    else
      var n := |turns| - 1;
      var before := FirstReplies(turns[..n]);
      if turns[n].env.reply.Some? && turns[n].replies != [] then before[turns[n].env.reply.value := turns[n].replies[0]]
      else before
  }

  function Held(o: Option<Token>): set<Token> {
    if o.Some? then {o.value} else {}
  }

  // The calls among the turns that got no reply.
  function Unanswered(turns: seq<Turn>): set<Token> {
    if turns == [] then {}
    else
      var n := |turns| - 1;
      Unanswered(turns[..n]) + if turns[n].replies == [] then Held(turns[n].env.reply) else {}
  }

  function Wrapped(self: Ref, msgs: seq<Message>): seq<Envelope> {
    seq(|msgs|, k requires 0 <= k < |msgs| => Envelope(msgs[k], Some(self), None))
  }

  // The replies of a turn that go to the channel `box` of the sender: all but the one that a caller gets.
  function Mailed(self: Ref, turn: Turn, box: nat): seq<Envelope> {
    if turn.env.sender.Some? && turn.env.sender.value.Local? && turn.env.sender.value.box == box then
      Wrapped(self, if turn.env.reply.Some? && turn.replies != [] then turn.replies[1..] else turn.replies)
    else []
  }

  function Outbox(self: Ref, turns: seq<Turn>, box: nat): seq<Envelope> {
    if turns == [] then []
    else Outbox(self, turns[..|turns| - 1], box) + Mailed(self, turns[|turns| - 1], box)
  }

  lemma Snoc<S>(handler: Handler<S>, state: S, envs: seq<Envelope>, n: nat)
    requires n < |envs|
    ensures var local := StateAfter(handler, state, envs[..n]);
            && TurnsOf(handler, state, envs[..n + 1])
               == TurnsOf(handler, state, envs[..n]) + [Turn(envs[n], handler(local, envs[n]).1)]
            && StateAfter(handler, state, envs[..n + 1]) == handler(local, envs[n]).0
  {
    assert envs[..n + 1][..n] == envs[..n];
  }

  lemma OneMoreTurn(self: Ref, turns: seq<Turn>, turn: Turn)
    ensures FirstReplies(turns + [turn])
            == if turn.env.reply.Some? && turn.replies != [] then FirstReplies(turns)[turn.env.reply.value := turn.replies[0]]
               else FirstReplies(turns)
    ensures Unanswered(turns + [turn]) == Unanswered(turns) + if turn.replies == [] then Held(turn.env.reply) else {}
    ensures forall box: nat :: Outbox(self, turns + [turn], box) == Outbox(self, turns, box) + Mailed(self, turn, box)
  {
    assert (turns + [turn])[..|turns|] == turns;
  }

  // A call is answered if and only if the handler replies to it, and then with its first reply; otherwise
  // it is left unanswered.  Calls do not disturb each other.
  lemma {:induction false} AnswersIff(turns: seq<Turn>, k: nat)
    requires k < |turns| && turns[k].env.reply.Some?
    requires forall j | 0 <= j < |turns| && turns[j].env.reply == turns[k].env.reply :: j == k
    ensures var t := turns[k].env.reply.value;
            && (t in FirstReplies(turns) <==> turns[k].replies != [])
            && (t in Unanswered(turns) <==> turns[k].replies == [])
            && (turns[k].replies != [] ==> FirstReplies(turns)[t] == turns[k].replies[0])
  {
    var n := |turns| - 1;
    if k < n {
      AnswersIff(turns[..n], k);
    } else {
      OthersOnly(turns[..n], turns[k].env.reply.value);
    }
  }

  lemma {:induction false} OthersOnly(turns: seq<Turn>, t: Token)
    requires forall turn | turn in turns :: turn.env.reply != Some(t)
    ensures t !in FirstReplies(turns) && t !in Unanswered(turns)
  {
    if turns != [] {
      OthersOnly(turns[..|turns| - 1], t);
    }
  }

  // ----- channels

  class Channel {
    var mailbox: seq<Envelope>
    var open: bool
    // history
    var arrivals: seq<Arrival>

    constructor ()
      ensures mailbox == [] && open && arrivals == []
    {
      mailbox, open, arrivals := [], true, [];
    }

    // LocalActorRef::send, from any thread.
    method Send(origin: Origin, env: Envelope) returns (ok: bool)
      modifies this
      ensures ok == open == old(open)
      ensures mailbox == old(mailbox) + (if ok then [env] else [])
      ensures arrivals == old(arrivals) + (if ok then [Arrival(origin, env)] else [])
    {
      ok := open;
      if ok {
        mailbox := mailbox + [env];
        arrivals := arrivals + [Arrival(origin, env)];
      }
    }
  }

  // The channels of all actors, in the order of their numbers.
  predicate Distinct(boxes: seq<Channel>) {
    forall i, j | 0 <= i < j < |boxes| :: boxes[i] != boxes[j]
  }

  function Opens(boxes: seq<Channel>): (r: seq<bool>)
    reads boxes
    ensures |r| == |boxes|
  {
    seq(|boxes|, k requires 0 <= k < |boxes| reads boxes => boxes[k].open)
  }

  function Mail(boxes: seq<Channel>): (r: seq<seq<Envelope>>)
    reads boxes
    ensures |r| == |boxes|
  {
    seq(|boxes|, k requires 0 <= k < |boxes| reads boxes => boxes[k].mailbox)
  }

  // What a reply that no caller waits for puts into channel `box`.
  function Posted(self: Ref, sender: Option<Ref>, msg: Message, box: nat): seq<Envelope> {
    if sender.Some? && sender.value.Local? && sender.value.box == box then [Envelope(msg, Some(self), None)] else []
  }

  function AfterReply(mail: seq<seq<Envelope>>, opens: seq<bool>, self: Ref, sender: Option<Ref>, msg: Message)
    : (r: seq<seq<Envelope>>)
    requires |opens| == |mail|
    ensures |r| == |mail|
  {
    seq(|mail|, k requires 0 <= k < |mail| => mail[k] + if opens[k] then Posted(self, sender, msg, k) else [])
  }

  // The mailboxes after a turn: what it mailed has gone to the open ones.
  function AfterTurn(mail: seq<seq<Envelope>>, opens: seq<bool>, self: Ref, turn: Turn): (r: seq<seq<Envelope>>)
    requires |opens| == |mail|
    ensures |r| == |mail|
  {
    seq(|mail|, k requires 0 <= k < |mail| => mail[k] + if opens[k] then Mailed(self, turn, k) else [])
  }

  // The mailboxes after many turns of actor `number`, with `rest` of its own mail still to be handled.
  function AfterTurns(mail: seq<seq<Envelope>>, opens: seq<bool>, self: Ref, number: nat, turns: seq<Turn>,
                      rest: seq<Envelope>): (r: seq<seq<Envelope>>)
    requires |opens| == |mail|
    ensures |r| == |mail|
  {
    seq(|mail|, k requires 0 <= k < |mail| =>
          (if k == number then rest else mail[k]) + if opens[k] then Outbox(self, turns, k) else [])
  }

  lemma NothingElse(mail: seq<seq<Envelope>>)
    ensures forall k | 0 <= k < |mail| :: mail[k] + [] == mail[k]
  {
  }

  lemma NothingMailed(mail: seq<seq<Envelope>>, opens: seq<bool>, self: Ref, env: Envelope)
    requires |opens| == |mail|
    ensures AfterTurn(mail, opens, self, Turn(env, [])) == mail
    ensures forall number | 0 <= number < |mail| :: AfterTurns(mail, opens, self, number, [], mail[number]) == mail
  {
    assert forall k | 0 <= k < |mail| :: Mailed(self, Turn(env, []), k) == [] && mail[k] + [] == mail[k];
  }

  lemma Regroup(rest: seq<Envelope>, out: seq<Envelope>, more: seq<Envelope>)
    ensures (rest + out) + more == rest + (out + more)
    ensures rest != [] ==> (rest + out)[0] == rest[0] && (rest + out)[1..] + more == rest[1..] + (out + more)
  {
    if rest != [] {
      assert (rest + out)[1..] == rest[1..] + out;
    }
  }

  // One mailbox after one turn more.
  lemma BoxAfterTurn(self: Ref, turns: seq<Turn>, turn: Turn, k: nat, open: bool, rest: seq<Envelope>)
    ensures var now := rest + if open then Outbox(self, turns, k) else [];
            var more := if open then Mailed(self, turn, k) else [];
            && now + more == rest + (if open then Outbox(self, turns + [turn], k) else [])
            && (rest != [] ==>
                  now != [] && now[0] == rest[0]
                  && now[1..] + more == rest[1..] + (if open then Outbox(self, turns + [turn], k) else []))
  {
    hide Mailed, FirstReplies, Unanswered;
    OneMoreTurn(self, turns, turn);
    hide Outbox;
    Regroup(rest, if open then Outbox(self, turns, k) else [], if open then Mailed(self, turn, k) else []);
  }

  lemma TurnAfterTurns(mail: seq<seq<Envelope>>, opens: seq<bool>, self: Ref, number: nat, turns: seq<Turn>,
                       rest: seq<Envelope>, turn: Turn)
    requires |opens| == |mail| && number < |mail| && rest != []
    ensures var now := AfterTurns(mail, opens, self, number, turns, rest);
            && now[number] != [] && now[number][0] == rest[0]
            && AfterTurn(now[number := now[number][1..]], opens, self, turn)
               == AfterTurns(mail, opens, self, number, turns + [turn], rest[1..])
  {
    hide Mailed, Outbox;
    var now := AfterTurns(mail, opens, self, number, turns, rest);
    var later := AfterTurns(mail, opens, self, number, turns + [turn], rest[1..]);
    BoxAfterTurn(self, turns, turn, number, opens[number], rest);
    forall k: nat | k < |mail|
      ensures AfterTurn(now[number := now[number][1..]], opens, self, turn)[k] == later[k]
    {
      BoxAfterTurn(self, turns, turn, k, opens[k], if k == number then rest else mail[k]);
    }
  }

  // One reply more of a turn.
  lemma ReplyMails(mail: seq<seq<Envelope>>, opens: seq<bool>, self: Ref, env: Envelope, replies: seq<Message>, i: nat)
    requires |opens| == |mail| && i < |replies|
    ensures var before := AfterTurn(mail, opens, self, Turn(env, replies[..i]));
            AfterTurn(mail, opens, self, Turn(env, replies[..i + 1]))
            == if i == 0 && env.reply.Some? then before else AfterReply(before, opens, self, env.sender, replies[i])
  {
    var before := AfterTurn(mail, opens, self, Turn(env, replies[..i]));
    var now := AfterTurn(mail, opens, self, Turn(env, replies[..i + 1]));
    forall k: nat | k < |mail|
      ensures now[k] == before[k] + if opens[k] && !(i == 0 && env.reply.Some?) then Posted(self, env.sender, replies[i], k)
                                    else []
    {
      MailedMore(self, env, replies, i, k);
      Regroup(mail[k], Mailed(self, Turn(env, replies[..i]), k), Posted(self, env.sender, replies[i], k));
    }
    assert forall k | 0 <= k < |mail| :: before[k] + [] == before[k];
  }

  lemma MailedMore(self: Ref, env: Envelope, replies: seq<Message>, i: nat, k: nat)
    requires i < |replies|
    ensures Mailed(self, Turn(env, replies[..i + 1]), k)
            == Mailed(self, Turn(env, replies[..i]), k)
               + if i == 0 && env.reply.Some? then [] else Posted(self, env.sender, replies[i], k)
  {
    var a, b := replies[..i], replies[..i + 1];
    if i > 0 {
      assert Wrapped(self, b[1..]) == Wrapped(self, a[1..]) + [Envelope(replies[i], Some(self), None)];
    }
    assert Wrapped(self, b) == Wrapped(self, a) + [Envelope(replies[i], Some(self), None)];
  }

  // ----- one actor

  class ActorRuntime<S> {
    const number: nat
    const name: Name
    const inbox: Channel
    var local: S
    var sender: Option<Ref>
    var reply: Option<Token>
    var running: bool
    var pc: Pc
    // history
    var turns: seq<Turn>

    function Snapshot(): Actor
      reads this, inbox
    {
      Actor(name, inbox.mailbox, sender, reply, running, pc, inbox.arrivals, turns)
    }

    function Self(): Ref {
      Local(number, name)
    }

    constructor (number: nat, name: Name, local: S)
      ensures Snapshot() == NewActor(name) && inbox.open && fresh(inbox)
      ensures this.number == number && this.name == name && this.local == local
    {
      this.number, this.name, this.local := number, name, local;
      inbox := new Channel();
      sender, reply, running, pc, turns := None, None, true, Unborn, [];
    }

    method Stop()
      modifies `running
      ensures !running
    {
      running := false;
    }

    // The loop condition of run().  When the loop ends the channel closes, and `lost` are the calls that
    // are never answered.
    method Test() returns (lost: set<Token>)
      requires pc.Top?
      modifies this, inbox
      ensures Snapshot() == if old(running) then old(Snapshot()).(pc := Receiving) else Exit(old(Snapshot()))
      ensures lost == if old(running) then {} else Carried(old(Snapshot()))
      ensures local == old(local) && inbox.open == (old(inbox.open) && running)
    {
      lost := {};
      if running {
        pc := Receiving;
      } else {
        lost := Carried(Snapshot());
        sender, reply, pc := None, None, Gone;
        inbox.mailbox, inbox.open := [], false;
      }
    }

    // recv() and prepare_for_envelope().  `lost` is the reply channel that the context still held.
    method Receive() returns (lost: Option<Token>)
      requires inbox.mailbox != []
      modifies this, inbox`mailbox
      ensures Snapshot() == BeginTurn(old(Snapshot())) && lost == old(reply) && local == old(local)
    {
      var env := inbox.mailbox[0];
      inbox.mailbox := inbox.mailbox[1..];
      lost := reply;
      sender, reply, pc := env.sender, env.reply, Running;
      turns := turns + [Turn(env, [])];
    }

    // ActorContext::reply(): into the reply channel if there is one, else to the sender's channel, else
    // nowhere.  What goes to the sender comes from this actor, under its number and name.
    method Reply(msg: Message, boxes: seq<Channel>) returns (caller: Option<Token>)
      requires turns != [] && Distinct(boxes)
      modifies `reply, `turns, boxes
      ensures caller == old(reply) && reply.None?
      ensures var n := |old(turns)| - 1;
              turns == old(turns)[n := old(turns)[n].(replies := old(turns)[n].replies + [msg])]
      ensures Opens(boxes) == old(Opens(boxes))
      ensures Mail(boxes) == if caller.Some? then old(Mail(boxes))
                             else AfterReply(old(Mail(boxes)), Opens(boxes), Self(), sender, msg)
      ensures forall j | 0 <= j < |boxes| ::
                boxes[j].mailbox == old(boxes[j].mailbox)
                  + if caller.None? && sender.Some? && sender.value.Local? && sender.value.box == j && boxes[j].open
                    then [Envelope(msg, Some(Local(number, name)), None)] else []
    {
      ghost var mail, opens := Mail(boxes), Opens(boxes);
      caller := reply;
      reply := None;
      var n := |turns| - 1;
      turns := turns[n := turns[n].(replies := turns[n].replies + [msg])];
      if caller.None? && sender.Some? && sender.value.Local? && sender.value.box < |boxes| {
        var _ := boxes[sender.value.box].Send(From(number), Envelope(msg, Some(Self()), None));
      }
      NothingElse(mail);
    }

    // The replies of a handler, one after the other.
    method ReplyAll(replies: seq<Message>, boxes: seq<Channel>, ghost before: seq<Turn>, env: Envelope)
      returns (first: Option<Message>)
      requires turns == before + [Turn(env, [])] && Distinct(boxes)
      requires reply == env.reply && sender == env.sender
      modifies `turns, `reply, boxes
      ensures turns == before + [Turn(env, replies)]
      ensures first == if replies != [] && env.reply.Some? then Some(replies[0]) else None
      ensures reply == if replies != [] then None else env.reply
      ensures Opens(boxes) == old(Opens(boxes))
      ensures Mail(boxes) == AfterTurn(old(Mail(boxes)), Opens(boxes), Self(), Turn(env, replies))
    {
      ghost var mail, opens := Mail(boxes), Opens(boxes);
      NothingMailed(mail, opens, Self(), env);
      hide AfterTurn, AfterReply, Distinct, Mail, Opens;
      assert replies[..0] == [];
      first := None;
      for i := 0 to |replies|
        invariant turns == before + [Turn(env, replies[..i])] && sender == env.sender
        invariant first == if i > 0 && env.reply.Some? then Some(replies[0]) else None
        invariant reply == if i > 0 then None else env.reply
        invariant Opens(boxes) == opens && Mail(boxes) == AfterTurn(mail, opens, Self(), Turn(env, replies[..i]))
      {
        var caller := ReplyNext(replies, i, boxes, before, env, mail);
        if caller.Some? {
          first := Some(replies[i]);
        }
      }
      assert replies[..|replies|] == replies;
    }

    // One of them.
    method ReplyNext(replies: seq<Message>, i: nat, boxes: seq<Channel>, ghost before: seq<Turn>, env: Envelope,
                     ghost mail: seq<seq<Envelope>>) returns (caller: Option<Token>)
      requires i < |replies| && turns == before + [Turn(env, replies[..i])] && Distinct(boxes)
      requires reply == (if i > 0 then None else env.reply) && sender == env.sender
      requires |mail| == |boxes| && Mail(boxes) == AfterTurn(mail, Opens(boxes), Self(), Turn(env, replies[..i]))
      modifies `turns, `reply, boxes
      ensures turns == before + [Turn(env, replies[..i + 1])] && caller == old(reply) && reply.None?
      ensures Opens(boxes) == old(Opens(boxes))
      ensures Mail(boxes) == AfterTurn(mail, Opens(boxes), Self(), Turn(env, replies[..i + 1]))
    {
      hide AfterTurn, AfterReply, Distinct, Mail, Opens;
      LastTurnReplies(before, Turn(env, replies[..i]), replies[i]);
      ReplyMails(mail, Opens(boxes), Self(), env, replies, i);
      assert replies[..i + 1] == replies[..i] + [replies[i]];
      caller := Reply(replies[i], boxes);
    }

    // process_message for the envelope of the current turn, to its end: a caller gets the first of the
    // handler's replies, and the sender's channel gets all others.
    method Process(handler: Handler<S>, boxes: seq<Channel>, ghost before: seq<Turn>, env: Envelope)
      returns (first: Option<Message>)
      requires turns == before + [Turn(env, [])] && Distinct(boxes)
      requires reply == env.reply && sender == env.sender
      modifies this, boxes
      ensures var replies := handler(old(local), env).1;
              && turns == before + [Turn(env, replies)] && local == handler(old(local), env).0
              && first == (if replies != [] && env.reply.Some? then Some(replies[0]) else None)
              && reply == (if replies != [] then None else env.reply)
              && Mail(boxes) == AfterTurn(old(Mail(boxes)), Opens(boxes), Self(), Turn(env, replies))
      ensures Opens(boxes) == old(Opens(boxes)) && running == old(running) && pc == Top
    {
      hide AfterTurn, Distinct;
      var (state, replies) := handler(local, env);
      first := ReplyAll(replies, boxes, before, env);
      local, pc := state, Top;
    }

    // The loop condition while nobody stops the actor.
    method TestOnce(boxes: seq<Channel>)
      requires pc.Top? && running
      modifies this, inbox
      ensures pc.Receiving? && running && turns == old(turns) && local == old(local) && reply == old(reply)
      ensures Mail(boxes) == old(Mail(boxes)) && Opens(boxes) == old(Opens(boxes))
    {
      var _ := Test();
    }

    // One turn of the loop of run().
    method Next(handler: Handler<S>, boxes: seq<Channel>) returns (first: Option<Message>, lost: Option<Token>)
      requires running && Distinct(boxes) && number < |boxes| && boxes[number] == inbox && Mail(boxes)[number] != []
      modifies this, boxes
      ensures var mail := old(Mail(boxes));
              var env := mail[number][0];
              var replies := handler(old(local), env).1;
              && turns == old(turns) + [Turn(env, replies)] && local == handler(old(local), env).0 && lost == old(reply)
              && first == (if replies != [] && env.reply.Some? then Some(replies[0]) else None)
              && reply == (if replies != [] then None else env.reply)
              && Mail(boxes) == AfterTurn(mail[number := mail[number][1..]], Opens(boxes), Self(), Turn(env, replies))
      ensures Opens(boxes) == old(Opens(boxes)) && running && pc == Receiving
    {
      hide AfterTurn;
      ghost var mail, opens, before := Mail(boxes), Opens(boxes), turns;
      var env := inbox.mailbox[0];
      lost := Receive();
      assert Mail(boxes) == mail[number := mail[number][1..]] && Opens(boxes) == opens;
      hide Mail, Opens;
      first := Process(handler, boxes, before, env);
      TestOnce(boxes);
    }

    // run() over the messages that are in the mailbox when it begins, if nobody stops it: each has its
    // turn, in order and on the state that the turn before has left.  Each call gets the first reply to it
    // or none, each sender its replies, and nobody anything else.  The last call without a reply is still
    // held by the context.
    method Run(handler: Handler<S>, boxes: seq<Channel>) returns (answers: map<Token, Message>, lost: set<Token>)
      requires pc.Top? && running && inbox.open
      requires Distinct(boxes) && number < |boxes| && boxes[number] == inbox
      modifies this, boxes
      ensures pc.Receiving? && running && Opens(boxes) == old(Opens(boxes))
      ensures turns == old(turns) + TurnsOf(handler, old(local), old(inbox.mailbox))
      ensures local == StateAfter(handler, old(local), old(inbox.mailbox))
      ensures var made := TurnsOf(handler, old(local), old(inbox.mailbox));
              && answers == FirstReplies(made)
              && lost + Held(reply) == Unanswered(made) + Held(old(reply))
              && Mail(boxes) == AfterTurns(old(Mail(boxes)), Opens(boxes), Self(), number, made, [])
    {
      ghost var envs, mail, opens, local0, reply0 := inbox.mailbox, Mail(boxes), Opens(boxes), local, reply;
      var n := |inbox.mailbox|;
      answers, lost := map[], {};
      assert mail[number] == envs;
      hide Mail, Opens;
      TestOnce(boxes);
      ghost var made: seq<Turn> := [];
      RanNone(handler, local0, envs, mail, opens, Self(), number, reply0);
      hide Ran, AfterTurn;
      for done := 0 to n
        invariant pc.Receiving? && running && turns == old(turns) + made && Opens(boxes) == opens
        invariant Ran(handler, local0, envs, mail, opens, Self(), number, reply0, done,
                      made, local, answers, lost, reply, Mail(boxes))
      {
        ghost var now, state := Mail(boxes), local;
        ghost var turn := Turn(envs[done], handler(local, envs[done]).1);
        RanOn(handler, local0, envs, mail, opens, Self(), number, reply0, done, made, local, answers, lost, reply, now);
        var first, dropped := Next(handler, boxes);
        lost := lost + Held(dropped);
        if first.Some? {
          answers := answers[turns[|turns| - 1].env.reply.value := first.value];
        }
        made := made + [turn];
      }
      RanAll(handler, local0, envs, mail, opens, Self(), number, reply0, made, local, answers, lost, reply, Mail(boxes));
    }
  }

  lemma LastTurnReplies(before: seq<Turn>, turn: Turn, msg: Message)
    ensures var turns, n := before + [turn], |before|;
            turns[n := turns[n].(replies := turns[n].replies + [msg])] == before + [turn.(replies := turn.replies + [msg])]
  {
  }

  // What has become of the first `done` of the messages `envs`.
  ghost predicate Ran<S>(handler: Handler<S>, local0: S, envs: seq<Envelope>, mail: seq<seq<Envelope>>,
                         opens: seq<bool>, self: Ref, number: nat, reply0: Option<Token>, done: nat, made: seq<Turn>,
                         local: S, answers: map<Token, Message>, lost: set<Token>, reply: Option<Token>,
                         now: seq<seq<Envelope>>)
    requires |opens| == |mail| && number < |mail| && done <= |envs|
  {
    && made == TurnsOf(handler, local0, envs[..done]) && local == StateAfter(handler, local0, envs[..done])
    && answers == FirstReplies(made) && lost + Held(reply) == Unanswered(made) + Held(reply0)
    && now == AfterTurns(mail, opens, self, number, made, envs[done..])
  }

  lemma RanNone<S>(handler: Handler<S>, local0: S, envs: seq<Envelope>, mail: seq<seq<Envelope>>, opens: seq<bool>,
                   self: Ref, number: nat, reply0: Option<Token>)
    requires |opens| == |mail| && number < |mail| && mail[number] == envs
    ensures Ran(handler, local0, envs, mail, opens, self, number, reply0, 0, [], local0, map[], {}, reply0, mail)
  {
    NothingMailed(mail, opens, self, Envelope(Start, None, None));
    assert envs[..0] == [] && envs[0..] == envs;
  }

  // One message more, with what Next() makes of it.
  lemma RanOn<S>(handler: Handler<S>, local0: S, envs: seq<Envelope>, mail: seq<seq<Envelope>>, opens: seq<bool>,
                 self: Ref, number: nat, reply0: Option<Token>, done: nat, made: seq<Turn>, local: S,
                 answers: map<Token, Message>, lost: set<Token>, reply: Option<Token>, now: seq<seq<Envelope>>)
    requires |opens| == |mail| && number < |mail| && done < |envs|
    requires Ran(handler, local0, envs, mail, opens, self, number, reply0, done, made, local, answers, lost, reply, now)
    ensures |now| == |mail| && now[number] != [] && now[number][0] == envs[done]
    ensures var env := envs[done];
            var (state, replies) := handler(local, env);
            Ran(handler, local0, envs, mail, opens, self, number, reply0, done + 1, made + [Turn(env, replies)], state,
                if replies != [] && env.reply.Some? then answers[env.reply.value := replies[0]] else answers,
                lost + Held(reply), if replies != [] then None else env.reply,
                AfterTurn(now[number := now[number][1..]], opens, self, Turn(env, replies)))
  {
    var turn := Turn(envs[done], handler(local, envs[done]).1);
    TurnAfterTurns(mail, opens, self, number, made, envs[done..], turn);
    Snoc(handler, local0, envs, done);
    OneMoreTurn(self, made, turn);
    assert envs[done..][1..] == envs[done + 1..];
    hide TurnsOf, StateAfter, FirstReplies, Unanswered, AfterTurns, AfterTurn;
  }

  lemma RanAll<S>(handler: Handler<S>, local0: S, envs: seq<Envelope>, mail: seq<seq<Envelope>>, opens: seq<bool>,
                  self: Ref, number: nat, reply0: Option<Token>, made: seq<Turn>, local: S,
                  answers: map<Token, Message>, lost: set<Token>, reply: Option<Token>, now: seq<seq<Envelope>>)
    requires |opens| == |mail| && number < |mail|
    requires Ran(handler, local0, envs, mail, opens, self, number, reply0, |envs|, made, local, answers, lost, reply, now)
    ensures made == TurnsOf(handler, local0, envs) && local == StateAfter(handler, local0, envs)
    ensures answers == FirstReplies(made) && lost + Held(reply) == Unanswered(made) + Held(reply0)
    ensures now == AfterTurns(mail, opens, self, number, made, [])
  {
    assert envs[..|envs|] == envs && envs[|envs|..] == [];
  }

  // ----- two actors

  lemma LastMailed(self: Ref, turns: seq<Turn>, turn: Turn, from: nat, name: Name)
    requires turn.env.sender == Some(Local(from, name)) && turn.env.reply.None?
    ensures Outbox(self, turns + [turn], from) == Outbox(self, turns, from) + Wrapped(self, turn.replies)
  {
    OneMoreTurn(self, turns, turn);
  }

  // An actor handles its mailbox up to `env`, which came from the actor with channel `k`.
  method HandleLast<S>(b: ActorRuntime<S>, handler: Handler<S>, boxes: seq<Channel>, ghost envs: seq<Envelope>,
                       ghost env: Envelope, ghost local: S, ghost k: nat, ghost from: Name)
    requires Distinct(boxes) && k < |boxes| && b.number < |boxes| && b.number != k
    requires b.inbox == boxes[b.number] && b.inbox.open && boxes[k].open && b.pc.Top? && b.running
    requires b.inbox.mailbox == envs + [env] && env.sender == Some(Local(k, from)) && env.reply.None?
    requires b.local == local
    modifies b, boxes
    ensures b.turns
            == old(b.turns)
               + (TurnsOf(handler, local, envs) + [Turn(env, handler(StateAfter(handler, local, envs), env).1)])
    ensures boxes[k].mailbox
            == old(boxes[k].mailbox)
               + (Outbox(Local(b.number, b.name), TurnsOf(handler, local, envs), k)
                  + Wrapped(Local(b.number, b.name), handler(StateAfter(handler, local, envs), env).1))
  {
    hide Mail, Opens, AfterReply, AfterTurns, TurnsOf, StateAfter, Outbox, Unanswered, FirstReplies, Distinct, Wrapped;
    BoxIs(boxes, k);
    HandlesOneMore(handler, local, envs, env);
    ghost var made, turn := TurnsOf(handler, local, envs), Turn(env, handler(StateAfter(handler, local, envs), env).1);
    BoxAfterTurns(Mail(boxes), Opens(boxes), b.Self(), b.number, made + [turn], k);
    LastMailed(b.Self(), made, turn, k, from);
    var _, _ := b.Run(handler, boxes);
    BoxIs(boxes, k);
  }

  lemma BoxIs(boxes: seq<Channel>, k: nat)
    requires k < |boxes|
    ensures Mail(boxes)[k] == boxes[k].mailbox && Opens(boxes)[k] == boxes[k].open
  {
  }

  lemma BoxAfterTurns(mail: seq<seq<Envelope>>, opens: seq<bool>, self: Ref, number: nat, turns: seq<Turn>, k: nat)
    requires |opens| == |mail| && k < |mail| && k != number && opens[k]
    ensures AfterTurns(mail, opens, self, number, turns, [])[k] == mail[k] + Outbox(self, turns, k)
  {
  }

  lemma HandlesOneMore<S>(handler: Handler<S>, state: S, envs: seq<Envelope>, env: Envelope)
    ensures TurnsOf(handler, state, envs + [env])
            == TurnsOf(handler, state, envs) + [Turn(env, handler(StateAfter(handler, state, envs), env).1)]
  {
    Snoc(handler, state, envs + [env], |envs|);
    assert (envs + [env])[..|envs|] == envs && (envs + [env])[..|envs| + 1] == envs + [env];
  }

  // What goes to another actor as a reply can be answered: actor `a` replies to a message of `b`, and `b`
  // handles its mailbox up to that reply.  What `b` replies to it arrives in the inbox of `a`, behind what
  // `b` has made of the messages before, all of it in order and with `b` as its sender.
  method Exchange<S, T>(a: ActorRuntime<S>, msg: Message, b: ActorRuntime<T>, handler: Handler<T>, boxes: seq<Channel>)
    requires Distinct(boxes) && a.number < |boxes| && b.number < |boxes| && a.number != b.number
    requires a.inbox == boxes[a.number] && a.inbox.open && b.inbox == boxes[b.number] && b.inbox.open
    requires a.turns != [] && a.reply.None? && a.sender == Some(Local(b.number, b.name))
    requires b.pc.Top? && b.running
    modifies a, b, boxes
    ensures var envs := old(b.inbox.mailbox);
            var env := Envelope(msg, Some(Local(a.number, a.name)), None);
            var before := Outbox(Local(b.number, b.name), TurnsOf(handler, old(b.local), envs), a.number);
            var answers := handler(StateAfter(handler, old(b.local), envs), env).1;
            && b.turns == old(b.turns) + (TurnsOf(handler, old(b.local), envs) + [Turn(env, answers)])
            && a.inbox.mailbox
               == old(a.inbox.mailbox)
                  + (before + seq(|answers|, k requires 0 <= k < |answers| =>
                                    Envelope(answers[k], Some(Local(b.number, b.name)), None)))
  {
    hide Mail, Opens, AfterReply, AfterTurns, TurnsOf, StateAfter, Outbox, Distinct;
    BoxIs(boxes, a.number);
    BoxIs(boxes, b.number);
    ghost var envs, local, env := b.inbox.mailbox, b.local, Envelope(msg, Some(Local(a.number, a.name)), None);
    var _ := a.Reply(msg, boxes);
    BoxIs(boxes, a.number);
    BoxIs(boxes, b.number);
    HandleLast(b, handler, boxes, envs, env, local, a.number, a.name);
  }
}

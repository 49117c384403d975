// Actors on threads of their own (src/actor.rs), started by a Manager (src/manager.rs), as a machine
// whose steps are the atomic actions of the threads.
//
// What a handler does is left open: while process_message runs, the actor may send, reply, make a
// fast_send call or return, as often and in whatever order its code chooses.
module ActorModel {
  import opened Vocabulary

  // How a fast_send call ends: the first reply went into its channel, or the channel was dropped.
  // `turn` is history: the turn of the callee that answered.
  datatype Outcome = Answer(msg: Message, turn: nat) | Hangup

  // Where a message came from: init(), a thread that is not a managed actor, or an actor.
  datatype Origin = Boot | Outside | From(actor: nat)

  datatype Arrival = Arrival(origin: Origin, env: Envelope)

  // One call of process_message, and the replies made during it.
  datatype Turn = Turn(env: Envelope, replies: seq<Message>)

  // Where a thread is in ActorRuntime::run.
  datatype Pc =
    | Unborn
    | Top
    | Receiving
    | Running
    | Blocked(token: Token)
    | Gone

  datatype Actor = Actor(
    name: Name,
    mailbox: seq<Envelope>,
    sender: Option<Ref>,
    reply: Option<Token>,
    running: bool,
    pc: Pc,
    // history
    arrivals: seq<Arrival>,
    turns: seq<Turn>)

  datatype Caller = ByActor(actor: nat) | ByOutside

  datatype CallRecord = CallRecord(caller: Caller, target: nat, msg: Message)

  // The actors in the order of manage(); `booted` and `spawned` tell how far init() is.  A token is
  // the index of its call.
  datatype Sys = Sys(
    actors: seq<Actor>,
    booted: nat,
    spawned: nat,
    calls: seq<CallRecord>,
    outcomes: map<Token, Outcome>)

  datatype Step =
    | SendBoot
    | Spawn
    | Post(to: nat, msg: Message, sender: Option<Ref>)
    | CallIn(to: nat, msg: Message, sender: Option<Ref>)
    | Stop(actor: nat)
    | Test(actor: nat)
    | Receive(actor: nat)
    | Send(actor: nat, to: nat, msg: Message, sender: Option<Ref>)
    | Reply(actor: nat, msg: Message)
    | Call(actor: nat, to: nat, msg: Message, sender: Option<Ref>)
    | Return(actor: nat)
    | Finish(actor: nat)

  function NewActor(name: Name): Actor {
    Actor(name, [], None, None, true, Unborn, [], [])
  }

  function NewSys(names: seq<Name>): Sys {
    Sys(seq(|names|, i requires 0 <= i < |names| => NewActor(names[i])), 0, 0, [], map[])
  }

  // ----- one actor

  // Sender::send on the actor's channel, which fails when the receiver is gone.
  function Deliver(a: Actor, origin: Origin, env: Envelope): Actor {
    if a.pc.Gone? then a
    else a.(mailbox := a.mailbox + [env], arrivals := a.arrivals + [Arrival(origin, env)])
  }

  // recv() and prepare_for_envelope: the context of the turn before is overwritten.
  function BeginTurn(a: Actor): Actor
    requires a.mailbox != []
  {
    var env := a.mailbox[0];
    a.(mailbox := a.mailbox[1..], sender := env.sender, reply := env.reply, pc := Running,
       turns := a.turns + [Turn(env, [])])
  }

  // A reply during the current turn, which uses up the reply channel if there is one.
  function NoteReply(a: Actor, msg: Message): Actor
    requires a.turns != []
  {
    var n := |a.turns| - 1;
    a.(reply := None, turns := a.turns[n := a.turns[n].(replies := a.turns[n].replies + [msg])])
  }

  // The thread ends and the runtime with its mailbox and context is dropped.
  function Exit(a: Actor): Actor {
    a.(mailbox := [], sender := None, reply := None, pc := Gone)
  }

  function Tokens(mailbox: seq<Envelope>): set<Token> {
    set env | env in mailbox && env.reply.Some? :: env.reply.value
  }

  function Carried(a: Actor): set<Token> {
    Tokens(a.mailbox) + if a.reply.Some? then {a.reply.value} else {}
  }

  // ----- the system

  function Put(s: Sys, i: nat, a: Actor): Sys
    requires i < |s.actors|
  {
    s.(actors := s.actors[i := a])
  }

  function SendTo(s: Sys, j: nat, origin: Origin, env: Envelope): Sys {
    if j < |s.actors| then Put(s, j, Deliver(s.actors[j], origin, env)) else s
  }

  // The reply channels of `ts` are dropped without a reply.
  function HangUp(s: Sys, ts: set<Token>): Sys {
    s.(outcomes := s.outcomes + map t | t in ts :: Hangup)
  }

  // LocalActorRef::fast_send up to its recv().
  function Ask(s: Sys, caller: Caller, origin: Origin, j: nat, msg: Message, sender: Option<Ref>): Sys
    requires j < |s.actors|
  {
    var t := |s.calls|;
    var s' := s.(calls := s.calls + [CallRecord(caller, j, msg)]);
    if s.actors[j].pc.Gone? then HangUp(s', {t})
    else SendTo(s', j, origin, Envelope(msg, sender, Some(t)))
  }

  // Where reply() sends when there is no reply channel.  A remote or C++ sender is outside.
  function ReplyTo(s: Sys, i: nat, to: Option<Ref>, msg: Message): Sys
    requires i < |s.actors|
  {
    match to
    case Some(Local(j, _)) => SendTo(s, j, From(i), Envelope(msg, Some(Local(i, s.actors[i].name)), None))
    case _ => s
  }

  predicate Is(s: Sys, i: nat, pc: Pc) {
    i < |s.actors| && s.actors[i].pc == pc
  }

  predicate Enabled(s: Sys, step: Step) {
    match step
    case SendBoot => s.booted == s.spawned < |s.actors|
    case Spawn => s.spawned < s.booted <= |s.actors|
    case Post(j, _, _) => j < |s.actors|
    case CallIn(j, _, _) => j < |s.actors|
    case Stop(i) => i < |s.actors|
    case Test(i) => Is(s, i, Top)
    case Receive(i) => Is(s, i, Receiving) && s.actors[i].mailbox != []
    case Send(i, j, _, _) => Is(s, i, Running) && j < |s.actors|
    case Reply(i, _) => Is(s, i, Running) && s.actors[i].turns != []
    case Call(i, j, _, _) => Is(s, i, Running) && j < |s.actors|
    case Return(i) => i < |s.actors| && s.actors[i].pc.Blocked? && s.actors[i].pc.token in s.outcomes
    case Finish(i) => Is(s, i, Running)
  }

  function TestStep(s: Sys, i: nat): Sys
    requires Enabled(s, Test(i))
  {
    var a := s.actors[i];
    if a.running then Put(s, i, a.(pc := Receiving))
    else HangUp(Put(s, i, Exit(a)), Carried(a))
  }

  function ReceiveStep(s: Sys, i: nat): Sys
    requires Enabled(s, Receive(i))
  {
    var a := s.actors[i];
    HangUp(Put(s, i, BeginTurn(a)), if a.reply.Some? then {a.reply.value} else {})
  }

  function ReplyStep(s: Sys, i: nat, msg: Message): Sys
    requires Enabled(s, Reply(i, msg))
  {
    var a := s.actors[i];
    var s' := Put(s, i, NoteReply(a, msg));
    if a.reply.Some? then s'.(outcomes := s.outcomes[a.reply.value := Answer(msg, |a.turns| - 1)])
    else ReplyTo(s', i, a.sender, msg)
  }

  function CallStep(s: Sys, i: nat, j: nat, msg: Message, sender: Option<Ref>): Sys
    requires Enabled(s, Call(i, j, msg, sender))
  {
    var s' := Ask(s, ByActor(i), From(i), j, msg, sender);
    Put(s', i, s'.actors[i].(pc := Blocked(|s.calls|)))
  }

  function Apply(s: Sys, step: Step): Sys
    requires Enabled(s, step)
  {
    match step
    case SendBoot => SendTo(s, s.booted, Boot, Envelope(Start, None, None)).(booted := s.booted + 1)
    case Spawn => Put(s, s.spawned, s.actors[s.spawned].(pc := Top)).(spawned := s.spawned + 1)
    case Post(j, msg, sender) => SendTo(s, j, Outside, Envelope(msg, sender, None))
    case CallIn(j, msg, sender) => Ask(s, ByOutside, Outside, j, msg, sender)
    case Stop(i) => Put(s, i, s.actors[i].(running := false))
    case Test(i) => TestStep(s, i)
    case Receive(i) => ReceiveStep(s, i)
    case Send(i, j, msg, sender) => SendTo(s, j, From(i), Envelope(msg, sender, None))
    case Reply(i, msg) => ReplyStep(s, i, msg)
    case Call(i, j, msg, sender) => CallStep(s, i, j, msg, sender)
    case Return(i) => Put(s, i, s.actors[i].(pc := Running))
    case Finish(i) => Put(s, i, s.actors[i].(pc := Top))
  }

  function Exec(s: Sys, steps: seq<Step>): Option<Sys>
    decreases |steps|
  {
    if steps == [] then Some(s)
    else if !Enabled(s, steps[0]) then None
    else Exec(Apply(s, steps[0]), steps[1..])
  }
}

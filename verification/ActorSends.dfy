// Who sends what to an actor on a thread of its own.
module ActorSends {
  import opened Vocabulary
  import opened ActorModel
  import opened ActorInvariants
  import opened ActorTheorems

  // A message to actor `to`; `there` tells whether its channel is open.
  datatype Mailing = Mailing(to: nat, arrival: Arrival, there: bool)

  predicate Open(s: Sys, j: nat) {
    j < |s.actors| && !s.actors[j].pc.Gone?
  }

  // What a step mails.  A call carries a token of its own.  A reply goes to the sender of the message that
  // the actor is handling, unless it is the first one to a call, and has the actor as its sender.
  function MailOf(names: seq<Name>, s: Sys, step: Step): seq<Mailing> {
    match step
    case SendBoot => [Mailing(s.booted, Arrival(Boot, Envelope(Start, None, None)), Open(s, s.booted))]
    case Post(j, msg, sender) => [Mailing(j, Arrival(Outside, Envelope(msg, sender, None)), Open(s, j))]
    case CallIn(j, msg, sender) => [Mailing(j, Arrival(Outside, Envelope(msg, sender, Some(|s.calls|))), Open(s, j))]
    case Send(i, j, msg, sender) => [Mailing(j, Arrival(From(i), Envelope(msg, sender, None)), Open(s, j))]
    case Call(i, j, msg, sender) =>
      [Mailing(j, Arrival(From(i), Envelope(msg, sender, Some(|s.calls|))), Open(s, j))]
    case Reply(i, msg) =>
      if i < |s.actors| && i < |names| && s.actors[i].turns != [] then
        var turn := s.actors[i].turns[|s.actors[i].turns| - 1];
        match turn.env.sender
        case Some(Local(j, _)) =>
          if turn.env.reply.Some? && turn.replies == [] then []
          else [Mailing(j, Arrival(From(i), Envelope(msg, Some(Local(i, names[i])), None)), Open(s, j))]
        case _ => []
      else []
    case _ => []
  }

  // All that a run mails, in order.
  function MailsOf(names: seq<Name>, s: Sys, steps: seq<Step>): seq<Mailing>
    decreases |steps|
  {
    if steps == [] || !Enabled(s, steps[0]) then []
    else MailOf(names, s, steps[0]) + MailsOf(names, Apply(s, steps[0]), steps[1..])
  }

  // What of it reaches actor `j`.
  function To(log: seq<Mailing>, j: nat): seq<Arrival> {
    if log == [] then []
    else
      var x := log[|log| - 1];
      To(log[..|log| - 1], j) + if x.to == j && x.there then [x.arrival] else []
  }

  lemma ToSnoc(log: seq<Mailing>, x: Mailing, j: nat)
    ensures To(log + [x], j) == To(log, j) + if x.to == j && x.there then [x.arrival] else []
  {
    assert (log + [x])[..|log|] == log;
  }

  ghost predicate Recorded(names: seq<Name>, s: Sys, log: seq<Mailing>) {
    && |s.actors| == |names|
    && forall j | 0 <= j < |names| :: s.actors[j].name == names[j] && s.actors[j].arrivals == To(log, j)
  }

  // A step that mails nothing.
  ghost predicate Quiet(s: Sys, t: Sys) {
    && |t.actors| == |s.actors|
    && forall j | 0 <= j < |s.actors| ::
         t.actors[j].name == s.actors[j].name && t.actors[j].arrivals == s.actors[j].arrivals
  }

  // A step that makes one mailing.
  ghost predicate Mails(s: Sys, t: Sys, x: Mailing) {
    && |t.actors| == |s.actors|
    && forall j | 0 <= j < |s.actors| ::
         && t.actors[j].name == s.actors[j].name
         && t.actors[j].arrivals == s.actors[j].arrivals + if x.to == j && x.there then [x.arrival] else []
  }

  lemma QuietIsRecorded(names: seq<Name>, s: Sys, t: Sys, log: seq<Mailing>)
    requires Recorded(names, s, log) && Quiet(s, t)
    ensures Recorded(names, t, log + [])
  {
    assert log + [] == log;
    hide To;
  }

  lemma MailIsRecorded(names: seq<Name>, s: Sys, t: Sys, log: seq<Mailing>, x: Mailing)
    requires Recorded(names, s, log) && Mails(s, t, x)
    ensures Recorded(names, t, log + [x])
  {
    forall j: nat | j < |names| ensures t.actors[j].arrivals == To(log + [x], j) {
      ToSnoc(log, x, j);
    }
  }

  // ----- each step

  lemma DeliverMails(s: Sys, j: nat, origin: Origin, env: Envelope)
    ensures Mails(s, SendTo(s, j, origin, env), Mailing(j, Arrival(origin, env), Open(s, j)))
  {
  }

  lemma AskMails(s: Sys, caller: Caller, origin: Origin, j: nat, msg: Message, sender: Option<Ref>)
    requires j < |s.actors|
    ensures Mails(s, Ask(s, caller, origin, j, msg, sender),
                  Mailing(j, Arrival(origin, Envelope(msg, sender, Some(|s.calls|))), Open(s, j)))
  {
  }

  // The context of a handler is that of its turn, and has lost the reply channel with the first reply.
  lemma ContextIsOfTurn(s: Sys, i: nat)
    requires Inv(s) && Is(s, i, Running)
    ensures var a := s.actors[i];
            && a.turns != []
            && var turn := a.turns[|a.turns| - 1];
               && a.sender == turn.env.sender
               && a.reply == if turn.replies == [] then turn.env.reply else None
  {
    var a := s.actors[i];
    assert ActorOk(a) && TurnOk(s, i, |a.turns| - 1);
  }

  lemma NoteIsQuiet(s: Sys, i: nat, msg: Message)
    requires Enabled(s, Reply(i, msg))
    ensures Quiet(s, Put(s, i, NoteReply(s.actors[i], msg)))
  {
  }

  // A reply that goes to the sender.
  lemma AnswerMails(s: Sys, i: nat, msg: Message, j: nat)
    requires Enabled(s, Reply(i, msg))
    requires s.actors[i].reply.None? && s.actors[i].sender.Some?
    requires s.actors[i].sender.value.Local? && s.actors[i].sender.value.box == j
    ensures Mails(s, Apply(s, Reply(i, msg)),
                  Mailing(j, Arrival(From(i), Envelope(msg, Some(Local(i, s.actors[i].name)), None)), Open(s, j)))
  {
    var env := Envelope(msg, Some(Local(i, s.actors[i].name)), None);
    NoteIsQuiet(s, i, msg);
    DeliverMails(Put(s, i, NoteReply(s.actors[i], msg)), j, From(i), env);
  }

  lemma ReplyMails(names: seq<Name>, s: Sys, i: nat, msg: Message, log: seq<Mailing>)
    requires Inv(s) && Enabled(s, Reply(i, msg)) && Recorded(names, s, log)
    ensures Recorded(names, Apply(s, Reply(i, msg)), log + MailOf(names, s, Reply(i, msg)))
  {
    ContextIsOfTurn(s, i);
    NameIs(names, s, i, log);
    NoteIsQuiet(s, i, msg);
    hide Inv, Recorded, Mails, Quiet, NoteReply, SendTo;
    var a, t := s.actors[i], Apply(s, Reply(i, msg));
    if a.reply.None? && a.sender.Some? && a.sender.value.Local? {
      AnswerMails(s, i, msg, a.sender.value.box);
      MailIsRecorded(names, s, t, log, MailOf(names, s, Reply(i, msg))[0]);
    } else {
      SameActorsQuiet(s, Put(s, i, NoteReply(a, msg)), t);
      QuietIsRecorded(names, s, t, log);
    }
  }

  lemma SameActorsQuiet(s: Sys, t: Sys, u: Sys)
    requires Quiet(s, t) && u.actors == t.actors
    ensures Quiet(s, u)
  {
  }

  lemma NameIs(names: seq<Name>, s: Sys, i: nat, log: seq<Mailing>)
    requires Recorded(names, s, log) && i < |s.actors|
    ensures i < |names| && s.actors[i].name == names[i]
  {
  }

  lemma CallMails(names: seq<Name>, s: Sys, i: nat, j: nat, msg: Message, sender: Option<Ref>, log: seq<Mailing>)
    requires Enabled(s, Call(i, j, msg, sender)) && Recorded(names, s, log)
    ensures Recorded(names, Apply(s, Call(i, j, msg, sender)), log + MailOf(names, s, Call(i, j, msg, sender)))
  {
    AskMails(s, ByActor(i), From(i), j, msg, sender);
    hide Ask, Recorded;
    MailIsRecorded(names, s, Apply(s, Call(i, j, msg, sender)), log, MailOf(names, s, Call(i, j, msg, sender))[0]);
  }

  // The steps that mail nothing.
  predicate Silent(step: Step) {
    step.Spawn? || step.Stop? || step.Test? || step.Receive? || step.Return? || step.Finish?
  }

  lemma SilentIsQuiet(s: Sys, step: Step)
    requires Enabled(s, step) && Silent(step)
    ensures Quiet(s, Apply(s, step))
  {
  }

  lemma StepIsRecorded(names: seq<Name>, s: Sys, step: Step, log: seq<Mailing>)
    requires Inv(s) && Enabled(s, step) && Recorded(names, s, log)
    ensures Recorded(names, Apply(s, step), log + MailOf(names, s, step))
  {
    hide Inv, Recorded, SendTo, Ask, CallStep, ReplyStep, TestStep, ReceiveStep, Quiet, Put;
    match step
    case SendBoot =>
      var sent := SendTo(s, s.booted, Boot, Envelope(Start, None, None));
      DeliverMails(s, s.booted, Boot, Envelope(Start, None, None));
      MailIsRecorded(names, s, sent, log, MailOf(names, s, step)[0]);
      SameActors(names, sent, Apply(s, step), log + MailOf(names, s, step));
    case Post(j, msg, sender) =>
      DeliverMails(s, j, Outside, Envelope(msg, sender, None));
      MailIsRecorded(names, s, Apply(s, step), log, MailOf(names, s, step)[0]);
    case CallIn(j, msg, sender) =>
      AskMails(s, ByOutside, Outside, j, msg, sender);
      MailIsRecorded(names, s, Apply(s, step), log, MailOf(names, s, step)[0]);
    case Send(i, j, msg, sender) =>
      DeliverMails(s, j, From(i), Envelope(msg, sender, None));
      MailIsRecorded(names, s, Apply(s, step), log, MailOf(names, s, step)[0]);
    case Call(i, j, msg, sender) => CallMails(names, s, i, j, msg, sender, log);
    case Reply(i, msg) => ReplyMails(names, s, i, msg, log);
    case _ =>
      SilentIsQuiet(s, step);
      QuietIsRecorded(names, s, Apply(s, step), log);
  }

  lemma SameActors(names: seq<Name>, s: Sys, t: Sys, log: seq<Mailing>)
    requires Recorded(names, s, log) && t.actors == s.actors
    ensures Recorded(names, t, log)
  {
  }

  // ----- all runs

  lemma {:induction false} ExecIsRecorded(names: seq<Name>, s: Sys, steps: seq<Step>, t: Sys, log: seq<Mailing>)
    requires Inv(s) && Recorded(names, s, log) && Exec(s, steps) == Some(t)
    ensures Recorded(names, t, log + MailsOf(names, s, steps))
    decreases |steps|
  {
    hide Inv, Recorded, Apply, Enabled, MailOf;
    if steps == [] {
      assert log + MailsOf(names, s, steps) == log;
    } else {
      var now := MailOf(names, s, steps[0]);
      var later := MailsOf(names, Apply(s, steps[0]), steps[1..]);
      StepIsRecorded(names, s, steps[0], log);
      StepKeepsInv(s, steps[0]);
      ExecIsRecorded(names, Apply(s, steps[0]), steps[1..], t, log + now);
      assert (log + now) + later == log + (now + later);
    }
  }

  // In every run what arrives at an actor is, in order, just what init(), outside threads and handlers mail
  // to it while its channel is open: each handler's sends, its calls with a token each, and its replies to
  // the sender of the message that it is handling.
  lemma ArrivalsAreTheirs(names: seq<Name>, steps: seq<Step>, s: Sys, j: nat)
    requires Run(names, steps, s) && j < |s.actors|
    ensures s.actors[j].arrivals == To(MailsOf(names, NewSys(names), steps), j)
  {
    NothingYet(names);
    hide Inv, MailsOf, Recorded, NewSys;
    ExecIsRecorded(names, NewSys(names), steps, s, []);
    assert [] + MailsOf(names, NewSys(names), steps) == MailsOf(names, NewSys(names), steps);
    RecordedIs(names, s, MailsOf(names, NewSys(names), steps), j);
  }

  lemma NothingYet(names: seq<Name>)
    ensures Inv(NewSys(names)) && Recorded(names, NewSys(names), [])
  {
    NewSysInv(names);
    hide Inv;
  }

  lemma RecordedIs(names: seq<Name>, s: Sys, log: seq<Mailing>, j: nat)
    requires Recorded(names, s, log) && j < |s.actors|
    ensures s.actors[j].arrivals == To(log, j)
  {
  }
}

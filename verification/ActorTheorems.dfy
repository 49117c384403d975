// What holds of mailboxes, start-up and fast_send in every run.
module ActorTheorems {
  import opened Vocabulary
  import opened ActorModel
  import opened ActorInvariants

  ghost predicate Run(names: seq<Name>, steps: seq<Step>, s: Sys) {
    Exec(NewSys(names), steps) == Some(s)
  }

  lemma RunInv(names: seq<Name>, steps: seq<Step>, s: Sys)
    requires Run(names, steps, s)
    ensures Inv(s)
  {
    NewSysInv(names);
    ExecKeepsInv(NewSys(names), steps, s);
  }

  // ----- mailboxes

  // An actor's turns are the messages that arrived, in order of arrival, without those that wait.
  lemma MailboxIsFifo(names: seq<Name>, steps: seq<Step>, s: Sys, i: nat)
    requires Run(names, steps, s) && i < |s.actors|
    ensures Received(s.actors[i].turns) <= Sent(s.actors[i].arrivals)
    ensures !s.actors[i].pc.Gone? ==>
              s.actors[i].mailbox == Sent(s.actors[i].arrivals)[|s.actors[i].turns|..]
  {
    RunInv(names, steps, s);
    assert ActorOk(s.actors[i]);
  }

  // Whatever is ahead of the Start that init() sends to actor `i` came from outside or from an actor
  // registered before `i`.
  lemma StartCausality(names: seq<Name>, steps: seq<Step>, s: Sys, i: nat, p: nat, q: nat)
    requires Run(names, steps, s) && i < |s.actors| && p < q < |s.actors[i].arrivals|
    requires s.actors[i].arrivals[q].origin.Boot?
    ensures s.actors[i].arrivals[p].origin.Outside?
            || (s.actors[i].arrivals[p].origin.From? && s.actors[i].arrivals[p].origin.actor < i)
  {
    RunInv(names, steps, s);
    assert StartsAfter(s.actors[i].arrivals, i, i < s.booted);
  }

  // Start reaches the mailbox before the thread exists, so before anything that the actor itself or a
  // later actor sends.
  lemma StartBeforeOwnMessages(names: seq<Name>, steps: seq<Step>, s: Sys, i: nat, q: nat) returns (b: nat)
    requires Run(names, steps, s) && i < |s.actors| && q < |s.actors[i].arrivals|
    requires s.actors[i].arrivals[q].origin.From? && s.actors[i].arrivals[q].origin.actor >= i
    ensures b < q && s.actors[i].arrivals[b].origin.Boot?
  {
    RunInv(names, steps, s);
    assert StartsAfter(s.actors[i].arrivals, i, i < s.booted);
    assert i < s.booted;
    b :| b < |s.actors[i].arrivals| && s.actors[i].arrivals[b].origin.Boot?;
  }

  // ----- fast_send

  // The reply token of a call is always in exactly one place: a mailbox, a context, or the outcome.
  lemma TokenInOnePlace(names: seq<Name>, steps: seq<Step>, s: Sys, t: Token)
    requires Run(names, steps, s) && t < |s.calls|
    ensures Places(s, t) == 1
    ensures forall i | 0 <= i < |s.actors| && InActor(s.actors[i], t) > 0 ::
              i == s.calls[t].target && t !in s.outcomes
  {
    RunInv(names, steps, s);
    forall i | 0 <= i < |s.actors| && InActor(s.actors[i], t) > 0
      ensures i == s.calls[t].target && t !in s.outcomes
    {
      HeldIsOpen(s, i, t);
    }
  }

  predicate TurnFor(s: Sys, t: Token, k: nat) {
    && t < |s.calls| && s.calls[t].target < |s.actors|
    && k < |s.actors[s.calls[t].target].turns|
    && s.actors[s.calls[t].target].turns[k].env.reply == Some(t)
  }

  function RepliesOf(s: Sys, t: Token, k: nat): seq<Message>
    requires TurnFor(s, t, k)
  {
    s.actors[s.calls[t].target].turns[k].replies
  }

  // A caller gets Some(m) if and only if m is the first reply that the callee makes in the turn that
  // handles that very call; no call has two turns, and a second reply never reaches the caller.
  lemma AnswerIsFirstReply(names: seq<Name>, steps: seq<Step>, s: Sys, t: Token, k: nat, m: Message)
    requires Run(names, steps, s) && TurnFor(s, t, k)
    ensures (t in s.outcomes && s.outcomes[t].Answer? && s.outcomes[t].msg == m)
            <==> (RepliesOf(s, t, k) != [] && RepliesOf(s, t, k)[0] == m)
    ensures forall k' | TurnFor(s, t, k') :: k' == k
  {
    RunInv(names, steps, s);
    var i := s.calls[t].target;
    assert TurnOk(s, i, k);
    forall k' | TurnFor(s, t, k') ensures k' == k {
      OneTurn(s, i, k, k');
    }
    if t in s.outcomes && s.outcomes[t].Answer? {
      assert Answered(s, t, s.outcomes[t].msg, s.outcomes[t].turn);
      assert TurnFor(s, t, s.outcomes[t].turn);
    }
    if k == |s.actors[i].turns| - 1 && s.actors[i].reply == Some(t) {
      HeldIsOpen(s, i, t);
    }
  }

  lemma OneTurn(s: Sys, i: nat, k: nat, k': nat)
    requires Inv(s) && i < |s.actors| && k < |s.actors[i].turns| && k' < |s.actors[i].turns|
    requires s.actors[i].turns[k].env.reply.Some?
    requires s.actors[i].turns[k].env.reply == s.actors[i].turns[k'].env.reply
    ensures k == k'
  {
    var a := s.actors[i];
    assert Distinct(a.arrivals, |s.calls|) && ActorOk(a);
    assert Received(a.turns)[k] == Sent(a.arrivals)[k] && Received(a.turns)[k'] == Sent(a.arrivals)[k'];
    assert a.arrivals[k].env.reply == a.arrivals[k'].env.reply;
  }

  // A caller that waits is the one that made the call, and every answer was given in a turn of the
  // actor that the call was made to.
  lemma NoCrossing(names: seq<Name>, steps: seq<Step>, s: Sys)
    requires Run(names, steps, s)
    ensures forall i | 0 <= i < |s.actors| && s.actors[i].pc.Blocked? ::
              s.actors[i].pc.token < |s.calls| && s.calls[s.actors[i].pc.token].caller == ByActor(i)
    ensures forall t | t in s.outcomes && s.outcomes[t].Answer? :: TurnFor(s, t, s.outcomes[t].turn)
  {
    RunInv(names, steps, s);
    forall t | t in s.outcomes && s.outcomes[t].Answer? ensures TurnFor(s, t, s.outcomes[t].turn) {
      assert Answered(s, t, s.outcomes[t].msg, s.outcomes[t].turn);
    }
  }

  // ----- a call that is not answered

  // Actor `j` has returned from the turn of call `t` without a reply.
  predicate LeftOpen(s: Sys, j: nat, t: Token) {
    j < |s.actors| && s.actors[j].reply == Some(t) && (s.actors[j].pc.Top? || s.actors[j].pc.Receiving?)
  }

  lemma LeftOpenStays(s: Sys, j: nat, t: Token, step: Step)
    requires LeftOpen(s, j, t) && Enabled(s, step)
    requires step != Receive(j) && (step == Test(j) ==> s.actors[j].running)
    ensures LeftOpen(Apply(s, step), j, t)
  {
  }

  lemma BlockedStays(s: Sys, i: nat, t: Token, step: Step)
    requires i < |s.actors| && s.actors[i].pc == Blocked(t) && t !in s.outcomes && Enabled(s, step)
    requires s.spawned <= i ==> s.actors[i].pc.Unborn?
    ensures i < |Apply(s, step).actors| && Apply(s, step).actors[i].pc == Blocked(t)
  {
  }

  // Then the call stays open, its caller blocked, in any step but the next receive of `j` or its exit.
  lemma UnansweredStep(s: Sys, j: nat, t: Token, step: Step)
    requires Inv(s) && LeftOpen(s, j, t) && Enabled(s, step)
    requires step != Receive(j) && (step == Test(j) ==> s.actors[j].running)
    ensures LeftOpen(Apply(s, step), j, t) && t !in Apply(s, step).outcomes
    ensures forall i | 0 <= i < |s.actors| && s.actors[i].pc == Blocked(t) ::
              i < |Apply(s, step).actors| && Apply(s, step).actors[i].pc == Blocked(t)
  {
    hide Apply, Enabled, Linear, Addressed, FirstReply, Stamped, AllOk;
    StepKeepsInv(s, step);
    LeftOpenStays(s, j, t, step);
    HeldIsOpen(s, j, t);
    HeldIsOpen(Apply(s, step), j, t);
    forall i | 0 <= i < |s.actors| && s.actors[i].pc == Blocked(t)
      ensures i < |Apply(s, step).actors| && Apply(s, step).actors[i].pc == Blocked(t)
    {
      BlockedStays(s, i, t, step);
    }
  }

  // In these steps `j` neither takes its next message nor leaves its loop.
  predicate Undisturbed(s: Sys, j: nat, steps: seq<Step>)
    decreases |steps|
  {
    steps == [] ||
    (Enabled(s, steps[0]) && steps[0] != Receive(j)
     && (steps[0] == Test(j) ==> j < |s.actors| && s.actors[j].running)
     && Undisturbed(Apply(s, steps[0]), j, steps[1..]))
  }

  // So it stays open, and its caller `i` blocked, for as long as `j` neither takes its next message nor
  // ends, whatever else happens and however long that is.
  lemma {:induction false} UnansweredRun(s: Sys, j: nat, t: Token, i: nat, steps: seq<Step>, s': Sys)
    requires Inv(s) && LeftOpen(s, j, t) && i < |s.actors| && s.actors[i].pc == Blocked(t)
    requires Undisturbed(s, j, steps) && Exec(s, steps) == Some(s')
    ensures Inv(s') && LeftOpen(s', j, t) && t !in s'.outcomes
    ensures i < |s'.actors| && s'.actors[i].pc == Blocked(t)
    decreases |steps|
  {
    if steps == [] {
      HeldIsOpen(s, j, t);
    } else {
      hide Inv, LeftOpen, Apply, Enabled;
      UnansweredStep(s, j, t, steps[0]);
      KeepsInv(s, steps[0]);
      UnansweredRun(Apply(s, steps[0]), j, t, i, steps[1..], s');
    }
  }

  lemma KeepsInv(s: Sys, step: Step)
    requires Inv(s) && Enabled(s, step)
    ensures Inv(Apply(s, step))
  {
    hide Apply, Enabled;
    StepKeepsInv(s, step);
  }

  // The steps with which `j` drops what its context holds: its next receive and its exit.
  predicate DropsContext(s: Sys, j: nat, step: Step) {
    j < |s.actors| && (step == Receive(j) || (step == Test(j) && !s.actors[j].running))
  }

  // The same in every run, and with the end of it: no answer.
  lemma UnansweredWaits(names: seq<Name>, before: seq<Step>, s: Sys, j: nat, t: Token, i: nat, steps: seq<Step>, s': Sys)
    requires Run(names, before, s) && LeftOpen(s, j, t) && i < |s.actors| && s.actors[i].pc == Blocked(t)
    requires Undisturbed(s, j, steps) && Exec(s, steps) == Some(s')
    ensures LeftOpen(s', j, t) && t !in s'.outcomes && i < |s'.actors| && s'.actors[i].pc == Blocked(t)
    ensures forall step | Enabled(s', step) && DropsContext(s', j, step) ::
              t in Apply(s', step).outcomes && Apply(s', step).outcomes[t] == Hangup
  {
    hide Apply, Enabled, Inv, Undisturbed, Exec;
    RunInv(names, before, s);
    UnansweredRun(s, j, t, i, steps, s');
    forall step | Enabled(s', step) && DropsContext(s', j, step)
      ensures t in Apply(s', step).outcomes && Apply(s', step).outcomes[t] == Hangup
    {
      UnansweredHangsUp(s', j, t, step);
    }
  }

  // With its next receive or its exit it ends without an answer.
  lemma UnansweredHangsUp(s: Sys, j: nat, t: Token, step: Step)
    requires Inv(s) && LeftOpen(s, j, t) && Enabled(s, step)
    requires step == Receive(j) || (step == Test(j) && !s.actors[j].running)
    ensures t in Apply(s, step).outcomes && Apply(s, step).outcomes[t] == Hangup
  {
  }

  // ----- threads end only when stopped

  // Nothing but stop() makes a managed actor leave its loop: in a run without it every actor keeps
  // running, Shutdown message or not.
  lemma {:induction false} NeverExits(s: Sys, steps: seq<Step>, t: Sys)
    requires forall i | 0 <= i < |s.actors| :: s.actors[i].running && !s.actors[i].pc.Gone?
    requires forall step | step in steps :: !step.Stop?
    requires Exec(s, steps) == Some(t)
    ensures forall i | 0 <= i < |t.actors| :: t.actors[i].running && !t.actors[i].pc.Gone?
    decreases |steps|
  {
    if steps != [] {
      KeepsRunning(s, steps[0]);
      NeverExits(Apply(s, steps[0]), steps[1..], t);
    }
  }

  // The threads that wait() joins are those of the actors that init() has spawned.
  predicate AllJoined(s: Sys) {
    forall i | 0 <= i < s.spawned && i < |s.actors| :: s.actors[i].pc.Gone?
  }

  // So Manager::wait(), and end() with it, can return if and only if no actor was ever spawned, shutdown()
  // or not.
  lemma WaitReturnsIff(names: seq<Name>, steps: seq<Step>, s: Sys)
    requires Run(names, steps, s) && forall step | step in steps :: !step.Stop?
    ensures AllJoined(s) <==> s.spawned == 0
  {
    RunInv(names, steps, s);
    NeverExits(NewSys(names), steps, s);
    if s.spawned > 0 {
      assert !s.actors[0].pc.Gone?;
    }
  }

  lemma KeepsRunning(s: Sys, step: Step)
    requires forall i | 0 <= i < |s.actors| :: s.actors[i].running && !s.actors[i].pc.Gone?
    requires Enabled(s, step) && !step.Stop?
    ensures var t := Apply(s, step);
            forall i | 0 <= i < |t.actors| :: t.actors[i].running && !t.actors[i].pc.Gone?
  {
  }

  // Turns that actor `a` can still begin after stop(): the flag is read only at the top of the loop,
  // so one that is already inside recv() handles one more message.
  function MoreTurns(a: Actor): nat {
    if a.pc.Receiving? then 1 else 0
  }

  lemma {:induction false} StopIsLate(s: Sys, steps: seq<Step>, t: Sys, i: nat)
    requires i < |s.actors| && !s.actors[i].running
    requires Exec(s, steps) == Some(t)
    ensures i < |t.actors| && !t.actors[i].running
    ensures |t.actors[i].turns| + MoreTurns(t.actors[i]) <= |s.actors[i].turns| + MoreTurns(s.actors[i])
    decreases |steps|
  {
    if steps != [] {
      StoppedStep(s, steps[0], i);
      StopIsLate(Apply(s, steps[0]), steps[1..], t, i);
    }
  }

  lemma StoppedStep(s: Sys, step: Step, i: nat)
    requires i < |s.actors| && !s.actors[i].running && Enabled(s, step)
    ensures var t := Apply(s, step);
            && i < |t.actors| && !t.actors[i].running
            && |t.actors[i].turns| + MoreTurns(t.actors[i]) <= |s.actors[i].turns| + MoreTurns(s.actors[i])
  {
  }
}

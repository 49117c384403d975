// When synchronous calls between actors can block for ever.
module ActorProgress {
  import opened Vocabulary
  import opened ActorModel
  import opened ActorInvariants
  import opened ActorTheorems

  // A step of the runtime itself: of init() or of an actor's thread, without new sends or calls.
  predicate Internal(step: Step) {
    step.SendBoot? || step.Spawn? || step.Test? || step.Receive? || step.Reply? || step.Return? || step.Finish?
  }

  // Handlers always reply: none returns while it still has the reply channel of its call.
  predicate Replies(s: Sys, step: Step) {
    step.Finish? ==> step.actor < |s.actors| && s.actors[step.actor].reply.None?
  }

  // Calls go to actors of strictly lower rank.
  predicate Descends(rank: nat -> nat, step: Step) {
    step.Call? ==> rank(step.to) < rank(step.actor)
  }

  predicate Polite(s: Sys, steps: seq<Step>)
    decreases |steps|
  {
    steps != [] ==>
      Enabled(s, steps[0]) && Replies(s, steps[0]) && Polite(Apply(s, steps[0]), steps[1..])
  }

  // An actor that is not inside a handler holds no reply channel.
  predicate IdleIsFree(s: Sys) {
    forall i | 0 <= i < |s.actors| :: s.actors[i].reply.Some? ==> s.actors[i].pc.Running? || s.actors[i].pc.Blocked?
  }

  predicate Ranked(rank: nat -> nat, s: Sys) {
    forall i | 0 <= i < |s.actors| && s.actors[i].pc.Blocked? ::
      s.actors[i].pc.token < |s.calls| && rank(s.calls[s.actors[i].pc.token].target) < rank(i)
  }

  // Actor `i` is as free afterwards as it was: what it holds and whether it is inside a handler.
  predicate AsFree(a: Actor, b: Actor) {
    b.reply == a.reply && ((a.pc.Running? || a.pc.Blocked?) ==> (b.pc.Running? || b.pc.Blocked?))
  }

  lemma QuietKeepsFree(s: Sys, step: Step)
    requires InOrder(s) && Enabled(s, step)
    requires !step.Test? && !step.Receive? && !step.Reply? && !step.Finish?
    ensures |Apply(s, step).actors| == |s.actors|
    ensures forall i | 0 <= i < |s.actors| :: AsFree(s.actors[i], Apply(s, step).actors[i])
  {
  }

  lemma StepKeepsFree(s: Sys, step: Step)
    requires InOrder(s) && IdleIsFree(s) && Enabled(s, step) && Replies(s, step)
    ensures IdleIsFree(Apply(s, step))
  {
    if !step.Test? && !step.Receive? && !step.Reply? && !step.Finish? {
      QuietKeepsFree(s, step);
      hide Apply, Enabled, InOrder, Replies;
    }
  }

  // No actor begins to wait.
  predicate NoNewWait(s: Sys, t: Sys) {
    && |t.actors| == |s.actors| && s.calls <= t.calls
    && forall i | 0 <= i < |s.actors| && t.actors[i].pc.Blocked? :: t.actors[i].pc == s.actors[i].pc
  }

  lemma OtherStepIsNoWait(s: Sys, step: Step)
    requires Enabled(s, step) && !step.Call?
    ensures NoNewWait(s, Apply(s, step))
  {
  }

  lemma NoWaitKeepsRanked(rank: nat -> nat, s: Sys, t: Sys)
    requires Ranked(rank, s) && NoNewWait(s, t)
    ensures Ranked(rank, t)
  {
  }

  lemma CallKeepsRanked(rank: nat -> nat, s: Sys, step: Step)
    requires Ranked(rank, s) && step.Call? && Enabled(s, step) && Descends(rank, step)
    ensures Ranked(rank, CallStep(s, step.actor, step.to, step.msg, step.sender))
  {
  }

  lemma StepKeepsRanked(rank: nat -> nat, s: Sys, step: Step)
    requires Ranked(rank, s) && Enabled(s, step) && Descends(rank, step)
    ensures Ranked(rank, Apply(s, step))
  {
    hide Ranked, NoNewWait, CallStep;
    if step.Call? {
      CallKeepsRanked(rank, s, step);
    } else {
      OtherStepIsNoWait(s, step);
      NoWaitKeepsRanked(rank, s, Apply(s, step));
    }
  }

  lemma {:induction false} PoliteRun(s: Sys, steps: seq<Step>, t: Sys)
    requires Inv(s) && IdleIsFree(s) && Polite(s, steps) && Exec(s, steps) == Some(t)
    ensures Inv(t) && IdleIsFree(t)
    decreases |steps|
  {
    hide IdleIsFree, Apply, Enabled, Replies, Stamped, Linear, Addressed, FirstReply, AllOk, InOrder;
    if steps != [] {
      StepKeepsInv(s, steps[0]);
      StepKeepsFree(s, steps[0]);
      PoliteRun(Apply(s, steps[0]), steps[1..], t);
    }
  }

  lemma {:induction false} RankedRun(rank: nat -> nat, s: Sys, steps: seq<Step>, t: Sys)
    requires Ranked(rank, s) && Exec(s, steps) == Some(t)
    requires forall step | step in steps :: Descends(rank, step)
    ensures Ranked(rank, t)
    decreases |steps|
  {
    hide Ranked, Apply, Enabled, Descends;
    if steps != [] {
      StepKeepsRanked(rank, s, steps[0]);
      RankedRun(rank, Apply(s, steps[0]), steps[1..], t);
    }
  }

  // ----- knots

  // Actors that wait for each other: the token of each is held by one that also waits.
  ghost predicate Knot(s: Sys, c: set<nat>) {
    && c != {}
    && forall i {:trigger Tied(s, c, i)} | i in c :: Tied(s, c, i)
  }

  ghost predicate Tied(s: Sys, c: set<nat>, i: nat) {
    && i < |s.actors| && s.actors[i].pc.Blocked?
    && exists j :: j in c && j < |s.actors| && InActor(s.actors[j], s.actors[i].pc.token) > 0
  }

  // While an actor is blocked its mailbox only grows and its context stays.
  lemma BlockedGrows(s: Sys, j: nat, step: Step)
    requires j < |s.actors| && s.actors[j].pc.Blocked? && s.actors[j].pc.token !in s.outcomes && Enabled(s, step)
    ensures j < |Apply(s, step).actors|
    ensures var a, b := s.actors[j], Apply(s, step).actors[j];
            && b.reply == a.reply
            && (b.mailbox == a.mailbox
                || (|b.mailbox| == |a.mailbox| + 1 && b.mailbox == a.mailbox + [b.mailbox[|a.mailbox|]]))
  {
  }

  lemma BlockedKeeps(s: Sys, j: nat, t: Token, step: Step)
    requires j < |s.actors| && s.actors[j].pc.Blocked? && s.actors[j].pc.token !in s.outcomes
    requires Enabled(s, step) && InActor(s.actors[j], t) > 0
    ensures j < |Apply(s, step).actors| && InActor(Apply(s, step).actors[j], t) > 0
  {
    hide Apply, Enabled;
    BlockedGrows(s, j, step);
    var a, b := s.actors[j], Apply(s, step).actors[j];
    if b.mailbox != a.mailbox {
      InMailSnoc(a.mailbox, b.mailbox[|a.mailbox|], t);
    }
  }

  lemma KnotHolder(s: Sys, c: set<nat>, i: nat) returns (j: nat)
    requires Linear(s) && Tied(s, c, i)
    ensures i < |s.actors| && s.actors[i].pc.Blocked? && s.actors[i].pc.token !in s.outcomes
    ensures j in c && j < |s.actors| && InActor(s.actors[j], s.actors[i].pc.token) > 0
  {
    j :| j in c && j < |s.actors| && InActor(s.actors[j], s.actors[i].pc.token) > 0;
    HeldIsOpen(s, j, s.actors[i].pc.token);
  }

  lemma KnotStays(s: Sys, c: set<nat>, step: Step)
    requires Linear(s) && InOrder(s) && Knot(s, c) && Enabled(s, step)
    ensures Knot(Apply(s, step), c)
  {
    hide Apply, Enabled, Linear, InActor;
    var s' := Apply(s, step);
    forall i | i in c ensures Tied(s', c, i) {
      assert Tied(s, c, i);
      var t := s.actors[i].pc.token;
      var j := KnotHolder(s, c, i);
      assert Tied(s, c, j);
      var _ := KnotHolder(s, c, j);
      BlockedStays(s, i, t, step);
      BlockedKeeps(s, j, t, step);
    }
  }

  // No step of any thread, stop() included, ever unties a knot.
  lemma {:induction false} KnotForever(s: Sys, c: set<nat>, steps: seq<Step>, t: Sys)
    requires Inv(s) && Knot(s, c) && Exec(s, steps) == Some(t)
    ensures Knot(t, c)
    decreases |steps|
  {
    hide Knot, Apply, Enabled, Stamped, Linear, Addressed, FirstReply, AllOk, InOrder;
    if steps != [] {
      StepKeepsInv(s, steps[0]);
      KnotStays(s, c, steps[0]);
      KnotForever(Apply(s, steps[0]), c, steps[1..], t);
    }
  }

  // So its members stay blocked.
  lemma KnotHangs(s: Sys, c: set<nat>, i: nat, steps: seq<Step>, t: Sys)
    requires Inv(s) && Knot(s, c) && i in c && Exec(s, steps) == Some(t)
    ensures i < |t.actors| && t.actors[i].pc.Blocked?
  {
    KnotForever(s, c, steps, t);
    hide Inv, Exec, InActor;
    assert Tied(t, c, i);
  }

  // CallStep, one actor at a time.
  lemma CallActors(s: Sys, i: nat, j: nat, msg: Message, sender: Option<Ref>)
    requires Enabled(s, Call(i, j, msg, sender)) && !s.actors[j].pc.Gone?
    ensures var s' := CallStep(s, i, j, msg, sender);
            var env := Envelope(msg, sender, Some(|s.calls|));
            && |s'.actors| == |s.actors|
            && (forall k | 0 <= k < |s.actors| ::
                  var a := if k == j then Deliver(s.actors[k], From(i), env) else s.actors[k];
                  s'.actors[k] == if k == i then a.(pc := Blocked(|s.calls|)) else a)
  {
  }

  lemma PcHoldsNothing(a: Actor, pc: Pc, t: Token)
    ensures InActor(a.(pc := pc), t) == InActor(a, t)
  {
  }

  lemma CallPlacesToken(s: Sys, i: nat, j: nat, msg: Message, sender: Option<Ref>, t: Token)
    requires Enabled(s, Call(i, j, msg, sender)) && !s.actors[j].pc.Gone?
    ensures var s' := CallStep(s, i, j, msg, sender);
            && |s'.actors| == |s.actors| && s'.actors[i].pc == Blocked(|s.calls|)
            && (forall k | 0 <= k < |s.actors| && k != i :: s'.actors[k].pc == s.actors[k].pc)
            && InActor(s'.actors[j], |s.calls|) > 0
            && InActor(s'.actors[i], t) >= InActor(s.actors[i], t)
  {
    CallActors(s, i, j, msg, sender);
    var env := Envelope(msg, sender, Some(|s.calls|));
    var d := Deliver(s.actors[j], From(i), env);
    assert d.pc == s.actors[j].pc;
    DeliverCounts(s.actors[j], From(i), env, |s.calls|);
    DeliverCounts(s.actors[j], From(i), env, t);
    PcHoldsNothing(d, Blocked(|s.calls|), |s.calls|);
    PcHoldsNothing(d, Blocked(|s.calls|), t);
    PcHoldsNothing(s.actors[i], Blocked(|s.calls|), t);
    hide CallStep, Deliver, InActor;
  }

  // Two blocked actors, or one, that hold each other's tokens.
  lemma PairIsKnot(s: Sys, i: nat, j: nat)
    requires i < |s.actors| && s.actors[i].pc.Blocked? && j < |s.actors| && s.actors[j].pc.Blocked?
    requires InActor(s.actors[j], s.actors[i].pc.token) > 0 && InActor(s.actors[i], s.actors[j].pc.token) > 0
    ensures Knot(s, {i, j})
  {
    hide InActor;
    assert Tied(s, {i, j}, i) && Tied(s, {i, j}, j);
  }

  lemma CallKeepsInv(s: Sys, i: nat, j: nat, msg: Message, sender: Option<Ref>)
    requires Inv(s) && Enabled(s, Call(i, j, msg, sender))
    ensures Inv(CallStep(s, i, j, msg, sender))
  {
    hide Inv, CallStep;
    StepKeepsInv(s, Call(i, j, msg, sender));
  }

  // A fast_send of an actor to itself never returns.
  lemma SelfCallHangs(s: Sys, i: nat, msg: Message, sender: Option<Ref>, steps: seq<Step>, t: Sys)
    requires Inv(s) && Enabled(s, Call(i, i, msg, sender))
    requires Exec(CallStep(s, i, i, msg, sender), steps) == Some(t)
    ensures i < |t.actors| && t.actors[i].pc.Blocked?
  {
    hide CallStep, Exec, InActor, Inv;
    var s' := CallStep(s, i, i, msg, sender);
    CallPlacesToken(s, i, i, msg, sender, 0);
    CallKeepsInv(s, i, i, msg, sender);
    PairIsKnot(s', i, i);
    KnotHangs(s', {i, i}, i, steps, t);
  }

  // Nor do two that call each other, if the second calls before it has replied.
  lemma MutualCallHangs(s: Sys, i: nat, j: nat, msg: Message, sender: Option<Ref>, steps: seq<Step>, t: Sys)
    requires Inv(s) && i != j && i < |s.actors| && s.actors[i].pc.Blocked?
    requires Enabled(s, Call(j, i, msg, sender)) && InActor(s.actors[j], s.actors[i].pc.token) > 0
    requires Exec(CallStep(s, j, i, msg, sender), steps) == Some(t)
    ensures i < |t.actors| && t.actors[i].pc.Blocked? && j < |t.actors| && t.actors[j].pc.Blocked?
  {
    hide CallStep, Exec, InActor, Inv;
    var s' := CallStep(s, j, i, msg, sender);
    CallPlacesToken(s, j, i, msg, sender, s.actors[i].pc.token);
    CallKeepsInv(s, j, i, msg, sender);
    PairIsKnot(s', i, j);
    KnotHangs(s', {i, j}, i, steps, t);
    KnotHangs(s', {i, j}, j, steps, t);
  }

  // ----- progress

  predicate Waits(a: Actor) {
    a.pc.Blocked? || (!a.pc.Gone? && a.mailbox != [])
  }

  // The next step of actor `i`, if its thread is not waiting for a message or for a reply.
  lemma OwnStep(s: Sys, i: nat) returns (step: Step)
    requires Inv(s) && i < |s.actors| && s.spawned == |s.actors|
    requires s.actors[i].pc.Top? || s.actors[i].pc.Running?
             || (s.actors[i].pc.Receiving? && s.actors[i].mailbox != [])
             || (s.actors[i].pc.Blocked? && s.actors[i].pc.token in s.outcomes)
    ensures Internal(step) && Enabled(s, step) && Replies(s, step)
  {
    var a := s.actors[i];
    assert ActorOk(a);
    match a.pc
    case Top => step := Test(i);
    case Running => step := if a.reply.None? then Finish(i) else Reply(i, Start);
    case Receiving => step := Receive(i);
    case Blocked(_) => step := Return(i);
  }

  // Every actor waits: for a message, or for the reply to a call that is still open.
  predicate AllWait(s: Sys) {
    forall k | 0 <= k < |s.actors| ::
      || s.actors[k].pc.Gone?
      || (s.actors[k].pc.Receiving? && s.actors[k].mailbox == [])
      || (s.actors[k].pc.Blocked? && s.actors[k].pc.token !in s.outcomes)
  }

  lemma StuckMeansAllWait(s: Sys)
    requires Inv(s)
    requires forall step | Internal(step) && Enabled(s, step) :: !Replies(s, step)
    ensures AllWait(s)
  {
    assert Internal(SendBoot) && Internal(Spawn) && Replies(s, SendBoot) && Replies(s, Spawn);
    assert s.spawned == |s.actors|;
    forall k: nat | k < |s.actors|
      ensures s.actors[k].pc.Gone? || (s.actors[k].pc.Receiving? && s.actors[k].mailbox == [])
              || (s.actors[k].pc.Blocked? && s.actors[k].pc.token !in s.outcomes)
    {
      if s.actors[k].pc.Top? || s.actors[k].pc.Running?
         || (s.actors[k].pc.Receiving? && s.actors[k].mailbox != [])
         || (s.actors[k].pc.Blocked? && s.actors[k].pc.token in s.outcomes) {
        var step := OwnStep(s, k);
        assert false;
      }
    }
  }

  function BlockedOnes(s: Sys): set<nat> {
    set k: nat | k < |s.actors| && s.actors[k].pc.Blocked?
  }

  lemma BlockedIsKnot(s: Sys)
    requires Linear(s) && Addressed(s) && AllOk(s) && IdleIsFree(s) && AllWait(s) && BlockedOnes(s) != {}
    ensures Knot(s, BlockedOnes(s))
  {
    var c := BlockedOnes(s);
    forall k | k in c ensures Tied(s, c, k) {
      var t := s.actors[k].pc.token;
      assert Places(s, t) == 1;
      var j := InActorsWhere(s.actors, t);
      assert ActorOk(s.actors[j]);
      assert s.actors[j].pc.Blocked?;
    }
  }

  // If no internal step is possible although an actor waits, the blocked actors form a knot.  So when
  // handlers always reply, a knot is the only way to get stuck.
  lemma StuckIsKnot(s: Sys, i: nat)
    requires Inv(s) && IdleIsFree(s) && i < |s.actors| && Waits(s.actors[i])
    requires forall step | Internal(step) && Enabled(s, step) :: !Replies(s, step)
    ensures Knot(s, BlockedOnes(s))
  {
    StuckMeansAllWait(s);
    assert i in BlockedOnes(s);
    BlockedIsKnot(s);
  }

  // Ranks leave no room for a knot.
  lemma {:induction false} RankedHasNoKnot(rank: nat -> nat, s: Sys, c: set<nat>, i: nat)
    requires Linear(s) && Addressed(s) && Ranked(rank, s) && Knot(s, c) && i in c
    ensures false
    decreases rank(i)
  {
    hide Linear;
    assert Tied(s, c, i);
    var j := KnotHolder(s, c, i);
    assert s.calls[s.actors[i].pc.token].target == j;
    RankedHasNoKnot(rank, s, c, j);
  }

  // If handlers always reply and call only actors of lower rank, then whenever a message waits in a
  // mailbox or a caller for its reply, some thread can take a step, for any number of actors and any
  // interleaving, with stop() or without.
  lemma CallsMakeProgress(rank: nat -> nat, names: seq<Name>, steps: seq<Step>, s: Sys, i: nat)
    returns (step: Step)
    requires Run(names, steps, s) && Polite(NewSys(names), steps)
    requires forall step | step in steps :: Descends(rank, step)
    requires i < |s.actors| && Waits(s.actors[i])
    ensures Internal(step) && Enabled(s, step) && Replies(s, step)
  {
    NewSysInv(names);
    PoliteRun(NewSys(names), steps, s);
    RankedRun(rank, NewSys(names), steps, s);
    hide Stamped, Linear, Addressed, FirstReply, AllOk, InOrder, Ranked, IdleIsFree, Polite, Enabled, Replies;
    if step' :| Internal(step') && Enabled(s, step') && Replies(s, step') {
      step := step';
    } else {
      StuckIsKnot(s, i);
      var k :| k in BlockedOnes(s);
      hide BlockedOnes, Knot;
      RankedHasNoKnot(rank, s, BlockedOnes(s), k);
    }
  }
}

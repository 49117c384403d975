// What wait() has done when it returns, whatever the other threads do meanwhile.
module GroupWait {
  import opened Vocabulary
  import opened GroupModel
  import opened GroupInvariants
  import opened GroupTheorems

  // How often end() was called.
  function Ends(log: seq<Event>): nat {
    if log == [] then 0 else Ends(log[..|log| - 1]) + if log[|log| - 1].End? then 1 else 0
  }

  lemma EndsSnoc(log: seq<Event>, e: Event)
    ensures Ends(log + [e]) == Ends(log) + if e.End? then 1 else 0
  {
    assert (log + [e])[..|log|] == log;
  }

  predicate InWait<S>(s: Pool<S>) {
    s.owner.Ending? || s.owner.InEnd?
  }

  function ToDo<S>(s: Pool<S>): set<Name>
    requires InWait(s)
  {
    s.owner.todo
  }

  // Since wait() began, with the logs `before`, end() has been called once on each actor outside `todo`.
  ghost predicate WaitingSince<S>(before: map<Name, seq<Event>>, s: Pool<S>) {
    && InWait(s) && s.members.Keys == before.Keys == s.events.Keys
    && forall d | d in s.events :: Ends(s.events[d]) == Ends(before[d]) + if d in ToDo(s) then 0 else 1
  }

  lemma SameLogs<S>(before: map<Name, seq<Event>>, s: Pool<S>, t: Pool<S>)
    requires WaitingSince(before, s) && t.owner == s.owner && t.members.Keys == s.members.Keys
    requires t.events.Keys == s.events.Keys && forall d | d in s.events :: Ends(t.events[d]) == Ends(s.events[d])
    ensures WaitingSince(before, t)
  {
    hide Ends;
  }

  lemma WorkKeepsEnding<S>(c: Config<S>, before: map<Name, seq<Event>>, s: Pool<S>, w: nat)
    requires Locks(s) && WaitingSince(before, s) && CanWork(s, w)
    ensures WaitingSince(before, WorkStep(c, s, w))
  {
    WorkEffect(c, s, w);
    hide WorkStep, CanWork, Neutral, Locks, Ends;
    var pc, t := s.workers[w], WorkStep(c, s, w);
    if pc.Got? && pc.item.dest in s.members {
      EndsSnoc(s.events[pc.item.dest], Handled(pc.item));
    }
    SameLogs(before, s, t);
  }

  lemma EndKeepsEnding<S>(c: Config<S>, before: map<Name, seq<Event>>, s: Pool<S>, call: Call)
    requires Locks(s) && WaitingSince(before, s) && CanCall(s, call) && call != Join
    ensures WaitingSince(before, CallStep(c, s, call))
  {
    hide Ends, Locks;
    assert call.LockForEnd? || call.FinishEnd?;
    if call.LockForEnd? {
      EndsSnoc(s.events[call.dest], End);
    } else {
      OwnerKnown(s);
    }
  }

  lemma OwnerKnown<S>(s: Pool<S>)
    requires Locks(s) && s.owner.InEnd?
    ensures s.owner.name in s.members
  {
  }

  lemma StepKeepsEnding<S>(c: Config<S>, before: map<Name, seq<Event>>, s: Pool<S>, step: Step)
    requires Inv(c, s) && WaitingSince(before, s) && Enabled(s, step) && step != Own(Join)
    ensures WaitingSince(before, Apply(c, s, step))
  {
    hide WaitingSince, MoveStep, WorkStep, CallStep, CanMove, CanWork, CanCall, Queue, Pipes, Guard, Serial, Logs,
      Accounted, Bounded, Alone, Drained, Locks, Shape;
    match step
    case Move(t) => MoveKeepsEnding(before, s, Apply(c, s, step));
    case Work(w) => WorkKeepsEnding(c, before, s, w);
    case Own(call) => EndKeepsEnding(c, before, s, call);
  }

  lemma MoveKeepsEnding<S>(before: map<Name, seq<Event>>, s: Pool<S>, t: Pool<S>)
    requires WaitingSince(before, s) && t == s.(net := t.net)
    ensures WaitingSince(before, t)
  {
    SameLogs(before, s, t);
  }

  lemma {:induction false} ExecKeepsEnding<S>(c: Config<S>, before: map<Name, seq<Event>>, s: Pool<S>, steps: seq<Step>,
                                              t: Pool<S>)
    requires Inv(c, s) && WaitingSince(before, s) && Exec(c, s, steps) == Some(t) && Own(Join) !in steps
    ensures Inv(c, t) && WaitingSince(before, t)
    decreases |steps|
  {
    hide Inv, WaitingSince, Apply, Enabled;
    if steps != [] {
      StepKeepsEnding(c, before, s, steps[0]);
      StepKeepsInv(c, s, steps[0]);
      ExecKeepsEnding(c, before, Apply(c, s, steps[0]), steps[1..], t);
    }
  }

  // wait() returns only when all workers have exited, and has then called end() exactly once on every
  // actor, however the workers, forwarders and clients go on while it runs.
  lemma WaitReturns<S>(c: Config<S>, before: seq<Step>, s: Pool<S>, steps: seq<Step>, t: Pool<S>)
    requires Run(c, before, s) && Enabled(s, Own(BeginWait))
    requires Own(Join) !in steps && Exec(c, Apply(c, s, Own(BeginWait)), steps) == Some(t) && Enabled(t, Own(Join))
    ensures AllExited(t) && t.members.Keys == s.members.Keys == t.events.Keys == s.events.Keys
    ensures forall d | d in t.events :: Ends(t.events[d]) == Ends(s.events[d]) + 1
  {
    RunInv(c, before, s);
    hide Inv, Exec, Run, WaitingSince, Ends, AllExited, Apply, Enabled;
    BeginsEnding(c, s);
    ExecKeepsEnding(c, s.events, Apply(c, s, Own(BeginWait)), steps, t);
    CanReturn(s.events, t);
  }

  lemma BeginsEnding<S>(c: Config<S>, s: Pool<S>)
    requires Inv(c, s) && Enabled(s, Own(BeginWait))
    ensures var t := Apply(c, s, Own(BeginWait)); Inv(c, t) && WaitingSince(s.events, t)
    ensures s.events.Keys == s.members.Keys
  {
    AllToDo(c, s) by { assert Shape(c, s); }
    StepKeepsInv(c, s, Own(BeginWait));
    hide Inv, WaitingSince;
  }

  lemma AllToDo<S>(c: Config<S>, s: Pool<S>)
    requires Shape(c, s) && Enabled(s, Own(BeginWait))
    ensures WaitingSince(s.events, Apply(c, s, Own(BeginWait))) && s.events.Keys == s.members.Keys
  {
    hide Ends;
  }

  lemma CanReturn<S>(before: map<Name, seq<Event>>, t: Pool<S>)
    requires WaitingSince(before, t) && Enabled(t, Own(Join))
    ensures AllExited(t) && t.members.Keys == before.Keys == t.events.Keys
    ensures forall d | d in t.events :: Ends(t.events[d]) == Ends(before[d]) + 1
  {
    hide Ends, AllExited;
  }
}

// When end() is the last call that the actors of a thread pool receive.
module GroupEnd {
  import opened Vocabulary
  import opened GroupModel
  import opened GroupInvariants
  import opened GroupTheorems
  import opened GroupShutdown
  import opened GroupLimits

  // A step of wait(), of a forwarder or of a worker: nobody else uses the Group or its references.
  predicate Unprompted(step: Step) {
    match step
    case Move(t) => !t.ClientSend?
    case Own(call) => call.BeginWait? || call.LockForEnd? || call.FinishEnd? || call.Join?
    case Work(_) => true
  }

  ghost predicate Reaches<S>(c: Config<S>, s: Pool<S>, path: seq<Step>, t: Pool<S>) {
    Exec(c, s, path) == Some(t) && forall step | step in path :: Unprompted(step)
  }

  // ----- what is on its way to an actor

  predicate ForMember<S>(s: Pool<S>, h: nat) {
    h < |s.net.handles| && s.net.handles[h].dest in s.members
  }

  predicate InChannel<S>(s: Pool<S>, h: nat) {
    ForMember(s, h) && (s.net.handles[h].wrapper != [] || s.net.handles[h].hand.Some?)
  }

  predicate InQueue<S>(s: Pool<S>, k: nat) {
    k < |s.net.queue| && s.net.queue[k].dest in s.members
  }

  predicate AtWorker<S>(s: Pool<S>, w: nat) {
    && w < |s.workers|
    && ((s.workers[w].Got? && s.workers[w].item.dest in s.members) || (s.workers[w].Busy? && Sending(s, s.workers[w].out)))
  }

  // A handler still has a send to an actor to make.
  predicate Sending<S>(s: Pool<S>, out: seq<Send>) {
    exists k :: 0 <= k < |out| && ForMember(s, out[k].handle)
  }

  ghost predicate Pending<S>(s: Pool<S>) {
    || (exists h: nat :: InChannel(s, h))
    || (exists k: nat :: InQueue(s, k))
    || (exists w: nat :: AtWorker(s, w))
  }

  // ----- without anything on its way

  predicate OwnerCalm<S>(s: Pool<S>) {
    s.owner.Idle? || s.owner.Ending? || s.owner.InEnd?
  }

  ghost predicate Calm<S>(s: Pool<S>) {
    s.started && OwnerCalm(s) && (AllExited(s) || !Pending(s))
  }

  // Actors are called for end() only.
  ghost predicate OnlyEnds<S>(s: Pool<S>, t: Pool<S>) {
    forall d | d in t.events :: d in s.events && (t.events[d] == s.events[d] || t.events[d] == s.events[d] + [End])
  }

  lemma OnlyEndsKeepsLast<S>(s: Pool<S>, t: Pool<S>)
    requires EndIsLast(s) && OnlyEnds(s, t)
    ensures EndIsLast(t)
  {
  }

  lemma CalmMove<S>(s: Pool<S>, t: Traffic)
    requires Queue(s.net) && Calm(s) && CanMove(s.net, t) && !t.ClientSend?
    ensures Calm(s.(net := MoveStep(s.net, t)))
  {
    var s' := s.(net := MoveStep(s.net, t));
    if !AllExited(s) {
      forall h: nat ensures !InChannel(s', h) {
        assert !InChannel(s, h);
      }
      forall k: nat ensures !InQueue(s', k) {
        assert !InQueue(s, k) && !InChannel(s, t.handle);
      }
      forall w: nat ensures !AtWorker(s', w) {
        assert !AtWorker(s, w);
        SameSending(s, s');
      }
    }
  }

  // What a step does to channels and members that matters here.
  ghost predicate SameDests<S>(s: Pool<S>, t: Pool<S>) {
    && |t.net.handles| == |s.net.handles| && t.members.Keys == s.members.Keys
    && forall h | 0 <= h < |s.net.handles| :: t.net.handles[h].dest == s.net.handles[h].dest
  }

  lemma SameSending<S>(s: Pool<S>, t: Pool<S>)
    requires SameDests(s, t)
    ensures forall h: nat :: ForMember(t, h) == ForMember(s, h)
    ensures forall out: seq<Send> :: Sending(t, out) == Sending(s, out)
  {
    assert forall h: nat :: ForMember(t, h) == ForMember(s, h);
    hide ForMember;
    forall out: seq<Send> ensures Sending(t, out) == Sending(s, out) {
      assert forall k | 0 <= k < |out| :: ForMember(t, out[k].handle) == ForMember(s, out[k].handle);
    }
  }

  lemma CalmCall<S>(c: Config<S>, s: Pool<S>, call: Call)
    requires Shape(c, s) && Locks(s) && Calm(s) && CanCall(s, call) && Unprompted(Own(call))
    ensures Calm(CallStep(c, s, call)) && OnlyEnds(s, CallStep(c, s, call))
  {
    var t := CallStep(c, s, call);
    assert SameDests(s, t);
    SameSending(s, t);
    if !AllExited(s) {
      assert forall h: nat :: InChannel(t, h) == InChannel(s, h);
      assert forall k: nat :: InQueue(t, k) == InQueue(s, k);
      assert forall w: nat :: AtWorker(t, w) == AtWorker(s, w);
    }
  }

  // What happens to the handles and members in a step of a worker that calls no actor, and what comes of
  // a running handler.
  lemma WorkDests<S>(c: Config<S>, s: Pool<S>, w: nat)
    requires Locks(s) && CanWork(s, w) && !Locking(s, w)
    ensures var t := WorkStep(c, s, w);
            && SameDests(s, t) && w < |t.workers|
            && (t.workers[w].Busy? ==>
                  s.workers[w].Busy? && s.workers[w].out != [] && t.workers[w].out == s.workers[w].out[1..])
  {
    WorkEffect(c, s, w);
    hide WorkStep, CanWork, Locks;
  }

  lemma CalmWork<S>(c: Config<S>, s: Pool<S>, w: nat)
    requires Locks(s) && Calm(s) && CanWork(s, w)
    ensures Calm(WorkStep(c, s, w)) && OnlyEnds(s, WorkStep(c, s, w))
  {
    assert !AtWorker(s, w);
    var t := WorkStep(c, s, w);
    WorkDests(c, s, w);
    WorkEffect(c, s, w);
    hide WorkStep, CanWork, Locks, Neutral;
    SameSending(s, t);
    assert t.events == s.events;
    forall h: nat ensures !InChannel(t, h) {
      assert !InChannel(s, h) && !AtWorker(s, w);
      if s.workers[w].Busy? && s.workers[w].out != [] {
        assert !ForMember(s, s.workers[w].out[0].handle);
      }
    }
    forall k: nat ensures !InQueue(t, k) {
      assert !InQueue(s, k) && !InQueue(s, k + 1);
    }
    forall v: nat ensures !AtWorker(t, v) {
      assert !AtWorker(s, v) && !InQueue(s, 0);
      if v == w && t.workers[w].Busy? {
        TailSends(s, s.workers[w].out);
      }
    }
  }

  lemma TailSends<S>(s: Pool<S>, out: seq<Send>)
    requires out != [] && !Sending(s, out)
    ensures !Sending(s, out[1..])
  {
    forall k | 0 <= k < |out[1..]| ensures !ForMember(s, out[1..][k].handle) {
      assert !ForMember(s, out[k + 1].handle);
    }
  }

  lemma CalmStep<S>(c: Config<S>, s: Pool<S>, step: Step)
    requires Inv(c, s) && Calm(s) && Enabled(s, step) && Unprompted(step)
    ensures Calm(Apply(c, s, step)) && OnlyEnds(s, Apply(c, s, step))
  {
    hide Calm, OnlyEnds, MoveStep, WorkStep, CallStep, Queue, Pipes, Guard, Serial, Logs, Accounted, Bounded, Alone,
      Drained, Locks, Shape;
    match step
    case Move(t) =>
      CalmMove(s, t);
      SameEvents(s, Apply(c, s, step));
    case Work(w) => CalmWork(c, s, w);
    case Own(call) => CalmCall(c, s, call);
  }

  lemma SameEvents<S>(s: Pool<S>, t: Pool<S>)
    requires t.events == s.events
    ensures OnlyEnds(s, t)
  {
  }

  lemma {:induction false} CalmRun<S>(c: Config<S>, s: Pool<S>, path: seq<Step>, t: Pool<S>)
    requires Inv(c, s) && Calm(s) && EndIsLast(s) && Reaches(c, s, path, t)
    ensures EndIsLast(t)
    decreases |path|
  {
    hide Inv, Calm, Apply, Enabled, EndIsLast, OnlyEnds, Unprompted;
    if path != [] {
      CalmStep(c, s, path[0]);
      OnlyEndsKeepsLast(s, Apply(c, s, path[0]));
      StepKeepsInv(c, s, path[0]);
      CalmRun(c, Apply(c, s, path[0]), path[1..], t);
    }
  }

  // ----- with something on its way

  // A state on a run from `s` that only forwarders, workers and wait() make, with work still to be done.
  ghost predicate Along<S>(c: Config<S>, s: Pool<S>, path: seq<Step>, t: Pool<S>) {
    Reaches(c, s, path, t) && Inv(c, t) && t.started && !AllExited(t)
  }

  lemma GoOn<S>(c: Config<S>, s: Pool<S>, path: seq<Step>, t: Pool<S>, step: Step)
    returns (path': seq<Step>, t': Pool<S>)
    requires Along(c, s, path, t) && Enabled(t, step) && Unprompted(step)
    ensures t' == Apply(c, t, step) && Reaches(c, s, path', t') && Inv(c, t')
  {
    hide Apply, Enabled, Inv, Unprompted;
    ExecSnoc(c, s, path, t, step);
    StepKeepsInv(c, t, step);
    path', t' := path + [step], Apply(c, t, step);
  }

  lemma WorkGoesOn<S>(c: Config<S>, s: Pool<S>, path: seq<Step>, t: Pool<S>, w: nat)
    returns (path': seq<Step>, t': Pool<S>)
    requires Along(c, s, path, t) && CanWork(t, w)
    ensures t' == WorkStep(c, t, w) && Reaches(c, s, path', t') && Inv(c, t') && t'.started
    ensures t'.owner == t.owner && Effect(t, t', w)
  {
    path', t' := GoOn(c, s, path, t, Work(w));
    hide CanWork, WorkStep, Reaches, Shape, Queue, Pipes, Guard, Serial, Logs, Accounted, Bounded, Alone, Drained;
    WorkEffect(c, t, w);
  }

  // A handler that has a send to an actor to make leaves an envelope for it.
  lemma BusyKeepsPending<S>(c: Config<S>, s: Pool<S>, w: nat)
    requires Locks(s) && w < |s.workers| && s.workers[w].Busy? && Pending(s)
    ensures Pending(WorkStep(c, s, w))
  {
    var t := WorkStep(c, s, w);
    WorkDests(c, s, w);
    WorkEffect(c, s, w);
    hide WorkStep, Locks, Neutral;
    SameSending(s, t);
    if h: nat :| InChannel(s, h) {
      assert InChannel(t, h);
    } else if k: nat :| InQueue(s, k) {
      assert InQueue(t, k);
    } else {
      var v: nat :| AtWorker(s, v);
      if v != w {
        assert AtWorker(t, v);
      } else {
        SendLands(s, t, w);
      }
    }
  }

  lemma SendLands<S>(s: Pool<S>, t: Pool<S>, w: nat)
    requires w < |s.workers| == |t.workers| && s.workers[w].Busy? && s.workers[w].out != []
    requires Sending(s, s.workers[w].out) && SameDests(s, t)
    requires t.net == SendTo(s.net, s.workers[w].out[0].handle, s.workers[w].out[0].env)
    requires t.workers[w].Busy? && t.workers[w].out == s.workers[w].out[1..]
    ensures Pending(t)
  {
    SameSending(s, t);
    var out := s.workers[w].out;
    if ForMember(s, out[0].handle) {
      assert InChannel(t, out[0].handle);
    } else {
      var k :| 0 <= k < |out| && ForMember(s, out[k].handle);
      assert out[1..][k - 1] == out[k];
      assert ForMember(t, out[1..][k - 1].handle);
      assert AtWorker(t, w);
    }
  }

  predicate NoneBusy<S>(s: Pool<S>) {
    forall w | 0 <= w < |s.workers| :: !s.workers[w].Busy?
  }

  // The running handlers come to their ends.
  lemma {:induction false} Settle<S>(c: Config<S>, s: Pool<S>, path: seq<Step>, t: Pool<S>)
    returns (path': seq<Step>, t': Pool<S>)
    requires Along(c, s, path, t) && t.owner.Idle? && Pending(t)
    ensures Along(c, s, path', t') && t'.owner.Idle? && Pending(t') && NoneBusy(t')
    decreases Effort(t), Outs(t.workers)
  {
    hide Pending, Reaches, Inv, Effort, Outs, WorkStep;
    if w: nat :| w < |t.workers| && t.workers[w].Busy? {
      BusyKeepsPending(c, t, w) by { LocksOf(c, t); }
      WorkDescends(c, t, w);
      path', t' := WorkGoesOn(c, s, path, t, w);
      assert !t'.workers[w].Exited?;
      path', t' := Settle(c, s, path', t');
    } else {
      path', t' := path, t;
    }
  }

  lemma LocksOf<S>(c: Config<S>, s: Pool<S>)
    requires Inv(c, s)
    ensures Locks(s) && s.events.Keys == s.members.Keys
  {
  }

  // end() was the n-th call of actor `d`.
  predicate Ended<S>(s: Pool<S>, d: Name, n: nat) {
    d in s.members && d in s.events && n < |s.events[d]| && s.events[d][n].End?
  }

  predicate HandledLater<S>(s: Pool<S>, d: Name, n: nat) {
    Ended(s, d, n) && exists j :: n < j < |s.events[d]| && s.events[d][j].Handled?
  }

  // The three steps of wait() for actor `d`.
  lemma BeginIt<S>(c: Config<S>, s: Pool<S>, path: seq<Step>, t: Pool<S>) returns (path': seq<Step>, t': Pool<S>)
    requires Along(c, s, path, t) && t.owner.Idle?
    ensures Along(c, s, path', t') && t' == t.(owner := Ending(t.members.Keys))
  {
    hide Reaches, Inv;
    path', t' := GoOn(c, s, path, t, Own(BeginWait));
  }

  lemma LockIt<S>(c: Config<S>, s: Pool<S>, path: seq<Step>, t: Pool<S>, d: Name)
    returns (path': seq<Step>, t': Pool<S>, n: nat)
    requires Along(c, s, path, t) && t.owner.Ending? && d in t.owner.todo && d in t.members && d !in t.locks
    ensures Along(c, s, path', t') && t'.owner.InEnd? && t'.owner.name == d && Ended(t', d, n)
    ensures t'.net == t.net && t'.workers == t.workers && t'.members == t.members
  {
    hide Reaches, Inv;
    path', t' := GoOn(c, s, path, t, Own(LockForEnd(d)));
    n := |t'.events[d]| - 1;
  }

  lemma FinishIt<S>(c: Config<S>, s: Pool<S>, path: seq<Step>, t: Pool<S>, d: Name, n: nat)
    returns (path': seq<Step>, t': Pool<S>)
    requires Along(c, s, path, t) && t.owner.InEnd? && t.owner.name == d && Ended(t, d, n)
    ensures Along(c, s, path', t') && t'.owner.Ending? && Ended(t', d, n)
    ensures t'.net == t.net && t'.workers == t.workers && t'.members.Keys == t.members.Keys
  {
    hide Reaches, Inv;
    path', t' := GoOn(c, s, path, t, Own(FinishEnd));
  }

  lemma EndOne<S>(c: Config<S>, s: Pool<S>, path: seq<Step>, t: Pool<S>, d: Name)
    returns (path': seq<Step>, t': Pool<S>, n: nat)
    requires Along(c, s, path, t) && t.owner.Idle? && NoneBusy(t) && d in t.members
    ensures Along(c, s, path', t') && t'.owner.Ending? && Ended(t', d, n)
    ensures t'.net == t.net && t'.workers == t.workers && t'.members.Keys == t.members.Keys
  {
    assert d !in t.locks;
    hide Along, Ended;
    path', t' := BeginIt(c, s, path, t);
    path', t', n := LockIt(c, s, path', t', d);
    path', t' := FinishIt(c, s, path', t', d, n);
  }

  // An envelope for `d` is in the shared queue or in a worker's hand.
  predicate Wanted<S>(s: Pool<S>, d: Name) {
    || (exists k :: 0 <= k < |s.net.queue| && s.net.queue[k].dest == d)
    || (exists w :: 0 <= w < |s.workers| && s.workers[w].Got? && s.workers[w].item.dest == d)
  }

  // A worker's step leaves it there or hands it to the actor.
  lemma DriveStep<S>(s: Pool<S>, t: Pool<S>, w: nat, d: Name, n: nat)
    requires Effect(s, t, w) && Wanted(s, d) && Ended(s, d, n) && !AllExited(s)
    ensures HandledLater(t, d, n) || (Wanted(t, d) && Ended(t, d, n) && !AllExited(t))
  {
    var pc, pc' := s.workers[w], t.workers[w];
    assert Ended(t, d, n);
    if pc.Got? && pc.item.dest == d {
      assert t.events[d][|s.events[d]|].Handled?;
    } else if v :| 0 <= v < |s.workers| && s.workers[v].Got? && s.workers[v].item.dest == d {
      assert t.workers[v] == s.workers[v];
    } else {
      var k :| 0 <= k < |s.net.queue| && s.net.queue[k].dest == d;
      assert !pc'.Exited?;
      if pc'.Got? {
        assert k > 0 ==> t.net.queue[k - 1] == s.net.queue[k];
      } else {
        assert t.net.queue == s.net.queue;
      }
    }
  }

  // A worker whose step brings the envelope nearer.
  lemma NextWorker<S>(c: Config<S>, s: Pool<S>, d: Name) returns (w: nat)
    requires Inv(c, s) && Wanted(s, d) && !AllExited(s) && s.owner.Ending?
    ensures CanWork(s, w) && !Spins(s, w)
  {
    if v: nat :| v < |s.workers| && s.workers[v].Busy? {
      w := v;
    } else {
      assert forall e :: e !in s.locks;
      if v: nat :| v < |s.workers| && s.workers[v].Got? {
        w := v;
      } else {
        assert s.receiver.None?;
        w :| w < |s.workers| && !s.workers[w].Exited?;
      }
    }
  }

  // The workers go on until the actor has been called.
  lemma {:induction false} Drive<S>(c: Config<S>, s: Pool<S>, path: seq<Step>, t: Pool<S>, d: Name, n: nat)
    returns (path': seq<Step>, t': Pool<S>)
    requires Along(c, s, path, t) && t.owner.Ending? && Wanted(t, d) && Ended(t, d, n)
    ensures Reaches(c, s, path', t') && HandledLater(t', d, n)
    decreases Effort(t), Outs(t.workers)
  {
    hide Reaches, Inv, Effort, Outs, WorkStep, CanWork, Wanted, Ended, HandledLater, Spins, Effect;
    var w := NextWorker(c, t, d);
    WorkDescends(c, t, w);
    path', t' := WorkGoesOn(c, s, path, t, w);
    DriveStep(t, t', w, d, n);
    if !HandledLater(t', d, n) {
      path', t' := Drive(c, s, path', t', d, n);
    }
  }

  // The forwarder brings the oldest envelope of its channel into the queue.
  lemma TakeIt<S>(c: Config<S>, s: Pool<S>, path: seq<Step>, t: Pool<S>, h: nat)
    returns (path': seq<Step>, t': Pool<S>)
    requires Along(c, s, path, t) && h < |t.net.handles|
    requires t.net.handles[h].wrapper != [] || t.net.handles[h].hand.Some?
    ensures Along(c, s, path', t') && h < |t'.net.handles| && t'.net.handles[h].hand.Some?
    ensures t'.net.handles[h].dest == t.net.handles[h].dest && t' == t.(net := t'.net)
  {
    hide Reaches, Inv;
    if t.net.handles[h].hand.None? {
      path', t' := GoOn(c, s, path, t, Move(Take(h)));
    } else {
      path', t' := path, t;
    }
  }

  lemma PushIt<S>(c: Config<S>, s: Pool<S>, path: seq<Step>, t: Pool<S>, h: nat)
    returns (path': seq<Step>, t': Pool<S>)
    requires Along(c, s, path, t) && h < |t.net.handles| && t.net.handles[h].hand.Some?
    ensures Along(c, s, path', t') && Wanted(t', t.net.handles[h].dest) && t' == t.(net := t'.net)
  {
    hide Reaches, Inv;
    path', t' := GoOn(c, s, path, t, Move(Push(h)));
    var q := t'.net.queue;
    assert q[|q| - 1].dest == t.net.handles[h].dest;
  }

  lemma Bring<S>(c: Config<S>, s: Pool<S>, path: seq<Step>, t: Pool<S>, h: nat, d: Name, n: nat)
    returns (path': seq<Step>, t': Pool<S>)
    requires Along(c, s, path, t) && t.owner.Ending? && Ended(t, d, n)
    requires InChannel(t, h) && t.net.handles[h].dest == d
    ensures Along(c, s, path', t') && t'.owner.Ending? && Ended(t', d, n) && Wanted(t', d)
  {
    hide Along, Wanted;
    path', t' := TakeIt(c, s, path, t, h);
    path', t' := PushIt(c, s, path', t', h);
  }

  // Whom the envelope that is on its way is for.
  lemma Whom<S>(s: Pool<S>) returns (d: Name)
    requires Pending(s) && NoneBusy(s)
    ensures d in s.members
    ensures Wanted(s, d) || exists h: nat :: InChannel(s, h) && s.net.handles[h].dest == d
  {
    if h: nat :| InChannel(s, h) {
      d := s.net.handles[h].dest;
    } else if k: nat :| InQueue(s, k) {
      d := s.net.queue[k].dest;
    } else {
      var w: nat :| AtWorker(s, w);
      d := s.workers[w].item.dest;
    }
  }

  lemma SameWanted<S>(s: Pool<S>, t: Pool<S>, d: Name)
    requires t.net == s.net && t.workers == s.workers && t.members.Keys == s.members.Keys
    ensures Wanted(t, d) == Wanted(s, d) && forall h: nat :: InChannel(t, h) == InChannel(s, h)
  {
  }

  // With an envelope for an actor on its way and a worker left, wait() can call end() first.
  lemma CanHandleLater<S>(c: Config<S>, s: Pool<S>) returns (path: seq<Step>, t: Pool<S>, d: Name, n: nat)
    requires Inv(c, s) && s.started && s.owner.Idle? && Pending(s) && !AllExited(s)
    ensures Reaches(c, s, path, t) && HandledLater(t, d, n)
  {
    assert Reaches(c, s, [], s);
    hide Reaches, Inv, Pending, AllExited, NoneBusy, Wanted, Ended, HandledLater, InChannel;
    path, t := Settle(c, s, [], s);
    d := Whom(t);
    var t0 := t;
    path, t, n := EndOne(c, s, path, t, d);
    SameWanted(t0, t, d);
    if !Wanted(t, d) {
      var h: nat :| InChannel(t, h) && t.net.handles[h].dest == d;
      path, t := Bring(c, s, path, t, h, d, n);
    }
    path, t := Drive(c, s, path, t, d, n);
  }

  ghost predicate EndsLast<S(!new)>(c: Config<S>, s: Pool<S>) {
    forall path, t | Reaches(c, s, path, t) :: EndIsLast(t)
  }

  // Called in state `s`, wait() makes end() the last call of every actor, whatever the schedule, if and
  // only if no envelope for an actor is on its way any more, or no worker is left that could deliver it.
  lemma EndsLastIff<S(!new)>(c: Config<S>, before: seq<Step>, s: Pool<S>)
    requires Run(c, before, s) && s.started && s.owner.Idle? && EndIsLast(s)
    ensures EndsLast(c, s) <==> (AllExited(s) || !Pending(s))
  {
    RunInv(c, before, s);
    hide Run, Inv, Reaches, Pending, AllExited, EndIsLast;
    if AllExited(s) || !Pending(s) {
      forall path, t | Reaches(c, s, path, t) ensures EndIsLast(t) {
        CalmRun(c, s, path, t);
      }
    } else {
      var path, t, d, n := CanHandleLater(c, s);
      NotLast(t, d, n);
    }
  }

  lemma NotLast<S>(t: Pool<S>, d: Name, n: nat)
    requires HandledLater(t, d, n)
    ensures !EndIsLast(t)
  {
  }
}

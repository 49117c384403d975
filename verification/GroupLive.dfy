// What the workers of a thread pool keep doing until it is shut down.
module GroupLive {
  import opened Vocabulary
  import opened GroupModel
  import opened GroupInvariants
  import opened GroupTheorems
  import opened GroupShutdown

  // ----- polling

  // A worker in the loop of normal mode: not draining and not gone.
  predicate Up<S>(pc: Worker<S>) {
    match pc
    case Check => true
    case Poll => true
    case Got(_, drain) => !drain
    case Busy(_, drain, _, _) => !drain
    case DrainPoll => false
    case Exited => false
  }

  ghost predicate AllUp<S>(s: Pool<S>) {
    s.running ==> forall w | 0 <= w < |s.workers| :: Up(s.workers[w])
  }

  // Where a step takes its worker.
  lemma GotoUp<S>(s: Pool<S>, w: nat, pc: Worker<S>)
    requires w < |s.workers|
    ensures w < |Goto(s, w, pc).workers| && Goto(s, w, pc).workers[w] == pc
  {
  }

  lemma ReceiveUp<S>(s: Pool<S>, w: nat)
    requires w < |s.workers| && s.net.queue != []
    ensures w < |Receive(s, w, false).workers| && Up(Receive(s, w, false).workers[w])
  {
  }

  lemma DispatchUp<S>(c: Config<S>, s: Pool<S>, w: nat, item: Item)
    requires w < |s.workers|
    ensures w < |Drop(s, w, item, false).workers| && Up(Drop(s, w, item, false).workers[w])
    ensures item.dest in s.members ==>
              w < |Lock(c, s, w, item, false).workers| && Up(Lock(c, s, w, item, false).workers[w])
  {
    hide Append;
  }

  lemma HandlerUp<S>(c: Config<S>, s: Pool<S>, w: nat)
    requires w < |s.workers| && s.workers[w].Busy? && !s.workers[w].drain
    ensures s.workers[w].out != [] ==> w < |Emit(s, w).workers| && Up(Emit(s, w).workers[w])
    ensures w < |Unlock(c, s, w).workers| && Up(Unlock(c, s, w).workers[w])
  {
  }

  lemma WorkStaysUp<S>(c: Config<S>, s: Pool<S>, w: nat)
    requires CanWork(s, w) && s.running && Up(s.workers[w])
    ensures w < |WorkStep(c, s, w).workers| && Up(WorkStep(c, s, w).workers[w])
  {
    hide Goto, Receive, Lock, Drop, Emit, Unlock;
    match s.workers[w]
    case Check => GotoUp(s, w, Poll);
    case Poll => if s.net.queue == [] { GotoUp(s, w, Check); } else { ReceiveUp(s, w); }
    case Got(item, _) => DispatchUp(c, s, w, item);
    case Busy(_, _, _, _) => HandlerUp(c, s, w);
  }

  lemma WorkKeepsUp<S>(c: Config<S>, s: Pool<S>, w: nat)
    requires Locks(s) && CanWork(s, w) && AllUp(s)
    ensures AllUp(WorkStep(c, s, w))
  {
    WorkEffect(c, s, w);
    if s.running {
      WorkStaysUp(c, s, w);
    }
    hide WorkStep, CanWork, Neutral, Locks, Up;
  }

  lemma CallKeepsUp<S>(c: Config<S>, s: Pool<S>, call: Call)
    requires Shape(c, s) && CanCall(s, call) && AllUp(s)
    ensures AllUp(CallStep(c, s, call))
  {
    hide Shape, Append, Notify, NewHandle;
  }

  lemma StepKeepsUp<S>(c: Config<S>, s: Pool<S>, step: Step)
    requires Inv(c, s) && Enabled(s, step) && AllUp(s)
    ensures AllUp(Apply(c, s, step))
  {
    hide MoveStep, WorkStep, CallStep, CanMove, CanWork, CanCall, Queue, Pipes, Guard, Serial, Logs, Accounted, Bounded,
      Alone, Drained, Locks, Shape;
    match step
    case Move(_) =>
    case Work(w) => WorkKeepsUp(c, s, w);
    case Own(call) => CallKeepsUp(c, s, call);
  }

  lemma {:induction false} ExecKeepsUp<S>(c: Config<S>, s: Pool<S>, steps: seq<Step>, t: Pool<S>)
    requires Inv(c, s) && AllUp(s) && Exec(c, s, steps) == Some(t)
    ensures AllUp(t)
    decreases |steps|
  {
    hide Inv, AllUp, Apply, Enabled;
    if steps != [] {
      StepKeepsUp(c, s, steps[0]);
      StepKeepsInv(c, s, steps[0]);
      ExecKeepsUp(c, Apply(c, s, steps[0]), steps[1..], t);
    }
  }

  // As long as the flag is up no worker drains or exits, however empty the queue is.
  lemma WorkersKeepPolling<S>(c: Config<S>, steps: seq<Step>, s: Pool<S>)
    requires Run(c, steps, s) && s.running
    ensures forall w | 0 <= w < |s.workers| ::
              !s.workers[w].Exited? && !s.workers[w].DrainPoll? && !Draining(s.workers[w])
  {
    hide Run, Up;
    RunUp(c, steps, s);
    forall w | 0 <= w < |s.workers|
      ensures !s.workers[w].Exited? && !s.workers[w].DrainPoll? && !Draining(s.workers[w])
    {
      UpMeans(s.workers[w]);
    }
  }

  lemma UpMeans<S>(pc: Worker<S>)
    requires Up(pc)
    ensures !pc.Exited? && !pc.DrainPoll? && !Draining(pc)
  {
  }

  lemma NewPoolUp<S>(c: Config<S>)
    ensures Inv(c, NewPool<S>()) && AllUp(NewPool<S>())
  {
    hide Inv;
    ExecNothing(c);
    RunInv(c, [], NewPool<S>());
  }

  lemma ExecNothing<S>(c: Config<S>)
    ensures Run(c, [], NewPool<S>())
  {
  }

  lemma RunUp<S>(c: Config<S>, steps: seq<Step>, s: Pool<S>)
    requires Run(c, steps, s)
    ensures AllUp(s)
  {
    hide Inv, AllUp;
    NewPoolUp(c);
    ExecKeepsUp(c, NewPool<S>(), steps, s);
  }

  // ----- every envelope can still be handled

  // A step of a forwarder or of a worker, or the return of an end() that is under way.
  predicate Serving(step: Step) {
    match step
    case Move(t) => !t.ClientSend?
    case Own(call) => call.FinishEnd?
    case Work(_) => true
  }

  ghost predicate Serves<S>(c: Config<S>, s: Pool<S>, path: seq<Step>, t: Pool<S>) {
    Exec(c, s, path) == Some(t) && forall step | step in path :: Serving(step)
  }

  ghost predicate Along<S>(c: Config<S>, s: Pool<S>, path: seq<Step>, t: Pool<S>) {
    Serves(c, s, path, t) && Inv(c, t)
  }

  lemma GoOn<S>(c: Config<S>, s: Pool<S>, path: seq<Step>, t: Pool<S>, step: Step)
    returns (path': seq<Step>, t': Pool<S>)
    requires Along(c, s, path, t) && Enabled(t, step) && Serving(step)
    ensures t' == Apply(c, t, step) && Along(c, s, path', t')
  {
    hide Apply, Enabled, Inv, Serving;
    ExecSnoc(c, s, path, t, step);
    StepKeepsInv(c, t, step);
    path', t' := path + [step], Apply(c, t, step);
  }

  // An end() that is under way returns.
  lemma FreeOwner<S>(c: Config<S>, s: Pool<S>, path: seq<Step>, t: Pool<S>) returns (path': seq<Step>, t': Pool<S>)
    requires Along(c, s, path, t)
    ensures Along(c, s, path', t') && !t'.owner.InEnd? && t'.net == t.net && t'.workers == t.workers
    ensures t'.members.Keys == t.members.Keys
  {
    if t.owner.InEnd? {
      OwnerIsMember(c, t);
      hide Inv, Serves;
      path', t' := GoOn(c, s, path, t, Own(FinishEnd));
    } else {
      path', t' := path, t;
    }
  }

  lemma OwnerIsMember<S>(c: Config<S>, s: Pool<S>)
    requires Inv(c, s) && s.owner.InEnd?
    ensures s.owner.name in s.members
  {
  }

  // One step of the forwarder of handle `h`, with an envelope before it.
  lemma ForwarderGoesOn<S>(c: Config<S>, s: Pool<S>, path: seq<Step>, t: Pool<S>, h: nat)
    returns (path': seq<Step>, t': Pool<S>)
    requires Along(c, s, path, t) && h < |t.net.handles|
    requires t.net.handles[h].wrapper != [] || t.net.handles[h].hand.Some?
    ensures Along(c, s, path', t') && t' == t.(net := t'.net) && |t'.net.handles| == |t.net.handles|
    ensures var a, b := t.net.handles[h], t'.net.handles[h];
            && b.dest == a.dest && b.sent == a.sent
            && if a.hand.None? then b.hand.Some? && t'.net.pushed == t.net.pushed
               else b.hand.None? && |Through(t'.net.pushed, h)| == |Through(t.net.pushed, h)| + 1
  {
    hide Serves, Inv, Through;
    if t.net.handles[h].hand.None? {
      path', t' := GoOn(c, s, path, t, Move(Take(h)));
    } else {
      path', t' := GoOn(c, s, path, t, Move(Push(h)));
      ThroughSnoc(t.net.pushed, t'.net.pushed[|t.net.pushed|], h);
    }
  }

  lemma SomethingWaits<S>(c: Config<S>, s: Pool<S>, h: nat, k: nat)
    requires Inv(c, s) && h < |s.net.handles| && |Through(s.net.pushed, h)| <= k < |s.net.handles[h].sent|
    ensures s.net.handles[h].wrapper != [] || s.net.handles[h].hand.Some?
  {
    var a := s.net.handles[h];
    assert a.sent == Through(s.net.pushed, h) + InHand(a.hand) + a.wrapper;
  }

  // The forwarder goes on until the k-th envelope has entered the queue.
  lemma {:induction false} PushUpTo<S>(c: Config<S>, s: Pool<S>, path: seq<Step>, t: Pool<S>, h: nat, k: nat)
    returns (path': seq<Step>, t': Pool<S>)
    requires Along(c, s, path, t) && h < |t.net.handles| && k < |t.net.handles[h].sent|
    ensures Along(c, s, path', t') && t' == t.(net := t'.net) && |t'.net.handles| == |t.net.handles|
    ensures t'.net.handles[h].dest == t.net.handles[h].dest && t'.net.handles[h].sent == t.net.handles[h].sent
    ensures k < |Through(t'.net.pushed, h)|
    decreases k + 1 - |Through(t.net.pushed, h)|, if t.net.handles[h].hand.Some? then 0 else 1
  {
    hide Serves, Inv, Through;
    if k < |Through(t.net.pushed, h)| {
      path', t' := path, t;
    } else {
      SomethingWaits(c, t, h, k);
      path', t' := ForwarderGoesOn(c, s, path, t, h);
      path', t' := PushUpTo(c, s, path', t', h, k);
    }
  }

  // The k-th item that came through handle `h`.
  lemma {:induction false} NthThrough(xs: seq<Item>, h: nat, k: nat) returns (j: nat)
    requires k < |Through(xs, h)|
    ensures j < |xs| && xs[j].handle == h && |Through(xs[..j], h)| == k && xs[j].env == Through(xs, h)[k]
  {
    var n := |xs| - 1;
    if k < |Through(xs[..n], h)| {
      j := NthThrough(xs[..n], h, k);
      assert xs[..n][..j] == xs[..j];
    } else {
      j := n;
    }
  }

  // What is not dispatched is queued or in a worker's hand.
  lemma Undispatched<S>(c: Config<S>, s: Pool<S>, j: nat)
    requires Inv(c, s) && j < |s.net.pushed| && s.net.pushed[j] !in s.settled
    ensures s.net.queue != [] || exists w: nat :: w < |s.workers| && s.workers[w].Got?
  {
    assert s.net.queue == [] ==> s.net.pushed[j] in multiset(s.net.pulled);
    if !exists w: nat :: w < |s.workers| && s.workers[w].Got? {
      HeldNone(s.workers);
    }
  }

  // A worker whose step brings the end of the workers' work nearer.
  lemma NextWorker<S>(c: Config<S>, s: Pool<S>, j: nat) returns (w: nat)
    requires Inv(c, s) && j < |s.net.pushed| && s.net.pushed[j] !in s.settled && !AllExited(s) && !s.owner.InEnd?
    ensures CanWork(s, w) && !Spins(s, w)
  {
    Undispatched(c, s, j);
    if v: nat :| v < |s.workers| && s.workers[v].Busy? {
      w := v;
    } else {
      assert forall e :: e !in s.locks;
      if v: nat :| v < |s.workers| && s.workers[v].Got? {
        w := v;
      } else {
        assert s.receiver.None?;
        w :| w < |s.workers| && !s.workers[w].Exited?;
      }
    }
  }

  lemma WorkerGoesOn<S>(c: Config<S>, s: Pool<S>, path: seq<Step>, t: Pool<S>, w: nat)
    returns (path': seq<Step>, t': Pool<S>)
    requires Along(c, s, path, t) && CanWork(t, w)
    ensures t' == WorkStep(c, t, w) && Along(c, s, path', t')
    ensures t'.owner == t.owner && t'.members.Keys == t.members.Keys && t'.net.pushed == t.net.pushed
    ensures !AllExited(t) && AllExited(t') ==> multiset(t'.settled) == multiset(t'.net.pushed)
  {
    path', t' := GoOn(c, s, path, t, Work(w));
    if !AllExited(t) && AllExited(t') {
      LastExit(c, t, Work(w));
    }
    hide CanWork, WorkStep, Serves, Shape, Queue, Pipes, Guard, Serial, Logs, Accounted, Bounded, Alone, Drained;
    WorkEffect(c, t, w);
  }

  // The workers go on until the item has been dispatched.
  lemma {:induction false} DriveItem<S>(c: Config<S>, s: Pool<S>, path: seq<Step>, t: Pool<S>, j: nat)
    returns (path': seq<Step>, t': Pool<S>)
    requires Along(c, s, path, t) && j < |t.net.pushed| && !t.owner.InEnd?
    requires !AllExited(t) || t.net.pushed[j] in t.settled
    ensures Along(c, s, path', t') && t'.net.pushed == t.net.pushed && t.net.pushed[j] in t'.settled
    ensures t'.members.Keys == t.members.Keys
    decreases Effort(t), Outs(t.workers)
  {
    hide Serves, Inv, Effort, Outs, WorkStep, CanWork, Spins, AllExited;
    if t.net.pushed[j] in t.settled {
      path', t' := path, t;
    } else {
      var w := NextWorker(c, t, j);
      WorkDescends(c, t, w);
      path', t' := WorkerGoesOn(c, s, path, t, w);
      if AllExited(t') {
        assert t'.net.pushed[j] in multiset(t'.settled);
      }
      path', t' := DriveItem(c, s, path', t', j);
    }
  }

  lemma {:induction false} InFor(xs: seq<Item>, x: Item)
    requires x in xs
    ensures x in For(xs, x.dest)
  {
    var n := |xs| - 1;
    if xs[n] != x {
      InFor(xs[..n], x);
    }
  }

  lemma IsHandled<S>(c: Config<S>, s: Pool<S>, x: Item)
    requires Inv(c, s) && x in s.settled && x.dest in s.members
    ensures x.dest in s.events && x in Items(s.events[x.dest])
  {
    InFor(s.settled, x);
  }

  lemma DestOfItem<S>(c: Config<S>, s: Pool<S>, j: nat)
    requires Inv(c, s) && j < |s.net.pushed|
    ensures s.net.pushed[j].handle < |s.net.handles|
    ensures s.net.pushed[j].dest == s.net.handles[s.net.pushed[j].handle].dest
  {
  }

  lemma ThroughIsSent<S>(c: Config<S>, s: Pool<S>, h: nat, k: nat)
    requires Inv(c, s) && h < |s.net.handles| && k < |Through(s.net.pushed, h)|
    ensures k < |s.net.handles[h].sent| && Through(s.net.pushed, h)[k] == s.net.handles[h].sent[k]
  {
    var a := s.net.handles[h];
    assert a.sent == Through(s.net.pushed, h) + InHand(a.hand) + a.wrapper;
  }

  // As long as a worker is left, the k-th envelope sent to an actor through a handle, wherever it is, can
  // still be handled: forwarders and workers can go on to where the actor has handled just that one.
  lemma CanBeHandled<S>(c: Config<S>, before: seq<Step>, s: Pool<S>, h: nat, k: nat)
    returns (path: seq<Step>, t: Pool<S>, j: nat)
    requires Run(c, before, s) && !AllExited(s)
    requires h < |s.net.handles| && s.net.handles[h].dest in s.members && k < |s.net.handles[h].sent|
    ensures Serves(c, s, path, t) && j < |t.net.pushed| && s.net.handles[h].dest in t.events
    ensures var x := t.net.pushed[j];
            && x.handle == h && |Through(t.net.pushed[..j], h)| == k && x.env == s.net.handles[h].sent[k]
            && x in Items(t.events[s.net.handles[h].dest])
  {
    RunInv(c, before, s);
    assert Along(c, s, [], s);
    hide Run, Serves, Inv, Through, AllExited, Items;
    path, t := FreeOwner(c, s, [], s);
    SameWorkers(s, t);
    var u := t;
    path, t := PushUpTo(c, s, path, t, h, k);
    SameWorkers(u, t);
    j := NthThrough(t.net.pushed, h, k);
    ThroughIsSent(c, t, h, k);
    DestOfItem(c, t, j);
    path, t := DriveItem(c, s, path, t, j);
    IsHandled(c, t, t.net.pushed[j]);
  }

  lemma SameWorkers<S>(s: Pool<S>, t: Pool<S>)
    requires t.workers == s.workers
    ensures AllExited(t) == AllExited(s)
  {
  }

  // Until shutdown() is called that is the case for every envelope that was ever sent to an actor.
  lemma HandledWhileRunning<S>(c: Config<S>, before: seq<Step>, s: Pool<S>, h: nat, k: nat)
    returns (path: seq<Step>, t: Pool<S>, j: nat)
    requires Run(c, before, s) && s.running && s.workers != []
    requires h < |s.net.handles| && s.net.handles[h].dest in s.members && k < |s.net.handles[h].sent|
    ensures Serves(c, s, path, t) && j < |t.net.pushed| && s.net.handles[h].dest in t.events
    ensures var x := t.net.pushed[j];
            && x.handle == h && |Through(t.net.pushed[..j], h)| == k && x.env == s.net.handles[h].sent[k]
            && x in Items(t.events[s.net.handles[h].dest])
  {
    WorkersKeepPolling(c, before, s);
    assert !s.workers[0].Exited?;
    hide Run, Serves, Through, Items;
    path, t, j := CanBeHandled(c, before, s, h, k);
  }
}

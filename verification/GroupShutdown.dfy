// What shutdown and wait guarantee.
module GroupShutdown {
  import opened Vocabulary
  import opened GroupModel
  import opened GroupInvariants
  import opened GroupTheorems

  // ----- a bound on the drain

  function Weight(a: Handle): nat {
    6 * |a.wrapper| + if a.hand.Some? then 5 else 0
  }

  function Load(hs: seq<Handle>): nat {
    if hs == [] then 0 else Load(hs[..|hs| - 1]) + Weight(hs[|hs| - 1])
  }

  // The steps that a worker has before it, in a pool that is `up` or is being shut down.
  function Toil<S>(pc: Worker<S>, up: bool): nat {
    match pc
    case Exited => 0
    case DrainPoll => 1
    case Check => 2
    case Poll => if up then 1 else 3
    case Got(_, _) => 4
    case Busy(_, _, _, _) => 3
  }

  function Burden<S>(ws: seq<Worker<S>>, up: bool): nat {
    if ws == [] then 0 else Burden(ws[..|ws| - 1], up) + Toil(ws[|ws| - 1], up)
  }

  // What is left to do.
  function Remaining<S>(s: Pool<S>): nat {
    Load(s.net.handles) + 4 * |s.net.queue| + Burden(s.workers, false)
  }

  // A step that puts a new envelope into a wrapper channel, or tries to.
  predicate Sends<S>(s: Pool<S>, step: Step) {
    match step
    case Move(t) => t.ClientSend?
    case Own(call) => call.SendStart? || call.SendShutdown?
    case Work(w) => w < |s.workers| && s.workers[w].Busy? && s.workers[w].out != []
  }

  // A step of a forwarder or of a worker that moves the pool's own work along.
  predicate Advances<S>(s: Pool<S>, step: Step) {
    !Sends(s, step) && !step.Own?
  }

  function CountSends<S>(c: Config<S>, s: Pool<S>, steps: seq<Step>): nat
    decreases |steps|
  {
    if steps == [] || !Enabled(s, steps[0]) then 0
    else (if Sends(s, steps[0]) then 1 else 0) + CountSends(c, Apply(c, s, steps[0]), steps[1..])
  }

  function CountAdvances<S>(c: Config<S>, s: Pool<S>, steps: seq<Step>): nat
    decreases |steps|
  {
    if steps == [] || !Enabled(s, steps[0]) then 0
    else (if Advances(s, steps[0]) then 1 else 0) + CountAdvances(c, Apply(c, s, steps[0]), steps[1..])
  }

  lemma {:induction false} LoadUpdate(hs: seq<Handle>, h: nat, a: Handle)
    requires h < |hs|
    ensures Load(hs[h := a]) + Weight(hs[h]) == Load(hs) + Weight(a)
  {
    var n := |hs| - 1;
    if h == n {
      assert hs[h := a][..n] == hs[..n];
    } else {
      assert hs[h := a][..n] == hs[..n][h := a];
      LoadUpdate(hs[..n], h, a);
    }
  }

  lemma {:induction false} WorkUpdate<S>(ws: seq<Worker<S>>, w: nat, pc: Worker<S>, up: bool)
    requires w < |ws|
    ensures Burden(ws[w := pc], up) + Toil(ws[w], up) == Burden(ws, up) + Toil(pc, up)
  {
    var n := |ws| - 1;
    if w == n {
      assert ws[w := pc][..n] == ws[..n];
    } else {
      assert ws[w := pc][..n] == ws[..n][w := pc];
      WorkUpdate(ws[..n], w, pc, up);
    }
  }

  lemma SendLoad(net: Net, h: nat, env: Envelope)
    ensures var net' := SendTo(net, h, env);
            net'.queue == net.queue && Load(net'.handles) <= Load(net.handles) + 6
  {
    if h < |net.handles| {
      var a := net.handles[h];
      LoadUpdate(net.handles, h, a.(wrapper := a.wrapper + [env], sent := a.sent + [env]));
    }
  }

  lemma MoveRemaining(net: Net, t: Traffic)
    requires CanMove(net, t)
    ensures var net' := MoveStep(net, t);
            Load(net'.handles) + 4 * |net'.queue| + (if t.ClientSend? then 0 else 1)
            <= Load(net.handles) + 4 * |net.queue| + (if t.ClientSend? then 6 else 0)
  {
    if t.ClientSend? {
      SendLoad(net, t.handle, t.env);
    } else {
      LoadUpdate(net.handles, t.handle, MoveStep(net, t).handles[t.handle]);
    }
  }

  lemma EmitRemaining<S>(s: Pool<S>, w: nat)
    requires w < |s.workers| && s.workers[w].Busy? && s.workers[w].out != []
    ensures Remaining(Emit(s, w)) <= Remaining(s) + 6
  {
    hide Load, Burden;
    var b := s.workers[w];
    WorkUpdate(s.workers, w, b.(out := b.out[1..]), false);
    SendLoad(s.net, b.out[0].handle, b.out[0].env);
  }

  lemma LessRemains<S>(s: Pool<S>, t: Pool<S>, w: nat)
    requires w < |s.workers| == |t.workers| && t.workers == s.workers[w := t.workers[w]]
    requires t.net.handles == s.net.handles
    requires 4 * |t.net.queue| + Toil(t.workers[w], false) < 4 * |s.net.queue| + Toil(s.workers[w], false)
    ensures Remaining(t) + 1 <= Remaining(s)
  {
    WorkUpdate(s.workers, w, t.workers[w], false);
  }

  lemma GotoRemaining<S>(s: Pool<S>, w: nat, pc: Worker<S>)
    requires w < |s.workers| && Toil(pc, false) < Toil(s.workers[w], false)
    ensures Remaining(Goto(s, w, pc)) + 1 <= Remaining(s)
  {
    hide Remaining;
    LessRemains(s, Goto(s, w, pc), w);
  }

  lemma ReceiveRemaining<S>(s: Pool<S>, w: nat, drain: bool)
    requires w < |s.workers| && s.net.queue != [] && (s.workers[w].Poll? || s.workers[w].DrainPoll?)
    ensures Remaining(Receive(s, w, drain)) + 1 <= Remaining(s)
  {
    hide Remaining;
    LessRemains(s, Receive(s, w, drain), w);
  }

  lemma DispatchRemaining<S>(c: Config<S>, s: Pool<S>, w: nat, item: Item, drain: bool)
    requires w < |s.workers| && s.workers[w].Got?
    ensures Remaining(Drop(s, w, item, drain)) + 1 <= Remaining(s)
    ensures item.dest in s.members ==> Remaining(Lock(c, s, w, item, drain)) + 1 <= Remaining(s)
  {
    hide Remaining, Append;
    LessRemains(s, Drop(s, w, item, drain), w);
    if item.dest in s.members {
      LessRemains(s, Lock(c, s, w, item, drain), w);
    }
  }

  lemma UnlockRemaining<S>(c: Config<S>, s: Pool<S>, w: nat)
    requires w < |s.workers| && s.workers[w].Busy?
    ensures Remaining(Unlock(c, s, w)) + 1 <= Remaining(s)
  {
    hide Remaining;
    LessRemains(s, Unlock(c, s, w), w);
  }

  lemma QuietRemaining<S>(c: Config<S>, s: Pool<S>, w: nat)
    requires CanWork(s, w) && !s.running && !Sends(s, Work(w))
    ensures Remaining(WorkStep(c, s, w)) + 1 <= Remaining(s)
  {
    hide Remaining, Goto, Receive, Lock, Drop, Unlock;
    match s.workers[w]
    case Check => GotoRemaining(s, w, DrainPoll);
    case Poll =>
      if s.net.queue == [] { GotoRemaining(s, w, Check); } else { ReceiveRemaining(s, w, false); }
    case DrainPoll =>
      if s.net.queue == [] { GotoRemaining(s, w, Exited); } else { ReceiveRemaining(s, w, true); }
    case Got(item, drain) => DispatchRemaining(c, s, w, item, drain);
    case Busy(_, _, _, _) => UnlockRemaining(c, s, w);
  }

  lemma WorkRemaining<S>(c: Config<S>, s: Pool<S>, w: nat)
    requires CanWork(s, w) && !s.running
    ensures var t := WorkStep(c, s, w);
            if Sends(s, Work(w)) then Remaining(t) <= Remaining(s) + 6 else Remaining(t) + 1 <= Remaining(s)
  {
    if Sends(s, Work(w)) {
      assert WorkStep(c, s, w) == Emit(s, w);
      hide Remaining, Emit, WorkStep;
      EmitRemaining(s, w);
    } else {
      hide Remaining, WorkStep;
      QuietRemaining(c, s, w);
    }
  }

  lemma CallRemaining<S>(c: Config<S>, s: Pool<S>, call: Call)
    requires Shape(c, s) && s.workers != [] && CanCall(s, call)
    ensures Remaining(CallStep(c, s, call)) <= Remaining(s) + if Sends(s, Own(call)) then 6 else 0
  {
    if call.SendStart? || call.SendShutdown? {
      var msg := if call.SendStart? then Start else Shutdown;
      SendLoad(s.net, s.refs[s.owner.next], Envelope(msg, None, None));
    }
  }

  lemma StaysDown<S>(c: Config<S>, s: Pool<S>, step: Step)
    requires Inv(c, s) && !s.running && s.workers != [] && Enabled(s, step)
    ensures !Apply(c, s, step).running && Apply(c, s, step).workers != []
  {
    hide Inv, MoveStep, CanMove, Append, Pull, SendTo, Notify;
    assert Shape(c, s) && Locks(s) by { ShapeOf(c, s); }
    hide Shape, Locks;
    match step
    case Move(t) =>
    case Work(w) =>
      WorkEffect(c, s, w);
    case Own(call) =>
      CallEffect(c, s, call);
  }

  lemma ShapeOf<S>(c: Config<S>, s: Pool<S>)
    requires Inv(c, s)
    ensures Shape(c, s) && Locks(s)
  {
  }

  lemma StepRemaining<S>(c: Config<S>, s: Pool<S>, step: Step)
    requires Inv(c, s) && !s.running && s.workers != [] && Enabled(s, step)
    ensures Remaining(Apply(c, s, step)) + (if Advances(s, step) then 1 else 0)
            <= Remaining(s) + (if Sends(s, step) then 6 else 0)
    ensures !Apply(c, s, step).running && Apply(c, s, step).workers != []
  {
    hide Inv, WorkStep, CallStep, MoveStep, CanMove, CanCall, CanWork;
    StaysDown(c, s, step);
    ShapeOf(c, s);
    match step
    case Move(t) => MoveRemaining(s.net, t);
    case Work(w) => WorkRemaining(c, s, w);
    case Own(call) => CallRemaining(c, s, call);
  }

  // Once the running flag is down, the number of steps that forwarders and workers can still take is
  // bounded by the work present and six for every further send.
  lemma {:induction false} DrainBound<S>(c: Config<S>, s: Pool<S>, steps: seq<Step>, t: Pool<S>)
    requires Inv(c, s) && !s.running && s.workers != []
    requires Exec(c, s, steps) == Some(t)
    ensures CountAdvances(c, s, steps) + Remaining(t) <= Remaining(s) + 6 * CountSends(c, s, steps)
    decreases |steps|
  {
    hide Inv, Apply, Enabled, Advances, Sends, Remaining;
    if steps != [] {
      StepRemaining(c, s, steps[0]);
      StepKeepsInv(c, s, steps[0]);
      DrainBound(c, Apply(c, s, steps[0]), steps[1..], t);
    }
  }

  // With finitely many sends every schedule therefore comes to a point where no worker can move, and
  // there, unless an end() call is still to return, all of them have exited.
  lemma DrainEnds<S>(c: Config<S>, before: seq<Step>, s: Pool<S>, steps: seq<Step>, t: Pool<S>)
    requires Run(c, before, s) && !s.running && s.workers != []
    requires Exec(c, s, steps) == Some(t)
    ensures CountAdvances(c, s, steps) + Remaining(t) <= Remaining(s) + 6 * CountSends(c, s, steps)
    ensures !t.owner.InEnd? && (forall w: nat :: !CanWork(t, w)) ==> AllExited(t)
  {
    hide Exec, Inv, CountAdvances, CountSends, Remaining, CanWork, AllExited;
    RunInv(c, before, s);
    DrainBound(c, s, steps, t);
    if !AllExited(t) {
      ExecCat(c, NewPool<S>(), before, s, steps);
      var step := Progress(c, before + steps, t);
      assert step == Own(FinishEnd) ==> Enabled(t, Own(FinishEnd)) && t.owner.InEnd?;
      assert step.Work? ==> CanWork(t, step.worker);
    }
  }

  // ----- workers on their own

  // The sends that handlers still have to make.
  function Outs<S>(ws: seq<Worker<S>>): nat {
    if ws == [] then 0
    else Outs(ws[..|ws| - 1]) + if ws[|ws| - 1].Busy? then |ws[|ws| - 1].out| else 0
  }

  lemma {:induction false} OutsUpdate<S>(ws: seq<Worker<S>>, w: nat, pc: Worker<S>)
    requires w < |ws|
    ensures Outs(ws[w := pc]) + (if ws[w].Busy? then |ws[w].out| else 0)
            == Outs(ws) + if pc.Busy? then |pc.out| else 0
  {
    var n := |ws| - 1;
    if w == n {
      assert ws[w := pc][..n] == ws[..n];
    } else {
      assert ws[w := pc][..n] == ws[..n][w := pc];
      OutsUpdate(ws[..n], w, pc);
    }
  }

  // What the workers have to do while the forwarders rest.
  function Effort<S>(s: Pool<S>): nat {
    4 * |s.net.queue| + Burden(s.workers, s.running)
  }

  // Worker `w` can only look at an empty queue again.
  predicate Spins<S>(s: Pool<S>, w: nat)
    requires w < |s.workers|
  {
    s.running && s.net.queue == [] && s.workers[w].Poll?
  }

  lemma EffortOf<S>(s: Pool<S>, t: Pool<S>, w: nat)
    requires w < |s.workers| == |t.workers| && t.workers == s.workers[w := t.workers[w]] && t.running == s.running
    ensures Effort(t) + 4 * |s.net.queue| + Toil(s.workers[w], s.running)
            == Effort(s) + 4 * |t.net.queue| + Toil(t.workers[w], s.running)
    ensures Outs(t.workers) + (if s.workers[w].Busy? then |s.workers[w].out| else 0)
            == Outs(s.workers) + if t.workers[w].Busy? then |t.workers[w].out| else 0
  {
    hide Toil;
    WorkUpdate(s.workers, w, t.workers[w], s.running);
    OutsUpdate(s.workers, w, t.workers[w]);
  }

  // Where a step takes a worker, and how long the queue is then.
  ghost predicate MovesOn<S>(s: Pool<S>, t: Pool<S>, w: nat) {
    && w < |s.workers| == |t.workers| && t.workers == s.workers[w := t.workers[w]] && t.running == s.running
    && if s.workers[w].Busy? && s.workers[w].out != [] then
         t.workers[w] == s.workers[w].(out := s.workers[w].out[1..]) && t.net.queue == s.net.queue
       else 4 * |t.net.queue| + Toil(t.workers[w], s.running) < 4 * |s.net.queue| + Toil(s.workers[w], s.running)
  }

  lemma GotoMoves<S>(s: Pool<S>, w: nat, pc: Worker<S>)
    requires w < |s.workers| && !s.workers[w].Busy? && Toil(pc, s.running) < Toil(s.workers[w], s.running)
    ensures MovesOn(s, Goto(s, w, pc), w)
  {
    hide Toil;
  }

  lemma ReceiveMoves<S>(s: Pool<S>, w: nat, drain: bool)
    requires w < |s.workers| && s.net.queue != [] && (s.workers[w].Poll? || s.workers[w].DrainPoll?)
    ensures MovesOn(s, Receive(s, w, drain), w)
  {
  }

  lemma DispatchMoves<S>(c: Config<S>, s: Pool<S>, w: nat, item: Item, drain: bool)
    requires w < |s.workers| && s.workers[w].Got?
    ensures MovesOn(s, Drop(s, w, item, drain), w)
    ensures item.dest in s.members ==> MovesOn(s, Lock(c, s, w, item, drain), w)
  {
    hide Append;
  }

  lemma HandlerMoves<S>(c: Config<S>, s: Pool<S>, w: nat)
    requires w < |s.workers| && s.workers[w].Busy?
    ensures if s.workers[w].out != [] then MovesOn(s, Emit(s, w), w) else MovesOn(s, Unlock(c, s, w), w)
  {
  }

  lemma WorkMoves<S>(c: Config<S>, s: Pool<S>, w: nat)
    requires CanWork(s, w) && !Spins(s, w)
    ensures MovesOn(s, WorkStep(c, s, w), w)
  {
    hide MovesOn, Goto, Receive, Lock, Drop, Emit, Unlock;
    match s.workers[w]
    case Check => GotoMoves(s, w, if s.running then Poll else DrainPoll);
    case Poll => if s.net.queue == [] { GotoMoves(s, w, Check); } else { ReceiveMoves(s, w, false); }
    case DrainPoll => if s.net.queue == [] { GotoMoves(s, w, Exited); } else { ReceiveMoves(s, w, true); }
    case Got(item, drain) => DispatchMoves(c, s, w, item, drain);
    case Busy(_, _, _, _) => HandlerMoves(c, s, w);
  }

  // Each step of a worker that does not spin brings the end of the workers' own work nearer.
  lemma WorkDescends<S>(c: Config<S>, s: Pool<S>, w: nat)
    requires CanWork(s, w) && !Spins(s, w)
    ensures var t := WorkStep(c, s, w);
            Effort(t) < Effort(s) || (Effort(t) == Effort(s) && Outs(t.workers) < Outs(s.workers))
  {
    hide WorkStep, CanWork, Effort, Outs;
    WorkMoves(c, s, w);
    EffortOf(s, WorkStep(c, s, w), w);
  }

  // ----- what has been handled when the workers are gone

  // A step moves one worker at most.
  ghost predicate OneMoves<S>(s: Pool<S>, t: Pool<S>, step: Step) {
    if step.Work? then
      && step.worker < |s.workers| == |t.workers|
      && t.workers == s.workers[step.worker := t.workers[step.worker]]
    else t.workers == s.workers
  }

  lemma OthersStay<S>(c: Config<S>, s: Pool<S>, step: Step)
    requires Inv(c, s) && Enabled(s, step) && s.workers != []
    ensures OneMoves(s, Apply(c, s, step), step)
  {
    hide MoveStep, CallStep, WorkStep, CanMove, CanCall, CanWork, Serial, Shape, Locks;
    match step
    case Move(t) =>
    case Own(call) => CallEffect(c, s, call);
    case Work(w) => WorkEffect(c, s, w);
  }

  // When the last worker leaves, the shared queue is empty and all that ever entered it has been
  // dispatched: handled, if its destination exists.
  lemma LastExit<S>(c: Config<S>, s: Pool<S>, step: Step)
    requires Inv(c, s) && Enabled(s, step) && s.workers != []
    requires !AllExited(s) && AllExited(Apply(c, s, step))
    ensures var t := Apply(c, s, step);
            && t.workers != [] && t.net == s.net && t.net.queue == [] && t.net.pulled == t.net.pushed
            && multiset(t.settled) == multiset(t.net.pushed)
  {
    var t := Apply(c, s, step);
    StepKeepsInv(c, s, step);
    OthersStay(c, s, step);
    if step.Work? {
      WorkEffect(c, s, step.worker);
    }
    hide Apply, Enabled, WorkStep, Shape, Pipes, Locks, Guard, Serial, Logs, Bounded, Alone, Drained;
    HeldNone(t.workers);
    assert multiset(t.settled) + multiset{} == multiset(t.settled);
  }

  lemma CallKeepsPushed<S>(c: Config<S>, s: Pool<S>, call: Call)
    requires CanCall(s, call)
    ensures CallStep(c, s, call).net.pushed == s.net.pushed
  {
  }

  lemma FrozenStep<S>(c: Config<S>, s: Pool<S>, step: Step)
    requires Inv(c, s) && s.workers != [] && AllExited(s) && Enabled(s, step)
    ensures var t := Apply(c, s, step);
            && t.workers == s.workers && t.settled == s.settled
            && t.net.pulled == s.net.pulled && s.net.pushed <= t.net.pushed
  {
    match step
    case Move(_) =>
    case Work(_) => assert false;
    case Own(call) =>
      hide CallStep, CanCall;
      CallEffect(c, s, call);
      CallKeepsPushed(c, s, call);
  }

  // After that nothing is dispatched any more, whatever still arrives.
  lemma {:induction false} Frozen<S>(c: Config<S>, s: Pool<S>, steps: seq<Step>, t: Pool<S>)
    requires Inv(c, s) && s.workers != [] && AllExited(s) && Exec(c, s, steps) == Some(t)
    ensures AllExited(t) && t.workers == s.workers
    ensures t.settled == s.settled && t.net.pulled == s.net.pulled && s.net.pushed <= t.net.pushed
    decreases |steps|
  {
    hide Inv, Apply, Enabled;
    if steps != [] {
      FrozenStep(c, s, steps[0]);
      StepKeepsInv(c, s, steps[0]);
      Frozen(c, Apply(c, s, steps[0]), steps[1..], t);
    }
  }

  lemma QueuedIff(net: Net, k: nat)
    requires Queue(net) && k < |net.pushed|
    ensures net.pushed[k] in net.queue <==> k >= |net.pulled|
  {
    if net.pushed[k] in net.queue {
      var j :| 0 <= j < |net.queue| && net.queue[j] == net.pushed[k];
      assert net.pushed[|net.pulled| + j] == net.queue[j];
    }
    if k >= |net.pulled| {
      assert net.queue[k - |net.pulled|] == net.pushed[k];
    }
  }

  // So an envelope that enters the shared queue is dispatched if and only if it was there when the
  // last worker looked.  A later one stays in the queue for ever, with the reply channel of the
  // fast_send that it may belong to, whose caller then waits for ever.
  lemma DispatchedIffInTime<S>(c: Config<S>, before: seq<Step>, s: Pool<S>, step: Step, steps: seq<Step>,
                               t: Pool<S>, k: nat)
    requires Run(c, before, s) && Enabled(s, step) && s.workers != []
    requires !AllExited(s) && AllExited(Apply(c, s, step))
    requires Exec(c, Apply(c, s, step), steps) == Some(t) && k < |t.net.pushed|
    ensures t.net.pushed[k] in t.settled <==> k < |s.net.pushed|
    ensures t.net.pushed[k] in t.net.queue <==> k >= |s.net.pushed|
  {
    hide Apply, Enabled, Shape, Pipes, Locks, Guard, Serial, Logs, Accounted, Bounded, Alone, Drained;
    RunInv(c, before, s);
    var u := Apply(c, s, step);
    LastExit(c, s, step);
    StepKeepsInv(c, s, step);
    OthersStay(c, s, step);
    Frozen(c, u, steps, t);
    ExecKeepsInv(c, u, steps, t);
    QueuedIff(t.net, k);
    assert t.net.pushed[k] in t.settled <==> t.net.pushed[k] in multiset(u.net.pushed);
    if k < |u.net.pushed| {
      assert t.net.pushed[k] == u.net.pushed[k];
    } else {
      forall j | 0 <= j < |u.net.pushed| ensures u.net.pushed[j] != t.net.pushed[k] {
        assert t.net.pushed[j] == u.net.pushed[j];
        assert t.net.pushed[j].no == j && t.net.pushed[k].no == k;
      }
    }
  }
}

// What holds of the thread pool in every run, whatever the interleaving.
module GroupTheorems {
  import opened Vocabulary
  import opened GroupModel
  import opened GroupInvariants

  ghost predicate Run<S>(c: Config<S>, steps: seq<Step>, s: Pool<S>) {
    Exec(c, NewPool(), steps) == Some(s)
  }

  lemma {:induction false} ExecKeepsInv<S>(c: Config<S>, s: Pool<S>, steps: seq<Step>, t: Pool<S>)
    requires Inv(c, s) && Exec(c, s, steps) == Some(t)
    ensures Inv(c, t)
    decreases |steps|
  {
    hide Inv, Apply, Enabled;
    if steps != [] {
      StepKeepsInv(c, s, steps[0]);
      ExecKeepsInv(c, Apply(c, s, steps[0]), steps[1..], t);
    }
  }

  lemma RunInv<S>(c: Config<S>, steps: seq<Step>, s: Pool<S>)
    requires Run(c, steps, s)
    ensures Inv(c, s)
  {
    ExecKeepsInv(c, NewPool<S>(), steps, s);
  }

  lemma RunPipes<S>(c: Config<S>, steps: seq<Step>, s: Pool<S>)
    requires Run(c, steps, s)
    ensures Pipes(s.net)
  {
    RunInv(c, steps, s);
  }

  // ----- delivery

  // Whatever the interleaving of the forwarders, what a handle and its clones have put in the shared
  // queue is what was sent through them, in order, without the tail that is still on its way.
  lemma HandleIsFifo<S>(c: Config<S>, steps: seq<Step>, s: Pool<S>, h: nat)
    requires Run(c, steps, s) && h < |s.net.handles|
    ensures Through(s.net.pushed, h) <= s.net.handles[h].sent
    ensures |s.net.handles[h].sent| - |Through(s.net.pushed, h)|
            == |s.net.handles[h].wrapper| + if s.net.handles[h].hand.Some? then 1 else 0
  {
    hide Run, Through;
    RunPipes(c, steps, s);
    var a := s.net.handles[h];
    assert a.sent == Through(s.net.pushed, h) + (InHand(a.hand) + a.wrapper);
  }

  lemma {:induction false} OnceEach(xs: seq<Item>, k: nat)
    requires forall i :: 0 <= i < |xs| ==> xs[i].no == i
    requires k < |xs|
    ensures multiset(xs)[xs[k]] == 1
  {
    var n := |xs| - 1;
    assert xs == xs[..n] + [xs[n]];
    if k == n {
      assert xs[k] !in xs[..n];
    } else {
      OnceEach(xs[..n], k);
    }
  }

  // Every envelope that has entered the shared queue is in exactly one place: still queued, in the
  // hands of one worker, or dispatched once.
  lemma ExactlyOnce<S>(c: Config<S>, steps: seq<Step>, s: Pool<S>, k: nat)
    requires Run(c, steps, s) && k < |s.net.pushed|
    ensures var x := s.net.pushed[k];
            multiset(s.net.queue)[x] + Held(s.workers)[x] + multiset(s.settled)[x] == 1
  {
    RunInv(c, steps, s);
    OnceEach(s.net.pushed, k);
    assert multiset(s.net.pushed) == multiset(s.net.pulled) + multiset(s.net.queue);
  }

  // Nothing is dispatched that was not sent through a handle to that destination.
  lemma {:induction false} ThroughHas(xs: seq<Item>, k: nat)
    requires k < |xs|
    ensures xs[k].env in Through(xs, xs[k].handle)
  {
    if k < |xs| - 1 {
      ThroughHas(xs[..|xs| - 1], k);
    }
  }

  lemma NothingInvented<S>(c: Config<S>, steps: seq<Step>, s: Pool<S>, item: Item)
    requires Run(c, steps, s) && item in s.settled
    ensures item.handle < |s.net.handles|
    ensures item.dest == s.net.handles[item.handle].dest && item.env in s.net.handles[item.handle].sent
  {
    RunInv(c, steps, s);
    assert item in multiset(s.net.pulled);
    var k :| 0 <= k < |s.net.pulled| && s.net.pulled[k] == item;
    assert s.net.pushed[k] == item;
    ThroughHas(s.net.pushed, k);
    HandleIsFifo(c, steps, s, item.handle);
  }

  // ----- order

  // No envelope overtakes as many as `size` others: the k-th one to be dispatched has fewer than
  // k + size before it in the queue.  And fewer than that are pulled but not dispatched.
  lemma BoundedOvertaking<S>(c: Config<S>, steps: seq<Step>, s: Pool<S>)
    requires Run(c, steps, s)
    ensures forall k :: 0 <= k < |s.settled| ==> s.settled[k].no < k + c.size
    ensures |s.net.pulled| - |s.settled| <= c.size
    ensures s.net.pulled + s.net.queue == s.net.pushed
  {
    RunInv(c, steps, s);
    HeldSize(s.workers);
    assert |multiset(s.net.pulled)| == |s.settled| + |Held(s.workers)|;
  }

  // The envelopes that a member has handled are those that entered the queue for it, in that order.
  ghost predicate Fifo<S>(s: Pool<S>) {
    forall d :: d in s.members ==> For(s.settled, d) <= For(s.net.pushed, d)
  }

  lemma {:induction false} ForCat(xs: seq<Item>, ys: seq<Item>, d: Name)
    ensures For(xs + ys, d) == For(xs, d) + For(ys, d)
  {
    if ys == [] {
      assert xs + ys == xs;
    } else {
      var n := |ys| - 1;
      assert xs + ys == (xs + ys[..n]) + [ys[n]];
      assert ys == ys[..n] + [ys[n]];
      ForCat(xs, ys[..n], d);
      ForSnoc(xs + ys[..n], ys[n], d);
      ForSnoc(ys[..n], ys[n], d);
    }
  }

  // With at most one worker what has been dispatched is a prefix of what entered the queue.
  lemma SettledIsPrefix<S>(c: Config<S>, steps: seq<Step>, s: Pool<S>) returns (rest: seq<Item>)
    requires Run(c, steps, s) && c.size <= 1
    ensures s.net.pushed == s.settled + rest
  {
    RunInv(c, steps, s);
    if s.workers == [] {
      rest := s.net.pushed;
    } else {
      var hand := if s.workers[0].Got? then [s.workers[0].item] else [];
      assert s.settled + hand == s.net.pulled;
      rest := hand + s.net.queue;
    }
  }

  // So the pool keeps each actor's order.
  lemma OneWorkerIsFifo<S>(c: Config<S>, steps: seq<Step>, s: Pool<S>)
    requires Run(c, steps, s) && c.size <= 1
    ensures Fifo(s)
    ensures s.settled <= s.net.pushed
  {
    hide Run, For;
    var rest := SettledIsPrefix(c, steps, s);
    forall d | d in s.members ensures For(s.settled, d) <= For(s.net.pushed, d) {
      ForCat(s.settled, rest, d);
    }
  }

  // Draining workers dispatch in queue order and one at a time, because the receiver guard is held
  // until the handler has returned.
  lemma DrainOrder<S>(c: Config<S>, steps: seq<Step>, s: Pool<S>)
    requires Run(c, steps, s)
    ensures Ascending(s.drained)
    ensures forall v, w | 0 <= v < |s.workers| && 0 <= w < |s.workers| ::
              Draining(s.workers[v]) && Draining(s.workers[w]) ==> v == w
    ensures forall w | 0 <= w < |s.workers| && s.workers[w].Got? && s.workers[w].drain ::
              forall k :: 0 <= k < |s.drained| ==> s.drained[k].no < s.workers[w].item.no
  {
    RunInv(c, steps, s);
  }

  // ----- isolation

  // No two threads are inside the same actor, counting the owner inside end().
  lemma MutualExclusion<S>(c: Config<S>, steps: seq<Step>, s: Pool<S>, w: nat)
    requires Run(c, steps, s) && w < |s.workers| && s.workers[w].Busy?
    ensures forall v | 0 <= v < |s.workers| && s.workers[v].Busy? ::
              s.workers[v].item.dest == s.workers[w].item.dest ==> v == w
    ensures s.owner.InEnd? ==> s.owner.name != s.workers[w].item.dest
  {
    RunInv(c, steps, s);
  }

  // The pool refines one actor at a time: an actor that nobody is inside has the state that it
  // would have on a thread of its own after init() and the calls of its log, although every handler
  // reads the state when it starts and writes it when it returns.  The log handles just what was
  // dispatched to the actor, in the order of dispatch.
  lemma Serializable<S>(c: Config<S>, steps: seq<Step>, s: Pool<S>, d: Name)
    requires Run(c, steps, s) && d in s.members
    ensures d in s.events && s.events[d] != [] && s.events[d][0].Init?
    ensures Items(s.events[d]) == For(s.settled, d)
    ensures d !in s.locks ==> s.members[d] == Replay(c, d, s.events[d])
    ensures d in s.locks ==> s.members[d] == Replay(c, d, s.events[d][..|s.events[d]| - 1])
  {
    RunInv(c, steps, s);
    assert SerialAt(c, s, d);
  }

  // ----- progress

  // As long as a worker has not exited, some worker can take a step or the owner can finish an end()
  // call: the locks never form a cycle.
  lemma Progress<S>(c: Config<S>, steps: seq<Step>, s: Pool<S>) returns (step: Step)
    requires Run(c, steps, s) && !AllExited(s)
    ensures Enabled(s, step) && (step.Work? || step == Own(FinishEnd))
  {
    RunInv(c, steps, s);
    if s.owner.InEnd? {
      step := Own(FinishEnd);
    } else if w: nat :| w < |s.workers| && s.workers[w].Busy? {
      step := Work(w);
    } else {
      assert forall d :: d !in s.locks;
      if w: nat :| w < |s.workers| && s.workers[w].Got? {
        step := Work(w);
      } else {
        assert s.receiver.None?;
        var w: nat :| w < |s.workers| && !s.workers[w].Exited?;
        step := Work(w);
      }
    }
  }

  datatype Thread = WorkerThread(id: nat) | OwnerThread

  predicate CanStep<S>(s: Pool<S>, th: Thread) {
    match th
    case WorkerThread(w) => CanWork(s, w)
    case OwnerThread => s.owner.InEnd?
  }

  // Thread `a` wants the lock that thread `b` holds: the receiver's or an actor's.
  predicate WaitsFor<S>(s: Pool<S>, a: Thread, b: Thread) {
    match a
    case WorkerThread(w) =>
      && w < |s.workers|
      && (match s.workers[w]
          case Poll => s.receiver.Some? && b == WorkerThread(s.receiver.value)
          case DrainPoll => s.receiver.Some? && b == WorkerThread(s.receiver.value)
          case Got(item, _) => item.dest in s.locks && b == HolderOf(s.locks[item.dest])
          case _ => false)
    case OwnerThread =>
      && s.owner.Ending?
      && exists d :: d in s.owner.todo && d in s.locks && b == HolderOf(s.locks[d])
  }

  function HolderOf(h: Holder): Thread {
    match h
    case ByWorker(w) => WorkerThread(w)
    case ByOwner => OwnerThread
  }

  // A thread that cannot step waits for another one.
  predicate Waiting<S>(s: Pool<S>, th: Thread) {
    match th
    case WorkerThread(w) => w < |s.workers| && !s.workers[w].Exited? && !CanWork(s, w)
    case OwnerThread => s.owner.Ending? && exists d :: d in s.owner.todo && d in s.locks
  }

  lemma LockHolderCanStep<S>(s: Pool<S>, d: Name)
    requires Locks(s) && d in s.locks
    ensures CanStep(s, HolderOf(s.locks[d]))
  {
  }

  // The lock that `a` wants is held by a thread that can step, or by one that wants just one more lock,
  // whose holder can step.
  lemma WaitsForHolder<S>(s: Pool<S>, a: Thread) returns (b: Thread)
    requires Locks(s) && Guard(s) && Waiting(s, a)
    ensures WaitsFor(s, a, b) && b != a
    ensures CanStep(s, b) || (b.WorkerThread? && b.id < |s.workers| && s.workers[b.id].Got? && Waiting(s, b))
  {
    match a
    case WorkerThread(w) =>
      if s.workers[w].Got? {
        b := HolderOf(s.locks[s.workers[w].item.dest]);
        LockHolderCanStep(s, s.workers[w].item.dest);
      } else {
        b := WorkerThread(s.receiver.value);
      }
    case OwnerThread =>
      var d :| d in s.owner.todo && d in s.locks;
      b := HolderOf(s.locks[d]);
      LockHolderCanStep(s, d);
  }

  // Nobody waits in a circle: whoever waits for a lock, worker or owner, waits through at most two
  // holders for a thread whose step is enabled.
  lemma ChainsAreShort<S>(c: Config<S>, steps: seq<Step>, s: Pool<S>, a: Thread) returns (chain: seq<Thread>)
    requires Run(c, steps, s) && Waiting(s, a)
    ensures 1 <= |chain| <= 2 && WaitsFor(s, a, chain[0])
    ensures |chain| == 2 ==> WaitsFor(s, chain[0], chain[1])
    ensures CanStep(s, chain[|chain| - 1])
  {
    RunInv(c, steps, s);
    hide Run, WaitsFor, Waiting, CanStep, Locks, Guard, Shape, Queue, Pipes, Logs, Serial, Accounted, Bounded, Alone,
      Drained;
    var b := WaitsForHolder(s, a);
    if CanStep(s, b) {
      chain := [b];
    } else {
      var b' := WaitsForActor(s, b);
      chain := [b, b'];
    }
  }

  lemma WaitsForActor<S>(s: Pool<S>, a: Thread) returns (b: Thread)
    requires Locks(s) && a.WorkerThread? && a.id < |s.workers| && s.workers[a.id].Got? && Waiting(s, a)
    ensures WaitsFor(s, a, b) && CanStep(s, b)
  {
    var d := s.workers[a.id].item.dest;
    b := HolderOf(s.locks[d]);
    LockHolderCanStep(s, d);
  }
}

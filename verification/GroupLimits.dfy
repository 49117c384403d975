// What the thread pool does not promise, and exactly when it does.
module GroupLimits {
  import opened Vocabulary
  import opened GroupModel
  import opened GroupInvariants
  import opened GroupTheorems
  import opened GroupShutdown

  // One more step of a run that is being put together.
  lemma Then<S>(c: Config<S>, steps: seq<Step>, s: Pool<S>, step: Step) returns (steps': seq<Step>, t: Pool<S>)
    requires Run(c, steps, s) && Enabled(s, step)
    ensures Run(c, steps', t) && t == Apply(c, s, step)
  {
    ExecSnoc(c, NewPool<S>(), steps, s, step);
    steps', t := steps + [step], Apply(c, s, step);
  }

  const START: Envelope := Envelope(Start, None, None)
  const SHUTDOWN: Envelope := Envelope(Shutdown, None, None)

  // A pool with the single actor `d`, just started: Start is still in the wrapper channel.
  function JustStarted<S>(c: Config<S>, d: Name): Pool<S> {
    Pool(Net([Handle(d, [START], None, [START])], [], [], []), [0], map[],
         map[d := c.actors.init(d, c.actors.create(0))], map[], None, true, true,
         seq(c.size, _ => Check), Idle, [], [], map[d := [Init(0)]])
  }

  lemma Starting<S>(c: Config<S>, d: Name) returns (steps: seq<Step>)
    ensures Run(c, steps, JustStarted(c, d))
  {
    var s := NewPool<S>();
    steps := [];
    steps, s := Then(c, steps, s, Own(Add(d)));
    steps, s := Then(c, steps, s, Own(BeginStart));
    steps, s := Then(c, steps, s, Own(SendStart));
    steps, s := Then(c, steps, s, Own(Spawn));
    assert s.members == JustStarted(c, d).members;
    assert s.events == JustStarted(c, d).events;
    assert s.workers == JustStarted(c, d).workers;
    assert [] + [START] == [START] && s.net.handles[0] == JustStarted(c, d).net.handles[0];
    assert s.net == JustStarted(c, d).net;
    assert s == JustStarted(c, d);
  }

  // ----- per-actor order

  ghost predicate AlwaysFifo<S(!new)>(c: Config<S>) {
    forall steps, s :: Run(c, steps, s) ==> Fifo(s)
  }

  // The same pool with Start and another envelope in the shared queue.
  lemma TwoQueued<S>(c: Config<S>, d: Name, env: Envelope) returns (steps: seq<Step>, s: Pool<S>)
    ensures Run(c, steps, s)
    ensures s == JustStarted(c, d).(net := s.net)
    ensures s.net.queue == [Item(0, 0, d, START), Item(1, 0, d, env)] == s.net.pushed && s.net.pulled == []
  {
    s := JustStarted(c, d);
    steps := Starting(c, d);
    steps, s := Then(c, steps, s, Move(ClientSend(0, env)));
    steps, s := Then(c, steps, s, Move(Take(0)));
    steps, s := Then(c, steps, s, Move(Push(0)));
    steps, s := Then(c, steps, s, Move(Take(0)));
    steps, s := Then(c, steps, s, Move(Push(0)));
  }

  // Two envelopes in the queue, pulled by two workers, of which the second is the faster.
  lemma Overtaking<S>(c: Config<S>, d: Name, env: Envelope) returns (steps: seq<Step>, s: Pool<S>)
    requires c.size >= 2
    ensures Run(c, steps, s) && d in s.members
    ensures |s.net.pushed| == 2 && For(s.net.pushed, d) == s.net.pushed && For(s.settled, d) == [s.net.pushed[1]]
  {
    steps, s := TwoQueued(c, d, env);
    var x, y := Item(0, 0, d, START), Item(1, 0, d, env);
    hide Run, For;
    steps, s := Then(c, steps, s, Work(0));
    steps, s := Then(c, steps, s, Work(0));
    assert s.workers[0] == Got(x, false) && s.net.queue == [y];
    steps, s := Then(c, steps, s, Work(1));
    steps, s := Then(c, steps, s, Work(1));
    assert s.workers[1] == Got(y, false);
    steps, s := Then(c, steps, s, Work(1));
    TwoFor(d, x, y);
    assert s.settled == [y];
  }

  lemma TwoFor(d: Name, x: Item, y: Item)
    requires x.dest == d && y.dest == d
    ensures For([y], d) == [y] && For([x, y], d) == [x, y]
  {
    ForSnoc([], y, d);
    ForSnoc([], x, d);
    ForSnoc([x], y, d);
    assert [] + [x] == [x] && [] + [y] == [y] && [x] + [y] == [x, y];
  }

  // Each actor gets its envelopes in queue order in every run if and only if there is at most one
  // worker, whatever the actors do.
  lemma FifoIff<S(!new)>(c: Config<S>)
    ensures AlwaysFifo(c) <==> c.size <= 1
  {
    if c.size <= 1 {
      forall steps, s | Run(c, steps, s) ensures Fifo(s) {
        OneWorkerIsFifo(c, steps, s);
      }
    } else {
      var steps, s := Overtaking(c, "actor", START);
      assert For(s.settled, "actor")[0].no != For(s.net.pushed, "actor")[0].no by {
        RunInv(c, steps, s);
      }
    }
  }

  // ----- end() and later messages

  // end() is the last call that each actor receives.
  ghost predicate EndIsLast<S>(s: Pool<S>) {
    forall d, i, j :: d in s.events && 0 <= i < j < |s.events[d]| && s.events[d][i].End? ==>
      !s.events[d][j].Handled?
  }

  ghost predicate AlwaysEndsLast<S(!new)>(c: Config<S>) {
    forall steps, s :: Run(c, steps, s) ==> EndIsLast(s)
  }

  // wait() calls end() before it joins the workers, so a worker can still dispatch afterwards.
  lemma HandledAfterEnd<S>(c: Config<S>, d: Name) returns (steps: seq<Step>, s: Pool<S>)
    requires c.size >= 1
    ensures Run(c, steps, s) && d in s.events && |s.events[d]| == 3
    ensures s.events[d][1].End? && s.events[d][2].Handled?
  {
    steps, s := JustEnded(c, d);
    steps, s := Then(c, steps, s, Move(Take(0)));
    steps, s := Then(c, steps, s, Move(Push(0)));
    steps, s := Then(c, steps, s, Work(0));
    steps, s := Then(c, steps, s, Work(0));
    steps, s := Then(c, steps, s, Work(0));
  }

  // The same pool after wait() has called end().
  lemma JustEnded<S>(c: Config<S>, d: Name) returns (steps: seq<Step>, s: Pool<S>)
    ensures Run(c, steps, s)
    ensures s == JustStarted(c, d).(owner := Ending({}), members := s.members, events := map[d := [Init(0), End]])
    ensures s.members.Keys == {d}
  {
    s := JustStarted(c, d);
    steps := Starting(c, d);
    steps, s := Then(c, steps, s, Own(BeginWait));
    steps, s := Then(c, steps, s, Own(LockForEnd(d)));
    steps, s := Then(c, steps, s, Own(FinishEnd));
    assert s.events[d] == [Init(0), End] && d !in s.locks && d in s.members;
    assert s.events == map[d := [Init(0), End]] && s.locks == map[] && s.owner.todo == {};
  }

  lemma {:induction false} NoItems(log: seq<Event>)
    requires Items(log) == []
    ensures forall i :: 0 <= i < |log| ==> !log[i].Handled?
  {
    if log != [] {
      NoItems(log[..|log| - 1]);
    }
  }

  // end() comes last in every run if and only if the pool has no workers, and so handles nothing.
  lemma EndIsLastIff<S(!new)>(c: Config<S>)
    ensures AlwaysEndsLast(c) <==> c.size == 0
  {
    if c.size == 0 {
      forall steps, s | Run(c, steps, s) ensures EndIsLast(s) {
        RunInv(c, steps, s);
        forall d | d in s.events ensures Items(s.events[d]) == [] {
          assert s.settled == [];
        }
        forall d | d in s.events { NoItems(s.events[d]); }
      }
    } else {
      var steps, s := HandledAfterEnd(c, "actor");
    }
  }

  // ----- shutdown() and the forwarders

  // The workers leave one after the other while the shared queue is empty.
  lemma {:induction false} AllLeave<S>(c: Config<S>, steps: seq<Step>, s: Pool<S>, k: nat)
    returns (steps': seq<Step>, t: Pool<S>)
    requires Run(c, steps, s) && k <= |s.workers|
    requires !s.running && s.net.queue == [] && s.receiver.None?
    requires forall w :: 0 <= w < |s.workers| ==> s.workers[w] == if w < k then Exited else Check
    ensures Run(c, steps', t) && AllExited(t)
    ensures t == s.(workers := t.workers)
    decreases |s.workers| - k
  {
    if k == |s.workers| {
      steps', t := steps, s;
    } else {
      var steps1, s1 := Then(c, steps, s, Work(k));
      assert s1 == s.(workers := s.workers[k := DrainPoll]);
      var steps2, s2 := Then(c, steps1, s1, Work(k));
      assert s2 == s.(workers := s.workers[k := Exited]);
      steps', t := AllLeave(c, steps2, s2, k + 1);
    }
  }

  // shutdown() and wait() can both return while the Shutdown message that shutdown() sent has not
  // reached the shared queue.  By Frozen it is then never handled.
  lemma ShutdownLost<S>(c: Config<S>, d: Name) returns (steps: seq<Step>, s: Pool<S>)
    ensures Run(c, steps, s) && s.owner.Idle? && !s.running && AllExited(s) && d in s.events
    ensures |s.events[d]| > 0 && s.events[d][|s.events[d]| - 1] == End
    ensures |s.net.handles| == 1 && SHUTDOWN in s.net.handles[0].sent && s.settled == []
  {
    s := JustStarted(c, d);
    steps := Starting(c, d);
    steps, s := Then(c, steps, s, Own(BeginShutdown));
    steps, s := Then(c, steps, s, Own(SendShutdown));
    steps, s := Then(c, steps, s, Own(ClearRunning));
    assert [START] + [SHUTDOWN] == [START, SHUTDOWN] == s.net.handles[0].sent;
    steps, s := Then(c, steps, s, Own(BeginWait));
    steps, s := Then(c, steps, s, Own(LockForEnd(d)));
    steps, s := Then(c, steps, s, Own(FinishEnd));
    assert s.events[d] == [Init(0), End] && s.owner.todo == {};
    steps, s := AllLeave(c, steps, s, 0);
    steps, s := Then(c, steps, s, Own(Join));
  }
}

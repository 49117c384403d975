// src/group.rs in its own form: a Group whose threads change its fields in place, one method for each
// atomic action, and the loops of the forwarder, of start(), shutdown() and wait(), and of the drain.
module GroupPool {
  import opened Vocabulary
  import opened GroupModel
  import opened GroupInvariants
  import opened GroupTheorems
  import opened GroupShutdown
  import opened GroupConservation
  import opened GroupMembers
  import opened GroupWait

  class Group<S> {
    const config: Config<S>
    var handles: seq<Handle>
    var queue: seq<Item>
    var refs: seq<nat>
    var builder: map<Name, nat>
    var members: map<Name, S>
    var locks: map<Name, Holder>
    var receiver: Option<nat>
    var running: bool
    var started: bool
    var workers: seq<Worker<S>>
    var owner: Owner<S>
    // history
    var pushed: seq<Item>
    var pulled: seq<Item>
    var settled: seq<Item>
    var drained: seq<Item>
    var events: map<Name, seq<Event>>
    ghost var trace: seq<Step>

    function State(): Pool<S>
      reads this
    {
      Pool(Net(handles, queue, pushed, pulled), refs, builder, members, locks, receiver, running, started,
           workers, owner, settled, drained, events)
    }

    // The steps taken so far are a run of the model that ends in this state, so that whatever holds in
    // every run holds of the object.
    ghost predicate Valid()
      reads this
    {
      Run(config, trace, State())
    }

    // All workers have exited.
    predicate Gone()
      reads `workers
    {
      forall w | 0 <= w < |workers| :: workers[w].Exited?
    }

    constructor (config: Config<S>)
      ensures Valid() && trace == [] && this.config == config
      ensures !started && running && owner.Idle? && builder == map[] && refs == [] && handles == [] && workers == []
    {
      this.config := config;
      handles, queue, refs, builder := [], [], [], map[];
      members, locks, receiver := map[], map[], None;
      running, started, workers, owner := true, false, [], Idle;
      pushed, pulled, settled, drained, events := [], [], [], [], map[];
      trace := [];
    }

    // No two threads are ever inside one actor, none has more envelopes than were sent to it, and each
    // actor that is not inside a call has the state that its calls, one after the other, make of it.
    lemma Safe(d: Name, w: nat, h: nat)
      requires Valid()
      ensures w < |workers| && workers[w].Busy? ==>
                (forall v | 0 <= v < |workers| && workers[v].Busy? ::
                   workers[v].item.dest == workers[w].item.dest ==> v == w)
                && (owner.InEnd? ==> owner.name != workers[w].item.dest)
      ensures h < |handles| && handles[h].dest in members ==>
                handles[h].dest in events && Bag(Items(events[handles[h].dest]), h) <= multiset(handles[h].sent)
      ensures d in members && d !in locks ==> d in events && members[d] == Replay(config, d, events[d])
    {
      if w < |workers| && workers[w].Busy? {
        MutualExclusion(config, trace, State(), w);
      }
      if h < |handles| {
        Conservation(config, trace, State(), h);
      }
      if d in members {
        Serializable(config, trace, State(), d);
      }
    }

    // ----- handles, clients and forwarders

    method Add(d: Name) returns (h: nat)
      requires Valid() && owner.Idle?
      modifies this
      ensures Valid() && trace == old(trace) + [Own(Call.Add(d))]
      ensures h == |old(handles)| && handles == old(handles) + [Handle(d, [], None, [])]
      ensures refs == old(refs) + [h] && builder == old(builder)[d := |old(refs)|] && owner.Idle?
    {
      ghost var s := State();
      h := |handles|;
      handles := handles + [Handle(d, [], None, [])];
      builder := builder[d := |refs|];
      refs := refs + [h];
      OneStep(config, trace, s, Own(Call.Add(d)), State());
      trace := trace + [Own(Call.Add(d))];
    }

    method GetRef(d: Name) returns (h: Option<nat>)
      requires Valid() && owner.Idle?
      modifies this
      ensures Valid() && owner.Idle?
      ensures h.Some? <==> d in old(builder) || d in old(members)
      ensures h.Some? ==> h.value == |old(handles)| && handles == old(handles) + [Handle(d, [], None, [])]
      ensures trace == if h.Some? then old(trace) + [Own(Call.GetRef(d))] else old(trace)
    {
      if d in builder || d in members {
        ghost var s := State();
        h := Some(|handles|);
        handles := handles + [Handle(d, [], None, [])];
        OneStep(config, trace, s, Own(Call.GetRef(d)), State());
        trace := trace + [Own(Call.GetRef(d))];
      } else {
        h := None;
      }
    }

    // The wrapper channel of handle `h` takes an envelope.
    method Deposit(h: nat, env: Envelope)
      modifies `handles
      ensures handles == SendTo(Net(old(handles), queue, pushed, pulled), h, env).handles
    {
      if h < |handles| {
        var a := handles[h];
        handles := handles[h := a.(wrapper := a.wrapper + [env], sent := a.sent + [env])];
      }
    }

    // A client sends through handle `h`.
    method Send(h: nat, env: Envelope)
      requires Valid() && h < |handles|
      modifies this
      ensures Valid() && trace == old(trace) + [Move(ClientSend(h, env))] && |handles| == |old(handles)|
      ensures handles[h].sent == old(handles[h].sent) + [env] && queue == old(queue) && settled == old(settled)
    {
      ghost var s := State();
      Deposit(h, env);
      OneStep(config, trace, s, Move(ClientSend(h, env)), State());
      trace := trace + [Move(ClientSend(h, env))];
    }

    // The forwarder's recv().
    method TakeFromWrapper(h: nat)
      requires Valid() && h < |handles| && handles[h].hand.None? && handles[h].wrapper != []
      modifies this
      ensures Valid() && trace == old(trace) + [Move(Take(h))]
      ensures |handles| == |old(handles)| && queue == old(queue) && pushed == old(pushed)
      ensures handles[h]
              == old(handles[h]).(wrapper := old(handles[h].wrapper)[1..], hand := Some(old(handles[h].wrapper)[0]))
    {
      ghost var s := State();
      var a := handles[h];
      handles := handles[h := a.(wrapper := a.wrapper[1..], hand := Some(a.wrapper[0]))];
      OneStep(config, trace, s, Move(Take(h)), State());
      trace := trace + [Move(Take(h))];
    }

    // The forwarder's send() on the shared queue.
    method PushToQueue(h: nat)
      requires Valid() && h < |handles| && handles[h].hand.Some?
      modifies this
      ensures Valid() && trace == old(trace) + [Move(Push(h))] && |handles| == |old(handles)|
      ensures handles[h] == old(handles[h]).(hand := None)
      ensures pushed == old(pushed) + [Item(|old(pushed)|, h, handles[h].dest, old(handles[h].hand.value))]
      ensures queue == old(queue) + [pushed[|old(pushed)|]]
    {
      ghost var s := State();
      var a := handles[h];
      var item := Item(|pushed|, h, a.dest, a.hand.value);
      handles := handles[h := a.(hand := None)];
      queue := queue + [item];
      pushed := pushed + [item];
      OneStep(config, trace, s, Move(Push(h)), State());
      trace := trace + [Move(Push(h))];
    }

    // The loop of the forwarder of handle `h`, until its channel is empty: all that was ever sent through
    // the handle has then entered the shared queue, in order.
    method Forward(h: nat)
      requires Valid() && h < |handles|
      modifies this
      ensures Valid() && h < |handles| && handles[h].wrapper == [] && handles[h].hand.None?
      ensures handles[h].sent == old(handles[h].sent) == Through(pushed, h)
      ensures old(pushed) <= pushed && old(queue) <= queue && |queue| - |old(queue)| == |pushed| - |old(pushed)|
    {
      hide Run;
      while handles[h].wrapper != [] || handles[h].hand.Some?
        invariant Valid() && h < |handles| && handles[h].sent == old(handles[h].sent)
        invariant old(pushed) <= pushed && old(queue) <= queue && |queue| - |old(queue)| == |pushed| - |old(pushed)|
        decreases |handles[h].wrapper|, if handles[h].hand.Some? then 1 else 0
      {
        if handles[h].hand.None? {
          TakeFromWrapper(h);
        } else {
          PushToQueue(h);
        }
      }
      HandleIsFifo(config, trace, State(), h);
    }

    // ----- one turn of a worker

    method CheckRunning(w: nat)
      requires w < |workers| && workers[w].Check?
      modifies `workers
      ensures State() == WorkStep(config, old(State()), w)
    {
      workers := workers[w := if running then Poll else DrainPoll];
    }

    method TryRecv(w: nat)
      requires w < |workers| && (workers[w].Poll? || workers[w].DrainPoll?) && receiver.None?
      modifies `workers, `queue, `pulled, `receiver
      ensures State() == WorkStep(config, old(State()), w)
      ensures |workers| == |old(workers)| && forall v | 0 <= v < |workers| && v != w :: workers[v] == old(workers[v])
      ensures if old(queue) == [] then
                workers[w] == (if old(workers[w].Poll?) then Check else Exited) && queue == [] && receiver.None?
              else
                && workers[w] == Got(old(queue[0]), old(workers[w].DrainPoll?)) && queue == old(queue)[1..]
                && receiver == if old(workers[w].DrainPoll?) then Some(w) else None
    {
      var drain := workers[w].DrainPoll?;
      if queue == [] {
        workers := workers[w := if drain then Exited else Check];
      } else {
        var item := queue[0];
        queue, pulled := queue[1..], pulled + [item];
        workers := workers[w := Got(item, drain)];
        if drain {
          receiver := Some(w);
        }
      }
    }

    method DispatchToActor(w: nat)
      requires CanWork(State(), w) && workers[w].Got?
      modifies this
      ensures State() == WorkStep(config, old(State()), w) && trace == old(trace)
      ensures |workers| == |old(workers)| && settled == old(settled) + [old(workers[w].item)]
      ensures members == old(members) && handles == old(handles) && queue == old(queue)
      ensures var x, drain := old(workers[w].item), old(workers[w].drain);
              if x.dest in members then
                && workers[w]
                   == Busy(x, drain, members[x.dest], config.actors.process(x.dest, members[x.dest], x.env).1)
                && locks == old(locks)[x.dest := ByWorker(w)]
              else
                && workers[w] == (if drain then DrainPoll else Check) && locks == old(locks)
                && receiver == if drain then None else old(receiver)
    {
      var item, drain := workers[w].item, workers[w].drain;
      if item.dest in members {
        LockActor(w, item, drain);
      } else {
        settled := settled + [item];
        workers := workers[w := if drain then DrainPoll else Check];
        if drain {
          drained := drained + [item];
          receiver := None;
        }
      }
    }

    method LockActor(w: nat, item: Item, drain: bool)
      requires w < |workers| && item.dest in members && item.dest !in locks
      modifies this
      ensures State() == Lock(config, old(State()), w, item, drain) && trace == old(trace)
      ensures |workers| == |old(workers)| && members == old(members) && handles == old(handles) && queue == old(queue)
      ensures workers[w]
              == Busy(item, drain, members[item.dest], config.actors.process(item.dest, members[item.dest], item.env).1)
      ensures locks == old(locks)[item.dest := ByWorker(w)] && settled == old(settled) + [item]
    {
      var local := members[item.dest];
      var out := config.actors.process(item.dest, local, item.env).1;
      locks := locks[item.dest := ByWorker(w)];
      events := Append(events, item.dest, Handled(item));
      workers := workers[w := Busy(item, drain, local, out)];
      settled := settled + [item];
      if drain {
        drained := drained + [item];
      }
    }

    method RunHandler(w: nat)
      requires w < |workers| && workers[w].Busy?
      modifies this
      ensures State() == WorkStep(config, old(State()), w) && trace == old(trace)
    {
      var b := workers[w];
      if b.out != [] {
        Deposit(b.out[0].handle, b.out[0].env);
        workers := workers[w := b.(out := b.out[1..])];
      } else {
        members := members[b.item.dest := config.actors.process(b.item.dest, b.local, b.item.env).0];
        locks := locks - {b.item.dest};
        workers := workers[w := if b.drain then DrainPoll else Check];
        if b.drain {
          receiver := None;
        }
      }
    }

    // A worker that is not waiting for a lock goes on to its next atomic action.
    method Turn(w: nat)
      requires Valid() && CanWork(State(), w)
      modifies this
      ensures Valid() && trace == old(trace) + [Work(w)] && State() == WorkStep(config, old(State()), w)
    {
      ghost var s := State();
      hide WorkStep, CanWork;
      TurnKind(s, w);
      match workers[w] {
        case Check => CheckRunning(w);
        case Poll => TryRecv(w);
        case DrainPoll => TryRecv(w);
        case Got(_, _) => DispatchToActor(w);
        case Busy(_, _, _, _) => RunHandler(w);
        case Exited =>
      }
      WorkIsStep(config, trace, s, w);
      trace := trace + [Work(w)];
    }

    // The handler of worker `w` to its end: what it has still to send goes, in order, to the handles that
    // it is addressed to, and the actor gets the state that the handler returns.
    method FinishHandler(w: nat) returns (ghost n: nat)
      requires Valid() && w < |workers| && workers[w].Busy?
      modifies this
      ensures Valid() && trace == old(trace) + Repeat(Work(w), n)
      ensures w < |workers| && !workers[w].Busy? && Handling(config, old(State()), State(), w)
      ensures var b := old(workers[w]);
              && members == old(members)[b.item.dest := config.actors.process(b.item.dest, b.local, b.item.env).0]
              && locks == old(locks) - {b.item.dest} && receiver == (if b.drain then None else old(receiver))
              && workers[w] == (if b.drain then DrainPoll else Check)
              && queue == old(queue) && settled == old(settled) && |handles| == |old(handles)|
              && forall h: nat | h < |handles| :: handles[h].sent == old(handles[h].sent) + Addressed(b.out, h)
    {
      n := 0;
      assert trace == old(trace) + Repeat(Work(w), n);
      assert Handling(config, State(), State(), w);
      hide Run, Repeat, WorkStep, Handling;
      while workers[w].Busy?
        invariant Valid() && trace == old(trace) + Repeat(Work(w), n)
        invariant w < |workers| && Handling(config, old(State()), State(), w)
        decreases if workers[w].Busy? then |workers[w].out| + 1 else 0
      {
        ghost var s := State();
        LocksOfRun(config, trace, s);
        HandlerTurn(config, s, w);
        Turn(w);
        HandlingWorks(config, s, State(), w);
        HandlingOn(config, old(State()), s, State(), w);
        RepeatMore(old(trace), Work(w), n, 1);
        n := n + 1;
      }
      HandlerEnds(config, old(State()), State(), w);
    }

    // One turn of the drain loop: the head of the queue is dispatched under the receiver guard.  Its actor
    // goes on to the state that its handler returns, and what the handler sends is sent.
    method DrainOne(w: nat) returns (ghost n: nat)
      requires Valid() && w < |workers| && workers[w].DrainPoll? && receiver.None? && locks == map[]
      modifies this
      ensures Valid() && trace == old(trace) + Repeat(Work(w), n)
      ensures w < |workers| && receiver.None? && locks == map[]
      ensures if old(queue) == [] then workers[w].Exited? && queue == [] && settled == old(settled)
              else workers[w].DrainPoll? && queue == old(queue)[1..] && settled == old(settled) + [old(queue)[0]]
      ensures |handles| == |old(handles)|
      ensures old(queue) != [] && old(queue)[0].dest in old(members) ==>
                var x := old(queue)[0];
                var ran := config.actors.process(x.dest, old(members)[x.dest], x.env);
                && members == old(members)[x.dest := ran.0]
                && forall h: nat | h < |handles| :: handles[h].sent == old(handles[h].sent) + Addressed(ran.1, h)
      ensures old(queue) == [] || old(queue)[0].dest !in old(members) ==>
                members == old(members) && handles == old(handles)
    {
      hide Run, Repeat, WorkStep, Addressed, Handling;
      ghost var s := State();
      Turn(w);
      PollTurn(config, s, w);
      n := 1;
      OneRepeat(Work(w));
      if workers[w].Got? {
        s := State();
        Turn(w);
        DispatchTurn(config, s, w);
        RepeatMore(old(trace), Work(w), n, 1);
        n := n + 1;
        if workers[w].Busy? {
          ghost var m := FinishHandler(w);
          RepeatMore(old(trace), Work(w), n, m);
          n := n + m;
        }
      }
    }

    // The drain of a worker that nobody disturbs: it handles what is in the shared queue, one item
    // after the other and in order, and exits.  What the handlers send stays in the wrapper channels.
    method Drain(w: nat) returns (ghost n: nat)
      requires Valid() && w < |workers| && workers[w].DrainPoll? && receiver.None? && locks == map[]
      modifies this
      ensures Valid() && trace == old(trace) + Repeat(Work(w), n)
      ensures w < |workers| && workers[w].Exited? && queue == [] && settled == old(settled) + old(queue)
    {
      n := 0;
      assert trace == old(trace) + Repeat(Work(w), n);
      hide Run, Repeat;
      while workers[w].DrainPoll?
        invariant Valid() && trace == old(trace) + Repeat(Work(w), n)
        invariant w < |workers| && (workers[w].DrainPoll? || (workers[w].Exited? && queue == []))
        invariant receiver.None? && locks == map[]
        invariant settled + queue == old(settled) + old(queue)
        decreases |queue| + if workers[w].DrainPoll? then 1 else 0
      {
        ghost var m := DrainOne(w);
        RepeatMore(old(trace), Work(w), n, m);
        n := n + m;
      }
    }

    // ----- start() and shutdown()

    // start(): every added actor is initialised, Start is sent to every reference that add() returned,
    // and the workers are spawned.
    method Start()
      requires Valid() && owner.Idle? && !started
      modifies this
      ensures Valid()
      ensures var n := |old(refs)|;
              trace == old(trace) + ([Own(BeginStart)] + Repeat(Own(SendStart), n) + [Own(Spawn)])
      ensures started && owner.Idle? && workers == seq(config.size, _ => Check)
      ensures members == Initialised(config, old(builder)) && builder == map[]
      ensures refs == old(refs) && |handles| == |old(handles)|
      ensures forall k | 0 <= k < |refs| ::
                && refs[k] < |handles|
                && handles[refs[k]].sent == old(handles)[refs[k]].sent + [Envelope(Vocabulary.Start, None, None)]
      ensures forall h | 0 <= h < |handles| && h !in refs :: handles[h] == old(handles[h])
    {
      hide Run, Repeat;
      ghost var t := trace;
      InitActors();
      NotifyAll(Vocabulary.Start);
      SpawnWorkers();
      InSequence(t, Own(BeginStart), Own(SendStart), |refs|, Own(Spawn));
    }

    // Every added actor moves to the map that the workers will share, and its init() is called.
    method InitActors()
      requires Valid() && owner.Idle? && !started
      modifies this
      ensures Valid() && trace == old(trace) + [Own(BeginStart)]
      ensures refs == old(refs) && handles == old(handles) && owner == Starting(0) && workers == [] && started
      ensures builder == map[]
      ensures members == Initialised(config, old(builder))
    {
      ghost var s := State();
      WorkersOfRun(config, trace, s);
      hide Initialised, FirstCalls, Run;
      members := InitAll(builder);
      events := FirstCalls(builder);
      started, owner, builder := true, Starting(0), map[];
      assert State() == Launch(config, s);
      hide Launch;
      OneStep(config, trace, s, Own(BeginStart), State());
      trace := trace + [Own(BeginStart)];
    }

    method InitAll(names: map<Name, nat>) returns (states: map<Name, S>)
      ensures states == Initialised(config, names)
    {
      states := map d | d in names :: config.actors.create(names[d]);
      var todo := names.Keys;
      while todo != {}
        invariant states.Keys == names.Keys && todo <= names.Keys
        invariant forall d | d in names ::
                    states[d]
                    == var s := config.actors.create(names[d]); if d in todo then s else config.actors.init(d, s)
        decreases |todo|
      {
        var d :| d in todo;
        states := states[d := config.actors.init(d, states[d])];
        todo := todo - {d};
      }
    }

    method SpawnWorkers()
      requires Valid() && owner == Starting(|refs|) && workers == []
      modifies `workers, `owner, `trace
      ensures Valid() && trace == old(trace) + [Own(Spawn)]
      ensures workers == seq(config.size, _ => Check) && owner.Idle?
    {
      hide Run, CallStep;
      ghost var s := State();
      for i := 0 to config.size
        invariant workers == seq(i, _ => Check) && State() == s.(workers := workers) && trace == old(trace)
      {
        workers := workers + [Check];
      }
      owner := Idle;
      SpawnIs(config, s);
      OwnStep(config, trace, s, Spawn, State());
      trace := trace + [Own(Spawn)];
    }

    // shutdown(): Shutdown is sent to every reference, then the running flag is cleared.
    method Shutdown()
      requires Valid() && owner.Idle?
      modifies this
      ensures Valid() && !running && owner.Idle?
      ensures var n := |old(refs)|;
              trace == old(trace) + ([Own(BeginShutdown)] + Repeat(Own(SendShutdown), n) + [Own(ClearRunning)])
      ensures refs == old(refs) && |handles| == |old(handles)|
      ensures forall k | 0 <= k < |refs| ::
                && refs[k] < |handles|
                && handles[refs[k]].sent == old(handles)[refs[k]].sent + [Envelope(Vocabulary.Shutdown, None, None)]
      ensures forall h | 0 <= h < |handles| && h !in refs :: handles[h] == old(handles[h])
    {
      hide Run, Repeat;
      ghost var t := trace;
      ghost var s := State();
      owner := Notifying(0);
      OneStep(config, trace, s, Own(BeginShutdown), State());
      trace := trace + [Own(BeginShutdown)];
      NotifyAll(Vocabulary.Shutdown);
      ClearFlag();
      InSequence(t, Own(BeginShutdown), Own(SendShutdown), |refs|, Own(ClearRunning));
    }

    method ClearFlag()
      requires Valid() && owner == Notifying(|refs|)
      modifies `running, `owner, `trace
      ensures Valid() && trace == old(trace) + [Own(ClearRunning)] && !running && owner.Idle?
    {
      hide Run;
      ghost var s := State();
      running := false;
      owner := Idle;
      OneStep(config, trace, s, Own(ClearRunning), State());
      trace := trace + [Own(ClearRunning)];
    }

    // The loop of start() and shutdown() over the references: each that add() returned gets the message
    // once, and nobody else gets anything.
    method NotifyAll(msg: Message)
      requires Valid() && owner == (if msg.Start? then Starting(0) else Notifying(0))
      requires msg.Start? || msg.Shutdown?
      modifies `handles, `owner, `trace
      ensures Valid()
      ensures owner == if msg.Start? then Starting(|refs|) else Notifying(|refs|)
      ensures trace == old(trace) + Repeat(Own(if msg.Start? then SendStart else SendShutdown), |refs|)
      ensures |handles| == |old(handles)|
      ensures forall k | 0 <= k < |refs| ::
                refs[k] < |handles| && handles[refs[k]].sent == old(handles)[refs[k]].sent + [Envelope(msg, None, None)]
      ensures forall h | 0 <= h < |handles| && h !in refs :: handles[h] == old(handles[h])
    {
      ghost var step := Own(if msg.Start? then SendStart else SendShutdown);
      ghost var env := Envelope(msg, None, None);
      RefsAreDistinct(config, trace, State());
      var k := 0;
      assert trace == old(trace) + Repeat(step, k);
      assert Notified(handles, handles, refs, 0, env);
      hide Run, Repeat, Notified;
      while k < |refs|
        invariant Valid() && 0 <= k <= |refs| && |handles| == |old(handles)|
        invariant owner == if msg.Start? then Starting(k) else Notifying(k)
        invariant trace == old(trace) + Repeat(step, k)
        invariant Notified(old(handles), handles, refs, k, env)
      {
        NotifiedOneMore(old(handles), handles, refs, k, env);
        NotifyNext(msg, k);
        RepeatMore(old(trace), step, k, 1);
        k := k + 1;
      }
      AllNotified(old(handles), handles, refs, env);
    }

    method NotifyNext(msg: Message, k: nat)
      requires Valid() && k < |refs| && refs[k] < |handles| && (msg.Start? || msg.Shutdown?)
      requires owner == if msg.Start? then Starting(k) else Notifying(k)
      modifies `handles, `owner, `trace
      ensures Valid() && owner == if msg.Start? then Starting(k + 1) else Notifying(k + 1)
      ensures trace == old(trace) + [Own(if msg.Start? then SendStart else SendShutdown)]
      ensures handles == old(handles)[refs[k] := With(old(handles)[refs[k]], Envelope(msg, None, None))]
    {
      hide Run;
      ghost var s := State();
      ghost var step := Own(if msg.Start? then SendStart else SendShutdown);
      Deposit(refs[k], Envelope(msg, None, None));
      owner := if msg.Start? then Starting(k + 1) else Notifying(k + 1);
      OneStep(config, trace, s, step, State());
      trace := trace + [step];
    }

    // ----- wait()

    // wait() after shutdown(): end() is called once on every actor, each time with the actor's lock, and
    // then the workers are waited for.  The methods play the workers too, which go on in an order that is
    // left open, until each of them has exited; by then they have emptied the shared queue.
    method Wait()
      requires Valid() && owner.Idle? && !running
      modifies this
      ensures Valid() && owner.Idle? && Gone() && members.Keys == old(members.Keys) == events.Keys
      ensures old(members.Keys) == old(events.Keys)
      ensures forall d | d in members :: Ends(events[d]) == Ends(old(events[d])) + 1
      ensures if old(Gone()) then queue == old(queue) else queue == []
    {
      hide Run, Ends, CallStep;
      BeginWait();
      EndAll();
      JoinAll();
      EndWait();
    }

    method BeginWait()
      requires Valid() && owner.Idle?
      modifies `owner, `trace
      ensures Valid() && owner == Ending(members.Keys) && members.Keys == events.Keys
      ensures Gone() == old(Gone())
    {
      hide Run, CallStep;
      ghost var s := State();
      LocksOfRun(config, trace, s);
      owner := Ending(members.Keys);
      WaitIs(config, s);
      OwnStep(config, trace, s, GroupModel.BeginWait, State());
      trace := trace + [Own(GroupModel.BeginWait)];
    }

    method EndWait()
      requires Valid() && owner == Ending({}) && Gone()
      modifies `owner, `trace
      ensures Valid() && owner.Idle? && Gone()
    {
      hide Run, CallStep;
      ghost var s := State();
      owner := Idle;
      WaitIs(config, s);
      OwnStep(config, trace, s, Join, State());
      trace := trace + [Own(Join)];
    }

    // The loop over the actors.
    method EndAll()
      requires Valid() && owner == Ending(members.Keys) && members.Keys == events.Keys
      modifies this
      ensures Valid() && owner == Ending({}) && running == old(running)
      ensures members.Keys == old(members.Keys) && EndedOnce(old(events), events, {})
      ensures Gone() == old(Gone()) && queue == old(queue)
    {
      var todo := members.Keys;
      assert EndedOnce(events, events, todo);
      hide Run, Gone, EndedOnce;
      while todo != {}
        invariant Valid() && owner == Ending(todo) && todo <= members.Keys && running == old(running)
        invariant members.Keys == old(members.Keys) && EndedOnce(old(events), events, todo)
        invariant Gone() == old(Gone()) && queue == old(queue)
        decreases |todo|
      {
        var d :| d in todo;
        OneLess(old(events), events, todo, d);
        EndActor(d, todo);
        todo := todo - {d};
      }
    }

    // One actor: if a worker is inside it, that one is waited for, and then end() is called.
    method EndActor(d: Name, todo: set<Name>)
      requires Valid() && owner == Ending(todo) && d in todo && d in members && d in events
      modifies this
      ensures Valid() && owner == Ending(todo - {d}) && running == old(running)
      ensures members.Keys == old(members.Keys) && queue == old(queue) && Gone() == old(Gone())
      ensures events == old(events)[d := old(events[d]) + [End]]
    {
      hide Run, Gone, Append;
      FreeActor(d);
      AppendIs(events, d, End);
      LockForEnd(d, todo);
      FinishEnd();
    }

    // The lock of an actor is free once the handler that runs in it has returned.
    method FreeActor(d: Name)
      requires Valid() && owner.Ending? && d in members
      modifies this
      ensures Valid() && owner == old(owner) && running == old(running) && members.Keys == old(members.Keys)
      ensures events == old(events) && queue == old(queue) && d !in locks
      ensures Gone() == old(Gone())
    {
      hide Run;
      LocksOfRun(config, trace, State());
      if d in locks {
        var w := locks[d].id;
        assert workers[w].Busy?;
        var _ := FinishHandler(w);
        assert !workers[w].Exited?;
      }
    }

    // The actor is locked and its end() called.
    method LockForEnd(d: Name, todo: set<Name>)
      requires Valid() && owner == Ending(todo) && d in todo && d in members && d !in locks
      modifies `owner, `locks, `events, `trace
      ensures Valid() && trace == old(trace) + [Own(Call.LockForEnd(d))]
      ensures owner == InEnd(d, members[d], todo - {d}) && events == Append(old(events), d, End)
    {
      hide Run, Append;
      ghost var s := State();
      owner := InEnd(d, members[d], todo - {d});
      locks := locks[d := ByOwner];
      events := Append(events, d, End);
      LockStep(config, trace, s, d, State());
      trace := trace + [Own(Call.LockForEnd(d))];
    }

    // end() returns and the actor is unlocked.
    method FinishEnd()
      requires Valid() && owner.InEnd?
      modifies `owner, `locks, `members, `trace
      ensures Valid() && trace == old(trace) + [Own(Call.FinishEnd)]
      ensures owner == Ending(old(owner.todo)) && members.Keys == old(members.Keys)
      ensures members == old(members)[old(owner.name) := config.actors.end(old(owner.name), old(owner.local))]
    {
      hide Run;
      ghost var s := State();
      OwnerOfRun(config, trace, s);
      var d, state := owner.name, config.actors.end(owner.name, owner.local);
      UpdateKeys(members, d, state);
      members := members[d := state];
      locks := locks - {d};
      owner := Ending(owner.todo);
      UnlockStep(config, trace, s, State());
      trace := trace + [Own(Call.FinishEnd)];
    }

    // join(), worker after worker: while one has not exited, one of them can go on.
    method JoinAll()
      requires Valid() && owner == Ending({}) && !running && members.Keys == events.Keys
      modifies this
      ensures Valid() && owner == Ending({}) && Gone()
      ensures members.Keys == old(members.Keys) == events.Keys
      ensures forall d | d in members :: Ends(events[d]) == Ends(old(events[d]))
      ensures if old(Gone()) then queue == old(queue) else queue == []
    {
      hide Run, Ends, Effort, Outs, WorkStep;
      while !Gone()
        invariant Valid() && owner == Ending({}) && !running && members.Keys == old(members.Keys) == events.Keys
        invariant forall d | d in members :: Ends(events[d]) == Ends(old(events[d]))
        invariant old(Gone()) ==> Gone() && queue == old(queue)
        invariant !old(Gone()) && Gone() ==> queue == []
        decreases Effort(State()), Outs(workers)
      {
        var w := FindReady();
        ghost var s := State();
        WorkDescends(config, s, w);
        Turn(w);
        TurnEnds(config, trace[..|trace| - 1], s, w);
      }
    }

    // A worker that waits for no lock.
    method FindReady() returns (w: nat)
      requires Valid() && !owner.InEnd? && !Gone() && !running
      ensures CanWork(State(), w) && !Spins(State(), w)
    {
      ghost var step := Progress(config, trace, State());
      assert CanWork(State(), step.worker);
      hide Run, CanWork;
      w := 0;
      while !CanWork(State(), w)
        invariant forall v: nat | v < w :: !CanWork(State(), v)
        decreases step.worker - w
      {
        w := w + 1;
      }
      TurnKind(State(), w);
    }
  }

  // A handle whose channel has taken one more envelope.
  function With(a: Handle, env: Envelope): Handle {
    a.(wrapper := a.wrapper + [env], sent := a.sent + [env])
  }

  // The first `n` references have each got `env` once, and the other handles nothing.
  ghost predicate Notified(was: seq<Handle>, now: seq<Handle>, refs: seq<nat>, n: nat, env: Envelope)
    requires n <= |refs|
  {
    && |now| == |was|
    && forall h | 0 <= h < |was| :: now[h] == if h in refs[..n] then With(was[h], env) else was[h]
  }

  lemma NotifiedOneMore(was: seq<Handle>, now: seq<Handle>, refs: seq<nat>, n: nat, env: Envelope)
    requires n < |refs| && Notified(was, now, refs, n, env)
    requires forall i, j | 0 <= i < j < |refs| :: refs[i] < refs[j]
    requires forall k | 0 <= k < |refs| :: refs[k] < |now|
    ensures Notified(was, now[refs[n] := With(now[refs[n]], env)], refs, n + 1, env)
  {
    hide With;
    assert refs[..n + 1] == refs[..n] + [refs[n]];
    assert refs[n] !in refs[..n];
  }

  lemma AllNotified(was: seq<Handle>, now: seq<Handle>, refs: seq<nat>, env: Envelope)
    requires Notified(was, now, refs, |refs|, env)
    requires forall k | 0 <= k < |refs| :: refs[k] < |now|
    ensures forall k | 0 <= k < |refs| :: now[refs[k]].sent == was[refs[k]].sent + [env]
    ensures forall h | 0 <= h < |now| && h !in refs :: now[h] == was[h]
  {
    assert refs[..|refs|] == refs;
  }

  // Each actor outside `todo` has been called once more for end(), and the others have not.
  ghost predicate EndedOnce(before: map<Name, seq<Event>>, now: map<Name, seq<Event>>, todo: set<Name>) {
    && now.Keys == before.Keys
    && forall d | d in now :: Ends(now[d]) == Ends(before[d]) + if d in todo then 0 else 1
  }

  lemma OneLess(before: map<Name, seq<Event>>, now: map<Name, seq<Event>>, todo: set<Name>, d: Name)
    requires EndedOnce(before, now, todo) && d in todo && todo <= before.Keys
    ensures d in now && EndedOnce(before, now[d := now[d] + [End]], todo - {d})
  {
    EndsSnoc(now[d], End);
    hide Ends;
  }

  lemma UpdateKeys<V>(m: map<Name, V>, d: Name, v: V)
    requires d in m
    ensures m[d := v].Keys == m.Keys
  {
  }

  lemma AppendIs(log: map<Name, seq<Event>>, d: Name, e: Event)
    requires d in log
    ensures Append(log, d, e) == log[d := log[d] + [e]]
  {
  }

  // A worker calls no end(), and is the last to exit only on an empty queue.
  lemma TurnEnds<S>(c: Config<S>, trace: seq<Step>, s: Pool<S>, w: nat)
    requires Run(c, trace, s) && CanWork(s, w) && s.members.Keys == s.events.Keys && !AllExited(s)
    ensures var t := WorkStep(c, s, w);
            && t.owner == s.owner && t.running == s.running && t.members.Keys == s.members.Keys == t.events.Keys
            && (forall d | d in t.events :: Ends(t.events[d]) == Ends(s.events[d]))
            && (AllExited(t) ==> t.net.queue == [])
  {
    LocksOfRun(c, trace, s);
    hide Run, Ends, Locks;
    WorkEffect(c, s, w);
    hide WorkStep, CanWork, Neutral;
    var t := WorkStep(c, s, w);
    var pc := s.workers[w];
    if pc.Got? && pc.item.dest in s.members {
      EndsSnoc(s.events[pc.item.dest], Handled(pc.item));
    }
  }

  // The owner's step as a step of the run.
  lemma OwnStep<S>(c: Config<S>, trace: seq<Step>, s: Pool<S>, call: Call, t: Pool<S>)
    requires Run(c, trace, s) && CanCall(s, call) && t == CallStep(c, s, call)
    ensures Run(c, trace + [Own(call)], t)
  {
    hide Run, CallStep, CanCall;
    OneStep(c, trace, s, Own(call), t);
  }

  lemma SpawnIs<S>(c: Config<S>, s: Pool<S>)
    requires CanCall(s, Spawn)
    ensures CallStep(c, s, Spawn) == s.(workers := seq(c.size, _ => Check), owner := Idle)
  {
  }

  lemma WaitIs<S>(c: Config<S>, s: Pool<S>)
    ensures CanCall(s, BeginWait) ==> CallStep(c, s, BeginWait) == s.(owner := Ending(s.members.Keys))
    ensures CanCall(s, Join) ==> CallStep(c, s, Join) == s.(owner := Idle)
  {
  }

  lemma LockStep<S>(c: Config<S>, trace: seq<Step>, s: Pool<S>, d: Name, t: Pool<S>)
    requires Run(c, trace, s) && s.owner.Ending? && d in s.owner.todo && d in s.members && d !in s.locks
    requires t == s.(owner := InEnd(d, s.members[d], s.owner.todo - {d}), locks := s.locks[d := ByOwner],
                     events := Append(s.events, d, End))
    ensures Run(c, trace + [Own(LockForEnd(d))], t)
  {
    hide Run, Append;
    OwnStep(c, trace, s, LockForEnd(d), t);
  }

  lemma UnlockStep<S>(c: Config<S>, trace: seq<Step>, s: Pool<S>, t: Pool<S>)
    requires Run(c, trace, s) && s.owner.InEnd?
    requires t == s.(owner := Ending(s.owner.todo), locks := s.locks - {s.owner.name},
                     members := s.members[s.owner.name := c.actors.end(s.owner.name, s.owner.local)])
    ensures Run(c, trace + [Own(FinishEnd)], t)
  {
    hide Run;
    OwnStep(c, trace, s, FinishEnd, t);
  }

  lemma OwnerOfRun<S>(c: Config<S>, trace: seq<Step>, s: Pool<S>)
    requires Run(c, trace, s) && s.owner.InEnd?
    ensures s.owner.name in s.members
  {
    RunInv(c, trace, s);
  }

  lemma LocksOfRun<S>(c: Config<S>, trace: seq<Step>, s: Pool<S>)
    requires Run(c, trace, s)
    ensures Locks(s) && s.events.Keys == s.members.Keys
  {
    RunInv(c, trace, s);
  }

  lemma WorkersOfRun<S>(c: Config<S>, trace: seq<Step>, s: Pool<S>)
    requires Run(c, trace, s) && !s.started
    ensures s.workers == []
  {
    RunInv(c, trace, s);
  }

  // What a handler has still to send, sent.
  function SendAll(net: Net, out: seq<Send>): Net
    decreases |out|
  {
    if out == [] then net else SendAll(SendTo(net, out[0].handle, out[0].env), out[1..])
  }

  // Those sends that are addressed to handle `h`.
  function Addressed(out: seq<Send>, h: nat): seq<Envelope>
    decreases |out|
  {
    if out == [] then []
    else (if out[0].handle == h then [out[0].env] else []) + Addressed(out[1..], h)
  }

  lemma {:induction false} SendAllSent(net: Net, out: seq<Send>, h: nat)
    requires h < |net.handles|
    ensures |SendAll(net, out).handles| == |net.handles|
    ensures SendAll(net, out).handles[h].sent == net.handles[h].sent + Addressed(out, h)
    ensures SendAll(net, out).queue == net.queue
    decreases |out|
  {
    if out != [] {
      SendAllSent(SendTo(net, out[0].handle, out[0].env), out[1..], h);
    }
  }

  lemma {:induction false} SendAllKeeps(net: Net, out: seq<Send>)
    ensures |SendAll(net, out).handles| == |net.handles|
    ensures SendAll(net, out).queue == net.queue
    decreases |out|
  {
    if out != [] {
      SendAllKeeps(SendTo(net, out[0].handle, out[0].env), out[1..]);
    }
  }

  function OutOf<S>(pc: Worker<S>): seq<Send> {
    if pc.Busy? then pc.out else []
  }

  // Worker `w` has gone on with the handler that it was inside in `s`, or has come to its end.
  ghost predicate Handling<S>(c: Config<S>, s: Pool<S>, t: Pool<S>, w: nat) {
    && w < |s.workers| == |t.workers| && s.workers[w].Busy? && t.workers == s.workers[w := t.workers[w]]
    && SendAll(t.net, OutOf(t.workers[w])) == SendAll(s.net, OutOf(s.workers[w]))
    && t.settled == s.settled && t.events == s.events
    && t.members.Keys == s.members.Keys && t.owner == s.owner && t.running == s.running
    && var b, b' := s.workers[w], t.workers[w];
       if b'.Busy? then
         && b'.drain == b.drain && b'.item == b.item && b'.local == b.local
         && t.receiver == s.receiver && t.locks == s.locks && t.members == s.members
       else
         && b' == Resume(b.drain)
         && t.receiver == (if b.drain then None else s.receiver) && t.locks == s.locks - {b.item.dest}
         && t.members == s.members[b.item.dest := c.actors.process(b.item.dest, b.local, b.item.env).0]
  }

  lemma EmitHandles<S>(c: Config<S>, s: Pool<S>, w: nat)
    requires w < |s.workers| && s.workers[w].Busy? && s.workers[w].out != []
    ensures Handling(c, s, Emit(s, w), w)
    ensures Emit(s, w).workers[w].Busy? && |Emit(s, w).workers[w].out| < |s.workers[w].out|
  {
    hide SendTo;
  }

  lemma UnlockHandles<S>(c: Config<S>, s: Pool<S>, w: nat)
    requires Locks(s) && w < |s.workers| && s.workers[w].Busy? && s.workers[w].out == []
    ensures Handling(c, s, Unlock(c, s, w), w) && !Unlock(c, s, w).workers[w].Busy?
  {
    var b := s.workers[w];
    UpdateKeys(s.members, b.item.dest, c.actors.process(b.item.dest, b.local, b.item.env).0);
    hide Locks, SendAll;
  }

  lemma HandlingWorks<S>(c: Config<S>, s: Pool<S>, t: Pool<S>, w: nat)
    requires Handling(c, s, t, w)
    ensures w < |t.workers|
  {
  }

  lemma HandlingOn<S>(c: Config<S>, s: Pool<S>, t: Pool<S>, u: Pool<S>, w: nat)
    requires Handling(c, s, t, w) && Handling(c, t, u, w)
    ensures Handling(c, s, u, w)
  {
    hide SendAll;
  }

  lemma HandlerTurn<S>(c: Config<S>, s: Pool<S>, w: nat)
    requires Locks(s) && w < |s.workers| && s.workers[w].Busy?
    ensures var t := WorkStep(c, s, w);
            Handling(c, s, t, w) && (t.workers[w].Busy? ==> |t.workers[w].out| < |s.workers[w].out|)
  {
    hide Handling, Emit, Unlock;
    if s.workers[w].out != [] {
      EmitHandles(c, s, w);
      assert WorkStep(c, s, w) == Emit(s, w);
    } else {
      UnlockHandles(c, s, w);
      assert WorkStep(c, s, w) == Unlock(c, s, w);
    }
  }

  // The handler has come to its end.
  lemma HandlerEnds<S>(c: Config<S>, s: Pool<S>, t: Pool<S>, w: nat)
    requires Handling(c, s, t, w) && !t.workers[w].Busy?
    ensures var b := s.workers[w];
            && t.members == s.members[b.item.dest := c.actors.process(b.item.dest, b.local, b.item.env).0]
            && t.locks == s.locks - {b.item.dest} && |t.net.handles| == |s.net.handles|
            && t.net.queue == s.net.queue && t.settled == s.settled && t.workers[w] == Resume(b.drain)
            && t.receiver == (if b.drain then None else s.receiver)
            && forall h: nat | h < |s.net.handles| ::
                 t.net.handles[h].sent == s.net.handles[h].sent + Addressed(b.out, h)
  {
    var b := s.workers[w];
    assert SendAll(t.net, []) == t.net;
    SendAllKeeps(s.net, b.out);
    forall h: nat | h < |s.net.handles|
      ensures t.net.handles[h].sent == s.net.handles[h].sent + Addressed(b.out, h)
    {
      SendAllSent(s.net, b.out, h);
    }
  }

  lemma PollTurn<S>(c: Config<S>, s: Pool<S>, w: nat)
    requires w < |s.workers| && s.workers[w].DrainPoll? && s.receiver.None?
    ensures var t := WorkStep(c, s, w);
            && t.locks == s.locks && t.settled == s.settled && t.members == s.members
            && t.net.handles == s.net.handles
            && if s.net.queue == [] then
                 t.workers == s.workers[w := Exited] && t.net == s.net && t.receiver.None?
               else
                 && t.workers == s.workers[w := Got(s.net.queue[0], true)] && t.receiver == Some(w)
                 && t.net.queue == s.net.queue[1..]
  {
  }

  lemma DispatchTurn<S>(c: Config<S>, s: Pool<S>, w: nat)
    requires w < |s.workers| && s.workers[w].Got? && s.workers[w].drain && s.receiver == Some(w) && s.locks == map[]
    ensures var t, x := WorkStep(c, s, w), s.workers[w].item;
            && w < |t.workers| && t.net == s.net && t.settled == s.settled + [x] && t.members == s.members
            && if x.dest in s.members then
                 && t.workers[w]
                    == Busy(x, true, s.members[x.dest], c.actors.process(x.dest, s.members[x.dest], x.env).1)
                 && t.receiver == Some(w)
                 && t.locks == map[x.dest := ByWorker(w)]
               else t.workers[w] == DrainPoll && t.receiver.None? && t.locks == map[]
  {
    hide Append;
  }

  lemma OneRepeat(step: Step)
    ensures Repeat(step, 1) == [step]
  {
  }

  lemma RepeatMore(before: seq<Step>, step: Step, n: nat, m: nat)
    ensures (before + Repeat(step, n)) + Repeat(step, m) == before + Repeat(step, n + m)
    ensures m == 1 ==> Repeat(step, m) == [step]
  {
    assert Repeat(step, n) + Repeat(step, m) == Repeat(step, n + m);
  }

  lemma InSequence(before: seq<Step>, first: Step, again: Step, n: nat, last: Step)
    ensures ((before + [first]) + Repeat(again, n)) + [last] == before + ([first] + Repeat(again, n) + [last])
  {
  }

  lemma TurnKind<S>(s: Pool<S>, w: nat)
    requires CanWork(s, w)
    ensures w < |s.workers| && !s.workers[w].Exited?
    ensures s.workers[w].Poll? || s.workers[w].DrainPoll? ==> s.receiver.None?
  {
  }

  // One more step of the run that an object has made.
  lemma OneStep<S>(c: Config<S>, trace: seq<Step>, s: Pool<S>, step: Step, t: Pool<S>)
    requires Run(c, trace, s) && Enabled(s, step) && t == Apply(c, s, step)
    ensures Run(c, trace + [step], t)
  {
    hide Apply, Enabled;
    ExecSnoc(c, NewPool<S>(), trace, s, step);
  }

  lemma WorkIsStep<S>(c: Config<S>, trace: seq<Step>, s: Pool<S>, w: nat)
    requires Run(c, trace, s) && CanWork(s, w)
    ensures Run(c, trace + [Work(w)], WorkStep(c, s, w))
  {
    hide Run, WorkStep, CanWork;
    OneStep(c, trace, s, Work(w), WorkStep(c, s, w));
  }
}

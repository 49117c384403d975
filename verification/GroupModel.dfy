// The thread pool of src/group.rs as a machine whose steps are the atomic actions of its threads.
//
// The threads are the owner of the Group (add, get_ref, start, shutdown, wait), any number of
// clients, one forwarder for every handle, and `size` workers.  A run is any sequence of enabled
// steps, so a theorem about all runs is a theorem about all interleavings.
module GroupModel {
  import opened Vocabulary

  // A GroupEnvelope.  `no` (its place in the order of entry to the shared queue) and `handle` are
  // history: no step reads them.
  datatype Item = Item(no: nat, handle: nat, dest: Name, env: Envelope)

  // What one call of create_group_actor_ref makes: the wrapper channel, and the envelope that its
  // forwarder has received and not yet pushed.  `sent` is history.
  datatype Handle = Handle(dest: Name, wrapper: seq<Envelope>, hand: Option<Envelope>, sent: seq<Envelope>)

  // A send that a handler makes; a handle that the pool does not have leads out of the pool.
  datatype Send = Send(handle: nat, env: Envelope)

  // The calls that a member's actor receives.  init() comes first and tells which call of add() the
  // actor was given to.
  datatype Event = Init(actor: nat) | Handled(item: Item) | End

  // The user's actors, as functions of their state; `create` gives the one of the k-th call of add().
  datatype Behaviour<!S> = Behaviour(
    create: nat -> S,
    init: (Name, S) -> S,
    process: (Name, S, Envelope) -> (S, seq<Send>),
    end: (Name, S) -> S)

  // Where a worker is in worker_loop.  `drain` tells the loop of line 228, whose receiver guard
  // lives through the dispatch, from the one of line 235, whose guard is gone before it.
  datatype Worker<S> =
    | Check
    | Poll
    | DrainPoll
    | Got(item: Item, drain: bool)
    | Busy(item: Item, drain: bool, local: S, out: seq<Send>)
    | Exited

  // Where the owner is in start, shutdown or wait.
  datatype Owner<S> =
    | Idle
    | Starting(next: nat)
    | Notifying(next: nat)
    | Ending(todo: set<Name>)
    | InEnd(name: Name, local: S, todo: set<Name>)

  datatype Holder = ByWorker(id: nat) | ByOwner

  // The wrapper channels, their forwarders and the shared queue.
  datatype Net = Net(
    handles: seq<Handle>,
    queue: seq<Item>,
    // history: what entered the queue and what has left it
    pushed: seq<Item>,
    pulled: seq<Item>)

  datatype Pool<S> = Pool(
    net: Net,
    refs: seq<nat>,
    builder: map<Name, nat>,
    members: map<Name, S>,
    locks: map<Name, Holder>,
    receiver: Option<nat>,
    running: bool,
    started: bool,
    workers: seq<Worker<S>>,
    owner: Owner<S>,
    // history: the items in the order of their dispatch, those of them that were pulled by a
    // draining worker, and the calls that each member has received
    settled: seq<Item>,
    drained: seq<Item>,
    events: map<Name, seq<Event>>)

  datatype Config<!S> = Config(size: nat, actors: Behaviour<S>)

  // What clients and forwarders do.
  datatype Traffic =
    | ClientSend(handle: nat, env: Envelope)
    | Take(handle: nat)
    | Push(handle: nat)

  // What the owner of the Group does.
  datatype Call =
    | Add(dest: Name)
    | GetRef(dest: Name)
    | BeginStart
    | SendStart
    | Spawn
    | BeginShutdown
    | SendShutdown
    | ClearRunning
    | BeginWait
    | LockForEnd(dest: Name)
    | FinishEnd
    | Join

  datatype Step = Move(traffic: Traffic) | Own(call: Call) | Work(worker: nat)

  function NewPool<S>(): Pool<S> {
    Pool(Net([], [], [], []), [], map[], map[], map[], None, true, false, [], Idle, [], [], map[])
  }

  predicate AllExited<S>(s: Pool<S>) {
    forall w :: 0 <= w < |s.workers| ==> s.workers[w].Exited?
  }

  // ----- when a step can be taken

  predicate CanMove(net: Net, t: Traffic) {
    && t.handle < |net.handles|
    && (t.Take? ==> net.handles[t.handle].hand.None? && net.handles[t.handle].wrapper != [])
    && (t.Push? ==> net.handles[t.handle].hand.Some?)
  }

  predicate CanCall<S>(s: Pool<S>, call: Call) {
    match call
    case Add(_) => s.owner.Idle?
    case GetRef(d) => s.owner.Idle? && (d in s.builder || d in s.members)
    case BeginStart => s.owner.Idle? && !s.started
    case SendStart => s.owner.Starting? && s.owner.next < |s.refs|
    case Spawn => s.owner.Starting? && s.owner.next == |s.refs|
    case BeginShutdown => s.owner.Idle?
    case SendShutdown => s.owner.Notifying? && s.owner.next < |s.refs|
    case ClearRunning => s.owner.Notifying? && s.owner.next == |s.refs|
    case BeginWait => s.owner.Idle?
    case LockForEnd(d) => s.owner.Ending? && d in s.owner.todo && d in s.members && d !in s.locks
    case FinishEnd => s.owner.InEnd?
    case Join => s.owner.Ending? && s.owner.todo == {} && AllExited(s)
  }

  predicate CanWork<S>(s: Pool<S>, w: nat) {
    && w < |s.workers|
    && match s.workers[w]
       case Check => true
       case Poll => s.receiver.None?
       case DrainPoll => s.receiver.None?
       case Got(item, _) => item.dest !in s.members || item.dest !in s.locks
       case Busy(_, _, _, _) => true
       case Exited => false
  }

  predicate Enabled<S>(s: Pool<S>, step: Step) {
    match step
    case Move(t) => CanMove(s.net, t)
    case Own(call) => CanCall(s, call)
    case Work(w) => CanWork(s, w)
  }

  // ----- the channels

  function NewHandle(net: Net, d: Name): Net {
    net.(handles := net.handles + [Handle(d, [], None, [])])
  }

  // Sender::send on the wrapper channel of handle `h`.
  function SendTo(net: Net, h: nat, env: Envelope): Net {
    if h < |net.handles| then
      var a := net.handles[h];
      net.(handles := net.handles[h := a.(wrapper := a.wrapper + [env], sent := a.sent + [env])])
    else net
  }

  function MoveStep(net: Net, t: Traffic): Net
    requires CanMove(net, t)
  {
    var a := net.handles[t.handle];
    match t
    case ClientSend(h, env) => SendTo(net, h, env)
    case Take(h) =>
      net.(handles := net.handles[h := a.(wrapper := a.wrapper[1..], hand := Some(a.wrapper[0]))])
    case Push(h) =>
      var item := Item(|net.pushed|, h, a.dest, a.hand.value);
      net.(handles := net.handles[h := a.(hand := None)],
           queue := net.queue + [item], pushed := net.pushed + [item])
  }

  function Pull(net: Net): Net
    requires net.queue != []
  {
    net.(queue := net.queue[1..], pulled := net.pulled + [net.queue[0]])
  }

  // ----- the workers

  function Append(log: map<Name, seq<Event>>, d: Name, e: Event): map<Name, seq<Event>> {
    log[d := (if d in log then log[d] else []) + [e]]
  }

  function Goto<S>(s: Pool<S>, w: nat, pc: Worker<S>): Pool<S>
    requires w < |s.workers|
  {
    s.(workers := s.workers[w := pc])
  }

  // try_recv on a queue that is not empty.
  function Receive<S>(s: Pool<S>, w: nat, drain: bool): Pool<S>
    requires w < |s.workers| && s.net.queue != []
  {
    s.(net := Pull(s.net),
       workers := s.workers[w := Got(s.net.queue[0], drain)],
       receiver := if drain then Some(w) else s.receiver)
  }

  // Where dispatch_to_actor returns to.
  function Resume<S>(drain: bool): Worker<S> {
    if drain then DrainPoll else Check
  }

  // dispatch_to_actor without an actor: the envelope is dropped.  A draining worker also gives up
  // its receiver guard here.
  function Drop<S>(s: Pool<S>, w: nat, item: Item, drain: bool): Pool<S>
    requires w < |s.workers|
  {
    s.(workers := s.workers[w := Resume(drain)],
       receiver := if drain then None else s.receiver,
       settled := s.settled + [item],
       drained := if drain then s.drained + [item] else s.drained)
  }

  // dispatch_to_actor with an actor: lock it and call its handler on the state found there.
  function Lock<S>(c: Config<S>, s: Pool<S>, w: nat, item: Item, drain: bool): Pool<S>
    requires w < |s.workers| && item.dest in s.members
  {
    var local := s.members[item.dest];
    var out := c.actors.process(item.dest, local, item.env).1;
    s.(workers := s.workers[w := Busy(item, drain, local, out)],
       locks := s.locks[item.dest := ByWorker(w)],
       events := Append(s.events, item.dest, Handled(item)),
       settled := s.settled + [item],
       drained := if drain then s.drained + [item] else s.drained)
  }

  // The handler makes its next send.
  function Emit<S>(s: Pool<S>, w: nat): Pool<S>
    requires w < |s.workers| && s.workers[w].Busy? && s.workers[w].out != []
  {
    var b := s.workers[w];
    s.(net := SendTo(s.net, b.out[0].handle, b.out[0].env),
       workers := s.workers[w := b.(out := b.out[1..])])
  }

  // The handler returns: its new state is stored and the actor unlocked.
  function Unlock<S>(c: Config<S>, s: Pool<S>, w: nat): Pool<S>
    requires w < |s.workers| && s.workers[w].Busy?
  {
    var b := s.workers[w];
    s.(workers := s.workers[w := Resume(b.drain)],
       receiver := if b.drain then None else s.receiver,
       members := s.members[b.item.dest := c.actors.process(b.item.dest, b.local, b.item.env).0],
       locks := s.locks - {b.item.dest})
  }

  function WorkStep<S>(c: Config<S>, s: Pool<S>, w: nat): Pool<S>
    requires CanWork(s, w)
  {
    match s.workers[w]
    case Check => Goto(s, w, if s.running then Poll else DrainPoll)
    case Poll => if s.net.queue == [] then Goto(s, w, Check) else Receive(s, w, false)
    case DrainPoll => if s.net.queue == [] then Goto(s, w, Exited) else Receive(s, w, true)
    case Got(item, drain) =>
      if item.dest in s.members then Lock(c, s, w, item, drain) else Drop(s, w, item, drain)
    case Busy(_, _, _, out) => if out != [] then Emit(s, w) else Unlock(c, s, w)
  }

  // ----- the owner

  function Notify(net: Net, refs: seq<nat>, k: nat, msg: Message): Net
    requires k < |refs|
  {
    SendTo(net, refs[k], Envelope(msg, None, None))
  }

  // The actors of start(), after init().
  function Initialised<S>(c: Config<S>, builder: map<Name, nat>): map<Name, S> {
    map d | d in builder :: c.actors.init(d, c.actors.create(builder[d]))
  }

  function FirstCalls(builder: map<Name, nat>): map<Name, seq<Event>> {
    map d | d in builder :: [Init(builder[d])]
  }

  function Launch<S>(c: Config<S>, s: Pool<S>): Pool<S> {
    s.(started := true, owner := Starting(0), builder := map[],
       members := Initialised(c, s.builder), events := FirstCalls(s.builder))
  }

  function CallStep<S>(c: Config<S>, s: Pool<S>, call: Call): Pool<S>
    requires CanCall(s, call)
  {
    match call
    case Add(d) =>
      s.(net := NewHandle(s.net, d), refs := s.refs + [|s.net.handles|], builder := s.builder[d := |s.refs|])
    case GetRef(d) => s.(net := NewHandle(s.net, d))
    case BeginStart => Launch(c, s)
    case SendStart =>
      s.(net := Notify(s.net, s.refs, s.owner.next, Start), owner := Starting(s.owner.next + 1))
    case Spawn => s.(workers := seq(c.size, _ => Check), owner := Idle)
    case BeginShutdown => s.(owner := Notifying(0))
    case SendShutdown =>
      s.(net := Notify(s.net, s.refs, s.owner.next, Shutdown), owner := Notifying(s.owner.next + 1))
    case ClearRunning => s.(running := false, owner := Idle)
    case BeginWait => s.(owner := Ending(s.members.Keys))
    case LockForEnd(d) =>
      s.(owner := InEnd(d, s.members[d], s.owner.todo - {d}), locks := s.locks[d := ByOwner],
         events := Append(s.events, d, End))
    case FinishEnd =>
      s.(owner := Ending(s.owner.todo), locks := s.locks - {s.owner.name},
         members := s.members[s.owner.name := c.actors.end(s.owner.name, s.owner.local)])
    case Join => s.(owner := Idle)
  }

  // ----- runs

  function Apply<S>(c: Config<S>, s: Pool<S>, step: Step): Pool<S>
    requires Enabled(s, step)
  {
    match step
    case Move(t) => s.(net := MoveStep(s.net, t))
    case Own(call) => CallStep(c, s, call)
    case Work(w) => WorkStep(c, s, w)
  }

  // The state after `steps`, or None when one of them is not enabled in its turn.
  function Exec<S>(c: Config<S>, s: Pool<S>, steps: seq<Step>): Option<Pool<S>>
    decreases |steps|
  {
    if steps == [] then Some(s)
    else if !Enabled(s, steps[0]) then None
    else Exec(c, Apply(c, s, steps[0]), steps[1..])
  }

  lemma {:induction false} ExecSnoc<S>(c: Config<S>, s: Pool<S>, steps: seq<Step>, t: Pool<S>, step: Step)
    requires Exec(c, s, steps) == Some(t) && Enabled(t, step)
    ensures Exec(c, s, steps + [step]) == Some(Apply(c, t, step))
    decreases |steps|
  {
    hide Apply, Enabled;
    if steps == [] {
      assert Exec(c, Apply(c, t, step), []) == Some(Apply(c, t, step));
    } else {
      assert (steps + [step])[1..] == steps[1..] + [step];
      ExecSnoc(c, Apply(c, s, steps[0]), steps[1..], t, step);
    }
  }

  lemma {:induction false} ExecCat<S>(c: Config<S>, s: Pool<S>, a: seq<Step>, t: Pool<S>, b: seq<Step>)
    requires Exec(c, s, a) == Some(t)
    ensures Exec(c, s, a + b) == Exec(c, t, b)
    decreases |a|
  {
    hide Apply, Enabled;
    if a == [] {
      assert a + b == b;
    } else {
      assert (a + b)[1..] == a[1..] + b;
      ExecCat(c, Apply(c, s, a[0]), a[1..], t, b);
    }
  }

  function Repeat(step: Step, n: nat): seq<Step> {
    seq(n, _ => step)
  }
}

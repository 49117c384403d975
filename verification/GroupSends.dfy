// Who sends what to a thread pool.
module GroupSends {
  import opened Vocabulary
  import opened GroupModel
  import opened GroupInvariants
  import opened GroupTheorems

  datatype Origin = Client | OfOwner | Actor(name: Name)

  // A send through handle `handle`; `there` tells whether the pool has that handle.
  datatype Sent = Sent(origin: Origin, handle: nat, env: Envelope, there: bool)

  // The send that a step makes: a client's, the owner's to the next reference in start() or shutdown(), or
  // the next one of the handler that a worker is inside.
  function SendOf<S>(s: Pool<S>, step: Step): seq<Sent> {
    match step
    case Move(ClientSend(h, env)) => [Sent(Client, h, env, h < |s.net.handles|)]
    case Own(SendStart) =>
      if s.owner.Starting? && s.owner.next < |s.refs| then
        [Notice(s, s.owner.next, Start)]
      else []
    case Own(SendShutdown) =>
      if s.owner.Notifying? && s.owner.next < |s.refs| then
        [Notice(s, s.owner.next, Shutdown)]
      else []
    case Work(w) =>
      if w < |s.workers| && s.workers[w].Busy? && s.workers[w].out != [] then
        var x := s.workers[w].out[0];
        [Sent(Actor(s.workers[w].item.dest), x.handle, x.env, x.handle < |s.net.handles|)]
      else []
    case _ => []
  }

  function Notice<S>(s: Pool<S>, k: nat, msg: Message): Sent
    requires k < |s.refs|
  {
    Sent(OfOwner, s.refs[k], Envelope(msg, None, None), s.refs[k] < |s.net.handles|)
  }

  // All sends of a run, in order.
  function SendsOf<S>(c: Config<S>, s: Pool<S>, steps: seq<Step>): seq<Sent>
    decreases |steps|
  {
    if steps == [] || !Enabled(s, steps[0]) then []
    else SendOf(s, steps[0]) + SendsOf(c, Apply(c, s, steps[0]), steps[1..])
  }

  // Those that went through handle `h`.
  function To(log: seq<Sent>, h: nat): seq<Envelope> {
    if log == [] then []
    else
      To(log[..|log| - 1], h)
      + if log[|log| - 1].handle == h && log[|log| - 1].there then [log[|log| - 1].env] else []
  }

  // Those that origin `o` made.
  function By(log: seq<Sent>, o: Origin): seq<Send> {
    if log == [] then []
    else
      By(log[..|log| - 1], o)
      + if log[|log| - 1].origin == o then [Send(log[|log| - 1].handle, log[|log| - 1].env)] else []
  }

  // The sends that the calls of a log make, when they are replayed one after the other on an actor of its
  // own.
  function Replies<S>(c: Config<S>, d: Name, log: seq<Event>): seq<Send> {
    if log == [] then []
    else
      var n := |log| - 1;
      Replies(c, d, log[..n])
      + if log[n].Handled? then c.actors.process(d, Replay(c, d, log[..n]), log[n].item.env).1 else []
  }

  // What the handler that is inside `d` has still to send.
  function Unsent<S>(s: Pool<S>, d: Name): seq<Send> {
    if d in s.locks && s.locks[d].ByWorker? && s.locks[d].id < |s.workers| && s.workers[s.locks[d].id].Busy? then
      s.workers[s.locks[d].id].out
    else []
  }

  lemma ToCat(a: seq<Sent>, x: Sent, h: nat)
    ensures To(a + [x], h) == To(a, h) + if x.handle == h && x.there then [x.env] else []
  {
    assert (a + [x])[..|a|] == a;
  }

  lemma ByCat(a: seq<Sent>, x: Sent, o: Origin)
    ensures By(a + [x], o) == By(a, o) + if x.origin == o then [Send(x.handle, x.env)] else []
  {
    assert (a + [x])[..|a|] == a;
  }

  lemma RepliesSnoc<S>(c: Config<S>, d: Name, log: seq<Event>, e: Event)
    ensures Replies(c, d, log + [e])
            == Replies(c, d, log) + if e.Handled? then c.actors.process(d, Replay(c, d, log), e.item.env).1 else []
  {
    assert (log + [e])[..|log|] == log;
  }

  // ----- what `sent` of a handle is

  // The channels hold what was sent through them.
  ghost predicate Recorded(net: Net, log: seq<Sent>) {
    && (forall h: nat | h < |net.handles| :: net.handles[h].sent == To(log, h))
    && (forall k | 0 <= k < |log| && log[k].there :: log[k].handle < |net.handles|)
  }

  lemma SendKeepsThrough(net: Net, log: seq<Sent>, origin: Origin, h: nat, env: Envelope)
    requires Recorded(net, log)
    ensures Recorded(SendTo(net, h, env), log + [Sent(origin, h, env, h < |net.handles|)])
  {
    var x := Sent(origin, h, env, h < |net.handles|);
    forall k: nat | k < |net.handles| ensures SendTo(net, h, env).handles[k].sent == To(log + [x], k) {
      ToCat(log, x, k);
    }
  }

  // Nothing was sent through a handle that is yet to come.
  lemma {:induction false} NothingTo(log: seq<Sent>, h: nat)
    requires forall k | 0 <= k < |log| && log[k].there :: log[k].handle < h
    ensures To(log, h) == []
  {
    if log != [] {
      NothingTo(log[..|log| - 1], h);
    }
  }

  lemma NewHandleKeepsThrough(net: Net, log: seq<Sent>, d: Name)
    requires Recorded(net, log)
    ensures Recorded(NewHandle(net, d), log)
  {
    NothingTo(log, |net.handles|);
    hide To;
  }

  lemma SameSent(net: Net, net': Net, log: seq<Sent>)
    requires Recorded(net, log) && |net'.handles| == |net.handles|
    requires forall h: nat | h < |net.handles| :: net'.handles[h].sent == net.handles[h].sent
    ensures Recorded(net', log)
  {
  }

  lemma MoveKeepsThrough<S>(s: Pool<S>, t: Traffic, log: seq<Sent>)
    requires Recorded(s.net, log) && CanMove(s.net, t)
    ensures Recorded(MoveStep(s.net, t), log + SendOf(s, Move(t)))
  {
    if t.ClientSend? {
      hide Recorded;
      SendKeepsThrough(s.net, log, Client, t.handle, t.env);
    } else {
      var net' := MoveStep(s.net, t);
      assert log + [] == log;
      assert forall h: nat | h < |s.net.handles| :: net'.handles[h].sent == s.net.handles[h].sent;
      hide Recorded;
      SameSent(s.net, net', log);
    }
  }

  lemma CallKeepsThrough<S>(c: Config<S>, s: Pool<S>, call: Call, log: seq<Sent>)
    requires Recorded(s.net, log) && CanCall(s, call)
    ensures Recorded(CallStep(c, s, call).net, log + SendOf(s, Own(call)))
  {
    hide Recorded, Append, Launch, NewHandle, SendTo;
    assert log + [] == log;
    match call
    case Add(d) => NewHandleKeepsThrough(s.net, log, d);
    case GetRef(d) => NewHandleKeepsThrough(s.net, log, d);
    case SendStart => SendKeepsThrough(s.net, log, OfOwner, s.refs[s.owner.next], Envelope(Start, None, None));
    case SendShutdown => SendKeepsThrough(s.net, log, OfOwner, s.refs[s.owner.next], Envelope(Shutdown, None, None));
    case BeginStart => LaunchKeepsNet(c, s);
    case _ =>
  }

  lemma LaunchKeepsNet<S>(c: Config<S>, s: Pool<S>)
    ensures Launch(c, s).net == s.net
  {
  }

  lemma WorkKeepsThrough<S>(c: Config<S>, s: Pool<S>, w: nat, log: seq<Sent>)
    requires Locks(s) && Recorded(s.net, log) && CanWork(s, w)
    ensures Recorded(WorkStep(c, s, w).net, log + SendOf(s, Work(w)))
  {
    WorkEffect(c, s, w);
    hide WorkStep, CanWork, Recorded, Locks, Neutral, SendTo;
    var pc, t := s.workers[w], WorkStep(c, s, w);
    assert log + [] == log;
    if pc.Busy? && pc.out != [] {
      SendKeepsThrough(s.net, log, Actor(pc.item.dest), pc.out[0].handle, pc.out[0].env);
    } else if t.workers[w].Got? {
      SameSent(s.net, t.net, log) by { assert t.net.handles == s.net.handles; }
    }
  }

  // ----- what the handlers send

  // Each actor has sent what its calls, replayed one after the other, make it send, but for what the
  // handler inside it has still to send.
  ghost predicate MadeBy<S>(c: Config<S>, s: Pool<S>, log: seq<Sent>, d: Name) {
    d in s.events && By(log, Actor(d)) + Unsent(s, d) == Replies(c, d, s.events[d])
  }

  ghost predicate Made<S>(c: Config<S>, s: Pool<S>, log: seq<Sent>) {
    && (forall d | d in s.members :: MadeBy(c, s, log, d))
    && (forall k | 0 <= k < |log| && log[k].origin.Actor? :: log[k].origin.name in s.members)
  }

  // A send of somebody else, or none at all.
  lemma OthersSend(log: seq<Sent>, more: seq<Sent>, d: Name)
    requires |more| <= 1 && forall k | 0 <= k < |more| :: more[k].origin != Actor(d)
    ensures By(log + more, Actor(d)) == By(log, Actor(d))
  {
    if more == [] {
      assert log + more == log;
    } else {
      ByCat(log, more[0], Actor(d));
      assert more == [more[0]];
    }
  }

  lemma {:induction false} NothingBy(log: seq<Sent>, d: Name)
    requires forall k | 0 <= k < |log| :: log[k].origin != Actor(d)
    ensures By(log, Actor(d)) == []
  {
    if log != [] {
      NothingBy(log[..|log| - 1], d);
    }
  }

  // Handlers, logs and locks stay, or only end() is called.
  lemma QuietKeepsMade<S>(c: Config<S>, s: Pool<S>, t: Pool<S>, log: seq<Sent>, more: seq<Sent>)
    requires Made(c, s, log) && t.members.Keys == s.members.Keys
    requires |more| <= 1 && forall k | 0 <= k < |more| :: !more[k].origin.Actor?
    requires forall d | d in s.members && d in s.events ::
               && Unsent(t, d) == Unsent(s, d)
               && d in t.events && (t.events[d] == s.events[d] || t.events[d] == s.events[d] + [End])
    ensures Made(c, t, log + more)
  {
    hide Unsent, Replies, By;
    forall d | d in t.members ensures MadeBy(c, t, log + more, d) {
      assert MadeBy(c, s, log, d);
      OthersSend(log, more, d);
      RepliesSnoc(c, d, s.events[d], End);
      assert Replies(c, d, s.events[d]) + [] == Replies(c, d, s.events[d]);
    }
  }

  lemma MoveKeepsMade<S>(c: Config<S>, s: Pool<S>, t: Traffic, log: seq<Sent>)
    requires Made(c, s, log) && CanMove(s.net, t)
    ensures Made(c, s.(net := MoveStep(s.net, t)), log + SendOf(s, Move(t)))
  {
    hide Made, MoveStep;
    QuietMove(c, s, s.(net := MoveStep(s.net, t)), log, SendOf(s, Move(t)));
  }

  lemma QuietMove<S>(c: Config<S>, s: Pool<S>, t: Pool<S>, log: seq<Sent>, more: seq<Sent>)
    requires Made(c, s, log) && t == s.(net := t.net)
    requires |more| <= 1 && forall k | 0 <= k < |more| :: !more[k].origin.Actor?
    ensures Made(c, t, log + more)
  {
    forall d | d in s.members ensures d in s.events {
      assert MadeBy(c, s, log, d);
    }
    QuietKeepsMade(c, s, t, log, more);
  }

  lemma StartKeepsMade<S>(c: Config<S>, s: Pool<S>, log: seq<Sent>)
    requires Shape(c, s) && Locks(s) && Made(c, s, log) && CanCall(s, BeginStart)
    ensures Made(c, Launch(c, s), log + [])
  {
    assert log + [] == log;
    var t := Launch(c, s);
    forall d | d in t.members ensures MadeBy(c, t, log, d) {
      NothingBy(log, d);
      RepliesSnoc(c, d, [], Init(s.builder[d]));
      assert t.events[d] == [] + [Init(s.builder[d])];
    }
  }

  lemma CallKeepsMade<S>(c: Config<S>, s: Pool<S>, call: Call, log: seq<Sent>)
    requires Shape(c, s) && Locks(s) && Made(c, s, log) && CanCall(s, call)
    ensures Made(c, CallStep(c, s, call), log + SendOf(s, Own(call)))
  {
    if call.BeginStart? {
      hide Made, Launch, Shape, Locks;
      StartKeepsMade(c, s, log);
    } else {
      CallIsQuiet(c, s, call);
      hide CallStep, CanCall, Shape, Locks, Unsent, MadeBy;
      QuietKeepsMade(c, s, CallStep(c, s, call), log, SendOf(s, Own(call)));
    }
  }

  lemma CallIsQuiet<S>(c: Config<S>, s: Pool<S>, call: Call)
    requires Shape(c, s) && Locks(s) && CanCall(s, call) && !call.BeginStart?
    ensures var t := CallStep(c, s, call);
            && t.members.Keys == s.members.Keys
            && forall d | d in s.members && d in s.events ::
                 && Unsent(t, d) == Unsent(s, d)
                 && d in t.events && (t.events[d] == s.events[d] || t.events[d] == s.events[d] + [End])
  {
    hide Notify, NewHandle, Launch;
  }

  // An actor is locked and its handler called, on the state that its replayed log gives.
  lemma LockUnsent<S>(c: Config<S>, s: Pool<S>, w: nat, d: Name)
    requires Locks(s) && CanWork(s, w) && Locking(s, w) && d in s.members && d in s.events
    ensures var x := s.workers[w].item;
            var t := Lock(c, s, w, x, s.workers[w].drain);
            && t.members == s.members && d in t.events
            && if d == x.dest then
                 && d !in s.locks && Unsent(s, d) == [] && t.events[d] == s.events[d] + [Handled(x)]
                 && Unsent(t, d) == c.actors.process(d, s.members[d], x.env).1
               else Unsent(t, d) == Unsent(s, d) && t.events[d] == s.events[d]
  {
  }

  lemma SameMade<S>(c: Config<S>, s: Pool<S>, t: Pool<S>, log: seq<Sent>, log': seq<Sent>, d: Name)
    requires MadeBy(c, s, log, d) && d in t.events && t.events[d] == s.events[d] && Unsent(t, d) == Unsent(s, d)
    requires By(log', Actor(d)) == By(log, Actor(d))
    ensures MadeBy(c, t, log', d)
  {
  }

  lemma LockKeepsMade<S>(c: Config<S>, s: Pool<S>, w: nat, log: seq<Sent>)
    requires Locks(s) && Serial(c, s) && Made(c, s, log) && CanWork(s, w) && Locking(s, w)
    ensures Made(c, Lock(c, s, w, s.workers[w].item, s.workers[w].drain), log + [])
  {
    hide Lock, Unsent, By, Replies, Locks;
    assert log + [] == log;
    var item := s.workers[w].item;
    var t := Lock(c, s, w, item, s.workers[w].drain);
    LockUnsent(c, s, w, item.dest) by { assert MadeBy(c, s, log, item.dest); }
    forall d | d in t.members ensures MadeBy(c, t, log, d) {
      assert MadeBy(c, s, log, d);
      LockUnsent(c, s, w, d);
      if d == item.dest {
        assert SerialAt(c, s, d);
        LockMakes(c, s, t, d, item, log);
      } else {
        SameMade(c, s, t, log, log, d);
      }
    }
  }

  lemma LockMakes<S>(c: Config<S>, s: Pool<S>, t: Pool<S>, d: Name, item: Item, log: seq<Sent>)
    requires MadeBy(c, s, log, d) && d in s.events && d in t.events && Unsent(s, d) == []
    requires t.events[d] == s.events[d] + [Handled(item)]
    requires Unsent(t, d) == c.actors.process(d, Replay(c, d, s.events[d]), item.env).1
    ensures MadeBy(c, t, log, d)
  {
    hide Unsent;
    RepliesSnoc(c, d, s.events[d], Handled(item));
    assert By(log, Actor(d)) + [] == By(log, Actor(d));
    hide Replies, By;
  }

  // The handler inside an actor makes its next send.
  lemma EmitUnsent<S>(s: Pool<S>, w: nat, d: Name)
    requires Locks(s) && w < |s.workers| && s.workers[w].Busy? && s.workers[w].out != [] && d in s.members
    ensures var b, t := s.workers[w], Emit(s, w);
            && t.members == s.members && t.events == s.events && b.item.dest in s.members
            && if d == b.item.dest then Unsent(s, d) == b.out && Unsent(t, d) == b.out[1..]
               else Unsent(t, d) == Unsent(s, d)
  {
    hide SendTo;
  }

  lemma EmitMakes<S>(c: Config<S>, s: Pool<S>, t: Pool<S>, log: seq<Sent>, x: Sent, d: Name)
    requires MadeBy(c, s, log, d) && t.events == s.events && x.origin == Actor(d)
    requires Unsent(s, d) != [] && Send(x.handle, x.env) == Unsent(s, d)[0] && Unsent(t, d) == Unsent(s, d)[1..]
    ensures MadeBy(c, t, log + [x], d)
  {
    hide Unsent, By, Replies;
    ByCat(log, x, Actor(d));
    EmitMoves(By(log, Actor(d)), Unsent(s, d));
  }

  lemma EmitMadeBy<S>(c: Config<S>, s: Pool<S>, w: nat, log: seq<Sent>, x: Sent, d: Name)
    requires Locks(s) && w < |s.workers| && s.workers[w].Busy? && s.workers[w].out != [] && d in s.members
    requires MadeBy(c, s, log, d) && x.origin == Actor(s.workers[w].item.dest)
    requires Send(x.handle, x.env) == s.workers[w].out[0]
    ensures MadeBy(c, Emit(s, w), log + [x], d)
  {
    EmitUnsent(s, w, d);
    hide Emit, Unsent, By, Replies, Locks, MadeBy;
    if x.origin == Actor(d) {
      EmitMakes(c, s, Emit(s, w), log, x, d);
    } else {
      EventsThere(c, s, log, d);
      OthersSend(log, [x], d);
      SameMade(c, s, Emit(s, w), log, log + [x], d);
    }
  }

  lemma EventsThere<S>(c: Config<S>, s: Pool<S>, log: seq<Sent>, d: Name)
    requires MadeBy(c, s, log, d)
    ensures d in s.events
  {
  }

  // The send that a busy worker makes next.
  function NextSend<S>(s: Pool<S>, w: nat): Sent
    requires w < |s.workers| && s.workers[w].Busy? && s.workers[w].out != []
  {
    var b := s.workers[w];
    Sent(Actor(b.item.dest), b.out[0].handle, b.out[0].env, b.out[0].handle < |s.net.handles|)
  }

  lemma SendIsNext<S>(s: Pool<S>, w: nat)
    requires w < |s.workers| && s.workers[w].Busy? && s.workers[w].out != []
    ensures SendOf(s, Work(w)) == [NextSend(s, w)] && Emit(s, w).members == s.members
  {
    hide SendTo;
  }

  lemma EmitAllMade<S>(c: Config<S>, s: Pool<S>, w: nat, log: seq<Sent>)
    requires Locks(s) && Made(c, s, log) && w < |s.workers| && s.workers[w].Busy? && s.workers[w].out != []
    ensures forall d | d in s.members :: MadeBy(c, Emit(s, w), log + [NextSend(s, w)], d)
  {
    hide Emit, Unsent, MadeBy, Locks;
    forall d | d in s.members ensures MadeBy(c, Emit(s, w), log + [NextSend(s, w)], d) {
      EmitMadeBy(c, s, w, log, NextSend(s, w), d);
    }
  }

  lemma EmitKeepsMade<S>(c: Config<S>, s: Pool<S>, w: nat, log: seq<Sent>)
    requires Locks(s) && Made(c, s, log) && w < |s.workers| && s.workers[w].Busy? && s.workers[w].out != []
    ensures Made(c, Emit(s, w), log + SendOf(s, Work(w)))
  {
    hide SendOf, Emit, Unsent, Made, Locks;
    BusyIsMember(s, w);
    SendIsNext(s, w);
    EmitAllMade(c, s, w, log);
    OneMoreMade(c, s, Emit(s, w), log, NextSend(s, w));
  }

  lemma OneMoreMade<S>(c: Config<S>, s: Pool<S>, t: Pool<S>, log: seq<Sent>, x: Sent)
    requires Made(c, s, log) && t.members == s.members && x.origin.Actor? && x.origin.name in s.members
    requires forall d | d in s.members :: MadeBy(c, t, log + [x], d)
    ensures Made(c, t, log + [x])
  {
    hide MadeBy;
    var log' := log + [x];
    forall k | 0 <= k < |log'| && log'[k].origin.Actor? ensures log'[k].origin.name in t.members {
      assert k < |log| ==> log'[k] == log[k];
    }
  }

  lemma BusyIsMember<S>(s: Pool<S>, w: nat)
    requires Locks(s) && w < |s.workers| && s.workers[w].Busy?
    ensures s.workers[w].item.dest in s.members
  {
  }

  lemma EmitMoves(a: seq<Send>, out: seq<Send>)
    requires out != []
    ensures (a + [Send(out[0].handle, out[0].env)]) + out[1..] == a + out
  {
  }

  lemma UnlockUnsent<S>(c: Config<S>, s: Pool<S>, w: nat)
    requires Locks(s) && w < |s.workers| && s.workers[w].Busy? && s.workers[w].out == []
    ensures var t := Unlock(c, s, w);
            && t.events == s.events && t.members.Keys == s.members.Keys
            && forall d: Name :: Unsent(t, d) == Unsent(s, d)
  {
  }

  lemma UnlockKeepsMade<S>(c: Config<S>, s: Pool<S>, w: nat, log: seq<Sent>)
    requires Locks(s) && Made(c, s, log) && w < |s.workers| && s.workers[w].Busy? && s.workers[w].out == []
    ensures Made(c, Unlock(c, s, w), log + [])
  {
    hide Unlock, MadeBy, Unsent, Locks;
    UnlockUnsent(c, s, w);
    forall d | d in s.members ensures d in s.events {
      EventsThere(c, s, log, d);
    }
    QuietKeepsMade(c, s, Unlock(c, s, w), log, []);
  }

  lemma NeutralKeepsMade<S>(c: Config<S>, s: Pool<S>, t: Pool<S>, w: nat, log: seq<Sent>)
    requires Locks(s) && Made(c, s, log) && Neutral(s, t, w) && !s.workers[w].Busy?
    ensures Made(c, t, log + [])
  {
    forall d | d in s.members ensures d in s.events && Unsent(t, d) == Unsent(s, d) {
      assert MadeBy(c, s, log, d);
    }
    hide MadeBy, Unsent, Locks;
    QuietKeepsMade(c, s, t, log, []);
  }

  lemma WorkKeepsMade<S>(c: Config<S>, s: Pool<S>, w: nat, log: seq<Sent>)
    requires Locks(s) && Serial(c, s) && Made(c, s, log) && CanWork(s, w)
    ensures Made(c, WorkStep(c, s, w), log + SendOf(s, Work(w)))
  {
    hide Locks, Serial, Made, Effect, Neutral, Lock, Unlock, Goto, Receive, Drop, Emit;
    if Locking(s, w) {
      LockKeepsMade(c, s, w, log);
    } else if s.workers[w].Busy? && s.workers[w].out != [] {
      EmitKeepsMade(c, s, w, log);
    } else if s.workers[w].Busy? {
      UnlockKeepsMade(c, s, w, log);
    } else {
      WorkEffect(c, s, w);
      NeutralKeepsMade(c, s, WorkStep(c, s, w), w, log);
    }
  }

  // ----- all runs

  lemma StepKeeps<S>(c: Config<S>, s: Pool<S>, step: Step, log: seq<Sent>)
    requires Inv(c, s) && Enabled(s, step) && Recorded(s.net, log) && Made(c, s, log)
    ensures var t := Apply(c, s, step);
            Recorded(t.net, log + SendOf(s, step)) && Made(c, t, log + SendOf(s, step))
  {
    hide Recorded, Made, MoveStep, WorkStep, CallStep, CanMove, CanWork, CanCall, SendOf, Shape, Queue, Pipes, Guard,
      Serial, Logs, Accounted, Bounded, Alone, Drained, Locks;
    match step
    case Move(t) =>
      MoveKeepsThrough(s, t, log);
      MoveKeepsMade(c, s, t, log);
    case Work(w) =>
      WorkKeepsThrough(c, s, w, log);
      WorkKeepsMade(c, s, w, log);
    case Own(call) =>
      CallKeepsThrough(c, s, call, log);
      CallKeepsMade(c, s, call, log);
  }

  lemma {:induction false} ExecKeeps<S>(c: Config<S>, s: Pool<S>, steps: seq<Step>, t: Pool<S>, log: seq<Sent>)
    requires Inv(c, s) && Recorded(s.net, log) && Made(c, s, log) && Exec(c, s, steps) == Some(t)
    ensures Recorded(t.net, log + SendsOf(c, s, steps)) && Made(c, t, log + SendsOf(c, s, steps))
    decreases |steps|
  {
    hide Inv, Recorded, Made, Apply, Enabled, SendOf;
    if steps == [] {
      assert log + SendsOf(c, s, steps) == log;
    } else {
      StepKeeps(c, s, steps[0], log);
      StepKeepsInv(c, s, steps[0]);
      var now := SendOf(s, steps[0]);
      var later := SendsOf(c, Apply(c, s, steps[0]), steps[1..]);
      ExecKeeps(c, Apply(c, s, steps[0]), steps[1..], t, log + now);
      assert (log + now) + later == log + (now + later);
    }
  }

  lemma RunKeeps<S>(c: Config<S>, steps: seq<Step>, s: Pool<S>)
    requires Run(c, steps, s)
    ensures Recorded(s.net, SendsOf(c, NewPool<S>(), steps)) && Made(c, s, SendsOf(c, NewPool<S>(), steps))
  {
    RunInv(c, [], NewPool<S>());
    assert Recorded(NewPool<S>().net, []) && Made(c, NewPool<S>(), []);
    hide Inv, Recorded, Made, SendsOf;
    ExecKeeps(c, NewPool<S>(), steps, s, []);
    var log := SendsOf(c, NewPool<S>(), steps);
    assert [] + log == log;
  }

  // In every run what was sent through a handle is, in order, what clients, the owner and handlers sent
  // through it.  And what the handlers of one actor sent is, in order and to the handles in question, what
  // its log makes it send when its calls are replayed one after the other, without the rest that the
  // handler inside it has still to send.
  lemma SendsAreTheirs<S>(c: Config<S>, steps: seq<Step>, s: Pool<S>, h: nat, d: Name)
    requires Run(c, steps, s)
    ensures var log := SendsOf(c, NewPool<S>(), steps);
            && (h < |s.net.handles| ==> s.net.handles[h].sent == To(log, h))
            && (d in s.members ==>
                  d in s.events && By(log, Actor(d)) + Unsent(s, d) == Replies(c, d, s.events[d]))
            && (forall k | 0 <= k < |log| && log[k].origin.Actor? :: log[k].origin.name in s.members)
  {
    RunKeeps(c, steps, s);
    hide Run, SendsOf;
    if d in s.members {
      assert MadeBy(c, s, SendsOf(c, NewPool<S>(), steps), d);
    }
  }

  // ----- the owner's notices

  // `msg` to each of the references from `i` to `j`.
  function Notices(refs: seq<nat>, i: nat, j: nat, msg: Message): seq<Send>
    requires i <= j <= |refs|
  {
    seq(j - i, k requires 0 <= k < j - i => Send(refs[i + k], Envelope(msg, None, None)))
  }

  // Where the loop of start() or shutdown() over the references is.
  function NextOf<S>(msg: Message, s: Pool<S>): Option<nat> {
    if msg.Start? && s.owner.Starting? then Some(s.owner.next)
    else if msg.Shutdown? && s.owner.Notifying? then Some(s.owner.next)
    else None
  }

  predicate LeavesLoop(step: Step) {
    step == Own(Spawn) || step == Own(ClearRunning)
  }

  // What a step does to the loop that the owner is in.
  ghost predicate Notifies<S>(s: Pool<S>, t: Pool<S>, more: seq<Sent>, msg: Message)
    requires NextOf(msg, s).Some?
  {
    var i := NextOf(msg, s).value;
    && t.refs == s.refs && NextOf(msg, t).Some?
    && var n := NextOf(msg, t).value;
       && (n == i || (n == i + 1 && i < |s.refs|))
       && By(more, OfOwner) == if n == i then [] else [Send(s.refs[i], Envelope(msg, None, None))]
  }

  lemma CallNotifies<S>(c: Config<S>, s: Pool<S>, call: Call, msg: Message)
    requires CanCall(s, call) && NextOf(msg, s).Some? && call != Spawn && call != ClearRunning
    ensures Notifies(s, CallStep(c, s, call), SendOf(s, Own(call)), msg)
  {
    hide Append, Notify, Launch, NewHandle, By;
    OneOf(SendOf(s, Own(call)));
  }

  lemma WorkNotifies<S>(c: Config<S>, s: Pool<S>, w: nat, msg: Message)
    requires Locks(s) && CanWork(s, w) && NextOf(msg, s).Some?
    ensures Notifies(s, WorkStep(c, s, w), SendOf(s, Work(w)), msg)
  {
    hide WorkStep, CanWork, Neutral, By, Locks;
    OneOf(SendOf(s, Work(w)));
    WorkEffect(c, s, w);
  }

  lemma NoticeStep<S>(c: Config<S>, s: Pool<S>, step: Step, msg: Message)
    requires Inv(c, s) && Enabled(s, step) && NextOf(msg, s).Some? && !LeavesLoop(step)
    ensures Notifies(s, Apply(c, s, step), SendOf(s, step), msg)
  {
    hide Inv, WorkStep, CallStep, MoveStep, CanWork, CanCall, CanMove;
    match step
    case Move(_) =>
      hide By;
      OneOf(SendOf(s, step));
    case Work(w) =>
      hide Notifies;
      LocksHold(c, s);
      WorkNotifies(c, s, w, msg);
    case Own(call) =>
      hide Notifies;
      CallNotifies(c, s, call, msg);
  }

  lemma LocksHold<S>(c: Config<S>, s: Pool<S>)
    requires Inv(c, s)
    ensures Locks(s)
  {
  }

  lemma OneOf(more: seq<Sent>)
    ensures |more| == 0 ==> By(more, OfOwner) == []
    ensures |more| == 1 ==>
              By(more, OfOwner) == if more[0].origin.OfOwner? then [Send(more[0].handle, more[0].env)] else []
  {
    if |more| == 1 {
      ByCat([], more[0], OfOwner);
      assert [] + [more[0]] == more;
    }
  }

  lemma {:induction false} ByCats(a: seq<Sent>, b: seq<Sent>, o: Origin)
    ensures By(a + b, o) == By(a, o) + By(b, o)
  {
    if b == [] {
      assert a + b == a;
    } else {
      hide By;
      var n := |b| - 1;
      assert a + b == (a + b[..n]) + [b[n]];
      ByCats(a, b[..n], o);
      ByCat(a + b[..n], b[n], o);
      ByCat(b[..n], b[n], o);
      assert b == b[..n] + [b[n]];
    }
  }

  // From one place in the loop of start() or shutdown() to a later one, however the other threads go on
  // meanwhile, the owner sends the message to just the references between, once to each and in order.
  lemma {:induction false} OwnerNotifies<S>(c: Config<S>, s: Pool<S>, steps: seq<Step>, t: Pool<S>, msg: Message)
    requires Inv(c, s) && Exec(c, s, steps) == Some(t) && NextOf(msg, s).Some? && NextOf(msg, s).value <= |s.refs|
    requires forall step | step in steps :: !LeavesLoop(step)
    ensures t.refs == s.refs && NextOf(msg, t).Some? && NextOf(msg, s).value <= NextOf(msg, t).value <= |t.refs|
    ensures By(SendsOf(c, s, steps), OfOwner) == Notices(s.refs, NextOf(msg, s).value, NextOf(msg, t).value, msg)
    decreases |steps|
  {
    hide Inv, Apply, Enabled, SendOf, LeavesLoop, NextOf, By;
    if steps == [] {
      OneOf([]);
    } else {
      var u := Apply(c, s, steps[0]);
      assert !LeavesLoop(steps[0]);
      NoticeStep(c, s, steps[0], msg);
      StepKeepsInv(c, s, steps[0]);
      OwnerNotifies(c, u, steps[1..], t, msg);
      ByCats(SendOf(s, steps[0]), SendsOf(c, u, steps[1..]), OfOwner);
      NoticesCons(s.refs, NextOf(msg, s).value, NextOf(msg, u).value, NextOf(msg, t).value, msg);
    }
  }

  lemma NoticesCons(refs: seq<nat>, i: nat, n: nat, j: nat, msg: Message)
    requires i <= n <= j <= |refs| && n <= i + 1
    ensures Notices(refs, i, j, msg)
            == (if n == i then [] else [Send(refs[i], Envelope(msg, None, None))]) + Notices(refs, n, j, msg)
  {
  }
}

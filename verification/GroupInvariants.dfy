// What every step of the thread pool keeps.
module GroupInvariants {
  import opened Vocabulary
  import opened GroupModel

  // The envelopes of `xs` that came through handle `h`.
  function Through(xs: seq<Item>, h: nat): seq<Envelope> {
    if xs == [] then []
    else Through(xs[..|xs| - 1], h) + if xs[|xs| - 1].handle == h then [xs[|xs| - 1].env] else []
  }

  // The items of `xs` for member `d`.
  function For(xs: seq<Item>, d: Name): seq<Item> {
    if xs == [] then []
    else For(xs[..|xs| - 1], d) + if xs[|xs| - 1].dest == d then [xs[|xs| - 1]] else []
  }

  // The items that an event log handles.
  function Items(log: seq<Event>): seq<Item> {
    if log == [] then []
    else Items(log[..|log| - 1]) + if log[|log| - 1].Handled? then [log[|log| - 1].item] else []
  }

  // One actor on its own: its state after receiving the calls of `log` one after the other, the first
  // of which is init().
  function Replay<S>(c: Config<S>, d: Name, log: seq<Event>): S {
    if log == [] then c.actors.create(0)
    else
      var prev := Replay(c, d, log[..|log| - 1]);
      match log[|log| - 1]
      case Init(k) => c.actors.init(d, c.actors.create(k))
      case Handled(item) => c.actors.process(d, prev, item.env).0
      case End => c.actors.end(d, prev)
  }

  function InHand<T>(o: Option<T>): seq<T> {
    if o.Some? then [o.value] else []
  }

  function HeldBy<S>(pc: Worker<S>): multiset<Item> {
    if pc.Got? then multiset{pc.item} else multiset{}
  }

  // The items that workers have pulled and not yet dispatched.
  function Held<S>(ws: seq<Worker<S>>): multiset<Item> {
    if ws == [] then multiset{} else Held(ws[..|ws| - 1]) + HeldBy(ws[|ws| - 1])
  }

  predicate Draining<S>(pc: Worker<S>) {
    (pc.Got? || pc.Busy?) && pc.drain
  }

  // ----- the invariant

  ghost predicate Shape<S>(c: Config<S>, s: Pool<S>) {
    && (forall k :: 0 <= k < |s.refs| ==> s.refs[k] < |s.net.handles|)
    && (s.workers == [] || |s.workers| == c.size)
    && (!s.started || s.owner.Starting? ==> s.workers == [])
    && (!s.started ==> s.members == map[] && !s.owner.Starting?)
    && (s.workers == [] ==> s.settled == [])
    && (s.owner.Ending? || s.owner.InEnd? ==> s.owner.todo <= s.members.Keys)
    && s.events.Keys == s.members.Keys
  }

  // The queue is first in first out, and numbers its items.
  ghost predicate Queue(net: Net) {
    && net.pulled + net.queue == net.pushed
    && forall k :: 0 <= k < |net.pushed| ==>
         && net.pushed[k].no == k
         && net.pushed[k].handle < |net.handles|
         && net.pushed[k].dest == net.handles[net.pushed[k].handle].dest
  }

  // Each handle with its forwarder is first in first out.
  ghost predicate Pipes(net: Net) {
    forall h :: 0 <= h < |net.handles| ==>
      var a := net.handles[h];
      Through(net.pushed, h) + InHand(a.hand) + a.wrapper == a.sent
  }

  ghost predicate Locks<S>(s: Pool<S>) {
    && (forall d :: d in s.locks && s.locks[d].ByWorker? ==>
          var w := s.locks[d].id;
          w < |s.workers| && s.workers[w].Busy? && s.workers[w].item.dest == d)
    && (forall d :: d in s.locks && s.locks[d].ByOwner? ==> s.owner.InEnd? && s.owner.name == d)
    && (forall w :: 0 <= w < |s.workers| && s.workers[w].Busy? ==>
          s.workers[w].item.dest in s.locks && s.locks[s.workers[w].item.dest] == ByWorker(w))
    && (s.owner.InEnd? ==> s.owner.name in s.locks && s.locks[s.owner.name] == ByOwner)
    && s.locks.Keys <= s.members.Keys
  }

  ghost predicate Guard<S>(s: Pool<S>) {
    && (s.receiver.Some? ==> s.receiver.value < |s.workers| && Draining(s.workers[s.receiver.value]))
    && (forall w :: 0 <= w < |s.workers| && Draining(s.workers[w]) ==> s.receiver == Some(w))
  }

  // What the holder of member `d` has read, and the call it is inside.
  ghost predicate Holds<S>(s: Pool<S>, d: Name, local: S, e: Event)
    requires Locks(s) && d in s.locks
  {
    match s.locks[d]
    case ByWorker(w) => s.workers[w].local == local && e == Handled(s.workers[w].item)
    case ByOwner => s.owner.local == local && e == End
  }

  // Member `d` is what its calls, replayed one after the other, make of it; the last of them is
  // still to be stored when `d` is locked.
  ghost predicate SerialAt<S>(c: Config<S>, s: Pool<S>, d: Name)
    requires Locks(s) && d in s.members
  {
    && d in s.events && s.events[d] != [] && s.events[d][0].Init?
    && (d !in s.locks ==> s.members[d] == Replay(c, d, s.events[d]))
    && (d in s.locks ==>
          var n := |s.events[d]| - 1;
          && n > 0
          && s.members[d] == Replay(c, d, s.events[d][..n])
          && Holds(s, d, s.members[d], s.events[d][n]))
  }

  ghost predicate Serial<S>(c: Config<S>, s: Pool<S>)
    requires Locks(s)
  {
    forall d :: d in s.members ==> SerialAt(c, s, d)
  }

  ghost predicate Logs<S>(s: Pool<S>) {
    forall d :: d in s.members ==> d in s.events && Items(s.events[d]) == For(s.settled, d)
  }

  ghost predicate Accounted<S>(s: Pool<S>) {
    multiset(s.settled) + Held(s.workers) == multiset(s.net.pulled)
  }

  ghost predicate Bounded<S>(c: Config<S>, s: Pool<S>) {
    forall k :: 0 <= k < |s.settled| ==> s.settled[k].no < k + c.size
  }

  ghost predicate Alone<S>(c: Config<S>, s: Pool<S>) {
    c.size == 1 && |s.workers| <= 1 ==>
      s.settled + (if s.workers != [] && s.workers[0].Got? then [s.workers[0].item] else []) == s.net.pulled
  }

  ghost predicate Ascending(xs: seq<Item>) {
    forall i, j :: 0 <= i < j < |xs| ==> xs[i].no < xs[j].no
  }

  ghost predicate Drained<S>(s: Pool<S>) {
    && Ascending(s.drained)
    && (forall k :: 0 <= k < |s.drained| ==> s.drained[k].no < |s.net.pulled|)
    && (forall w :: 0 <= w < |s.workers| && s.workers[w].Got? && s.workers[w].drain ==>
          && s.workers[w].item.no == |s.net.pulled| - 1
          && forall k :: 0 <= k < |s.drained| ==> s.drained[k].no < |s.net.pulled| - 1)
  }

  ghost predicate Inv<S>(c: Config<S>, s: Pool<S>) {
    && Shape(c, s) && Queue(s.net) && Pipes(s.net)
    && Locks(s) && Guard(s) && Serial(c, s) && Logs(s)
    && Accounted(s) && Bounded(c, s) && Alone(c, s) && Drained(s)
  }

  // ----- the logs grow at the end

  lemma ThroughSnoc(xs: seq<Item>, x: Item, h: nat)
    ensures Through(xs + [x], h) == Through(xs, h) + if x.handle == h then [x.env] else []
  {
    assert (xs + [x])[..|xs|] == xs;
  }

  lemma ForSnoc(xs: seq<Item>, x: Item, d: Name)
    ensures For(xs + [x], d) == For(xs, d) + if x.dest == d then [x] else []
  {
    assert (xs + [x])[..|xs|] == xs;
  }

  lemma ItemsSnoc(log: seq<Event>, e: Event)
    ensures Items(log + [e]) == Items(log) + if e.Handled? then [e.item] else []
  {
    assert (log + [e])[..|log|] == log;
  }

  lemma {:induction false} ThroughNone(xs: seq<Item>, h: nat)
    requires forall k :: 0 <= k < |xs| ==> xs[k].handle < h
    ensures Through(xs, h) == []
  {
    if xs != [] {
      ThroughNone(xs[..|xs| - 1], h);
    }
  }

  lemma Rearrange(a: multiset<Item>, b: multiset<Item>, l: multiset<Item>, o: multiset<Item>, n: multiset<Item>)
    requires a + o == b + n
    ensures (a + l) + o == (b + l) + n
  {
    assert (a + l) + o == (a + o) + l;
    assert (b + l) + n == (b + n) + l;
  }

  lemma HeldLast<S>(ws: seq<Worker<S>>)
    requires ws != []
    ensures Held(ws) == Held(ws[..|ws| - 1]) + HeldBy(ws[|ws| - 1])
  {
  }

  lemma {:induction false} HeldSwap<S>(ws: seq<Worker<S>>, w: nat, pc: Worker<S>)
    requires w < |ws|
    ensures Held(ws[w := pc]) + HeldBy(ws[w]) == Held(ws) + HeldBy(pc)
  {
    hide Held, HeldBy;
    var n := |ws| - 1;
    var us := ws[w := pc];
    HeldLast(ws);
    HeldLast(us);
    if w == n {
      assert us[..n] == ws[..n];
      Rearrange(HeldBy(pc), HeldBy(ws[n]), Held(ws[..n]), HeldBy(ws[n]), HeldBy(pc));
      Commute(HeldBy(pc), Held(ws[..n]));
      Commute(HeldBy(ws[n]), Held(ws[..n]));
    } else {
      assert us[..n] == ws[..n][w := pc];
      HeldSwap(ws[..n], w, pc);
      Rearrange(Held(us[..n]), Held(ws[..n]), HeldBy(ws[n]), HeldBy(ws[w]), HeldBy(pc));
    }
  }

  lemma Commute(a: multiset<Item>, b: multiset<Item>)
    ensures a + b == b + a
  {
  }

  lemma HeldUpdate<S>(ws: seq<Worker<S>>, w: nat, pc: Worker<S>)
    requires w < |ws|
    ensures !ws[w].Got? && !pc.Got? ==> Held(ws[w := pc]) == Held(ws)
    ensures !ws[w].Got? && pc.Got? ==> Held(ws[w := pc]) == Held(ws) + multiset{pc.item}
    ensures ws[w].Got? && !pc.Got? ==> Held(ws[w := pc]) + multiset{ws[w].item} == Held(ws)
  {
    HeldSwap(ws, w, pc);
    assert forall x: multiset<Item> :: x + multiset{} == x;
  }

  lemma {:induction false} HeldSize<S>(ws: seq<Worker<S>>)
    ensures |Held(ws)| <= |ws|
  {
    if ws != [] {
      HeldSize(ws[..|ws| - 1]);
    }
  }

  lemma {:induction false} HeldHas<S>(ws: seq<Worker<S>>, w: nat)
    requires w < |ws| && ws[w].Got?
    ensures ws[w].item in Held(ws)
  {
    if w < |ws| - 1 {
      HeldHas(ws[..|ws| - 1], w);
    }
  }

  lemma {:induction false} HeldNone<S>(ws: seq<Worker<S>>)
    requires forall w :: 0 <= w < |ws| ==> !ws[w].Got?
    ensures Held(ws) == multiset{}
  {
    if ws != [] {
      HeldNone(ws[..|ws| - 1]);
    }
  }

  // ----- each part is kept by every step

  lemma SendKeepsNet(net: Net, h: nat, env: Envelope)
    requires Queue(net) && Pipes(net)
    ensures Queue(SendTo(net, h, env)) && Pipes(SendTo(net, h, env))
  {
    hide Through;
    assert Queue(SendTo(net, h, env));
    hide Queue;
  }

  lemma NewHandleKeepsQueue(net: Net, d: Name)
    requires Queue(net)
    ensures Queue(NewHandle(net, d))
  {
  }

  lemma NewHandleKeepsPipes(net: Net, d: Name)
    requires Queue(net) && Pipes(net)
    ensures Pipes(NewHandle(net, d))
  {
    ThroughNone(net.pushed, |net.handles|);
    hide Queue, Through;
    var n := NewHandle(net, d);
    forall h | 0 <= h < |n.handles|
      ensures Through(n.pushed, h) + InHand(n.handles[h].hand) + n.handles[h].wrapper == n.handles[h].sent
    {
      if h < |net.handles| {
        assert n.handles[h] == net.handles[h];
      }
    }
  }

  lemma NewHandleKeepsNet(net: Net, d: Name)
    requires Queue(net) && Pipes(net)
    ensures Queue(NewHandle(net, d)) && Pipes(NewHandle(net, d))
  {
    hide Queue, Pipes, NewHandle;
    NewHandleKeepsQueue(net, d);
    NewHandleKeepsPipes(net, d);
  }

  lemma TakeKeepsNet(net: Net, h: nat)
    requires Queue(net) && Pipes(net) && CanMove(net, Take(h))
    ensures Queue(MoveStep(net, Take(h))) && Pipes(MoveStep(net, Take(h)))
  {
    var a := net.handles[h];
    assert [a.wrapper[0]] + a.wrapper[1..] == a.wrapper;
  }

  lemma PushKeepsNet(net: Net, h: nat)
    requires Queue(net) && Pipes(net) && CanMove(net, Push(h))
    ensures Queue(MoveStep(net, Push(h))) && Pipes(MoveStep(net, Push(h)))
  {
    var net' := MoveStep(net, Push(h));
    forall k | 0 <= k < |net'.handles|
      ensures var a := net'.handles[k]; Through(net'.pushed, k) + InHand(a.hand) + a.wrapper == a.sent
    {
      ThroughSnoc(net.pushed, net'.pushed[|net.pushed|], k);
    }
  }

  lemma MoveKeepsNet(net: Net, t: Traffic)
    requires Queue(net) && Pipes(net) && CanMove(net, t)
    ensures Queue(MoveStep(net, t)) && Pipes(MoveStep(net, t))
  {
    hide Queue, Pipes;
    match t
    case ClientSend(h, env) => SendKeepsNet(net, h, env);
    case Take(h) => TakeKeepsNet(net, h);
    case Push(h) => PushKeepsNet(net, h);
  }

  lemma PullKeepsNet(net: Net)
    requires Queue(net) && Pipes(net) && net.queue != []
    ensures Queue(Pull(net)) && Pipes(Pull(net))
  {
  }

  lemma CallKeepsNet<S>(c: Config<S>, s: Pool<S>, call: Call)
    requires Queue(s.net) && Pipes(s.net) && CanCall(s, call)
    ensures Queue(CallStep(c, s, call).net) && Pipes(CallStep(c, s, call).net)
  {
    if call.Add? || call.GetRef? {
      NewHandleKeepsNet(s.net, call.dest);
    } else if call.SendStart? || call.SendShutdown? {
      var msg := if call.SendStart? then Start else Shutdown;
      SendKeepsNet(s.net, s.refs[s.owner.next], Envelope(msg, None, None));
    }
  }

  // What a step of worker `w` does to the counts, logs and guards.
  ghost predicate Effect<S>(s: Pool<S>, t: Pool<S>, w: nat) {
    && w < |s.workers| == |t.workers| && t.workers == s.workers[w := t.workers[w]]
    && t.refs == s.refs && t.builder == s.builder && t.started == s.started && t.running == s.running
    && t.owner == s.owner
    && t.members.Keys == s.members.Keys && |t.net.handles| == |s.net.handles|
    && var pc, pc' := s.workers[w], t.workers[w];
       && t.settled == (if pc.Got? then s.settled + [pc.item] else s.settled)
       && t.drained == (if pc.Got? && pc.drain then s.drained + [pc.item] else s.drained)
       && t.events == (if pc.Got? && pc.item.dest in s.members
                       then Append(s.events, pc.item.dest, Handled(pc.item)) else s.events)
       && (if pc'.Got? then
             !pc.Got? && s.receiver.None? && s.net.queue != [] && t.net == Pull(s.net)
             && pc'.item == s.net.queue[0]
           else t.net.pulled == s.net.pulled)
       && (!pc'.Got? ==>
             t.net == if pc.Busy? && pc.out != [] then SendTo(s.net, pc.out[0].handle, pc.out[0].env) else s.net)
       && (pc'.Exited? ==> pc.DrainPoll? && s.net.queue == [])
       && (pc.Busy? && pc.out == [] ==> pc' == Resume(pc.drain))
       && (if Draining(pc') then
             t.receiver == (if Draining(pc) then s.receiver else Some(w))
             && (Draining(pc) || s.receiver.None?)
           else t.receiver == if Draining(pc) then None else s.receiver)
  }

  // A step of worker `w` that neither takes nor gives back an actor lock.
  ghost predicate Neutral<S>(s: Pool<S>, t: Pool<S>, w: nat) {
    && w < |s.workers| == |t.workers| && t.workers == s.workers[w := t.workers[w]]
    && t.locks == s.locks && t.owner == s.owner && t.members == s.members && t.events == s.events
    && t.workers[w].Busy? == s.workers[w].Busy?
    && (t.workers[w].Busy? ==>
          t.workers[w].item == s.workers[w].item && t.workers[w].local == s.workers[w].local
          && s.workers[w].out != [] && t.workers[w].out == s.workers[w].out[1..])
  }

  lemma LockEffect<S>(c: Config<S>, s: Pool<S>, w: nat)
    requires w < |s.workers| && s.workers[w].Got? && s.workers[w].item.dest in s.members
    ensures Effect(s, Lock(c, s, w, s.workers[w].item, s.workers[w].drain), w)
  {
  }

  lemma DropEffect<S>(s: Pool<S>, w: nat)
    requires w < |s.workers| && s.workers[w].Got? && s.workers[w].item.dest !in s.members
    ensures var t := Drop(s, w, s.workers[w].item, s.workers[w].drain); Effect(s, t, w) && Neutral(s, t, w)
  {
  }

  lemma GotoEffect<S>(s: Pool<S>, w: nat, pc: Worker<S>)
    requires w < |s.workers| && !Draining(s.workers[w]) && !s.workers[w].Got? && !s.workers[w].Busy?
    requires !pc.Got? && !pc.Busy? && (pc.Exited? ==> s.workers[w].DrainPoll? && s.net.queue == [])
    ensures Effect(s, Goto(s, w, pc), w) && Neutral(s, Goto(s, w, pc), w)
  {
  }

  lemma ReceiveEffect<S>(s: Pool<S>, w: nat, drain: bool)
    requires w < |s.workers| && !s.workers[w].Got? && !s.workers[w].Busy?
    requires s.net.queue != [] && s.receiver.None?
    ensures Effect(s, Receive(s, w, drain), w) && Neutral(s, Receive(s, w, drain), w)
  {
  }

  lemma EmitEffect<S>(s: Pool<S>, w: nat)
    requires w < |s.workers| && s.workers[w].Busy? && s.workers[w].out != []
    ensures Effect(s, Emit(s, w), w) && Neutral(s, Emit(s, w), w)
  {
  }

  lemma UnlockEffect<S>(c: Config<S>, s: Pool<S>, w: nat)
    requires Locks(s) && w < |s.workers| && s.workers[w].Busy? && s.workers[w].out == []
    ensures Effect(s, Unlock(c, s, w), w)
  {
  }

  predicate Locking<S>(s: Pool<S>, w: nat)
    requires w < |s.workers|
  {
    s.workers[w].Got? && s.workers[w].item.dest in s.members
  }

  predicate Unlocking<S>(s: Pool<S>, w: nat)
    requires w < |s.workers|
  {
    s.workers[w].Busy? && s.workers[w].out == []
  }

  lemma WorkEffect<S>(c: Config<S>, s: Pool<S>, w: nat)
    requires Locks(s) && CanWork(s, w)
    ensures Effect(s, WorkStep(c, s, w), w)
    ensures !Locking(s, w) && !Unlocking(s, w) ==> Neutral(s, WorkStep(c, s, w), w)
  {
    hide Effect, Neutral, Locks, Lock, Drop, Goto, Receive, Emit, Unlock;
    match s.workers[w]
    case Got(item, _) => if item.dest in s.members { LockEffect(c, s, w); } else { DropEffect(s, w); }
    case Busy(_, _, _, out) => if out != [] { EmitEffect(s, w); } else { UnlockEffect(c, s, w); }
    case Check => GotoEffect(s, w, if s.running then Poll else DrainPoll);
    case Poll => if s.net.queue == [] { GotoEffect(s, w, Check); } else { ReceiveEffect(s, w, false); }
    case DrainPoll => if s.net.queue == [] { GotoEffect(s, w, Exited); } else { ReceiveEffect(s, w, true); }
  }

  lemma WorkKeepsNet<S>(s: Pool<S>, t: Pool<S>, w: nat)
    requires Queue(s.net) && Pipes(s.net) && Effect(s, t, w)
    ensures Queue(t.net) && Pipes(t.net)
  {
    hide Queue, Pipes, SendTo, Pull;
    var pc := s.workers[w];
    if t.workers[w].Got? {
      PullKeepsNet(s.net);
    } else if pc.Busy? && pc.out != [] {
      SendKeepsNet(s.net, pc.out[0].handle, pc.out[0].env);
    }
  }

  lemma WorkKeepsShape<S>(c: Config<S>, s: Pool<S>, t: Pool<S>, w: nat)
    requires Shape(c, s) && Effect(s, t, w)
    ensures Shape(c, t)
  {
  }

  lemma CallKeepsShape<S>(c: Config<S>, s: Pool<S>, call: Call)
    requires Shape(c, s) && Locks(s) && CanCall(s, call)
    ensures Shape(c, CallStep(c, s, call))
  {
  }

  lemma LockKeepsLocks<S>(c: Config<S>, s: Pool<S>, w: nat)
    requires Locks(s) && CanWork(s, w) && s.workers[w].Got? && s.workers[w].item.dest in s.members
    ensures Locks(Lock(c, s, w, s.workers[w].item, s.workers[w].drain))
  {
  }

  lemma UnlockKeepsLocks<S>(c: Config<S>, s: Pool<S>, w: nat)
    requires Locks(s) && CanWork(s, w) && s.workers[w].Busy?
    ensures Locks(Unlock(c, s, w))
  {
  }

  lemma NeutralKeepsLocks<S>(s: Pool<S>, t: Pool<S>, w: nat)
    requires Locks(s) && Neutral(s, t, w)
    ensures Locks(t)
  {
  }

  lemma WorkKeepsLocks<S>(c: Config<S>, s: Pool<S>, w: nat)
    requires Locks(s) && CanWork(s, w)
    ensures Locks(WorkStep(c, s, w))
  {
    WorkEffect(c, s, w);
    hide Locks, Effect, Neutral, Lock, Unlock, Goto, Receive, Drop, Emit;
    if Locking(s, w) {
      LockKeepsLocks(c, s, w);
    } else if Unlocking(s, w) {
      UnlockKeepsLocks(c, s, w);
    } else {
      NeutralKeepsLocks(s, WorkStep(c, s, w), w);
    }
  }

  lemma EndKeepsLocks<S>(c: Config<S>, s: Pool<S>, call: Call)
    requires Locks(s) && CanCall(s, call) && (call.LockForEnd? || call.FinishEnd?)
    ensures Locks(CallStep(c, s, call))
  {
    hide Append;
  }

  lemma CallKeepsLocks<S>(c: Config<S>, s: Pool<S>, call: Call)
    requires Shape(c, s) && Locks(s) && CanCall(s, call)
    ensures Locks(CallStep(c, s, call))
  {
    if call.LockForEnd? || call.FinishEnd? {
      hide CallStep, Locks;
      EndKeepsLocks(c, s, call);
    } else {
      hide Notify, NewHandle, FirstCalls;
    }
  }

  lemma WorkKeepsGuard<S>(s: Pool<S>, t: Pool<S>, w: nat)
    requires Guard(s) && Effect(s, t, w)
    ensures Guard(t)
  {
  }

  lemma CallKeepsGuard<S>(c: Config<S>, s: Pool<S>, call: Call)
    requires Shape(c, s) && Guard(s) && CanCall(s, call)
    ensures Guard(CallStep(c, s, call))
  {
  }

  // Member `d`, its log and what its holder has read are the same in `s` and `t`.
  ghost predicate SameHold<S>(s: Pool<S>, t: Pool<S>, d: Name)
    requires Locks(s) && Locks(t)
  {
    && d in s.members && d in t.members && t.members[d] == s.members[d]
    && d in s.events && d in t.events && t.events[d] == s.events[d]
    && (d in s.locks <==> d in t.locks)
    && (d in s.locks ==>
          && t.locks[d] == s.locks[d]
          && match s.locks[d]
             case ByWorker(w) =>
               t.workers[w].local == s.workers[w].local && t.workers[w].item == s.workers[w].item
             case ByOwner => t.owner.local == s.owner.local)
  }

  lemma SameSerial<S>(c: Config<S>, s: Pool<S>, t: Pool<S>, d: Name)
    requires Locks(s) && Locks(t) && SameHold(s, t, d) && SerialAt(c, s, d)
    ensures SerialAt(c, t, d)
  {
  }

  lemma LockedSerial<S>(c: Config<S>, s: Pool<S>, t: Pool<S>, d: Name, e: Event)
    requires Locks(s) && Locks(t) && d in s.members && SerialAt(c, s, d)
    requires d !in s.locks && d in t.locks && d in t.members && t.members[d] == s.members[d]
    requires d in t.events && t.events[d] == s.events[d] + [e] && Holds(t, d, s.members[d], e)
    ensures SerialAt(c, t, d)
  {
    hide Locks, Replay;
    assert t.events[d][..|s.events[d]|] == s.events[d];
  }

  lemma UnlockedSerial<S>(c: Config<S>, s: Pool<S>, t: Pool<S>, d: Name)
    requires Locks(s) && Locks(t) && d in s.members && SerialAt(c, s, d)
    requires d in s.locks && d !in t.locks && d in t.events && t.events[d] == s.events[d]
    requires d in t.members && t.members[d] == Replay(c, d, s.events[d])
    ensures SerialAt(c, t, d)
  {
    hide Locks, Replay, Holds;
  }

  lemma NeutralKeepsSerial<S>(c: Config<S>, s: Pool<S>, t: Pool<S>, w: nat)
    requires Locks(s) && Serial(c, s) && Locks(t) && Neutral(s, t, w)
    ensures Serial(c, t)
  {
    forall d | d in t.members ensures SerialAt(c, t, d) {
      assert SerialAt(c, s, d);
      SameSerial(c, s, t, d);
    }
  }

  lemma HandlerKeepsSerial<S>(c: Config<S>, s: Pool<S>, w: nat)
    requires Locks(s) && Serial(c, s) && w < |s.workers| && s.workers[w].Busy? && Locks(Unlock(c, s, w))
    ensures Serial(c, Unlock(c, s, w))
  {
    var t := Unlock(c, s, w);
    var d0 := s.workers[w].item.dest;
    assert SerialAt(c, s, d0);
    forall d | d in t.members ensures SerialAt(c, t, d) {
      if d == d0 {
        UnlockedSerial(c, s, t, d);
      } else {
        assert SerialAt(c, s, d);
        SameSerial(c, s, t, d);
      }
    }
  }

  lemma DispatchKeepsSerial<S>(c: Config<S>, s: Pool<S>, w: nat)
    requires Locks(s) && Serial(c, s) && CanWork(s, w) && Locking(s, w)
    ensures var t := Lock(c, s, w, s.workers[w].item, s.workers[w].drain); Locks(t) && Serial(c, t)
  {
    LockKeepsLocks(c, s, w);
    var item := s.workers[w].item;
    var t := Lock(c, s, w, item, s.workers[w].drain);
    forall d | d in t.members ensures SerialAt(c, t, d) {
      assert SerialAt(c, s, d);
      if d == item.dest {
        LockedSerial(c, s, t, d, Handled(item));
      } else {
        SameSerial(c, s, t, d);
      }
    }
  }

  lemma WorkKeepsSerial<S>(c: Config<S>, s: Pool<S>, w: nat)
    requires Locks(s) && Serial(c, s) && CanWork(s, w)
    ensures Locks(WorkStep(c, s, w)) && Serial(c, WorkStep(c, s, w))
  {
    WorkEffect(c, s, w);
    WorkKeepsLocks(c, s, w);
    hide Locks, Serial, Effect, Neutral, Lock, Unlock, Goto, Receive, Drop, Emit;
    if Locking(s, w) {
      DispatchKeepsSerial(c, s, w);
    } else if Unlocking(s, w) {
      HandlerKeepsSerial(c, s, w);
    } else {
      NeutralKeepsSerial(c, s, WorkStep(c, s, w), w);
    }
  }

  lemma EndKeepsSerial<S>(c: Config<S>, s: Pool<S>, call: Call)
    requires Shape(c, s) && Locks(s) && Serial(c, s) && CanCall(s, call) && (call.LockForEnd? || call.FinishEnd?)
    requires Locks(CallStep(c, s, call))
    ensures Serial(c, CallStep(c, s, call))
  {
    var t := CallStep(c, s, call);
    var d0 := if call.LockForEnd? then call.dest else s.owner.name;
    assert SerialAt(c, s, d0);
    forall d | d in t.members ensures SerialAt(c, t, d) {
      assert SerialAt(c, s, d);
      if d != d0 {
        SameSerial(c, s, t, d);
      } else if call.LockForEnd? {
        LockedSerial(c, s, t, d, End);
      } else {
        UnlockedSerial(c, s, t, d);
      }
    }
  }

  lemma StartKeepsSerial<S>(c: Config<S>, s: Pool<S>)
    requires Shape(c, s) && Locks(s) && CanCall(s, BeginStart) && Locks(CallStep(c, s, BeginStart))
    ensures Serial(c, CallStep(c, s, BeginStart))
  {
    var t := CallStep(c, s, BeginStart);
    forall d | d in t.members ensures SerialAt(c, t, d) {
      assert t.events[d] == [Init(s.builder[d])];
    }
  }

  lemma CallKeepsSerial<S>(c: Config<S>, s: Pool<S>, call: Call)
    requires Shape(c, s) && Locks(s) && Serial(c, s) && CanCall(s, call)
    ensures Locks(CallStep(c, s, call)) && Serial(c, CallStep(c, s, call))
  {
    CallKeepsLocks(c, s, call);
    if call.LockForEnd? || call.FinishEnd? {
      EndKeepsSerial(c, s, call);
    } else if call.BeginStart? {
      StartKeepsSerial(c, s);
    } else {
      var t := CallStep(c, s, call);
      forall d | d in t.members ensures SerialAt(c, t, d) {
        assert SerialAt(c, s, d);
        SameSerial(c, s, t, d);
      }
    }
  }

  lemma WorkKeepsLogs<S>(s: Pool<S>, t: Pool<S>, w: nat)
    requires Logs(s) && Effect(s, t, w)
    ensures Logs(t)
  {
    var pc := s.workers[w];
    if pc.Got? {
      forall d | d in t.members ensures d in t.events && Items(t.events[d]) == For(t.settled, d) {
        ForSnoc(s.settled, pc.item, d);
        ItemsSnoc(s.events[d], Handled(pc.item));
      }
    }
  }

  lemma StartKeepsLogs<S>(c: Config<S>, s: Pool<S>)
    requires Shape(c, s) && CanCall(s, BeginStart)
    ensures Logs(Launch(c, s))
  {
    var t := Launch(c, s);
    forall d | d in t.members ensures Items(t.events[d]) == For(t.settled, d) {
      ItemsSnoc([], Init(s.builder[d]));
      assert t.events[d] == [] + [Init(s.builder[d])] && t.settled == [];
    }
  }

  lemma OtherKeepsLogs<S>(c: Config<S>, s: Pool<S>, call: Call)
    requires Shape(c, s) && Locks(s) && Logs(s) && CanCall(s, call) && !call.LockForEnd? && !call.BeginStart?
    ensures Logs(CallStep(c, s, call))
  {
    hide Items, For;
  }

  lemma CallKeepsLogs<S>(c: Config<S>, s: Pool<S>, call: Call)
    requires Shape(c, s) && Locks(s) && Logs(s) && CanCall(s, call)
    ensures Logs(CallStep(c, s, call))
  {
    if call.LockForEnd? {
      ItemsSnoc(s.events[call.dest], End);
    } else if call.BeginStart? {
      hide Logs, Launch;
      StartKeepsLogs(c, s);
    } else {
      hide Logs, CallStep;
      OtherKeepsLogs(c, s, call);
    }
  }

  lemma WorkKeepsAccounted<S>(s: Pool<S>, t: Pool<S>, w: nat)
    requires Accounted(s) && Effect(s, t, w)
    ensures Accounted(t)
  {
    HeldUpdate(s.workers, w, t.workers[w]);
    if t.workers[w].Got? {
      assert t.net.pulled == s.net.pulled + [s.net.queue[0]];
    } else if s.workers[w].Got? {
      assert t.settled == s.settled + [s.workers[w].item];
    }
  }

  lemma CallEffect<S>(c: Config<S>, s: Pool<S>, call: Call)
    requires Shape(c, s) && CanCall(s, call)
    ensures var t := CallStep(c, s, call);
            && t.settled == s.settled && t.drained == s.drained && t.net.pulled == s.net.pulled
            && (t.workers == s.workers
                || (s.workers == [] && forall w :: 0 <= w < |t.workers| ==> t.workers[w] == Check))
  {
  }

  lemma CallKeepsAccounted<S>(c: Config<S>, s: Pool<S>, call: Call)
    requires Shape(c, s) && Accounted(s) && CanCall(s, call)
    ensures Accounted(CallStep(c, s, call))
  {
    hide CallStep, CanCall, Shape;
    CallEffect(c, s, call);
    if s.workers == [] {
      HeldNone(CallStep(c, s, call).workers);
    }
  }

  // An item that is about to be dispatched has fewer than c.size undispatched items before it.
  lemma DispatchBound<S>(c: Config<S>, s: Pool<S>, w: nat)
    requires Shape(c, s) && Queue(s.net) && Accounted(s) && w < |s.workers| && s.workers[w].Got?
    ensures s.workers[w].item.no < |s.settled| + c.size
    ensures s.workers[w].item in s.net.pulled
  {
    HeldSize(s.workers);
    HeldHas(s.workers, w);
    var item := s.workers[w].item;
    assert item in multiset(s.net.pulled);
    assert |s.net.pulled| == |multiset(s.net.pulled)| == |s.settled| + |Held(s.workers)|;
    var k :| 0 <= k < |s.net.pulled| && s.net.pulled[k] == item;
    assert s.net.pushed[k] == item;
  }

  lemma WorkKeepsBounded<S>(c: Config<S>, s: Pool<S>, t: Pool<S>, w: nat)
    requires Shape(c, s) && Queue(s.net) && Accounted(s) && Bounded(c, s) && Effect(s, t, w)
    ensures Bounded(c, t)
  {
    if s.workers[w].Got? {
      DispatchBound(c, s, w);
    }
  }

  lemma WorkKeepsAlone<S>(c: Config<S>, s: Pool<S>, t: Pool<S>, w: nat)
    requires Alone(c, s) && Effect(s, t, w)
    ensures Alone(c, t)
  {
  }

  lemma PulledNumber<S>(s: Pool<S>)
    requires Queue(s.net)
    ensures forall k :: 0 <= k < |s.net.pulled| ==> s.net.pulled[k].no == k
    ensures s.net.queue != [] ==> s.net.queue[0].no == |s.net.pulled|
  {
    assert forall k :: 0 <= k < |s.net.pulled| ==> s.net.pushed[k] == s.net.pulled[k];
    assert s.net.queue != [] ==> s.net.pushed[|s.net.pulled|] == s.net.queue[0];
  }

  lemma WorkKeepsDrained<S>(s: Pool<S>, t: Pool<S>, w: nat)
    requires Queue(s.net) && Guard(s) && Drained(s) && Effect(s, t, w)
    ensures Drained(t)
  {
    PulledNumber(s);
  }

  // ----- all of it

  lemma WorkKeepsInv<S>(c: Config<S>, s: Pool<S>, w: nat)
    requires Inv(c, s) && CanWork(s, w)
    ensures Inv(c, WorkStep(c, s, w))
  {
    var t := WorkStep(c, s, w);
    WorkEffect(c, s, w);
    WorkKeepsNet(s, t, w);
    WorkKeepsShape(c, s, t, w);
    WorkKeepsSerial(c, s, w);
    WorkKeepsGuard(s, t, w);
    WorkKeepsLogs(s, t, w);
    WorkKeepsAccounted(s, t, w);
    WorkKeepsBounded(c, s, t, w);
    WorkKeepsAlone(c, s, t, w);
    WorkKeepsDrained(s, t, w);
  }

  lemma CallKeepsRest<S>(c: Config<S>, s: Pool<S>, call: Call)
    requires Shape(c, s) && Bounded(c, s) && Alone(c, s) && Drained(s) && CanCall(s, call)
    ensures var t := CallStep(c, s, call); Bounded(c, t) && Alone(c, t) && Drained(t)
  {
    hide CallStep, Shape;
    CallEffect(c, s, call);
  }

  lemma CallKeepsInv<S>(c: Config<S>, s: Pool<S>, call: Call)
    requires Inv(c, s) && CanCall(s, call)
    ensures Inv(c, CallStep(c, s, call))
  {
    hide CallStep, CanCall, Shape, Queue, Pipes, Locks, Guard, Serial, Logs, Accounted,
      Bounded, Alone, Drained;
    CallKeepsNet(c, s, call);
    CallKeepsShape(c, s, call);
    CallKeepsSerial(c, s, call);
    CallKeepsGuard(c, s, call);
    CallKeepsLogs(c, s, call);
    CallKeepsAccounted(c, s, call);
    CallKeepsRest(c, s, call);
  }

  lemma MoveEffect(net: Net, t: Traffic)
    requires CanMove(net, t)
    ensures |MoveStep(net, t).handles| == |net.handles| && MoveStep(net, t).pulled == net.pulled
  {
  }

  // Only the channels change.
  lemma NetKeepsSerial<S>(c: Config<S>, s: Pool<S>, net: Net)
    requires Locks(s) && Serial(c, s)
    ensures Locks(s.(net := net)) && Serial(c, s.(net := net))
  {
    var t := s.(net := net);
    forall d | d in t.members ensures SerialAt(c, t, d) {
      assert SerialAt(c, s, d);
      SameSerial(c, s, t, d);
    }
  }

  lemma NetKeepsRest<S>(c: Config<S>, s: Pool<S>, net: Net)
    requires Shape(c, s) && Guard(s) && Logs(s) && Accounted(s) && Bounded(c, s) && Alone(c, s) && Drained(s)
    requires |net.handles| == |s.net.handles| && net.pulled == s.net.pulled
    ensures var t := s.(net := net);
            Shape(c, t) && Guard(t) && Logs(t) && Accounted(t) && Bounded(c, t) && Alone(c, t) && Drained(t)
  {
  }

  lemma MoveKeepsInv<S>(c: Config<S>, s: Pool<S>, t: Traffic)
    requires Inv(c, s) && CanMove(s.net, t)
    ensures Inv(c, s.(net := MoveStep(s.net, t)))
  {
    hide MoveStep, CanMove, Shape, Queue, Pipes, Locks, Guard, Serial, Logs, Accounted, Bounded, Alone, Drained;
    MoveKeepsNet(s.net, t);
    MoveEffect(s.net, t);
    NetKeepsSerial(c, s, MoveStep(s.net, t));
    NetKeepsRest(c, s, MoveStep(s.net, t));
  }

  lemma StepKeepsInv<S>(c: Config<S>, s: Pool<S>, step: Step)
    requires Inv(c, s) && Enabled(s, step)
    ensures Inv(c, Apply(c, s, step))
  {
    hide Inv, MoveStep, WorkStep, CallStep, CanMove, CanCall, CanWork;
    match step
    case Move(t) => MoveKeepsInv(c, s, t);
    case Work(w) => WorkKeepsInv(c, s, w);
    case Own(call) => CallKeepsInv(c, s, call);
  }
}

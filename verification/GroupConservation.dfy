// Where every envelope that was sent to the thread pool is, at any time and at the end.
module GroupConservation {
  import opened Vocabulary
  import opened GroupModel
  import opened GroupInvariants
  import opened GroupTheorems
  import opened GroupShutdown

  // The items that workers have pulled and not yet dispatched, worker by worker.
  function InHands<S>(ws: seq<Worker<S>>): seq<Item> {
    if ws == [] then []
    else InHands(ws[..|ws| - 1]) + if ws[|ws| - 1].Got? then [ws[|ws| - 1].item] else []
  }

  lemma {:induction false} InHandsIsHeld<S>(ws: seq<Worker<S>>)
    ensures multiset(InHands(ws)) == Held(ws)
  {
    if ws != [] {
      InHandsIsHeld(ws[..|ws| - 1]);
    }
  }

  function Without(xs: seq<Item>, i: nat): seq<Item>
    requires i < |xs|
  {
    xs[..i] + xs[i + 1..]
  }

  function Bag(xs: seq<Item>, h: nat): multiset<Envelope> {
    multiset(Through(xs, h))
  }

  lemma {:induction false} ThroughCat(xs: seq<Item>, ys: seq<Item>, h: nat)
    ensures Through(xs + ys, h) == Through(xs, h) + Through(ys, h)
  {
    if ys == [] {
      assert xs + ys == xs;
    } else {
      var n := |ys| - 1;
      assert xs + ys == (xs + ys[..n]) + [ys[n]];
      assert ys == ys[..n] + [ys[n]];
      ThroughCat(xs, ys[..n], h);
      ThroughSnoc(xs + ys[..n], ys[n], h);
      ThroughSnoc(ys[..n], ys[n], h);
    }
  }

  lemma BagWithout(xs: seq<Item>, i: nat, h: nat)
    requires i < |xs|
    ensures Bag(xs, h) == Bag(Without(xs, i), h) + if xs[i].handle == h then multiset{xs[i].env} else multiset{}
    ensures multiset(xs) == multiset(Without(xs, i)) + multiset{xs[i]}
  {
    var l, r := xs[..i], xs[i + 1..];
    assert xs == (l + [xs[i]]) + r;
    ThroughCat(l + [xs[i]], r, h);
    ThroughSnoc(l, xs[i], h);
    ThroughCat(l, r, h);
  }

  // What went through a handle does not depend on the order of the items.
  lemma {:induction false} BagOfPermutation(xs: seq<Item>, ys: seq<Item>, h: nat)
    requires multiset(xs) == multiset(ys)
    ensures Bag(xs, h) == Bag(ys, h)
    decreases |xs|
  {
    assert |multiset(xs)| == |xs| && |multiset(ys)| == |ys|;
    if xs != [] {
      assert xs[0] in multiset(ys);
      var j :| 0 <= j < |ys| && ys[j] == xs[0];
      BagWithout(xs, 0, h);
      BagWithout(ys, j, h);
      var xs', ys' := Without(xs, 0), Without(ys, j);
      hide Bag, Without;
      assert multiset(xs') == multiset(xs) - multiset{xs[0]} == multiset(ys');
      BagOfPermutation(xs', ys', h);
    }
  }

  lemma {:induction false} ThroughFor(xs: seq<Item>, h: nat, d: Name)
    requires forall k | 0 <= k < |xs| && xs[k].handle == h :: xs[k].dest == d
    ensures Through(For(xs, d), h) == Through(xs, h)
  {
    if xs != [] {
      var n := |xs| - 1;
      ThroughFor(xs[..n], h, d);
      assert For(xs[..n], d) + [] == For(xs[..n], d);
      ThroughSnoc(For(xs[..n], d), xs[n], h);
    }
  }

  lemma {:induction false} NoneThrough(xs: seq<Item>, h: nat, d: Name)
    requires forall k | 0 <= k < |xs| && xs[k].handle == h :: xs[k].dest != d
    ensures Through(For(xs, d), h) == []
  {
    if xs != [] {
      var n := |xs| - 1;
      NoneThrough(xs[..n], h, d);
      assert For(xs[..n], d) + [] == For(xs[..n], d);
      ThroughSnoc(For(xs[..n], d), xs[n], h);
    }
  }

  lemma SettledDest<S>(c: Config<S>, steps: seq<Step>, s: Pool<S>, k: nat)
    requires Run(c, steps, s) && k < |s.settled|
    ensures s.settled[k].handle < |s.net.handles|
    ensures s.settled[k].dest == s.net.handles[s.settled[k].handle].dest
  {
    NothingInvented(c, steps, s, s.settled[k]);
  }

  // What was dispatched through a handle is what the actor of its destination has handled, if there is
  // one, and was dropped if there is none.
  lemma HandledOrDropped<S>(c: Config<S>, steps: seq<Step>, s: Pool<S>, h: nat)
    requires Run(c, steps, s) && h < |s.net.handles|
    ensures var d := s.net.handles[h].dest;
            d in s.members ==> d in s.events && Bag(s.settled, h) == Bag(Items(s.events[d]), h)
    ensures forall d | d in s.events && d != s.net.handles[h].dest :: Bag(Items(s.events[d]), h) == multiset{}
  {
    RunLogs(c, steps, s);
    forall k | 0 <= k < |s.settled| && s.settled[k].handle == h
      ensures s.settled[k].dest == s.net.handles[h].dest
    {
      SettledDest(c, steps, s, k);
    }
    hide Run, Through, For, Items;
    ThroughFor(s.settled, h, s.net.handles[h].dest);
    forall d | d in s.events && d != s.net.handles[h].dest ensures Bag(Items(s.events[d]), h) == multiset{} {
      NoneThrough(s.settled, h, d);
    }
  }

  lemma RunLogs<S>(c: Config<S>, steps: seq<Step>, s: Pool<S>)
    requires Run(c, steps, s)
    ensures Logs(s) && s.events.Keys == s.members.Keys
  {
    RunInv(c, steps, s);
  }

  // In every reachable state each envelope sent through a handle, by clients, by the owner or by
  // handlers, is in exactly one place: the wrapper channel, the forwarder's hand, the shared queue, a
  // worker's hand, or dispatched.  None is duplicated or invented, and one that was dispatched has been
  // handled by the actor of its destination, or dropped if no such actor was there at start().
  lemma Conservation<S>(c: Config<S>, steps: seq<Step>, s: Pool<S>, h: nat)
    requires Run(c, steps, s) && h < |s.net.handles|
    ensures var a := s.net.handles[h];
            multiset(a.sent)
            == multiset(a.wrapper) + multiset(InHand(a.hand)) + Bag(s.net.queue, h) + Bag(InHands(s.workers), h)
               + Bag(s.settled, h)
    ensures var d := s.net.handles[h].dest;
            d in s.members ==> d in s.events && Bag(s.settled, h) == Bag(Items(s.events[d]), h)
    ensures forall d | d in s.events && d != s.net.handles[h].dest :: Bag(Items(s.events[d]), h) == multiset{}
  {
    HandledOrDropped(c, steps, s, h);
    RunInv(c, steps, s);
    var a := s.net.handles[h];
    assert a.sent == Through(s.net.pushed, h) + InHand(a.hand) + a.wrapper;
    InHandsIsHeld(s.workers);
    assert multiset(s.settled + InHands(s.workers)) == multiset(s.net.pulled);
    assert s.net.pulled + s.net.queue == s.net.pushed;
    hide Inv, InHands, Run, Items;
    assert multiset(a.sent) == Bag(s.net.pushed, h) + multiset(InHand(a.hand)) + multiset(a.wrapper);
    BagOfPermutation(s.settled + InHands(s.workers), s.net.pulled, h);
    ThroughCat(s.settled, InHands(s.workers), h);
    ThroughCat(s.net.pulled, s.net.queue, h);
  }

  lemma {:induction false} ForCounts(xs: seq<Item>, d: Name, x: Item)
    ensures multiset(For(xs, d))[x] == if x.dest == d then multiset(xs)[x] else 0
  {
    if xs != [] {
      var n := |xs| - 1;
      assert xs == xs[..n] + [xs[n]];
      ForCounts(xs[..n], d, x);
    }
  }

  // What an actor has handled is a prefix of what entered the queue for it, permuted, and short of what
  // workers have in their hands, which is at most one envelope each.
  lemma PermutedPrefix<S>(c: Config<S>, steps: seq<Step>, s: Pool<S>, d: Name)
    requires Run(c, steps, s) && d in s.members
    ensures d in s.events && s.net.pulled <= s.net.pushed
    ensures multiset(For(s.net.pulled, d)) == multiset(Items(s.events[d])) + multiset(For(InHands(s.workers), d))
    ensures |InHands(s.workers)| <= c.size
  {
    RunInv(c, steps, s);
    InHandsIsHeld(s.workers);
    HeldSize(s.workers);
    var hands, log := InHands(s.workers), Items(s.events[d]);
    assert |multiset(hands)| == |hands|;
    assert log == For(s.settled, d) && multiset(s.settled) + multiset(hands) == multiset(s.net.pulled);
    hide Inv, InHands, Items, For;
    forall x
      ensures multiset(For(s.net.pulled, d))[x] == (multiset(log) + multiset(For(hands, d)))[x]
    {
      ForCounts(s.net.pulled, d, x);
      ForCounts(s.settled, d, x);
      ForCounts(hands, d, x);
    }
    assert multiset(For(s.net.pulled, d)) == multiset(log) + multiset(For(hands, d));
  }

  // When the last worker has left, the actor of a handle has handled all that was sent through it if and
  // only if its forwarder had passed on everything by then.
  lemma AllHandledIffFlushed<S>(c: Config<S>, steps: seq<Step>, s: Pool<S>, step: Step, h: nat)
    requires Run(c, steps, s) && Enabled(s, step) && s.workers != [] && h < |s.net.handles|
    requires !AllExited(s) && AllExited(Apply(c, s, step))
    requires s.net.handles[h].dest in s.members
    ensures var t := Apply(c, s, step);
            && h < |t.net.handles| && t.net.handles[h].dest in t.events
            && (multiset(t.net.handles[h].sent) == Bag(Items(t.events[t.net.handles[h].dest]), h)
                <==> t.net.handles[h].wrapper == [] && t.net.handles[h].hand.None?)
  {
    var t := LastState(c, steps, s, step);
    Conservation(c, steps + [step], t, h);
    hide Apply, Enabled, Inv, Exec, Through, Run, Items;
    InHandsNone(t.workers);
    var a := t.net.handles[h];
    var late := multiset(a.wrapper) + multiset(InHand(a.hand));
    assert Bag([], h) == multiset{} by { NoBag(h); }
    assert multiset(a.sent) == late + Bag(t.settled, h);
    assert |late| == |a.wrapper| + |InHand(a.hand)|;
  }

  lemma NoBag(h: nat)
    ensures Bag([], h) == multiset{}
  {
  }

  lemma LastState<S>(c: Config<S>, steps: seq<Step>, s: Pool<S>, step: Step) returns (t: Pool<S>)
    requires Run(c, steps, s) && Enabled(s, step) && s.workers != []
    requires !AllExited(s) && AllExited(Apply(c, s, step))
    ensures t == Apply(c, s, step) && Run(c, steps + [step], t)
    ensures t.net == s.net && t.net.queue == [] && t.members.Keys == s.members.Keys
  {
    RunInv(c, steps, s);
    LastExit(c, s, step);
    ExecSnoc(c, NewPool<S>(), steps, s, step);
    t := Apply(c, s, step);
    OthersStay(c, s, step);
    if step.Work? {
      WorkEffect(c, s, step.worker);
    }
  }

  lemma {:induction false} InHandsNone<S>(ws: seq<Worker<S>>)
    requires forall w :: 0 <= w < |ws| ==> ws[w].Exited?
    ensures InHands(ws) == []
  {
    if ws != [] {
      InHandsNone(ws[..|ws| - 1]);
    }
  }
}

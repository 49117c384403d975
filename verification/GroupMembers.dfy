// Which actors a thread pool has, and where references to others lead.
module GroupMembers {
  import opened Vocabulary
  import opened GroupModel
  import opened GroupInvariants
  import opened GroupTheorems

  // Handles stay, and keep their destinations.
  ghost predicate Keeps(net: Net, net': Net) {
    && |net.handles| <= |net'.handles|
    && forall h | 0 <= h < |net.handles| :: net'.handles[h].dest == net.handles[h].dest
  }

  lemma MoveKeepsDests(net: Net, t: Traffic)
    requires CanMove(net, t)
    ensures Keeps(net, MoveStep(net, t))
  {
  }

  lemma CallKeepsDests<S>(c: Config<S>, s: Pool<S>, call: Call)
    requires CanCall(s, call)
    ensures Keeps(s.net, CallStep(c, s, call).net)
    ensures !call.Add? ==> CallStep(c, s, call).refs == s.refs
    ensures !call.Add? && !call.BeginStart? ==> CallStep(c, s, call).builder == s.builder
  {
    hide Append;
  }

  lemma WorkKeepsDests<S>(c: Config<S>, s: Pool<S>, w: nat)
    requires Locks(s) && CanWork(s, w)
    ensures Keeps(s.net, WorkStep(c, s, w).net)
    ensures WorkStep(c, s, w).refs == s.refs && WorkStep(c, s, w).builder == s.builder
    ensures WorkStep(c, s, w).started == s.started && WorkStep(c, s, w).members.Keys == s.members.Keys
  {
    hide WorkStep, CanWork;
    WorkEffect(c, s, w);
  }

  // ----- before start()

  function DestOf<S>(s: Pool<S>, k: nat): Option<Name> {
    if k < |s.refs| && s.refs[k] < |s.net.handles| then Some(s.net.handles[s.refs[k]].dest) else None
  }

  // The k-th call of add() was the last one for `d`.
  ghost predicate LastAdd<S>(s: Pool<S>, k: nat, d: Name) {
    k < |s.refs| && DestOf(s, k) == Some(d) && forall j: nat | k < j < |s.refs| :: DestOf(s, j) != Some(d)
  }

  ghost predicate Built<S>(s: Pool<S>) {
    !s.started ==>
      && (forall k: nat | k < |s.refs| :: DestOf(s, k).Some? && DestOf(s, k).value in s.builder)
      && (forall d | d in s.builder :: LastAdd(s, s.builder[d], d))
  }

  lemma SameIsBuilt<S>(s: Pool<S>, t: Pool<S>)
    requires Built(s) && Keeps(s.net, t.net) && t.refs == s.refs && t.builder == s.builder && t.started == s.started
    ensures Built(t)
  {
    assert forall k: nat | DestOf(s, k).Some? :: DestOf(t, k) == DestOf(s, k);
    if !s.started {
      forall d | d in t.builder ensures LastAdd(t, t.builder[d], d) {
        assert LastAdd(s, s.builder[d], d);
      }
    }
  }

  lemma AddKeepsBuilt<S>(c: Config<S>, s: Pool<S>, d: Name)
    requires Shape(c, s) && Built(s) && CanCall(s, Add(d))
    ensures Built(CallStep(c, s, Add(d)))
  {
    var t := CallStep(c, s, Add(d));
    if !s.started {
      assert forall k: nat | k < |s.refs| :: DestOf(t, k) == DestOf(s, k);
      assert DestOf(t, |s.refs|) == Some(d);
      forall e | e in t.builder ensures LastAdd(t, t.builder[e], e) {
        if e != d {
          assert LastAdd(s, s.builder[e], e);
        }
      }
    }
  }

  lemma StepKeepsBuilt<S>(c: Config<S>, s: Pool<S>, step: Step)
    requires Inv(c, s) && Built(s) && Enabled(s, step)
    ensures Built(Apply(c, s, step))
  {
    hide MoveStep, WorkStep, CallStep, CanMove, CanWork, CanCall, Built, Keeps, Queue, Pipes, Guard, Serial, Logs,
      Accounted, Bounded, Alone, Drained, Locks, Shape;
    match step
    case Move(t) =>
      MoveKeepsDests(s.net, t);
      SameIsBuilt(s, Apply(c, s, step));
    case Work(w) =>
      WorkKeepsDests(c, s, w);
      SameIsBuilt(s, WorkStep(c, s, w));
    case Own(call) => CallKeepsBuilt(c, s, call);
  }

  lemma CallKeepsBuilt<S>(c: Config<S>, s: Pool<S>, call: Call)
    requires Shape(c, s) && Built(s) && CanCall(s, call)
    ensures Built(CallStep(c, s, call))
  {
    hide Shape, Keeps;
    if call.Add? {
      AddKeepsBuilt(c, s, call.dest);
    } else if call.BeginStart? {
    } else {
      CallKeepsDests(c, s, call);
      assert CallStep(c, s, call).started == s.started;
      hide CallStep, Built;
      SameIsBuilt(s, CallStep(c, s, call));
    }
  }

  lemma {:induction false} ExecKeepsBuilt<S>(c: Config<S>, s: Pool<S>, steps: seq<Step>, t: Pool<S>)
    requires Inv(c, s) && Built(s) && Exec(c, s, steps) == Some(t)
    ensures Built(t)
    decreases |steps|
  {
    hide Inv, Built, Apply, Enabled;
    if steps != [] {
      StepKeepsInv(c, s, steps[0]);
      StepKeepsBuilt(c, s, steps[0]);
      ExecKeepsBuilt(c, Apply(c, s, steps[0]), steps[1..], t);
    }
  }

  // start() makes members of exactly the names that were added, each with the actor of the last add() for
  // it: a second actor of one name replaces the first.
  lemma LatestIsStarted<S>(c: Config<S>, steps: seq<Step>, s: Pool<S>, d: Name)
    requires Run(c, steps, s) && CanCall(s, BeginStart)
    ensures var t := CallStep(c, s, BeginStart);
            && (d in t.members <==> exists k: nat :: k < |s.refs| && DestOf(s, k) == Some(d))
            && (forall k: nat | LastAdd(s, k, d) ::
                  d in t.members && d in t.events && t.events[d] == [Init(k)]
                  && t.members[d] == c.actors.init(d, c.actors.create(k)))
  {
    RunBuilt(c, steps, s);
    assert !s.started;
    if d in s.builder {
      assert LastAdd(s, s.builder[d], d);
    }
  }

  lemma RunBuilt<S>(c: Config<S>, steps: seq<Step>, s: Pool<S>)
    requires Run(c, steps, s)
    ensures Built(s)
  {
    ExecKeepsBuilt(c, NewPool<S>(), steps, s);
  }

  // ----- after start()

  lemma MembersStay<S>(c: Config<S>, s: Pool<S>, step: Step)
    requires Inv(c, s) && s.started && Enabled(s, step)
    ensures Apply(c, s, step).started && Apply(c, s, step).members.Keys == s.members.Keys
  {
    hide MoveStep, WorkStep, CanMove, CanWork, Queue, Pipes, Guard, Serial, Logs, Accounted, Bounded, Alone, Drained,
      Append;
    if step.Work? {
      WorkKeepsDests(c, s, step.worker);
    }
  }

  // The members are fixed by start(): what is sent to another name, added later or never, is not handled
  // in any continuation.
  lemma {:induction false} LateAddsLeadNowhere<S>(c: Config<S>, s: Pool<S>, steps: seq<Step>, t: Pool<S>)
    requires Inv(c, s) && s.started && Exec(c, s, steps) == Some(t)
    ensures t.started && t.members.Keys == s.members.Keys == t.events.Keys
    decreases |steps|
  {
    hide Inv, Apply, Enabled;
    if steps == [] {
      SameKeys(c, s);
    } else {
      MembersStay(c, s, steps[0]);
      StepKeepsInv(c, s, steps[0]);
      LateAddsLeadNowhere(c, Apply(c, s, steps[0]), steps[1..], t);
    }
  }

  lemma SameKeys<S>(c: Config<S>, s: Pool<S>)
    requires Inv(c, s)
    ensures s.events.Keys == s.members.Keys
  {
  }

  // ----- references

  // Every call of add() returned a handle of its own.
  ghost predicate OwnHandles<S>(s: Pool<S>) {
    && (forall k | 0 <= k < |s.refs| :: s.refs[k] < |s.net.handles|)
    && (forall i, j | 0 <= i < j < |s.refs| :: s.refs[i] < s.refs[j])
  }

  lemma SameOwn<S>(s: Pool<S>, t: Pool<S>)
    requires OwnHandles(s) && t.refs == s.refs && |s.net.handles| <= |t.net.handles|
    ensures OwnHandles(t)
  {
  }

  lemma AddKeepsOwn<S>(c: Config<S>, s: Pool<S>, d: Name)
    requires OwnHandles(s) && CanCall(s, Add(d))
    ensures OwnHandles(CallStep(c, s, Add(d)))
  {
  }

  lemma StepKeepsOwn<S>(c: Config<S>, s: Pool<S>, step: Step)
    requires Inv(c, s) && OwnHandles(s) && Enabled(s, step)
    ensures OwnHandles(Apply(c, s, step))
  {
    hide OwnHandles, MoveStep, WorkStep, CallStep, CanMove, CanWork, CanCall, Queue, Pipes, Guard, Serial, Logs,
      Accounted, Bounded, Alone, Drained, Locks, Shape;
    match step
    case Move(t) =>
      MoveKeepsDests(s.net, t);
      SameOwn(s, Apply(c, s, step));
    case Work(w) =>
      WorkKeepsDests(c, s, w);
      SameOwn(s, WorkStep(c, s, w));
    case Own(call) =>
      CallKeepsDests(c, s, call);
      if call.Add? {
        AddKeepsOwn(c, s, call.dest);
      } else {
        SameOwn(s, CallStep(c, s, call));
      }
  }

  lemma {:induction false} ExecKeepsOwn<S>(c: Config<S>, s: Pool<S>, steps: seq<Step>, t: Pool<S>)
    requires Inv(c, s) && OwnHandles(s) && Exec(c, s, steps) == Some(t)
    ensures OwnHandles(t)
    decreases |steps|
  {
    hide Inv, OwnHandles, Apply, Enabled;
    if steps != [] {
      StepKeepsOwn(c, s, steps[0]);
      StepKeepsInv(c, s, steps[0]);
      ExecKeepsOwn(c, Apply(c, s, steps[0]), steps[1..], t);
    }
  }

  lemma RefsAreDistinct<S>(c: Config<S>, steps: seq<Step>, s: Pool<S>)
    requires Run(c, steps, s)
    ensures OwnHandles(s)
  {
    RunInv(c, [], NewPool<S>());
    hide Inv;
    ExecKeepsOwn(c, NewPool<S>(), steps, s);
  }
}

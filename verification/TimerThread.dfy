// src/timer.rs and the actor of examples/timer_example.rs in their own form: fields that their threads
// change in place.
module TimerThread {
  import opened Vocabulary
  import T = TimerModel

  class Timer {
    const kind: T.Kind
    const id: nat
    var running: bool
    var pc: T.Pc
    var owner: T.Owner
    // history
    var sent: nat
    var sentAfter: nat
    var cancelled: Option<T.Pc>

    function State(): T.Timer
      reads this
    {
      T.Timer(kind, id, running, pc, owner, sent, sentAfter, cancelled)
    }

    constructor Once(id: nat)
      ensures State() == T.NewTimer(T.Once, id)
    {
      this.kind, this.id := T.Once, id;
      running, pc, owner, sent, sentAfter, cancelled := true, T.Asleep, T.Holding, 0, 0, None;
    }

    constructor Periodic(id: nat)
      ensures State() == T.NewTimer(T.Periodic, id)
    {
      this.kind, this.id := T.Periodic, id;
      running, pc, owner, sent, sentAfter, cancelled := true, T.Top, T.Holding, 0, 0, None;
    }

    // The thread goes on to its next access of the flag or to its send.
    method ThreadTurn() returns (fired: Option<Message>)
      requires !pc.Done?
      modifies this
      ensures State() == T.ThreadStep(old(State()))
      ensures fired == if old(pc).Sending? then Some(Timeout(id)) else None
    {
      fired := None;
      match pc {
        case Top => pc := if running then T.Asleep else T.Done;
        case Asleep => pc := T.Awake;
        case Awake => pc := if running then T.Sending else if kind.Once? then T.Done else T.Top;
        case Sending =>
          fired := Some(Timeout(id));
          sent := sent + 1;
          if !running {
            sentAfter := sentAfter + 1;
          }
          pc := if kind.Once? then T.Done else T.Top;
      }
    }

    method Cancel()
      requires !owner.Dropped?
      modifies this
      ensures State() == T.CancelStep(old(State()))
    {
      if running {
        cancelled := Some(pc);
      }
      running := false;
    }

    // drop(): cancel, then join.  It comes to an end, and until then the thread sends one Timeout if
    // it was past its test of the flag and none otherwise.
    method Drop() returns (fired: seq<Message>)
      requires owner.Holding? && (kind.Once? ==> !pc.Top?)
      modifies this
      ensures owner.Dropped? && pc.Done? && !running
      ensures fired == if old(pc).Sending? then [Timeout(id)] else []
      ensures sent == old(sent) + |fired|
    {
      Cancel();
      owner := T.Joining;
      fired := [];
      while !pc.Done?
        invariant !running && owner.Joining?
        invariant if old(pc).Sending? && pc.Sending? then fired == []
                  else !pc.Sending? && fired == if old(pc).Sending? then [Timeout(id)] else []
        invariant sent == old(sent) + |fired|
        decreases T.StepsLeft(State())
      {
        var f := ThreadTurn();
        if f.Some? {
          fired := fired + [f.value];
        }
      }
      owner := T.Dropped;
    }
  }
}

module TimerActorThread {
  import opened Vocabulary
  import T = TimerModel
  import opened TimerActorModel

  class TimerActor {
    const first: nat
    const periodicId: nat
    const countdownId: nat
    var mailbox: seq<Message>
    var timers: seq<T.Timer>
    var periodic: Option<nat>
    var countdown: Option<nat>
    var ticks: nat
    var nextId: nat
    var pc: Pc
    var terminated: bool
    // history
    var booted: bool
    var started: Option<nat>
    var counted: bool
    ghost var trace: seq<Step>

    function State(): System
      reads this
    {
      System(mailbox, timers, periodic, countdown, ticks, periodicId, countdownId, nextId, pc, terminated, booted,
             started, counted)
    }

    // The steps so far are a run of the model that ends in this state.
    ghost predicate Valid()
      reads this
    {
      Exec(NewSystem(first), trace) == Some(State())
    }

    constructor (id: nat)
      ensures Valid() && trace == [] && !booted && !terminated && pc.Idle? && mailbox == [] && started.None?
    {
      first := id;
      mailbox, timers, periodic, countdown, ticks := [], [], None, None, 0;
      periodicId, countdownId, nextId := id, id + 1, id + 2;
      pc, terminated, booted, started, counted := Idle, false, false, None, false;
      trace := [];
    }

    // The Manager's Start.
    method BootUp()
      requires Valid() && !booted
      modifies `mailbox, `booted, `trace
      ensures Valid() && booted && trace == old(trace) + [Boot] && mailbox == old(mailbox) + [Start]
    {
      ghost var s := State();
      mailbox := mailbox + [Start];
      booted := true;
      OneMore(NewSystem(first), trace, s, Boot);
      trace := trace + [Boot];
    }

    // One turn of the thread of timer `k`.
    method ThreadTurn(k: nat)
      requires Valid() && k < |timers| && !timers[k].pc.Done?
      modifies `mailbox, `timers, `trace
      ensures Valid() && trace == old(trace) + [Thread(k)]
      ensures timers == old(timers)[k := T.ThreadStep(old(timers)[k])]
      ensures mailbox == old(mailbox) + if old(timers)[k].pc.Sending? then [Timeout(old(timers)[k].id)] else []
    {
      hide Exec;
      ghost var s := State();
      if timers[k].pc.Sending? {
        mailbox := mailbox + [Timeout(timers[k].id)];
      }
      timers := timers[k := T.ThreadStep(timers[k])];
      assert State() == ThreadStep(s, k);
      OneMore(NewSystem(first), trace, s, Thread(k));
      trace := trace + [Thread(k)];
    }

    // ----- the handlers, as far as the drop of a timer

    method OnStart()
      modifies `timers, `periodic, `countdown, `started
      ensures State() == TimerActorModel.OnStart(old(State()))
    {
      var n := |timers|;
      timers := timers + [T.NewTimer(T.Periodic, periodicId)];
      periodic := Some(n);
      timers := timers + [T.NewTimer(T.Once, countdownId)];
      countdown := Some(n + 1);
      started := Some(n);
    }

    // drop() of timer `k` begins with its cancel().
    method StartDrop(k: nat, which: Which)
      modifies `timers, `pc
      ensures State() == BeginDrop(old(State()), k, which)
    {
      if k < |timers| {
        timers := timers[k := T.CancelStep(timers[k]).(owner := T.Joining)];
        pc := Dropping(k, which);
      }
    }

    method OnTimeout(id: nat)
      modifies `ticks, `counted, `timers, `pc, `periodic, `countdown, `terminated
      ensures State() == TimerActorModel.OnTimeout(old(State()), id)
    {
      if id == periodicId {
        ticks := ticks + 1;
        if ticks >= TICKS {
          if periodic.Some? {
            StartDrop(periodic.value, OfPeriodic);
          } else if countdown.None? {
            terminated := true;
          }
        }
      } else if id == countdownId {
        counted := true;
        if countdown.Some? {
          StartDrop(countdown.value, OfCountdown);
        } else if periodic.None? {
          terminated := true;
        }
      }
    }

    method OnStartCountdown()
      modifies `timers, `nextId, `pc
      ensures State() == TimerActorModel.OnStartCountdown(old(State()))
    {
      pc := Launched(|timers|);
      timers := timers + [T.NewTimer(T.Once, nextId)];
      nextId := nextId + 1;
    }

    // ----- drop() to its end

    // The actor waits in join() until the thread of timer `k` ends; what that still sends waits: one
    // Timeout if it was past its test of the flag, and none otherwise.
    method Join(k: nat)
      requires Valid() && k < |timers| && !timers[k].running && (timers[k].kind.Once? ==> !timers[k].pc.Top?)
      modifies `mailbox, `timers, `trace
      ensures Valid() && k < |timers| == |old(timers)| && timers[k].pc.Done? && timers[k].id == old(timers)[k].id
      ensures timers == old(timers)[k := timers[k]]
      ensures mailbox == old(mailbox) + if old(timers)[k].pc.Sending? then [Timeout(timers[k].id)] else []
    {
      hide Exec;
      while !timers[k].pc.Done?
        invariant Valid() && k < |timers| == |old(timers)| && !timers[k].running && timers == old(timers)[k := timers[k]]
        invariant timers[k].kind == old(timers)[k].kind && timers[k].id == old(timers)[k].id
        invariant if old(timers)[k].pc.Sending? && timers[k].pc.Sending? then mailbox == old(mailbox)
                  else !timers[k].pc.Sending?
                       && mailbox == old(mailbox) + if old(timers)[k].pc.Sending? then [Timeout(timers[k].id)] else []
        decreases T.StepsLeft(timers[k])
      {
        ThreadTurn(k);
      }
    }

    // drop() returns: the field is None again, and terminate() is called if the other one is too.
    method Close(k: nat, which: Which)
      requires Valid() && pc == Dropping(k, which) && k < |timers| && timers[k].pc.Done?
      modifies `timers, `pc, `periodic, `countdown, `terminated, `trace
      ensures Valid() && pc.Idle? && trace == old(trace) + [Joined] && |timers| == |old(timers)|
      ensures forall j | 0 <= j < |timers| :: timers[j].id == old(timers)[j].id
      ensures periodic == (if which.OfPeriodic? then None else old(periodic))
      ensures countdown == (if which.OfCountdown? then None else old(countdown))
      ensures terminated == (old(terminated)
                             || (which.OfPeriodic? && countdown.None?) || (which.OfCountdown? && periodic.None?))
    {
      hide Exec, JoinedStep, PeriodicOver, CountdownOver;
      ghost var s := State();
      JoinedIs(s);
      timers := timers[k := timers[k].(owner := T.Dropped)];
      pc := Idle;
      match which {
        case OfPeriodic =>
          periodic := None;
          if countdown.None? {
            terminated := true;
          }
        case OfCountdown =>
          countdown := None;
          if periodic.None? {
            terminated := true;
          }
        case OfTransient =>
      }
      assert State() == JoinedStep(s);
      OneMore(NewSystem(first), trace, s, Joined);
      trace := trace + [Joined];
    }

    // ----- process_message

    // The head of the mailbox goes to the first handler that fits.
    method Dispatch()
      requires Valid() && pc.Idle? && mailbox != []
      modifies this
      ensures Valid() && trace == old(trace) + [Handle] && State() == HandleStep(old(State()))
    {
      hide Exec, TimerActorModel.OnStart, TimerActorModel.OnTimeout, TimerActorModel.OnStartCountdown;
      ghost var s := State();
      var m := mailbox[0];
      mailbox := mailbox[1..];
      match m {
        case Start => OnStart();
        case Timeout(id) => OnTimeout(id);
        case App(0, _) => OnStartCountdown();
        case _ =>
      }
      assert State() == HandleStep(s);
      OneMore(NewSystem(first), trace, s, Handle);
      trace := trace + [Handle];
    }

    // on_start_countdown() lets go of its new timer, which drops it at once.
    method LetItGo()
      requires Valid() && pc.Launched? && pc.timer < |timers|
      modifies `timers, `pc, `trace
      ensures Valid() && trace == old(trace) + [LetGo] && State() == BeginDrop(old(State()), old(pc.timer), OfTransient)
    {
      hide Exec;
      ghost var s := State();
      StartDrop(pc.timer, OfTransient);
      OneMore(NewSystem(first), trace, s, LetGo);
      trace := trace + [LetGo];
    }

    // A whole handler, with the drop of a timer that it may contain.  terminate() has been called
    // afterwards if and only if ten ticks and the countdown have been handled, now or before.
    method HandleOne()
      requires Valid() && pc.Idle? && mailbox != []
      modifies this
      ensures Valid() && pc.Idle? && Handled(HandleStep(old(State())), State())
      ensures terminated <==> ticks >= 10 && counted
      ensures terminated <==> started.Some? && periodic.None? && countdown.None?
    {
      hide Exec, HandleStep;
      Dispatch();
      ghost var s := State();
      DropCanBegin(first, trace, s);
      if pc.Launched? {
        LetItGo();
      }
      if pc.Dropping? {
        var k, which := pc.timer, pc.which;
        DropCanBegin(first, trace, State());
        Join(k);
        Close(k, which);
        assert forall m | m in mailbox :: m in s.mailbox || m == Timeout(timers[k].id);
      }
      TerminatesIff(first, trace, State());
    }

    // ----- the whole run

    // The Manager's Start, and then the actor and the timer threads: whenever the mailbox is empty, a timer
    // that is still needed goes on.  The run comes to an end: terminate() is called, after ten ticks and
    // the countdown.
    method Play()
      requires Valid() && !booted && started.None? && mailbox == [] && timers == [] && pc.Idle? && !terminated
      modifies this
      ensures Valid() && terminated && ticks >= 10 && counted
    {
      hide Exec, HandleStep, Handled, Playing, Todo, Distance;
      BootUp();
      ghost var s := State();
      HandleOne();
      FirstTurn(first, trace, s, State());
      while !terminated
        invariant Valid() && pc.Idle? && Playing(State()) && (terminated <==> ticks >= TICKS && counted)
        decreases Todo(State()), Distance(State()), |mailbox|
      {
        s := State();
        ghost var t := trace;
        if mailbox != [] {
          HandleOne();
          HandlingDescends(first, t, s, State());
        } else {
          TargetIsAlive(first, trace, s);
          var target := if ticks < TICKS then 0 else 1;
          ThreadTurn(target);
          assert State() == ThreadStep(s, target);
          TurnDescends(first, t, s);
        }
      }
    }
  }

  lemma JoinedIs(s: System)
    requires Enabled(s, Joined)
    ensures var k, which := s.pc.timer, s.pc.which;
            JoinedStep(s)
            == s.(timers := s.timers[k := s.timers[k].(owner := T.Dropped)], pc := Idle,
                  periodic := if which.OfPeriodic? then None else s.periodic,
                  countdown := if which.OfCountdown? then None else s.countdown,
                  terminated := s.terminated || (which.OfPeriodic? && s.countdown.None?)
                                || (which.OfCountdown? && s.periodic.None?))
  {
  }

  // What a handler leaves when it has come to its end, if it stood at `h` before the drop of a timer.
  ghost predicate Handled(h: System, t: System) {
    && t.ticks == h.ticks && t.counted == h.counted && t.started == h.started
    && t.periodicId == h.periodicId && t.countdownId == h.countdownId
    && |t.timers| == |h.timers| && (forall k | 0 <= k < |h.timers| :: t.timers[k].id == h.timers[k].id)
    && (h.pc.Idle? ==> t == h)
    && (forall m | m in t.mailbox :: m in h.mailbox || exists k :: 0 <= k < |t.timers| && m == Timeout(t.timers[k].id))
  }

  lemma DropCanBegin(first: nat, trace: seq<Step>, s: System)
    requires Exec(NewSystem(first), trace) == Some(s)
    ensures s.pc.Launched? ==> s.pc.timer < |s.timers|
    ensures s.pc.Dropping? ==>
              var k := s.pc.timer;
              k < |s.timers| && !s.timers[k].running && (s.timers[k].kind.Once? ==> !s.timers[k].pc.Top?)
  {
    ExecKeepsInv(NewSystem(first), trace, s);
    if s.pc.Dropping? {
      assert T.Inv(s.timers[s.pc.timer]);
    }
  }

  // The example on its own: its two timers, and nothing but their Timeouts.
  predicate Playing(s: System) {
    && s.started == Some(0) && |s.timers| == 2
    && s.timers[0].id == s.periodicId && s.timers[1].id == s.countdownId && s.periodicId != s.countdownId
    && forall m | m in s.mailbox :: m == Timeout(s.periodicId) || m == Timeout(s.countdownId)
  }

  // The Timeouts that are still needed.
  function Todo(s: System): nat {
    (if s.ticks < TICKS then TICKS - s.ticks else 0) + if s.counted then 0 else 1
  }

  // How far away the next of them is.
  function Distance(s: System): nat {
    var (m, k) := if s.ticks < TICKS then (Timeout(s.periodicId), 0) else (Timeout(s.countdownId), 1);
    if m in s.mailbox || k >= |s.timers| then 0
    else
      match s.timers[k].pc
      case Top => 4
      case Asleep => 3
      case Awake => 2
      case _ => 1
  }

  lemma FirstTurn(first: nat, trace: seq<Step>, s: System, t: System)
    requires s.mailbox == [Start] && s.timers == [] && s.pc.Idle? && Handled(HandleStep(s), t)
    requires Exec(NewSystem(first), trace) == Some(t)
    ensures Playing(t)
  {
    ExecKeepsInv(NewSystem(first), trace, t);
  }

  // The handler's own part: the Timeout is counted, or changes nothing but the mailbox.
  lemma TimeoutCounts(s: System)
    requires Playing(s) && s.pc.Idle? && s.mailbox != []
    ensures var h, m := HandleStep(s), s.mailbox[0];
            && h.mailbox == s.mailbox[1..] && h.started == s.started && |h.timers| == 2
            && h.periodicId == s.periodicId && h.countdownId == s.countdownId
            && h.timers[0].id == s.timers[0].id && h.timers[1].id == s.timers[1].id
            && m.Timeout? && (m.id == s.periodicId || m.id == s.countdownId)
            && h.ticks == s.ticks + (if m.id == s.periodicId then 1 else 0)
            && h.counted == (s.counted || m.id == s.countdownId)
            && (m.id == s.periodicId && s.periodic.None? ==> h.timers == s.timers && h.pc.Idle?)
            && (m.id == s.countdownId && s.countdown.None? ==> h.timers == s.timers && h.pc.Idle?)
  {
    var m := s.mailbox[0];
    assert m in s.mailbox;
    assert HandleStep(s) == OnTimeout(s.(mailbox := s.mailbox[1..]), m.id);
    hide HandleStep;
  }

  lemma HandlingDescends(first: nat, trace: seq<Step>, s: System, t: System)
    requires Exec(NewSystem(first), trace) == Some(s)
    requires Playing(s) && s.pc.Idle? && s.mailbox != [] && Handled(HandleStep(s), t)
    requires !(s.ticks >= TICKS && s.counted)
    ensures Playing(t)
    ensures Todo(t) < Todo(s)
            || (Todo(t) == Todo(s) && Distance(t) <= Distance(s) && |t.mailbox| < |s.mailbox|)
  {
    FieldsTell(first, trace, s);
    TimeoutCounts(s);
    var h := HandleStep(s);
    hide HandleStep, Distance;
    StillPlaying(s, h, t);
    if Todo(t) >= Todo(s) {
      assert t == h;
      SameDistance(s, t);
    }
  }

  lemma FieldsTell(first: nat, trace: seq<Step>, s: System)
    requires Exec(NewSystem(first), trace) == Some(s) && s.pc.Idle? && s.started.Some?
    ensures s.periodic.None? <==> s.ticks >= TICKS
    ensures s.countdown.None? <==> s.counted
  {
    ExecKeepsInv(NewSystem(first), trace, s);
    hide Timers, Counts;
  }

  lemma StillPlaying(s: System, h: System, t: System)
    requires Playing(s) && s.mailbox != [] && h.mailbox == s.mailbox[1..] && h.started == s.started && |h.timers| == 2
    requires h.periodicId == s.periodicId && h.countdownId == s.countdownId
    requires h.timers[0].id == s.timers[0].id && h.timers[1].id == s.timers[1].id
    requires Handled(h, t)
    ensures Playing(t)
  {
    forall m | m in t.mailbox ensures m == Timeout(t.periodicId) || m == Timeout(t.countdownId) {
      if m in h.mailbox {
        assert m in s.mailbox;
      }
    }
  }

  // A Timeout that is not needed any more was not the one that is waited for.
  lemma SameDistance(s: System, t: System)
    requires Playing(s) && s.mailbox != [] && t.mailbox == s.mailbox[1..] && t.timers == s.timers
    requires t.periodicId == s.periodicId && t.countdownId == s.countdownId
    requires (s.ticks < TICKS) == (t.ticks < TICKS)
    requires s.mailbox[0] != if s.ticks < TICKS then Timeout(s.periodicId) else Timeout(s.countdownId)
    ensures Distance(t) <= Distance(s)
  {
    var m := if s.ticks < TICKS then Timeout(s.periodicId) else Timeout(s.countdownId);
    assert s.mailbox == [s.mailbox[0]] + s.mailbox[1..];
    assert m in s.mailbox <==> m in t.mailbox;
  }

  // The timer that owes the next Timeout that is needed.
  lemma TargetIsAlive(first: nat, trace: seq<Step>, s: System)
    requires Exec(NewSystem(first), trace) == Some(s)
    requires Playing(s) && s.pc.Idle? && s.mailbox == [] && !(s.ticks >= TICKS && s.counted)
    ensures |s.timers| == 2
    ensures var k := if s.ticks < TICKS then 0 else 1; s.timers[k].running && !s.timers[k].pc.Done?
  {
    ExecKeepsInv(NewSystem(first), trace, s);
    assert T.Inv(s.timers[0]) && T.Inv(s.timers[1]);
  }

  lemma TurnDescends(first: nat, trace: seq<Step>, s: System)
    requires Exec(NewSystem(first), trace) == Some(s)
    requires Playing(s) && s.pc.Idle? && s.mailbox == [] && !(s.ticks >= TICKS && s.counted)
    ensures var k := if s.ticks < TICKS then 0 else 1;
            && !s.timers[k].pc.Done?
            && var t := ThreadStep(s, k);
               Playing(t) && Todo(t) == Todo(s) && Distance(t) < Distance(s)
  {
    TargetIsAlive(first, trace, s);
  }

  lemma {:induction false} OneMore(s: System, steps: seq<Step>, t: System, step: Step)
    requires Exec(s, steps) == Some(t) && Enabled(t, step)
    ensures Exec(s, steps + [step]) == Some(Apply(t, step))
    decreases |steps|
  {
    hide Apply, Enabled;
    if steps == [] {
      assert [step][1..] == [];
      assert Exec(Apply(t, step), []) == Some(Apply(t, step));
    } else {
      assert (steps + [step])[1..] == steps[1..] + [step];
      OneMore(Apply(s, steps[0]), steps[1..], t, step);
    }
  }
}

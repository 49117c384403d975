// The two-timer actor of examples/timer_example.rs together with its mailbox and its timer threads.
module TimerActorModel {
  import opened Vocabulary
  import T = TimerModel

  const TICKS: nat := 10

  // StartCountdown, the only message type of the example's own.
  const START_COUNTDOWN: Message := App(0, 0)

  datatype Which = OfPeriodic | OfCountdown | OfTransient

  // Where the actor's thread is: between handlers, in on_start_countdown with its new timer, or inside
  // drop() of a timer.
  datatype Pc = Idle | Launched(timer: nat) | Dropping(timer: nat, which: Which)

  datatype System = System(
    mailbox: seq<Message>,
    timers: seq<T.Timer>,
    periodic: Option<nat>,
    countdown: Option<nat>,
    ticks: nat,
    periodicId: nat,
    countdownId: nat,
    nextId: nat,
    pc: Pc,
    terminated: bool,
    // history: whether Start has been sent; where on_start put its two timers; whether the countdown
    // has been handled
    booted: bool,
    started: Option<nat>,
    counted: bool)

  // Boot is the Manager's Start; Post is any message from outside other than Start and Timeout.
  datatype Step = Boot | Post(msg: Message) | Handle | LetGo | Joined | Thread(timer: nat)

  // TimerActor::new takes two ids.
  function NewSystem(id: nat): System {
    System([], [], None, None, 0, id, id + 1, id + 2, Idle, false, false, None, false)
  }

  predicate Enabled(s: System, step: Step) {
    match step
    case Boot => !s.booted
    case Post(m) => !m.Start? && !m.Timeout?
    case Handle => s.pc.Idle? && s.mailbox != []
    case LetGo => s.pc.Launched? && s.pc.timer < |s.timers|
    case Joined => s.pc.Dropping? && s.pc.timer < |s.timers| && s.timers[s.pc.timer].pc.Done?
    case Thread(k) => k < |s.timers| && !s.timers[k].pc.Done?
  }

  // drop() of timer `k` begins.
  function BeginDrop(s: System, k: nat, which: Which): System {
    if k < |s.timers| then
      s.(timers := s.timers[k := T.CancelStep(s.timers[k]).(owner := T.Joining)], pc := Dropping(k, which))
    else s
  }

  // The end of the two branches of on_timeout: terminate() if the other timer is done too.
  function PeriodicOver(s: System): System {
    s.(periodic := None, terminated := s.terminated || s.countdown.None?)
  }

  function CountdownOver(s: System): System {
    s.(countdown := None, terminated := s.terminated || s.periodic.None?)
  }

  function OnStart(s: System): System {
    var n := |s.timers|;
    s.(timers := s.timers + [T.NewTimer(T.Periodic, s.periodicId), T.NewTimer(T.Once, s.countdownId)],
       periodic := Some(n), countdown := Some(n + 1), started := Some(n))
  }

  function OnTimeout(s: System, id: nat): System {
    if id == s.periodicId then
      var s' := s.(ticks := s.ticks + 1);
      if s'.ticks < TICKS then s'
      else if s.periodic.Some? then BeginDrop(s', s.periodic.value, OfPeriodic)
      else PeriodicOver(s')
    else if id == s.countdownId then
      var s' := s.(counted := true);
      if s.countdown.Some? then BeginDrop(s', s.countdown.value, OfCountdown)
      else CountdownOver(s')
    else s
  }

  function OnStartCountdown(s: System): System {
    s.(timers := s.timers + [T.NewTimer(T.Once, s.nextId)], nextId := s.nextId + 1, pc := Launched(|s.timers|))
  }

  function HandleStep(s: System): System
    requires Enabled(s, Handle)
  {
    var s' := s.(mailbox := s.mailbox[1..]);
    match s.mailbox[0]
    case Start => OnStart(s')
    case Timeout(id) => OnTimeout(s', id)
    case App(0, _) => OnStartCountdown(s')
    case _ => s'
  }

  function JoinedStep(s: System): System
    requires Enabled(s, Joined)
  {
    var k := s.pc.timer;
    var s' := s.(timers := s.timers[k := s.timers[k].(owner := T.Dropped)], pc := Idle);
    match s.pc.which
    case OfPeriodic => PeriodicOver(s')
    case OfCountdown => CountdownOver(s')
    case OfTransient => s'
  }

  function ThreadStep(s: System, k: nat): System
    requires Enabled(s, Thread(k))
  {
    var t := s.timers[k];
    s.(timers := s.timers[k := T.ThreadStep(t)],
       mailbox := if t.pc.Sending? then s.mailbox + [Timeout(t.id)] else s.mailbox)
  }

  function Apply(s: System, step: Step): System
    requires Enabled(s, step)
  {
    match step
    case Boot => s.(mailbox := s.mailbox + [Start], booted := true)
    case Post(m) => s.(mailbox := s.mailbox + [m])
    case Handle => HandleStep(s)
    case LetGo => BeginDrop(s, s.pc.timer, OfTransient)
    case Joined => JoinedStep(s)
    case Thread(k) => ThreadStep(s, k)
  }

  function Exec(s: System, steps: seq<Step>): Option<System>
    decreases |steps|
  {
    if steps == [] then Some(s)
    else if !Enabled(s, steps[0]) then None
    else Exec(Apply(s, steps[0]), steps[1..])
  }

  // ----- the invariant

  function Count(mailbox: seq<Message>, m: Message): nat {
    if mailbox == [] then 0
    else Count(mailbox[..|mailbox| - 1], m) + if mailbox[|mailbox| - 1] == m then 1 else 0
  }

  predicate Special(s: System, id: nat) {
    id == s.periodicId || id == s.countdownId
  }

  ghost predicate Timers(s: System) {
    && s.periodicId != s.countdownId && s.periodicId < s.nextId && s.countdownId < s.nextId
    && (forall k | 0 <= k < |s.timers| :: T.Inv(s.timers[k]) && s.timers[k].id < s.nextId)
    && (s.started.Some? ==>
          var n := s.started.value;
          && n + 1 < |s.timers|
          && s.timers[n].id == s.periodicId && s.timers[n].kind.Periodic?
          && s.timers[n + 1].id == s.countdownId && s.timers[n + 1].kind.Once?)
    && (forall k | 0 <= k < |s.timers| && Special(s, s.timers[k].id) ::
          s.started.Some? && (k == s.started.value || k == s.started.value + 1))
  }

  // Every Timeout of the two timers is sent once and then waits in the mailbox or has been handled.
  ghost predicate Counts(s: System) {
    && Count(s.mailbox, Start) == (if s.booted && s.started.None? then 1 else 0)
    && (s.started.Some? ==> s.booted)
    && Count(s.mailbox, Timeout(s.periodicId)) + s.ticks
       == (if s.started.Some? && s.started.value < |s.timers| then s.timers[s.started.value].sent else 0)
    && Count(s.mailbox, Timeout(s.countdownId)) + (if s.counted then 1 else 0)
       == (if s.started.Some? && s.started.value + 1 < |s.timers| then s.timers[s.started.value + 1].sent else 0)
  }

  // A timer that is being dropped is the one that the code says.
  predicate OwnerOk(s: System) {
    match s.pc
    case Idle => true
    case Launched(k) =>
      k < |s.timers| && s.timers[k].owner.Holding? && !Special(s, s.timers[k].id)
    case Dropping(k, which) =>
      && k < |s.timers| && s.timers[k].owner.Joining?
      && (which.OfTransient? ==> !Special(s, s.timers[k].id))
      && (!which.OfTransient? ==> s.started.Some? && k == s.started.value + if which.OfPeriodic? then 0 else 1)
  }

  predicate PeriodicBusy(s: System) {
    s.pc.Dropping? && s.pc.which.OfPeriodic?
  }

  predicate CountdownBusy(s: System) {
    s.pc.Dropping? && s.pc.which.OfCountdown?
  }

  // What the fields of the actor say about what it has handled.
  ghost predicate Status(s: System) {
    && (s.started.None? ==> s.periodic.None? && s.countdown.None? && !s.terminated && s.ticks == 0 && !s.counted)
    && (s.started.Some? ==>
          var n := s.started.value;
          && n + 1 < |s.timers|
          && (s.periodic.None? || s.periodic == Some(n)) && (s.countdown.None? || s.countdown == Some(n + 1))
          && (if PeriodicBusy(s) then s.periodic.Some? && s.ticks >= TICKS
              else (s.periodic.None? <==> s.ticks >= TICKS)
                   && (s.periodic.Some? ==> s.timers[n].running && s.timers[n].owner.Holding?))
          && (if CountdownBusy(s) then s.countdown.Some? && s.counted
              else (s.countdown.None? <==> s.counted)
                   && (s.countdown.Some? ==> s.timers[n + 1].running && s.timers[n + 1].owner.Holding?))
          && (s.terminated <==> s.periodic.None? && s.countdown.None?))
  }

  ghost predicate Inv(s: System) {
    Timers(s) && Counts(s) && OwnerOk(s) && Status(s)
  }

  lemma CountSnoc(mailbox: seq<Message>, x: Message, m: Message)
    ensures Count(mailbox + [x], m) == Count(mailbox, m) + if x == m then 1 else 0
  {
    assert (mailbox + [x])[..|mailbox|] == mailbox;
  }

  lemma {:induction false} CountTail(mailbox: seq<Message>, m: Message)
    requires mailbox != []
    ensures Count(mailbox, m) == Count(mailbox[1..], m) + if mailbox[0] == m then 1 else 0
  {
    var n := |mailbox| - 1;
    if n > 0 {
      CountTail(mailbox[..n], m);
      assert mailbox[1..][..n - 1] == mailbox[..n][1..];
    }
  }

  // Timer `k` changes, but not its kind and id.
  predicate Changes(s: System, s': System, k: nat) {
    && k < |s.timers| == |s'.timers| && s'.timers == s.timers[k := s'.timers[k]]
    && s'.timers[k].id == s.timers[k].id && s'.timers[k].kind == s.timers[k].kind
    && s'.started == s.started && s'.booted == s.booted && s'.nextId == s.nextId
    && s'.periodicId == s.periodicId && s'.countdownId == s.countdownId
  }

  lemma ChangeKeepsTimers(s: System, s': System, k: nat)
    requires Timers(s) && Changes(s, s', k) && T.Inv(s'.timers[k])
    ensures Timers(s')
  {
  }

  lemma QuietChangeKeepsCounts(s: System, s': System, k: nat)
    requires Counts(s) && Changes(s, s', k) && s'.timers[k].sent == s.timers[k].sent
    requires s'.mailbox == s.mailbox && s'.ticks == s.ticks && s'.counted == s.counted
    ensures Counts(s')
  {
  }

  // ----- messages and Start from outside

  lemma PostKeepsCounts(s: System, m: Message)
    requires Counts(s) && !m.Timeout? && (m.Start? ==> !s.booted)
    ensures Counts(s.(mailbox := s.mailbox + [m], booted := s.booted || m.Start?))
  {
    CountSnoc(s.mailbox, m, Start);
    CountSnoc(s.mailbox, m, Timeout(s.periodicId));
    CountSnoc(s.mailbox, m, Timeout(s.countdownId));
    hide Count;
  }

  lemma PostKeepsRest(s: System, m: Message, booted: bool)
    requires Timers(s) && OwnerOk(s) && Status(s)
    ensures var s' := s.(mailbox := s.mailbox + [m], booted := booted);
            Timers(s') && OwnerOk(s') && Status(s')
  {
    hide T.Inv;
  }

  lemma PostKeepsInv(s: System, step: Step)
    requires Inv(s) && Enabled(s, step) && (step.Boot? || step.Post?)
    ensures Inv(Apply(s, step))
  {
    hide Timers, OwnerOk, Status, Counts;
    var m := if step.Boot? then Start else step.msg;
    PostKeepsCounts(s, m);
    PostKeepsRest(s, m, s.booted || m.Start?);
  }

  // ----- the timer threads

  // Only the two timers that on_start made have the two ids.
  lemma IdsTell(s: System, k: nat)
    requires Timers(s) && k < |s.timers|
    ensures s.timers[k].id == s.periodicId <==> s.started == Some(k)
    ensures s.timers[k].id == s.countdownId <==> s.started.Some? && s.started.value + 1 == k
    ensures s.started.Some? ==> s.started.value + 1 < |s.timers|
    ensures s.periodicId != s.countdownId
  {
    hide T.Inv;
  }

  lemma SendKeepsCounts(s: System, s': System, k: nat)
    requires Timers(s) && Counts(s) && Changes(s, s', k) && s'.timers[k].sent == s.timers[k].sent + 1
    requires s'.mailbox == s.mailbox + [Timeout(s.timers[k].id)] && s'.ticks == s.ticks && s'.counted == s.counted
    ensures Counts(s')
  {
    hide Timers, Count;
    var id := s.timers[k].id;
    IdsTell(s, k);
    CountSnoc(s.mailbox, Timeout(id), Start);
    CountSnoc(s.mailbox, Timeout(id), Timeout(s.periodicId));
    CountSnoc(s.mailbox, Timeout(id), Timeout(s.countdownId));
  }

  lemma ThreadKeepsCounts(s: System, k: nat)
    requires Timers(s) && Counts(s) && Enabled(s, Thread(k))
    ensures Counts(ThreadStep(s, k))
  {
    hide Timers, Counts;
    if s.timers[k].pc.Sending? {
      SendKeepsCounts(s, ThreadStep(s, k), k);
    } else {
      QuietChangeKeepsCounts(s, ThreadStep(s, k), k);
    }
  }

  lemma ThreadKeepsOwner(t: T.Timer)
    requires T.Inv(t) && !t.pc.Done?
    ensures var t' := T.ThreadStep(t);
            && T.Inv(t') && t'.owner == t.owner && t'.running == t.running && t'.id == t.id && t'.kind == t.kind
  {
  }

  lemma ThreadKeepsInv(s: System, k: nat)
    requires Inv(s) && Enabled(s, Thread(k))
    ensures Inv(ThreadStep(s, k))
  {
    var s' := ThreadStep(s, k);
    ThreadKeepsOwner(s.timers[k]);
    hide T.ThreadStep, T.Inv;
    assert OwnerOk(s') && Status(s');
    hide OwnerOk, Status;
    ChangeKeepsTimers(s, s', k);
    ThreadKeepsCounts(s, k);
  }

  // ----- dropping timers

  lemma DropKeepsTimer(t: T.Timer)
    requires T.Inv(t) && t.owner.Holding?
    ensures T.Inv(T.CancelStep(t).(owner := T.Joining))
  {
  }

  lemma BeginDropKeeps(s: System, k: nat, which: Which)
    requires Timers(s) && Counts(s) && k < |s.timers| && s.timers[k].owner.Holding?
    ensures Timers(BeginDrop(s, k, which)) && Counts(BeginDrop(s, k, which))
  {
    DropKeepsTimer(s.timers[k]);
    ChangeKeepsTimers(s, BeginDrop(s, k, which), k);
    QuietChangeKeepsCounts(s, BeginDrop(s, k, which), k);
  }

  lemma LetGoKeepsInv(s: System)
    requires Inv(s) && Enabled(s, LetGo)
    ensures Inv(Apply(s, LetGo))
  {
    BeginDropKeeps(s, s.pc.timer, OfTransient);
    hide Timers, Counts, T.Inv;
  }

  lemma JoinedKeepsStatus(s: System)
    requires OwnerOk(s) && Status(s) && Enabled(s, Joined)
    ensures OwnerOk(JoinedStep(s)) && Status(JoinedStep(s))
  {
  }

  lemma JoinedKeepsInv(s: System)
    requires Inv(s) && Enabled(s, Joined)
    ensures Inv(JoinedStep(s))
  {
    var s' := JoinedStep(s);
    assert T.Inv(s'.timers[s.pc.timer]);
    JoinedKeepsStatus(s);
    hide Status, T.Inv;
    ChangeKeepsTimers(s, s', s.pc.timer);
    QuietChangeKeepsCounts(s, s', s.pc.timer);
  }

  // ----- the handlers

  // The invariant with the message at the head of the mailbox already taken off.
  ghost predicate Taken(s: System, m: Message) {
    Inv(s.(mailbox := [m] + s.mailbox)) && s.pc.Idle?
  }

  lemma Counted(s: System, m: Message, x: Message)
    ensures Count([m] + s.mailbox, x) == Count(s.mailbox, x) + if m == x then 1 else 0
  {
    assert ([m] + s.mailbox)[1..] == s.mailbox;
    CountTail([m] + s.mailbox, x);
  }

  lemma StartKeepsInv(s: System)
    requires Taken(s, Start)
    ensures Inv(OnStart(s))
  {
    Counted(s, Start, Start);
    Counted(s, Start, Timeout(s.periodicId));
    Counted(s, Start, Timeout(s.countdownId));
    hide Count;
  }

  lemma TickKeepsInv(s: System)
    requires Taken(s, Timeout(s.periodicId))
    ensures Inv(OnTimeout(s, s.periodicId))
  {
    var m := Timeout(s.periodicId);
    Counted(s, m, Start);
    Counted(s, m, m);
    Counted(s, m, Timeout(s.countdownId));
    hide Count, T.Inv;
    var s1 := s.(ticks := s.ticks + 1);
    assert Timers(s1) && Counts(s1);
    if s1.ticks >= TICKS && s.periodic.Some? {
      BeginDropKeeps(s1, s.periodic.value, OfPeriodic);
    }
    hide Timers, Counts;
  }

  lemma CountdownKeepsInv(s: System)
    requires Taken(s, Timeout(s.countdownId))
    ensures Inv(OnTimeout(s, s.countdownId))
  {
    var m := Timeout(s.countdownId);
    Counted(s, m, Start);
    Counted(s, m, m);
    Counted(s, m, Timeout(s.periodicId));
    assert s.started.Some? ==> T.Inv(s.timers[s.started.value + 1]);
    hide Count;
    var s1 := s.(counted := true);
    assert Timers(s1) && Counts(s1);
    if s.countdown.Some? {
      BeginDropKeeps(s1, s.countdown.value, OfCountdown);
    }
    hide Timers, Counts, T.Inv;
  }

  lemma OtherKeepsInv(s: System, m: Message)
    requires Taken(s, m) && !m.Start? && (m.Timeout? ==> !Special(s, m.id))
    ensures Inv(s) && Inv(OnStartCountdown(s))
  {
    Counted(s, m, Start);
    Counted(s, m, Timeout(s.periodicId));
    Counted(s, m, Timeout(s.countdownId));
    hide Count;
    assert Inv(s);
  }

  lemma HandleKeepsInv(s: System)
    requires Inv(s) && Enabled(s, Handle)
    ensures Inv(HandleStep(s))
  {
    var m := s.mailbox[0];
    var s' := s.(mailbox := s.mailbox[1..]);
    assert [m] + s'.mailbox == s.mailbox;
    assert s'.(mailbox := [m] + s'.mailbox) == s;
    assert Taken(s', m);
    hide Inv, Taken, OnStart, OnTimeout, OnStartCountdown;
    if m.Start? {
      StartKeepsInv(s');
    } else if m == Timeout(s.periodicId) {
      TickKeepsInv(s');
    } else if m == Timeout(s.countdownId) {
      CountdownKeepsInv(s');
    } else {
      OtherKeepsInv(s', m);
      if m.Timeout? {
        UnknownId(s', m.id);
      }
    }
  }

  lemma UnknownId(s: System, id: nat)
    requires !Special(s, id)
    ensures OnTimeout(s, id) == s
  {
  }

  lemma StepKeepsInv(s: System, step: Step)
    requires Inv(s) && Enabled(s, step)
    ensures Inv(Apply(s, step))
  {
    hide Inv, HandleStep, JoinedStep, ThreadStep, BeginDrop;
    match step
    case Boot => PostKeepsInv(s, step);
    case Post(_) => PostKeepsInv(s, step);
    case Handle => HandleKeepsInv(s);
    case LetGo => LetGoKeepsInv(s);
    case Joined => JoinedKeepsInv(s);
    case Thread(k) => ThreadKeepsInv(s, k);
  }

  lemma {:induction false} ExecKeepsInv(s: System, steps: seq<Step>, t: System)
    requires Inv(s) && Exec(s, steps) == Some(t)
    ensures Inv(t)
    decreases |steps|
  {
    hide Inv, Apply, Enabled;
    if steps != [] {
      StepKeepsInv(s, steps[0]);
      ExecKeepsInv(Apply(s, steps[0]), steps[1..], t);
    }
  }

  // ----- what follows

  // terminate() has been called if and only if both timer fields are None again after on_start, and,
  // whenever the actor is not inside a drop(), if and only if it has handled at least ten ticks and
  // the countdown.  Before Start it has not.
  lemma TerminatesIff(id: nat, steps: seq<Step>, s: System)
    requires Exec(NewSystem(id), steps) == Some(s)
    ensures s.terminated <==> s.started.Some? && s.periodic.None? && s.countdown.None?
    ensures !s.pc.Dropping? ==> (s.terminated <==> s.ticks >= 10 && s.counted)
  {
    ExecKeepsInv(NewSystem(id), steps, s);
  }

  // The countdown is handled at most once and never lost, and each tick that was sent is handled once
  // or waits.
  lemma NoTimeoutLost(id: nat, steps: seq<Step>, s: System)
    requires Exec(NewSystem(id), steps) == Some(s) && s.started.Some?
    ensures var n := s.started.value;
            && n + 1 < |s.timers|
            && s.ticks + Count(s.mailbox, Timeout(s.periodicId)) == s.timers[n].sent
            && (if s.counted then 1 else 0) + Count(s.mailbox, Timeout(s.countdownId)) == s.timers[n + 1].sent <= 1
  {
    ExecKeepsInv(NewSystem(id), steps, s);
    assert T.Inv(s.timers[s.started.value + 1]);
  }

  lemma {:induction false} CountIn(mailbox: seq<Message>, m: Message)
    requires Count(mailbox, m) > 0
    ensures m in mailbox
  {
    var n := |mailbox| - 1;
    if mailbox[n] != m {
      CountIn(mailbox[..n], m);
    }
  }

  // Until it has called terminate() the actor never gets stuck: in a drop() the timer's thread can
  // still step or join() returns; otherwise a tick or the countdown is in the mailbox, or the timer
  // that owes it is alive, uncancelled, and can step.
  lemma Progress(id: nat, steps: seq<Step>, s: System) returns (step: Step)
    requires Exec(NewSystem(id), steps) == Some(s) && s.started.Some? && !s.terminated
    ensures Enabled(s, step) && !step.Boot? && !step.Post?
    ensures step.Thread? ==> (s.pc.Dropping? && step.timer == s.pc.timer)
                             || (step.timer < |s.timers| && s.timers[step.timer].running
                                 && Special(s, s.timers[step.timer].id))
  {
    ExecKeepsInv(NewSystem(id), steps, s);
    var n := s.started.value;
    if s.pc.Launched? {
      step := LetGo;
    } else if s.pc.Dropping? {
      step := if s.timers[s.pc.timer].pc.Done? then Joined else Thread(s.pc.timer);
    } else if s.ticks < TICKS {
      assert T.Inv(s.timers[n]);
      step := Thread(n);
    } else {
      assert T.Inv(s.timers[n + 1]);
      if s.timers[n + 1].pc.Done? {
        CountIn(s.mailbox, Timeout(s.countdownId));
        step := Handle;
      } else {
        step := Thread(n + 1);
      }
    }
  }

  // ----- the timers of on_start_countdown

  // Every other timer has been dropped, but for the one that the actor is just dropping.
  ghost predicate Transients(s: System) {
    forall k | 0 <= k < |s.timers| && !Special(s, s.timers[k].id) ::
      s.timers[k].owner.Dropped? || ((s.pc.Launched? || s.pc.Dropping?) && s.pc.timer == k)
  }

  lemma StartKeepsTransients(s: System)
    requires Transients(s) && s.pc.Idle?
    ensures Transients(OnStart(s)) && Transients(OnStartCountdown(s))
  {
  }

  lemma TimeoutKeepsTransients(s: System, id: nat)
    requires Transients(s) && s.pc.Idle?
    ensures Transients(OnTimeout(s, id))
  {
  }

  lemma HandleKeepsTransients(s: System)
    requires Transients(s) && Enabled(s, Handle)
    ensures Transients(HandleStep(s))
  {
    var m, s' := s.mailbox[0], s.(mailbox := s.mailbox[1..]);
    assert Transients(s') && s'.pc.Idle?;
    hide Transients, OnStart, OnTimeout, OnStartCountdown;
    if m.Timeout? {
      TimeoutKeepsTransients(s', m.id);
    } else {
      StartKeepsTransients(s');
    }
  }

  lemma StepKeepsTransients(s: System, step: Step)
    requires Transients(s) && Inv(s) && Enabled(s, step)
    ensures Transients(Apply(s, step))
  {
    hide T.Inv, Counts, Status, HandleStep;
    if step.Handle? {
      HandleKeepsTransients(s);
    }
  }

  lemma {:induction false} ExecKeepsTransients(s: System, steps: seq<Step>, t: System)
    requires Inv(s) && Transients(s) && Exec(s, steps) == Some(t)
    ensures Transients(t)
    decreases |steps|
  {
    hide Inv, Transients, Apply, Enabled;
    if steps != [] {
      StepKeepsInv(s, steps[0]);
      StepKeepsTransients(s, steps[0]);
      ExecKeepsTransients(Apply(s, steps[0]), steps[1..], t);
    }
  }

  // The timer of on_start_countdown never outlives the handler: whenever the actor is between handlers,
  // every timer but the two is dropped and its thread at its end, so that it sends nothing any more.
  lemma CountdownsAreDropped(id: nat, steps: seq<Step>, s: System, k: nat)
    requires Exec(NewSystem(id), steps) == Some(s) && s.pc.Idle?
    requires k < |s.timers| && !Special(s, s.timers[k].id)
    ensures s.timers[k].owner.Dropped? && s.timers[k].pc.Done? && !Enabled(s, Thread(k))
  {
    ExecKeepsInv(NewSystem(id), steps, s);
    ExecKeepsTransients(NewSystem(id), steps, s);
    assert T.Inv(s.timers[k]);
  }
}

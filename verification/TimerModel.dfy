// One timer (src/timer.rs): its thread against cancel() and drop() in every interleaving.
module TimerModel {
  import opened Vocabulary

  datatype Kind = Once | Periodic

  // Where the timer thread is: at the loop condition, asleep, about to test the flag after its sleep,
  // past that test and about to send, or at its end.
  datatype Pc = Top | Asleep | Awake | Sending | Done

  // Where the owner of the Timer is: it has it, or is inside drop() waiting in join(), or has dropped
  // it.
  datatype Owner = Holding | Joining | Dropped

  // `sent`, `sentAfter` and `cancelled` are history: the Timeouts sent in all and after the first
  // cancel(), and where the thread was at that moment.
  datatype Timer = Timer(
    kind: Kind,
    id: nat,
    running: bool,
    pc: Pc,
    owner: Owner,
    sent: nat,
    sentAfter: nat,
    cancelled: Option<Pc>)

  datatype Step = Thread | Cancel | Drop | Join

  function NewTimer(kind: Kind, id: nat): Timer {
    Timer(kind, id, true, if kind.Once? then Asleep else Top, Holding, 0, 0, None)
  }

  predicate Enabled(t: Timer, step: Step) {
    match step
    case Thread => !t.pc.Done?
    case Cancel => t.owner.Holding?
    case Drop => t.owner.Holding?
    case Join => t.owner.Joining? && t.pc.Done?
  }

  // One step of the thread.  The sleep is over whenever the schedule says so.
  function ThreadStep(t: Timer): Timer {
    match t.pc
    case Top => t.(pc := if t.running then Asleep else Done)
    case Asleep => t.(pc := Awake)
    case Awake => t.(pc := if t.running then Sending else if t.kind.Once? then Done else Top)
    case Sending =>
      t.(pc := if t.kind.Once? then Done else Top, sent := t.sent + 1,
         sentAfter := t.sentAfter + if t.running then 0 else 1)
    case Done => t
  }

  function CancelStep(t: Timer): Timer {
    t.(running := false, cancelled := if t.running then Some(t.pc) else t.cancelled)
  }

  function Apply(t: Timer, step: Step): Timer
    requires Enabled(t, step)
  {
    match step
    case Thread => ThreadStep(t)
    case Cancel => CancelStep(t)
    case Drop => CancelStep(t).(owner := Joining)
    case Join => t.(owner := Dropped)
  }

  function Exec(t: Timer, steps: seq<Step>): Option<Timer>
    decreases |steps|
  {
    if steps == [] then Some(t)
    else if !Enabled(t, steps[0]) then None
    else Exec(Apply(t, steps[0]), steps[1..])
  }

  predicate Inv(t: Timer) {
    && (t.running <==> t.cancelled.None?)
    && (t.running ==> t.sentAfter == 0)
    && (!t.running ==> t.sentAfter + (if t.pc.Sending? then 1 else 0) == if t.cancelled == Some(Sending) then 1 else 0)
    && (t.kind.Once? ==> !t.pc.Top? && t.sent + (if t.pc.Done? then 0 else 1) <= 1)
    && (t.kind.Once? && t.running ==> t.sent == if t.pc.Done? then 1 else 0)
    && (t.kind.Periodic? && t.running ==> !t.pc.Done?)
    && (!t.owner.Holding? ==> !t.running)
    && (t.owner.Dropped? ==> t.pc.Done?)
  }

  lemma {:induction false} ExecKeepsInv(t: Timer, steps: seq<Step>, t': Timer)
    requires Inv(t) && Exec(t, steps) == Some(t')
    ensures Inv(t') && t'.kind == t.kind && t'.id == t.id && t.sent <= t'.sent
    decreases |steps|
  {
    if steps != [] {
      ExecKeepsInv(Apply(t, steps[0]), steps[1..], t');
    }
  }

  // A one-shot timer sends at most one Timeout.
  lemma OnceSendsOnce(id: nat, steps: seq<Step>, t: Timer)
    requires Exec(NewTimer(Once, id), steps) == Some(t)
    ensures t.sent <= 1
    ensures t.sent == 1 ==> t.pc.Done?
  {
    ExecKeepsInv(NewTimer(Once, id), steps, t);
  }

  // After cancel() a timer sends one more Timeout if its thread was past the test of the flag and
  // had not sent yet, and none otherwise.
  lemma SendsAfterCancelIff(kind: Kind, id: nat, steps: seq<Step>, t: Timer)
    requires Exec(NewTimer(kind, id), steps) == Some(t) && !t.running
    ensures t.sentAfter <= 1
    ensures t.pc.Done? ==> (t.sentAfter == 1 <==> t.cancelled == Some(Sending))
  {
    ExecKeepsInv(NewTimer(kind, id), steps, t);
  }

  // So "no more Timeout after cancel()" is not what it does.
  lemma TimeoutAfterCancel(kind: Kind, id: nat) returns (steps: seq<Step>, t: Timer)
    ensures Exec(NewTimer(kind, id), steps) == Some(t) && t.sentAfter == 1
  {
    var t0 := NewTimer(kind, id);
    var t1 := if kind.Once? then t0 else ThreadStep(t0);
    var t2 := ThreadStep(ThreadStep(t1));
    t := ThreadStep(CancelStep(t2));
    var rest := [Thread, Thread, Cancel, Thread];
    steps := if kind.Once? then rest else [Thread] + rest;
    assert rest[1..] == [Thread, Cancel, Thread] && rest[1..][1..] == [Cancel, Thread];
    assert Exec(CancelStep(t2), [Thread]) == Some(t) by { assert [Thread][1..] == []; }
    assert Exec(t2, [Cancel, Thread]) == Some(t) by { assert [Cancel, Thread][1..] == [Thread]; }
    assert Exec(ThreadStep(t1), [Thread, Cancel, Thread]) == Some(t) by {
      assert [Thread, Cancel, Thread][1..] == [Cancel, Thread];
    }
    assert Exec(t1, rest) == Some(t);
    assert kind.Periodic? ==> steps[1..] == rest;
  }

  // But once drop() has returned the thread is at its end, and nothing more can happen.
  lemma SilentAfterDrop(kind: Kind, id: nat, steps: seq<Step>, t: Timer)
    requires Exec(NewTimer(kind, id), steps) == Some(t) && t.owner.Dropped?
    ensures t.pc.Done? && forall step :: !Enabled(t, step)
  {
    ExecKeepsInv(NewTimer(kind, id), steps, t);
  }

  // How many steps a cancelled thread still takes.
  function StepsLeft(t: Timer): nat {
    match t.pc
    case Done => 0
    case Top => 1
    case Awake => 2
    case Sending => 2
    case Asleep => 3
  }

  // A cancelled thread ends by itself, so drop() always returns.
  lemma CancelledThreadEnds(t: Timer)
    requires Inv(t) && !t.running && !t.pc.Done?
    ensures Enabled(t, Thread) && StepsLeft(ThreadStep(t)) < StepsLeft(t)
  {
  }

  lemma DropReturns(t: Timer)
    requires Inv(t) && t.owner.Joining?
    ensures Enabled(t, Thread) || Enabled(t, Join)
  {
  }

  // ----- timer ids

  const U64: nat := 0x1_0000_0000_0000_0000

  // The value that the k-th call of next_timer_id returns: fetch_add wraps around.
  function IdAt(k: nat): nat {
    if k == 0 then 1 else if IdAt(k - 1) + 1 == U64 then 0 else IdAt(k - 1) + 1
  }

  lemma {:induction false} IdIs(k: nat)
    requires k + 1 < U64
    ensures IdAt(k) == k + 1
  {
    if k > 0 {
      IdIs(k - 1);
    }
  }

  // The ids are unique until the counter has gone round.
  lemma IdsAreUnique(i: nat, j: nat)
    requires i < j && j + 1 < U64
    ensures IdAt(i) != IdAt(j)
  {
    IdIs(i);
    IdIs(j);
  }
}

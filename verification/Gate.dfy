/**
 A counting semaphore over a mutex and a condition variable, used by any number of
 threads. Each section under the lock, each wake-up and each unlocked question is a step.
 */
module Gate {

  /** What one thread is doing with the gate. */
  datatype Caller =
    | Outside
    | Sleeping        // `enter`, waiting on the condition variable
    | Woken           // `enter`, returned from the wait, about to look again
    | Asking          // `enter_until`, about to ask whether to keep waiting
    | Locking         // `enter_until`, told to keep waiting, about to lock
    | TimedSleeping   // `enter_until`, waiting with a timeout
    | Inside          // holds a permit

  datatype State = State(free: nat, callers: seq<Caller>)

  datatype Step =
    | Enter(thread: nat)
    | StartUntil(thread: nat)
    | Ask(thread: nat, keepWaiting: bool)
    | TryLock(thread: nat)
    | Recheck(thread: nat)
    | Wake(thread: nat)                    // spurious wake-up or timeout
    | Leave(thread: nat, notified: nat)    // `notified` is the thread `notify_one` picks, if any sleeps

  predicate Asleep(c: Caller) {
    c.Sleeping? || c.TimedSleeping?
  }

  predicate Awake(c: Caller) {
    c.Woken? || c.Asking? || c.Locking?
  }

  predicate Enabled(s: State, step: Step) {
    step.thread < |s.callers| && var c := s.callers[step.thread];
    match step
    case Enter(_) => c.Outside?
    case StartUntil(_) => c.Outside?
    case Ask(_, _) => c.Asking?
    case TryLock(_) => c.Locking?
    case Recheck(_) => c.Woken?
    case Wake(_) => Asleep(c)
    case Leave(_, j) => c.Inside? && ((exists k :: 0 <= k < |s.callers| && Asleep(s.callers[k])) ==>
                                        j < |s.callers| && Asleep(s.callers[j]))
  }

  function AfterWait(c: Caller): Caller {
    if c.Sleeping? then Woken else Asking
  }

  /** The locked section shared by both ways in. */
  function Section(s: State, i: nat, otherwise: Caller): State
    requires i < |s.callers|
  {
    if s.free != 0 then State(s.free - 1, s.callers[i := Inside]) else s.(callers := s.callers[i := otherwise])
  }

  function Do(s: State, step: Step): State
    requires Enabled(s, step)
  {
    match step
    case Enter(i) => Section(s, i, Sleeping)
    case StartUntil(i) => s.(callers := s.callers[i := Asking])
    case Ask(i, keep) => s.(callers := s.callers[i := if keep then Locking else Outside])
    case TryLock(i) => Section(s, i, TimedSleeping)
    case Recheck(i) => Section(s, i, Sleeping)
    case Wake(i) => s.(callers := s.callers[i := AfterWait(s.callers[i])])
    case Leave(i, j) =>
      var callers := s.callers[i := Outside];
      State(s.free + 1, if j < |callers| && Asleep(callers[j]) then callers[j := AfterWait(callers[j])] else callers)
  }

  // ---------- counting threads ----------

  function Count(callers: seq<Caller>, kind: Caller -> bool): nat {
    if callers == [] then 0 else (if kind(callers[0]) then 1 else 0) + Count(callers[1..], kind)
  }

  lemma {:induction false} CountUpdate(callers: seq<Caller>, i: nat, c: Caller, kind: Caller -> bool)
    requires i < |callers|
    ensures Count(callers[i := c], kind) + (if kind(callers[i]) then 1 else 0)
            == Count(callers, kind) + (if kind(c) then 1 else 0)
  {
    if i > 0 {
      CountUpdate(callers[1..], i - 1, c, kind);
      assert callers[i := c][1..] == callers[1..][i - 1 := c];
    } else {
      assert callers[i := c][1..] == callers[1..];
    }
  }

  lemma {:induction false} CountPositive(callers: seq<Caller>, kind: Caller -> bool)
    ensures Count(callers, kind) > 0 <==> exists i :: 0 <= i < |callers| && kind(callers[i])
  {
    if callers == [] {
    } else {
      CountPositive(callers[1..], kind);
      if i :| 0 <= i < |callers| && kind(callers[i]) {
        if i > 0 {
          assert kind(callers[1..][i - 1]);
        }
      }
      if j :| 0 <= j < |callers[1..]| && kind(callers[1..][j]) {
        assert kind(callers[j + 1]);
      }
    }
  }

  function Admitted(s: State): nat {
    Count(s.callers, (c: Caller) => c.Inside?)
  }

  function Sleepers(s: State): nat {
    Count(s.callers, Asleep)
  }

  function Wakers(s: State): nat {
    Count(s.callers, Awake)
  }

  // ---------- permits ----------

  ghost predicate Initial(s: State, permits: nat) {
    s.free == (if permits == 0 then 1 else permits) && forall i :: 0 <= i < |s.callers| ==> s.callers[i].Outside?
  }

  /** Every step keeps free plus held permits; a cancelled wait changes neither. */
  lemma StepKeepsPermits(s: State, step: Step)
    requires Enabled(s, step)
    ensures Do(s, step).free + Admitted(Do(s, step)) == s.free + Admitted(s)
    ensures step.Ask? ==> Do(s, step).free == s.free && Admitted(Do(s, step)) == Admitted(s)
  {
    var inside := (c: Caller) => c.Inside?;
    CountUpdate(s.callers, step.thread, Do(s, step).callers[step.thread], inside);
    if step.Leave? {
      var callers := s.callers[step.thread := Outside];
      CountUpdate(s.callers, step.thread, Outside, inside);
      if step.notified < |callers| && Asleep(callers[step.notified]) {
        CountUpdate(callers, step.notified, AfterWait(callers[step.notified]), inside);
      }
    }
  }

  // ---------- wake-ups ----------

  /**
   As long as a thread sleeps, every free permit has a thread awake to take it. A sleeper
   with a timeout counts too: it will wake by itself, but nobody need wait for that.
   */
  ghost predicate NoLostWakeup(s: State) {
    Sleepers(s) > 0 ==> Wakers(s) >= s.free
  }

  /** The one branch that can swallow a notification. */
  ghost predicate Swallows(s: State, step: Step) {
    step.Ask? && !step.keepWaiting && Sleepers(s) > 0 && Wakers(s) == s.free
  }

  lemma LeaveWakes(s: State, step: Step)
    requires Enabled(s, step) && step.Leave? && NoLostWakeup(s)
    ensures NoLostWakeup(Do(s, step))
  {
    var i, j := step.thread, step.notified;
    var callers := s.callers[i := Outside];
    CountUpdate(s.callers, i, Outside, Asleep);
    CountUpdate(s.callers, i, Outside, Awake);
    CountPositive(s.callers, Asleep);
    if j < |callers| && Asleep(callers[j]) {
      CountUpdate(callers, j, AfterWait(callers[j]), Asleep);
      CountUpdate(callers, j, AfterWait(callers[j]), Awake);
    }
  }

  /** Exactly: a step loses a wake-up if and only if it is a swallowing cancellation. */
  lemma WakeupLostExactly(s: State, step: Step)
    requires Enabled(s, step) && NoLostWakeup(s)
    ensures NoLostWakeup(Do(s, step)) <==> !Swallows(s, step)
  {
    if step.Leave? {
      LeaveWakes(s, step);
    } else {
      var c := Do(s, step).callers[step.thread];
      CountUpdate(s.callers, step.thread, c, Asleep);
      CountUpdate(s.callers, step.thread, c, Awake);
    }
  }

  // ---------- runs ----------

  ghost predicate IsRun(states: seq<State>, steps: seq<Step>) {
    && |states| == |steps| + 1
    && forall n {:trigger steps[n]} :: 0 <= n < |steps| ==>
         Enabled(states[n], steps[n]) && states[n + 1] == Do(states[n], steps[n])
  }

  lemma {:induction false} NobodyCounts(callers: seq<Caller>, kind: Caller -> bool)
    requires (forall i :: 0 <= i < |callers| ==> callers[i].Outside?) && !kind(Outside)
    ensures Count(callers, kind) == 0
  {
    if callers == [] {
    } else {
      NobodyCounts(callers[1..], kind);
    }
  }

  /** In every run at most max(1, permits) jobs are admitted at once, and no permit is lost. */
  lemma {:induction false} PermitsConserved(states: seq<State>, steps: seq<Step>, permits: nat, n: nat)
    requires IsRun(states, steps) && Initial(states[0], permits) && n < |states|
    ensures states[n].free + Admitted(states[n]) == if permits == 0 then 1 else permits
  {
    if n == 0 {
      NobodyCounts(states[0].callers, (c: Caller) => c.Inside?);
    } else {
      PermitsConserved(states, steps, permits, n - 1);
      assert steps[n - 1] == steps[n - 1];
      StepKeepsPermits(states[n - 1], steps[n - 1]);
    }
  }

  /**
   In a run where no `enter_until` gives up - in particular one of `enter` and
   `enter_owned` only - a sleeping thread and a free permit imply a thread already awake.
   */
  lemma {:induction false} NoWakeupLost(states: seq<State>, steps: seq<Step>, permits: nat, n: nat)
    requires IsRun(states, steps) && Initial(states[0], permits) && n < |states|
    requires forall k :: 0 <= k < |steps| && steps[k].Ask? ==> steps[k].keepWaiting
    ensures NoLostWakeup(states[n])
    ensures Sleepers(states[n]) > 0 && states[n].free > 0 ==>
              exists i :: 0 <= i < |states[n].callers| && Awake(states[n].callers[i])
  {
    if n == 0 {
      NobodyCounts(states[0].callers, Asleep);
    } else {
      NoWakeupLost(states, steps, permits, n - 1);
      assert steps[n - 1] == steps[n - 1];
      WakeupLostExactly(states[n - 1], steps[n - 1]);
    }
    CountPositive(states[n].callers, Awake);
  }

  lemma OneMore(states: seq<State>, steps: seq<Step>, step: Step, next: State)
    returns (states': seq<State>, steps': seq<Step>)
    requires IsRun(states, steps) && Enabled(states[|steps|], step) && next == Do(states[|steps|], step)
    ensures IsRun(states', steps') && states'[0] == states[0] && states'[|steps'|] == next
  {
    states', steps' := states + [next], steps + [step];
  }

  /** The counterexample: a cancelled waiter takes the only notification with it. */
  lemma WakeupCanBeLost() returns (states: seq<State>, steps: seq<Step>)
    ensures IsRun(states, steps) && Initial(states[0], 1)
    ensures states[|steps|] == State(1, [Outside, Sleeping, Outside])
    ensures !NoLostWakeup(states[|steps|])
  {
    states, steps := [State(1, [Outside, Outside, Outside])], [];
    states, steps := OneMore(states, steps, Enter(0), State(0, [Inside, Outside, Outside]));
    states, steps := OneMore(states, steps, Enter(1), State(0, [Inside, Sleeping, Outside]));
    states, steps := OneMore(states, steps, StartUntil(2), State(0, [Inside, Sleeping, Asking]));
    states, steps := OneMore(states, steps, Ask(2, true), State(0, [Inside, Sleeping, Locking]));
    states, steps := OneMore(states, steps, TryLock(2), State(0, [Inside, Sleeping, TimedSleeping]));
    states, steps := OneMore(states, steps, Leave(0, 2), State(1, [Outside, Sleeping, Asking]));
    states, steps := OneMore(states, steps, Ask(2, false), State(1, [Outside, Sleeping, Outside]));
    var last := states[|steps|];
    CountPositive(last.callers, Asleep);
    CountPositive(last.callers, Awake);
    assert Asleep(last.callers[1]);
  }
}

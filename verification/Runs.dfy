/** What holds of every run of the ownership protocol, however its steps interleave. */
module Runs {
  import opened Outcomes
  import opened Gpus
  import opened Protocol
  import opened ProtocolProofs

  ghost predicate IsRun(s: State, steps: seq<Step>)
    decreases |steps|
  {
    steps == [] || (Enabled(s, steps[0]) && IsRun(Do(s, steps[0]), steps[1..]))
  }

  ghost function After(s: State, steps: seq<Step>): State
    requires IsRun(s, steps)
    decreases |steps|
  {
    if steps == [] then s else After(Do(s, steps[0]), steps[1..])
  }

  ghost function Trace(s: State, steps: seq<Step>): (states: seq<State>)
    requires IsRun(s, steps)
    ensures |states| == |steps| + 1 && states[0] == s
    decreases |steps|
  {
    if steps == [] then [s] else [s] + Trace(Do(s, steps[0]), steps[1..])
  }

  /** The same run, with every state it passes written out. */
  ghost predicate Linked(states: seq<State>, steps: seq<Step>) {
    && |states| == |steps| + 1 && Initial(states[0])
    && forall n {:trigger steps[n]} :: 0 <= n < |steps| ==>
         Enabled(states[n], steps[n]) && states[n + 1] == Do(states[n], steps[n])
  }

  /** Every state the run has passed satisfies the invariant. */
  lemma LinkedAt(states: seq<State>, steps: seq<Step>, m: nat)
    requires Linked(states, steps) && m <= |steps|
    ensures Inv(states[m])
  {
    assert Linked(states[..m + 1], steps[..m]) by {
      assert forall k :: 0 <= k < m ==> steps[..m][k] == steps[k];
    }
    LinkedKeeps(states[..m + 1], steps[..m]);
  }

  lemma LinkedPrefix(states: seq<State>, steps: seq<Step>)
    requires Linked(states, steps) && steps != []
    ensures Linked(states[..|steps|], steps[..|steps| - 1])
  {
    var n := |steps| - 1;
    assert forall k :: 0 <= k < n ==> steps[..n][k] == steps[k];
  }

  lemma {:induction false} LinkedKeeps(states: seq<State>, steps: seq<Step>)
    requires Linked(states, steps)
    ensures Inv(states[|steps|])
    decreases |steps|
  {
    var n := |steps| - 1;
    if n < 0 {
      InitialKeeps(states[0]);
    } else {
      LinkedPrefix(states, steps);
      LinkedKeeps(states[..n + 1], steps[..n]);
      assert steps[n] == steps[n];
      StepKeeps(states[n], steps[n]);
    }
  }

  /** From any state it has passed, the rest of the run is a run. */
  lemma {:induction false} LinkedFrom(states: seq<State>, steps: seq<Step>, m: nat)
    requires Linked(states, steps) && m <= |steps|
    ensures IsRun(states[m], steps[m..]) && After(states[m], steps[m..]) == states[|steps|]
    decreases |steps| - m
  {
    if m == |steps| {
      assert steps[m..] == [];
    } else {
      LinkedFrom(states, steps, m + 1);
      assert steps[m] == steps[m] && steps[m..][0] == steps[m] && steps[m..][1..] == steps[m + 1..];
    }
  }

  /** Written out or not, it is the same run and ends in the same state. */
  lemma LinkedIsRun(states: seq<State>, steps: seq<Step>)
    requires Linked(states, steps)
    ensures IsRun(states[0], steps) && After(states[0], steps) == states[|steps|]
  {
    LinkedFrom(states, steps, 0);
    assert steps[0..] == steps;
  }

  lemma LinkedExtends(states: seq<State>, steps: seq<Step>, step: Step)
    requires Linked(states, steps) && Enabled(states[|steps|], step)
    ensures Linked(states + [Do(states[|steps|], step)], steps + [step])
  {
    var more := states + [Do(states[|steps|], step)];
    forall n | 0 <= n < |steps + [step]|
      ensures Enabled(more[n], (steps + [step])[n]) && more[n + 1] == Do(more[n], (steps + [step])[n])
    {
      assert n < |steps| ==> (steps + [step])[n] == steps[n];
    }
  }

  lemma {:induction false} RunKeeps(s: State, steps: seq<Step>)
    requires Inv(s) && IsRun(s, steps)
    ensures Inv(After(s, steps))
    ensures forall state :: state in Trace(s, steps) ==> Inv(state)
    decreases |steps|
  {
    if steps == [] {
    } else {
      StepKeeps(s, steps[0]);
      RunKeeps(Do(s, steps[0]), steps[1..]);
    }
  }

  lemma InitialKeeps(s: State)
    requires Initial(s)
    ensures Inv(s)
  {
  }

  // ---------- safety ----------

  /**
   Nothing is released before the GPU has finished with it: in every reachable state,
   each settled lease's commands had retired, or the device was known lost, at the
   moment of the call; and an aborted lease's commands never reached the queue.
   */
  lemma RetirementSafety(s: State, steps: seq<Step>, k: nat)
    requires Initial(s) && IsRun(s, steps) && k < |After(s, steps).log|
    ensures match After(s, steps).log[k]
            case Completed(l, _, g) => l in g.queued ==> g.queued[l] < g.retired || g.lost.Some?
            case Aborted(l, g) => l !in g.queued
            case Submitted(_, _) => true
  {
    InitialKeeps(s);
    RunKeeps(s, steps);
    assert Justified(After(s, steps).log[k]);
  }

  /**
   Success is validated: `submitted` and `completed(Ok)` only after every error scope of
   every recording submitted together with the lease, and of the submission itself, settled
   without error, and `completed(Ok)` only for commands that reached the queue and retired.
   */
  lemma ValidatedSuccess(s: State, steps: seq<Step>, k: nat)
    requires Initial(s) && IsRun(s, steps) && k < |After(s, steps).log|
    ensures var e := After(s, steps).log[k];
            e.Submitted? || (e.Completed? && e.outcome.Ok?) ==>
              e.lease in e.when.owned
              && forall c :: c in e.when.owned[e.lease] ==> c in e.when.settled && e.when.settled[c].Ok?
    ensures var e := After(s, steps).log[k];
            e.Completed? && e.outcome.Ok? ==>
              e.lease in e.when.queued && e.when.queued[e.lease] < e.when.retired
  {
    InitialKeeps(s);
    RunKeeps(s, steps);
    assert Justified(After(s, steps).log[k]);
  }

  // ---------- the life cycle of a lease ----------

  datatype Hook = OnSubmitted | OnCompleted | OnAborted

  function HookOf(e: Event): Hook {
    match e
    case Submitted(_, _) => OnSubmitted
    case Completed(_, _, _) => OnCompleted
    case Aborted(_, _) => OnAborted
  }

  function Calls(log: seq<Event>, l: Lease, hook: Hook): nat {
    if log == [] then 0
    else
      var last := log[|log| - 1];
      Calls(log[..|log| - 1], l, hook) + (if last.lease == l && HookOf(last) == hook then 1 else 0)
  }

  /** The automaton's verdict in terms of plain call counts. */
  lemma {:induction false} PhaseCounts(log: seq<Event>, l: Lease)
    ensures match PhaseOf(log, l)
            case Recorded => Calls(log, l, OnSubmitted) == Calls(log, l, OnCompleted) == Calls(log, l, OnAborted) == 0
            case Committed =>
              Calls(log, l, OnSubmitted) == 1 && Calls(log, l, OnCompleted) == Calls(log, l, OnAborted) == 0
            case Ended(skipped) =>
              && Calls(log, l, OnCompleted) + Calls(log, l, OnAborted) == 1
              && Calls(log, l, OnSubmitted) + Calls(log, l, OnAborted) <= 1
              && (skipped ==> Calls(log, l, OnCompleted) == 1 && Calls(log, l, OnSubmitted) == 0)
            case Broken => true
  {
    if log == [] {
    } else {
      PhaseCounts(log[..|log| - 1], l);
    }
  }

  /** Unless the automaton says it was skipped, `submitted` comes before `completed(Ok)`. */
  lemma {:induction false} CommittedFirst(log: seq<Event>, l: Lease, k: nat)
    requires k < |log| && log[k].lease == l && log[k].Completed? && log[k].outcome.Ok?
    requires PhaseOf(log, l) != Broken && PhaseOf(log, l) != Ended(true)
    ensures exists j :: 0 <= j < k && log[j].lease == l && log[j].Submitted?
  {
    var n := |log| - 1;
    var before := log[..n];
    if k < n {
      CommittedFirst(before, l, k);
      var j :| 0 <= j < k && before[j].lease == l && before[j].Submitted?;
      assert log[j] == before[j];
    } else {
      SubmittedIsLogged(before, l);
      var j :| 0 <= j < |before| && before[j].lease == l && before[j].Submitted?;
      assert log[j] == before[j];
    }
  }

  lemma {:induction false} SubmittedIsLogged(log: seq<Event>, l: Lease)
    requires PhaseOf(log, l) == Committed
    ensures exists j :: 0 <= j < |log| && log[j].lease == l && log[j].Submitted?
  {
    var n := |log| - 1;
    if log[n].lease != l {
      SubmittedIsLogged(log[..n], l);
      var j :| 0 <= j < n && log[..n][j].lease == l && log[..n][j].Submitted?;
      assert log[j] == log[..n][j];
    } else {
      assert log[n].Submitted?;
    }
  }

  /**
   In every reachable state each lease is settled at most once; it is settled exactly
   once as soon as neither a recording nor the queue holds it; `submitted` is called at
   most once and never together with `aborted`.
   */
  lemma LeaseLifeCycle(s: State, steps: seq<Step>, l: Lease)
    requires Initial(s) && IsRun(s, steps)
    ensures var t := After(s, steps);
            && PhaseOf(t.log, l) != Broken
            && Calls(t.log, l, OnSubmitted) <= 1
            && Calls(t.log, l, OnSubmitted) + Calls(t.log, l, OnAborted) <= 1
            && Calls(t.log, l, OnCompleted) + Calls(t.log, l, OnAborted)
               == (if l in t.stage && !Held(t, l) then 1 else 0)
  {
    InitialKeeps(s);
    RunKeeps(s, steps);
    var t := After(s, steps);
    PhaseCounts(t.log, l);
    assert Placed(t, l);
    if Held(t, l) {
      if w :| w in t.works && l in t.works[w].leases {
        assert LeaseInWork(t, w, t.works[w], l);
      } else {
        var i :| 0 <= i < |t.pending| && l in t.pending[i].leases;
        assert EntryOk(t, t.pending[i]);
        assert LeaseInQueue(t, t.pending[i], l);
      }
    }
  }

  // ---------- when `submitted` can be skipped ----------

  /**
   The pass settles as a success an entry that was accepted, and completed, only after the
   pass had looked for its acceptance.
   */
  ghost predicate SkipsAt(s: State, step: Step, l: Lease) {
    && step.Finish? && step.outcome.Ok? && step.index < |s.pending| && l in s.pending[step.index].leases
    && LookedAt(s, s.pending[step.index])
    && SkippedBetween(s.pending[step.index], s.looked.value.when, s.gpu)
  }

  lemma StepSkips(s: State, step: Step, l: Lease)
    requires Inv(s) && Enabled(s, step)
    ensures PhaseOf(Do(s, step).log, l) == Ended(true) <==> PhaseOf(s.log, l) == Ended(true) || SkipsAt(s, step, l)
  {
    match step
    case Finish(i, outcome) =>
      assert EntryOk(s, s.pending[i]);
      assert s.pending[i] in s.pending;
      FinishSkips(s, i, outcome, l);
    case Abort(w) =>
      assert WorkOk(s, w, s.works[w]);
      AbortSkips(s, w, l);
    case Commit(i) =>
      assert EntryOk(s, s.pending[i]);
      CommitSkips(s, i, l);
    case _ => assert Do(s, step).log == s.log;
  }

  /** An unannounced entry can only succeed if its acceptance came after the pass's look. */
  lemma UnannouncedSuccess(s: State, i: nat)
    requires Focus(s) && Enabled(s, Finish(i, Ok(()))) && EntryOk(s, s.pending[i])
    ensures !s.pending[i].committed ==>
              LookedAt(s, s.pending[i]) && SkippedBetween(s.pending[i], s.looked.value.when, s.gpu)
  {
    var e := s.pending[i];
    assert e in s.pending && LeaseInQueue(s, e, e.leases[0]);
    if !e.committed && ValidationStatus(e.completion, s.looked.value.when).Some? {
      var when := s.looked.value.when;
      VerdictSticks(e.completion.scopes.value, when.settled, s.gpu.settled);
      VerdictAccepts(e.completion.scopes.value, when.settled);
    }
  }

  lemma FinishSkips(s: State, i: nat, outcome: Outcome, l: Lease)
    requires Focus(s) && Enabled(s, Finish(i, outcome)) && EntryOk(s, s.pending[i])
    ensures PhaseOf(FinishEntry(s, i, outcome).log, l) == Ended(true) <==>
            PhaseOf(s.log, l) == Ended(true) || SkipsAt(s, Finish(i, outcome), l)
  {
    FinishPhases(s, i, outcome, l);
    if l in s.pending[i].leases {
      assert LeaseInQueue(s, s.pending[i], l);
      if outcome.Ok? {
        assert outcome == Ok(());
        UnannouncedSuccess(s, i);
      }
    }
  }

  lemma AbortSkips(s: State, w: nat, l: Lease)
    requires Enabled(s, Abort(w)) && WorkOk(s, w, s.works[w])
    ensures PhaseOf(Do(s, Abort(w)).log, l) == Ended(true) <==> PhaseOf(s.log, l) == Ended(true)
  {
    var k := s.works[w];
    PhaseAfter(s.log, AbortedCalls(k.leases, s.gpu), k.leases);
    assert l in k.leases ==> LeaseInWork(s, w, k, l);
  }

  lemma CommitSkips(s: State, i: nat, l: Lease)
    requires Enabled(s, Commit(i)) && EntryOk(s, s.pending[i])
    ensures PhaseOf(Do(s, Commit(i)).log, l) == Ended(true) <==> PhaseOf(s.log, l) == Ended(true)
  {
    var e := s.pending[i];
    PhaseAfter(s.log, SubmittedCalls(e.leases, s.gpu), e.leases);
    assert l in e.leases ==> LeaseInQueue(s, e, l);
  }

  /**
   The exact condition: a run reports success without `submitted` if and only if in some
   pass of it acceptance and completion both became visible after the pass had looked for
   acceptance, and before it looked for completion.
   */
  lemma SkippedExactly(s: State, steps: seq<Step>, l: Lease)
    requires Inv(s) && IsRun(s, steps) && PhaseOf(s.log, l) != Ended(true)
    ensures PhaseOf(After(s, steps).log, l) == Ended(true) <==>
            exists n :: 0 <= n < |steps| && SkipsAt(Trace(s, steps)[n], steps[n], l)
  {
    SkippedOnTheWay(s, steps, l);
    SkipsSomewhere(s, steps, l);
  }

  /** Some step of the run skips the lease. */
  ghost predicate EverSkips(s: State, steps: seq<Step>, l: Lease)
    requires IsRun(s, steps)
    decreases |steps|
  {
    steps != [] && (SkipsAt(s, steps[0], l) || EverSkips(Do(s, steps[0]), steps[1..], l))
  }

  lemma {:induction false} SkippedOnTheWay(s: State, steps: seq<Step>, l: Lease)
    requires Inv(s) && IsRun(s, steps) && PhaseOf(s.log, l) != Ended(true)
    ensures PhaseOf(After(s, steps).log, l) == Ended(true) <==> EverSkips(s, steps, l)
    decreases |steps|
  {
    if steps == [] {
    } else {
      StepKeeps(s, steps[0]);
      StepSkips(s, steps[0], l);
      if SkipsAt(s, steps[0], l) {
        SkipSticks(Do(s, steps[0]), steps[1..], l);
      } else {
        SkippedOnTheWay(Do(s, steps[0]), steps[1..], l);
      }
    }
  }

  lemma {:induction false} SkipsSomewhere(s: State, steps: seq<Step>, l: Lease)
    requires IsRun(s, steps)
    ensures EverSkips(s, steps, l) <==> exists n :: 0 <= n < |steps| && SkipsAt(Trace(s, steps)[n], steps[n], l)
    decreases |steps|
  {
    if steps == [] {
    } else {
      var t, states, rest := Do(s, steps[0]), Trace(s, steps), steps[1..];
      SkipsSomewhere(t, rest, l);
      TraceTail(s, steps);
      if EverSkips(s, steps, l) {
        if SkipsAt(s, steps[0], l) {
          assert SkipsAt(states[0], steps[0], l);
        } else {
          var n :| 0 <= n < |rest| && SkipsAt(Trace(t, rest)[n], rest[n], l);
          assert SkipsAt(states[n + 1], steps[n + 1], l);
        }
      }
      if n :| 0 <= n < |steps| && SkipsAt(states[n], steps[n], l) && n > 0 {
        assert SkipsAt(Trace(t, rest)[n - 1], rest[n - 1], l);
      }
    }
  }

  lemma TraceTail(s: State, steps: seq<Step>)
    requires IsRun(s, steps) && steps != []
    ensures Trace(s, steps)[0] == s
    ensures forall n :: 0 <= n < |steps| ==> Trace(s, steps)[n + 1] == Trace(Do(s, steps[0]), steps[1..])[n]
  {
  }

  lemma {:induction false} SkipSticks(s: State, steps: seq<Step>, l: Lease)
    requires Inv(s) && IsRun(s, steps) && PhaseOf(s.log, l) == Ended(true)
    ensures PhaseOf(After(s, steps).log, l) == Ended(true)
    decreases |steps|
  {
    if steps == [] {
    } else {
      StepKeeps(s, steps[0]);
      StepSkips(s, steps[0], l);
      SkipSticks(Do(s, steps[0]), steps[1..], l);
    }
  }

  // ---------- failures and loss ----------

  /** A recorded failure is never replaced while its entry stays queued. */
  lemma StepKeepsFailures(s: State, step: Step, i: nat, j: nat)
    requires Inv(s) && Enabled(s, step)
    requires i < |s.pending| && j < |Do(s, step).pending|
    requires Do(s, step).pending[j].completion.signal == s.pending[i].completion.signal
    ensures s.pending[i].failure.Some? ==> Do(s, step).pending[j].failure == s.pending[i].failure
    ensures Do(s, step).pending[j].leases == s.pending[i].leases
    ensures s.pending[i].committed ==> Do(s, step).pending[j].committed
  {
    assert InOrder(s.pending) && s.pending[i].completion.signal < s.gpu.nextSignal by {
      assert EntryOk(s, s.pending[i]);
    }
    if step.Finish? {
      FinishShifts(s, step, i, j);
    } else if step.Submit? {
      SubmitAppends(s, step, i, j);
    } else {
      OthersUpdate(s, step, i, j);
    }
  }

  lemma FinishShifts(s: State, step: Step, i: nat, j: nat)
    requires InOrder(s.pending) && Enabled(s, step) && step.Finish?
    requires i < |s.pending| && j < |Do(s, step).pending|
    requires Do(s, step).pending[j].completion.signal == s.pending[i].completion.signal
    ensures Do(s, step).pending[j] == s.pending[i]
  {
    SameEntry(s, i, if j < step.index then j else j + 1);
  }

  lemma SubmitAppends(s: State, step: Step, i: nat, j: nat)
    requires InOrder(s.pending) && Enabled(s, step) && step.Submit?
    requires i < |s.pending| && j < |Do(s, step).pending|
    requires Do(s, step).pending[j].completion.signal == s.pending[i].completion.signal < s.gpu.nextSignal
    ensures Do(s, step).pending[j] == s.pending[i]
  {
    if j < |s.pending| {
      SameEntry(s, i, j);
    }
  }

  lemma OthersUpdate(s: State, step: Step, i: nat, j: nat)
    requires InOrder(s.pending) && Enabled(s, step) && !step.Finish? && !step.Submit?
    requires i < |s.pending| && j < |Do(s, step).pending|
    requires Do(s, step).pending[j].completion.signal == s.pending[i].completion.signal
    ensures s.pending[i].failure.Some? ==> Do(s, step).pending[j].failure == s.pending[i].failure
    ensures Do(s, step).pending[j].leases == s.pending[i].leases
    ensures s.pending[i].committed ==> Do(s, step).pending[j].committed
  {
    assert |Do(s, step).pending| == |s.pending| && Do(s, step).pending[j].completion == s.pending[j].completion;
    SameEntry(s, i, j);
  }

  /** After the owner has observed device loss, every entry it settles is told DeviceLost. */
  lemma {:induction false} LossIsTerminal(s: State, steps: seq<Step>, k: nat)
    requires Inv(s) && s.lossSeen && IsRun(s, steps)
    requires |s.log| <= k < |After(s, steps).log|
    ensures After(s, steps).log[k].Aborted?
            || (After(s, steps).log[k].Completed?
                && After(s, steps).log[k].outcome == Err(DeviceLost(s.gpu.lost.value)))
    decreases |steps|
  {
    var t := Do(s, steps[0]);
    StepKeeps(s, steps[0]);
    assert t.gpu.lost == s.gpu.lost by { LossStays(s, steps[0]); }
    LogGrows(t, steps[1..]);
    if k >= |t.log| {
      LossIsTerminal(t, steps[1..], k);
    } else {
      assert After(s, steps).log[k] == t.log[k];
    }
  }

  lemma LossStays(s: State, step: Step)
    requires Inv(s) && s.lossSeen && Enabled(s, step)
    ensures Do(s, step).lossSeen && Do(s, step).gpu.lost == s.gpu.lost
  {
  }

  lemma {:induction false} LogGrows(s: State, steps: seq<Step>)
    requires IsRun(s, steps)
    ensures s.log <= After(s, steps).log
    decreases |steps|
  {
    if steps == [] {
    } else {
      LogGrows(Do(s, steps[0]), steps[1..]);
    }
  }

  // ---------- monotone observation ----------

  /** An observed outcome is final: later observations can only repeat it. */
  lemma StatusSticks(sub: Submission, g: Gpu, h: Gpu)
    requires Later(g, h) && Status(sub, g).Some?
    ensures Status(sub, h) == Status(sub, g)
  {
    if sub.scopes.Some? {
      VerdictSticks(sub.scopes.value, g.settled, h.settled);
    }
  }

  /** In every run a success was announced first, or is one of the skipped ones. */
  lemma SubmittedFirst(s: State, steps: seq<Step>, k: nat)
    requires Initial(s) && IsRun(s, steps) && k < |After(s, steps).log|
    requires After(s, steps).log[k].Completed? && After(s, steps).log[k].outcome.Ok?
    ensures var log := After(s, steps).log;
            || (exists j :: 0 <= j < k && log[j].lease == log[k].lease && log[j].Submitted?)
            || (exists n :: 0 <= n < |steps| && SkipsAt(Trace(s, steps)[n], steps[n], log[k].lease))
  {
    var log, l := After(s, steps).log, After(s, steps).log[k].lease;
    InitialKeeps(s);
    LeaseLifeCycle(s, steps, l);
    SkippedExactly(s, steps, l);
    if PhaseOf(log, l) != Ended(true) {
      CommittedFirst(log, l, k);
    }
  }

  // ---------- success and loss ----------

  /** Some success of the lease was told although the host had already reported the loss. */
  ghost predicate ToldDespiteLoss(log: seq<Event>, l: Lease) {
    exists k :: 0 <= k < |log| && log[k].lease == l && TellsLost(log[k])
  }

  /** A success, dated after a reported loss. */
  predicate TellsLost(e: Event) {
    e.Completed? && e.outcome.Ok? && e.when.lost.Some?
  }

  /** The owner, not having looked for the loss since it was reported, settles an entry's own success. */
  ghost predicate SucceedsLost(s: State, step: Step, l: Lease) {
    && step.Finish? && step.outcome.Ok? && step.index < |s.pending| && l in s.pending[step.index].leases
    && !s.lossSeen && s.gpu.lost.Some? && s.pending[step.index].failure.None?
  }

  /** Only settling an entry completes leases, one call each. */
  lemma NewCompleted(s: State, step: Step, k: nat)
    requires Enabled(s, step) && |s.log| <= k < |Do(s, step).log|
    ensures Do(s, step).log[k].Completed? ==>
              && step.Finish? && k - |s.log| < |s.pending[step.index].leases|
              && Do(s, step).log[k] == Completed(s.pending[step.index].leases[k - |s.log|], step.outcome, s.gpu)
  {
  }

  lemma StepTellsDespiteLoss(s: State, step: Step, l: Lease)
    requires Enabled(s, step)
    ensures ToldDespiteLoss(Do(s, step).log, l) <==> ToldDespiteLoss(s.log, l) || SucceedsLost(s, step, l)
  {
    var early, log := s.log, Do(s, step).log;
    assert early <= log;
    if ToldDespiteLoss(early, l) {
      var k :| 0 <= k < |early| && early[k].lease == l && TellsLost(early[k]);
      assert log[k] == early[k];
    }
    if SucceedsLost(s, step, l) {
      var m :| 0 <= m < |s.pending[step.index].leases| && s.pending[step.index].leases[m] == l;
      assert log[|early| + m] == Completed(l, step.outcome, s.gpu);
    }
    if k :| 0 <= k < |log| && log[k].lease == l && TellsLost(log[k]) {
      if k < |early| {
        assert log[k] == early[k];
      } else {
        NewCompleted(s, step, k);
      }
    }
  }

  /**
   The exact condition for a success told after a reported loss: the entry succeeded by its
   own signal, and the owner had not looked for the loss since. A dropped callback is never
   forgiven then.
   */
  lemma {:induction false} DespiteLossExactly(s: State, steps: seq<Step>, l: Lease)
    requires Inv(s) && IsRun(s, steps) && !ToldDespiteLoss(s.log, l)
    ensures ToldDespiteLoss(After(s, steps).log, l) <==>
            exists n :: 0 <= n < |steps| && SucceedsLost(Trace(s, steps)[n], steps[n], l)
    decreases |steps|
  {
    if steps == [] {
    } else {
      var t := Do(s, steps[0]);
      var states := Trace(s, steps);
      StepKeeps(s, steps[0]);
      StepTellsDespiteLoss(s, steps[0], l);
      TraceTail(s, steps);
      if SucceedsLost(s, steps[0], l) {
        ToldSticks(t, steps[1..], l);
        assert SucceedsLost(states[0], steps[0], l);
      } else {
        DespiteLossExactly(t, steps[1..], l);
        if n :| 0 <= n < |steps[1..]| && SucceedsLost(Trace(t, steps[1..])[n], steps[1..][n], l) {
          assert SucceedsLost(states[n + 1], steps[n + 1], l);
        }
      }
    }
  }

  lemma ToldSticks(s: State, steps: seq<Step>, l: Lease)
    requires IsRun(s, steps) && ToldDespiteLoss(s.log, l)
    ensures ToldDespiteLoss(After(s, steps).log, l)
  {
    var k :| 0 <= k < |s.log| && s.log[k].lease == l && TellsLost(s.log[k]);
    LogGrows(s, steps);
    assert After(s, steps).log[k] == s.log[k];
  }

  // ---------- backends whose error scopes settle at once ----------

  /** Native error scopes have a verdict as soon as they are popped. */
  predicate Prompt(step: Step) {
    step.Open? || step.Submit? ==> step.scope != Some(None)
  }

  /** Every scope is settled wherever it is, and was when the pass looked; nothing was skipped. */
  ghost predicate Announced(s: State) {
    && (forall w :: w in s.works ==> Verdict(s.works[w].scopes, s.gpu.settled).Some?)
    && (forall e :: e in s.pending ==> ScopesSettled(e.completion, s.gpu))
    && (forall e :: e in s.pending && LookedAt(s, e) ==> ScopesSettled(e.completion, s.looked.value.when))
    && (forall l :: PhaseOf(s.log, l) != Ended(true))
  }

  lemma PromptWorks(s: State, step: Step)
    requires Enabled(s, step) && Prompt(step) && Later(s.gpu, Do(s, step).gpu)
    requires forall w :: w in s.works ==> Verdict(s.works[w].scopes, s.gpu.settled).Some?
    ensures forall w :: w in Do(s, step).works ==> Verdict(Do(s, step).works[w].scopes, Do(s, step).gpu.settled).Some?
  {
    var t := Do(s, step);
    forall w | w in t.works ensures Verdict(t.works[w].scopes, t.gpu.settled).Some? {
      if w in s.works {
        assert Verdict(s.works[w].scopes, s.gpu.settled).Some?;
      }
    }
  }

  /** A pending entry was pending before, or has just been submitted. */
  lemma PendingFrom(s: State, step: Step, j: nat)
    requires Enabled(s, step) && j < |Do(s, step).pending|
    ensures (step.Submit? && j == |s.pending|)
            || exists i :: 0 <= i < |s.pending| && s.pending[i].completion == Do(s, step).pending[j].completion
  {
    if j < |s.pending| || !step.Submit? {
      var i := if step.Finish? && j >= step.index then j + 1 else j;
      assert s.pending[i].completion == Do(s, step).pending[j].completion;
    }
  }

  lemma PromptSubmission(s: State, step: Step)
    requires step.Submit? && Enabled(s, step) && Prompt(step) && Later(s.gpu, Do(s, step).gpu)
    requires Verdict(s.works[step.work].scopes, s.gpu.settled).Some?
    ensures ScopesSettled(Do(s, step).pending[|s.pending|].completion, Do(s, step).gpu)
  {
    var t := SubmitWork(s, step.work, step.launch, step.scope, step.fence);
    var scopes := s.works[step.work].scopes;
    assert t.pending[|s.pending|].completion.scopes == Some(scopes + ScopeList(s.gpu, step.scope));
    forall c | c in ScopeList(s.gpu, step.scope) ensures c in t.gpu.settled {
      SubmitSettles(s.gpu, s.works[step.work], step.launch, step.scope, step.fence);
    }
    assert forall c :: c in scopes ==> c in s.gpu.settled;
  }

  /** A scope popped with a verdict is settled from then on. */
  lemma SubmitSettles(g: Gpu, work: Work, launch: Launch, scope: Option<Option<Outcome>>, fence: Fence)
    requires scope.Some? && scope.value.Some?
    ensures g.nextScope in FenceGpu(LaunchGpu(g, work, launch, scope), fence).settled
  {
  }

  lemma PromptEntries(s: State, step: Step)
    requires Enabled(s, step) && Prompt(step) && Later(s.gpu, Do(s, step).gpu)
    requires step.Submit? ==> Verdict(s.works[step.work].scopes, s.gpu.settled).Some?
    requires forall e :: e in s.pending ==> ScopesSettled(e.completion, s.gpu)
    ensures forall e :: e in Do(s, step).pending ==> ScopesSettled(e.completion, Do(s, step).gpu)
  {
    var t := Do(s, step);
    forall e | e in t.pending ensures ScopesSettled(e.completion, t.gpu) {
      var j :| 0 <= j < |t.pending| && t.pending[j] == e;
      PendingFrom(s, step, j);
      if i :| 0 <= i < |s.pending| && s.pending[i].completion == e.completion {
        assert s.pending[i] in s.pending;
      } else {
        PromptSubmission(s, step);
      }
    }
  }

  lemma PromptLooks(s: State, step: Step)
    requires Inv(s) && Enabled(s, step)
    requires forall e :: e in s.pending ==> ScopesSettled(e.completion, s.gpu)
    requires forall e :: e in s.pending && LookedAt(s, e) ==> ScopesSettled(e.completion, s.looked.value.when)
    ensures var t := Do(s, step);
            forall e :: e in t.pending && LookedAt(t, e) ==> ScopesSettled(e.completion, t.looked.value.when)
  {
    var t := Do(s, step);
    forall e | e in t.pending && LookedAt(t, e) ensures ScopesSettled(e.completion, t.looked.value.when) {
      var j :| 0 <= j < |t.pending| && t.pending[j] == e;
      if j < |s.pending| {
        assert s.pending[j] in s.pending && s.pending[j].completion == e.completion;
      }
    }
  }

  lemma PromptLook(s: State, step: Step, l: Lease)
    requires Inv(s) && Enabled(s, step) && Announced(s)
    ensures !SkipsAt(s, step, l)
  {
    if step.Finish? {
      var e := s.pending[step.index];
      assert e in s.pending && EntryOk(s, e) && LeaseInQueue(s, e, e.leases[0]);
    }
  }

  /** The backend's promptness is all it takes: the passes' own look then sees every acceptance. */
  lemma PromptKeeps(s: State, step: Step)
    requires Inv(s) && Enabled(s, step) && Announced(s) && Prompt(step)
    ensures Announced(Do(s, step))
  {
    StepLater(s, step);
    PromptWorks(s, step);
    PromptEntries(s, step);
    PromptLooks(s, step);
    forall l ensures PhaseOf(Do(s, step).log, l) != Ended(true) {
      StepSkips(s, step, l);
      PromptLook(s, step, l);
    }
  }

  /** On such a backend no run ever skips `submitted`. */
  lemma {:induction false} PromptNeverSkips(s: State, steps: seq<Step>, l: Lease)
    requires Inv(s) && Announced(s) && IsRun(s, steps) && forall step :: step in steps ==> Prompt(step)
    ensures PhaseOf(After(s, steps).log, l) != Ended(true)
    decreases |steps|
  {
    if steps == [] {
    } else {
      assert steps[0] in steps && forall step :: step in steps[1..] ==> step in steps;
      StepKeeps(s, steps[0]);
      PromptKeeps(s, steps[0]);
      PromptNeverSkips(Do(s, steps[0]), steps[1..], l);
    }
  }

  // ---------- hosts on which nothing settles inside a call ----------

  /**
   A browser settles its promises between calls, never inside one: while a pass is visiting an
   entry, no error scope is opened or settles.
   */
  predicate Synchronous(s: State, step: Step) {
    s.looked.Some? ==>
      !step.Open? && !step.Submit? && (step.Evolve? ==> step.later.settled == s.gpu.settled)
  }

  ghost predicate Still(s: State) {
    s.looked.Some? ==> s.looked.value.when.settled == s.gpu.settled
  }

  /** What the pass looked at is what it settles by. */
  lemma SynchronousKeeps(s: State, step: Step)
    requires Inv(s) && Enabled(s, step) && Still(s) && Synchronous(s, step)
    ensures Still(Do(s, step)) && forall l :: !SkipsAt(s, step, l)
  {
    if step.Finish? {
      var e := s.pending[step.index];
      assert EntryOk(s, e) && LeaseInQueue(s, e, e.leases[0]);
    }
  }

  ghost predicate AllSynchronous(s: State, steps: seq<Step>)
    requires IsRun(s, steps)
    decreases |steps|
  {
    steps == [] || (Synchronous(s, steps[0]) && AllSynchronous(Do(s, steps[0]), steps[1..]))
  }

  /** On such a host no run ever skips `submitted`, however late its scopes settle. */
  lemma {:induction false} SynchronousNeverSkips(s: State, steps: seq<Step>, l: Lease)
    requires Inv(s) && Still(s) && IsRun(s, steps) && AllSynchronous(s, steps) && PhaseOf(s.log, l) != Ended(true)
    ensures PhaseOf(After(s, steps).log, l) != Ended(true)
    decreases |steps|
  {
    if steps == [] {
    } else {
      StepKeeps(s, steps[0]);
      SynchronousKeeps(s, steps[0]);
      StepSkips(s, steps[0], l);
      SynchronousNeverSkips(Do(s, steps[0]), steps[1..], l);
    }
  }

  // ---------- the runs that fall short ----------

  /** Nothing submitted, nothing recorded. */
  function Fresh(): State {
    State(Gpu([], 0, map[], map[], map[], map[], map[], 0, 0, None),
          map[], [], false, None, false, 0, {}, None, map[], [])
  }

  /** One lease recorded without scopes, about to be submitted on an idle queue. */
  function OneRecording(): State {
    State(Gpu([], 0, map[], map[], map[], map[7 := {}], map[], 0, 0, None),
          map[0 := Work([42], [7], [])], [], false, None, false, 0, {}, None, map[7 := InWork(0)], [])
  }

  lemma RecordOne()
    ensures Enabled(Fresh(), Open(0, 7, [42], None)) && Do(Fresh(), Open(0, 7, [42], None)) == OneRecording()
  {
    assert (set c: Scope | c in ScopeList(Fresh().gpu, None)) == {};
  }

  /** The same work, launched under a scope with this verdict. */
  lemma LaunchOne(s: State, verdict: Option<Outcome>)
    requires s == OneRecording()
    ensures var t := Do(s, Submit(0, Accepted([]), Some(verdict), Unneeded));
            && !t.lossSeen && t.looked.None?
            && t.pending == [PendingWork(Submission(0, Some([0])), [7], None, None, false)]
            && |t.gpu.stream| == 1 && t.gpu.bound == map[0 := 0] && t.gpu.signals == map[] && t.gpu.lost.None?
            && t.gpu.settled == (if verdict.Some? then map[0 := verdict.value] else map[])
            && t.gpu.nextScope == 1 && t.gpu.nextSignal == 1 && t.gpu.retired == 0
            && t.log == []
  {
    assert [] + [0] == [0];
  }

  lemma RunFrom(s: State, a: Step, rest: seq<Step>)
    requires Enabled(s, a) && IsRun(Do(s, a), rest)
    ensures IsRun(s, [a] + rest) && After(s, [a] + rest) == After(Do(s, a), rest)
  {
    assert ([a] + rest)[1..] == rest;
  }

  /** The entry just launched: neither its scope nor its signal has an answer yet. */
  ghost predicate JustLaunched(s: State) {
    && Inv(s) && !s.lossSeen && s.looked.None?
    && s.pending == [PendingWork(Submission(0, Some([0])), [7], None, None, false)]
    && |s.gpu.stream| == 1 && s.gpu.bound == map[0 := 0] && s.gpu.signals == map[] && s.gpu.lost.None?
    && s.gpu.nextScope == 1 && s.gpu.retired == 0
  }

  lemma ThreeSteps(s: State, a: Step, b: Step, c: Step)
    requires Enabled(s, a) && Enabled(Do(s, a), b) && Enabled(Do(Do(s, a), b), c)
    ensures IsRun(s, [a, b, c]) && After(s, [a, b, c]) == Do(Do(Do(s, a), b), c)
  {
    var t := Do(s, a);
    assert [c] + [] == [c] && [b] + [c] == [b, c] && [a] + [b, c] == [a, b, c];
    RunFrom(Do(t, b), c, []);
    RunFrom(t, b, [c]);
    RunFrom(s, a, [b, c]);
  }

  /** Everything the launched entry waits for arrives at once. */
  function Arrived(g: Gpu): Gpu {
    g.(retired := 1, signals := map[0 := Ok(())], settled := map[0 := Ok(())])
  }

  lemma Arrives(s: State)
    requires JustLaunched(s) && s.gpu.settled == map[]
    ensures Evolves(s.gpu, Arrived(s.gpu)) && SkippedBetween(s.pending[0], s.gpu, Arrived(s.gpu))
    ensures ValidationStatus(s.pending[0].completion, s.gpu).None?
  {
    VerdictAccepts([0], Arrived(s.gpu).settled);
    assert 0 in [0];
  }

  lemma StraddledSkip(s: State)
    requires JustLaunched(s) && s.gpu.settled == map[]
    ensures Enabled(s, Look(0)) && Enabled(Do(s, Look(0)), Evolve(Arrived(s.gpu)))
    ensures SkipsAt(Do(Do(s, Look(0)), Evolve(Arrived(s.gpu))), Finish(0, Ok(())), 7)
    ensures PhaseOf(Do(Do(Do(s, Look(0)), Evolve(Arrived(s.gpu))), Finish(0, Ok(()))).log, 7) == Ended(true)
  {
    Arrives(s);
    var a, second := Do(s, Look(0)), Arrived(s.gpu);
    StepKeeps(s, Look(0));
    StepKeeps(a, Evolve(second));
    StepSkips(Do(a, Evolve(second)), Finish(0, Ok(())), 7);
  }

  /** Both looks of one pass, with acceptance and completion arriving in between. */
  lemma StraddledPass(s: State) returns (steps: seq<Step>, second: Gpu)
    requires JustLaunched(s) && s.gpu.settled == map[]
    ensures IsRun(s, steps) && PhaseOf(After(s, steps).log, 7) == Ended(true)
    ensures Evolves(s.gpu, second) && SkippedBetween(s.pending[0], s.gpu, second)
    ensures steps == [Look(0), Evolve(second), Finish(0, Ok(()))]
  {
    second := Arrived(s.gpu);
    Arrives(s);
    StraddledSkip(s);
    ThreeSteps(s, Look(0), Evolve(second), Finish(0, Ok(())));
    steps := [Look(0), Evolve(second), Finish(0, Ok(()))];
  }

  /** Two observations of one entry may straddle its acceptance: then `submitted` is skipped. */
  lemma SkipHappens() returns (start: State, steps: seq<Step>, l: Lease)
    ensures Initial(start) && IsRun(start, steps) && PhaseOf(After(start, steps).log, l) == Ended(true)
    ensures exists n :: 0 <= n < |steps| && SkipsAt(Trace(start, steps)[n], steps[n], l)
  {
    l := 7;
    start := Fresh();
    var submit := Submit(0, Accepted([]), Some(None), Unneeded);
    RecordOne();
    LaunchOne(OneRecording(), None);
    var s := Do(OneRecording(), submit);
    InitialKeeps(start);
    StepKeeps(start, Open(0, 7, [42], None));
    StepKeeps(OneRecording(), submit);
    var pass, _ := StraddledPass(s);
    RunFrom(OneRecording(), submit, pass);
    RunFrom(start, Open(0, 7, [42], None), [submit] + pass);
    steps := [Open(0, 7, [42], None)] + ([submit] + pass);
    SkippedExactly(start, steps, l);
  }

  /** An accepted entry completes, and the host reports the loss, after the pass's last look for one. */
  lemma LostPass(s: State) returns (steps: seq<Step>)
    requires JustLaunched(s) && s.gpu.settled == map[0 := Ok(())]
    ensures IsRun(s, steps) && ToldDespiteLoss(After(s, steps).log, 7)
  {
    var g := s.gpu.(retired := 1, signals := map[0 := Ok(())], lost := Some("removed"));
    VerdictAccepts([0], s.gpu.settled);
    var a := Do(s, Commit(0));
    var b := Do(a, Evolve(g));
    assert SucceedsLost(b, Finish(0, Ok(())), 7);
    StepTellsDespiteLoss(b, Finish(0, Ok(())), 7);
    ThreeSteps(s, Commit(0), Evolve(g), Finish(0, Ok(())));
    steps := [Commit(0), Evolve(g), Finish(0, Ok(()))];
  }

  /** A lease may be told Ok although the host has reported the loss of the device. */
  lemma LossMissed() returns (start: State, steps: seq<Step>, l: Lease)
    ensures Initial(start) && IsRun(start, steps) && ToldDespiteLoss(After(start, steps).log, l)
  {
    l := 7;
    start := Fresh();
    var submit := Submit(0, Accepted([]), Some(Some(Ok(()))), Unneeded);
    RecordOne();
    LaunchOne(OneRecording(), Some(Ok(())));
    var s := Do(OneRecording(), submit);
    InitialKeeps(start);
    StepKeeps(start, Open(0, 7, [42], None));
    StepKeeps(OneRecording(), submit);
    var pass := LostPass(s);
    RunFrom(OneRecording(), submit, pass);
    RunFrom(start, Open(0, 7, [42], None), [submit] + pass);
    steps := [Open(0, 7, [42], None)] + ([submit] + pass);
  }
}

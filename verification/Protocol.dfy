/**
 The ownership protocol of one submission queue as a state machine. Every step is
 one indivisible action of the owner, of a producer thread, or of the environment;
 its guard is what the code checks, never what it hopes to establish.
 */
module Protocol {
  import opened Outcomes
  import opened Gpus

  /** Commands and their reservations before submission. */
  datatype Work = Work(commands: seq<Command>, leases: seq<Lease>, scopes: seq<Scope>)

  /** A completion signal and the error scopes that must accept the commands. */
  datatype Submission = Submission(signal: Signal, scopes: Option<seq<Scope>>)

  datatype PendingWork = PendingWork(
    completion: Submission,
    leases: seq<Lease>,
    failure: Option<WaitError>,
    recovery: Option<Submission>,
    committed: bool)

  /** A hook call on a lease, with the GPU as the owner last saw it before the call. */
  datatype Event =
    | Submitted(lease: Lease, when: Gpu)
    | Completed(lease: Lease, outcome: Outcome, when: Gpu)
    | Aborted(lease: Lease, when: Gpu)

  datatype Stage = InWork(work: nat) | InQueue(signal: Signal) | Gone

  /** The owner's last look at an entry's acceptance that did not find it accepted. */
  datatype Glance = Glance(signal: Signal, when: Gpu)

  datatype State = State(
    gpu: Gpu,
    works: map<nat, Work>,
    pending: seq<PendingWork>,
    poisoned: bool,
    pollFault: Option<WaitError>,
    lossSeen: bool,
    idle: nat,                  // stream length at the last poll that reported an empty queue
    fenced: set<Signal>,        // failed entries for which a recovery fence was attempted
    looked: Option<Glance>,     // the look of the pass at the unfailed entry it is visiting
    stage: map<Lease, Stage>,   // where each lease ever recorded is held
    log: seq<Event>)

  /** How handing commands to the driver went; `foreign` slipped in before a callback or fence was bound. */
  datatype Launch =
    | Accepted(foreign: seq<seq<Command>>)
    | Unwound(reached: bool, foreign: seq<seq<Command>>, message: string)

  /** How asking for a recovery fence went. */
  datatype Fence =
    | Unneeded
    | Lost
    | Observer(verdict: Option<Outcome>)
    | Queued(foreign: seq<seq<Command>>, verdict: Option<Outcome>)

  datatype Step =
    | Evolve(later: Gpu)
    | Open(work: nat, lease: Lease, commands: seq<Command>, scope: Option<Option<Outcome>>)
    | Append(into: nat, other: nat)
    | Abort(work: nat)
    | Submit(work: nat, launch: Launch, scope: Option<Option<Outcome>>, fence: Fence)
    | Look(index: nat)
    | Commit(index: nat)
    | Fail(index: nat, error: WaitError, fence: Fence)
    | Finish(index: nat, outcome: Outcome)
    | SeeEmpty
    | SeeLoss
    | Fault(error: WaitError)
    | Calm

  // ---------- what a submission reports ----------

  /** Validation first, then the completion signal. */
  function Status(sub: Submission, g: Gpu): Option<Outcome> {
    var signal := if sub.signal in g.signals then Some(g.signals[sub.signal]) else None;
    if sub.scopes.None? then signal
    else
      match Verdict(sub.scopes.value, g.settled)
      case None => None
      case Some(Err(error)) => Some(Err(error))
      case Some(Ok(_)) => signal
  }

  function ValidationStatus(sub: Submission, g: Gpu): Option<Outcome> {
    if sub.scopes.None? then None else Verdict(sub.scopes.value, g.settled)
  }

  predicate ScopesSettled(sub: Submission, g: Gpu) {
    sub.scopes.None? || Verdict(sub.scopes.value, g.settled).Some?
  }

  predicate ValidationsSettled(e: PendingWork, g: Gpu) {
    ScopesSettled(e.completion, g) && (e.recovery.Some? ==> ScopesSettled(e.recovery.value, g))
  }

  predicate RecoveryProved(e: PendingWork, g: Gpu) {
    e.recovery.Some? && Status(e.recovery.value, g) == Some(Ok(()))
  }

  predicate KnownIdle(s: State, e: PendingWork) {
    forall l :: l in e.leases && l in s.gpu.queued ==> s.gpu.queued[l] < s.idle
  }

  // ---------- effects on the environment ----------

  function OpenScope(g: Gpu, scope: Option<Option<Outcome>>): Gpu {
    match scope
    case None => g
    case Some(verdict) =>
      g.(nextScope := g.nextScope + 1,
         settled := if verdict.Some? then g.settled[g.nextScope := verdict.value] else g.settled)
  }

  function ScopeList(g: Gpu, scope: Option<Option<Outcome>>): seq<Scope> {
    if scope.Some? then [g.nextScope] else []
  }

  /** Leases of one work share all of its scopes: submitted together, they are gated together. */
  function Shared(owned: map<Lease, set<Scope>>, work: Work): map<Lease, set<Scope>> {
    owned + (map l | l in work.leases :: set c | c in work.scopes)
  }

  function LaunchGpu(g: Gpu, work: Work, launch: Launch, scope: Option<Option<Outcome>>): Gpu {
    var reached := launch.Accepted? || launch.reached;
    var stream := g.stream + (if reached then [work.commands] else []) + launch.foreign;
    var created := set c | c in ScopeList(g, scope);
    var h := OpenScope(g, scope);
    h.(stream := stream,
       queued := if reached then g.queued + (map l | l in work.leases :: |g.stream|) else g.queued,
       bound := if launch.Accepted? then g.bound[g.nextSignal := |stream| - 1] else g.bound,
       owned := g.owned + (map l | l in work.leases :: (if l in g.owned then g.owned[l] else {}) + created),
       nextSignal := g.nextSignal + 1)
  }

  function FenceGpu(g: Gpu, fence: Fence): Gpu {
    match fence
    case Unneeded => g
    case Lost => g
    case Observer(verdict) => OpenScope(g, Some(verdict)).(nextSignal := g.nextSignal + 1)
    case Queued(foreign, verdict) =>
      var stream := g.stream + [[]] + foreign;
      OpenScope(g, Some(verdict)).(
        stream := stream,
        bound := g.bound[g.nextSignal := |stream| - 1],
        nextSignal := g.nextSignal + 1)
  }

  function FenceSubmission(g: Gpu, fence: Fence): Option<Submission> {
    if fence.Observer? || fence.Queued? then Some(Submission(g.nextSignal, Some([g.nextScope]))) else None
  }

  // ---------- hooks ----------

  function SubmittedCalls(leases: seq<Lease>, g: Gpu): seq<Event> {
    seq(|leases|, i requires 0 <= i < |leases| => Submitted(leases[i], g))
  }

  function CompletedCalls(leases: seq<Lease>, outcome: Outcome, g: Gpu): seq<Event> {
    seq(|leases|, i requires 0 <= i < |leases| => Completed(leases[i], outcome, g))
  }

  function AbortedCalls(leases: seq<Lease>, g: Gpu): seq<Event> {
    seq(|leases|, i requires 0 <= i < |leases| => Aborted(leases[i], g))
  }

  function Restage(stage: map<Lease, Stage>, leases: seq<Lease>, to: Stage): map<Lease, Stage> {
    stage + (map l | l in leases :: to)
  }

  // ---------- guards and effects ----------

  /** The pass that is settling the entry looked at its acceptance, and did not find it. */
  predicate LookedAt(s: State, e: PendingWork) {
    s.looked.Some? && s.looked.value.signal == e.completion.signal
  }

  /** Acceptance became visible only after the first of two observations. */
  predicate SkippedBetween(e: PendingWork, first: Gpu, second: Gpu) {
    && e.failure.None? && !e.committed
    && ValidationStatus(e.completion, first).None? && Status(e.completion, second) == Some(Ok(()))
  }

  /** What the owner must have observed before it settles an entry. */
  predicate Evidence(s: State, e: PendingWork, outcome: Outcome) {
    if s.lossSeen then s.gpu.lost.Some? && outcome == Err(DeviceLost(s.gpu.lost.value))
    else if e.failure.None? then
      outcome == Ok(()) && Status(e.completion, s.gpu) == Some(Ok(())) && (e.committed || LookedAt(s, e))
    else
      && ValidationsSettled(e, s.gpu)
      && (KnownIdle(s, e) || RecoveryProved(e, s.gpu))
      && (|| outcome == Err(e.failure.value)
          || (&& outcome == Ok(()) && e.failure.value.Dropped? && e.committed && s.gpu.lost.None?
              && ValidationStatus(e.completion, s.gpu) == Some(Ok(()))))
  }

  predicate Enabled(s: State, step: Step) {
    match step
    case Evolve(later) => Evolves(s.gpu, later)
    case Open(w, lease, _, _) => w !in s.works && lease !in s.stage
    case Append(into, other) => into in s.works && other in s.works && into != other
    case Abort(w) => w in s.works
    case Submit(w, launch, scope, fence) =>
      w in s.works && !s.poisoned && (launch.Accepted? ==> scope.Some?) && (launch.Unwound? <==> !fence.Unneeded?)
    case Look(i) =>
      i < |s.pending| && var e := s.pending[i];
      !e.committed && e.failure.None? && ValidationStatus(e.completion, s.gpu) != Some(Ok(()))
    case Commit(i) =>
      i < |s.pending| && var e := s.pending[i];
      !s.lossSeen && !e.committed && (e.failure.None? || e.failure.value.Dropped?)
      && ValidationStatus(e.completion, s.gpu) == Some(Ok(()))
    case Fail(i, error, fence) =>
      i < |s.pending| && var e := s.pending[i];
      e.failure.None? && Status(e.completion, s.gpu) == Some(Err(error)) && (fence.Unneeded? ==> KnownIdle(s, e))
    case Finish(i, outcome) => i < |s.pending| && Evidence(s, s.pending[i], outcome)
    case SeeEmpty => s.gpu.retired == |s.gpu.stream|
    case SeeLoss => s.gpu.lost.Some?
    case Fault(_) => true
    case Calm => s.pollFault.None? && !s.lossSeen
  }

  function SubmitWork(s: State, w: nat, launch: Launch, scope: Option<Option<Outcome>>, fence: Fence): State
    requires w in s.works
  {
    var work := s.works[w];
    var signal := s.gpu.nextSignal;
    var g := LaunchGpu(s.gpu, work, launch, scope);
    var failure := if launch.Unwound? then Some(SubmitPanicked(launch.message)) else None;
    var entry := PendingWork(Submission(signal, Some(work.scopes + ScopeList(s.gpu, scope))), work.leases,
                             failure, FenceSubmission(g, fence), false);
    s.(gpu := FenceGpu(g, fence),
       works := s.works - {w},
       pending := s.pending + [entry],
       poisoned := launch.Unwound?,
       fenced := if launch.Unwound? then s.fenced + {signal} else s.fenced,
       stage := Restage(s.stage, work.leases, InQueue(signal)))
  }

  function FinishEntry(s: State, i: nat, outcome: Outcome): State
    requires i < |s.pending|
  {
    s.(pending := s.pending[..i] + s.pending[i + 1..],
       looked := None,
       stage := Restage(s.stage, s.pending[i].leases, Gone),
       log := s.log + CompletedCalls(s.pending[i].leases, outcome, s.gpu))
  }

  function Do(s: State, step: Step): State
    requires Enabled(s, step)
  {
    match step
    case Evolve(later) => s.(gpu := later)
    case Open(w, lease, commands, scope) =>
      var scopes := ScopeList(s.gpu, scope);
      s.(gpu := OpenScope(s.gpu, scope).(owned := s.gpu.owned[lease := set c | c in scopes]),
         works := s.works[w := Work(commands, [lease], scopes)],
         stage := s.stage[lease := InWork(w)])
    case Append(into, other) =>
      var a, b := s.works[into], s.works[other];
      var merged := Work(a.commands + b.commands, a.leases + b.leases, a.scopes + b.scopes);
      s.(gpu := s.gpu.(owned := Shared(s.gpu.owned, merged)),
         works := s.works[into := merged] - {other},
         stage := Restage(s.stage, b.leases, InWork(into)))
    case Abort(w) =>
      var work := s.works[w];
      s.(works := s.works - {w},
         stage := Restage(s.stage, work.leases, Gone),
         log := s.log + AbortedCalls(work.leases, s.gpu))
    case Submit(w, launch, scope, fence) => SubmitWork(s, w, launch, scope, fence)
    case Look(i) => s.(looked := Some(Glance(s.pending[i].completion.signal, s.gpu)))
    case Commit(i) =>
      s.(pending := s.pending[i := s.pending[i].(committed := true)],
         log := s.log + SubmittedCalls(s.pending[i].leases, s.gpu))
    case Fail(i, error, fence) =>
      var e := s.pending[i];
      s.(gpu := FenceGpu(s.gpu, fence),
         pending := s.pending[i := e.(failure := Some(error), recovery := FenceSubmission(s.gpu, fence))],
         poisoned := true,
         looked := None,
         fenced := if fence.Unneeded? then s.fenced else s.fenced + {e.completion.signal})
    case Finish(i, outcome) => FinishEntry(s, i, outcome)
    case SeeEmpty => s.(idle := |s.gpu.stream|)
    case SeeLoss => s.(lossSeen := true, poisoned := true)
    case Fault(error) => s.(pollFault := Some(error), poisoned := true)
    case Calm => s.(poisoned := (exists e :: e in s.pending && e.failure.Some?), looked := None)
  }

  // ---------- the life of a lease, as an automaton over the hook log ----------

  datatype Phase = Recorded | Committed | Ended(skipped: bool) | Broken

  function Advance(p: Phase, e: Event): Phase {
    match (p, e)
    case (Recorded, Submitted(_, _)) => Committed
    case (Recorded, Aborted(_, _)) => Ended(false)
    case (Recorded, Completed(_, outcome, _)) => Ended(outcome.Ok?)
    case (Committed, Completed(_, _, _)) => Ended(false)
    case _ => Broken
  }

  function PhaseOf(log: seq<Event>, l: Lease): Phase {
    if log == [] then Recorded
    else
      var before := PhaseOf(log[..|log| - 1], l);
      var last := log[|log| - 1];
      if last.lease == l then Advance(before, last) else before
  }

  // ---------- the invariant ----------

  /** What every hook call must be able to show, about the GPU at the moment of the call. */
  ghost predicate Justified(e: Event) {
    match e
    case Submitted(l, g) => ScopesAccepted(g, l)
    case Completed(l, outcome, g) =>
      !MayRun(g, l) && (outcome.Ok? ==> l in g.queued && g.queued[l] < g.retired && ScopesAccepted(g, l))
    case Aborted(l, g) => l !in g.queued
  }

  ghost predicate ScopesAccepted(g: Gpu, l: Lease) {
    l in g.owned && forall c :: c in g.owned[l] ==> c in g.settled && g.settled[c].Ok?
  }

  ghost predicate Covers(g: Gpu, s: Signal, at: nat) {
    s in g.bound ==> at <= g.bound[s]
  }

  ghost predicate OwnedExactly(g: Gpu, l: Lease, scopes: seq<Scope>) {
    l in g.owned && forall c :: c in g.owned[l] <==> c in scopes
  }

  ghost predicate LeaseInWork(s: State, w: nat, k: Work, l: Lease) {
    && l in s.stage && s.stage[l] == InWork(w)
    && l !in s.gpu.queued
    && PhaseOf(s.log, l) == Recorded
    && OwnedExactly(s.gpu, l, k.scopes)
  }

  ghost predicate WorkOk(s: State, w: nat, k: Work) {
    k.leases != [] && Distinct(k.leases) && forall l :: l in k.leases ==> LeaseInWork(s, w, k, l)
  }

  ghost predicate LeaseInQueue(s: State, e: PendingWork, l: Lease) {
    && l in s.stage && s.stage[l] == InQueue(e.completion.signal)
    && PhaseOf(s.log, l) == (if e.committed then Committed else Recorded)
    && e.completion.scopes.Some? && OwnedExactly(s.gpu, l, e.completion.scopes.value)
    && (e.failure.None? || e.failure.value.Dropped? ==> l in s.gpu.queued)
    && (l in s.gpu.queued ==>
          && Covers(s.gpu, e.completion.signal, s.gpu.queued[l])
          && (e.recovery.Some? ==> Covers(s.gpu, e.recovery.value.signal, s.gpu.queued[l])))
  }

  ghost predicate EntryOk(s: State, e: PendingWork) {
    && e.leases != [] && Distinct(e.leases)
    && e.completion.signal < s.gpu.nextSignal
    && (e.recovery.Some? ==> e.failure.Some? && e.recovery.value.signal < s.gpu.nextSignal)
    && (e.committed ==> ValidationStatus(e.completion, s.gpu) == Some(Ok(())))
    && (e.failure.Some? ==> s.poisoned && (e.completion.signal in s.fenced || KnownIdle(s, e)))
    && (forall l :: l in e.leases ==> LeaseInQueue(s, e, l))
  }

  ghost predicate InOrder(pending: seq<PendingWork>) {
    forall i, j :: 0 <= i < j < |pending| ==> pending[i].completion.signal < pending[j].completion.signal
  }

  /** Some work or queue entry still owns the lease. */
  ghost predicate Held(s: State, l: Lease) {
    || (exists w :: w in s.works && l in s.works[w].leases)
    || (exists i :: 0 <= i < |s.pending| && l in s.pending[i].leases)
  }

  ghost predicate Placed(s: State, l: Lease) {
    if l in s.stage then
      if s.stage[l].Gone? then PhaseOf(s.log, l).Ended? else Held(s, l)
    else l !in s.gpu.queued && PhaseOf(s.log, l) == Recorded
  }

  /** Every lease is with exactly one owner, in the phase its log shows, and every call was justified. */
  ghost predicate Custody(s: State) {
    && Sound(s.gpu)
    && s.idle <= s.gpu.retired
    && (forall w :: w in s.works ==> WorkOk(s, w, s.works[w]))
    && (forall i :: 0 <= i < |s.pending| ==> EntryOk(s, s.pending[i]))
    && InOrder(s.pending)
    && (forall l :: Placed(s, l))
    && (forall k :: 0 <= k < |s.log| ==> Justified(s.log[k]))
    && (s.pollFault.Some? ==> s.poisoned)
    && (s.lossSeen ==> s.poisoned && s.gpu.lost.Some?)
  }

  /** What the pass did not find accepted when it looked, and has not announced since. */
  ghost predicate Focus(s: State) {
    s.looked.Some? ==>
      && Later(s.looked.value.when, s.gpu) && s.looked.value.signal < s.gpu.nextSignal
      && forall e :: e in s.pending && LookedAt(s, e) && !e.committed ==>
                       ValidationStatus(e.completion, s.looked.value.when) != Some(Ok(()))
  }

  ghost predicate Inv(s: State) {
    Custody(s) && Focus(s)
  }

  ghost predicate Initial(s: State) {
    && Sound(s.gpu) && s.gpu.queued == map[] && s.gpu.owned == map[]
    && s.works == map[] && s.pending == [] && s.stage == map[] && s.log == []
    && s.idle == 0 && s.pollFault.None? && !s.lossSeen && !s.poisoned && s.fenced == {} && s.looked.None?
  }
}

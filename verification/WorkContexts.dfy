/**
 An adopted device/queue pair, and recordings made on it. The context carries the GPU
 as the code can observe it and, as ghost state, the protocol run all owners take part in.
 */
module WorkContexts {
  import opened Outcomes
  import opened Gpus
  import opened Protocol
  import opened ProtocolProofs
  import opened Runs

  /** The lease's commands are in the queue's stream, exactly as recorded. */
  ghost predicate InStream(g: Gpu, l: Lease, commands: seq<Command>) {
    l in g.queued && g.queued[l] < |g.stream| && g.stream[g.queued[l]] == commands
  }

  lemma StreamSticks(g: Gpu, h: Gpu, l: Lease, commands: seq<Command>)
    requires Later(g, h) && InStream(g, l, commands)
    ensures InStream(h, l, commands)
  {
  }

  /** Accepted commands are in the stream under every lease of the work. */
  lemma LaunchReaches(g: Gpu, work: Work, launch: Launch, scope: Option<Option<Outcome>>, l: Lease)
    requires launch.Accepted? && l in work.leases
    ensures InStream(LaunchGpu(g, work, launch, scope), l, work.commands)
  {
  }

  /** Appending changes only who holds the recordings, and which scopes gate them. */
  lemma AppendResult(s: State, into: nat, other: nat)
    requires Enabled(s, Append(into, other))
    ensures var t := Do(s, Append(into, other));
            var a, b := s.works[into], s.works[other];
            var merged := Work(a.commands + b.commands, a.leases + b.leases, a.scopes + b.scopes);
            && SameQueue(s, t) && t.log == s.log && t.works == s.works[into := merged] - {other}
            && t.gpu == s.gpu.(owned := Shared(s.gpu.owned, merged))
  {
  }

  lemma SharedOwns(owned: map<Lease, set<Scope>>, work: Work)
    ensures var shared := Shared(owned, work);
            forall l :: l in work.leases ==> l in shared && shared[l] == set c | c in work.scopes
  {
  }

  /** What submission changes besides the environment. */
  lemma SubmitResult(s: State, w: nat, launch: Launch, scope: Option<Option<Outcome>>, fence: Fence)
    requires w in s.works
    ensures var work := s.works[w];
            var t := SubmitWork(s, w, launch, scope, fence);
            var g := LaunchGpu(s.gpu, work, launch, scope);
            var entry := PendingWork(Submission(s.gpu.nextSignal, Some(work.scopes + ScopeList(s.gpu, scope))),
                                     work.leases,
                                     if launch.Unwound? then Some(SubmitPanicked(launch.message)) else None,
                                     FenceSubmission(g, fence), false);
            t == s.(gpu := FenceGpu(g, fence), works := s.works - {w}, pending := s.pending + [entry],
                    poisoned := launch.Unwound?, fenced := t.fenced, stage := t.stage)
  {
  }

  /** What backends that settle scopes while popping them, and browsers, add to the invariant. */
  ghost predicate Backed(immediate: bool, wasm32: bool, s: State) {
    && (immediate ==> Announced(s))
    && (wasm32 ==> Still(s) && forall l :: PhaseOf(s.log, l) != Ended(true))
  }

  lemma BackedKeeps(immediate: bool, wasm32: bool, s: State, step: Step)
    requires Inv(s) && Enabled(s, step) && Backed(immediate, wasm32, s)
    requires (immediate ==> Prompt(step)) && (wasm32 ==> Synchronous(s, step))
    ensures Backed(immediate, wasm32, Do(s, step))
  {
    if immediate {
      PromptKeeps(s, step);
    }
    if wasm32 {
      SynchronousKeeps(s, step);
      forall l ensures PhaseOf(Do(s, step).log, l) != Ended(true) {
        StepSkips(s, step, l);
      }
    }
  }

  /** Nothing of the queue's own has changed. */
  predicate SameQueue(s: State, t: State) {
    && t.pending == s.pending && t.poisoned == s.poisoned && t.pollFault == s.pollFault && t.lossSeen == s.lossSeen
    && t.idle == s.idle && t.fenced == s.fenced && t.looked == s.looked
  }

  /** What owners ask of the driver, with its answer, and how long they sleep with how much retained. */
  datatype Request =
    | Polled(answer: Result<bool, WaitError>)
    | Launched(launch: Launch, scope: Option<Option<Outcome>>)
    | Fenced(fence: Fence)
    | Slept(slice: nat, retained: nat, poisoned: bool, at: nat)

  /** A rejection is known exactly if the composite answers with it. */
  lemma RejectionKnown(scopes: seq<Scope>, settled: map<Scope, Outcome>)
    ensures var verdict := Verdict(scopes, settled);
            if verdict.Some? && verdict.value.Err?
            then exists c :: c in settled && settled[c] == Err(verdict.value.error)
            else forall i, error :: !FailsAt(scopes, settled, i, error)
    ensures Verdict(scopes, settled).Some? && Verdict(scopes, settled).value.Ok? ==> AllAccept(scopes, settled)
  {
    VerdictMeans(scopes, settled);
    var verdict := Verdict(scopes, settled);
    if verdict.Some? && verdict.value.Err? {
      assert verdict == Some(Err(verdict.value.error));
      var i: nat :| FailsAt(scopes, settled, i, verdict.value.error);
      assert settled[scopes[i]] == Err(verdict.value.error);
    } else if verdict.Some? {
      assert verdict.value.value == ();
    }
  }

  class WorkContext {
    const immediate: bool   // error scopes settle while they are popped
    const wasm32: bool      // a browser: promises settle only between calls, an empty queue is reported without proof
    var gpu: Gpu
    var clock: nat
    ghost var st: State
    ghost var states: seq<State>   // every state of the run so far
    ghost var steps: seq<Step>
    ghost var nextWork: nat
    ghost var requests: seq<Request>   // everything asked so far

    /** The protocol state is the one a run has reached in n steps. */
    ghost predicate ReachedIn(n: nat)
      reads this`st, this`states, this`steps, this`nextWork
    {
      && n == |steps| && Linked(states, steps) && states[n] == st
      && Backed(immediate, wasm32, st)
      && (forall w :: w in st.works ==> w < nextWork)
    }

    /** The trigger keeps the run folded until a proof names `ReachedIn`. */
    ghost predicate OnRun()
      reads this`st, this`states, this`steps, this`nextWork
    {
      forall n {:trigger ReachedIn(n)} :: n == |steps| ==> ReachedIn(n)
    }

    /** Some call of an owner may be under way. */
    ghost predicate Calling()
      reads this
    {
      OnRun() && st.gpu == gpu
    }

    /** Between calls no pass is visiting an entry. */
    ghost predicate Valid()
      reads this
    {
      Calling() && st.looked.None?
    }

    constructor (gpu: Gpu, immediate: bool, wasm32: bool)
      requires Sound(gpu) && gpu.queued == map[] && gpu.owned == map[]
      ensures Valid() && this.gpu == gpu && this.immediate == immediate && this.wasm32 == wasm32
      ensures st.works == map[] && st.pending == [] && st.log == [] && st.stage == map[]
      ensures !st.poisoned && st.pollFault.None? && !st.lossSeen && requests == []
    {
      this.gpu, this.immediate, this.wasm32 := gpu, immediate, wasm32;
      clock, nextWork := 0, 0;
      st := State(gpu, map[], [], false, None, false, 0, {}, None, map[], []);
      states := [State(gpu, map[], [], false, None, false, 0, {}, None, map[], [])];
      steps, requests := [], [];
    }

    /** What every run promises, of the hooks this context has called so far. */
    lemma History(k: nat, l: Lease)
      requires OnRun()
      ensures k < |st.log| && st.log[k].Completed? ==>
                var e := st.log[k];
                && (e.lease in e.when.queued ==> e.when.queued[e.lease] < e.when.retired || e.when.lost.Some?)
                && (e.outcome.Ok? ==> ScopesAccepted(e.when, e.lease)
                                      && e.lease in e.when.queued && e.when.queued[e.lease] < e.when.retired)
      ensures k < |st.log| && st.log[k].Submitted? ==> ScopesAccepted(st.log[k].when, st.log[k].lease)
      ensures k < |st.log| && st.log[k].Aborted? ==> st.log[k].lease !in st.log[k].when.queued
      ensures Calls(st.log, l, OnSubmitted) <= 1
      ensures Calls(st.log, l, OnSubmitted) + Calls(st.log, l, OnAborted) <= 1
      ensures Calls(st.log, l, OnCompleted) + Calls(st.log, l, OnAborted)
              == if l in st.stage && !Held(st, l) then 1 else 0
    {
      assert ReachedIn(|steps|);
      LinkedIsRun(states, steps);
      if k < |st.log| {
        RetirementSafety(states[0], steps, k);
        ValidatedSuccess(states[0], steps, k);
      }
      LeaseLifeCycle(states[0], steps, l);
    }

    /** Once the owner has seen the loss, every lease it tells is told DeviceLost, or was never submitted. */
    lemma AfterLoss(m: nat, k: nat)
      requires OnRun() && m < |states| && states[m].lossSeen && |states[m].log| <= k < |st.log|
      ensures st.log[k].Aborted?
              || (st.log[k].Completed? && states[m].gpu.lost.Some?
                  && st.log[k].outcome == Err(DeviceLost(states[m].gpu.lost.value)))
    {
      assert ReachedIn(|steps|);
      LinkedAt(states, steps, m);
      LinkedFrom(states, steps, m);
      LossIsTerminal(states[m], steps[m..], k);
    }

    /** Where error scopes settle while they are popped, or only between calls, `submitted` is never skipped. */
    lemma NeverSkips(l: Lease)
      requires OnRun() && (immediate || wasm32)
      ensures PhaseOf(st.log, l) != Ended(true)
    {
      assert ReachedIn(|steps|);
    }

    lemma Safe()
      requires OnRun()
      ensures Inv(st)
    {
      assert ReachedIn(|steps|);
      LinkedKeeps(states, steps);
    }

    /** Record one enabled step of the run; nothing else ever changes the protocol state. */
    ghost method Take(step: Step)
      requires OnRun() && Enabled(st, step) && (immediate ==> Prompt(step)) && (wasm32 ==> Synchronous(st, step))
      requires step.Open? ==> step.work < nextWork
      modifies this`st, this`states, this`steps
      ensures OnRun() && st == Do(old(st), step)
      ensures Later(old(st).gpu, st.gpu)
    {
      Safe();
      assert ReachedIn(|steps|);
      StepKeeps(st, step);
      StepLater(st, step);
      BackedKeeps(immediate, wasm32, st, step);
      LinkedExtends(states, steps, step);
      st := Do(st, step);
      states, steps := states + [st], steps + [step];
    }

    /** Let the driver, other threads and the host move before the next observation. */
    method Advance()
      requires Valid()
      modifies this`gpu, this`st, this`states, this`steps
      ensures Valid() && st == old(st).(gpu := gpu) && Evolves(old(gpu), gpu)
    {
      Safe();
      assert Evolves(gpu, gpu);
      var later :| Evolves(gpu, later);
      Take(Evolve(later));
      gpu := later;
    }

    /** The same while a call is under way, when a browser's promises cannot settle. */
    method AdvanceInCall()
      requires Calling()
      modifies this`gpu, this`st, this`states, this`steps
      ensures Calling() && st == old(st).(gpu := gpu) && Evolves(old(gpu), gpu)
      ensures wasm32 ==> gpu.settled == old(gpu).settled
    {
      Safe();
      assert Evolves(gpu, gpu);
      var later :| Evolves(gpu, later) && (wasm32 ==> later.settled == gpu.settled);
      Take(Evolve(later));
      gpu := later;
    }

    /** One nonblocking device poll; Ok carries whether the queue was reported empty. */
    method PollDevice() returns (r: Result<bool, WaitError>)
      requires Valid()
      modifies this`gpu, this`st, this`states, this`steps, this`requests
      ensures Valid() && Evolves(old(gpu), gpu) && requests == old(requests) + [Polled(r)]
      ensures r.Err? ==> (r.error.Poll? || r.error.PollPanicked?) && st == old(st).(gpu := gpu)
      ensures r.Ok? ==> st == old(st).(gpu := gpu, idle := st.idle)
      ensures r.Ok? && r.value && !wasm32 ==> forall l :: l in gpu.queued ==> gpu.queued[l] < st.idle
      ensures old(st).idle <= st.idle
    {
      Safe();
      Advance();
      Safe();
      var kind: nat, message: string, empty: bool := *, *, *;
      if kind == 0 {
        r := Err(Poll(message));
      } else if kind == 1 {
        r := Err(PollPanicked(message));
      } else {
        if !wasm32 && gpu.retired != |gpu.stream| {
          empty := false;
        }
        if empty && !wasm32 {
          Take(SeeEmpty);
        }
        r := Ok(empty);
      }
      requests := requests + [Polled(r)];
    }

    /** Hand commands to the driver under an error scope; it may unwind before or after they reached the queue. */
    method Drive() returns (launch: Launch, scope: Option<Option<Outcome>>)
      modifies this`requests
      ensures requests == old(requests) + [Launched(launch, scope)]
      ensures (launch.Accepted? ==> scope.Some?) && (immediate ==> scope != Some(None))
    {
      var unwound: bool, reached: bool, popped: bool, message: string := *, *, *, *;
      var foreign: seq<seq<Command>> := *;
      scope := None;
      if !unwound || popped {
        var verdict := PopScope();
        scope := Some(verdict);
      }
      launch := if unwound then Unwound(reached, foreign, message) else Accepted(foreign);
      requests := requests + [Launched(launch, scope)];
    }

    /** Ask for a fence; the driver may unwind, refuse it, or queue it behind everything so far. */
    method AskFence() returns (fence: Fence)
      modifies this`requests
      ensures !fence.Unneeded? && requests == old(requests) + [Fenced(fence)]
    {
      var unwound: bool, rejected: bool, foreign: seq<seq<Command>> := *, *, *;
      if unwound {
        fence := Lost;
      } else {
        var verdict := PopScope();
        fence := if rejected then Observer(verdict) else Queued(foreign, verdict);
      }
      requests := requests + [Fenced(fence)];
    }

    /** The driver takes the commands and binds their callback; foreign work may have slipped in. */
    method Accept(ghost id: nat, work: Work, launch: Launch, scope: Option<Option<Outcome>>)
      returns (submission: Submission)
      requires Valid() && !st.poisoned && id in st.works && st.works[id] == work
      requires launch.Accepted? && scope.Some? && (immediate ==> scope != Some(None))
      modifies this`gpu, this`st, this`states, this`steps
      ensures Valid() && Later(old(gpu), gpu)
      ensures submission.scopes.Some?
      ensures immediate ==> Verdict(submission.scopes.value, gpu.settled).Some?
      ensures st == old(st).(gpu := gpu, works := old(st).works - {id}, stage := st.stage,
                             pending := old(st).pending + [PendingWork(submission, work.leases, None, None, false)])
      ensures forall l :: l in work.leases ==> InStream(gpu, l, work.commands)
    {
      assert ReachedIn(|steps|);
      submission := Submission(gpu.nextSignal, Some(work.scopes + ScopeList(gpu, scope)));
      ghost var g := gpu;
      SubmitResult(st, id, launch, scope, Unneeded);
      forall l | l in work.leases ensures InStream(LaunchGpu(gpu, work, launch, scope), l, work.commands) {
        LaunchReaches(gpu, work, launch, scope, l);
      }
      Take(Submit(id, launch, scope, Unneeded));
      gpu := LaunchGpu(gpu, work, launch, scope);
      assert immediate ==> Verdict(work.scopes, g.settled).Some?;
    }

    /** The driver unwound and a fence was asked for: settle the run's view of both. */
    ghost method Unwind(id: nat, work: Work, launch: Launch, scope: Option<Option<Outcome>>, fence: Fence,
                        entry: PendingWork)
      requires OnRun() && st.looked.None? && !st.poisoned && id in st.works && st.works[id] == work
      requires launch.Unwound? && !fence.Unneeded? && (immediate ==> scope != Some(None))
      requires gpu == FenceGpu(LaunchGpu(st.gpu, work, launch, scope), fence)
      requires entry == PendingWork(Submission(st.gpu.nextSignal, Some(work.scopes + ScopeList(st.gpu, scope))),
                                    work.leases, Some(SubmitPanicked(launch.message)),
                                    FenceSubmission(LaunchGpu(st.gpu, work, launch, scope), fence), false)
      modifies this`st, this`states, this`steps
      ensures Valid() && Later(old(st).gpu, gpu)
      ensures st == old(st).(gpu := gpu, works := old(st).works - {id}, stage := st.stage, fenced := st.fenced,
                             poisoned := true, pending := old(st).pending + [entry])
    {
      SubmitResult(st, id, launch, scope, fence);
      Take(Submit(id, launch, scope, fence));
    }

    /** Sleep on a condition variable for at most `slice`; some time always passes. */
    method Sleep(slice: nat, ghost retained: nat, ghost poisoned: bool)
      requires Valid()
      modifies this`gpu, this`st, this`states, this`steps, this`clock, this`requests
      ensures requests == old(requests) + [Slept(slice, retained, poisoned, old(clock))]
      ensures Valid() && st == old(st).(gpu := gpu) && Evolves(old(gpu), gpu)
      ensures old(clock) < clock
    {
      Advance();
      var passed :| 0 <= passed <= slice;
      requests := requests + [Slept(slice, retained, poisoned, clock)];
      clock := clock + 1 + passed;
    }

    method Now() returns (now: nat)
      modifies this`clock
      ensures now == clock && old(clock) <= clock
    {
      var passed: int :| 0 <= passed;
      clock := clock + passed;
      now := clock;
    }

    /** The verdict an error scope has when it is popped. */
    method PopScope() returns (verdict: Option<Outcome>)
      ensures immediate ==> verdict.Some?
    {
      var settled: bool, accepted: bool, message: string := *, *, *;
      if immediate || settled {
        verdict := Some(if accepted then Ok(()) else Err(SubmitRejected(message)));
      } else {
        verdict := None;
      }
    }
  }

  /** Commands and their reservations, not yet submitted. */
  class RecordedWork {
    const context: WorkContext
    ghost const id: nat
    var commands: seq<Command>
    var leases: seq<Lease>
    var scopes: seq<Scope>

    ghost predicate Valid()
      reads this, context
    {
      context.Valid() && id in context.st.works && context.st.works[id] == Work(commands, leases, scopes)
    }

    /** Commands encoded by the caller (`scoped` false) or under owned error scopes. */
    constructor (context: WorkContext, commands: seq<Command>, lease: Lease, scoped: bool)
      requires context.Valid() && lease !in context.st.stage
      modifies context
      ensures this.context == context && Valid() && this.commands == commands && leases == [lease]
      ensures id !in old(context.st.works)
      ensures context.st.works == old(context.st.works)[id := Work(commands, leases, scopes)]
      ensures |scopes| == if scoped then 1 else 0
      ensures SameQueue(old(context.st), context.st) && context.st.log == old(context.st.log)
      ensures context.clock == old(context.clock) && context.requests == old(context.requests)
      ensures lease in context.gpu.owned && context.gpu.owned[lease] == set c | c in scopes
      ensures Later(old(context.gpu), context.gpu)
    {
      var scope := None;
      if scoped {
        var verdict := context.PopScope();
        scope := Some(verdict);
      }
      ghost var step := Open(context.nextWork, lease, commands, scope);
      this.context, this.id, this.commands, this.leases := context, context.nextWork, commands, [lease];
      this.scopes := ScopeList(context.gpu, scope);
      new;
      assert context.ReachedIn(|context.steps|);
      context.nextWork := context.nextWork + 1;
      context.Take(step);
      context.gpu := OpenScope(context.gpu, scope).(owned := context.gpu.owned[lease := set c | c in scopes]);
    }

    /**
     Encode under owned scopes. A rejection known at once, or an unwinding encoder,
     aborts the lease: nothing of it can ever reach the queue.
     */
    static method Record(context: WorkContext, command: Command, lease: Lease)
      returns (r: Result<RecordedWork, WaitError>)
      requires context.Valid() && lease !in context.st.stage
      modifies context
      ensures context.Valid() && SameQueue(old(context.st), context.st)
      ensures context.clock == old(context.clock) && context.requests == old(context.requests)
      ensures Later(old(context.gpu), context.gpu)
      ensures r.Ok? ==>
                && fresh(r.value) && r.value.context == context && r.value.Valid()
                && r.value.commands == [command] && r.value.leases == [lease] && |r.value.scopes| == 1
                && context.st.log == old(context.st.log)
                && context.st.works == old(context.st.works)[r.value.id := context.st.works[r.value.id]]
      ensures r.Err? ==>
                && context.st.works == old(context.st.works)
                && lease in context.st.stage && context.st.stage[lease] == Gone
                && context.st.log == old(context.st.log) + [Aborted(lease, context.gpu)]
      ensures context.immediate && r.Ok? ==> AllAccept(r.value.scopes, context.gpu.settled)
      ensures r.Ok? ==> forall i, error :: !FailsAt(r.value.scopes, context.gpu.settled, i, error)
      ensures r.Err? && !r.error.SubmitPanicked? ==>
                exists c :: c in context.gpu.settled && context.gpu.settled[c] == Err(r.error)
    {
      var unwinds: bool, message: string := *, *;
      ghost var works := context.st.works;
      var work := new RecordedWork(context, if unwinds then [] else [command], lease, true);
      assert works[work.id := context.st.works[work.id]] - {work.id} == works;
      assert AbortedCalls([lease], context.gpu) == [Aborted(lease, context.gpu)];
      if unwinds {
        work.Drop();
        return Err(SubmitPanicked(message));
      }
      context.Advance();
      var verdict := Verdict(work.scopes, context.gpu.settled);
      RejectionKnown(work.scopes, context.gpu.settled);
      if verdict.Some? && verdict.value.Err? {
        assert AbortedCalls([lease], context.gpu) == [Aborted(lease, context.gpu)];
        work.Drop();
        return Err(verdict.value.error);
      }
      assert context.ReachedIn(|context.steps|);
      return Ok(work);
    }

    /** Append in command order; work of a foreign context is refused and left unchanged. */
    method Append(other: RecordedWork) returns (appended: bool)
      requires Valid() && other.Valid() && (context == other.context ==> id != other.id)
      modifies this, other, context
      ensures appended <==> context == other.context
      ensures Valid()
      ensures !appended ==> unchanged(this) && unchanged(other) && unchanged(context)
      ensures appended ==>
                && commands == old(commands + other.commands)
                && leases == old(leases + other.leases)
                && scopes == old(scopes + other.scopes)
                && context.st.works.Keys == old(context.st.works.Keys) - {other.id}
                && (forall w :: w in context.st.works && w != id ==> context.st.works[w] == old(context.st.works)[w])
                && SameQueue(old(context.st), context.st) && context.st.log == old(context.st.log)
                && context.clock == old(context.clock) && context.requests == old(context.requests)
                && context.gpu == old(context.gpu).(owned := context.gpu.owned)
                && (forall l :: l in leases ==> l in context.gpu.owned && context.gpu.owned[l] == set c | c in scopes)
    {
      if context != other.context {
        return false;
      }
      AppendResult(context.st, id, other.id);
      SharedOwns(context.gpu.owned, Work(commands + other.commands, leases + other.leases, scopes + other.scopes));
      context.Take(Protocol.Append(id, other.id));
      commands := commands + other.commands;
      leases := leases + other.leases;
      scopes := scopes + other.scopes;
      context.gpu := context.gpu.(owned := Shared(context.gpu.owned, Work(commands, leases, scopes)));
      other.commands, other.leases, other.scopes := [], [], [];
      return true;
    }

    /** Discard unsent commands, then release their reservations in order. */
    method Drop()
      requires Valid()
      modifies this, context`st, context`states, context`steps
      ensures context.Valid() && context.gpu == old(context.gpu)
      ensures commands == [] && leases == []
      ensures context.st == old(context.st).(
                works := old(context.st.works) - {id},
                stage := context.st.stage,
                log := old(context.st.log) + AbortedCalls(old(leases), context.gpu))
      ensures forall l :: l in old(leases) ==> l in context.st.stage && context.st.stage[l] == Gone
    {
      context.Take(Abort(id));
      commands, leases := [], [];
    }
  }
}

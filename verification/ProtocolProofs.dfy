/** Every step of the protocol keeps its invariant, hence so does every run. */
module ProtocolProofs {
  import opened Outcomes
  import opened Gpus
  import opened Protocol

  // ---------- the hook log ----------

  lemma {:induction false} PhaseUntouched(log: seq<Event>, calls: seq<Event>, l: Lease)
    requires forall e :: e in calls ==> e.lease != l
    ensures PhaseOf(log + calls, l) == PhaseOf(log, l)
  {
    if calls == [] {
      assert log + calls == log;
    } else {
      var n := |calls| - 1;
      assert (log + calls)[..|log + calls| - 1] == log + calls[..n];
      assert calls[n] in calls;
      PhaseUntouched(log, calls[..n], l);
    }
  }

  /** One batch of hook calls moves each of its leases by exactly one call. */
  lemma {:induction false} PhaseTouched(log: seq<Event>, calls: seq<Event>, i: nat)
    requires i < |calls|
    requires forall a, b :: 0 <= a < b < |calls| ==> calls[a].lease != calls[b].lease
    ensures PhaseOf(log + calls, calls[i].lease) == Advance(PhaseOf(log, calls[i].lease), calls[i])
  {
    var n := |calls| - 1;
    assert (log + calls)[..|log + calls| - 1] == log + calls[..n];
    if i == n {
      PhaseUntouched(log, calls[..n], calls[n].lease);
    } else {
      PhaseTouched(log, calls[..n], i);
    }
  }

  /** The batch of calls on `leases`, whatever the hook, described by its phase change. */
  lemma PhaseAfter(log: seq<Event>, calls: seq<Event>, leases: seq<Lease>)
    requires |calls| == |leases| && Distinct(leases)
    requires forall i :: 0 <= i < |leases| ==> calls[i].lease == leases[i]
    ensures forall l :: l !in leases ==> PhaseOf(log + calls, l) == PhaseOf(log, l)
    ensures forall i :: 0 <= i < |leases| ==>
              PhaseOf(log + calls, leases[i]) == Advance(PhaseOf(log, leases[i]), calls[i])
  {
    forall l | l !in leases ensures PhaseOf(log + calls, l) == PhaseOf(log, l) {
      PhaseUntouched(log, calls, l);
    }
    forall i | 0 <= i < |leases|
      ensures PhaseOf(log + calls, leases[i]) == Advance(PhaseOf(log, leases[i]), calls[i])
    {
      PhaseTouched(log, calls, i);
    }
  }

  // ---------- what a submission reports, read off the scopes and signals ----------

  ghost predicate SettledBy(sub: Submission, g: Gpu) {
    sub.scopes.Some? ==> AllSettled(sub.scopes.value, g.settled)
  }

  ghost predicate AcceptedBy(sub: Submission, g: Gpu) {
    sub.scopes.Some? ==> AllAccept(sub.scopes.value, g.settled)
  }

  ghost predicate RejectedBy(sub: Submission, g: Gpu, error: WaitError) {
    sub.scopes.Some? && exists i :: FailsAt(sub.scopes.value, g.settled, i, error)
  }

  ghost predicate SignalledBy(sub: Submission, g: Gpu, outcome: Outcome) {
    sub.signal in g.signals && g.signals[sub.signal] == outcome
  }

  /**
   A submission answers its completion signal once every scope has accepted, the first
   failure once every scope has settled, and nothing else.
   */
  lemma StatusMeans(sub: Submission, g: Gpu, outcome: Outcome)
    ensures Status(sub, g) == Some(outcome) <==>
            || (AcceptedBy(sub, g) && SignalledBy(sub, g, outcome))
            || (outcome.Err? && RejectedBy(sub, g, outcome.error))
    ensures ValidationStatus(sub, g) == Some(outcome) <==>
            sub.scopes.Some? && if outcome.Ok? then AcceptedBy(sub, g) else RejectedBy(sub, g, outcome.error)
  {
    if sub.scopes.Some? {
      VerdictMeans(sub.scopes.value, g.settled);
      assert outcome.Ok? ==> outcome.value == ();
      var verdict := Verdict(sub.scopes.value, g.settled);
      assert verdict.Some? && verdict.value.Ok? ==> verdict.value.value == ();
    }
  }

  lemma ScopesSettledMeans(sub: Submission, g: Gpu)
    ensures ScopesSettled(sub, g) <==> SettledBy(sub, g)
  {
    if sub.scopes.Some? {
      VerdictMeans(sub.scopes.value, g.settled);
    }
  }

  /** Proof of retirement for a failed entry: all its scopes have settled, and its fence was signalled and accepted. */
  lemma ProofMeans(e: PendingWork, g: Gpu)
    ensures ValidationsSettled(e, g) <==>
            SettledBy(e.completion, g) && (e.recovery.Some? ==> SettledBy(e.recovery.value, g))
    ensures RecoveryProved(e, g) <==>
            e.recovery.Some? && AcceptedBy(e.recovery.value, g) && SignalledBy(e.recovery.value, g, Ok(()))
  {
    ScopesSettledMeans(e.completion, g);
    if e.recovery.Some? {
      ScopesSettledMeans(e.recovery.value, g);
      StatusMeans(e.recovery.value, g, Ok(()));
    }
  }

  // ---------- frames: what survives a step that happens elsewhere ----------

  ghost predicate LeaseUntouched(s: State, t: State, l: Lease) {
    && (l in s.stage ==> l in t.stage && t.stage[l] == s.stage[l])
    && (l in s.gpu.queued <==> l in t.gpu.queued)
    && (l in s.gpu.queued ==> t.gpu.queued[l] == s.gpu.queued[l])
    && (l in s.gpu.owned ==> l in t.gpu.owned && t.gpu.owned[l] == s.gpu.owned[l])
    && PhaseOf(t.log, l) == PhaseOf(s.log, l)
  }

  lemma WorkFrame(s: State, t: State, w: nat, k: Work)
    requires WorkOk(s, w, k)
    requires forall l :: l in k.leases ==> LeaseUntouched(s, t, l)
    ensures WorkOk(t, w, k)
  {
    forall l | l in k.leases ensures LeaseInWork(t, w, k, l) {
      assert LeaseInWork(s, w, k, l) && LeaseUntouched(s, t, l);
    }
  }

  lemma EntryFrame(s: State, t: State, e: PendingWork)
    requires EntryOk(s, e) && Later(s.gpu, t.gpu)
    requires forall l :: l in e.leases ==> LeaseUntouched(s, t, l)
    requires e.failure.Some? ==> t.poisoned
    requires s.idle <= t.idle && s.fenced <= t.fenced
    ensures EntryOk(t, e)
  {
    if e.committed {
      VerdictSticks(e.completion.scopes.value, s.gpu.settled, t.gpu.settled);
    }
    forall l | l in e.leases ensures LeaseInQueue(t, e, l) {
      assert LeaseInQueue(s, e, l) && LeaseUntouched(s, t, l);
    }
    if e.failure.Some? && e.completion.signal !in t.fenced {
      forall l | l in e.leases && l in t.gpu.queued ensures t.gpu.queued[l] < t.idle {
        assert LeaseUntouched(s, t, l);
      }
    }
  }

  /** Leases of different owners differ: each lease is staged with exactly one of them. */
  lemma OwnersDisjoint(s: State)
    requires Custody(s)
    ensures forall v, w, l :: v in s.works && w in s.works && l in s.works[v].leases && l in s.works[w].leases ==>
              v == w
    ensures forall w, i, l :: w in s.works && 0 <= i < |s.pending| && l in s.works[w].leases ==>
              l !in s.pending[i].leases
    ensures forall i, j, l ::
              0 <= i < |s.pending| && 0 <= j < |s.pending| && l in s.pending[i].leases && l in s.pending[j].leases
              ==> i == j
  {
    forall v, w, l | v in s.works && w in s.works && l in s.works[v].leases && l in s.works[w].leases ensures v == w {
      assert WorkOk(s, v, s.works[v]) && WorkOk(s, w, s.works[w]);
      assert LeaseInWork(s, v, s.works[v], l) && LeaseInWork(s, w, s.works[w], l);
    }
    forall w, i, l | w in s.works && 0 <= i < |s.pending| && l in s.works[w].leases ensures l !in s.pending[i].leases {
      assert WorkOk(s, w, s.works[w]) && EntryOk(s, s.pending[i]);
      assert LeaseInWork(s, w, s.works[w], l);
      assert forall m :: m in s.pending[i].leases ==> LeaseInQueue(s, s.pending[i], m);
    }
    forall i, j, l | 0 <= i < |s.pending| && 0 <= j < |s.pending|
                     && l in s.pending[i].leases && l in s.pending[j].leases ensures i == j {
      assert EntryOk(s, s.pending[i]) && EntryOk(s, s.pending[j]);
      assert LeaseInQueue(s, s.pending[i], l) && LeaseInQueue(s, s.pending[j], l);
    }
  }

  // ---------- the environment ----------

  lemma OpenScopeLater(g: Gpu, scope: Option<Option<Outcome>>)
    requires Sound(g)
    ensures Sound(OpenScope(g, scope)) && Later(g, OpenScope(g, scope))
  {
  }

  lemma FenceLater(g: Gpu, fence: Fence)
    requires Sound(g)
    ensures Sound(FenceGpu(g, fence)) && Later(g, FenceGpu(g, fence))
    ensures FenceGpu(g, fence).queued == g.queued && FenceGpu(g, fence).owned == g.owned
    ensures FenceSubmission(g, fence).Some? ==>
              var r := FenceSubmission(g, fence).value;
              r.signal < FenceGpu(g, fence).nextSignal
              && forall l :: l in g.queued ==> Covers(FenceGpu(g, fence), r.signal, g.queued[l])
  {
    if fence.Observer? {
      OpenScopeLater(g, Some(fence.verdict));
    } else if fence.Queued? {
      OpenScopeLater(g, Some(fence.verdict));
    }
  }

  lemma LaunchSound(g: Gpu, work: Work, launch: Launch, scope: Option<Option<Outcome>>)
    requires Sound(g)
    ensures Sound(LaunchGpu(g, work, launch, scope))
  {
    OpenScopeLater(g, scope);
  }

  lemma LaunchLater(g: Gpu, work: Work, launch: Launch, scope: Option<Option<Outcome>>)
    requires Sound(g) && forall l :: l in work.leases ==> l !in g.queued
    ensures Later(g, LaunchGpu(g, work, launch, scope))
  {
    OpenScopeLater(g, scope);
    var h := LaunchGpu(g, work, launch, scope);
    assert g.stream <= h.stream;
    assert Extends(g.queued, h.queued) && Extends(g.bound, h.bound);
  }

  // ---------- each step ----------

  lemma EvolveKeeps(s: State, later: Gpu)
    requires Custody(s) && Enabled(s, Evolve(later))
    ensures Custody(Do(s, Evolve(later)))
  {
    var t := Do(s, Evolve(later));
    forall w | w in t.works ensures WorkOk(t, w, t.works[w]) {
      WorkFrame(s, t, w, s.works[w]);
    }
    forall i | 0 <= i < |t.pending| ensures EntryOk(t, t.pending[i]) {
      EntryFrame(s, t, s.pending[i]);
    }
    forall l ensures Placed(t, l) {
      assert Placed(s, l);
      assert Held(s, l) ==> Held(t, l);
    }
  }

  lemma OpenKeeps(s: State, step: Step)
    requires Custody(s) && step.Open? && Enabled(s, step)
    ensures Custody(Do(s, step))
  {
    var t := Do(s, step);
    OpenScopeLater(s.gpu, step.scope);
    forall w | w in t.works ensures WorkOk(t, w, t.works[w]) {
      if w == step.work {
        OpenWork(s, step);
      } else {
        OpenElsewhere(s, step, w);
      }
    }
    forall i | 0 <= i < |t.pending| ensures EntryOk(t, t.pending[i]) {
      OpenQueued(s, step, i);
    }
    forall l ensures Placed(t, l) {
      assert Placed(s, l);
      OpenPlaces(s, step, l);
    }
  }

  lemma OpenQueued(s: State, step: Step, i: nat)
    requires Custody(s) && step.Open? && Enabled(s, step) && i < |s.pending|
    ensures EntryOk(Do(s, step), Do(s, step).pending[i])
  {
    OpenScopeLater(s.gpu, step.scope);
    assert Placed(s, step.lease) && EntryOk(s, s.pending[i]);
    assert forall l :: l in s.pending[i].leases ==> LeaseInQueue(s, s.pending[i], l);
    EntryFrame(s, Do(s, step), s.pending[i]);
  }

  lemma OpenElsewhere(s: State, step: Step, w: nat)
    requires Custody(s) && step.Open? && Enabled(s, step) && w in s.works && w != step.work
    ensures WorkOk(Do(s, step), w, Do(s, step).works[w])
  {
    OpenScopeLater(s.gpu, step.scope);
    assert Placed(s, step.lease) && WorkOk(s, w, s.works[w]);
    assert forall l :: l in s.works[w].leases ==> LeaseInWork(s, w, s.works[w], l);
    WorkFrame(s, Do(s, step), w, s.works[w]);
  }

  lemma OpenPlaces(s: State, step: Step, l: Lease)
    requires Placed(s, l) && step.Open? && Enabled(s, step)
    ensures Placed(Do(s, step), l)
  {
    var t := Do(s, step);
    if l == step.lease {
      assert l in t.works[step.work].leases;
    } else if Held(s, l) {
      if w :| w in s.works && l in s.works[w].leases {
        assert w in t.works && l in t.works[w].leases;
      } else {
        var i :| 0 <= i < |s.pending| && l in s.pending[i].leases;
        assert l in t.pending[i].leases;
      }
    }
  }

  lemma OpenWork(s: State, step: Step)
    requires step.Open? && Enabled(s, step) && Placed(s, step.lease)
    ensures WorkOk(Do(s, step), step.work, Do(s, step).works[step.work])
  {
    assert LeaseInWork(Do(s, step), step.work, Do(s, step).works[step.work], step.lease);
  }

  /** The merged recording holds the leases and scopes of both. */
  lemma AppendWork(s: State, into: nat, other: nat)
    requires Enabled(s, Append(into, other))
    requires WorkOk(s, into, s.works[into]) && WorkOk(s, other, s.works[other])
    requires forall l :: l in s.works[into].leases ==> l !in s.works[other].leases
    ensures WorkOk(Do(s, Append(into, other)), into, Do(s, Append(into, other)).works[into])
  {
    var t := Do(s, Append(into, other));
    var a, b := s.works[into], s.works[other];
    DistinctConcat(a.leases, b.leases);
    forall l | l in t.works[into].leases ensures LeaseInWork(t, into, t.works[into], l) {
      assert if l in a.leases then LeaseInWork(s, into, a, l) else LeaseInWork(s, other, b, l);
    }
  }

  lemma AppendFrames(s: State, into: nat, other: nat)
    requires Custody(s) && Enabled(s, Append(into, other))
    ensures var t := Do(s, Append(into, other));
            && (forall w :: w in t.works ==> WorkOk(t, w, t.works[w]))
            && (forall i :: 0 <= i < |t.pending| ==> EntryOk(t, t.pending[i]))
  {
    var t := Do(s, Append(into, other));
    OwnersDisjoint(s);
    forall w | w in t.works ensures WorkOk(t, w, t.works[w]) {
      if w == into {
        AppendWork(s, into, other);
      } else {
        WorkFrame(s, t, w, s.works[w]);
      }
    }
    forall i | 0 <= i < |t.pending| ensures EntryOk(t, t.pending[i]) {
      EntryFrame(s, t, s.pending[i]);
    }
  }

  lemma AppendPlaces(s: State, into: nat, other: nat, l: Lease)
    requires Placed(s, l) && Enabled(s, Append(into, other)) && WorkOk(s, other, s.works[other])
    ensures Placed(Do(s, Append(into, other)), l)
  {
    var t := Do(s, Append(into, other));
    if Held(s, l) {
      if w :| w in s.works && l in s.works[w].leases {
        var v := if w == other then into else w;
        assert v in t.works && l in t.works[v].leases;
      } else {
        var i :| 0 <= i < |s.pending| && l in s.pending[i].leases;
        assert l in t.pending[i].leases;
      }
    }
    assert l in s.works[other].leases ==> LeaseInWork(s, other, s.works[other], l);
  }

  lemma AppendKeeps(s: State, into: nat, other: nat)
    requires Custody(s) && Enabled(s, Append(into, other))
    ensures Custody(Do(s, Append(into, other)))
  {
    AppendFrames(s, into, other);
    forall l ensures Placed(Do(s, Append(into, other)), l) {
      assert Placed(s, l) && WorkOk(s, other, s.works[other]);
      AppendPlaces(s, into, other, l);
    }
  }

  lemma AbortPlaces(s: State, w: nat, l: Lease)
    requires Placed(s, l) && Enabled(s, Abort(w)) && WorkOk(s, w, s.works[w])
    ensures Placed(Do(s, Abort(w)), l)
    ensures l !in s.works[w].leases ==> LeaseUntouched(s, Do(s, Abort(w)), l)
  {
    var t := Do(s, Abort(w));
    var k := s.works[w];
    PhaseAfter(s.log, AbortedCalls(k.leases, s.gpu), k.leases);
    if l in k.leases {
      assert LeaseInWork(s, w, k, l);
    } else if Held(s, l) {
      if v :| v in s.works && l in s.works[v].leases {
        assert v in t.works && l in t.works[v].leases;
      } else {
        var i :| 0 <= i < |s.pending| && l in s.pending[i].leases;
        assert l in t.pending[i].leases;
      }
    }
  }

  lemma AbortKeeps(s: State, w: nat)
    requires Custody(s) && Enabled(s, Abort(w))
    ensures Custody(Do(s, Abort(w)))
  {
    var t := Do(s, Abort(w));
    var k := s.works[w];
    OwnersDisjoint(s);
    assert WorkOk(s, w, k);
    forall l ensures Placed(t, l) && (l !in k.leases ==> LeaseUntouched(s, t, l)) {
      assert Placed(s, l);
      AbortPlaces(s, w, l);
    }
    forall v | v in t.works ensures WorkOk(t, v, t.works[v]) {
      WorkFrame(s, t, v, s.works[v]);
    }
    forall i | 0 <= i < |t.pending| ensures EntryOk(t, t.pending[i]) {
      EntryFrame(s, t, s.pending[i]);
    }
    AbortJustified(s, w);
  }

  lemma AbortJustified(s: State, w: nat)
    requires Custody(s) && Enabled(s, Abort(w))
    ensures forall n :: 0 <= n < |Do(s, Abort(w)).log| ==> Justified(Do(s, Abort(w)).log[n])
  {
    var t, k := Do(s, Abort(w)), s.works[w];
    assert WorkOk(s, w, k);
    forall n | 0 <= n < |t.log| ensures Justified(t.log[n]) {
      if n >= |s.log| {
        assert LeaseInWork(s, w, k, k.leases[n - |s.log|]);
      } else {
        assert Justified(s.log[n]);
      }
    }
  }

  /** What submission does to the environment, and to leases outside the work. */
  lemma SubmitGpu(s: State, step: Step)
    requires step.Submit? && Enabled(s, step)
    requires Sound(s.gpu) && WorkOk(s, step.work, s.works[step.work])
    ensures var t := Do(s, step); Sound(t.gpu) && Later(s.gpu, t.gpu)
  {
    var k := s.works[step.work];
    var g := LaunchGpu(s.gpu, k, step.launch, step.scope);
    assert forall l :: l in k.leases ==> LeaseInWork(s, step.work, k, l);
    LaunchLater(s.gpu, k, step.launch, step.scope);
    LaunchSound(s.gpu, k, step.launch, step.scope);
    FenceLater(g, step.fence);
    LaterTransitive(s.gpu, g, Do(s, step).gpu);
  }

  lemma LaunchFrame(g: Gpu, work: Work, launch: Launch, scope: Option<Option<Outcome>>, l: Lease)
    requires l !in work.leases
    ensures var h := LaunchGpu(g, work, launch, scope);
            && (l in g.queued <==> l in h.queued) && (l in g.queued ==> h.queued[l] == g.queued[l])
            && (l in g.owned ==> l in h.owned && h.owned[l] == g.owned[l])
  {
  }

  lemma FenceFrame(g: Gpu, fence: Fence)
    ensures FenceGpu(g, fence).queued == g.queued && FenceGpu(g, fence).owned == g.owned
  {
  }

  lemma SubmitFrame(s: State, step: Step, l: Lease)
    requires step.Submit? && Enabled(s, step)
    requires l !in s.works[step.work].leases
    ensures LeaseUntouched(s, Do(s, step), l)
  {
    var k := s.works[step.work];
    LaunchFrame(s.gpu, k, step.launch, step.scope, l);
    FenceFrame(LaunchGpu(s.gpu, k, step.launch, step.scope), step.fence);
    var t := SubmitWork(s, step.work, step.launch, step.scope, step.fence);
    assert t.log == s.log;
    assert l in s.stage ==> l in t.stage && t.stage[l] == s.stage[l];
  }

  /** The new entry answers for each of the work's leases. */
  lemma SubmitLease(s: State, step: Step, l: Lease)
    requires step.Submit? && Enabled(s, step) && l in s.works[step.work].leases
    requires Sound(s.gpu) && LeaseInWork(s, step.work, s.works[step.work], l)
    requires Sound(LaunchGpu(s.gpu, s.works[step.work], step.launch, step.scope))
    ensures LeaseInQueue(Do(s, step), Do(s, step).pending[|s.pending|], l)
  {
    var t := Do(s, step);
    var k := s.works[step.work];
    var g := LaunchGpu(s.gpu, k, step.launch, step.scope);
    FenceLater(g, step.fence);
    assert OwnedExactly(t.gpu, l, t.pending[|s.pending|].completion.scopes.value);
    assert l in g.queued ==> g.queued[l] == |s.gpu.stream|;
  }

  lemma SubmitEntry(s: State, step: Step)
    requires step.Submit? && Enabled(s, step)
    requires Sound(s.gpu) && WorkOk(s, step.work, s.works[step.work])
    ensures EntryOk(Do(s, step), Do(s, step).pending[|s.pending|])
  {
    var t := Do(s, step);
    var k := s.works[step.work];
    LaunchSound(s.gpu, k, step.launch, step.scope);
    FenceLater(LaunchGpu(s.gpu, k, step.launch, step.scope), step.fence);
    forall l | l in k.leases ensures LeaseInQueue(t, t.pending[|s.pending|], l) {
      assert LeaseInWork(s, step.work, k, l);
      SubmitLease(s, step, l);
    }
  }

  lemma SubmitFrames(s: State, step: Step)
    requires Custody(s) && step.Submit? && Enabled(s, step)
    ensures var t := Do(s, step);
            && (forall w :: w in t.works ==> WorkOk(t, w, t.works[w]))
            && (forall i :: 0 <= i < |s.pending| ==> EntryOk(t, t.pending[i]))
  {
    var t := Do(s, step);
    var k := s.works[step.work];
    OwnersDisjoint(s);
    SubmitGpu(s, step);
    forall l | l !in k.leases ensures LeaseUntouched(s, t, l) {
      SubmitFrame(s, step, l);
    }
    forall w | w in t.works ensures WorkOk(t, w, t.works[w]) {
      WorkFrame(s, t, w, s.works[w]);
    }
    forall i | 0 <= i < |s.pending| ensures EntryOk(t, t.pending[i]) {
      EntryFrame(s, t, s.pending[i]);
    }
  }

  lemma SubmitOrder(s: State, step: Step)
    requires step.Submit? && Enabled(s, step) && InOrder(s.pending)
    requires forall i :: 0 <= i < |s.pending| ==> s.pending[i].completion.signal < s.gpu.nextSignal
    ensures InOrder(Do(s, step).pending)
  {
  }

  lemma SubmitKeeps(s: State, step: Step)
    requires Custody(s) && step.Submit? && Enabled(s, step)
    ensures Custody(Do(s, step))
  {
    SubmitGpu(s, step);
    SubmitFrames(s, step);
    SubmitEntry(s, step);
    assert forall i :: 0 <= i < |s.pending| ==> EntryOk(s, s.pending[i]);
    SubmitOrder(s, step);
    forall l ensures Placed(Do(s, step), l) {
      assert Placed(s, l);
      SubmitPlaces(s, step, l);
    }
  }

  lemma SubmitPlaces(s: State, step: Step, l: Lease)
    requires Placed(s, l) && step.Submit? && Enabled(s, step)
    ensures Placed(Do(s, step), l)
  {
    var t := Do(s, step);
    var k := s.works[step.work];
    if l in k.leases {
      assert l in t.pending[|s.pending|].leases;
    } else {
      SubmitFrame(s, step, l);
      if Held(s, l) {
        if v :| v in s.works && l in s.works[v].leases {
          assert v in t.works && l in t.works[v].leases;
        } else {
          var i :| 0 <= i < |s.pending| && l in s.pending[i].leases;
          assert l in t.pending[i].leases;
        }
      }
    }
  }

  /** The announced entry is in the phase its calls show. */
  lemma CommitEntry(s: State, i: nat)
    requires Enabled(s, Commit(i)) && EntryOk(s, s.pending[i])
    ensures EntryOk(Do(s, Commit(i)), Do(s, Commit(i)).pending[i])
    ensures forall l :: l !in s.pending[i].leases ==> LeaseUntouched(s, Do(s, Commit(i)), l)
  {
    var t := Do(s, Commit(i));
    var e := s.pending[i];
    var calls := SubmittedCalls(e.leases, s.gpu);
    PhaseAfter(s.log, calls, e.leases);
    forall l | l in e.leases ensures LeaseInQueue(t, t.pending[i], l) {
      assert LeaseInQueue(s, e, l);
      var m :| 0 <= m < |e.leases| && e.leases[m] == l;
      assert PhaseOf(t.log, e.leases[m]) == Advance(PhaseOf(s.log, e.leases[m]), calls[m]);
    }
  }

  lemma CommitJustified(s: State, i: nat, l: Lease)
    requires Enabled(s, Commit(i)) && EntryOk(s, s.pending[i]) && l in s.pending[i].leases
    ensures Justified(Submitted(l, s.gpu))
  {
    var e := s.pending[i];
    assert LeaseInQueue(s, e, l);
    VerdictAccepts(e.completion.scopes.value, s.gpu.settled);
  }

  lemma CommitKeeps(s: State, i: nat)
    requires Custody(s) && Enabled(s, Commit(i))
    ensures Custody(Do(s, Commit(i)))
  {
    var t := Do(s, Commit(i));
    var e := s.pending[i];
    OwnersDisjoint(s);
    assert EntryOk(s, e);
    CommitEntry(s, i);
    forall w | w in t.works ensures WorkOk(t, w, t.works[w]) {
      WorkFrame(s, t, w, s.works[w]);
    }
    forall j | 0 <= j < |t.pending| && j != i ensures EntryOk(t, t.pending[j]) {
      EntryFrame(s, t, s.pending[j]);
    }
    HeldByIndex(s, t);
    forall l ensures Placed(t, l) {
      assert Placed(s, l);
      assert l in e.leases ==> LeaseInQueue(s, e, l);
    }
    forall n | 0 <= n < |t.log| ensures Justified(t.log[n]) {
      if n >= |s.log| {
        CommitJustified(s, i, e.leases[n - |s.log|]);
      } else {
        assert Justified(s.log[n]);
      }
    }
  }

  /** Entries that keep their leases keep them held. */
  lemma HeldByIndex(s: State, t: State)
    requires t.works == s.works && |t.pending| == |s.pending|
    requires forall i :: 0 <= i < |s.pending| ==> t.pending[i].leases == s.pending[i].leases
    ensures forall l :: Held(s, l) ==> Held(t, l)
  {
    forall l | Held(s, l) ensures Held(t, l) {
      if i :| 0 <= i < |s.pending| && l in s.pending[i].leases {
        assert l in t.pending[i].leases;
      }
    }
  }

  lemma FailKeeps(s: State, step: Step)
    requires Custody(s) && step.Fail? && Enabled(s, step)
    ensures Custody(Do(s, step))
  {
    var t := Do(s, step);
    var i := step.index;
    var e := s.pending[i];
    assert EntryOk(s, e);
    FenceLater(s.gpu, step.fence);
    forall w | w in t.works ensures WorkOk(t, w, t.works[w]) {
      WorkFrame(s, t, w, s.works[w]);
    }
    forall j | 0 <= j < |t.pending| ensures EntryOk(t, t.pending[j]) {
      EntryFrame(s, t, s.pending[j]);
      if j == i {
        forall l | l in e.leases ensures LeaseInQueue(t, t.pending[i], l) {
          assert LeaseInQueue(s, e, l) && LeaseInQueue(t, e, l);
        }
      }
    }
    HeldByIndex(s, t);
    forall l ensures Placed(t, l) {
      assert Placed(s, l);
    }
  }

  /** The evidence the owner acts on is proof: the commands no longer run. */
  lemma EvidenceProves(s: State, i: nat, outcome: Outcome, l: Lease)
    requires Custody(s) && Enabled(s, Finish(i, outcome)) && l in s.pending[i].leases
    ensures Justified(Completed(l, outcome, s.gpu))
  {
    var e := s.pending[i];
    assert EntryOk(s, e);
    assert LeaseInQueue(s, e, l);
    VerdictAccepts(e.completion.scopes.value, s.gpu.settled);
  }

  lemma HeldElsewhere(s: State, t: State, i: nat, l: Lease)
    requires i < |s.pending| && t.works == s.works && t.pending == s.pending[..i] + s.pending[i + 1..]
    requires Held(s, l) && l !in s.pending[i].leases
    ensures Held(t, l)
  {
    if j :| 0 <= j < |s.pending| && l in s.pending[j].leases {
      var now := if j < i then j else j - 1;
      assert t.pending[now] == s.pending[j];
    }
  }

  lemma FinishPhases(s: State, i: nat, outcome: Outcome, l: Lease)
    requires i < |s.pending| && EntryOk(s, s.pending[i])
    ensures l !in s.pending[i].leases ==> LeaseUntouched(s, FinishEntry(s, i, outcome), l)
    ensures l in s.pending[i].leases ==>
              && PhaseOf(FinishEntry(s, i, outcome).log, l)
                 == Ended(outcome.Ok? && !s.pending[i].committed)
              && FinishEntry(s, i, outcome).stage[l] == Gone
  {
    var e := s.pending[i];
    var calls := CompletedCalls(e.leases, outcome, s.gpu);
    PhaseAfter(s.log, calls, e.leases);
    if l in e.leases {
      assert LeaseInQueue(s, e, l);
      var m :| 0 <= m < |e.leases| && e.leases[m] == l;
      assert PhaseOf(s.log + calls, e.leases[m]) == Advance(PhaseOf(s.log, e.leases[m]), calls[m]);
    }
  }

  lemma FinishFrames(s: State, i: nat, outcome: Outcome)
    requires Custody(s) && i < |s.pending|
    ensures var t := FinishEntry(s, i, outcome);
            && (forall w :: w in t.works ==> WorkOk(t, w, t.works[w]))
            && (forall j :: 0 <= j < |t.pending| ==> EntryOk(t, t.pending[j]))
  {
    var t := FinishEntry(s, i, outcome);
    var e := s.pending[i];
    OwnersDisjoint(s);
    forall l ensures l !in e.leases ==> LeaseUntouched(s, t, l) {
      FinishPhases(s, i, outcome, l);
    }
    forall w | w in t.works ensures WorkOk(t, w, t.works[w]) {
      WorkFrame(s, t, w, s.works[w]);
    }
    forall j | 0 <= j < |t.pending| ensures EntryOk(t, t.pending[j]) {
      var was := if j < i then j else j + 1;
      assert t.pending[j] == s.pending[was];
      EntryFrame(s, t, s.pending[was]);
    }
  }

  lemma FinishKeeps(s: State, i: nat, outcome: Outcome)
    requires Custody(s) && Enabled(s, Finish(i, outcome))
    ensures Custody(FinishEntry(s, i, outcome))
  {
    var t := FinishEntry(s, i, outcome);
    var e := s.pending[i];
    FinishFrames(s, i, outcome);
    forall l ensures Placed(t, l) {
      assert Placed(s, l);
      FinishPhases(s, i, outcome, l);
      if Held(s, l) && l !in e.leases {
        HeldElsewhere(s, t, i, l);
      }
    }
    FinishJustified(s, i, outcome);
  }

  lemma FinishJustified(s: State, i: nat, outcome: Outcome)
    requires Custody(s) && Enabled(s, Finish(i, outcome))
    ensures forall n :: 0 <= n < |FinishEntry(s, i, outcome).log| ==> Justified(FinishEntry(s, i, outcome).log[n])
  {
    var t, e := FinishEntry(s, i, outcome), s.pending[i];
    forall n | 0 <= n < |t.log| ensures Justified(t.log[n]) {
      if n >= |s.log| {
        EvidenceProves(s, i, outcome, e.leases[n - |s.log|]);
      } else {
        assert Justified(s.log[n]);
      }
    }
  }

  /** Who holds what does not depend on the owner's flags, as long as failures keep it poisoned. */
  lemma FlagsFrame(s: State, t: State)
    requires Custody(s) && t.gpu == s.gpu && t.works == s.works && t.pending == s.pending
    requires t.stage == s.stage && t.log == s.log && t.fenced == s.fenced && s.idle <= t.idle <= t.gpu.retired
    requires forall e :: e in t.pending && e.failure.Some? ==> t.poisoned
    requires (t.pollFault.Some? ==> t.poisoned) && (t.lossSeen ==> t.poisoned && t.gpu.lost.Some?)
    ensures Custody(t)
  {
    forall w | w in t.works ensures WorkOk(t, w, t.works[w]) {
      WorkFrame(s, t, w, s.works[w]);
    }
    forall i | 0 <= i < |t.pending| ensures EntryOk(t, t.pending[i]) {
      assert s.pending[i] in s.pending;
      EntryFrame(s, t, s.pending[i]);
    }
    HeldByIndex(s, t);
    forall l ensures Placed(t, l) {
      assert Placed(s, l);
    }
  }

  lemma FlagsKeep(s: State, step: Step)
    requires Custody(s) && Enabled(s, step)
    requires step.SeeEmpty? || step.SeeLoss? || step.Fault? || step.Calm? || step.Look?
    ensures Custody(Do(s, step))
  {
    forall e | e in s.pending && e.failure.Some? ensures s.poisoned {
      var i :| 0 <= i < |s.pending| && s.pending[i] == e;
      assert EntryOk(s, s.pending[i]);
    }
    FlagsFrame(s, Do(s, step));
  }

  lemma StepLater(s: State, step: Step)
    requires Custody(s) && Enabled(s, step)
    ensures Later(s.gpu, Do(s, step).gpu)
  {
    match step
    case Open(_, _, _, scope) =>
      OpenScopeLater(s.gpu, scope);
    case Submit(w, _, _, _) =>
      assert WorkOk(s, w, s.works[w]);
      SubmitGpu(s, step);
    case Fail(_, _, fence) => FenceLater(s.gpu, fence);
    case _ =>
  }

  /** Signals identify entries. */
  lemma SameEntry(s: State, i: nat, j: nat)
    requires InOrder(s.pending) && i < |s.pending| && j < |s.pending|
    requires s.pending[i].completion.signal == s.pending[j].completion.signal
    ensures i == j
  {
  }

  lemma LookFocuses(s: State, i: nat)
    requires Custody(s) && Enabled(s, Look(i))
    ensures Focus(Do(s, Look(i)))
  {
    var t := Do(s, Look(i));
    assert EntryOk(s, s.pending[i]);
    forall e | e in t.pending && LookedAt(t, e) ensures e == s.pending[i] {
      var j :| 0 <= j < |s.pending| && s.pending[j] == e;
      SameEntry(s, i, j);
    }
  }

  lemma SubmitFocus(s: State, step: Step)
    requires Focus(s) && step.Submit? && Enabled(s, step) && Later(s.gpu, Do(s, step).gpu)
    ensures Focus(Do(s, step))
  {
    if s.looked.Some? {
      LaterTransitive(s.looked.value.when, s.gpu, Do(s, step).gpu);
    }
  }

  /** What a look did not find accepted stays unannounced, or is announced: never forgotten. */
  lemma FocusKeeps(s: State, step: Step)
    requires Focus(s) && Enabled(s, step) && Later(s.gpu, Do(s, step).gpu) && !step.Look? && !step.Submit?
    ensures Focus(Do(s, step))
  {
    var t := Do(s, step);
    if t.looked.Some? {
      assert t.looked == s.looked;
      LaterTransitive(s.looked.value.when, s.gpu, t.gpu);
      forall e | e in t.pending && LookedAt(t, e) && !e.committed
        ensures ValidationStatus(e.completion, s.looked.value.when) != Some(Ok(()))
      {
        var j :| 0 <= j < |t.pending| && t.pending[j] == e;
        assert s.pending[j] in s.pending && s.pending[j].completion == e.completion;
      }
    }
  }

  lemma CustodyKeeps(s: State, step: Step)
    requires Custody(s) && Enabled(s, step)
    ensures Custody(Do(s, step))
  {
    match step
    case Evolve(later) => EvolveKeeps(s, later);
    case Open(_, _, _, _) => OpenKeeps(s, step);
    case Append(into, other) => AppendKeeps(s, into, other);
    case Abort(w) => AbortKeeps(s, w);
    case Submit(_, _, _, _) => SubmitKeeps(s, step);
    case Commit(i) => CommitKeeps(s, i);
    case Fail(_, _, _) => FailKeeps(s, step);
    case Finish(i, outcome) => FinishKeeps(s, i, outcome);
    case _ => FlagsKeep(s, step);
  }

  /** Whatever the owner, a producer thread or the environment does next, the invariant stays. */
  lemma StepKeeps(s: State, step: Step)
    requires Inv(s) && Enabled(s, step)
    ensures Inv(Do(s, step))
  {
    CustodyKeeps(s, step);
    StepLater(s, step);
    if step.Look? {
      LookFocuses(s, step.index);
    } else if step.Submit? {
      SubmitFocus(s, step);
    } else {
      FocusKeeps(s, step);
    }
  }
}

/**
 The bounded owner of submitted work. Its pending entries, poison flag and poll fault
 are ordinary fields updated in place; every update is one step of the protocol run.
 */
module WorkQueues {
  import opened Outcomes
  import opened Gpus
  import opened Protocol
  import opened ProtocolProofs
  import opened Runs
  import opened WorkContexts

  datatype WorkSubmitError =
    | Busy(work: RecordedWork)
    | QueueMismatch(work: RecordedWork)
    | Poisoned(work: RecordedWork)
    | PollFailed(error: WaitError, work: RecordedWork)
    | Panicked(message: string)
    | Rejected(error: WaitError)

  lemma ProofSticks(e: PendingWork, g: Gpu, h: Gpu)
    requires Later(g, h)
    ensures ValidationsSettled(e, g) ==> ValidationsSettled(e, h)
    ensures RecoveryProved(e, g) ==> RecoveryProved(e, h)
  {
    if ValidationsSettled(e, g) {
      SettledSticks(e, g, h);
    }
    if RecoveryProved(e, g) {
      StatusSticks(e.recovery.value, g, h);
    }
  }

  ghost predicate AllIdle(s: State, pending: seq<PendingWork>) {
    forall i :: 0 <= i < |pending| ==> KnownIdle(s, pending[i])
  }

  lemma IdleStays(s: State, t: State, olds: seq<PendingWork>, index: nat, news: seq<PendingWork>)
    requires AllIdle(s, olds) && t.idle == s.idle && t.gpu.queued == s.gpu.queued && index < |olds|
    requires (|news| == |olds| && news == olds[index := news[index]] && news[index].leases == olds[index].leases)
             || news == olds[..index] + olds[index + 1..]
    ensures AllIdle(t, news)
  {
    forall i | 0 <= i < |news| ensures KnownIdle(t, news[i]) {
      var was := if |news| < |olds| && i >= index then i + 1 else i;
      assert news[i].leases == olds[was].leases && KnownIdle(s, olds[was]);
    }
  }

  /**
   What is kept of a fence asked for at `g`: nothing if asking unwound; otherwise a new signal under a new scope,
   which for a queued fence is bound to a place in the stream behind everything there was.
   */
  ghost predicate Kept(fence: Fence, recovery: Option<Submission>, g: Gpu, h: Gpu) {
    && (recovery.None? <==> fence.Lost?)
    && (recovery.Some? ==> recovery.value == Submission(g.nextSignal, Some([g.nextScope])))
    && (fence.Queued? ==> g.nextSignal in h.bound && |g.stream| <= h.bound[g.nextSignal] < |h.stream|)
    && (fence.Observer? ==> h.bound == g.bound && h.stream == g.stream)
    && (recovery.Some? ==> g.nextSignal < h.nextSignal && g.nextScope < h.nextScope)
  }

  const POLL_PERIOD: nat := 1   // milliseconds between two nonblocking polls

  /** The number of the range that is nearest to n. */
  function Clamp(n: nat, low: nat, high: nat): (r: nat)
    requires low <= high
    ensures low <= r <= high
    ensures (low <= n <= high ==> r == n) && (n < low ==> r == low) && (n > high ==> r == high)
  {
    if n < low then low else if n > high then high else n
  }

  /** How far one collection pass got. */
  datatype Sweep = DeviceGone | PollStopped | Swept(reported: bool, empty: bool, looked: Gpu, visits: seq<Visit>)

  /**
   One pass's dealings with one entry: the two observations, the moment of the last look and
   what came of it. `left` is the entry as it stays queued without an outcome, `asked` what the
   driver was asked for its sake.
   */
  datatype Visit = Visit(entry: PendingWork, first: Gpu, second: Gpu, when: Gpu, outcome: Option<Outcome>,
                         left: PendingWork, asked: seq<Request>)

  /** What an entry keeps as long as it is queued. */
  ghost predicate Continues(e: PendingWork, f: PendingWork) {
    && f.completion == e.completion && f.leases == e.leases
    && (e.failure.Some? ==> f.failure == e.failure)
    && (e.recovery.Some? ==> f.recovery == e.recovery)
    && (e.committed ==> f.committed)
  }

  /** Observable proof that an entry can be settled, given whether the poll reported an empty queue. */
  ghost predicate ReadyAt(e: PendingWork, g: Gpu, empty: bool) {
    if e.failure.None? then Status(e.completion, g) == Some(Ok(()))
    else ValidationsSettled(e, g) && (empty || RecoveryProved(e, g))
  }

  /** A dropped callback is forgiven where its scopes have all accepted and no loss is reported. */
  ghost predicate Forgiven(e: PendingWork, g: Gpu) {
    ValidationStatus(e.completion, g) == Some(Ok(())) && g.lost.None?
  }

  lemma SettledPhases(s: State, i: nat, outcome: Outcome)
    requires Inv(s) && i < |s.pending|
    ensures forall l :: l in s.pending[i].leases ==>
              PhaseOf(FinishEntry(s, i, outcome).log, l) == Ended(outcome.Ok? && !s.pending[i].committed)
  {
    forall l | l in s.pending[i].leases
      ensures PhaseOf(FinishEntry(s, i, outcome).log, l) == Ended(outcome.Ok? && !s.pending[i].committed)
    {
      assert EntryOk(s, s.pending[i]);
      FinishPhases(s, i, outcome, l);
    }
  }

  /** What the pass saw at `second` still holds at `now`, and tells whether `submitted` was skipped. */
  lemma ObservedStatus(e: PendingWork, f: PendingWork, first: Gpu, second: Gpu, now: Gpu, status: Option<Outcome>)
    requires Later(first, second) && Later(second, now) && f.completion == e.completion && e.completion.scopes.Some?
    requires e.failure.None? ==> status == Status(f.completion, second)
    ensures e.failure.None? && status.Some? ==> Status(f.completion, now) == status
    ensures e.failure.None? && status.Some? && status.value.Ok? ==>
              && status == Some(Ok(()))
              && (ValidationStatus(e.completion, first).None? <==>
                    ValidationStatus(e.completion, first) != Some(Ok(())))
  {
    if e.failure.None? && status.Some? {
      assert status.value.Ok? ==> status.value.value == ();
      StatusSticks(f.completion, second, now);
      VerdictAccepts(e.completion.scopes.value, second.settled);
      if ValidationStatus(e.completion, first).Some? {
        VerdictSticks(e.completion.scopes.value, first.settled, second.settled);
      }
    }
  }

  lemma ReadySticks(e: PendingWork, g: Gpu, h: Gpu, empty: bool)
    requires Later(g, h) && ReadyAt(e, g, empty)
    ensures ReadyAt(e, h, empty)
  {
    if e.failure.None? {
      StatusSticks(e.completion, g, h);
    } else {
      ProofSticks(e, g, h);
    }
  }

  lemma SettledSticks(e: PendingWork, g: Gpu, h: Gpu)
    requires Later(g, h) && ValidationsSettled(e, g)
    ensures ValidationsSettled(e, h)
  {
    if e.completion.scopes.Some? {
      VerdictSticks(e.completion.scopes.value, g.settled, h.settled);
    }
    if e.recovery.Some? && e.recovery.value.scopes.Some? {
      VerdictSticks(e.recovery.value.scopes.value, g.settled, h.settled);
    }
  }

  /** Whatever proved an entry ready before the pass is seen by the pass. */
  lemma StillReady(e: PendingWork, f: PendingWork, g: Gpu, first: Gpu, second: Gpu, now: Gpu, status: Option<Outcome>,
                   empty: bool)
    requires Later(g, first) && Later(first, second) && Later(second, now) && ReadyAt(e, g, empty)
    requires f.completion == e.completion && (e.failure.Some? ==> f == e)
    requires e.failure.None? ==>
               && status == Status(f.completion, second)
               && (f.failure.Some? <==> status.Some? && status.value.Err?)
    ensures if e.failure.None? then f.failure.None? && status.Some? else f.failure.Some? && ReadyAt(f, now, empty)
  {
    LaterTransitive(g, first, second);
    LaterTransitive(g, second, now);
    ReadySticks(e, g, second, empty);
    ReadySticks(e, g, now, empty);
  }

  function FirstFailure(events: seq<Event>): Option<WaitError> {
    if events == [] then None
    else
      var n := |events| - 1;
      var earlier := FirstFailure(events[..n]);
      if earlier.Some? then earlier
      else if events[n].Completed? && events[n].outcome.Err? then Some(events[n].outcome.error)
      else None
  }

  lemma {:induction false} FirstFailureConcat(a: seq<Event>, b: seq<Event>)
    ensures FirstFailure(a + b) == if FirstFailure(a).Some? then FirstFailure(a) else FirstFailure(b)
  {
    if b == [] {
      assert a + b == a;
    } else {
      var n := |b| - 1;
      assert (a + b)[..|a + b| - 1] == a + b[..n];
      FirstFailureConcat(a, b[..n]);
    }
  }

  lemma {:induction false} FirstFailureOfSubmitted(leases: seq<Lease>, g: Gpu)
    ensures FirstFailure(SubmittedCalls(leases, g)).None?
  {
    if leases == [] {
    } else {
      var n := |leases| - 1;
      assert SubmittedCalls(leases, g)[..n] == SubmittedCalls(leases[..n], g);
      FirstFailureOfSubmitted(leases[..n], g);
    }
  }

  lemma {:induction false} FirstFailureOfCompleted(leases: seq<Lease>, outcome: Outcome, g: Gpu)
    requires leases != []
    ensures FirstFailure(CompletedCalls(leases, outcome, g)) == if outcome.Err? then Some(outcome.error) else None
  {
    var n := |leases| - 1;
    assert CompletedCalls(leases, outcome, g)[..n] == CompletedCalls(leases[..n], outcome, g);
    if n > 0 {
      FirstFailureOfCompleted(leases[..n], outcome, g);
    }
  }

  lemma FirstFailureFrom(early: seq<Event>, middle: seq<Event>, late: seq<Event>)
    requires early <= middle <= late
    ensures early <= late
    ensures FirstFailure(late[|early|..])
            == if FirstFailure(middle[|early|..]).Some? then FirstFailure(middle[|early|..])
               else FirstFailure(late[|middle|..])
  {
    assert late[|early|..] == middle[|early|..] + late[|middle|..];
    FirstFailureConcat(middle[|early|..], late[|middle|..]);
  }

  // ---------- what a visit and a pass tell ----------

  /** The failure the entry has at the second observation. */
  function Failing(v: Visit): Option<WaitError> {
    if v.entry.failure.Some? then v.entry.failure
    else
      match Status(v.entry.completion, v.second)
      case Some(Err(error)) => Some(error)
      case _ => None
  }

  /** The entry's own scopes and signal say Ok. */
  predicate OwnSuccess(v: Visit) {
    Failing(v).None? && Status(v.entry.completion, v.second) == Some(Ok(()))
  }

  predicate SeenAccepted(v: Visit) {
    v.entry.failure.None? && !v.entry.committed && ValidationStatus(v.entry.completion, v.first) == Some(Ok(()))
  }

  /** A failure overcome by proof, announced late. */
  predicate AnnouncedLate(v: Visit) {
    Failing(v).Some? && v.outcome == Some(Ok(())) && !v.entry.committed && !SeenAccepted(v)
  }

  function Announcements(v: Visit): seq<Event> {
    (if SeenAccepted(v) then SubmittedCalls(v.entry.leases, v.first) else [])
    + (if AnnouncedLate(v) then SubmittedCalls(v.entry.leases, v.when) else [])
  }

  /** The hook calls of one visit, in order. */
  function Told(v: Visit): seq<Event> {
    Announcements(v) + (if v.outcome.Some? then CompletedCalls(v.entry.leases, v.outcome.value, v.when) else [])
  }

  /** The completions come after the announcements. */
  lemma ToldLast(before: seq<Event>, v: Visit)
    ensures v.outcome.None? ==> before + Told(v) == before + Announcements(v)
    ensures v.outcome.Some? ==>
              before + Told(v) == before + Announcements(v) + CompletedCalls(v.entry.leases, v.outcome.value, v.when)
  {
  }

  /** A fence is asked for once, for an entry found failing while the queue is not known empty; what comes is kept. */
  ghost predicate Asks(e: PendingWork, f: PendingWork, empty: bool, asked: seq<Request>) {
    if e.failure.None? && f.failure.Some? && !empty then
      && |asked| == 1 && asked[0].Fenced? && !asked[0].fence.Unneeded?
      && (f.recovery.None? <==> asked[0].fence.Lost?)
    else asked == []
  }

  /** What the observations of a visit, and readiness at `before`, say about its outcome. */
  ghost predicate Faithful(v: Visit, before: Gpu, empty: bool) {
    && Asks(v.entry, v.left, empty, v.asked)
    && Later(before, v.first) && Later(v.first, v.second) && Later(v.second, v.when)
    && v.entry.leases != [] && Continues(v.entry, v.left) && v.left.failure == Failing(v)
    && (v.outcome.None? ==> !ReadyAt(v.entry, before, empty))
    && (v.outcome == Some(Err(Dropped)) ==> !Forgiven(v.entry, v.when))
    && (OwnSuccess(v) ==> v.outcome == Some(Ok(())))
    && (v.outcome.Some? && v.outcome.value.Err? ==> Failing(v) == Some(v.outcome.value.error))
    && (v.outcome.Some? && v.outcome.value.Ok? ==>
          OwnSuccess(v) || (Failing(v) == Some(Dropped) && Forgiven(v.entry, v.when)))
  }

  /** What the two observations of an entry make of it, and of its status. */
  ghost predicate Observed(e: PendingWork, f: PendingWork, first: Gpu, second: Gpu, now: Gpu, status: Option<Outcome>) {
    && Later(first, second) && Later(second, now) && Continues(e, f)
    && (e.failure.Some? ==> f == e)
    && (e.failure.None? ==>
          && status == Status(f.completion, second)
          && f.failure == (if status.Some? && status.value.Err? then Some(status.value.error) else None)
          && (f.committed <==> e.committed || ValidationStatus(f.completion, first) == Some(Ok(()))))
  }

  /** What the proof found by `now` makes of an entry seen at `seen`. */
  ghost predicate Decided(f: PendingWork, left: PendingWork, seen: Gpu, now: Gpu, status: Option<Outcome>,
                          outcome: Option<Outcome>, empty: bool) {
    && Later(seen, now) && left == f.(committed := left.committed) && (f.committed ==> left.committed)
    && (f.failure.None? ==> outcome == status && left == f)
    && (f.failure.Some? && outcome.Some? ==>
          if outcome.value.Ok? then f.failure == Some(Dropped) && left.committed && Forgiven(f, now)
          else f.failure == Some(outcome.value.error))
    && (left.committed && !f.committed ==> f.failure.Some? && outcome == Some(Ok(())))
    && (outcome == Some(Err(Dropped)) ==> !Forgiven(f, now))
    && (outcome.None? && f.failure.Some? ==> !ReadyAt(f, seen, empty))
  }

  /** The calls that turn an unannounced entry into an announced one. */
  function Announcing(e: PendingWork, f: PendingWork, g: Gpu): seq<Event> {
    if f.committed && !e.committed then SubmittedCalls(f.leases, g) else []
  }

  /** The entry `f` as observed, and the decision taken at `v.when`, make a faithful visit. */
  lemma DecisionFaithful(v: Visit, f: PendingWork, h: Gpu, status: Option<Outcome>, g: Gpu, empty: bool)
    requires Later(g, v.first) && v.entry.leases != [] && v.entry.completion.scopes.Some?
    requires Observed(v.entry, f, v.first, v.second, h, status)
    requires Decided(f, v.left, h, v.when, status, v.outcome, empty) && Asks(v.entry, f, empty, v.asked)
    ensures Faithful(v, g, empty)
    ensures Announcements(v) == Announcing(v.entry, f, v.first) + Announcing(f, v.left, v.when)
    ensures v.outcome.Some? ==>
              (v.outcome.value.Ok? && !v.left.committed <==> SkippedBetween(v.entry, v.first, v.second))
  {
    ObservedStatus(v.entry, f, v.first, v.second, h, status);
    LaterTransitive(v.second, h, v.when);
    if ReadyAt(v.entry, g, empty) {
      StillReady(v.entry, f, g, v.first, v.second, h, status, empty);
    }
    if v.outcome.Some? && v.outcome.value.Ok? {
      assert v.outcome.value.value == ();
    }
  }

  lemma FaithfulEarlier(v: Visit, g: Gpu, here: Gpu, empty: bool)
    requires Faithful(v, here, empty) && Later(g, here)
    ensures Faithful(v, g, empty)
  {
    LaterTransitive(g, here, v.first);
    if v.outcome.None? && ReadyAt(v.entry, g, empty) {
      ReadySticks(v.entry, g, here, empty);
    }
  }

  function PassCalls(visits: seq<Visit>): seq<Event> {
    if visits == [] then [] else PassCalls(visits[..|visits| - 1]) + Told(visits[|visits| - 1])
  }

  /** What the driver was asked in these visits. */
  function PassAsks(visits: seq<Visit>): seq<Request> {
    if visits == [] then [] else PassAsks(visits[..|visits| - 1]) + visits[|visits| - 1].asked
  }

  ghost predicate NoLaunch(asked: seq<Request>) {
    forall k :: 0 <= k < |asked| ==> !asked[k].Launched?
  }

  /** From there on, one poll that answered, and fences. */
  ghost predicate OnePoll(requests: seq<Request>, since: nat) {
    && since < |requests| && requests[since].Polled? && requests[since].answer.Ok?
    && forall k :: since < k < |requests| ==> requests[k].Fenced?
  }

  /** From there on, every nap is followed by a poll. */
  ghost predicate EachNapPolls(requests: seq<Request>, since: nat) {
    forall k :: since <= k < |requests| && requests[k].Slept? ==> k + 1 < |requests| && requests[k + 1].Polled?
  }

  lemma NapPolls(before: seq<Request>, after: seq<Request>, since: nat)
    requires before <= after && since <= |before| && EachNapPolls(before, since)
    requires |before| < |after| && after[|before|].Slept? && OnePoll(after, |before| + 1)
    ensures EachNapPolls(after, since)
  {
  }

  function Polls(requests: seq<Request>): nat {
    if requests == [] then 0
    else Polls(requests[..|requests| - 1]) + if requests[|requests| - 1].Polled? then 1 else 0
  }

  lemma {:induction false} PollsConcat(a: seq<Request>, b: seq<Request>)
    ensures Polls(a + b) == Polls(a) + Polls(b)
  {
    if b == [] {
      assert a + b == a;
    } else {
      assert (a + b)[..|a + b| - 1] == a + b[..|b| - 1];
      PollsConcat(a, b[..|b| - 1]);
    }
  }

  lemma PollsSince(start: seq<Request>, middle: seq<Request>, late: seq<Request>)
    requires start <= middle <= late
    ensures Polls(late[|start|..]) == Polls(middle[|start|..]) + Polls(late[|middle|..])
  {
    assert late[|start|..] == middle[|start|..] + late[|middle|..];
    PollsConcat(middle[|start|..], late[|middle|..]);
  }

  lemma {:induction false} NoPolls(requests: seq<Request>)
    requires forall k :: 0 <= k < |requests| ==> !requests[k].Polled?
    ensures Polls(requests) == 0
  {
    if requests == [] {
    } else {
      NoPolls(requests[..|requests| - 1]);
    }
  }

  lemma OnePollCounts(start: seq<Request>, middle: seq<Request>, late: seq<Request>)
    requires start <= middle <= late && OnePoll(late, |middle|)
    ensures Polls(late[|start|..]) == Polls(middle[|start|..]) + 1
  {
    var more := late[|middle|..];
    PollsSince(start, middle, late);
    assert more == [more[0]] + more[1..];
    PollsConcat([more[0]], more[1..]);
    NoPolls(more[1..]);
    assert [more[0]][..0] == [];
  }

  lemma NapCounts(start: seq<Request>, middle: seq<Request>, late: seq<Request>)
    requires start <= middle <= late && forall k :: |middle| <= k < |late| ==> late[k].Slept?
    ensures Polls(late[|start|..]) == Polls(middle[|start|..])
  {
    PollsSince(start, middle, late);
    NoPolls(late[|middle|..]);
  }

  /** The work was handed to the driver once, last of all, and accepted. */
  ghost predicate Handed(asked: seq<Request>) {
    asked != [] && var n := |asked| - 1;
    asked[n].Launched? && asked[n].launch.Accepted? && NoLaunch(asked[..n])
  }

  /** The work was handed to the driver once, and a fence was asked for right after. */
  ghost predicate HandedAndFenced(asked: seq<Request>, unwound: Option<string>) {
    |asked| >= 2 && var n := |asked| - 2;
    && asked[n].Launched? && asked[n + 1].Fenced? && !asked[n + 1].fence.Unneeded? && NoLaunch(asked[..n])
    && match unwound
       case None => asked[n].launch.Accepted?
       case Some(message) => asked[n].launch.Unwound? && asked[n].launch.message == message
  }

  lemma HandedLater(a: seq<Request>, b: seq<Request>, unwound: Option<string>)
    requires NoLaunch(a)
    ensures NoLaunch(b) ==> NoLaunch(a + b)
    ensures Handed(b) ==> Handed(a + b)
    ensures HandedAndFenced(b, unwound) ==> HandedAndFenced(a + b, unwound)
  {
    if Handed(b) {
      assert (a + b)[..|a + b| - 1] == a + b[..|b| - 1];
    }
    if HandedAndFenced(b, unwound) {
      assert (a + b)[..|a + b| - 2] == a + b[..|b| - 2];
    }
  }

  /** Apart from the poll it begins with, a pass asks for fences only. */
  lemma {:induction false} PassFences(visits: seq<Visit>, start: Gpu, empty: bool)
    requires forall v :: v in visits ==> Faithful(v, start, empty)
    ensures OnlyFences(PassAsks(visits)) && (empty ==> PassAsks(visits) == [])
  {
    if visits == [] {
    } else {
      PassFences(visits[..|visits| - 1], start, empty);
      assert visits[|visits| - 1] in visits;
    }
  }

  /** Entries that stay queued after these visits. */
  function Survivors(visits: seq<Visit>): seq<PendingWork> {
    if visits == [] then []
    else
      var last := visits[|visits| - 1];
      Survivors(visits[..|visits| - 1]) + (if last.outcome.None? then [last.left] else [])
  }

  /** The entries visited so far, in submission order, each after the one before. */
  ghost predicate Pass(olds: seq<PendingWork>, visits: seq<Visit>, start: Gpu, empty: bool) {
    && |visits| <= |olds|
    && (forall k :: 0 <= k < |visits| ==> visits[k].entry == olds[k] && Faithful(visits[k], start, empty))
    && (forall j, k :: 0 <= j < k < |visits| ==> Later(visits[j].when, visits[k].first))
  }

  lemma PassPush(visits: seq<Visit>, v: Visit)
    ensures PassCalls(visits + [v]) == PassCalls(visits) + Told(v)
    ensures Survivors(visits + [v]) == if v.outcome.None? then Survivors(visits) + [v.left] else Survivors(visits)
  {
    assert (visits + [v])[..|visits|] == visits;
  }

  lemma AsksPush(before: seq<Request>, visits: seq<Visit>, v: Visit)
    ensures before + PassAsks(visits + [v]) == before + PassAsks(visits) + v.asked
  {
    assert (visits + [v])[..|visits|] == visits;
  }

  lemma {:induction false} SurvivorStays(visits: seq<Visit>, k: nat)
    requires k < |visits| && visits[k].outcome.None?
    ensures visits[k].left in Survivors(visits)
  {
    var n := |visits| - 1;
    if k < n {
      SurvivorStays(visits[..n], k);
    }
  }

  /**
   What a pass does not miss, read off the scopes and signals as they were when it began: an
   accepted and signalled entry succeeds; a rejected entry, or an accepted one whose callback failed
   or was dropped, has that failure and is settled with it, or stays; a failed entry with proof of
   retirement is settled. A dropped callback, and no other failure, is told as a success, exactly if every scope
   has accepted and no loss is reported by then.
   */
  ghost predicate Noticed(v: Visit, g: Gpu, empty: bool) {
    var e := v.entry;
    && (e.failure.None? && AcceptedBy(e.completion, g) && SignalledBy(e.completion, g, Ok(())) ==>
          v.outcome == Some(Ok(())))
    && (forall error :: e.failure.None? && FailedBy(e, g, error) ==>
                          match v.outcome
                          case None => v.left.failure == Some(error)
                          case Some(Err(told)) => told == error
                          case Some(Ok(_)) => error == Dropped && Excused(e, v.when))
    && (v.outcome == Some(Err(Dropped)) ==> !Excused(e, v.when))
    && (e.failure.Some? && v.outcome.Some? ==>
          if v.outcome.value.Ok? then e.failure == Some(Dropped) && Excused(e, v.when)
          else v.outcome.value.error == e.failure.value)
    && (e.failure.Some? && RetiredBy(e, g, empty) ==> v.outcome.Some?)
  }

  /** Every scope has accepted, and no loss is reported. */
  ghost predicate Excused(e: PendingWork, g: Gpu) {
    e.completion.scopes.Some? && AcceptedBy(e.completion, g) && g.lost.None?
  }

  /** All scopes have settled, and the queue is known empty or the fence was signalled and accepted. */
  ghost predicate RetiredBy(e: PendingWork, g: Gpu, empty: bool) {
    && SettledBy(e.completion, g) && (e.recovery.Some? ==> SettledBy(e.recovery.value, g))
    && (|| empty
        || (&& e.recovery.Some? && AcceptedBy(e.recovery.value, g)
            && SignalledBy(e.recovery.value, g, Ok(()))))
  }

  /** A scope has rejected the entry, or its scopes accepted and its callback failed or was dropped. */
  ghost predicate FailedBy(e: PendingWork, g: Gpu, error: WaitError) {
    RejectedBy(e.completion, g, error) || (AcceptedBy(e.completion, g) && SignalledBy(e.completion, g, Err(error)))
  }

  lemma Notices(v: Visit, g: Gpu, empty: bool)
    requires Faithful(v, g, empty)
    ensures Noticed(v, g, empty)
  {
    var e := v.entry;
    StatusMeans(e.completion, g, Ok(()));
    StatusMeans(e.completion, v.when, Ok(()));
    ProofMeans(e, g);
    LaterTransitive(g, v.first, v.second);
    if Status(e.completion, g).Some? {
      StatusSticks(e.completion, g, v.second);
    }
    forall error | e.failure.None? && FailedBy(e, g, error) ensures Failing(v) == Some(error) {
      StatusMeans(e.completion, g, Err(error));
    }
  }

  ghost predicate AllNoticed(visits: seq<Visit>, g: Gpu, empty: bool) {
    forall v :: v in visits ==> Noticed(v, g, empty)
  }

  /** What was left unsettled is still queued. */
  ghost predicate AllRemain(visits: seq<Visit>, pending: seq<PendingWork>) {
    forall v :: v in visits && v.outcome.None? ==> v.left in pending
  }

  ghost predicate OnlyFences(asked: seq<Request>) {
    forall k :: 0 <= k < |asked| ==> asked[k].Fenced?
  }

  lemma PassNotices(olds: seq<PendingWork>, visits: seq<Visit>, start: Gpu, empty: bool)
    requires Pass(olds, visits, start, empty)
    ensures AllNoticed(visits, start, empty) && AllRemain(visits, Survivors(visits))
  {
    forall k | 0 <= k < |visits| ensures Noticed(visits[k], start, empty) {
      Notices(visits[k], start, empty);
    }
    forall k | 0 <= k < |visits| && visits[k].outcome.None? ensures visits[k].left in Survivors(visits) {
      SurvivorStays(visits, k);
    }
  }

  /** The entry's leases have ended, and skipped `submitted` exactly if acceptance came between the two looks. */
  ghost predicate SkipsExactly(v: Visit, log: seq<Event>) {
    v.outcome.Some? ==> forall l :: l in v.entry.leases ==>
        PhaseOf(log, l) == Ended(SkippedBetween(v.entry, v.first, v.second))
  }

  ghost predicate LeasesApart(entries: seq<PendingWork>) {
    forall i, j, l ::
      0 <= i < |entries| && 0 <= j < |entries| && l in entries[i].leases && l in entries[j].leases ==> i == j
  }

  lemma ToldLeases(v: Visit)
    ensures forall e :: e in Told(v) ==> e.lease in v.entry.leases
  {
  }

  /** The visits, and the moment after them, are in order. */
  ghost predicate PassedBy(olds: seq<PendingWork>, visits: seq<Visit>, start: Gpu, empty: bool, now: Gpu) {
    && Pass(olds, visits, start, empty) && Later(start, now)
    && forall k :: 0 <= k < |visits| ==> Later(visits[k].when, now)
  }

  ghost predicate AllSkipExactly(visits: seq<Visit>, log: seq<Event>) {
    forall k :: 0 <= k < |visits| ==> SkipsExactly(visits[k], log)
  }

  /** A visit extends the pass. */
  lemma PassNext(olds: seq<PendingWork>, visits: seq<Visit>, v: Visit, start: Gpu, here: Gpu, empty: bool)
    requires PassedBy(olds, visits, start, empty, here) && |visits| < |olds| && v.entry == olds[|visits|]
    requires Faithful(v, here, empty)
    ensures PassedBy(olds, visits + [v], start, empty, v.when)
  {
    FaithfulEarlier(v, start, here, empty);
    LaterTransitive(here, v.first, v.second);
    LaterTransitive(here, v.second, v.when);
    LaterTransitive(start, here, v.when);
    forall k | 0 <= k < |visits| ensures Later(visits[k].when, v.first) && Later(visits[k].when, v.when) {
      LaterTransitive(visits[k].when, here, v.first);
      LaterTransitive(visits[k].when, here, v.when);
    }
  }

  /** What a visit tells concerns its own leases only. */
  lemma VerdictsStay(olds: seq<PendingWork>, visits: seq<Visit>, v: Visit, log: seq<Event>)
    requires |visits| < |olds| && v.entry == olds[|visits|] && LeasesApart(olds)
    requires forall k :: 0 <= k < |visits| ==> visits[k].entry == olds[k]
    requires AllSkipExactly(visits, log) && SkipsExactly(v, log + Told(v))
    ensures AllSkipExactly(visits + [v], log + Told(v))
  {
    ToldLeases(v);
    forall k | 0 <= k < |visits| ensures SkipsExactly(visits[k], log + Told(v)) {
      forall l | l in visits[k].entry.leases ensures PhaseOf(log + Told(v), l) == PhaseOf(log, l) {
        assert l in olds[k].leases;
        PhaseUntouched(log, Told(v), l);
      }
    }
  }

  lemma Regroup<T>(a: seq<T>, b: seq<T>, c: seq<T>)
    ensures (a + b) + c == a + (b + c)
  {
  }

  lemma ReplaceAt<T>(a: seq<T>, x: T, b: seq<T>, y: T)
    ensures (a + [x] + b)[|a| := y] == a + [y] + b
    ensures (a + [x] + b)[..|a|] + (a + [x] + b)[|a| + 1..] == a + b
  {
  }

  lemma Following<T>(s: seq<T>, n: nat)
    requires n < |s|
    ensures s[n..] == [s[n]] + s[n + 1..]
  {
  }

  lemma SurvivorsNext(olds: seq<PendingWork>, visits: seq<Visit>, v: Visit, before: seq<PendingWork>,
                      after: seq<PendingWork>)
    requires |visits| < |olds| && before == Survivors(visits) + olds[|visits|..]
    requires var index := |Survivors(visits)|;
             if v.outcome.None? then after == before[index := v.left]
             else after == before[..index] + before[index + 1..]
    ensures after == Survivors(visits + [v]) + olds[|visits| + 1..]
  {
    PassPush(visits, v);
    ReplaceNext(Survivors(visits), olds, |visits|, v.left);
  }

  lemma ReplaceNext<T>(a: seq<T>, s: seq<T>, n: nat, y: T)
    requires n < |s|
    ensures (a + s[n..])[|a| := y] == a + [y] + s[n + 1..]
    ensures (a + s[n..])[..|a|] + (a + s[n..])[|a| + 1..] == a + s[n + 1..]
  {
    Following(s, n);
    Regroup(a, [s[n]], s[n + 1..]);
    ReplaceAt(a, s[n], s[n + 1..], y);
  }

  /** The pass has visited these entries by `now`, told their leases exactly this, and kept the others. */
  ghost predicate PassingAt(n: nat, olds: seq<PendingWork>, visits: seq<Visit>, start: Gpu, empty: bool, now: Gpu,
                            pending: seq<PendingWork>, before: seq<Event>, log: seq<Event>) {
    && n == |visits| && PassedBy(olds, visits, start, empty, now)
    && pending == Survivors(visits) + olds[n..]
    && log == before + PassCalls(visits) && AllSkipExactly(visits, log)
  }

  /** The trigger keeps the account of a pass folded until a proof names `PassingAt`. */
  ghost predicate Passing(olds: seq<PendingWork>, visits: seq<Visit>, start: Gpu, empty: bool, now: Gpu,
                          pending: seq<PendingWork>, before: seq<Event>, log: seq<Event>) {
    forall n {:trigger PassingAt(n, olds, visits, start, empty, now, pending, before, log)} ::
      n == |visits| ==> PassingAt(n, olds, visits, start, empty, now, pending, before, log)
  }

  lemma PassingFrom(olds: seq<PendingWork>, start: Gpu, empty: bool, log: seq<Event>)
    ensures Passing(olds, [], start, empty, start, olds, log, log)
  {
    assert Survivors([]) + olds[0..] == olds && log + PassCalls([]) == log;
  }

  lemma PassingFold(olds: seq<PendingWork>, visits: seq<Visit>, start: Gpu, empty: bool, now: Gpu,
                    pending: seq<PendingWork>, before: seq<Event>, log: seq<Event>)
    requires PassedBy(olds, visits, start, empty, now) && pending == Survivors(visits) + olds[|visits|..]
    requires log == before + PassCalls(visits) && AllSkipExactly(visits, log)
    ensures Passing(olds, visits, start, empty, now, pending, before, log)
  {
  }

  lemma PassingVisit(olds: seq<PendingWork>, visits: seq<Visit>, v: Visit, start: Gpu, empty: bool, here: Gpu,
                     pending: seq<PendingWork>, before: seq<Event>, log: seq<Event>)
    requires Passing(olds, visits, start, empty, here, pending, before, log) && LeasesApart(olds)
    requires |Survivors(visits)| < |pending| && v.entry == pending[|Survivors(visits)|]
    requires Faithful(v, here, empty) && SkipsExactly(v, log + Told(v))
    ensures |visits| < |olds| && PassedBy(olds, visits + [v], start, empty, v.when)
    ensures AllSkipExactly(visits + [v], log + Told(v))
  {
    assert PassingAt(|visits|, olds, visits, start, empty, here, pending, before, log);
    assert v.entry == olds[|visits|] by {
      Following(olds, |visits|);
    }
    PassNext(olds, visits, v, start, here, empty);
    VerdictsStay(olds, visits, v, log);
  }

  lemma PassingNext(olds: seq<PendingWork>, visits: seq<Visit>, v: Visit, start: Gpu, empty: bool, here: Gpu,
                    pending: seq<PendingWork>, before: seq<Event>, log: seq<Event>, after: seq<PendingWork>)
    requires Passing(olds, visits, start, empty, here, pending, before, log) && LeasesApart(olds)
    requires var index := |Survivors(visits)|;
             && index < |pending| && v.entry == pending[index]
             && if v.outcome.None? then after == pending[index := v.left]
                else after == pending[..index] + pending[index + 1..]
    requires Faithful(v, here, empty) && SkipsExactly(v, log + Told(v))
    ensures Passing(olds, visits + [v], start, empty, v.when, after, before, log + Told(v))
  {
    PassingVisit(olds, visits, v, start, empty, here, pending, before, log);
    assert pending == Survivors(visits) + olds[|visits|..] && log == before + PassCalls(visits) by {
      assert PassingAt(|visits|, olds, visits, start, empty, here, pending, before, log);
    }
    SurvivorsNext(olds, visits, v, pending, after);
    assert log + Told(v) == before + PassCalls(visits + [v]) by {
      PassPush(visits, v);
      Regroup(before, PassCalls(visits), Told(v));
    }
    PassingFold(olds, visits + [v], start, empty, v.when, after, before, log + Told(v));
  }

  lemma PassingLength(olds: seq<PendingWork>, visits: seq<Visit>, start: Gpu, empty: bool, now: Gpu,
                      pending: seq<PendingWork>, before: seq<Event>, log: seq<Event>)
    requires Passing(olds, visits, start, empty, now, pending, before, log)
    ensures |visits| <= |olds| && |pending| == |Survivors(visits)| + |olds| - |visits|
    ensures |visits| == |olds| ==> pending == Survivors(visits)
    ensures Later(start, now) && Pass(olds, visits, start, empty)
    ensures before <= log && log[|before|..] == PassCalls(visits)
  {
    assert PassingAt(|visits|, olds, visits, start, empty, now, pending, before, log);
  }

  lemma FirstFailureOfTold(v: Visit)
    requires v.entry.leases != []
    ensures FirstFailure(Told(v))
            == if v.outcome.Some? && v.outcome.value.Err? then Some(v.outcome.value.error) else None
  {
    var early := if SeenAccepted(v) then SubmittedCalls(v.entry.leases, v.first) else [];
    var late := if AnnouncedLate(v) then SubmittedCalls(v.entry.leases, v.when) else [];
    FirstFailureOfSubmitted(v.entry.leases, v.first);
    FirstFailureOfSubmitted(v.entry.leases, v.when);
    FirstFailureConcat(early, late);
    if v.outcome.Some? {
      FirstFailureOfCompleted(v.entry.leases, v.outcome.value, v.when);
      FirstFailureConcat(early + late, CompletedCalls(v.entry.leases, v.outcome.value, v.when));
    } else {
      assert Told(v) == early + late;
    }
  }

  lemma PassFailure(visits: seq<Visit>, v: Visit)
    requires v.entry.leases != []
    ensures FirstFailure(PassCalls(visits) + Told(v))
            == if FirstFailure(PassCalls(visits)).Some? then FirstFailure(PassCalls(visits))
               else if v.outcome.Some? && v.outcome.value.Err? then Some(v.outcome.value.error)
               else None
  {
    FirstFailureOfTold(v);
    FirstFailureConcat(PassCalls(visits), Told(v));
  }

  /** A pass answers with the first failure it told, or else with the number of entries that left. */
  function Tally(failure: Option<WaitError>, left: nat): Result<nat, WaitError> {
    if failure.Some? then Err(failure.value) else Ok(left)
  }

  /** Some success among these calls is dated after a reported loss. */
  ghost predicate ToldLost(events: seq<Event>) {
    exists k :: 0 <= k < |events| && TellsLost(events[k])
  }

  lemma ToldLostConcat(a: seq<Event>, b: seq<Event>)
    ensures ToldLost(a + b) <==> ToldLost(a) || ToldLost(b)
  {
    if k :| 0 <= k < |a| && TellsLost(a[k]) {
      assert (a + b)[k] == a[k];
    }
    if k :| 0 <= k < |b| && TellsLost(b[k]) {
      assert (a + b)[|a| + k] == b[k];
    }
    if k :| 0 <= k < |a + b| && TellsLost((a + b)[k]) {
      assert (a + b)[k] == if k < |a| then a[k] else b[k - |a|];
    }
  }

  lemma VisitTellsLost(v: Visit, before: Gpu, empty: bool)
    requires Faithful(v, before, empty)
    ensures ToldLost(Told(v)) <==> OwnSuccess(v) && v.when.lost.Some?
  {
    var early := if SeenAccepted(v) then SubmittedCalls(v.entry.leases, v.first) else [];
    var late := if AnnouncedLate(v) then SubmittedCalls(v.entry.leases, v.when) else [];
    var last := if v.outcome.Some? then CompletedCalls(v.entry.leases, v.outcome.value, v.when) else [];
    ToldLostConcat(early, late);
    ToldLostConcat(early + late, last);
    if OwnSuccess(v) && v.when.lost.Some? {
      assert TellsLost(last[0]);
    }
  }

  /** Some visited entry had succeeded by its own signal, and the loss was reported by the time of that visit. */
  ghost predicate SucceedsDespiteLoss(visits: seq<Visit>) {
    exists k :: 0 <= k < |visits| && OwnSuccess(visits[k]) && visits[k].when.lost.Some?
  }

  lemma SucceedsNext(visits: seq<Visit>, v: Visit)
    ensures SucceedsDespiteLoss(visits + [v]) <==> SucceedsDespiteLoss(visits) || (OwnSuccess(v) && v.when.lost.Some?)
  {
    if k :| 0 <= k < |visits| && OwnSuccess(visits[k]) && visits[k].when.lost.Some? {
      assert (visits + [v])[k] == visits[k];
    }
    assert (visits + [v])[|visits|] == v;
  }

  /** A pass tells a success despite a reported loss exactly if it visited such an entry. */
  lemma {:induction false} PassTellsLost(visits: seq<Visit>, start: Gpu, empty: bool)
    requires forall v :: v in visits ==> Faithful(v, start, empty)
    ensures ToldLost(PassCalls(visits)) <==> SucceedsDespiteLoss(visits)
  {
    if visits == [] {
    } else {
      var n := |visits| - 1;
      var before, v := visits[..n], visits[n];
      assert visits == before + [v];
      PassTellsLost(before, start, empty);
      VisitTellsLost(v, start, empty);
      ToldLostConcat(PassCalls(before), Told(v));
      SucceedsNext(before, v);
    }
  }

  lemma SweepDone(olds: seq<PendingWork>, visits: seq<Visit>, start: Gpu, empty: bool, now: Gpu,
                  pending: seq<PendingWork>, before: seq<Event>, log: seq<Event>)
    requires Passing(olds, visits, start, empty, now, pending, before, log) && |visits| == |olds|
    ensures pending == Survivors(visits) && Later(start, now) && AllSkipExactly(visits, log)
    ensures before <= log && log[|before|..] == PassCalls(visits)
    ensures ToldLost(PassCalls(visits)) <==> SucceedsDespiteLoss(visits)
    ensures AllNoticed(visits, start, empty) && AllRemain(visits, pending) && OnlyFences(PassAsks(visits))
  {
    PassingLength(olds, visits, start, empty, now, pending, before, log);
    assert PassingAt(|visits|, olds, visits, start, empty, now, pending, before, log);
    PassTellsLost(visits, start, empty);
    PassNotices(olds, visits, start, empty);
    PassFences(visits, start, empty);
  }

  /** No lease is told Ok. */
  ghost predicate NoneSucceed(events: seq<Event>) {
    forall k :: 0 <= k < |events| ==> !(events[k].Completed? && events[k].outcome.Ok?)
  }

  lemma {:induction false} NoneSucceedLost(entries: seq<PendingWork>, error: WaitError, g: Gpu)
    ensures NoneSucceed(SettleAll(entries, Err(error), g))
  {
    if entries == [] {
    } else {
      NoneSucceedLost(entries[1..], error, g);
    }
  }

  /** The hook calls that tell every entry, oldest first, the same outcome. */
  function SettleAll(entries: seq<PendingWork>, outcome: Outcome, g: Gpu): seq<Event> {
    if entries == [] then []
    else CompletedCalls(entries[0].leases, outcome, g) + SettleAll(entries[1..], outcome, g)
  }

  lemma FirstFailureOfSettleAll(entries: seq<PendingWork>, outcome: Outcome, g: Gpu)
    requires entries != [] && entries[0].leases != [] && outcome.Err?
    ensures FirstFailure(SettleAll(entries, outcome, g)) == Some(outcome.error)
  {
    FirstFailureConcat(CompletedCalls(entries[0].leases, outcome, g), SettleAll(entries[1..], outcome, g));
    FirstFailureOfCompleted(entries[0].leases, outcome, g);
  }

  /** What a terminal loss tells: no success, and first of all the loss. */
  lemma LostCalls(before: seq<Event>, entries: seq<PendingWork>, error: WaitError, g: Gpu)
    requires entries != [] ==> entries[0].leases != []
    ensures var log := before + SettleAll(entries, Err(error), g);
            && NoneSucceed(log[|before|..])
            && (entries != [] ==> FirstFailure(log[|before|..]) == Some(error))
  {
    var calls := SettleAll(entries, Err(error), g);
    assert (before + calls)[|before|..] == calls;
    NoneSucceedLost(entries, error, g);
    if entries != [] {
      FirstFailureOfSettleAll(entries, Err(error), g);
    }
  }

  lemma ReplaceTwice<T>(s: seq<T>, i: nat, x: T, y: T)
    requires i < |s|
    ensures s[i := x][i := y] == s[i := y]
  {
  }

  lemma ReplaceLast<T>(s: seq<T>, x: T, y: T)
    ensures (s + [x])[|s| := y] == s + [y] && (s + [x])[|s|] == x && (s + [x])[..|s|] == s
  {
  }

  class WorkQueue {
    const context: WorkContext
    const capacity: nat
    var pending: seq<PendingWork>
    var poisoned: bool
    var pollFault: Option<WaitError>

    /** The fields mirror the protocol run. */
    ghost predicate Mirrors()
      reads this, context
    {
      && context.Calling()
      && pending == context.st.pending
      && poisoned == context.st.poisoned
      && pollFault == context.st.pollFault
      && (pollFault.Some? ==> pollFault.value.PollPanicked?)
      && 1 <= capacity && |pending| <= capacity
    }

    /** Native scopes answer at submission, so every entry is announced or failed. */
    ghost predicate Tied()
      reads this, context
    {
      && Mirrors()
      && (context.immediate ==> forall i :: 0 <= i < |pending| ==> pending[i].committed || pending[i].failure.Some?)
    }

    ghost predicate HasFailure()
      reads this
    {
      exists e :: e in pending && e.failure.Some?
    }

    /** Between public calls the poison flag is exact, and an observed loss leaves nothing pending. */
    ghost predicate Valid()
      reads this, context
    {
      && Tied()
      && (poisoned <==> HasFailure() || pollFault.Some? || context.st.lossSeen)
      && (context.st.lossSeen ==> pending == []) && context.st.looked.None?
    }

    constructor (context: WorkContext, capacity: nat)
      requires context.Valid() && 1 <= capacity
      requires context.st.pending == [] && !context.st.poisoned && context.st.pollFault.None? && !context.st.lossSeen
      ensures Valid() && this.context == context && this.capacity == capacity && pending == []
    {
      this.context, this.capacity := context, capacity;
      pending, poisoned, pollFault := [], false, None;
    }

    // ---------- one entry ----------

    /** Tell every lease of the entry that its commands were accepted. */
    method Announce(index: nat)
      requires Mirrors() && Enabled(context.st, Commit(index))
      modifies this`pending, context`st, context`states, context`steps
      ensures Mirrors() && context.gpu == old(context.gpu) && |pending| == old(|pending|)
      ensures pending == old(pending)[index := old(pending)[index].(committed := true)]
      ensures context.st == old(context.st).(
                pending := pending,
                log := old(context.st.log) + SubmittedCalls(old(pending)[index].leases, context.gpu))
    {
      context.Take(Commit(index));
      pending := pending[index := pending[index].(committed := true)];
    }

    /** Remove the entry, keeping submission order, and settle its leases. */
    method Settle(index: nat, outcome: Outcome)
      requires Tied() && Enabled(context.st, Finish(index, outcome))
      modifies this`pending, context`st, context`states, context`steps
      ensures Tied() && context.gpu == old(context.gpu)
      ensures context.st == FinishEntry(old(context.st), index, outcome)
    {
      context.Take(Finish(index, outcome));
      pending := pending[..index] + pending[index + 1..];
    }

    /** Queue a fence behind the failed entry; whatever comes of it, its scopes are kept. */
    method Recover(index: nat) returns (fence: Fence)
      requires index < |pending| && pending[index].recovery.None?
      modifies this`pending, context`gpu, context`requests
      ensures !fence.Unneeded? && context.requests == old(context.requests) + [Fenced(fence)]
      ensures context.gpu == FenceGpu(old(context.gpu), fence)
      ensures var e := old(pending)[index];
              pending == old(pending)[index := e.(recovery := FenceSubmission(old(context.gpu), fence))]
      ensures Kept(fence, pending[index].recovery, old(context.gpu), context.gpu)
    {
      fence := context.AskFence();
      if !fence.Lost? {
        pending := pending[index := pending[index].(recovery := FenceSubmission(context.gpu, fence))];
        context.gpu := FenceGpu(context.gpu, fence);
      }
    }

    /** Latch the entry's first failure and, unless the queue is known empty, ask for a fence. */
    method FailEntry(index: nat, error: WaitError, queueEmpty: bool) returns (fence: Fence)
      requires Mirrors() && Enabled(context.st, Fail(index, error, Lost))
      requires queueEmpty ==> KnownIdle(context.st, pending[index])
      modifies this`pending, this`poisoned, context`st, context`states, context`steps, context`gpu, context`requests
      ensures Mirrors() && Later(old(context.gpu), context.gpu)
      ensures context.requests == old(context.requests) + if queueEmpty then [] else [Fenced(fence)]
      ensures old(pending)[index].recovery.None? && (fence.Unneeded? <==> queueEmpty)
      ensures context.st == old(context.st).(gpu := context.gpu, pending := pending, poisoned := true,
                                             looked := None, fenced := context.st.fenced)
      ensures context.gpu.queued == old(context.gpu.queued) && |pending| == old(|pending|)
      ensures var e := old(pending)[index];
              pending == old(pending)[index := e.(failure := Some(error), recovery := pending[index].recovery)]
      ensures context.gpu == FenceGpu(old(context.gpu), fence)
                && pending[index].recovery == FenceSubmission(old(context.gpu), fence)
      ensures fence.Unneeded? ==> pending[index].recovery.None?
      ensures !fence.Unneeded? ==> Kept(fence, pending[index].recovery, old(context.gpu), context.gpu)
    {
      context.Safe();
      assert EntryOk(context.st, pending[index]);
      pending := pending[index := pending[index].(failure := Some(error))];
      poisoned := true;
      fence := Unneeded;
      if !queueEmpty {
        fence := Recover(index);
      }
      FenceFrame(context.st.gpu, fence);
      context.Take(Fail(index, error, fence));
    }

    /** Look for proof of retirement, and for a cleanly retired callback that was dropped. */
    method Inspect(index: nat, queueEmpty: bool) returns (retired: bool, recovered: bool)
      requires Tied() && index < |pending|
      requires queueEmpty ==> KnownIdle(context.st, pending[index])
      modifies context`st, context`states, context`steps, context`gpu
      ensures Tied() && Later(old(context.gpu), context.gpu) && context.gpu.queued == old(context.gpu.queued)
      ensures context.st == old(context.st).(gpu := context.gpu)
      ensures var e := pending[index];
              && (retired ==> ValidationsSettled(e, context.gpu)
                              && (KnownIdle(context.st, e) || RecoveryProved(e, context.gpu)))
              && (recovered <==> retired && e.failure == Some(Dropped) && Forgiven(e, context.gpu))
              && (e.failure.Some? && !retired ==> !ReadyAt(e, old(context.gpu), queueEmpty))
    {
      var e := pending[index];
      ghost var g0 := context.gpu;
      context.AdvanceInCall();
      ghost var g1 := context.gpu;
      retired := ValidationsSettled(e, context.gpu) && (queueEmpty || RecoveryProved(e, context.gpu));
      ProofSticks(e, g0, g1);
      context.AdvanceInCall();
      ProofSticks(e, g1, context.gpu);
      LaterTransitive(g0, g1, context.gpu);
      recovered := retired && e.failure == Some(Dropped) && context.gpu.lost.None?
                   && ValidationStatus(e.completion, context.gpu) == Some(Ok(()));
    }

    /**
     Decide what the entry is settled with: its own outcome, or for a failed entry its
     failure once retirement is proved. A dropped callback whose work is proved retired
     and accepted is a success, announced first if it never was.
     */
    method DecideEntry(index: nat, queueEmpty: bool, status: Option<Outcome>) returns (outcome: Option<Outcome>)
      requires Tied() && !context.st.lossSeen && index < |pending|
      requires queueEmpty ==> KnownIdle(context.st, pending[index])
      requires pending[index].failure.None? && status.Some? ==>
                 && status == Some(Ok(())) && Status(pending[index].completion, context.gpu) == status
                 && (pending[index].committed || LookedAt(context.st, pending[index]))
      modifies this`pending, context`st, context`states, context`steps, context`gpu
      ensures Tied() && Later(old(context.gpu), context.gpu)
      ensures |pending| == old(|pending|)
      ensures pending == old(pending)[index := pending[index]]
      ensures context.st == old(context.st).(gpu := context.gpu, pending := pending, log := context.st.log)
      ensures context.gpu.queued == old(context.gpu.queued)
      ensures outcome.Some? ==> Enabled(context.st, Finish(index, outcome.value))
      ensures Decided(old(pending)[index], pending[index], old(context.gpu), context.gpu, status, outcome, queueEmpty)
      ensures context.st.log == old(context.st.log) + Announcing(old(pending)[index], pending[index], context.gpu)
    {
      var entry := pending[index];
      ghost var g := context.gpu;
      var retired, recovered := Inspect(index, queueEmpty);
      if recovered && !entry.committed {
        Announce(index);
      }
      if entry.failure.Some? {
        outcome := if recovered then Some(Ok(())) else if retired then Some(Err(entry.failure.value)) else None;
      } else {
        if status.Some? {
          StatusSticks(entry.completion, g, context.gpu);
        }
        outcome := status;
      }
    }

    /**
     The two observations of one pass: announce an acceptance seen at `first`, then latch
     a failure seen at `second`.
     */
    method Observe(index: nat, queueEmpty: bool)
      returns (status: Option<Outcome>, ghost first: Gpu, ghost second: Gpu, ghost asked: seq<Request>)
      requires Tied() && !context.st.lossSeen && index < |pending|
      requires queueEmpty ==> KnownIdle(context.st, pending[index])
      modifies this`pending, this`poisoned, context`st, context`states, context`steps, context`gpu, context`requests
      ensures context.requests == old(context.requests) + asked
      ensures Tied() && !context.st.lossSeen
      ensures context.st.works == old(context.st.works) && context.st.pollFault == old(context.st.pollFault)
      ensures context.st.idle == old(context.st.idle) && context.gpu.queued == old(context.gpu.queued)
      ensures |pending| == old(|pending|) && pending == old(pending)[index := pending[index]]
      ensures Asks(old(pending)[index], pending[index], queueEmpty, asked)
      ensures Later(old(context.gpu), first)
      ensures Observed(old(pending)[index], pending[index], first, second, context.gpu, status)
      ensures pending[index].failure.None? ==> pending[index].committed || LookedAt(context.st, pending[index])
      ensures context.st.log == old(context.st.log) + Announcing(old(pending)[index], pending[index], first)
    {
      first := ObserveAcceptance(index);
      context.AdvanceInCall();
      second := context.gpu;
      status := Status(pending[index].completion, context.gpu);
      asked := [];
      if pending[index].failure.None? && status.Some? && status.value.Err? {
        var fence := FailEntry(index, status.value.error, queueEmpty);
        asked := if queueEmpty then [] else [Fenced(fence)];
      }
    }

    method ObserveAcceptance(index: nat) returns (ghost first: Gpu)
      requires Tied() && !context.st.lossSeen && index < |pending|
      modifies this`pending, context`st, context`states, context`steps, context`gpu
      ensures Tied() && first == context.gpu && Evolves(old(context.gpu), first)
      ensures context.st == old(context.st).(gpu := context.gpu, pending := pending, log := context.st.log,
                looked := context.st.looked)
      ensures |pending| == old(|pending|)
      ensures pending == old(pending)[index := old(pending)[index].(committed := pending[index].committed)]
      ensures var e := old(pending)[index];
              pending[index].committed <==>
                e.committed || (e.failure.None? && ValidationStatus(e.completion, first) == Some(Ok(())))
      ensures pending[index].failure.None? ==> pending[index].committed || LookedAt(context.st, pending[index])
      ensures context.st.log == old(context.st.log) + Announcing(old(pending)[index], pending[index], first)
    {
      context.AdvanceInCall();
      first := context.gpu;
      var validation := ValidationStatus(pending[index].completion, context.gpu);
      if !pending[index].committed && pending[index].failure.None? {
        if validation == Some(Ok(())) {
          Announce(index);
        } else {
          context.Take(Look(index));
        }
      }
    }

    /** A pending entry has leases, and scopes that gate them. */
    lemma PendingShape(index: nat)
      requires Mirrors() && index < |pending|
      ensures pending[index].leases != [] && pending[index].completion.scopes.Some?
    {
      context.Safe();
      assert EntryOk(context.st, pending[index]);
      assert LeaseInQueue(context.st, pending[index], pending[index].leases[0]);
    }

    /** Settle the visited entry with its outcome. */
    method SettleVisit(index: nat, outcome: Outcome, ghost v: Visit)
      requires Tied() && v.outcome == Some(outcome) && Enabled(context.st, Finish(index, outcome))
      requires v.entry.leases == v.left.leases && v.left == pending[index]
      requires outcome.Ok? && !v.left.committed <==> SkippedBetween(v.entry, v.first, v.second)
      modifies this`pending, context`st, context`states, context`steps
      ensures Tied() && context.gpu == old(context.gpu)
      ensures context.st == FinishEntry(old(context.st), index, outcome)
      ensures SkipsExactly(v, context.st.log)
    {
      assert SkipsExactly(v, FinishEntry(context.st, index, outcome).log) by {
        context.Safe();
        SettledPhases(context.st, index, outcome);
      }
      Settle(index, outcome);
    }

    /** Both observations of an entry, and the decision they lead to. */
    method ObserveAndDecide(index: nat, queueEmpty: bool) returns (outcome: Option<Outcome>, ghost v: Visit)
      requires Tied() && !context.st.lossSeen && index < |pending|
      requires queueEmpty ==> KnownIdle(context.st, pending[index])
      modifies this`pending, this`poisoned, context`st, context`states, context`steps, context`gpu, context`requests
      ensures context.requests == old(context.requests) + v.asked
      ensures Tied() && !context.st.lossSeen
      ensures context.st.works == old(context.st.works) && context.st.pollFault == old(context.st.pollFault)
      ensures context.st.idle == old(context.st.idle) && context.gpu.queued == old(context.gpu.queued)
      ensures |pending| == old(|pending|) && pending == old(pending)[index := v.left]
      ensures v.entry == old(pending)[index] && v.outcome == outcome && v.when == context.gpu
      ensures Faithful(v, old(context.gpu), queueEmpty)
      ensures context.st.log == old(context.st.log) + Announcements(v)
      ensures outcome.Some? ==>
                && Enabled(context.st, Finish(index, outcome.value))
                && (outcome.value.Ok? && !v.left.committed <==> SkippedBetween(v.entry, v.first, v.second))
    {
      ghost var e, g := pending[index], context.gpu;
      PendingShape(index);
      var status;
      ghost var first, second, asked;
      status, first, second, asked := Observe(index, queueEmpty);
      ghost var f := pending[index];
      outcome, v := DecideVisit(index, queueEmpty, status, e, first, second, asked, g);
      ReplaceTwice(old(pending), index, f, v.left);
      Regroup(old(context.st.log), Announcing(e, f, first), Announcing(f, v.left, v.when));
    }

    /** The decision on an entry as it was observed, and the account of the whole visit. */
    method DecideVisit(index: nat, queueEmpty: bool, status: Option<Outcome>, ghost e: PendingWork, ghost first: Gpu,
                       ghost second: Gpu, ghost asked: seq<Request>, ghost g: Gpu)
      returns (outcome: Option<Outcome>, ghost v: Visit)
      requires Tied() && !context.st.lossSeen && index < |pending|
      requires queueEmpty ==> KnownIdle(context.st, pending[index])
      requires e.leases != [] && e.completion.scopes.Some? && Later(g, first)
      requires Observed(e, pending[index], first, second, context.gpu, status)
      requires pending[index].failure.None? ==> pending[index].committed || LookedAt(context.st, pending[index])
      requires Asks(e, pending[index], queueEmpty, asked)
      modifies this`pending, context`st, context`states, context`steps, context`gpu
      ensures Tied() && context.gpu.queued == old(context.gpu.queued)
      ensures context.st == old(context.st).(gpu := context.gpu, pending := pending, log := context.st.log)
      ensures |pending| == old(|pending|) && pending == old(pending)[index := v.left]
      ensures v.entry == e && v.outcome == outcome && v.when == context.gpu && v.asked == asked
      ensures Faithful(v, g, queueEmpty)
      ensures context.st.log == old(context.st.log) + Announcing(old(pending)[index], v.left, v.when)
      ensures Announcements(v) == Announcing(e, old(pending)[index], first)
                                  + Announcing(old(pending)[index], v.left, v.when)
      ensures outcome.Some? ==>
                && Enabled(context.st, Finish(index, outcome.value))
                && (outcome.value.Ok? && !v.left.committed <==> SkippedBetween(v.entry, v.first, v.second))
    {
      ghost var f, h := pending[index], context.gpu;
      assert f.failure.None? && status.Some? ==> status == Some(Ok(())) && Status(f.completion, h) == status by {
        ObservedStatus(e, f, first, second, h, status);
      }
      outcome := DecideEntry(index, queueEmpty, status);
      v := Visit(e, first, second, context.gpu, outcome, pending[index], asked);
      DecisionFaithful(v, f, h, status, g, queueEmpty);
    }

    /** One iteration of the collection pass: the entry is settled, or kept as it is now. */
    method CollectEntry(index: nat, queueEmpty: bool) returns (outcome: Option<Outcome>, ghost v: Visit)
      requires Tied() && !context.st.lossSeen && index < |pending|
      requires queueEmpty ==> AllIdle(context.st, pending)
      modifies this`pending, this`poisoned, context`st, context`states, context`steps, context`gpu, context`requests
      ensures context.requests == old(context.requests) + v.asked
      ensures Tied() && !context.st.lossSeen
      ensures context.st.works == old(context.st.works) && context.st.pollFault == old(context.st.pollFault)
      ensures context.st.idle == old(context.st.idle) && context.gpu.queued == old(context.gpu.queued)
      ensures v.entry == old(pending)[index] && v.outcome == outcome && v.when == context.gpu
      ensures Faithful(v, old(context.gpu), queueEmpty)
      ensures outcome.None? ==> |pending| == old(|pending|) && pending == old(pending)[index := v.left]
      ensures outcome.Some? ==> pending == old(pending[..index] + pending[index + 1..])
      ensures context.st.log == old(context.st.log) + Told(v)
      ensures SkipsExactly(v, context.st.log)
    {
      outcome, v := ObserveAndDecide(index, queueEmpty);
      ToldLast(old(context.st.log), v);
      if outcome.Some? {
        SettleVisit(index, outcome.value, v);
      }
    }

    /** Tell the detached entries, oldest first, that the device is gone. */
    method SettleLost(entries: seq<PendingWork>, error: WaitError)
      requires context.Valid() && context.st.lossSeen && context.st.pending == entries
      requires context.gpu.lost.Some? && error == DeviceLost(context.gpu.lost.value)
      modifies context`st, context`states, context`steps
      ensures context.Valid() && context.gpu == old(context.gpu)
      ensures context.st == old(context.st).(pending := [], stage := context.st.stage, log := context.st.log,
                looked := context.st.looked)
      ensures context.st.log == old(context.st.log) + SettleAll(entries, Err(error), context.gpu)
    {
      var k := 0;
      while k < |entries|
        invariant 0 <= k <= |entries|
        invariant context.Valid()
        invariant context.st == old(context.st).(pending := entries[k..], stage := context.st.stage,
                                                  log := context.st.log, looked := context.st.looked)
        invariant context.st.log + SettleAll(entries[k..], Err(error), context.gpu)
                  == old(context.st.log) + SettleAll(entries, Err(error), context.gpu)
      {
        ghost var calls := CompletedCalls(entries[k].leases, Err(error), context.gpu);
        ghost var rest := SettleAll(entries[k + 1..], Err(error), context.gpu);
        assert entries[k..][0] == entries[k] && entries[k..][1..] == entries[k + 1..];
        assert context.st.log + (calls + rest) == (context.st.log + calls) + rest;
        context.Take(Finish(0, Err(error)));
        assert context.st.pending == entries[k + 1..];
        k := k + 1;
      }
    }

    /** Settle everything with DeviceLost once the host has reported terminal loss. */
    method TerminalLoss() returns (r: Option<WaitError>)
      requires Tied() && context.st.looked.None?
      modifies this`pending, this`poisoned, context`st, context`states, context`steps, context`gpu
      ensures Tied() && context.st.looked.None? && Evolves(old(context.gpu), context.gpu)
      ensures context.st.works == old(context.st.works)
      ensures r.None? ==>
                && context.gpu.lost.None? && pending == old(pending) && poisoned == old(poisoned)
                && context.st == old(context.st).(gpu := context.gpu) && !context.st.lossSeen
      ensures r.Some? ==>
                && context.gpu.lost.Some? && r == Some(DeviceLost(context.gpu.lost.value))
                && pending == [] && poisoned && context.st.lossSeen
                && context.st.log == old(context.st.log) + SettleAll(old(pending), Err(r.value), context.gpu)
                && (old(pending) != [] ==> FirstFailure(context.st.log[|old(context.st.log)|..]) == r)
      ensures NoneSucceed(context.st.log[|old(context.st.log)|..])
    {
      context.Advance();
      if context.gpu.lost.None? {
        context.Safe();
        return None;
      }
      TellLoss(DeviceLost(context.gpu.lost.value));
      return Some(DeviceLost(context.gpu.lost.value));
    }

    /** Detach every entry, and tell its leases the loss. */
    method TellLoss(error: WaitError)
      requires Tied() && context.st.looked.None?
      requires context.gpu.lost.Some? && error == DeviceLost(context.gpu.lost.value)
      modifies this`pending, this`poisoned, context`st, context`states, context`steps
      ensures Tied() && context.st.looked.None? && context.gpu == old(context.gpu)
      ensures context.st.works == old(context.st.works)
      ensures pending == [] && poisoned && context.st.lossSeen
      ensures context.st.log == old(context.st.log) + SettleAll(old(pending), Err(error), context.gpu)
      ensures old(pending) != [] ==> FirstFailure(context.st.log[|old(context.st.log)|..]) == Some(error)
      ensures NoneSucceed(context.st.log[|old(context.st.log)|..])
    {
      if pending != [] {
        PendingShape(0);
      }
      poisoned := true;
      context.Take(SeeLoss);
      var entries := pending;
      pending := [];
      SettleLost(entries, error);
      LostCalls(old(context.st.log), entries, error, context.gpu);
    }

    // ---------- the collection pass ----------

    /** Visit every entry once, in submission order. */
    method VisitAll(queueEmpty: bool)
      returns (completed: nat, failure: Option<WaitError>, ghost visits: seq<Visit>)
      requires Tied() && !context.st.lossSeen && pollFault.None?
      requires queueEmpty ==> AllIdle(context.st, pending)
      modifies this`pending, this`poisoned, context`st, context`states, context`steps, context`gpu, context`requests
      ensures context.requests == old(context.requests) + PassAsks(visits)
      ensures Tied() && !context.st.lossSeen && context.st.works == old(context.st.works)
      ensures |visits| == |old(pending)| && completed + |pending| == |old(pending)|
      ensures Passing(old(pending), visits, old(context.gpu), queueEmpty, context.gpu, pending,
                      old(context.st.log), context.st.log)
      ensures failure == FirstFailure(PassCalls(visits))
    {
      ghost var g, olds, log, requests := context.gpu, pending, context.st.log, context.requests;
      var index := 0;
      completed, failure, visits := 0, None, [];
      assert LeasesApart(olds) by {
        context.Safe();
        OwnersDisjoint(context.st);
      }
      PassingFrom(olds, g, queueEmpty, log);
      while index < |pending|
        invariant Tied() && !context.st.lossSeen && pollFault.None? && context.st.works == old(context.st.works)
        invariant queueEmpty ==> AllIdle(context.st, pending)
        invariant Passing(olds, visits, g, queueEmpty, context.gpu, pending, log, context.st.log)
        invariant index == |Survivors(visits)| && completed + index == |visits| <= |olds|
        invariant |pending| == index + |olds| - |visits|
        invariant failure == FirstFailure(PassCalls(visits))
        invariant context.requests == requests + PassAsks(visits)
        decreases |olds| - |visits|
      {
        var outcome;
        ghost var v;
        outcome, v := VisitNext(index, queueEmpty, olds, visits, g, log, requests);
        PassPush(visits, v);
        PassFailure(visits, v);
        visits := visits + [v];
        PassingLength(olds, visits, g, queueEmpty, context.gpu, pending, log, context.st.log);
        if outcome.Some? {
          if failure.None? && outcome.value.Err? {
            failure := Some(outcome.value.error);
          }
          completed := completed + 1;
        } else {
          index := index + 1;
        }
      }
    }

    method CollectEntries(queueEmpty: bool) returns (r: Result<nat, WaitError>, ghost visits: seq<Visit>)
      requires Tied() && !context.st.lossSeen && pollFault.None?
      requires queueEmpty ==> AllIdle(context.st, pending)
      modifies this`pending, this`poisoned, context`st, context`states, context`steps, context`gpu, context`requests
      ensures context.requests == old(context.requests) + PassAsks(visits)
      ensures Valid() && !context.st.lossSeen && context.st.works == old(context.st.works)
      ensures |visits| == |old(pending)| && |pending| <= |old(pending)|
      ensures Passing(old(pending), visits, old(context.gpu), queueEmpty, context.gpu, pending,
                      old(context.st.log), context.st.log)
      ensures r == Tally(FirstFailure(PassCalls(visits)), |old(pending)| - |pending|)
    {
      var completed, failure;
      completed, failure, visits := VisitAll(queueEmpty);
      Recheck();
      r := Tally(failure, completed);
    }

    /** One iteration of the pass, in terms of the pass as a whole. */
    method VisitNext(index: nat, queueEmpty: bool, ghost olds: seq<PendingWork>, ghost visits: seq<Visit>,
                     ghost g: Gpu, ghost log: seq<Event>, ghost requests: seq<Request>)
      returns (outcome: Option<Outcome>, ghost v: Visit)
      requires Tied() && !context.st.lossSeen && pollFault.None? && index < |pending|
      requires queueEmpty ==> AllIdle(context.st, pending)
      requires Passing(olds, visits, g, queueEmpty, context.gpu, pending, log, context.st.log)
      requires index == |Survivors(visits)| && LeasesApart(olds)
      requires context.requests == requests + PassAsks(visits)
      modifies this`pending, this`poisoned, context`st, context`states, context`steps, context`gpu, context`requests
      ensures context.requests == requests + PassAsks(visits + [v])
      ensures Tied() && !context.st.lossSeen && context.st.works == old(context.st.works) && pollFault == old(pollFault)
      ensures queueEmpty ==> AllIdle(context.st, pending)
      ensures Passing(olds, visits + [v], g, queueEmpty, context.gpu, pending, log, context.st.log)
      ensures v.outcome == outcome && v.entry.leases != []
    {
      ghost var here, before, was := context.gpu, pending, context.st;
      outcome, v := CollectEntry(index, queueEmpty);
      AsksPush(requests, visits, v);
      if queueEmpty {
        IdleStays(was, context.st, before, index, pending);
      }
      PassingNext(olds, visits, v, g, queueEmpty, here, before, log, was.log, pending);
    }

    /** The poison flag follows the failures still pending. */
    method Recheck()
      requires Tied() && !context.st.lossSeen && pollFault.None?
      modifies this`poisoned, context`st, context`states, context`steps
      ensures Valid()
      ensures context.st == old(context.st).(poisoned := poisoned, looked := None) && context.gpu == old(context.gpu)
    {
      context.Take(Calm);
      poisoned := exists e :: e in pending && e.failure.Some?;
    }

    /**
     Poll once, then settle what can be settled, in one pass over the entries in
     submission order. Settled entries are exactly accounted for, survivors keep their
     order and their first failure, and nothing that was ready at entry is left behind.
     */
    method Collect() returns (r: Result<nat, WaitError>, ghost sweep: Sweep)
      requires Valid()
      modifies this`pending, this`poisoned, this`pollFault
      modifies context`st, context`states, context`steps, context`gpu, context`requests
      ensures Valid() && Later(old(context.gpu), context.gpu)
      ensures context.st.works == old(context.st.works) && old(context.st.log) <= context.st.log
      ensures old(context.gpu).lost.Some? ==> sweep.DeviceGone? && context.requests == old(context.requests)
      ensures PolledFor(sweep, r, old(pollFault), old(context.requests))
      ensures r.Err? ==>
                Blamed(r.error, old(pending), old(pollFault), old(context.st.log), old(context.requests))
      ensures sweep.Swept? ==> OnlyFences(PassAsks(sweep.visits))
      ensures old(pollFault).Some? ==> pollFault == old(pollFault)
      ensures sweep.DeviceGone? ==>
                && context.gpu.lost.Some? && r == Err(DeviceLost(context.gpu.lost.value)) && pending == [] && poisoned
                && context.st.log == old(context.st.log) + SettleAll(old(pending), Err(r.error), context.gpu)
      ensures r.Err? && !sweep.PollStopped? && old(pending) != [] ==>
                FirstFailure(context.st.log[|old(context.st.log)|..]) == Some(r.error)
      ensures sweep.PollStopped? ==>
                && r.Err? && (r.error.Poll? || r.error.PollPanicked?)
                && pending == old(pending) && context.st.log == old(context.st.log)
                && (r.error.PollPanicked? ==> pollFault == Some(r.error))
      ensures sweep.Swept? ==>
                && AllNoticed(sweep.visits, sweep.looked, sweep.empty) && AllRemain(sweep.visits, pending)
                && (poisoned <==> HasFailure())
      ensures sweep.Swept? ==>
                && pollFault.None? && !context.st.lossSeen
                && Later(old(context.gpu), sweep.looked) && sweep.looked.lost.None?
                && Passing(old(pending), sweep.visits, sweep.looked, sweep.empty, context.gpu, pending,
                           old(context.st.log), context.st.log)
                && |sweep.visits| == |old(pending)| && pending == Survivors(sweep.visits) && |pending| <= old(|pending|)
                && r == Tally(FirstFailure(context.st.log[|old(context.st.log)|..]), |old(pending)| - |pending|)
      ensures sweep.Swept? ==> AllSkipExactly(sweep.visits, context.st.log)
      ensures sweep.Swept? ==>
                (ToldLost(context.st.log[|old(context.st.log)|..]) <==> SucceedsDespiteLoss(sweep.visits))
      ensures !sweep.Swept? ==> NoneSucceed(context.st.log[|old(context.st.log)|..])
      ensures old(context.gpu).lost.Some? ==> r == Err(DeviceLost(old(context.gpu).lost.value))
    {
      var polled;
      polled, sweep := PollForSweep();
      if polled.Err? {
        return Err(polled.error), sweep;
      }
      ghost var g := context.gpu;
      r, sweep := SweepEntries(polled.value, sweep.reported);
      LaterTransitive(old(context.gpu), g, context.gpu);
    }

    /**
     What a pass asked of the driver: nothing if the loss was seen at once or a fault was latched; else one poll,
     whose failure stops the pass and whose report decides whether the queue is known empty; then fences only.
     */
    ghost predicate PolledFor<T>(sweep: Sweep, r: Result<T, WaitError>, fault: Option<WaitError>, before: seq<Request>)
      reads context
    {
      match sweep
      case DeviceGone =>
        context.requests == before || exists answer :: context.requests == before + [Polled(answer)]
      case PollStopped =>
        && r.Err?
        && if fault.Some? then r.error == fault.value && context.requests == before
           else context.requests == before + [Polled(Err(r.error))]
      case Swept(reported, empty, _, visits) =>
        && fault.None? && empty == (reported && !context.wasm32)
        && context.requests == before + [Polled(Ok(reported))] + PassAsks(visits)
    }

    /** The pass after a poll that settled nothing itself. */
    method SweepEntries(queueEmpty: bool, ghost reported: bool)
      returns (r: Result<nat, WaitError>, ghost sweep: Sweep)
      requires Tied() && !context.st.lossSeen && pollFault.None? && context.gpu.lost.None?
      requires queueEmpty ==> AllIdle(context.st, pending)
      modifies this`pending, this`poisoned, context`st, context`states, context`steps, context`gpu, context`requests
      ensures Valid() && !context.st.lossSeen && Later(old(context.gpu), context.gpu)
      ensures context.st.works == old(context.st.works) && old(context.st.log) <= context.st.log
      ensures sweep.Swept? && sweep.empty == queueEmpty && sweep.reported == reported
      ensures sweep.looked == old(context.gpu)
      ensures context.requests == old(context.requests) + PassAsks(sweep.visits)
      ensures AllNoticed(sweep.visits, sweep.looked, sweep.empty) && AllRemain(sweep.visits, pending)
      ensures OnlyFences(PassAsks(sweep.visits))
      ensures |sweep.visits| == |old(pending)| && pending == Survivors(sweep.visits) && |pending| <= old(|pending|)
      ensures Passing(old(pending), sweep.visits, sweep.looked, sweep.empty, context.gpu, pending,
                      old(context.st.log), context.st.log)
      ensures r == Tally(FirstFailure(context.st.log[|old(context.st.log)|..]), |old(pending)| - |pending|)
      ensures AllSkipExactly(sweep.visits, context.st.log)
      ensures ToldLost(context.st.log[|old(context.st.log)|..]) <==> SucceedsDespiteLoss(sweep.visits)
    {
      ghost var g, log := context.gpu, context.st.log;
      ghost var visits;
      r, visits := CollectEntries(queueEmpty);
      SweepDone(old(pending), visits, g, queueEmpty, context.gpu, pending, log, context.st.log);
      sweep := Swept(reported, queueEmpty, g, visits);
    }

    /** Check for loss, poll once, check for loss again; Ok tells whether the queue is known empty. */
    method PollForSweep() returns (r: Result<bool, WaitError>, ghost sweep: Sweep)
      requires Valid()
      modifies this`pending, this`poisoned, this`pollFault
      modifies context`st, context`states, context`steps, context`gpu, context`requests
      ensures Valid() && Later(old(context.gpu), context.gpu) && context.st.works == old(context.st.works)
      ensures old(context.gpu).lost.Some? ==> sweep.DeviceGone? && context.requests == old(context.requests)
      ensures PolledFor(sweep, r, old(pollFault), old(context.requests)) && (sweep.Swept? ==> sweep.visits == [])
      ensures old(pollFault).Some? ==> pollFault == old(pollFault)
      ensures sweep.DeviceGone? ==>
                && context.gpu.lost.Some? && r == Err(DeviceLost(context.gpu.lost.value)) && pending == [] && poisoned
                && context.st.log == old(context.st.log) + SettleAll(old(pending), Err(r.error), context.gpu)
      ensures sweep.DeviceGone? && old(pending) != [] ==>
                r.Err? && FirstFailure(context.st.log[|old(context.st.log)|..]) == Some(r.error)
      ensures !sweep.DeviceGone? ==> pending == old(pending) && context.st.log == old(context.st.log)
      ensures sweep.PollStopped? ==>
                && r.Err? && (r.error.Poll? || r.error.PollPanicked?)
                && (r.error.PollPanicked? ==> pollFault == Some(r.error))
      ensures sweep.Swept? ==>
                && r == Ok(sweep.empty) && pollFault.None? && !context.st.lossSeen && context.gpu.lost.None?
                && (r.value ==> AllIdle(context.st, pending))
      ensures NoneSucceed(context.st.log[|old(context.st.log)|..])
    {
      ghost var g := context.gpu;
      var loss := TerminalLoss();
      if loss.Some? {
        return Err(loss.value), DeviceGone;
      }
      if pollFault.Some? {
        return Err(pollFault.value), PollStopped;
      }
      ghost var g1 := context.gpu;
      var polled := context.PollDevice();
      LaterTransitive(g, g1, context.gpu);
      ghost var g2 := context.gpu;
      r, sweep := StopOrSweep(polled, old(context.requests));
      LaterTransitive(g, g2, context.gpu);
    }

    /** Check for loss once more; a failed poll stops the pass, and a panicked one is latched. */
    method StopOrSweep(polled: Result<bool, WaitError>, ghost before: seq<Request>)
      returns (r: Result<bool, WaitError>, ghost sweep: Sweep)
      requires Valid() && pollFault.None? && context.requests == before + [Polled(polled)]
      requires polled.Err? ==> polled.error.Poll? || polled.error.PollPanicked?
      requires polled.Ok? && polled.value && !context.wasm32 ==>
                 forall l :: l in context.gpu.queued ==> context.gpu.queued[l] < context.st.idle
      modifies this`pending, this`poisoned, this`pollFault, context`st, context`states, context`steps, context`gpu
      ensures Valid() && Later(old(context.gpu), context.gpu) && context.st.works == old(context.st.works)
      ensures PolledFor(sweep, r, None, before) && (sweep.Swept? ==> sweep.visits == [])
      ensures sweep.DeviceGone? ==>
                && context.gpu.lost.Some? && r == Err(DeviceLost(context.gpu.lost.value)) && pending == [] && poisoned
                && context.st.log == old(context.st.log) + SettleAll(old(pending), Err(r.error), context.gpu)
      ensures sweep.DeviceGone? && old(pending) != [] ==>
                r.Err? && FirstFailure(context.st.log[|old(context.st.log)|..]) == Some(r.error)
      ensures !sweep.DeviceGone? ==> pending == old(pending) && context.st.log == old(context.st.log)
      ensures sweep.PollStopped? ==>
                polled.Err? && r == Err(polled.error) && (r.error.PollPanicked? ==> pollFault == Some(r.error))
      ensures old(context.gpu).lost.Some? ==> sweep.DeviceGone?
      ensures sweep.Swept? ==>
                && r == Ok(sweep.empty) && pollFault.None? && !context.st.lossSeen && context.gpu.lost.None?
                && (r.value ==> AllIdle(context.st, pending))
      ensures NoneSucceed(context.st.log[|old(context.st.log)|..])
    {
      var loss := TerminalLoss();
      if loss.Some? {
        return Err(loss.value), DeviceGone;
      }
      if polled.Err? {
        if polled.error.PollPanicked? {
          LatchFault(polled.error);
        }
        return Err(polled.error), PollStopped;
      }
      r := Ok(polled.value && !context.wasm32);
      sweep := Swept(polled.value, r.value, context.gpu, []);
    }

    /** A panicked poll is latched: it is never repeated nor taken for retirement. */
    method LatchFault(error: WaitError)
      requires Valid() && error.PollPanicked? && !context.st.lossSeen
      modifies this`poisoned, this`pollFault, context`st, context`states, context`steps
      ensures Valid() && pollFault == Some(error)
      ensures context.st == old(context.st).(poisoned := true, pollFault := Some(error))
                && context.gpu == old(context.gpu)
    {
      pollFault := Some(error);
      poisoned := true;
      context.Take(Fault(error));
    }

    /** Entries are always pending in submission order. */
    lemma SubmissionOrder()
      requires Valid()
      ensures InOrder(pending)
    {
      context.Safe();
    }

    // ---------- submission ----------

    /**
     Submit without waiting. The work comes back whole unless it was consumed; consumed
     work is either aborted before anything reached the queue, or retained in the last
     pending entry - also when the driver unwound or rejected it.
     */
    method TrySubmit(work: RecordedWork) returns (r: Result<Submission, WorkSubmitError>)
      requires Valid() && work.Valid()
      modifies this`pending, this`poisoned, this`pollFault, work
      modifies context`st, context`states, context`steps, context`gpu, context`requests
      ensures Valid() && Later(old(context.gpu), context.gpu)
      ensures Drove(r, old(context.requests))
      ensures r.Err? && r.error.PollFailed? ==>
                Blamed(r.error.error, old(pending), old(pollFault), old(context.st.log), old(context.requests))
      ensures r == Err(QueueMismatch(work)) <==> work.context != context
      ensures old(context.gpu).lost.Some? && work.context == context ==>
                && r == Err(PollFailed(DeviceLost(old(context.gpu).lost.value), work)) && pending == []
                && old(context.st.log) <= context.st.log && NoneSucceed(context.st.log[|old(context.st.log)|..])
      ensures r == Err(QueueMismatch(work)) ==> unchanged(this) && unchanged(work) && unchanged(context)
      ensures r.Err? && (r.error.Busy? || r.error.Poisoned? || r.error.PollFailed?) ==>
                && r.error.work == work && unchanged(work) && work.Valid()
                && context.st.works == old(context.st.works)
      ensures r.Ok? || (r.Err? && (r.error.Panicked? || r.error.Rejected?)) ==> work.leases == []
      ensures Handled(r, old(work.commands), old(work.leases), old(work.scopes), old(context.st.works) - {work.id})
      ensures old(KnownRejected(work)) && r.Err? && r.error.Rejected? ==> AbortedUnsent(old(work.leases))
      ensures old(KnownRejected(work)) ==> r.Err? && !r.error.Panicked?
    {
      if work.context != context {
        return Err(QueueMismatch(work));
      }
      ghost var rejected := KnownRejected(work);
      RejectionAnswers(work);
      ghost var requests := context.requests;
      var collected, sweep := Collect();
      CollectAsks(sweep, collected, requests);
      if collected.Err? {
        return Err(PollFailed(collected.error, work));
      }
      ghost var g, middle := context.gpu, context.requests;
      if rejected {
        VerdictSticks(work.scopes, old(context.gpu.settled), g.settled);
      }
      RejectionAnswers(work);
      r := Admit(work);
      LaterTransitive(old(context.gpu), g, context.gpu);
      DroveLater(r, requests, middle);
    }

    /** One fence has been asked for since, and the newest entry keeps what came of it. */
    ghost predicate FencedLast(before: seq<Request>)
      reads this, context
    {
      && |context.requests| == |before| + 1 && before <= context.requests && context.requests[|before|].Fenced?
      && FenceKept()
    }

    /** The newest entry keeps what came of the fence asked for last. */
    ghost predicate FenceKept()
      reads this, context
    {
      && pending != [] && context.requests != [] && var last := context.requests[|context.requests| - 1];
      && last.Fenced? && !last.fence.Unneeded? && (pending[|pending| - 1].recovery.None? <==> last.fence.Lost?)
    }

    lemma HandedOnce(before: seq<Request>, launch: Launch, scope: Option<Option<Outcome>>)
      requires launch.Accepted? && context.requests == before + [Request.Launched(launch, scope)]
      ensures before <= context.requests && Handed(context.requests[|before|..])
    {
      assert context.requests[|before|..] == [Request.Launched(launch, scope)];
    }

    lemma FencedAfter(before: seq<Request>, launch: Launch, scope: Option<Option<Outcome>>)
      requires FencedLast(before + [Request.Launched(launch, scope)])
      ensures before <= context.requests && FenceKept()
      ensures HandedAndFenced(context.requests[|before|..], if launch.Unwound? then Some(launch.message) else None)
    {
      assert context.requests[|before|..] == [Request.Launched(launch, scope), context.requests[|before| + 1]];
    }

    /** How often, and in what order, the work of a submission was handed to the driver. */
    ghost predicate Drove(r: Result<Submission, WorkSubmitError>, before: seq<Request>)
      reads this, context
    {
      && before <= context.requests
      && var asked := context.requests[|before|..];
      match r
      case Ok(_) => Handed(asked)
      case Err(Panicked(message)) => HandedAndFenced(asked, Some(message)) && FenceKept()
      case Err(Rejected(_)) => if poisoned then HandedAndFenced(asked, None) && FenceKept() else NoLaunch(asked)
      case Err(_) => NoLaunch(asked)
    }

    lemma DroveLater(r: Result<Submission, WorkSubmitError>, before: seq<Request>, middle: seq<Request>)
      requires before <= middle && NoLaunch(middle[|before|..]) && Drove(r, middle)
      ensures Drove(r, before)
    {
      var a, b := middle[|before|..], context.requests[|middle|..];
      assert context.requests[|before|..] == a + b;
      HandedLater(a, b, match r case Err(Panicked(message)) => Some(message) case _ => None);
    }

    /** A pass hands nothing to the driver. */
    lemma CollectAsks<T>(sweep: Sweep, r: Result<T, WaitError>, before: seq<Request>)
      requires exists fault :: PolledFor(sweep, r, fault, before)
      requires sweep.Swept? ==> OnlyFences(PassAsks(sweep.visits))
      ensures before <= context.requests && NoLaunch(context.requests[|before|..])
      ensures forall k :: |before| <= k < |context.requests| ==> !context.requests[k].Slept?
      ensures sweep.Swept? ==> OnePoll(context.requests, |before|)
      ensures !sweep.DeviceGone? ==>
                Polls(context.requests[|before|..]) >= 1 || (r.Err? && context.requests == before && sweep.PollStopped?)
    {
      var more := context.requests[|before|..];
      if more != [] {
        assert more == [more[0]] + more[1..];
        PollsConcat([more[0]], more[1..]);
        assert [more[0]][..0] == [];
      }
    }

    /**
     Why a pass failed: the loss, and nothing is pending any more; the poll fault latched before, or
     the failure of the one poll made, and nothing was settled; or the first failure told to a lease.
     */
    ghost predicate Blamed(error: WaitError, olds: seq<PendingWork>, fault: Option<WaitError>, log: seq<Event>,
                           before: seq<Request>)
      reads this, context
    {
      && log <= context.st.log
      && var told := FirstFailure(context.st.log[|log|..]);
      || (&& context.gpu.lost.Some? && error == DeviceLost(context.gpu.lost.value) && pending == []
          && (olds != [] ==> told == Some(error)))
      || (&& (if fault.Some? then error == fault.value && context.requests == before
              else context.requests == before + [Polled(Err(error))])
          && pending == olds && context.st.log == log)
      || told == Some(error)
    }

    /** The checks after collection; a known encoding rejection is a true abort. */
    method Admit(work: RecordedWork) returns (r: Result<Submission, WorkSubmitError>)
      requires Valid() && work.Valid() && work.context == context
      modifies this`pending, this`poisoned, context`st, context`states, context`steps, context`gpu, context`requests
      modifies work
      ensures Valid() && Later(old(context.gpu), context.gpu) && Drove(r, old(context.requests))
      ensures r.Ok? || r.error.Busy? || r.error.Poisoned? || r.error.Panicked? || r.error.Rejected?
      ensures r.Err? && (r.error.Busy? || r.error.Poisoned?) ==>
                r.error.work == work && unchanged(work) && work.Valid() && context.st == old(context.st)
      ensures r.Ok? || r.error.Panicked? || r.error.Rejected? ==> work.leases == []
      ensures Handled(r, old(work.commands), old(work.leases), old(work.scopes), old(context.st.works) - {work.id})
      ensures r.Err? && r.error.Rejected? ==>
                || (poisoned && QueuedBehind(old(pending)) && context.st.log == old(context.st.log))
                || (&& !poisoned && pending == old(pending)
                    && context.st.log == old(context.st.log) + AbortedCalls(old(work.leases), context.gpu))
      ensures r.Ok? || r.error.Panicked? ==> QueuedBehind(old(pending)) && Acknowledged(old(context.st.log), r.Ok?)
      ensures old(KnownRejected(work)) && r.Err? && r.error.Rejected? ==> AbortedUnsent(old(work.leases))
      ensures old(KnownRejected(work)) ==> r.Err? && !r.error.Panicked?
    {
      if poisoned {
        return Err(Poisoned(work));
      }
      if |pending| == capacity {
        return Err(Busy(work));
      }
      ghost var rejected := KnownRejected(work);
      RejectionAnswers(work);
      context.Advance();
      if rejected {
        VerdictSticks(work.scopes, old(context.gpu.settled), context.gpu.settled);
      }
      var verdict := Verdict(work.scopes, context.gpu.settled);
      if verdict.Some? && verdict.value.Err? {
        assert forall l :: l in work.leases ==> l !in context.gpu.queued by {
          context.Safe();
          assert WorkOk(context.st, work.id, context.st.works[work.id]);
          assert forall l :: l in work.leases ==> LeaseInWork(context.st, work.id, context.st.works[work.id], l);
        }
        VerdictMeans(work.scopes, context.gpu.settled);
        work.Drop();
        return Err(Rejected(verdict.value.error));
      }
      ghost var h := context.gpu;
      r := Launch(work);
      LaterTransitive(old(context.gpu), h, context.gpu);
    }

    /** An error scope of the recording is already known to have failed. */
    ghost predicate KnownRejected(work: RecordedWork)
      reads work, context
    {
      exists i, error :: FailsAt(work.scopes, context.gpu.settled, i, error)
    }

    lemma RejectionAnswers(work: RecordedWork)
      ensures var verdict := Verdict(work.scopes, context.gpu.settled);
              KnownRejected(work) <==> verdict.Some? && verdict.value.Err?
    {
      VerdictMeans(work.scopes, context.gpu.settled);
      var verdict := Verdict(work.scopes, context.gpu.settled);
      if verdict.Some? && verdict.value.Err? {
        assert verdict == Some(Err(verdict.value.error));
      }
    }

    /** The last hook calls aborted exactly these leases, and their commands are not in the stream. */
    ghost predicate AbortedUnsent(leases: seq<Lease>)
      reads context
    {
      && EndsWith(AbortedCalls(leases, context.gpu))
      && forall l :: l in leases ==>
                       l in context.st.stage && context.st.stage[l] == Gone && l !in context.gpu.queued
    }

    /** What each answer to a submission says of the work, whose removal leaves these recordings. */
    ghost predicate Handled(r: Result<Submission, WorkSubmitError>, commands: seq<Command>, leases: seq<Lease>,
                            scopes: seq<Scope>, works: map<nat, Work>)
      reads this, context
    {
      match r
      case Ok(submission) =>
        && context.st.works == works && !poisoned && Launched(commands, leases, None)
        && var e := pending[|pending| - 1];
        && e.completion == submission && (context.immediate ==> e.committed)
        && (e.committed <==> ValidationStatus(submission, context.gpu) == Some(Ok(())))
        && (e.committed ==> EndsWith(SubmittedCalls(leases, context.gpu)))
      case Err(Panicked(message)) =>
        && context.st.works == works && poisoned && pending != []
        && pending[|pending| - 1].leases == leases && pending[|pending| - 1].failure == Some(SubmitPanicked(message))
      case Err(Rejected(error)) =>
        && context.st.works == works
        && (if poisoned then Launched(commands, leases, Some(error))
            else && |pending| < capacity && AbortedUnsent(leases)
                 && exists i :: FailsAt(scopes, context.gpu.settled, i, error))
      case Err(Busy(_)) => !poisoned && |pending| == capacity
      case Err(Poisoned(_)) => poisoned
      case Err(_) => true
    }

    /** The hook calls made last. */
    ghost predicate EndsWith(calls: seq<Event>)
      reads context
    {
      |calls| <= |context.st.log| && context.st.log[|context.st.log| - |calls|..] == calls
    }

    /** One entry was queued behind these. */
    ghost predicate QueuedBehind(olds: seq<PendingWork>)
      reads this
    {
      |pending| == |olds| + 1 && pending[..|olds|] == olds
    }

    /** The newest entry is announced, by exactly these calls, if and only if its acceptance has been seen. */
    ghost predicate Acknowledged(before: seq<Event>, accepted: bool)
      reads this, context
    {
      && pending != [] && var e := pending[|pending| - 1];
      && (accepted ==> (e.committed <==> ValidationStatus(e.completion, context.gpu) == Some(Ok(()))))
      && context.st.log == before + if accepted && e.committed then SubmittedCalls(e.leases, context.gpu) else []
    }

    /** The newest entry owns exactly these leases, and their commands are in the stream. */
    ghost predicate Launched(commands: seq<Command>, leases: seq<Lease>, failure: Option<WaitError>)
      reads this, context
    {
      && pending != [] && pending[|pending| - 1].leases == leases && pending[|pending| - 1].failure == failure
      && forall l :: l in leases ==> InStream(context.gpu, l, commands)
    }

    /** Hand the work to the driver. Its owner is installed first, so unwinding cannot lose it. */
    method Launch(work: RecordedWork) returns (r: Result<Submission, WorkSubmitError>)
      requires Valid() && work.Valid() && work.context == context
      requires !poisoned && |pending| < capacity
      modifies this`pending, this`poisoned, context`st, context`states, context`steps, context`gpu, context`requests
      modifies work
      ensures Valid() && Later(old(context.gpu), context.gpu) && Drove(r, old(context.requests))
      ensures work.leases == [] && context.st.works == old(context.st.works) - {work.id}
      ensures r.Ok? ==>
                && !poisoned && Launched(old(work.commands), old(work.leases), None)
                && pending[|pending| - 1].completion == r.value
      ensures r.Ok? && context.immediate ==> pending[|pending| - 1].committed
      ensures r.Err? ==> r.error.Panicked? || r.error.Rejected?
      ensures r.Err? && r.error.Panicked? ==>
                && poisoned && pending != []
                && pending[|pending| - 1].leases == old(work.leases)
                && pending[|pending| - 1].failure == Some(SubmitPanicked(r.error.message))
      ensures r.Err? && r.error.Rejected? ==>
                poisoned && Launched(old(work.commands), old(work.leases), Some(r.error.error))
      ensures QueuedBehind(old(pending)) && Acknowledged(old(context.st.log), r.Ok?)
    {
      var launch, scope := context.Drive();
      if launch.Unwound? {
        LaunchUnwound(work, launch, scope);
        FencedAfter(old(context.requests), launch, scope);
        return Err(Panicked(launch.message));
      }
      r := Retain(work, launch, scope);
      if r.Err? {
        FencedAfter(old(context.requests), launch, scope);
      } else {
        HandedOnce(old(context.requests), launch, scope);
      }
    }

    /** The driver took the work: its entry is announced, failed, or left to a later pass. */
    method Retain(work: RecordedWork, launch: Launch, scope: Option<Option<Outcome>>)
      returns (r: Result<Submission, WorkSubmitError>)
      requires Valid() && work.Valid() && work.context == context && !poisoned && |pending| < capacity
      requires launch.Accepted? && scope.Some? && (context.immediate ==> scope != Some(None))
      modifies this`pending, this`poisoned, context`st, context`states, context`steps, context`gpu, context`requests
      modifies work
      ensures Valid() && Later(old(context.gpu), context.gpu)
      ensures r.Ok? ==> context.requests == old(context.requests)
      ensures r.Err? ==> r.error.Rejected? && FencedLast(old(context.requests))
      ensures work.leases == [] && context.st.works == old(context.st.works) - {work.id}
      ensures r.Ok? ==>
                && !poisoned && Launched(old(work.commands), old(work.leases), None)
                && pending[|pending| - 1].completion == r.value
      ensures r.Ok? && context.immediate ==> pending[|pending| - 1].committed
      ensures r.Err? ==> poisoned && Launched(old(work.commands), old(work.leases), Some(r.error.error))
      ensures QueuedBehind(old(pending)) && Acknowledged(old(context.st.log), r.Ok?)
    {
      LaunchAccepted(work, launch, scope);
      ghost var g, entries := context.gpu, pending;
      r := Confirm(old(work.commands));
      LaterTransitive(old(context.gpu), g, context.gpu);
      assert QueuedBehind(old(pending)) by {
        assert entries[..|entries| - 1] == old(pending);
      }
    }

    /** Every entry but the newest is already announced or failed. */
    ghost predicate NewestUnannounced()
      reads this, context
    {
      && Mirrors() && !context.st.lossSeen && pollFault.None? && !poisoned && context.st.looked.None?
      && pending != [] && var e := pending[|pending| - 1];
      && !e.committed && e.failure.None? && e.completion.scopes.Some?
      && (forall i :: 0 <= i < |pending| - 1 ==>
          pending[i].failure.None? && (context.immediate ==> pending[i].committed))
    }

    method LaunchAccepted(work: RecordedWork, launch: Launch, scope: Option<Option<Outcome>>)
      requires Valid() && work.Valid() && work.context == context && !poisoned && |pending| < capacity
      requires launch.Accepted? && scope.Some? && (context.immediate ==> scope != Some(None))
      modifies this`pending, context`st, context`states, context`steps, context`gpu, work
      ensures NewestUnannounced() && Later(old(context.gpu), context.gpu)
      ensures work.leases == [] && context.st.works == old(context.st.works) - {work.id}
      ensures Launched(old(work.commands), old(work.leases), None)
      ensures QueuedBehind(old(pending)) && context.st.log == old(context.st.log)
      ensures context.immediate ==>
                Verdict(pending[|pending| - 1].completion.scopes.value, context.gpu.settled).Some?
    {
      assert forall e :: e in pending ==> e.failure.None?;
      var index := |pending|;
      pending := pending + [PendingWork(Submission(context.gpu.nextSignal, None), work.leases, None, None, false)];
      var submission := context.Accept(work.id, Work(work.commands, work.leases, work.scopes), launch, scope);
      pending := pending[index := pending[index].(completion := submission)];
      work.commands, work.leases, work.scopes := [], [], [];
    }

    /** Look once at the new entry's acceptance: announce it, or retain it as rejected. */
    method Confirm(ghost commands: seq<Command>) returns (r: Result<Submission, WorkSubmitError>)
      requires NewestUnannounced()
      requires context.immediate ==>
                 Verdict(pending[|pending| - 1].completion.scopes.value, context.gpu.settled).Some?
      requires forall l :: l in pending[|pending| - 1].leases ==> InStream(context.gpu, l, commands)
      modifies this`pending, this`poisoned, context`st, context`states, context`steps, context`gpu, context`requests
      ensures Valid() && Later(old(context.gpu), context.gpu) && context.st.works == old(context.st.works)
      ensures r.Ok? ==> context.requests == old(context.requests)
      ensures r.Err? ==> FencedLast(old(context.requests))
      ensures r.Ok? ==>
                && !poisoned && Launched(commands, old(pending)[|old(pending)| - 1].leases, None)
                && pending[|pending| - 1].completion == r.value
      ensures r.Ok? && context.immediate ==> pending[|pending| - 1].committed
      ensures r.Err? ==>
                && r.error.Rejected? && poisoned
                && Launched(commands, old(pending)[|old(pending)| - 1].leases, Some(r.error.error))
                && ValidationStatus(pending[|pending| - 1].completion, context.gpu) == Some(Err(r.error.error))
      ensures |pending| == |old(pending)| && pending[..|pending| - 1] == old(pending)[..|pending| - 1]
      ensures Acknowledged(old(context.st.log), r.Ok?)
    {
      var index := |pending| - 1;
      ghost var g, leases := context.gpu, pending[index].leases;
      var submission := pending[index].completion;
      context.Advance();
      if context.immediate {
        VerdictSticks(submission.scopes.value, g.settled, context.gpu.settled);
      }
      VerdictAccepts(submission.scopes.value, context.gpu.settled);
      ghost var h := context.gpu;
      var validation := ValidationStatus(submission, context.gpu);
      r := Ok(submission);
      if validation == Some(Ok(())) {
        Announce(index);
      } else if validation.Some? {
        var _ := FailEntry(index, validation.value.error, false);
        LaterTransitive(g, h, context.gpu);
        VerdictSticks(submission.scopes.value, h.settled, context.gpu.settled);
        r := Err(Rejected(validation.value.error));
      }
      forall l | l in leases ensures InStream(context.gpu, l, commands) {
        StreamSticks(g, context.gpu, l, commands);
      }
    }

    /** The driver unwound; whatever became of the commands, the entry keeps the leases and is fenced. */
    method LaunchUnwound(work: RecordedWork, launch: Launch, scope: Option<Option<Outcome>>)
      requires Valid() && work.Valid() && work.context == context && !poisoned && |pending| < capacity
      requires launch.Unwound? && (context.immediate ==> scope != Some(None))
      modifies this`pending, this`poisoned, context`st, context`states, context`steps, context`gpu, context`requests
      modifies work
      ensures Valid() && Later(old(context.gpu), context.gpu) && poisoned
      ensures work.leases == [] && context.st.works == old(context.st.works) - {work.id}
      ensures QueuedBehind(old(pending)) && context.st.log == old(context.st.log)
      ensures pending[|pending| - 1].leases == old(work.leases)
      ensures pending[|pending| - 1].failure == Some(SubmitPanicked(launch.message))
      ensures FencedLast(old(context.requests))
    {
      var index, commands := |pending|, Work(work.commands, work.leases, work.scopes);
      var submission := Submission(context.gpu.nextSignal, Some(work.scopes + ScopeList(context.gpu, scope)));
      var entry := PendingWork(Submission(context.gpu.nextSignal, None), work.leases, None, None, false);
      var failed := entry.(completion := submission, failure := Some(SubmitPanicked(launch.message)));
      pending := pending + [entry];
      context.gpu := LaunchGpu(context.gpu, commands, launch, scope);
      pending := pending[index := failed];
      ReplaceLast(old(pending), entry, failed);
      poisoned := true;
      ghost var g := context.gpu;
      var fence := Recover(index);
      ReplaceLast(old(pending), failed, failed.(recovery := FenceSubmission(g, fence)));
      context.Unwind(work.id, commands, launch, scope, fence, pending[index]);
      work.commands, work.leases, work.scopes := [], [], [];
    }

    // ---------- waiting and teardown ----------

    /** The poll fault latched before, or the failure of the last poll made since, explains this error. */
    ghost predicate Stopped(error: WaitError, fault: Option<WaitError>, since: nat)
      reads this, context
    {
      && (error.Poll? || error.PollPanicked?)
      && (|| (fault == Some(error) && pollFault == fault)
          || (since < |context.requests| && context.requests[|context.requests| - 1] == Polled(Err(error))))
    }

    /** One pass, accounted against an earlier observation. */
    method CollectSince(ghost g: Gpu, ghost log: seq<Event>) returns (r: Result<nat, WaitError>)
      requires Valid() && Later(g, context.gpu) && log <= context.st.log
      modifies this`pending, this`poisoned, this`pollFault
      modifies context`st, context`states, context`steps, context`gpu, context`requests
      ensures Valid() && Later(g, context.gpu) && context.st.works == old(context.st.works) && log <= context.st.log
      ensures r.Ok? ==>
                && |pending| <= old(|pending|) && r.value == old(|pending|) - |pending|
                && FirstFailure(context.st.log[|log|..]) == old(FirstFailure(context.st.log[|log|..]))
      ensures r.Err? ==>
                || Stopped(r.error, old(pollFault), |old(context.requests)|)
                || (old(pending) == [] && pending == [] && context.gpu.lost.Some?
                    && r.error == DeviceLost(context.gpu.lost.value))
                || FirstFailure(context.st.log[|log|..])
                   == if old(FirstFailure(context.st.log[|log|..])).Some?
                       then old(FirstFailure(context.st.log[|log|..]))
                      else Some(r.error)
      ensures r.Err? && old(pending) != [] && pending == [] ==>
                FirstFailure(context.st.log[|log|..])
                == if old(FirstFailure(context.st.log[|log|..])).Some?
                   then old(FirstFailure(context.st.log[|log|..]))
                   else Some(r.error)
      ensures old(FirstFailure(context.st.log[|log|..])).Some? ==>
                FirstFailure(context.st.log[|log|..]) == old(FirstFailure(context.st.log[|log|..]))
      ensures old(context.gpu).lost.Some? ==>
                && r == Err(DeviceLost(old(context.gpu).lost.value)) && pending == []
                && old(context.st.log) <= context.st.log
                && NoneSucceed(context.st.log[|old(context.st.log)|..])
      ensures old(context.requests) <= context.requests
      ensures forall k :: |old(context.requests)| <= k < |context.requests| ==> !context.requests[k].Slept?
      ensures r.Ok? || (pending != [] && !r.error.Poll? && !r.error.PollPanicked?) ==>
                OnePoll(context.requests, |old(context.requests)|) && pollFault.None?
      ensures old(pollFault).Some? ==> pollFault == old(pollFault)
      ensures r.Ok? ==> old(pollFault).None? && pollFault.None?
      ensures pending != [] ==> pollFault.Some? || Polls(context.requests[|old(context.requests)|..]) >= 1
    {
      ghost var h, middle, requests := context.gpu, context.st.log, context.requests;
      ghost var sweep;
      r, sweep := Collect();
      CollectAsks(sweep, r, requests);
      LaterTransitive(g, h, context.gpu);
      FirstFailureFrom(log, middle, context.st.log);
    }

    /** Let time pass between two passes. */
    method Pause(slice: nat, ghost g: Gpu)
      requires Valid() && Later(g, context.gpu)
      modifies context`st, context`states, context`steps, context`gpu, context`clock, context`requests
      ensures Valid() && Later(g, context.gpu) && context.st == old(context.st).(gpu := context.gpu)
      ensures old(context.clock) < context.clock
      ensures context.requests == old(context.requests) + [Slept(slice, |pending|, poisoned, old(context.clock))]
    {
      ghost var h := context.gpu;
      context.Sleep(slice, |pending|, poisoned);
      LaterTransitive(g, h, context.gpu);
    }

    /** Fewer slots than needed are free, where at least one is needed and no more than there are. */
    predicate Short(retained: nat, needed: nat)
    {
      if needed > capacity then retained > 0 else retained + needed > capacity || retained == capacity
    }

    /** Every sleep since then was for at most a period, before the deadline, unpoisoned, and for lack of slots. */
    ghost predicate Patient(since: nat, needed: nat, deadline: nat)
      reads context
    {
      forall k :: since <= k < |context.requests| && context.requests[k].Slept? ==>
                    var nap := context.requests[k];
                    && nap.slice <= POLL_PERIOD && nap.at + nap.slice <= deadline && nap.at < deadline
                    && !nap.poisoned && Short(nap.retained, needed)
    }

    /** Let a period pass; nothing is polled in it. */
    method Rest(ghost g: Gpu, ghost start: seq<Request>)
      requires Valid() && Later(g, context.gpu) && start <= context.requests
      modifies context`st, context`states, context`steps, context`gpu, context`clock, context`requests
      ensures Valid() && Later(g, context.gpu) && context.st == old(context.st).(gpu := context.gpu)
      ensures old(context.clock) < context.clock && old(context.requests) <= context.requests
      ensures Polls(context.requests[|start|..]) == old(Polls(context.requests[|start|..]))
    {
      ghost var polled := context.requests;
      Pause(POLL_PERIOD, g);
      NapCounts(start, polled, context.requests);
    }

    /** Sleep for a slice, with good reason, then make one pass. */
    method CollectAfter(slice: nat, ghost g: Gpu, ghost log: seq<Event>, ghost since: nat, ghost needed: nat,
                        ghost deadline: nat)
      returns (r: Result<nat, WaitError>)
      requires Waiting(g, log, since, needed, deadline) && pending != []
      requires slice <= POLL_PERIOD && context.clock + slice <= deadline && context.clock < deadline
      requires !poisoned && Short(|pending|, needed)
      modifies this`pending, this`poisoned, this`pollFault
      modifies context`st, context`states, context`steps, context`gpu, context`clock, context`requests
      ensures Valid() && Later(g, context.gpu) && context.st.works == old(context.st.works) && log <= context.st.log
      ensures old(context.clock) < context.clock
      ensures r.Ok? ==>
                && |pending| <= old(|pending|) && r.value == old(|pending|) - |pending|
                && Waiting(g, log, since, needed, deadline)
      ensures r.Err? ==> Stopped(r.error, None, since) || FirstFailure(context.st.log[|log|..]) == Some(r.error)
      ensures old(context.requests) <= context.requests && Patient(since, needed, deadline)
    {
      ghost var requests := context.requests;
      Pause(slice, g);
      r := CollectSince(g, log);
      StillPatient(requests, since, needed, deadline);
      if r.Ok? {
        NapPolls(requests, context.requests, since);
      }
    }

    /** Between two passes of a wait: nothing has failed yet, and every nap had a reason and led to a poll. */
    ghost predicate Waiting(g: Gpu, log: seq<Event>, since: nat, needed: nat, deadline: nat)
      reads this, context
    {
      && Valid() && pollFault.None? && Later(g, context.gpu)
      && log <= context.st.log && FirstFailure(context.st.log[|log|..]).None?
      && since <= |context.requests| && Patient(since, needed, deadline) && EachNapPolls(context.requests, since)
    }

    /** Read the clock. */
    method WaitingSince(ghost g: Gpu, ghost log: seq<Event>, ghost since: nat, ghost needed: nat, ghost deadline: nat)
      returns (now: nat)
      requires Waiting(g, log, since, needed, deadline)
      modifies context`clock
      ensures Waiting(g, log, since, needed, deadline) && now == context.clock && old(context.clock) <= now
    {
      now := context.Now();
    }

    /**
     Collect until `needed` slots are free, the queue is poisoned or the time is up.
     Ok counts exactly the retired entries, and without poison or expiry the slots are free.
     */
    method WaitForSlots(needed: nat, timeout: nat) returns (r: Result<nat, WaitError>, ghost start: nat)
      requires Valid()
      modifies this`pending, this`poisoned, this`pollFault
      modifies context`st, context`states, context`steps, context`gpu, context`clock, context`requests
      ensures Valid() && Later(old(context.gpu), context.gpu) && context.st.works == old(context.st.works)
      ensures old(context.st.log) <= context.st.log && old(context.requests) <= context.requests
      ensures old(context.clock) <= start <= context.clock
      ensures r.Ok? ==>
                && |pending| <= old(|pending|) && r.value == old(|pending|) - |pending|
                && FirstFailure(context.st.log[|old(context.st.log)|..]).None?
      ensures old(context.gpu).lost.Some? ==>
                && r == Err(DeviceLost(old(context.gpu).lost.value)) && pending == []
                && NoneSucceed(context.st.log[|old(context.st.log)|..])
      ensures r.Err? ==>
                || Stopped(r.error, old(pollFault), |old(context.requests)|)
                || (old(pending) == [] && pending == [] && context.gpu.lost.Some?
                    && r.error == DeviceLost(context.gpu.lost.value))
                || FirstFailure(context.st.log[|old(context.st.log)|..]) == Some(r.error)
      ensures r.Ok? && !poisoned && context.clock < start + timeout ==>
                && |pending| < capacity
                && (needed <= capacity ==> |pending| + needed <= capacity)
                && (needed > capacity ==> pending == [])
      ensures Patient(|old(context.requests)|, needed, start + timeout)
      ensures r.Ok? ==> EachNapPolls(context.requests, |old(context.requests)|)
    {
      var maxPending := capacity - Clamp(needed, 1, capacity);
      var total := 0;
      start := context.clock;
      var collected := CollectSince(context.gpu, context.st.log);
      if collected.Err? {
        return collected, start;
      }
      total := collected.value;
      if |pending| <= maxPending || poisoned || timeout == 0 {
        return Ok(total), start;
      }
      var began := WaitingSince(old(context.gpu), old(context.st.log), |old(context.requests)|, needed, 0);
      start := began;
      var now := began;
      while |pending| > maxPending && !poisoned && now < began + timeout
        invariant Waiting(old(context.gpu), old(context.st.log), |old(context.requests)|, needed, began + timeout)
        invariant context.st.works == old(context.st.works) && old(context.requests) <= context.requests
        invariant |pending| <= old(|pending|) && total == old(|pending|) - |pending|
        invariant old(context.clock) <= began <= now == context.clock && start == began
        decreases began + timeout - now
      {
        collected := CollectAfter(Clamp(began + timeout - now, 0, POLL_PERIOD), old(context.gpu), old(context.st.log),
                                  |old(context.requests)|, needed, began + timeout);
        if collected.Err? {
          return collected, start;
        }
        total := total + collected.value;
        now := WaitingSince(old(context.gpu), old(context.st.log), |old(context.requests)|, needed, began + timeout);
      }
      return Ok(total), start;
    }

    /** One more nap for a good reason keeps the account. */
    lemma StillPatient(before: seq<Request>, since: nat, needed: nat, deadline: nat)
      requires before <= context.requests && since <= |before| < |context.requests|
      requires forall k :: since <= k < |before| && before[k].Slept? ==>
                 var nap := before[k];
                 && nap.slice <= POLL_PERIOD && nap.at + nap.slice <= deadline && nap.at < deadline
                 && !nap.poisoned && Short(nap.retained, needed)
      requires var nap := context.requests[|before|];
               && nap.Slept? && nap.slice <= POLL_PERIOD && nap.at + nap.slice <= deadline && nap.at < deadline
               && !nap.poisoned && Short(nap.retained, needed)
      requires forall k :: |before| < k < |context.requests| ==> !context.requests[k].Slept?
      ensures Patient(since, needed, deadline)
    {
    }

    /**
     Wait for and settle everything still retained, for at most `fuel` passes; None means
     the GPU has not answered yet. Ok comes only with nothing pending and no failure seen;
     pending work is given back to the caller only by a poll error.
     */
    method Shutdown(fuel: nat) returns (r: Option<Outcome>)
      requires Valid()
      modifies this`pending, this`poisoned, this`pollFault
      modifies context`st, context`states, context`steps, context`gpu, context`clock, context`requests
      ensures Valid() && Later(old(context.gpu), context.gpu) && context.st.works == old(context.st.works)
      ensures old(context.st.log) <= context.st.log && old(context.requests) <= context.requests
      ensures r.None? ==> pending != []
      ensures r.None? ==> Polls(context.requests[|old(context.requests)|..]) == fuel
      ensures fuel > 0 && pending != [] ==>
                pollFault.Some? || Polls(context.requests[|old(context.requests)|..]) >= 1
      ensures r == Some(Ok(())) ==> pending == [] && FirstFailure(context.st.log[|old(context.st.log)|..]).None?
      ensures r.Some? && pending != [] ==>
                && r.value.Err?
                && (|| Stopped(r.value.error, old(pollFault), |old(context.requests)|)
                    || ((r.value.error.Poll? || r.value.error.PollPanicked?)
                        && FirstFailure(context.st.log[|old(context.st.log)|..]).Some?))
      ensures r.Some? && r.value.Err? && pending == [] ==>
                FirstFailure(context.st.log[|old(context.st.log)|..]) == Some(r.value.error)
      ensures old(context.gpu).lost.Some? ==>
                && NoneSucceed(context.st.log[|old(context.st.log)|..])
                && (old(pending) != [] && fuel > 0 ==>
                    r == Some(Err(DeviceLost(old(context.gpu).lost.value))) && pending == [])
      ensures old(pollFault).Some? ==> pollFault == old(pollFault)
    {
      var failure: Option<WaitError> := None;
      var left := fuel;
      assert context.requests[|context.requests|..] == [];
      while pending != []
        invariant Valid() && Later(old(context.gpu), context.gpu) && context.st.works == old(context.st.works)
        invariant old(context.st.log) <= context.st.log && old(context.requests) <= context.requests
        invariant failure == FirstFailure(context.st.log[|old(context.st.log)|..])
        invariant 0 <= left <= fuel && (left == fuel ==>
                  pending == old(pending) && context.st.log == old(context.st.log) && failure.None?)
        invariant left == fuel ==> context.gpu == old(context.gpu)
        invariant left < fuel && old(context.gpu).lost.Some? ==>
                    && pending == [] && failure == Some(DeviceLost(old(context.gpu).lost.value))
                    && NoneSucceed(context.st.log[|old(context.st.log)|..])
        invariant pending != [] ==> Polls(context.requests[|old(context.requests)|..]) == fuel - left
        invariant old(pollFault).Some? ==> pollFault == old(pollFault)
        invariant old(pollFault).None? && pending != [] ==> pollFault.None?
        decreases left
      {
        if left == 0 {
          return None;
        }
        left := left - 1;
        ghost var requests := context.requests;
        var collected := CollectSince(old(context.gpu), old(context.st.log));
        if collected.Err? {
          if pending != [] && (collected.error.Poll? || collected.error.PollPanicked?) {
            PollsSince(old(context.requests), requests, context.requests);
            return Some(Err(collected.error));
          }
          failure := if failure.Some? then failure else Some(collected.error);
        }
        if pending != [] {
          OnePollCounts(old(context.requests), requests, context.requests);
          Rest(old(context.gpu), old(context.requests));
        }
      }
      return Some(if failure.Some? then Err(failure.value) else Ok(()));
    }

    /** Dropping the owner retries shutdown; it ends only with every lease settled, or after so many polls. */
    method DropQueue(fuel: nat) returns (done: bool)
      requires Valid()
      modifies this`pending, this`poisoned, this`pollFault
      modifies context`st, context`states, context`steps, context`gpu, context`clock, context`requests
      ensures Valid() && (done <==> pending == []) && old(context.requests) <= context.requests
      ensures !done ==> pollFault.Some? || Polls(context.requests[|old(context.requests)|..]) >= fuel
      ensures done ==> forall l :: l in context.st.stage && !context.st.stage[l].Gone? ==>
                exists w :: w in context.st.works && l in context.st.works[w].leases
    {
      var left := fuel;
      while pending != [] && left > 0
        invariant Valid() && old(context.requests) <= context.requests && left <= fuel
        invariant pollFault.Some? || pending == []
                  || Polls(context.requests[|old(context.requests)|..]) >= fuel - left
        decreases left
      {
        ghost var requests := context.requests;
        var _ := Shutdown(left);
        PollsSince(old(context.requests), requests, context.requests);
        left := left - 1;
        if pending != [] {
          Rest(context.gpu, old(context.requests));
        }
      }
      context.Safe();
      if pending == [] {
        forall l | l in context.st.stage && !context.st.stage[l].Gone?
          ensures exists w :: w in context.st.works && l in context.st.works[w].leases
        {
          assert Placed(context.st, l);
          assert Held(context.st, l);
        }
      }
      return pending == [];
    }
  }
}

/**
 The pool shared by any number of threads. A step is one section under the pool lock, or
 one unlocked check; the lock is dropped between two evictions, so other threads may put,
 take or lower the budget in between.
 */
module PoolSteps {
  import opened Outcomes
  import opened Admission
  import opened Pool

  /** A resource with a comparable key; its payload is its identity. */
  type Item = Resource<nat, nat>

  datatype Caller =
    | Idle
    | Putting(r: Item)                    // about to look at the budget without the lock
    | PutEntering(r: Item)                // about to lock for the first time
    | PutAgain(r: Item, left: nat)        // evicted one; about to lock again
    | Evicting(wanted: nat)                         // about to count the idle entries
    | EvictAgain(wanted: nat, left: nat, freed: nat)

  datatype Shared = Shared(
    slots: seq<Item>,
    bytes: nat,
    budget: nat,
    panicked: bool,                       // removed from an empty list, or wrapped a counter
    callers: seq<Caller>)

  /** Every resource ever returned is in exactly one of these places. */
  datatype Ledger = Ledger(
    returned: multiset<Item>,
    handed: multiset<Item>,
    dropped: multiset<Item>)

  datatype State = State(shared: Shared, ledger: Ledger)

  datatype Step =
    | StartPut(thread: nat, r: Item)
    | StartEvict(thread: nat, wanted: nat)
    | Take(thread: nat, key: nat)
    | SetBudget(thread: nat, budget: nat)
    | Continue(thread: nat)

  predicate Enabled(s: State, step: Step) {
    step.thread < |s.shared.callers|
    && (step.Continue? <==> !s.shared.callers[step.thread].Idle?)
    && (step.SetBudget? ==> step.budget <= U64_MAX)
  }

  /** Only one caller moves on. */
  ghost predicate OthersWait(s: State, t: State, thread: nat) {
    |t.shared.callers| == |s.shared.callers|
    && forall i :: 0 <= i < |s.shared.callers| && i != thread ==> t.shared.callers[i] == s.shared.callers[i]
  }

  ghost function Move(s: State, thread: nat, c: Caller): State
    requires thread < |s.shared.callers|
  {
    s.(shared := s.shared.(callers := s.shared.callers[thread := c]))
  }

  ghost function Drop(s: State, gone: seq<Item>): (t: State)
    ensures t.shared.callers == s.shared.callers
  {
    s.(ledger := s.ledger.(dropped := s.ledger.dropped + multiset(gone)))
  }

  /** `slots.remove(0)`, which panics on an empty list. */
  ghost function RemoveOldest(s: State): (t: State)
    ensures t.shared.callers == s.shared.callers
  {
    var p := s.shared;
    if p.slots == [] || p.bytes < p.slots[0].bytes then s.(shared := p.(panicked := true))
    else Drop(s.(shared := p.(slots := p.slots[1..], bytes := p.bytes - p.slots[0].bytes)), [p.slots[0]])
  }

  ghost predicate Refused(p: Shared, size: nat, maxEntries: nat) {
    size > p.budget || p.bytes > p.budget - size || |p.slots| >= maxEntries
  }

  /** One locked section of `put`, with `left` evictions still allowed. */
  ghost function PutSection(s: State, thread: nat, r: Item, left: nat, maxEntries: nat): (t: State)
    requires thread < |s.shared.callers|
    ensures OthersWait(s, t, thread)
  {
    var p := s.shared;
    if left > 0 && r.bytes <= p.budget && Refused(p, r.bytes, maxEntries) then
      Move(RemoveOldest(s), thread, PutAgain(r, left - 1))
    else if Refused(p, r.bytes, maxEntries) then
      Move(Drop(s, [r]), thread, Idle)
    else
      Move(s.(shared := p.(slots := p.slots + [r], bytes := p.bytes + r.bytes)), thread, Idle)
  }

  /** One iteration of `evict`: a locked removal, or the end of the loop. */
  ghost function EvictSection(s: State, thread: nat, wanted: nat, left: nat, freed: nat): (t: State)
    requires thread < |s.shared.callers|
    ensures OthersWait(s, t, thread)
  {
    var p := s.shared;
    if left == 0 || freed >= wanted || p.slots == [] then Move(s, thread, Idle)
    else
      var total := freed + p.slots[0].bytes;
      Move(RemoveOldest(s), thread, EvictAgain(wanted, left - 1, if total > U64_MAX then U64_MAX else total))
  }

  ghost function TakeSection(s: State, key: nat): State {
    var p := s.shared;
    match LatestAt(p.slots, key)
    case None => s
    case Some(at) =>
      if at >= |p.slots| || p.bytes < p.slots[at].bytes then s.(shared := p.(panicked := true))
      else
        s.(shared := p.(slots := p.slots[..at] + p.slots[at + 1..], bytes := p.bytes - p.slots[at].bytes),
           ledger := s.ledger.(handed := s.ledger.handed + multiset{p.slots[at]}))
  }

  ghost function BudgetSection(s: State, budget: nat): State {
    var p := s.shared;
    var n := OverAt(p.slots, budget);
    if p.bytes < Bytes(p.slots[..n]) then s.(shared := p.(panicked := true))
    else Drop(s.(shared := p.(slots := p.slots[n..], bytes := p.bytes - Bytes(p.slots[..n]), budget := budget)),
        p.slots[..n])
  }

  /** The unlocked look at the budget with which `put` begins. */
  ghost function CheckBudget(s: State, thread: nat, r: Item, maxEntries: nat): (t: State)
    requires thread < |s.shared.callers|
    ensures OthersWait(s, t, thread)
  {
    if r.bytes > s.shared.budget || maxEntries == 0 then Move(Drop(s, [r]), thread, Idle)
    else Move(s, thread, PutEntering(r))
  }

  ghost function Proceed(s: State, thread: nat, maxEntries: nat): (t: State)
    requires thread < |s.shared.callers|
    ensures OthersWait(s, t, thread)
  {
    match s.shared.callers[thread]
    case Idle => s
    case Putting(r) => CheckBudget(s, thread, r, maxEntries)
    case PutEntering(r) => PutSection(s, thread, r, |s.shared.slots|, maxEntries)
    case PutAgain(r, left) => PutSection(s, thread, r, left, maxEntries)
    case Evicting(wanted) => Move(s, thread, EvictAgain(wanted, |s.shared.slots|, 0))
    case EvictAgain(wanted, left, freed) => EvictSection(s, thread, wanted, left, freed)
  }

  ghost function Return(s: State, thread: nat, r: Item): State
    requires thread < |s.shared.callers|
  {
    Move(s.(ledger := s.ledger.(returned := s.ledger.returned + multiset{r})), thread, Putting(r))
  }

  ghost function Do(s: State, step: Step, maxEntries: nat): State
    requires Enabled(s, step)
  {
    match step
    case StartPut(i, r) => Return(s, i, r)
    case StartEvict(i, wanted) => Move(s, i, Evicting(wanted))
    case Take(_, key) => TakeSection(s, key)
    case SetBudget(_, budget) => BudgetSection(s, budget)
    case Continue(i) => Proceed(s, i, maxEntries)
  }

  // ---------- the invariant at every lock release ----------

  ghost predicate Inv(s: State, maxEntries: nat) {
    var p := s.shared;
    && !p.panicked
    && p.bytes == Bytes(p.slots) && p.bytes <= p.budget <= U64_MAX && |p.slots| <= maxEntries
    && (forall i :: 0 <= i < |p.callers| && (p.callers[i].PutEntering? || p.callers[i].PutAgain?) ==> 0 < maxEntries)
  }

  /** Under the invariant the oldest entry exists whenever a section decides to evict. */
  lemma RemoveOldestSafe(s: State)
    requires s.shared.slots != [] && s.shared.bytes == Bytes(s.shared.slots)
    ensures RemoveOldest(s).shared
            == s.shared.(slots := s.shared.slots[1..], bytes := Bytes(s.shared.slots[1..]))
  {
  }

  lemma PutSectionKeeps(s: State, i: nat, r: Item, left: nat, maxEntries: nat)
    requires Inv(s, maxEntries) && i < |s.shared.callers| && 0 < maxEntries
    ensures Inv(PutSection(s, i, r, left, maxEntries), maxEntries)
  {
    var p := s.shared;
    if left > 0 && r.bytes <= p.budget && Refused(p, r.bytes, maxEntries) {
      assert p.slots != [];
      RemoveOldestSafe(s);
    } else {
      BytesPush(p.slots, r);
    }
  }

  lemma EvictSectionKeeps(s: State, i: nat, wanted: nat, left: nat, freed: nat, maxEntries: nat)
    requires Inv(s, maxEntries) && i < |s.shared.callers|
    ensures Inv(EvictSection(s, i, wanted, left, freed), maxEntries)
  {
    if s.shared.slots != [] {
      RemoveOldestSafe(s);
    }
  }

  lemma TakeKeeps(s: State, key: nat, maxEntries: nat)
    requires Inv(s, maxEntries)
    ensures Inv(TakeSection(s, key), maxEntries)
  {
    LatestAtIsLatest(s.shared.slots, key);
    if LatestAt(s.shared.slots, key).Some? {
      BytesWithout(s.shared.slots, LatestAt(s.shared.slots, key).value);
    }
  }

  lemma BudgetKeeps(s: State, budget: nat, maxEntries: nat)
    requires Inv(s, maxEntries) && budget <= U64_MAX
    ensures Inv(BudgetSection(s, budget), maxEntries)
  {
    OverAtIsShortest(s.shared.slots, budget);
    BytesSplit(s.shared.slots, OverAt(s.shared.slots, budget));
  }

  lemma ProceedKeeps(s: State, i: nat, maxEntries: nat)
    requires Inv(s, maxEntries) && i < |s.shared.callers|
    ensures Inv(Proceed(s, i, maxEntries), maxEntries)
  {
    match s.shared.callers[i]
    case PutEntering(r) => PutSectionKeeps(s, i, r, |s.shared.slots|, maxEntries);
    case PutAgain(r, left) => PutSectionKeeps(s, i, r, left, maxEntries);
    case EvictAgain(wanted, left, freed) => EvictSectionKeeps(s, i, wanted, left, freed, maxEntries);
    case _ =>
  }

  /** Whatever any thread does next, the accounting is exact and nothing panics. */
  lemma StepKeeps(s: State, step: Step, maxEntries: nat)
    requires Inv(s, maxEntries) && Enabled(s, step)
    ensures Inv(Do(s, step, maxEntries), maxEntries)
  {
    match step
    case Take(_, key) => TakeKeeps(s, key, maxEntries);
    case SetBudget(_, budget) => BudgetKeeps(s, budget, maxEntries);
    case Continue(i) => ProceedKeeps(s, i, maxEntries);
    case _ =>
  }

  // ---------- no resource is ever shared or lost ----------

  ghost function InHand(c: Caller, x: Item): nat {
    if (c.Putting? || c.PutEntering? || c.PutAgain?) && c.r == x then 1 else 0
  }

  ghost function Hands(callers: seq<Caller>, x: Item): nat {
    if callers == [] then 0 else InHand(callers[0], x) + Hands(callers[1..], x)
  }

  lemma {:induction false} HandsUpdate(callers: seq<Caller>, i: nat, c: Caller, x: Item)
    requires i < |callers|
    ensures Hands(callers[i := c], x) + InHand(callers[i], x) == Hands(callers, x) + InHand(c, x)
  {
    if i > 0 {
      HandsUpdate(callers[1..], i - 1, c, x);
      assert callers[i := c][1..] == callers[1..][i - 1 := c];
    } else {
      assert callers[i := c][1..] == callers[1..];
    }
  }

  /** Each returned resource is idle, in one caller's hands, handed out again, or dropped. */
  ghost predicate Conserved(s: State, x: Item) {
    s.ledger.returned[x]
    == multiset(s.shared.slots)[x] + Hands(s.shared.callers, x) + s.ledger.handed[x] + s.ledger.dropped[x]
  }

  lemma RemoveOldestConserves(s: State, x: Item)
    requires s.shared.slots != []
    ensures multiset(RemoveOldest(s).shared.slots)[x] + RemoveOldest(s).ledger.dropped[x]
            == multiset(s.shared.slots)[x] + s.ledger.dropped[x]
  {
    assert s.shared.slots == [s.shared.slots[0]] + s.shared.slots[1..];
  }

  lemma PutSectionConserves(s: State, i: nat, r: Item, left: nat, maxEntries: nat, x: Item)
    requires Inv(s, maxEntries) && Conserved(s, x) && i < |s.shared.callers| && 0 < maxEntries
    requires InHand(s.shared.callers[i], x) == if r == x then 1 else 0
    ensures Conserved(PutSection(s, i, r, left, maxEntries), x)
  {
    var p := s.shared;
    if left > 0 && r.bytes <= p.budget && Refused(p, r.bytes, maxEntries) {
      HandsUpdate(p.callers, i, PutAgain(r, left - 1), x);
      assert p.slots != [];
      RemoveOldestConserves(s, x);
    } else {
      HandsUpdate(p.callers, i, Idle, x);
      assert multiset(p.slots + [r])[x] == multiset(p.slots)[x] + multiset([r])[x];
    }
  }

  /** Moving a caller on changes only what that caller holds. */
  lemma MoveConserves(s: State, i: nat, c: Caller, x: Item)
    requires i < |s.shared.callers| && Conserved(s, x)
    requires InHand(c, x) == InHand(s.shared.callers[i], x)
    ensures Conserved(Move(s, i, c), x)
  {
    HandsUpdate(s.shared.callers, i, c, x);
  }

  lemma RemoveKeepsConserved(s: State, x: Item)
    requires Conserved(s, x)
    ensures Conserved(RemoveOldest(s), x)
  {
    if s.shared.slots != [] {
      RemoveOldestConserves(s, x);
    }
  }

  lemma EvictConserves(s: State, i: nat, wanted: nat, left: nat, freed: nat, x: Item)
    requires Conserved(s, x) && i < |s.shared.callers| && InHand(s.shared.callers[i], x) == 0
    ensures Conserved(EvictSection(s, i, wanted, left, freed), x)
  {
    RemoveKeepsConserved(s, x);
    if left == 0 || freed >= wanted || s.shared.slots == [] {
      MoveConserves(s, i, Idle, x);
    } else {
      var total := freed + s.shared.slots[0].bytes;
      MoveConserves(RemoveOldest(s), i, EvictAgain(wanted, left - 1, if total > U64_MAX then U64_MAX else total), x);
    }
  }

  lemma CheckConserves(s: State, i: nat, r: Item, maxEntries: nat, x: Item)
    requires Conserved(s, x) && i < |s.shared.callers| && s.shared.callers[i] == Putting(r)
    ensures Conserved(CheckBudget(s, i, r, maxEntries), x)
  {
    HandsUpdate(s.shared.callers, i, Idle, x);
    MoveConserves(s, i, PutEntering(r), x);
  }

  lemma ProceedConserves(s: State, i: nat, maxEntries: nat, x: Item)
    requires Inv(s, maxEntries) && Conserved(s, x) && i < |s.shared.callers|
    ensures Conserved(Proceed(s, i, maxEntries), x)
  {
    match s.shared.callers[i]
    case Idle =>
    case Putting(r) => CheckConserves(s, i, r, maxEntries, x);
    case PutEntering(r) => PutSectionConserves(s, i, r, |s.shared.slots|, maxEntries, x);
    case PutAgain(r, left) => PutSectionConserves(s, i, r, left, maxEntries, x);
    case Evicting(wanted) => MoveConserves(s, i, EvictAgain(wanted, |s.shared.slots|, 0), x);
    case EvictAgain(wanted, left, freed) => EvictConserves(s, i, wanted, left, freed, x);
  }

  lemma TakeConserves(s: State, key: nat, x: Item)
    requires Conserved(s, x)
    ensures Conserved(TakeSection(s, key), x)
  {
    var slots := s.shared.slots;
    LatestAtIsLatest(slots, key);
    if LatestAt(slots, key).Some? {
      var at := LatestAt(slots, key).value;
      assert slots == slots[..at] + [slots[at]] + slots[at + 1..];
    }
  }

  lemma BudgetConserves(s: State, budget: nat, x: Item)
    requires Conserved(s, x)
    ensures Conserved(BudgetSection(s, budget), x)
  {
    var n := OverAt(s.shared.slots, budget);
    assert s.shared.slots == s.shared.slots[..n] + s.shared.slots[n..];
  }

  lemma StepConserves(s: State, step: Step, maxEntries: nat, x: Item)
    requires Inv(s, maxEntries) && Conserved(s, x) && Enabled(s, step)
    ensures Conserved(Do(s, step, maxEntries), x)
  {
    match step
    case StartPut(i, r) => HandsUpdate(s.shared.callers, i, Putting(r), x);
    case StartEvict(i, wanted) => MoveConserves(s, i, Evicting(wanted), x);
    case Take(_, key) => TakeConserves(s, key, x);
    case SetBudget(_, budget) => BudgetConserves(s, budget, x);
    case Continue(i) => ProceedConserves(s, i, maxEntries, x);
  }

  // ---------- runs ----------

  ghost predicate IsRun(states: seq<State>, steps: seq<Step>, maxEntries: nat) {
    && |states| == |steps| + 1
    && forall n {:trigger steps[n]} :: 0 <= n < |steps| ==>
         Enabled(states[n], steps[n]) && states[n + 1] == Do(states[n], steps[n], maxEntries)
  }

  ghost predicate Initial(s: State) {
    && s.shared.slots == [] && s.shared.bytes == 0 && s.shared.budget <= U64_MAX && !s.shared.panicked
    && (forall i :: 0 <= i < |s.shared.callers| ==> s.shared.callers[i].Idle?)
    && s.ledger == Ledger(multiset{}, multiset{}, multiset{})
  }

  lemma {:induction false} NothingInHand(callers: seq<Caller>, x: Item)
    requires forall i :: 0 <= i < |callers| ==> callers[i].Idle?
    ensures Hands(callers, x) == 0
  {
    if callers == [] {
    } else {
      NothingInHand(callers[1..], x);
    }
  }

  /**
   At every lock release of every run: the byte counter is the sum of the slots and at most
   the current budget, the entry bound holds, no removal ever met an empty list, and every
   resource ever returned is in exactly one place.
   */
  lemma {:induction false} EveryRelease(states: seq<State>, steps: seq<Step>, maxEntries: nat, n: nat, x: Item)
    requires IsRun(states, steps, maxEntries) && Initial(states[0]) && n < |states|
    ensures Inv(states[n], maxEntries) && Conserved(states[n], x)
  {
    if n == 0 {
      NothingInHand(states[0].shared.callers, x);
    } else {
      EveryRelease(states, steps, maxEntries, n - 1, x);
      assert steps[n - 1] == steps[n - 1];
      StepKeeps(states[n - 1], steps[n - 1], maxEntries);
      StepConserves(states[n - 1], steps[n - 1], maxEntries, x);
    }
  }

  // ---------- bounded work ----------

  /** Sections a caller can still need before it returns. */
  function Budgeted(c: Caller): nat {
    match c
    case PutAgain(_, left) => left + 1
    case EvictAgain(_, left, _) => left + 1
    case _ => 0
  }

  function OwnSteps(steps: seq<Step>, i: nat): nat {
    if steps == [] then 0
    else OwnSteps(steps[..|steps| - 1], i) + (if steps[|steps| - 1].thread == i then 1 else 0)
  }

  ghost predicate Busy(s: State, i: nat) {
    i < |s.shared.callers| && (s.shared.callers[i].PutAgain? || s.shared.callers[i].EvictAgain?)
  }

  /**
   However the other threads interleave, a `put` or `evict` that has counted the idle
   entries finishes within that many further sections of its own, plus one.
   */
  lemma {:induction false} BoundedSections(states: seq<State>, steps: seq<Step>, maxEntries: nat, i: nat)
    requires IsRun(states, steps, maxEntries) && forall n :: 0 <= n < |states| ==> Busy(states[n], i)
    requires Busy(states[0], i) && Busy(states[|steps|], i)
    ensures Budgeted(states[|steps|].shared.callers[i]) + OwnSteps(steps, i) == Budgeted(states[0].shared.callers[i])
    ensures OwnSteps(steps, i) < Budgeted(states[0].shared.callers[i])
  {
    if steps == [] {
    } else {
      var n := |steps| - 1;
      assert IsRun(states[..n + 1], steps[..n], maxEntries) by {
        assert forall k :: 0 <= k < n ==> steps[..n][k] == steps[k];
      }
      BoundedSections(states[..n + 1], steps[..n], maxEntries, i);
      assert steps[n] == steps[n];
      assert Busy(states[n], i) && Busy(states[n + 1], i);
      OneSection(states[n], steps[n], maxEntries, i);
    }
  }

  lemma OneSection(s: State, step: Step, maxEntries: nat, i: nat)
    requires Enabled(s, step) && Busy(s, i) && Busy(Do(s, step, maxEntries), i)
    ensures Budgeted(Do(s, step, maxEntries).shared.callers[i]) + (if step.thread == i then 1 else 0)
            == Budgeted(s.shared.callers[i])
  {
    if step.thread != i {
      OthersStay(s, step, maxEntries, i);
    } else {
      match step
      case Continue(_) => OwnSection(s, i, maxEntries);
      case _ =>
    }
  }

  lemma OthersStay(s: State, step: Step, maxEntries: nat, i: nat)
    requires Enabled(s, step) && step.thread != i && i < |s.shared.callers|
    ensures |Do(s, step, maxEntries).shared.callers| == |s.shared.callers|
    ensures Do(s, step, maxEntries).shared.callers[i] == s.shared.callers[i]
  {
  }

  lemma OwnSection(s: State, i: nat, maxEntries: nat)
    requires Busy(s, i) && Busy(Proceed(s, i, maxEntries), i)
    ensures Budgeted(Proceed(s, i, maxEntries).shared.callers[i]) + 1 == Budgeted(s.shared.callers[i])
  {
  }

  /** The first section of either operation allows it exactly the idle entries it saw. */
  lemma FirstCount(s: State, step: Step, maxEntries: nat)
    requires Enabled(s, step) && step.Continue?
    requires s.shared.callers[step.thread].PutEntering? || s.shared.callers[step.thread].Evicting?
    requires Busy(Do(s, step, maxEntries), step.thread)
    ensures Budgeted(Do(s, step, maxEntries).shared.callers[step.thread]) <= |s.shared.slots| + 1
  {
  }

  lemma {:induction false} OwnStepsSplit(a: seq<Step>, b: seq<Step>, i: nat)
    ensures OwnSteps(a + b, i) == OwnSteps(a, i) + OwnSteps(b, i)
  {
    if b == [] {
      assert a + b == a;
    } else {
      assert (a + b)[..|a + b| - 1] == a + b[..|b| - 1];
      OwnStepsSplit(a, b[..|b| - 1], i);
    }
  }

  /**
   From its first locked section on, a `put` or `evict` is still running only as long as it
   has had at most as many sections as there were idle entries at that first one, plus one -
   whatever the other threads return, take or evict in between.
   */
  lemma EndsWithinIdleCount(states: seq<State>, steps: seq<Step>, maxEntries: nat, i: nat)
    requires IsRun(states, steps, maxEntries) && steps != [] && steps[0] == Continue(i)
    requires i < |states[0].shared.callers|
    requires states[0].shared.callers[i].PutEntering? || states[0].shared.callers[i].Evicting?
    requires forall n :: 1 <= n < |states| ==> Busy(states[n], i)
    ensures OwnSteps(steps, i) <= |states[0].shared.slots| + 1
  {
    assert steps[0] == steps[0] && Busy(states[1], i);
    FirstCount(states[0], steps[0], maxEntries);
    assert IsRun(states[1..], steps[1..], maxEntries) by {
      assert forall k :: 0 <= k < |steps[1..]| ==> steps[1..][k] == steps[k + 1];
    }
    assert forall n :: 0 <= n < |states[1..]| ==> states[1..][n] == states[n + 1];
    BoundedSections(states[1..], steps[1..], maxEntries, i);
    assert steps == [steps[0]] + steps[1..];
    OwnStepsSplit([steps[0]], steps[1..], i);
    assert [steps[0]][..0] == [];
  }

  // ---------- one thread alone computes the pool's policy ----------

  /** The caller makes n sections while everybody else waits. */
  ghost function Alone(s: State, i: nat, n: nat, maxEntries: nat): State
    requires i < |s.shared.callers|
    decreases n
  {
    if n == 0 then s else Alone(Proceed(s, i, maxEntries), i, n - 1, maxEntries)
  }

  /** What was evicted is dropped, what remains is kept, and the caller has returned. */
  ghost predicate Returned(s: State, t: State, i: nat, n: nat, kept: seq<Item>)
    requires i < |s.shared.callers| && n <= |s.shared.slots|
  {
    && t.shared == s.shared.(slots := kept, bytes := Bytes(kept), callers := s.shared.callers[i := Idle])
    && t.ledger == s.ledger.(dropped := s.ledger.dropped + multiset(s.shared.slots[..n]))
  }

  /** The caller has evicted the oldest slot, and nothing else. */
  ghost predicate Evicted(s: State, u: State, i: nat)
    requires i < |s.shared.callers| && s.shared.slots != []
  {
    && |u.shared.callers| == |s.shared.callers| && u.shared.callers[i := Idle] == s.shared.callers[i := Idle]
    && u.shared.slots == s.shared.slots[1..] && u.shared.budget == s.shared.budget
    && u.shared.panicked == s.shared.panicked
    && u.ledger == s.ledger.(dropped := s.ledger.dropped + multiset([s.shared.slots[0]]))
  }

  lemma AloneNext(s: State, i: nat, n: nat, kept: seq<Item>, maxEntries: nat)
    requires i < |s.shared.callers| && s.shared.slots != [] && n + 1 <= |s.shared.slots|
    requires var u := Proceed(s, i, maxEntries);
             Evicted(s, u, i) && Returned(u, Alone(u, i, n + 1, maxEntries), i, n, kept)
    ensures Returned(s, Alone(s, i, n + 2, maxEntries), i, n + 1, kept)
  {
    var slots := s.shared.slots;
    assert slots[..n + 1] == [slots[0]] + slots[1..][..n];
  }

  /** Between two sections of its own, a `put` that is alone has come as far as the policy says. */
  lemma {:induction false} SoloPutFrom(s: State, i: nat, r: Item, left: nat, maxEntries: nat)
    requires Inv(s, maxEntries) && i < |s.shared.callers| && s.shared.callers[i] == PutAgain(r, left)
    requires r.bytes <= s.shared.budget && 0 < maxEntries
    requires RoomAt(s.shared.slots, r.bytes, s.shared.budget, maxEntries) <= left
    ensures var n := RoomAt(s.shared.slots, r.bytes, s.shared.budget, maxEntries);
            Returned(s, Alone(s, i, n + 1, maxEntries), i, n, s.shared.slots[n..] + [r])
    decreases |s.shared.slots|
  {
    var p, n := s.shared, RoomAt(s.shared.slots, r.bytes, s.shared.budget, maxEntries);
    var u := Proceed(s, i, maxEntries);
    if n == 0 {
      BytesPush(p.slots, r);
      assert p.slots[0..] == p.slots && Alone(u, i, 0, maxEntries) == u;
    } else {
      RemoveOldestSafe(s);
      ProceedKeeps(s, i, maxEntries);
      UpdateTwice(p.callers, i, PutAgain(r, left - 1), Idle);
      assert Evicted(s, u, i);
      SoloPutFrom(u, i, r, left - 1, maxEntries);
      assert p.slots[n..] == p.slots[1..][n - 1..];
      AloneNext(s, i, n - 1, p.slots[n..] + [r], maxEntries);
    }
  }

  lemma SameSection(s: State, i: nat, c: Caller, r: Item, left: nat, maxEntries: nat)
    requires i < |s.shared.callers|
    ensures PutSection(Move(s, i, c), i, r, left, maxEntries) == PutSection(s, i, r, left, maxEntries)
    ensures Move(s, i, c).shared.callers[i := Idle] == s.shared.callers[i := Idle]
  {
    UpdateTwice(s.shared.callers, i, c, Idle);
    UpdateTwice(s.shared.callers, i, c, PutAgain(r, if left > 0 then left - 1 else 0));
  }

  lemma UpdateTwice(callers: seq<Caller>, i: nat, c: Caller, d: Caller)
    requires i < |callers|
    ensures callers[i := c][i := d] == callers[i := d]
  {
  }

  /** The first locked section of `put` is like any other that may still evict everything idle. */
  lemma SoloPutEntered(s: State, i: nat, r: Item, maxEntries: nat)
    requires Inv(s, maxEntries) && i < |s.shared.callers| && s.shared.callers[i] == PutEntering(r)
    requires r.bytes <= s.shared.budget && 0 < maxEntries
    ensures var n := RoomAt(s.shared.slots, r.bytes, s.shared.budget, maxEntries);
            Returned(s, Alone(s, i, n + 1, maxEntries), i, n, s.shared.slots[n..] + [r])
  {
    var n, v := RoomAt(s.shared.slots, r.bytes, s.shared.budget, maxEntries), Move(s, i, PutAgain(r, |s.shared.slots|));
    assert Proceed(s, i, maxEntries) == Proceed(v, i, maxEntries) by {
      SameSection(s, i, PutAgain(r, |s.shared.slots|), r, |s.shared.slots|, maxEntries);
    }
    SameSection(s, i, PutAgain(r, |s.shared.slots|), r, 0, maxEntries);
    SoloPutFrom(v, i, r, |s.shared.slots|, maxEntries);
  }

  /** Undisturbed, `put` drops the shortest oldest prefix that makes room and appends, or drops the resource. */
  lemma SoloPut(s: State, i: nat, r: Item, maxEntries: nat)
    requires Inv(s, maxEntries) && i < |s.shared.callers| && s.shared.callers[i] == Putting(r)
    ensures var n := RoomAt(s.shared.slots, r.bytes, s.shared.budget, maxEntries);
            if r.bytes > s.shared.budget || maxEntries == 0
            then Alone(s, i, 1, maxEntries) == Move(Drop(s, [r]), i, Idle)
            else Returned(s, Alone(s, i, n + 2, maxEntries), i, n, s.shared.slots[n..] + [r])
  {
    var u := Proceed(s, i, maxEntries);
    if r.bytes > s.shared.budget || maxEntries == 0 {
      assert Alone(u, i, 0, maxEntries) == u;
    } else {
      SoloPutEntered(u, i, r, maxEntries);
      assert u.shared.callers[i := Idle] == s.shared.callers[i := Idle];
    }
  }

  /** A take hands out the latest idle resource of its key, if there is one, and nothing else moves. */
  lemma TakeIsLatest(s: State, key: nat, maxEntries: nat)
    requires Inv(s, maxEntries)
    ensures var p, t := s.shared, TakeSection(s, key);
            if forall i :: 0 <= i < |p.slots| ==> p.slots[i].key != key then t == s
            else exists i :: && 0 <= i < |p.slots| && p.slots[i].key == key
                             && (forall j :: i < j < |p.slots| ==> p.slots[j].key != key)
                             && t.shared.slots == p.slots[..i] + p.slots[i + 1..]
                             && t.ledger == s.ledger.(handed := s.ledger.handed + multiset{p.slots[i]})
  {
    LatestAtIsLatest(s.shared.slots, key);
    if LatestAt(s.shared.slots, key).Some? {
      BytesWithout(s.shared.slots, LatestAt(s.shared.slots, key).value);
    }
  }

  /** A new budget drops the shortest oldest prefix beyond it, and is in force. */
  lemma BudgetIsShortest(s: State, budget: nat, maxEntries: nat)
    requires Inv(s, maxEntries)
    ensures var p, t := s.shared, BudgetSection(s, budget);
            t.shared.budget == budget && Bytes(t.shared.slots) <= budget
            && exists n :: && 0 <= n <= |p.slots| && t.shared.slots == p.slots[n..]
                           && t.ledger == s.ledger.(dropped := s.ledger.dropped + multiset(p.slots[..n]))
                           && forall m :: 0 <= m < n ==> Bytes(p.slots[m..]) > budget
  {
    OverAtIsShortest(s.shared.slots, budget);
    BytesSplit(s.shared.slots, OverAt(s.shared.slots, budget));
  }

  /** One eviction by a caller that has so much left to free. */
  lemma EvictedOne(s: State, i: nat, wanted: nat, left: nat, freed: nat, maxEntries: nat) returns (more: nat)
    requires Inv(s, maxEntries) && i < |s.shared.callers| && s.shared.callers[i] == EvictAgain(wanted, left, freed)
    requires 0 < left && freed < wanted <= U64_MAX && s.shared.slots != []
    ensures var u := Proceed(s, i, maxEntries);
            Inv(u, maxEntries) && Evicted(s, u, i) && u.shared.callers[i] == EvictAgain(wanted, left - 1, more)
    ensures var oldest := s.shared.slots[0].bytes;
            Rest(wanted, more) == if oldest <= Rest(wanted, freed) then Rest(wanted, freed) - oldest else 0
  {
    RemoveOldestSafe(s);
    ProceedKeeps(s, i, maxEntries);
    var total := freed + s.shared.slots[0].bytes;
    more := if total > U64_MAX then U64_MAX else total;
    UpdateTwice(s.shared.callers, i, EvictAgain(wanted, left - 1, more), Idle);
  }

  lemma EvictDone(s: State, i: nat, wanted: nat, left: nat, freed: nat, maxEntries: nat)
    requires Inv(s, maxEntries) && i < |s.shared.callers| && s.shared.callers[i] == EvictAgain(wanted, left, freed)
    requires freed >= wanted || s.shared.slots == []
    ensures Returned(s, Alone(s, i, 1, maxEntries), i, 0, s.shared.slots[0..])
  {
    var u := Proceed(s, i, maxEntries);
    assert s.shared.slots[0..] == s.shared.slots && Alone(u, i, 0, maxEntries) == u;
  }

  function Rest(wanted: nat, freed: nat): nat {
    if freed < wanted then wanted - freed else 0
  }

  lemma {:induction false} SoloEvictFrom(s: State, i: nat, wanted: nat, left: nat, freed: nat, maxEntries: nat)
    requires Inv(s, maxEntries) && i < |s.shared.callers| && s.shared.callers[i] == EvictAgain(wanted, left, freed)
    requires wanted <= U64_MAX && FreeAt(s.shared.slots, Rest(wanted, freed)) <= left
    ensures var n := FreeAt(s.shared.slots, Rest(wanted, freed));
            Returned(s, Alone(s, i, n + 1, maxEntries), i, n, s.shared.slots[n..])
    decreases |s.shared.slots|
  {
    var slots, rest := s.shared.slots, Rest(wanted, freed);
    if slots == [] || rest == 0 {
      EvictDone(s, i, wanted, left, freed, maxEntries);
    } else {
      var more := EvictedOne(s, i, wanted, left, freed, maxEntries);
      SoloEvictFrom(Proceed(s, i, maxEntries), i, wanted, left - 1, more, maxEntries);
      EvictTail(s, i, rest, Rest(wanted, more), maxEntries);
    }
  }

  lemma EvictTail(s: State, i: nat, rest: nat, more: nat, maxEntries: nat)
    requires i < |s.shared.callers| && s.shared.slots != [] && rest > 0
    requires more == if s.shared.slots[0].bytes <= rest then rest - s.shared.slots[0].bytes else 0
    requires var u, m := Proceed(s, i, maxEntries), FreeAt(s.shared.slots[1..], more);
             && Evicted(s, u, i)
             && Returned(u, Alone(u, i, m + 1, maxEntries), i, m, s.shared.slots[1..][m..])
    ensures var n := FreeAt(s.shared.slots, rest);
            Returned(s, Alone(s, i, n + 1, maxEntries), i, n, s.shared.slots[n..])
  {
    var m := FreeAt(s.shared.slots[1..], more);
    assert s.shared.slots[m + 1..] == s.shared.slots[1..][m..];
    AloneNext(s, i, m, s.shared.slots[m + 1..], maxEntries);
  }

  /** Undisturbed, `evict` drops the shortest oldest prefix of at least so many bytes, or everything. */
  lemma SoloEvict(s: State, i: nat, wanted: nat, maxEntries: nat)
    requires Inv(s, maxEntries) && i < |s.shared.callers| && s.shared.callers[i] == Evicting(wanted)
    requires wanted <= U64_MAX
    ensures var n := FreeAt(s.shared.slots, wanted);
            Returned(s, Alone(s, i, n + 2, maxEntries), i, n, s.shared.slots[n..])
  {
    var u, n := Proceed(s, i, maxEntries), FreeAt(s.shared.slots, wanted);
    SoloEvictFrom(u, i, wanted, |s.shared.slots|, 0, maxEntries);
    assert Alone(s, i, n + 2, maxEntries) == Alone(u, i, n + 1, maxEntries);
    assert u.shared.callers[i := Idle] == s.shared.callers[i := Idle];
  }
}

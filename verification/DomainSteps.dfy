/**
 One ownership domain used by any number of threads. Every section under a lock - the
 budget's, the pool's or the remap list's - and every change of hands between two of them is
 a step; an allocation between two sections is in one thread's hands.
 */
module DomainSteps {
  import opened Outcomes
  import opened Admission
  import opened Pool
  import opened Descriptors
  import opened Plans
  import opened Residency

  /** An allocation that one thread has taken out of one place and not yet put in another. */
  datatype Flight = Flight(thread: nat, allocation: Allocation)

  datatype Counters = Counters(reserved: nat, charged: nat, reservations: map<nat, nat>, charges: map<nat, nat>,
                               next: nat)

  datatype Domain = Domain(
    idle: seq<Allocation>,
    waiting: seq<Allocation>,
    held: map<nat, Holding>,
    flights: map<nat, Flight>,
    outside: set<nat>,
    memory: Counters)

  datatype Step =
    | Reserve(bytes: nat)
    | Unreserve(reservation: nat)
    | Create(thread: nat, reservation: nat, key: Spec)
    | Take(thread: nat, at: nat)                       // also the removal of the oldest, before it is destroyed
    | Hold(thread: nat, ticket: nat, owner: Owned)
    | LetGo(thread: nat, ticket: nat)
    | Unmap(ticket: nat)
    | Push(thread: nat, ticket: nat)
    | Await(thread: nat, ticket: nat)
    | Harvest(thread: nat, at: nat, mapped: bool)
    | Destroy(thread: nat, ticket: nat)
    | Others(later: Counters)

  predicate InHands(d: Domain, thread: nat, t: nat) {
    t in d.flights && d.flights[t].thread == thread
  }

  ghost predicate Enabled(d: Domain, step: Step, sizeOf: Sizing) {
    match step
    case Reserve(bytes) => d.memory.reserved + d.memory.charged + bytes <= U64_MAX
    case Unreserve(r) => r in d.memory.reservations
    case Create(_, r, key) =>
      && r in d.memory.reservations && Normalized(key) == key && sizeOf(key).Ok?
      && sizeOf(key).value <= d.memory.reservations[r]
    case Take(_, at) => at < |d.idle|
    case Hold(i, t, _) => InHands(d, i, t)
    case LetGo(_, t) => t in d.held
    case Unmap(t) => t in d.held
    case Push(i, t) =>
      InHands(d, i, t) && var a := d.flights[t].allocation; Reusable(a.key) && (StagingSpec(a.key) ==> a.payload.mapped)
    case Await(i, t) => InHands(d, i, t) && StagingSpec(d.flights[t].allocation.key)
    case Harvest(_, at, _) => at < |d.waiting|
    case Destroy(i, t) => InHands(d, i, t)
    case Others(later) =>
      && Counted(later)
      && (forall t :: t in d.memory.charges && t !in d.outside ==>
            t in later.charges && later.charges[t] == d.memory.charges[t])
  }

  function WithMapped(a: Allocation, mapped: bool): Allocation {
    a.(payload := Native(a.payload.ticket, mapped))
  }

  ghost function Do(d: Domain, step: Step, sizeOf: Sizing): Domain
    requires Enabled(d, step, sizeOf)
  {
    var m := d.memory;
    match step
    case Reserve(bytes) =>
      d.(memory := m.(reserved := m.reserved + bytes,
                      reservations := m.reservations[m.next := bytes], next := m.next + 1))
    case Unreserve(r) =>
      var left := m.reservations[r];
      d.(memory := m.(reserved := if left <= m.reserved then m.reserved - left else 0,
                      reservations := m.reservations - {r}))
    case Create(i, r, key) => Created(d, i, r, key, sizeOf(key).value)
    case Take(i, at) =>
      var a := d.idle[at];
      d.(idle := d.idle[..at] + d.idle[at + 1..], flights := d.flights[a.payload.ticket := Flight(i, a)])
    case Hold(_, t, owner) =>
      d.(flights := d.flights - {t},
         held := d.held[t := Holding(owner, d.flights[t].allocation)])
    case LetGo(i, t) => d.(held := d.held - {t}, flights := d.flights[t := Flight(i, d.held[t].allocation)])
    case Unmap(t) => d.(held := d.held[t := Holding(d.held[t].owner, WithMapped(d.held[t].allocation, false))])
    case Push(_, t) => d.(flights := d.flights - {t}, idle := d.idle + [d.flights[t].allocation])
    case Await(_, t) => d.(flights := d.flights - {t}, waiting := d.waiting + [d.flights[t].allocation])
    case Harvest(i, at, mapped) =>
      var a := d.waiting[at];
      d.(waiting := SwapRemove(d.waiting, at),
         flights := d.flights[a.payload.ticket := Flight(i, WithMapped(a, mapped))])
    case Destroy(_, t) =>
      var bytes := d.flights[t].allocation.bytes;
      d.(flights := d.flights - {t},
         memory := m.(charged := if bytes <= m.charged then m.charged - bytes else 0, charges := m.charges - {t}))
    case Others(later) =>
      d.(outside := later.charges.Keys - (m.charges.Keys - d.outside), memory := later)
  }

  /** A created native resource is charged from its reservation, and in its creator's hands. */
  ghost function Created(d: Domain, thread: nat, r: nat, key: Spec, bytes: nat): Domain
    requires r in d.memory.reservations && bytes <= d.memory.reservations[r]
  {
    var m := d.memory;
    var a := Resource(key, bytes, Native(m.next, StagingSpec(key)));
    d.(flights := d.flights[m.next := Flight(thread, a)],
       memory := Counters(if bytes <= m.reserved then m.reserved - bytes else 0, m.charged + bytes,
                          m.reservations[r := m.reservations[r] - bytes], m.charges[m.next := bytes], m.next + 1))
  }

  // ---------- the invariant between any two sections ----------

  ghost function PlacesOf(d: Domain): Places {
    Places(d.idle, d.waiting, d.held, d.outside, d.flights.Keys)
  }

  /** What a thread holds between two sections is charged like everything else. */
  ghost predicate Flying(flights: map<nat, Flight>, charges: map<nat, nat>, sizeOf: Sizing) {
    forall t :: t in flights ==>
                  && flights[t].allocation.payload.ticket == t && t in charges
                  && charges[t] == flights[t].allocation.bytes
                  && AsSpecified(flights[t].allocation, sizeOf)
  }

  /** Both counters are the sums, and what is reserved and charged together fits the counters' width. */
  ghost predicate Counted(m: Counters) {
    && Accounts(m.reserved, m.charged, m.reservations, m.charges, m.next)
    && m.reserved + m.charged <= U64_MAX
  }

  /**
   Every charge is idle, waiting, held, in one thread's hands or not ours, in exactly one of
   these places; and the counters are the sums.
   */
  ghost predicate Inv(d: Domain, sizeOf: Sizing) {
    && Accounted(PlacesOf(d), d.memory.charges) && Fit(PlacesOf(d), sizeOf)
    && Flying(d.flights, d.memory.charges, sizeOf) && Counted(d.memory)
  }

  lemma CreateKeeps(d: Domain, step: Step, sizeOf: Sizing)
    requires Inv(d, sizeOf) && step.Create? && Enabled(d, step, sizeOf)
    ensures Inv(Do(d, step, sizeOf), sizeOf)
  {
    var m, bytes := d.memory, sizeOf(step.key).value;
    var e := Do(d, step, sizeOf);
    ChargeMoves(m.reserved, m.charged, m.reservations, m.charges, m.next, step.reservation, bytes);
    Born(PlacesOf(d), m.charges, m.next, bytes);
    assert PlacesOf(e) == PlacesOf(d).(hand := PlacesOf(d).hand + {m.next});
  }

  lemma ReserveKeeps(d: Domain, step: Step, sizeOf: Sizing)
    requires Inv(d, sizeOf) && (step.Reserve? || step.Unreserve?) && Enabled(d, step, sizeOf)
    ensures Inv(Do(d, step, sizeOf), sizeOf)
  {
    if step.Reserve? {
      TotalWith(d.memory.reservations, d.memory.next, step.bytes);
    } else {
      TotalWithout(d.memory.reservations, step.reservation);
    }
    assert PlacesOf(Do(d, step, sizeOf)) == PlacesOf(d);
  }

  lemma TakeKeeps(d: Domain, step: Step, sizeOf: Sizing)
    requires Inv(d, sizeOf) && step.Take? && Enabled(d, step, sizeOf)
    ensures Inv(Do(d, step, sizeOf), sizeOf)
  {
    var e, t := Do(d, step, sizeOf), d.idle[step.at].payload.ticket;
    Taken(PlacesOf(d), d.memory.charges, step.at);
    TakenFits(PlacesOf(d), PlacesOf(e), step.at, sizeOf);
    assert PlacesOf(e) == PlacesOf(d).(idle := e.idle, hand := PlacesOf(d).hand + {t});
  }

  lemma HoldKeeps(d: Domain, step: Step, sizeOf: Sizing)
    requires Inv(d, sizeOf) && step.Hold? && Enabled(d, step, sizeOf)
    ensures Inv(Do(d, step, sizeOf), sizeOf)
  {
    var e, t := Do(d, step, sizeOf), step.ticket;
    Handed(PlacesOf(d), d.memory.charges, Holding(step.owner, d.flights[t].allocation), sizeOf);
    assert PlacesOf(e) == PlacesOf(d).(held := e.held, hand := PlacesOf(d).hand - {t});
  }

  lemma LetGoKeeps(d: Domain, step: Step, sizeOf: Sizing)
    requires Inv(d, sizeOf) && step.LetGo? && Enabled(d, step, sizeOf)
    ensures Inv(Do(d, step, sizeOf), sizeOf)
  {
    var e, t := Do(d, step, sizeOf), step.ticket;
    Residency.LetGo(PlacesOf(d), d.memory.charges, t, sizeOf);
    assert PlacesOf(e) == PlacesOf(d).(held := e.held, hand := PlacesOf(d).hand + {t});
  }

  lemma UnmapKeeps(d: Domain, step: Step, sizeOf: Sizing)
    requires Inv(d, sizeOf) && step.Unmap? && Enabled(d, step, sizeOf)
    ensures Inv(Do(d, step, sizeOf), sizeOf)
  {
    var e, h := Do(d, step, sizeOf), d.held[step.ticket];
    assert h in d.held.Values;
    Rewritten(PlacesOf(d), d.memory.charges, Holding(h.owner, WithMapped(h.allocation, false)), sizeOf);
    assert PlacesOf(e) == PlacesOf(d).(held := e.held);
  }

  lemma PushKeeps(d: Domain, step: Step, sizeOf: Sizing)
    requires Inv(d, sizeOf) && step.Push? && Enabled(d, step, sizeOf)
    ensures Inv(Do(d, step, sizeOf), sizeOf)
  {
    var e, t := Do(d, step, sizeOf), step.ticket;
    Returned(PlacesOf(d), d.memory.charges, d.flights[t].allocation, 0, sizeOf);
    assert d.idle[0..] == d.idle && Tickets(d.idle[..0]) == {} && d.memory.charges - {} == d.memory.charges;
    assert PlacesOf(e) == PlacesOf(d).(idle := e.idle, hand := PlacesOf(d).hand - {t});
  }

  lemma AwaitKeeps(d: Domain, step: Step, sizeOf: Sizing)
    requires Inv(d, sizeOf) && step.Await? && Enabled(d, step, sizeOf)
    ensures Inv(Do(d, step, sizeOf), sizeOf)
  {
    var e, t := Do(d, step, sizeOf), step.ticket;
    Awaited(PlacesOf(d), d.memory.charges, d.flights[t].allocation);
    assert PlacesOf(e) == PlacesOf(d).(waiting := e.waiting, hand := PlacesOf(d).hand - {t});
  }

  lemma HarvestKeeps(d: Domain, step: Step, sizeOf: Sizing)
    requires Inv(d, sizeOf) && step.Harvest? && Enabled(d, step, sizeOf)
    ensures Inv(Do(d, step, sizeOf), sizeOf)
  {
    var e, t := Do(d, step, sizeOf), d.waiting[step.at].payload.ticket;
    Harvested(PlacesOf(d), d.memory.charges, step.at, sizeOf);
    assert PlacesOf(e) == PlacesOf(d).(waiting := e.waiting, hand := PlacesOf(d).hand + {t});
  }

  lemma DestroyKeeps(d: Domain, step: Step, sizeOf: Sizing)
    requires Inv(d, sizeOf) && step.Destroy? && Enabled(d, step, sizeOf)
    ensures Inv(Do(d, step, sizeOf), sizeOf)
  {
    var e, t := Do(d, step, sizeOf), step.ticket;
    TotalWithout(d.memory.charges, t);
    Discarded(PlacesOf(d), d.memory.charges, t);
    assert PlacesOf(e) == PlacesOf(d).(hand := PlacesOf(d).hand - {t});
  }

  lemma OthersKeep(d: Domain, step: Step, sizeOf: Sizing)
    requires Inv(d, sizeOf) && step.Others? && Enabled(d, step, sizeOf)
    ensures Inv(Do(d, step, sizeOf), sizeOf)
  {
    var e := Do(d, step, sizeOf);
    OthersMove(PlacesOf(d), d.memory.charges, step.later.charges);
    assert PlacesOf(e) == PlacesOf(d).(outside := e.outside);
  }

  /** Whatever any thread does next, no allocation is lost, duplicated or charged twice. */
  lemma StepKeeps(d: Domain, step: Step, sizeOf: Sizing)
    requires Inv(d, sizeOf) && Enabled(d, step, sizeOf)
    ensures Inv(Do(d, step, sizeOf), sizeOf)
  {
    match step
    case Reserve(_) => ReserveKeeps(d, step, sizeOf);
    case Unreserve(_) => ReserveKeeps(d, step, sizeOf);
    case Create(_, _, _) => CreateKeeps(d, step, sizeOf);
    case Take(_, _) => TakeKeeps(d, step, sizeOf);
    case Hold(_, _, _) => HoldKeeps(d, step, sizeOf);
    case LetGo(_, _) => LetGoKeeps(d, step, sizeOf);
    case Unmap(_) => UnmapKeeps(d, step, sizeOf);
    case Push(_, _) => PushKeeps(d, step, sizeOf);
    case Await(_, _) => AwaitKeeps(d, step, sizeOf);
    case Harvest(_, _, _) => HarvestKeeps(d, step, sizeOf);
    case Destroy(_, _) => DestroyKeeps(d, step, sizeOf);
    case Others(_) => OthersKeep(d, step, sizeOf);
  }

  // ---------- runs ----------

  ghost predicate IsRun(states: seq<Domain>, steps: seq<Step>, sizeOf: Sizing) {
    && |states| == |steps| + 1
    && forall n {:trigger steps[n]} :: 0 <= n < |steps| ==>
         Enabled(states[n], steps[n], sizeOf) && states[n + 1] == Do(states[n], steps[n], sizeOf)
  }

  /** Nothing of this domain exists yet; other domains may already have charged the budget. */
  ghost predicate Initial(d: Domain) {
    && d.idle == [] && d.waiting == [] && d.held == map[] && d.flights == map[]
    && d.outside == d.memory.charges.Keys && Counted(d.memory)
  }

  lemma {:induction false} RunKeeps(states: seq<Domain>, steps: seq<Step>, sizeOf: Sizing, n: nat)
    requires IsRun(states, steps, sizeOf) && Initial(states[0]) && n < |states|
    ensures Inv(states[n], sizeOf)
  {
    if n == 0 {
      assert Tickets(states[0].idle) == {} && Tickets(states[0].waiting) == {};
    } else {
      RunKeeps(states, steps, sizeOf, n - 1);
      assert steps[n - 1] == steps[n - 1];
      StepKeeps(states[n - 1], steps[n - 1], sizeOf);
    }
  }

  function FlightBytes(flights: map<nat, Flight>): map<nat, nat> {
    map t | t in flights :: flights[t].allocation.bytes
  }

  /**
   Between any two sections of any threads, the allocated bytes are exactly what is idle,
   waiting to be mapped, held by owners, in some thread's hands, or not this domain's.
   */
  lemma ConservedThroughout(states: seq<Domain>, steps: seq<Step>, sizeOf: Sizing, n: nat)
    requires IsRun(states, steps, sizeOf) && Initial(states[0]) && n < |states|
    ensures var d := states[n];
            d.memory.charged == Bytes(d.idle) + Bytes(d.waiting) + Total(HeldBytes(d.held))
                                  + Total(FlightBytes(d.flights)) + Total(Part(d.memory.charges, d.outside))
  {
    RunKeeps(states, steps, sizeOf, n);
    WorthInFlight(states[n], sizeOf);
  }

  /** As sums go, what is in hand is like what is outside. */
  lemma Grounded(p: Places, charges: map<nat, nat>)
    requires Accounted(p, charges)
    ensures Accounted(p.(outside := p.outside + p.hand, hand := {}), charges)
  {
  }

  lemma FlyingPart(d: Domain, sizeOf: Sizing)
    requires Flying(d.flights, d.memory.charges, sizeOf) && d.flights.Keys !! d.outside
    ensures FlightBytes(d.flights).Keys !! Part(d.memory.charges, d.outside).Keys
    ensures Part(d.memory.charges, d.outside + d.flights.Keys)
              == FlightBytes(d.flights) + Part(d.memory.charges, d.outside)
  {
  }

  lemma WorthInFlight(d: Domain, sizeOf: Sizing)
    requires Inv(d, sizeOf)
    ensures Total(d.memory.charges) == Bytes(d.idle) + Bytes(d.waiting) + Total(HeldBytes(d.held))
                                       + Total(FlightBytes(d.flights)) + Total(Part(d.memory.charges, d.outside))
  {
    var p, charges := PlacesOf(d), d.memory.charges;
    Grounded(p, charges);
    Worth(p.(outside := p.outside + p.hand, hand := {}), charges);
    FlyingPart(d, sizeOf);
    TotalUnion(FlightBytes(d.flights), Part(charges, d.outside));
  }

  /** No two takers ever share an allocation: a ticket is in one place, and in flight with one thread. */
  lemma NeverShared(states: seq<Domain>, steps: seq<Step>, sizeOf: Sizing, n: nat, t: nat)
    requires IsRun(states, steps, sizeOf) && Initial(states[0]) && n < |states|
    ensures var d := states[n];
            && (t in d.flights ==> t !in d.held && t !in Tickets(d.idle) && t !in Tickets(d.waiting))
            && (t in d.held ==> t !in Tickets(d.idle) && t !in Tickets(d.waiting))
            && (forall i, j :: 0 <= i < j < |d.idle| ==> d.idle[i].payload.ticket != d.idle[j].payload.ticket)
  {
    RunKeeps(states, steps, sizeOf, n);
  }
  /** No section's addition overflows the counters, and no section's saturating subtraction is clamped. */
  lemma NeverWraps(states: seq<Domain>, steps: seq<Step>, sizeOf: Sizing, n: nat)
    requires IsRun(states, steps, sizeOf) && Initial(states[0]) && n < |steps|
    ensures var m, m' := states[n].memory, states[n + 1].memory;
            && m.reserved + m.charged <= U64_MAX && m'.reserved + m'.charged <= U64_MAX
            && match steps[n]
               case Unreserve(r) => m'.reserved + m.reservations[r] == m.reserved && m'.charged == m.charged
               case Create(_, _, key) =>
                 m'.reserved + sizeOf(key).value == m.reserved && m'.charged == m.charged + sizeOf(key).value
               case Destroy(_, t) =>
                 m'.charged + states[n].flights[t].allocation.bytes == m.charged && m'.reserved == m.reserved
               case _ => true
  {
    var d, step := states[n], steps[n];
    RunKeeps(states, steps, sizeOf, n);
    RunKeeps(states, steps, sizeOf, n + 1);
    match step
    case Unreserve(r) => TotalWithout(d.memory.reservations, r);
    case Create(_, r, _) => TotalWithout(d.memory.reservations, r);
    case Destroy(_, t) => TotalWithout(d.memory.charges, t);
    case _ =>
  }
}

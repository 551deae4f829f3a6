/**
 Plans of descriptors over idle allocations: what a plan takes from the pool, what it still has
 to allocate, when it is refused, and how its matches go back.
 */
module Plans {
  import opened Outcomes
  import opened Admission
  import opened Pool
  import opened Descriptors

  /** Byte counts that fit 64 bits, are never zero, and ignore a redundant view format. */
  ghost predicate Lawful(f: Spec -> Result<nat, ResourceError>) {
    && (forall s {:trigger Normalized(s)} :: f(Normalized(s)) == f(s))
    && (forall s :: if f(s).Ok? then 1 <= f(s).value <= U64_MAX else !f(s).error.Admission?)
    && (forall b :: f(BufferOf(b)).Ok? ==> f(BufferOf(b)).value == b.size)
  }

  type Sizing = f: Spec -> Result<nat, ResourceError> | Lawful(f)
    witness s => Err(Slot)

  lemma SizingOf(limits: Limits)
    ensures Lawful(s => SpecBytes(s, limits))
  {
    forall s: Spec
      ensures SpecBytes(Normalized(s), limits) == SpecBytes(s, limits)
      ensures var bytes := SpecBytes(s, limits);
              if bytes.Ok? then 1 <= bytes.value <= U64_MAX else !bytes.error.Admission?
    {
      NormalizedBytes(s, limits);
      if SpecBytes(s, limits).Ok? {
        SpecBytesPositive(s, limits);
      }
    }
  }

  /** A native resource with its charge ticket; staging buffers are mapped or not. */
  datatype Native = Native(ticket: nat, mapped: bool)

  type Allocation = Resource<Spec, Native>

  /** An allocation is exactly what its normalized descriptor asked for. */
  ghost predicate AsSpecified(a: Allocation, sizeOf: Sizing) {
    a.key == Normalized(a.key) && sizeOf(a.key) == Ok(a.bytes)
  }

  /** What an idle allocation promises its next owner. */
  ghost predicate ReadyForReuse(a: Allocation, sizeOf: Sizing) {
    AsSpecified(a, sizeOf) && Reusable(a.key) && (StagingSpec(a.key) ==> a.payload.mapped)
  }

  datatype Fate = Destroyed | Remapped | Pooled

  /** Only a healthy, reusable allocation that could be retained goes back, staging buffers by way of mapping. */
  function FateOf(a: Allocation, healthy: bool, budget: nat, lost: bool): Fate {
    if !healthy || !Reusable(a.key) || a.bytes > budget || budget == 0 || lost then Destroyed
    else if StagingSpec(a.key) && !a.payload.mapped then Remapped
    else Pooled
  }

  /** Where an allocation nobody holds ends, told by its usage, its size and what the domain knows. */
  lemma FateMeans(a: Allocation, healthy: bool, budget: nat, lost: bool)
    ensures var kept := && healthy && !lost && 0 < budget && a.bytes <= budget
                        && !(a.key.BufferOf? && MapRead in a.key.buffer.usage);
            var unmapped := a.key.BufferOf? && a.key.buffer.usage == {MapWrite, CopySrc} && !a.payload.mapped;
            FateOf(a, healthy, budget, lost) == if !kept then Destroyed else if unmapped then Remapped else Pooled
  {
  }

  function Size(spec: Spec, sizeOf: Sizing): nat {
    var bytes := sizeOf(spec);
    if bytes.Ok? then bytes.value else 0
  }

  /** A slot holds exactly what its descriptor asked for, a staging buffer mapped. */
  predicate Fills(note: Option<Allocation>, spec: Spec, sizeOf: Sizing) {
    && note.Some? && note.value.key == Normalized(spec) && sizeOf(spec) == Ok(note.value.bytes)
    && (StagingSpec(note.value.key) ==> note.value.payload.mapped)
  }

  predicate AllFill(found: seq<Option<Allocation>>, specs: seq<Spec>, sizeOf: Sizing)
    requires |found| <= |specs|
  {
    forall i :: 0 <= i < |found| ==> found[i].Some? ==> Fills(found[i], specs[i], sizeOf)
  }

  // ---------- charges ----------

  ghost function Tickets(slots: seq<Allocation>): set<nat> {
    set i | 0 <= i < |slots| :: slots[i].payload.ticket
  }

  ghost predicate DistinctTickets(slots: seq<Allocation>) {
    forall i, j :: 0 <= i < j < |slots| ==> slots[i].payload.ticket != slots[j].payload.ticket
  }

  /** Every allocation is charged with exactly its own bytes. */
  ghost predicate ChargedFor(slots: seq<Allocation>, charges: map<nat, nat>) {
    forall i :: 0 <= i < |slots| ==>
        slots[i].payload.ticket in charges && charges[slots[i].payload.ticket] == slots[i].bytes
  }

  lemma TicketsSplit(slots: seq<Allocation>, n: nat)
    requires n <= |slots|
    ensures Tickets(slots) == Tickets(slots[..n]) + Tickets(slots[n..])
    ensures DistinctTickets(slots) ==> Tickets(slots[..n]) !! Tickets(slots[n..])
  {
    forall t | t in Tickets(slots) ensures t in Tickets(slots[..n]) + Tickets(slots[n..]) {
      var i :| 0 <= i < |slots| && slots[i].payload.ticket == t;
      if i >= n {
        assert slots[n..][i - n] == slots[i];
      } else {
        assert slots[..n][i] == slots[i];
      }
    }
    forall t | t in Tickets(slots[n..]) ensures t in Tickets(slots) {
      var i :| 0 <= i < |slots[n..]| && slots[n..][i].payload.ticket == t;
      assert slots[n + i].payload.ticket == t;
    }
  }

  lemma TicketsPush(slots: seq<Allocation>, a: Allocation)
    ensures Tickets(slots + [a]) == Tickets(slots) + {a.payload.ticket}
    ensures DistinctTickets(slots) && a.payload.ticket !in Tickets(slots) ==> DistinctTickets(slots + [a])
  {
    TicketsSplit(slots + [a], |slots|);
    assert (slots + [a])[..|slots|] == slots && (slots + [a])[|slots|..] == [a];
    assert Tickets([a]) == {a.payload.ticket} by {
      assert [a][0].payload.ticket in Tickets([a]);
    }
  }

  lemma NextTicket(gone: seq<Allocation>, i: nat)
    requires i < |gone| && DistinctTickets(gone)
    ensures Tickets(gone[i..]) - {gone[i].payload.ticket} == Tickets(gone[i + 1..])
    ensures gone[i].payload.ticket in Tickets(gone[i..])
    ensures Tickets(gone[..i + 1]) == Tickets(gone[..i]) + {gone[i].payload.ticket}
    ensures Bytes(gone[i..]) == gone[i].bytes + Bytes(gone[i + 1..])
  {
    assert gone[i..] == [gone[i]] + gone[i + 1..] && gone[i..][1..] == gone[i + 1..];
    assert gone[..i + 1] == gone[..i] + [gone[i]];
    TicketsPush(gone[..i], gone[i]);
    TicketsSplit(gone[i..], 1);
    assert gone[i..][..1] == [gone[i]];
    assert [gone[i]][0].payload.ticket in Tickets([gone[i]]);
    assert DistinctTickets(gone[i..]);
  }

  /** Keeping one allocation and dropping the n oldest moves tickets, and nothing else. */
  lemma PushKeepsTickets(before: seq<Allocation>, a: Allocation, n: nat)
    requires DistinctTickets(before) && a.payload.ticket !in Tickets(before) && n <= |before|
    ensures DistinctTickets(before[n..] + [a]) && DistinctTickets(before[..n])
    ensures Tickets(before[n..] + [a]) !! Tickets(before[..n])
    ensures Tickets(before[n..] + [a]) + Tickets(before[..n]) == Tickets(before) + {a.payload.ticket}
  {
    TicketsSplit(before, n);
    TicketsPush(before[n..], a);
  }

  lemma WithoutTicket(slots: seq<Allocation>, at: nat)
    requires at < |slots| && DistinctTickets(slots)
    ensures var fewer := slots[..at] + slots[at + 1..];
            && DistinctTickets(fewer) && slots[at].payload.ticket !in Tickets(fewer)
            && Tickets(slots) == Tickets(fewer) + {slots[at].payload.ticket}
  {
    var fewer := slots[..at] + slots[at + 1..];
    TicketsSplit(slots, at);
    TicketsSplit(fewer, at);
    assert fewer[..at] == slots[..at] && fewer[at..] == slots[at + 1..];
    NextTicket(slots, at);
  }

  /** The charges of these allocations are worth exactly their bytes. */
  lemma {:induction false} TotalOfSlots(slots: seq<Allocation>, charges: map<nat, nat>)
    requires DistinctTickets(slots) && ChargedFor(slots, charges)
    ensures Total(charges) == Bytes(slots) + Total(charges - Tickets(slots))
  {
    if slots == [] {
      assert charges - Tickets(slots) == charges;
    } else {
      var t := slots[0].payload.ticket;
      TotalWithout(charges, t);
      NextTicket(slots, 0);
      assert slots[0..] == slots;
      TotalOfSlots(slots[1..], charges - {t});
      assert charges - {t} - Tickets(slots[1..]) == charges - Tickets(slots);
    }
  }

  // ---------- checking out matches ----------

  datatype CheckedOut = CheckedOut(rest: seq<Allocation>, found: seq<Option<Allocation>>)

  /** Where the pool keeps the latest idle match of a descriptor; a read-back buffer has none. */
  function MatchAt(slots: seq<Allocation>, spec: Spec): (at: Option<nat>)
    ensures at.Some? ==> at.value < |slots|
  {
    if Reusable(Normalized(spec)) then LatestAt(slots, Normalized(spec)) else None
  }

  /** The idle matches of the first n descriptors, in plan order, and what stays idle. */
  function CheckOut(slots: seq<Allocation>, specs: seq<Spec>, n: nat): (c: CheckedOut)
    requires n <= |specs|
    ensures |c.found| == n
  {
    if n == 0 then CheckedOut(slots, [])
    else CheckOne(CheckOut(slots, specs, n - 1), specs[n - 1])
  }

  function CheckOne(c: CheckedOut, spec: Spec): (d: CheckedOut)
    ensures |d.found| == |c.found| + 1
  {
    match MatchAt(c.rest, spec)
    case None => CheckedOut(c.rest, c.found + [None])
    case Some(at) => CheckedOut(c.rest[..at] + c.rest[at + 1..], c.found + [Some(c.rest[at])])
  }

  function Listed(note: Option<Allocation>): seq<Allocation> {
    if note.Some? then [note.value] else []
  }

  function Present(found: seq<Option<Allocation>>): seq<Allocation> {
    if found == [] then [] else Present(found[..|found| - 1]) + Listed(found[|found| - 1])
  }

  lemma PresentPush(found: seq<Option<Allocation>>, last: Option<Allocation>)
    ensures Present(found + [last]) == if last.Some? then Present(found) + [last.value] else Present(found)
  {
    assert (found + [last])[..|found|] == found;
  }

  lemma {:induction false} PresentWithin(found: seq<Option<Allocation>>, m: nat)
    requires m <= |found|
    ensures Bytes(Present(found[..m])) <= Bytes(Present(found)) && |Present(found[..m])| <= |Present(found)|
  {
    if m < |found| {
      var shorter := found[..|found| - 1];
      PresentWithin(shorter, m);
      assert shorter[..m] == found[..m] && found == shorter + [found[|found| - 1]];
      PresentPush(shorter, found[|found| - 1]);
      if found[|found| - 1].Some? {
        BytesPush(Present(shorter), found[|found| - 1].value);
      }
    } else {
      assert found[..m] == found;
    }
  }

  /** Noting one more slot. */
  lemma PresentNext(found: seq<Option<Allocation>>, i: nat, front: seq<Allocation>)
    requires i < |found|
    ensures front + Present(found[..i + 1]) == front + Present(found[..i]) + Listed(found[i])
    ensures found[i].None? ==> Present(found[..i + 1]) == Present(found[..i])
    ensures found[i].Some? ==>
              Tickets(Present(found[..i + 1])) == Tickets(Present(found[..i])) + {found[i].value.payload.ticket}
  {
    assert found[..i + 1] == found[..i] + [found[i]];
    PresentPush(found[..i], found[i]);
    if found[i].Some? {
      TicketsPush(Present(found[..i]), found[i].value);
    }
  }

  ghost function Noted(found: seq<Option<Allocation>>): set<nat> {
    set i | 0 <= i < |found| && found[i].Some? :: found[i].value.payload.ticket
  }

  lemma {:induction false} PresentTickets(found: seq<Option<Allocation>>)
    ensures Tickets(Present(found)) == Noted(found)
  {
    if found == [] {
    } else {
      var n := |found| - 1;
      PresentTickets(found[..n]);
      PresentNext(found, n, []);
      assert found[..n + 1] == found;
      NotedPush(found[..n], found[n]);
      assert found == found[..n] + [found[n]];
    }
  }

  lemma NotedPush(found: seq<Option<Allocation>>, last: Option<Allocation>)
    ensures Noted(found + [last]) == Noted(found) + if last.Some? then {last.value.payload.ticket} else {}
  {
    var all := found + [last];
    forall t | t in Noted(found) ensures t in Noted(all) {
      var i :| 0 <= i < |found| && found[i].Some? && found[i].value.payload.ticket == t;
      assert all[i] == found[i];
    }
    assert all[|found|] == last;
  }

  lemma PresentSet(found: seq<Option<Allocation>>, i: nat, note: Option<Allocation>)
    requires i < |found| && found[i].None? && note.Some?
    ensures Tickets(Present(found[i := note])) == Tickets(Present(found)) + {note.value.payload.ticket}
  {
    var all := found[i := note];
    PresentTickets(found);
    PresentTickets(all);
    forall t | t in Noted(found) ensures t in Noted(all) {
      var j :| 0 <= j < |found| && found[j].Some? && found[j].value.payload.ticket == t;
      assert all[j] == found[j];
    }
    assert all[i] == note;
  }

  function All(c: CheckedOut): multiset<Allocation> {
    multiset(c.rest) + multiset(Present(c.found))
  }

  lemma WithoutOne(slots: seq<Allocation>, at: nat)
    requires at < |slots|
    ensures multiset(slots) == multiset(slots[..at] + slots[at + 1..]) + multiset{slots[at]}
  {
    assert slots == slots[..at] + [slots[at]] + slots[at + 1..];
  }

  lemma MoveOne(c: CheckedOut, spec: Spec)
    ensures var d := CheckOne(c, spec);
            && All(d) == All(c)
            && Bytes(d.rest) + Bytes(Present(d.found)) == Bytes(c.rest) + Bytes(Present(c.found))
            && |d.rest| + |Present(d.found)| == |c.rest| + |Present(c.found)|
  {
    match MatchAt(c.rest, spec)
    case None => PresentPush(c.found, None);
    case Some(at) =>
      var a := c.rest[at];
      PresentPush(c.found, Some(a));
      WithoutOne(c.rest, at);
      BytesWithout(c.rest, at);
      BytesPush(Present(c.found), a);
  }

  /** Checking out neither loses nor duplicates an allocation. */
  lemma {:induction false} CheckOutMoves(slots: seq<Allocation>, specs: seq<Spec>, n: nat)
    requires n <= |specs|
    ensures var c := CheckOut(slots, specs, n);
            && All(c) == multiset(slots)
            && Bytes(c.rest) + Bytes(Present(c.found)) == Bytes(slots)
            && |c.rest| + |Present(c.found)| == |slots|
  {
    if n == 0 {
    } else {
      CheckOutMoves(slots, specs, n - 1);
      MoveOne(CheckOut(slots, specs, n - 1), specs[n - 1]);
    }
  }

  // ---------- what a plan misses ----------

  /** Bytes that the first |found| descriptors of the plan still have to allocate. */
  function Missing(found: seq<Option<Allocation>>, specs: seq<Spec>, sizeOf: Sizing): nat
    requires |found| <= |specs|
  {
    if found == [] then 0
    else
      var n := |found| - 1;
      Missing(found[..n], specs, sizeOf) + (if found[n].None? then Size(specs[n], sizeOf) else 0)
  }

  lemma MissingNext(found: seq<Option<Allocation>>, specs: seq<Spec>, sizeOf: Sizing, i: nat)
    requires i < |found| <= |specs|
    ensures Missing(found[..i + 1], specs, sizeOf)
            == Missing(found[..i], specs, sizeOf) + if found[i].None? then Size(specs[i], sizeOf) else 0
    ensures Missing(found[..i + 1], specs, sizeOf) <= Missing(found, specs, sizeOf)
  {
    assert found[..i + 1][..i] == found[..i];
    MissingWithin(found, specs, sizeOf, i + 1);
  }

  lemma {:induction false} MissingWithin(found: seq<Option<Allocation>>, specs: seq<Spec>, sizeOf: Sizing, m: nat)
    requires m <= |found| <= |specs|
    ensures Missing(found[..m], specs, sizeOf) <= Missing(found, specs, sizeOf)
    decreases |found|
  {
    if m < |found| {
      MissingWithin(found[..|found| - 1], specs, sizeOf, m);
      assert found[..|found| - 1][..m] == found[..m];
    } else {
      assert found[..m] == found;
    }
  }

  /** One more descriptor adds its own miss, if it is one. */
  lemma MissingPush(found: seq<Option<Allocation>>, last: Option<Allocation>, specs: seq<Spec>, sizeOf: Sizing)
    requires |found| < |specs|
    ensures Missing(found + [last], specs, sizeOf)
            == Missing(found, specs, sizeOf) + if last.None? then Size(specs[|found|], sizeOf) else 0
  {
    assert (found + [last])[..|found|] == found;
  }

  lemma CheckOneMisses(c: CheckedOut, specs: seq<Spec>, sizeOf: Sizing)
    requires |c.found| < |specs|
    ensures Missing(c.found, specs, sizeOf) <= Missing(CheckOne(c, specs[|c.found|]).found, specs, sizeOf)
  {
    match MatchAt(c.rest, specs[|c.found|])
    case None => MissingPush(c.found, None, specs, sizeOf);
    case Some(at) => MissingPush(c.found, Some(c.rest[at]), specs, sizeOf);
  }

  /** What the first n descriptors miss. */
  function MissingAt(slots: seq<Allocation>, specs: seq<Spec>, sizeOf: Sizing, n: nat): nat
    requires n <= |specs|
  {
    Missing(CheckOut(slots, specs, n).found, specs, sizeOf)
  }

  lemma MissingStep(slots: seq<Allocation>, specs: seq<Spec>, sizeOf: Sizing, n: nat)
    requires n < |specs|
    ensures MissingAt(slots, specs, sizeOf, n) <= MissingAt(slots, specs, sizeOf, n + 1)
  {
    var c := CheckOut(slots, specs, n);
    assert CheckOut(slots, specs, n + 1) == CheckOne(c, specs[n]);
    CheckOneMisses(c, specs, sizeOf);
  }

  /** Later descriptors can only miss more. */
  lemma {:induction false} MissingGrows(slots: seq<Allocation>, specs: seq<Spec>, sizeOf: Sizing, m: nat, n: nat)
    requires m <= n <= |specs|
    ensures MissingAt(slots, specs, sizeOf, m) <= MissingAt(slots, specs, sizeOf, n)
    decreases n
  {
    if m == n {
    } else {
      MissingGrows(slots, specs, sizeOf, m, n - 1);
      MissingStep(slots, specs, sizeOf, n - 1);
    }
  }

  // ---------- admission under pressure ----------

  /** Bytes that idle allocations must give back before the reservation fits. */
  function Pressure(missing: nat, used: nat, limit: Option<nat>): nat {
    if missing > 0 && used + missing <= U64_MAX && limit.Some? && used + missing > limit.value
    then used + missing - limit.value
    else 0
  }

  /** Why a reservation is refused although every idle allocation may be evicted for it. */
  function Refusal(missing: nat, used: nat, limit: Option<nat>, idle: nat): Option<AdmissionError> {
    if used + missing > U64_MAX then Some(AdmissionError.Overflow)
    else if missing == 0 then None
    else if limit.None? then Some(Unconfigured)
    else if used + missing > limit.value + idle
    then Some(Capacity(missing, if used < idle then 0 else used - idle, limit.value))
    else None
  }

  /** Freeing what the pressure asks for, or all there is, settles the question. */
  lemma Relieved(missing: nat, used: nat, limit: Option<nat>, freed: nat, idle: nat)
    requires freed <= used && freed <= idle
    requires Pressure(missing, used, limit) <= freed || freed == idle
    requires Pressure(missing, used, limit) == 0 ==> freed == 0
    ensures Refusal(missing, used - freed, limit, 0) == Refusal(missing, used, limit, idle)
    ensures Pressure(missing, used, limit) > 0 ==>
              (Refusal(missing, used, limit, idle).Some? <==> freed < Pressure(missing, used, limit))
  {
  }

  /** The shortest prefix of so many bytes holds them, or is everything. */
  lemma FreedBytes(idle: seq<Allocation>, wanted: nat)
    ensures var n := FreeAt(idle, wanted);
            && (wanted <= Bytes(idle[..n]) || n == |idle|) && Bytes(idle[..n]) <= Bytes(idle)
            && (n == |idle| ==> Bytes(idle[..n]) == Bytes(idle)) && (wanted == 0 ==> Bytes(idle[..n]) == 0)
  {
    FreeAtIsShortest(idle, wanted);
    BytesSplit(idle, FreeAt(idle, wanted));
    assert idle[..|idle|] == idle;
  }

  /** Evicting the shortest prefix that relieves the pressure is enough, or nothing is. */
  lemma Relief(idle: seq<Allocation>, missing: nat, used: nat, limit: Option<nat>)
    requires Bytes(idle[..FreeAt(idle, Pressure(missing, used, limit))]) <= used
    ensures var freed := Bytes(idle[..FreeAt(idle, Pressure(missing, used, limit))]);
            Refusal(missing, used - freed, limit, 0) == Refusal(missing, used, limit, Bytes(idle))
  {
    var wanted := Pressure(missing, used, limit);
    FreedBytes(idle, wanted);
    Relieved(missing, used, limit, Bytes(idle[..FreeAt(idle, wanted)]), Bytes(idle));
  }

  /** Where eviction does not help, everything was evicted. */
  lemma NoRelief(idle: seq<Allocation>, missing: nat, used: nat, limit: Option<nat>)
    ensures Refusal(missing, used, limit, Bytes(idle)).Some? && Pressure(missing, used, limit) > 0 ==>
              FreeAt(idle, Pressure(missing, used, limit)) == |idle|
  {
    FreedBytes(idle, Pressure(missing, used, limit));
  }

  /**
   Capacity is refused exactly when no amount of eviction would help; otherwise the evicted
   prefix is the shortest that makes room.
   */
  lemma EvictsLeast(idle: seq<Allocation>, missing: nat, used: nat, limit: nat)
    requires 0 < missing && used + missing <= U64_MAX && Bytes(idle) <= used
    ensures Refusal(missing, used, Some(limit), Bytes(idle)).Some? <==>
            forall m {:trigger idle[..m]} :: 0 <= m <= |idle| ==> used - Bytes(idle[..m]) + missing > limit
    ensures var n := FreeAt(idle, Pressure(missing, used, Some(limit)));
            Refusal(missing, used, Some(limit), Bytes(idle)).None? ==>
              && used - Bytes(idle[..n]) + missing <= limit
              && forall m {:trigger idle[..m]} :: 0 <= m < n ==> used - Bytes(idle[..m]) + missing > limit
  {
    var wanted := Pressure(missing, used, Some(limit));
    var n := FreeAt(idle, wanted);
    FreeAtIsShortest(idle, wanted);
    forall m | 0 <= m <= |idle| ensures Bytes(idle[..m]) <= Bytes(idle) {
      BytesSplit(idle, m);
    }
    assert idle[..|idle|] == idle;
    Relief(idle, missing, used, Some(limit));
    assert Bytes(idle[..0]) == 0;
  }

  predicate AllGood(specs: seq<Spec>, sizeOf: Sizing, i: nat)
    requires i <= |specs|
  {
    forall j :: 0 <= j < i ==> sizeOf(specs[j]).Ok?
  }

  /** The first descriptor of the plan that is refused. */
  function FirstBad(specs: seq<Spec>, sizeOf: Sizing, n: nat): (bad: Option<ResourceError>)
    requires n <= |specs|
    ensures bad.None? <==> forall i :: 0 <= i < n ==> sizeOf(specs[i]).Ok?
    ensures bad.Some? ==>
              && !bad.value.Admission?
              && exists i :: 0 <= i < n && sizeOf(specs[i]) == Err(bad.value) && AllGood(specs, sizeOf, i)
  {
    if n == 0 then None
    else
      var before := FirstBad(specs, sizeOf, n - 1);
      if before.None? && sizeOf(specs[n - 1]).Err? then Some(sizeOf(specs[n - 1]).error) else before
  }

  lemma {:induction false} FirstBadSticks(specs: seq<Spec>, sizeOf: Sizing, m: nat, n: nat)
    requires m <= n <= |specs|
    ensures FirstBad(specs, sizeOf, m).Some? ==> FirstBad(specs, sizeOf, n) == FirstBad(specs, sizeOf, m)
    decreases n
  {
    if m == n {
    } else {
      FirstBadSticks(specs, sizeOf, m, n - 1);
    }
  }

  /** Why a plan whose matches are checked out is refused. */
  function Shortage(c: CheckedOut, specs: seq<Spec>, sizeOf: Sizing, used: nat,
                    limit: Option<nat>): Option<ResourceError>
    requires |c.found| <= |specs|
  {
    var missing := Missing(c.found, specs, sizeOf);
    if missing > U64_MAX then Some(ByteOverflow)
    else
      match Refusal(missing, used, limit, Bytes(c.rest))
      case None => None
      case Some(e) => Some(Admission(e))
  }

  /** Why a plan is refused, as a function of the plan and the state before. */
  function Objection(specs: seq<Spec>, sizeOf: Sizing, idle: seq<Allocation>, used: nat,
                     limit: Option<nat>): Option<ResourceError> {
    var bad := FirstBad(specs, sizeOf, |specs|);
    if bad.Some? then bad else Shortage(CheckOut(idle, specs, |specs|), specs, sizeOf, used, limit)
  }

  /**
   The first refused descriptor is the objection; without one, a plan is refused exactly if it misses
   something that 64 bits cannot count, or that no limit or too low a one allows with everything idle evicted.
   */
  lemma ObjectionMeans(specs: seq<Spec>, sizeOf: Sizing, idle: seq<Allocation>, used: nat, limit: Option<nat>)
    ensures forall i :: 0 <= i < |specs| && sizeOf(specs[i]).Err? && AllGood(specs, sizeOf, i) ==>
              Objection(specs, sizeOf, idle, used, limit) == Some(sizeOf(specs[i]).error)
    ensures AllGood(specs, sizeOf, |specs|) ==>
              var missing, rest := MissingAt(idle, specs, sizeOf, |specs|), CheckOut(idle, specs, |specs|).rest;
              (Objection(specs, sizeOf, idle, used, limit).None? <==>
                 && used + missing <= U64_MAX
                 && (missing == 0 || (limit.Some? && used + missing <= limit.value + Bytes(rest))))
  {
    forall i | 0 <= i < |specs| && sizeOf(specs[i]).Err? && AllGood(specs, sizeOf, i)
      ensures FirstBad(specs, sizeOf, |specs|) == Some(sizeOf(specs[i]).error)
    {
      FirstBadSticks(specs, sizeOf, i + 1, |specs|);
    }
  }

  predicate CapacityError(e: ResourceError) {
    e.Admission? && e.error.Capacity?
  }

  // ---------- giving matches back ----------

  /** What decides whether an allocation can go back to the pool. */
  datatype Shelf = Shelf(idle: seq<Allocation>, budget: nat, maxEntries: nat, lost: bool)

  function Shelved(p: Shelf, more: seq<Allocation>): Shelf {
    p.(idle := p.idle + more)
  }

  /** Only a healthy owner's allocation may go back. */
  function Healthy(note: Option<Allocation>, well: bool): Option<Allocation> {
    if well then note else None
  }

  function AllHealthy(notes: seq<Option<Allocation>>, well: seq<bool>): (healthy: seq<Option<Allocation>>)
    requires |notes| == |well|
    ensures |healthy| == |notes|
  {
    seq(|notes|, i requires 0 <= i < |notes| => Healthy(notes[i], well[i]))
  }

  /** The pool keeps the allocation, if there is one, without evicting another. */
  predicate Accepts(p: Shelf, note: Option<Allocation>) {
    note.Some? ==>
      && FateOf(note.value, true, p.budget, p.lost) == Pooled
      && Fits(p.idle, note.value.bytes, p.budget, p.maxEntries)
  }

  /** All of these can go back to the pool, and there is room for all of them. */
  ghost predicate Returnable(p: Shelf, notes: seq<Option<Allocation>>) {
    && (forall i :: 0 <= i < |notes| && notes[i].Some? ==> FateOf(notes[i].value, true, p.budget, p.lost) == Pooled)
    && Bytes(p.idle) + Bytes(Present(notes)) <= p.budget && |p.idle| + |Present(notes)| <= p.maxEntries
  }

  /** What can go back, told by usage and size; a shelf whose device is lost takes nothing. */
  lemma ReturnableMeans(p: Shelf, notes: seq<Option<Allocation>>)
    ensures Returnable(p, notes) <==>
            && (forall i :: 0 <= i < |notes| && notes[i].Some? ==>
                  var a := notes[i].value;
                  && !p.lost && 0 < p.budget && a.bytes <= p.budget
                  && !(a.key.BufferOf? && MapRead in a.key.buffer.usage)
                  && (a.key.BufferOf? && a.key.buffer.usage == {MapWrite, CopySrc} ==> a.payload.mapped))
            && Bytes(p.idle) + Bytes(Present(notes)) <= p.budget && |p.idle| + |Present(notes)| <= p.maxEntries
  {
  }

  /** Where all of a batch fits, it fits one after the other. */
  lemma AcceptsNext(p: Shelf, notes: seq<Option<Allocation>>, i: nat)
    requires i < |notes| && Returnable(p, notes)
    ensures Accepts(Shelved(p, Present(notes[..i])), notes[i])
    ensures Shelved(Shelved(p, Present(notes[..i])), Listed(notes[i])) == Shelved(p, Present(notes[..i + 1]))
  {
    PresentNext(notes, i, p.idle);
    if notes[i].Some? {
      assert notes[..i + 1] == notes[..i] + [notes[i]];
      PresentPush(notes[..i], notes[i]);
      PresentWithin(notes, i + 1);
      BytesPush(Present(notes[..i]), notes[i].value);
      BytesConcat(p.idle, Present(notes[..i]));
    }
  }

  /** Putting back what fits evicts nothing. */
  lemma RoomForAll(slots: seq<Allocation>, a: Allocation, budget: nat, maxEntries: nat)
    requires Fits(slots, a.bytes, budget, maxEntries)
    ensures var n := RoomAt(slots, a.bytes, budget, maxEntries);
            && slots[n..] + [a] == slots + [a]
            && Tickets(slots[..n]) == {}
  {
  }

  /** Everything found is healthy, and the pool could have it back. */
  ghost predicate AllPooled(notes: seq<Option<Allocation>>, budget: nat)
  {
    forall i :: 0 <= i < |notes| && notes[i].Some? ==> FateOf(notes[i].value, true, budget, false) == Pooled
  }

  lemma FillPush(found: seq<Option<Allocation>>, note: Option<Allocation>, specs: seq<Spec>, sizeOf: Sizing)
    requires |found| < |specs| && AllFill(found, specs, sizeOf) && (note.Some? ==> Fills(note, specs[|found|], sizeOf))
    ensures AllFill(found + [note], specs, sizeOf)
  {
  }

  lemma PooledPush(found: seq<Option<Allocation>>, note: Option<Allocation>, budget: nat)
    requires AllPooled(found, budget) && (note.Some? ==> FateOf(note.value, true, budget, false) == Pooled)
    ensures AllPooled(found + [note], budget)
  {
  }

  /** The matches of a plan's first descriptors, each as specified and ready to go back. */
  ghost predicate Matched(idle: seq<Allocation>, now: CheckedOut, specs: seq<Spec>, sizeOf: Sizing, budget: nat) {
    && |now.found| <= |specs| && CheckOut(idle, specs, |now.found|) == now
    && AllFill(now.found, specs, sizeOf) && AllPooled(now.found, budget)
  }

  lemma MatchedPush(idle: seq<Allocation>, now: CheckedOut, specs: seq<Spec>, sizeOf: Sizing, budget: nat,
                    note: Option<Allocation>, next: CheckedOut)
    requires Matched(idle, now, specs, sizeOf, budget) && |now.found| < |specs|
    requires next == CheckOne(now, specs[|now.found|]) && next.found == now.found + [note]
    requires note.Some? ==>
               Fills(note, specs[|now.found|], sizeOf) && FateOf(note.value, true, budget, false) == Pooled
    ensures Matched(idle, next, specs, sizeOf, budget)
  {
    FillPush(now.found, note, specs, sizeOf);
    PooledPush(now.found, note, budget);
  }

  /** What is missing so far is missing from the whole plan, too. */
  lemma MatchedMisses(idle: seq<Allocation>, now: CheckedOut, specs: seq<Spec>, sizeOf: Sizing, budget: nat)
    requires Matched(idle, now, specs, sizeOf, budget)
    ensures Missing(now.found, specs, sizeOf) <= Missing(CheckOut(idle, specs, |specs|).found, specs, sizeOf)
  {
    MissingGrows(idle, specs, sizeOf, |now.found|, |specs|);
  }

  /** What was checked out fits where it came from, and going back restores the pool's contents. */
  lemma WayBack(p: Shelf, idle: seq<Allocation>, specs: seq<Spec>, n: nat, well: seq<bool>, evicted: nat)
    requires n <= |specs| && |well| == n && (forall i :: 0 <= i < n ==> well[i])
    requires evicted <= |CheckOut(idle, specs, n).rest| && p.idle == CheckOut(idle, specs, n).rest[evicted..]
    requires !p.lost && AllPooled(CheckOut(idle, specs, n).found, p.budget)
    requires Bytes(idle) <= p.budget && |idle| <= p.maxEntries
    ensures var found := CheckOut(idle, specs, n).found;
            && AllHealthy(found, well) == found && Returnable(p, found)
            && (evicted == 0 ==> multiset(p.idle + Present(found)) == multiset(idle))
  {
    CheckOutMoves(idle, specs, n);
    BytesSplit(CheckOut(idle, specs, n).rest, evicted);
  }

  /** The unhealthy among the first n were destroyed. */
  ghost predicate AllGone(notes: seq<Option<Allocation>>, well: seq<bool>, n: nat, gone: set<nat>)
    requires n <= |notes| == |well|
  {
    forall j :: 0 <= j < n && notes[j].Some? && !well[j] ==> notes[j].value.payload.ticket in gone
  }

  lemma GoneGrows(notes: seq<Option<Allocation>>, well: seq<bool>, n: nat, gone: set<nat>, more: set<nat>)
    requires n < |notes| == |well| && AllGone(notes, well, n, gone)
    requires notes[n].Some? && !well[n] ==> notes[n].value.payload.ticket in more
    ensures AllGone(notes, well, n + 1, gone + more)
  {
  }

  // ---------- map callbacks ----------

  /** An allocation kept until its map callback answers. */
  datatype Remap = Remap(allocation: Allocation, outcome: Option<Outcome>)

  function Allocations(remaps: seq<Remap>): seq<Allocation> {
    seq(|remaps|, i requires 0 <= i < |remaps| => remaps[i].allocation)
  }

  /** Remove one element by moving the last one into its place. */
  function SwapRemove<T>(s: seq<T>, at: nat): seq<T>
    requires at < |s|
  {
    if at == |s| - 1 then s[..at] else s[..|s| - 1][at := s[|s| - 1]]
  }

  lemma SwapRemoveKeeps<T>(s: seq<T>, at: nat)
    requires at < |s|
    ensures multiset(s) == multiset(SwapRemove(s, at)) + multiset{s[at]}
  {
    var last := |s| - 1;
    assert s == s[..last] + [s[last]];
    if at < last {
      assert s[..last] == s[..at] + [s[at]] + s[at + 1..last];
      assert SwapRemove(s, at) == s[..at] + [s[last]] + s[at + 1..last];
    }
  }

  lemma SwapRemoveTickets(s: seq<Allocation>, at: nat)
    requires at < |s| && DistinctTickets(s)
    ensures DistinctTickets(SwapRemove(s, at)) && s[at].payload.ticket !in Tickets(SwapRemove(s, at))
    ensures Tickets(s) == Tickets(SwapRemove(s, at)) + {s[at].payload.ticket}
  {
    var rest := SwapRemove(s, at);
    forall t | t in Tickets(s) && t != s[at].payload.ticket ensures t in Tickets(rest) {
      var i :| 0 <= i < |s| && s[i].payload.ticket == t;
      assert rest[if i == |s| - 1 then at else i].payload.ticket == t;
    }
    forall t | t in Tickets(rest) ensures t in Tickets(s) && t != s[at].payload.ticket {
      var i :| 0 <= i < |rest| && rest[i].payload.ticket == t;
      assert s[if i == at then |s| - 1 else i].payload.ticket == t;
    }
  }

  lemma AllocationsSwap(remaps: seq<Remap>, at: nat)
    requires at < |remaps|
    ensures Allocations(SwapRemove(remaps, at)) == SwapRemove(Allocations(remaps), at)
  {
  }

  /** Answered remaps in hand: known to the budget, and staging buffers. */
  ghost predicate InHand(done: seq<Remap>, charges: map<nat, nat>, sizeOf: Sizing) {
    && DistinctTickets(Allocations(done)) && ChargedFor(Allocations(done), charges)
    && forall i :: 0 <= i < |done| ==>
                     && done[i].outcome.Some? && AsSpecified(done[i].allocation, sizeOf)
                     && StagingSpec(done[i].allocation.key)
  }

  lemma InHandPush(done: seq<Remap>, m: Remap, charges: map<nat, nat>, sizeOf: Sizing)
    requires InHand(done, charges, sizeOf)
    requires m.outcome.Some? && AsSpecified(m.allocation, sizeOf) && StagingSpec(m.allocation.key)
    requires m.allocation.payload.ticket !in Tickets(Allocations(done))
    requires m.allocation.payload.ticket in charges && charges[m.allocation.payload.ticket] == m.allocation.bytes
    ensures InHand(done + [m], charges, sizeOf)
    ensures Tickets(Allocations(done + [m])) == Tickets(Allocations(done)) + {m.allocation.payload.ticket}
  {
    assert Allocations(done + [m]) == Allocations(done) + [m.allocation];
    TicketsPush(Allocations(done), m.allocation);
  }

  lemma InHandNext(done: seq<Remap>, i: nat, charges: map<nat, nat>, gone: set<nat>, sizeOf: Sizing)
    requires i < |done| && InHand(done[i..], charges, sizeOf)
    requires gone !! Tickets(Allocations(done[i..])) - {done[i].allocation.payload.ticket}
    ensures Tickets(Allocations(done[i..])) - {done[i].allocation.payload.ticket} == Tickets(Allocations(done[i + 1..]))
    ensures InHand(done[i + 1..], charges - gone, sizeOf)
  {
    var s := Allocations(done[i..]);
    assert Allocations(done[i + 1..]) == s[1..] && s[0..] == s;
    NextTicket(s, 0);
    forall j | 0 <= j < |done[i + 1..]| ensures done[i + 1..][j] == done[i..][j + 1] && s[1..][j] == s[j + 1] {
    }
    forall j | 0 <= j < |s[1..]| ensures s[1..][j].payload.ticket !in gone {
      assert s[1..][j].payload.ticket in Tickets(s[1..]);
    }
  }

  /** The last failure among answered remaps is the one reported. */
  function LastFailure(done: seq<Remap>): Option<WaitError> {
    if done == [] then None
    else
      var last := done[|done| - 1].outcome;
      if last.Some? && last.value.Err? then Some(last.value.error) else LastFailure(done[..|done| - 1])
  }

  lemma LastFailureNext(done: seq<Remap>, i: nat)
    requires i < |done|
    ensures LastFailure(done[..i + 1])
            == if done[i].outcome.Some? && done[i].outcome.value.Err? then Some(done[i].outcome.value.error)
               else LastFailure(done[..i])
  {
    assert done[..i + 1][..i] == done[..i];
  }

  predicate Failed(m: Remap) {
    m.outcome.Some? && m.outcome.value.Err?
  }

  lemma {:induction false} LastFailureIsLast(done: seq<Remap>)
    ensures LastFailure(done).None? <==> forall i :: 0 <= i < |done| ==> !Failed(done[i])
    ensures LastFailure(done).Some? ==>
              exists i :: 0 <= i < |done| && done[i].outcome == Some(Err(LastFailure(done).value))
                          && forall j :: i < j < |done| ==> !Failed(done[j])
  {
    if done != [] && !Failed(done[|done| - 1]) {
      var n := |done| - 1;
      LastFailureIsLast(done[..n]);
      if LastFailure(done).Some? {
        var i :| 0 <= i < n && done[..n][i].outcome == Some(Err(LastFailure(done).value))
                 && forall j :: i < j < n ==> !Failed(done[..n][j]);
        assert done[i].outcome == Some(Err(LastFailure(done).value));
        assert forall j :: i < j < n ==> done[j] == done[..n][j];
      } else {
        assert forall j :: 0 <= j < n ==> done[j] == done[..n][j];
      }
    }
  }

  /** Whether an answered remap ends in the pool: mapped, and no loss known. */
  predicate Recovered(m: Remap, lost: bool) {
    m.outcome.Some? && m.outcome.value.Ok? && !lost
  }

  function Mapped(m: Remap): Allocation {
    m.allocation.(payload := Native(m.allocation.payload.ticket, true))
  }

  /** What of an answered remap can go back to the pool. */
  function Comeback(m: Remap, lost: bool): Option<Allocation> {
    if Recovered(m, lost) then Some(Mapped(m)) else None
  }

  function Comebacks(done: seq<Remap>, lost: bool): (notes: seq<Option<Allocation>>)
    ensures |notes| == |done|
  {
    seq(|done|, i requires 0 <= i < |done| => Comeback(done[i], lost))
  }

  /** Exactly what was mapped while no loss is known comes back, mapped and otherwise as it was. */
  lemma ComebackMeans(done: seq<Remap>, lost: bool, i: nat)
    requires i < |done|
    ensures var a := done[i].allocation;
            Comebacks(done, lost)[i]
            == if !lost && done[i].outcome == Some(Ok(()))
               then Some(Resource(a.key, a.bytes, Native(a.payload.ticket, true))) else None
  {
    assert done[i].outcome.Some? && done[i].outcome.value.Ok? ==> done[i].outcome.value.value == ();
  }

  lemma {:induction false} NothingPresent(found: seq<Option<Allocation>>)
    requires forall i :: 0 <= i < |found| ==> found[i].None?
    ensures Present(found) == []
  {
    if found == [] {
    } else {
      NothingPresent(found[..|found| - 1]);
    }
  }

  /** After a loss nothing comes back. */
  lemma LostComebacks(p: Shelf, done: seq<Remap>)
    requires p.lost && Bytes(p.idle) <= p.budget && |p.idle| <= p.maxEntries
    ensures RoomForComebacks(p, done) && Present(Comebacks(done, true)) == []
  {
    NothingPresent(Comebacks(done, true));
  }

  /** Every remap that can go back fits beside what is idle. */
  ghost predicate RoomForComebacks(p: Shelf, done: seq<Remap>) {
    Returnable(p, Comebacks(done, p.lost))
  }

  lemma ComebackNext(p: Shelf, done: seq<Remap>, i: nat)
    requires i < |done| && RoomForComebacks(p, done)
    ensures var notes := Comebacks(done, p.lost);
            && Accepts(Shelved(p, Present(notes[..i])), Comeback(done[i], p.lost))
            && Shelved(Shelved(p, Present(notes[..i])), Listed(Comeback(done[i], p.lost)))
               == Shelved(p, Present(notes[..i + 1]))
  {
    AcceptsNext(p, Comebacks(done, p.lost), i);
  }

  /** What failed to map, or came back after a loss, was destroyed. */
  ghost predicate FailedGone(done: seq<Remap>, n: nat, lost: bool, gone: set<nat>)
    requires n <= |done|
  {
    forall j :: 0 <= j < n && !Recovered(done[j], lost) ==> done[j].allocation.payload.ticket in gone
  }
}

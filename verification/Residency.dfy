/**
 Charged allocations of one ownership domain: owned by handles, idle in the pool, or
 waiting to be mapped again - each in exactly one of these places.
 */
module Residency {
  import opened Outcomes
  import opened Admission
  import opened Pool
  import opened Descriptors
  import opened Plans
  import opened Supply
  import ValidationCells

  // ---------- where every charge is ----------

  datatype Holding = Holding(owner: Owned, allocation: Allocation)

  /** The three places of this domain, and the charges other domains or the caller hold. */
  datatype Places = Places(
    idle: seq<Allocation>,
    waiting: seq<Allocation>,
    held: map<nat, Holding>,
    outside: set<nat>,
    hand: set<nat>)

  /** Every charge is in exactly one place, and charged with exactly its allocation's bytes. */
  ghost predicate Accounted(p: Places, charges: map<nat, nat>) {
    && DistinctTickets(p.idle) && DistinctTickets(p.waiting)
    && ChargedFor(p.idle, charges) && ChargedFor(p.waiting, charges)
    && charges.Keys == Tickets(p.idle) + Tickets(p.waiting) + p.held.Keys + p.outside + p.hand
    && Tickets(p.idle) !! Tickets(p.waiting) !! p.held.Keys !! p.outside !! p.hand
    && (forall t :: t in p.held ==>
          p.held[t].allocation.payload.ticket == t && charges[t] == p.held[t].allocation.bytes)
  }

  /** Bytes of the allocations that owners hold. */
  ghost function HeldBytes(held: map<nat, Holding>): map<nat, nat> {
    map t | t in held :: held[t].allocation.bytes
  }

  ghost function Part(charges: map<nat, nat>, tickets: set<nat>): map<nat, nat> {
    map t | t in charges && t in tickets :: charges[t]
  }

  lemma Elsewhere(p: Places, charges: map<nat, nat>)
    requires Accounted(p, charges) && p.hand == {}
    ensures HeldBytes(p.held).Keys !! Part(charges, p.outside).Keys
    ensures charges - Tickets(p.idle) - Tickets(p.waiting) == HeldBytes(p.held) + Part(charges, p.outside)
  {
    var left, there := charges - Tickets(p.idle) - Tickets(p.waiting), HeldBytes(p.held) + Part(charges, p.outside);
    assert left.Keys == there.Keys;
  }

  lemma StillWaiting(p: Places, charges: map<nat, nat>)
    requires Accounted(p, charges)
    ensures ChargedFor(p.waiting, charges - Tickets(p.idle))
  {
    forall i | 0 <= i < |p.waiting| ensures p.waiting[i].payload.ticket !in Tickets(p.idle) {
      assert p.waiting[i].payload.ticket in Tickets(p.waiting);
    }
  }

  lemma Worth(p: Places, charges: map<nat, nat>)
    requires Accounted(p, charges) && p.hand == {}
    ensures Total(charges) == Bytes(p.idle) + Bytes(p.waiting) + Total(HeldBytes(p.held))
              + Total(Part(charges, p.outside))
  {
    StillWaiting(p, charges);
    TotalOfSlots(p.idle, charges);
    TotalOfSlots(p.waiting, charges - Tickets(p.idle));
    Elsewhere(p, charges);
    TotalUnion(HeldBytes(p.held), Part(charges, p.outside));
  }

  /** Every place holds only what belongs there. */
  ghost predicate Fit(p: Places, sizeOf: Sizing) {
    && (forall a :: a in p.idle ==> ReadyForReuse(a, sizeOf))
    && (forall a :: a in p.waiting ==> AsSpecified(a, sizeOf) && StagingSpec(a.key))
    && (forall h :: h in p.held.Values ==> AsSpecified(h.allocation, sizeOf))
  }

  /** Charges that other domains make or release on the shared budget disturb nothing here. */
  lemma OthersMove(p: Places, charges: map<nat, nat>, later: map<nat, nat>)
    requires Accounted(p, charges)
    requires forall t :: t in charges && t !in p.outside ==> t in later && later[t] == charges[t]
    ensures Accounted(p.(outside := later.Keys - (charges.Keys - p.outside)), later)
  {
    forall i | 0 <= i < |p.idle| ensures p.idle[i].payload.ticket in charges && p.idle[i].payload.ticket !in p.outside {
      assert p.idle[i].payload.ticket in Tickets(p.idle);
    }
    forall i | 0 <= i < |p.waiting|
      ensures p.waiting[i].payload.ticket in charges && p.waiting[i].payload.ticket !in p.outside
    {
      assert p.waiting[i].payload.ticket in Tickets(p.waiting);
    }
  }

  /** What stays idle stays fit. */
  lemma StaysFit(p: Places, q: Places, sizeOf: Sizing)
    requires Fit(p, sizeOf) && q.waiting == p.waiting && q.held == p.held
    requires forall a :: a in q.idle ==> a in p.idle || ReadyForReuse(a, sizeOf)
    ensures Fit(q, sizeOf)
  {
  }

  lemma Returned(p: Places, charges: map<nat, nat>, a: Allocation, n: nat, sizeOf: Sizing)
    requires Accounted(p, charges) && Fit(p, sizeOf) && n <= |p.idle|
    requires a.payload.ticket in p.hand && charges[a.payload.ticket] == a.bytes && ReadyForReuse(a, sizeOf)
    ensures var q := p.(idle := p.idle[n..] + [a], hand := p.hand - {a.payload.ticket});
            && DistinctTickets(p.idle[..n]) && ChargedFor(p.idle[..n], charges)
            && Accounted(q, charges - Tickets(p.idle[..n])) && Fit(q, sizeOf)
  {
    PushKeepsTickets(p.idle, a, n);
    StaysFit(p, p.(idle := p.idle[n..] + [a], hand := p.hand - {a.payload.ticket}), sizeOf);
  }

  lemma Taken(p: Places, charges: map<nat, nat>, at: nat)
    requires Accounted(p, charges) && at < |p.idle|
    ensures var t := p.idle[at].payload.ticket;
            t !in p.hand && Accounted(p.(idle := p.idle[..at] + p.idle[at + 1..], hand := p.hand + {t}), charges)
  {
    WithoutTicket(p.idle, at);
  }

  lemma TakenFits(p: Places, q: Places, at: nat, sizeOf: Sizing)
    requires Fit(p, sizeOf) && at < |p.idle| && q.waiting == p.waiting && q.held == p.held
    requires q.idle == p.idle[..at] + p.idle[at + 1..]
    ensures Fit(q, sizeOf) && ReadyForReuse(p.idle[at], sizeOf)
  {
    assert p.idle[at] in p.idle;
    assert forall a :: a in q.idle ==> a in p.idle;
  }

  lemma IntoHand(p: Places, q: Places, charges: map<nat, nat>, at: nat, sizeOf: Sizing)
    requires Accounted(p, charges) && Fit(p, sizeOf) && p.hand == {} && at < |p.idle|
    requires q == p.(idle := p.idle[..at] + p.idle[at + 1..], hand := {p.idle[at].payload.ticket})
    ensures Accounted(q, charges) && Fit(q, sizeOf)
    ensures ReadyForReuse(p.idle[at], sizeOf) && charges[p.idle[at].payload.ticket] == p.idle[at].bytes
  {
    Taken(p, charges, at);
    assert p.hand + {p.idle[at].payload.ticket} == {p.idle[at].payload.ticket};
    TakenFits(p, q, at, sizeOf);
  }

  lemma Handed(p: Places, charges: map<nat, nat>, h: Holding, sizeOf: Sizing)
    requires var t := h.allocation.payload.ticket;
             Accounted(p, charges) && Fit(p, sizeOf) && t in p.hand && charges[t] == h.allocation.bytes
    requires AsSpecified(h.allocation, sizeOf)
    ensures var t := h.allocation.payload.ticket;
            var q := p.(held := p.held[t := h], hand := p.hand - {t});
            t !in p.held && Accounted(q, charges) && Fit(q, sizeOf)
  {
    HeldFits(p, p.held[h.allocation.payload.ticket := h], sizeOf);
  }

  lemma LetGo(p: Places, charges: map<nat, nat>, t: nat, sizeOf: Sizing)
    requires Accounted(p, charges) && Fit(p, sizeOf) && t in p.held
    ensures var q := p.(held := p.held - {t}, hand := p.hand + {t});
            t !in p.hand && AsSpecified(p.held[t].allocation, sizeOf) && Accounted(q, charges) && Fit(q, sizeOf)
  {
    assert p.held[t] in p.held.Values;
    HeldFits(p, p.held - {t}, sizeOf);
  }

  lemma HeldFits(p: Places, held: map<nat, Holding>, sizeOf: Sizing)
    requires Fit(p, sizeOf)
    requires forall t :: t in held ==> (t in p.held && held[t] == p.held[t]) || AsSpecified(held[t].allocation, sizeOf)
    ensures Fit(p.(held := held), sizeOf)
  {
    forall h | h in held.Values ensures AsSpecified(h.allocation, sizeOf) {
      var t :| t in held && held[t] == h;
      if t in p.held && held[t] == p.held[t] {
        assert p.held[t] in p.held.Values;
      }
    }
  }

  lemma Rewritten(p: Places, charges: map<nat, nat>, h: Holding, sizeOf: Sizing)
    requires var t := h.allocation.payload.ticket;
             Accounted(p, charges) && Fit(p, sizeOf) && t in p.held && p.held[t].allocation.bytes == h.allocation.bytes
    requires AsSpecified(h.allocation, sizeOf)
    ensures var q := p.(held := p.held[h.allocation.payload.ticket := h]);
            Accounted(q, charges) && Fit(q, sizeOf)
  {
    HeldFits(p, p.held[h.allocation.payload.ticket := h], sizeOf);
  }

  lemma Discarded(p: Places, charges: map<nat, nat>, t: nat)
    requires Accounted(p, charges) && t in p.hand
    ensures Accounted(p.(hand := p.hand - {t}), charges - {t})
  {
    assert t !in Tickets(p.idle) && t !in Tickets(p.waiting);
  }

  lemma Born(p: Places, charges: map<nat, nat>, t: nat, bytes: nat)
    requires Accounted(p, charges) && t !in charges
    ensures Accounted(p.(hand := p.hand + {t}), charges[t := bytes])
  {
    assert t !in Tickets(p.idle) && t !in Tickets(p.waiting);
  }

  lemma Awaited(p: Places, charges: map<nat, nat>, a: Allocation)
    requires Accounted(p, charges) && a.payload.ticket in p.hand && charges[a.payload.ticket] == a.bytes
    ensures Accounted(p.(waiting := p.waiting + [a], hand := p.hand - {a.payload.ticket}), charges)
  {
    TicketsPush(p.waiting, a);
  }

  lemma Harvested(p: Places, charges: map<nat, nat>, at: nat, sizeOf: Sizing)
    requires Accounted(p, charges) && Fit(p, sizeOf) && at < |p.waiting|
    ensures var a := p.waiting[at];
            var q := p.(waiting := SwapRemove(p.waiting, at), hand := p.hand + {a.payload.ticket});
            && a.payload.ticket !in p.hand && charges[a.payload.ticket] == a.bytes
            && AsSpecified(a, sizeOf) && StagingSpec(a.key)
            && Accounted(q, charges) && Fit(q, sizeOf)
  {
    SwapRemoveTickets(p.waiting, at);
    assert p.waiting[at] in p.waiting;
    forall a | a in SwapRemove(p.waiting, at) ensures a in p.waiting {
      var i :| 0 <= i < |SwapRemove(p.waiting, at)| && SwapRemove(p.waiting, at)[i] == a;
    }
  }

  lemma Shrunk(p: Places, charges: map<nat, nat>, n: nat, sizeOf: Sizing)
    requires Accounted(p, charges) && Fit(p, sizeOf) && n <= |p.idle|
    ensures DistinctTickets(p.idle[..n]) && ChargedFor(p.idle[..n], charges)
    ensures var q := p.(idle := p.idle[n..]); Accounted(q, charges - Tickets(p.idle[..n])) && Fit(q, sizeOf)
  {
    TicketsSplit(p.idle, n);
    StaysFit(p, p.(idle := p.idle[n..]), sizeOf);
  }

  ghost function Less(held: map<nat, Holding>, note: Option<Allocation>): map<nat, Holding> {
    if note.None? then held else held - {note.value.payload.ticket}
  }

  ghost function Without(held: map<nat, Holding>, notes: seq<Option<Allocation>>, n: nat): map<nat, Holding>
    requires n <= |notes|
  {
    if n == 0 then held
    else Less(Without(held, notes, n - 1), notes[n - 1])
  }

  lemma {:induction false} WithoutIs(held: map<nat, Holding>, notes: seq<Option<Allocation>>, n: nat)
    requires n <= |notes|
    ensures Without(held, notes, n) == held - Tickets(Present(notes[..n]))
  {
    if n == 0 {
    } else {
      WithoutIs(held, notes, n - 1);
      PresentNext(notes, n - 1, []);
    }
  }

  lemma Regrouped<T>(owners: map<nat, T>, a: set<nat>, b: set<nat>)
    ensures owners - a - b == owners - (a + b)
  {
  }

  // ---------- slots and their owners ----------

  ghost function Owners(slots: seq<Option<Owned>>): set<Owned> {
    set i | 0 <= i < |slots| && slots[i].Some? :: slots[i].value
  }

  lemma OwnersPush(slots: seq<Option<Owned>>, slot: Option<Owned>)
    ensures Owners(slots + [slot]) == Owners(slots) + (if slot.Some? then {slot.value} else {})
  {
    var all := slots + [slot];
    forall o | o in Owners(slots) ensures o in Owners(all) {
      var i :| 0 <= i < |slots| && slots[i].Some? && slots[i].value == o;
      assert all[i] == slots[i];
    }
    assert all[|slots|] == slot;
  }

  lemma OwnersSet(slots: seq<Option<Owned>>, i: nat, o: Owned)
    requires i < |slots| && slots[i].None?
    ensures Owners(slots[i := Some(o)]) == Owners(slots) + {o}
  {
    var all := slots[i := Some(o)];
    forall p | p in Owners(slots) ensures p in Owners(all) {
      var j :| 0 <= j < |slots| && slots[j].Some? && slots[j].value == p;
      assert all[j] == slots[j];
    }
    assert all[i] == Some(o);
  }

  function Ticket(note: Option<Allocation>): nat {
    if note.Some? then note.value.payload.ticket else 0
  }

  /** No two slots share an owner or an allocation. */
  ghost predicate Apart(slots: seq<Option<Owned>>, notes: seq<Option<Allocation>>)
    requires |slots| == |notes|
  {
    forall i, j :: 0 <= i < j < |slots| && slots[i].Some? && slots[j].Some? ==>
                     slots[i] != slots[j] && Ticket(notes[i]) != Ticket(notes[j])
  }

  ghost predicate NamesSlot(held: map<nat, Holding>, slot: Option<Owned>, note: Option<Allocation>) {
    && (slot.Some? <==> note.Some?)
    && (slot.Some? ==> Ticket(note) in held && held[Ticket(note)] == Holding(slot.value, note.value))
  }

  /** The domain knows the slots from i on as the holders of their allocations. */
  ghost predicate Named(held: map<nat, Holding>, slots: seq<Option<Owned>>, notes: seq<Option<Allocation>>, i: nat)
    requires |slots| == |notes|
  {
    forall j :: i <= j < |slots| ==> NamesSlot(held, slots[j], notes[j])
  }

  lemma NamedNext(held: map<nat, Holding>, slots: seq<Option<Owned>>, notes: seq<Option<Allocation>>, i: nat)
    requires i < |slots| == |notes| && Apart(slots, notes) && Named(held, slots, notes, i)
    ensures NamesSlot(held, slots[i], notes[i])
    ensures Named(Less(held, notes[i]), slots, notes, i + 1)
  {
  }

  /** Filling an empty slot concerns no other holder. */
  lemma HeldSet(held: map<nat, Holding>, notes: seq<Option<Allocation>>, i: nat, slot: Option<Owned>,
                note: Option<Allocation>)
    requires i < |notes| && notes[i].None? && slot.Some? && note.Some? && Ticket(note) !in held
    ensures More(held, slot, note) - Tickets(Present(notes[i := note])) == held - Tickets(Present(notes))
  {
    PresentSet(notes, i, note);
  }

  ghost function More(held: map<nat, Holding>, slot: Option<Owned>, note: Option<Allocation>): map<nat, Holding> {
    if slot.Some? && note.Some? then held[Ticket(note) := Holding(slot.value, note.value)] else held
  }

  /** One more slot, empty or holding what nobody held before. */
  lemma NamedPush(held: map<nat, Holding>, slots: seq<Option<Owned>>, notes: seq<Option<Allocation>>,
                  slot: Option<Owned>, note: Option<Allocation>)
    requires |slots| == |notes| && Apart(slots, notes) && Named(held, slots, notes, 0)
    requires slot.Some? <==> note.Some?
    requires slot.Some? ==> slot !in slots && Ticket(note) !in held
    ensures Apart(slots + [slot], notes + [note])
    ensures Named(More(held, slot, note), slots + [slot], notes + [note], 0)
  {
    forall i | 0 <= i < |slots| ensures NamesSlot(held, slots[i], notes[i]) {
    }
  }

  /** Letting go of everything noted is the way back. */
  lemma HeldPush(held: map<nat, Holding>, notes: seq<Option<Allocation>>, slot: Option<Owned>, note: Option<Allocation>)
    requires slot.Some? <==> note.Some?
    requires note.Some? ==> Ticket(note) !in held
    ensures More(held, slot, note) - Tickets(Present(notes + [note])) == held - Tickets(Present(notes))
  {
    var all := notes + [note];
    PresentNext(all, |notes|, []);
    assert all[..|notes|] == notes && all[..|notes| + 1] == all;
  }

  /** An empty slot is filled with what nobody held before. */
  lemma NamedSet(held: map<nat, Holding>, slots: seq<Option<Owned>>, notes: seq<Option<Allocation>>, i: nat,
                 slot: Option<Owned>, note: Option<Allocation>)
    requires i < |slots| == |notes| && Apart(slots, notes) && Named(held, slots, notes, 0)
    requires slots[i].None? && slot.Some? && note.Some? && slot !in slots && Ticket(note) !in held
    ensures Apart(slots[i := slot], notes[i := note])
    ensures Named(More(held, slot, note), slots[i := slot], notes[i := note], 0)
  {
    forall j | 0 <= j < |slots| ensures NamesSlot(held, slots[j], notes[j]) {
    }
  }

  /** The idle matches of the first descriptors, in owners' hands but ready to go back. */
  ghost predicate GatheredOn(idle: seq<Allocation>, others: map<nat, Holding>, now: CheckedOut, held: map<nat, Holding>,
                             specs: seq<Spec>, slots: seq<Option<Owned>>, well: seq<bool>, sizeOf: Sizing, budget: nat)
  {
    && |well| <= |specs| && HeldBeside(others, held, slots, now.found) && |slots| == |well|
    && (forall i :: 0 <= i < |well| ==> well[i]) && Matched(idle, now, specs, sizeOf, budget)
  }

  /** The slots hold distinct allocations, and beside theirs these holdings are there. */
  ghost predicate HeldBeside(others: map<nat, Holding>, held: map<nat, Holding>, slots: seq<Option<Owned>>,
                             found: seq<Option<Allocation>>)
  {
    && |slots| == |found| && Apart(slots, found) && Named(held, slots, found, 0)
    && held - Tickets(Present(found)) == others
  }

  lemma HeldBesidePush(others: map<nat, Holding>, held: map<nat, Holding>, slots: seq<Option<Owned>>,
                       found: seq<Option<Allocation>>, slot: Option<Owned>, note: Option<Allocation>)
    requires HeldBeside(others, held, slots, found)
    requires (slot.Some? <==> note.Some?) && (slot.Some? ==> slot !in slots && Ticket(note) !in held)
    ensures HeldBeside(others, More(held, slot, note), slots + [slot], found + [note])
  {
    NamedPush(held, slots, found, slot, note);
    HeldPush(held, found, slot, note);
  }

  lemma GatherNone(idle: seq<Allocation>, held: map<nat, Holding>, specs: seq<Spec>, sizeOf: Sizing, budget: nat)
    ensures GatheredOn(idle, held, CheckedOut(idle, []), held, specs, [], [], sizeOf, budget)
    ensures Missing([], specs, sizeOf) == 0
  {
    assert Tickets(Present([])) == {} && held - {} == held;
  }

  // ---------- owners ----------

  /** One allocation behind a reference-counted handle. */
  class Owned {
    const home: Resources
    var allocation: Option<Allocation>
    var healthy: bool
    var strong: nat
    ghost var tainted: bool   // a holder has excluded the allocation from reuse, for good

    constructor (home: Resources, allocation: Allocation, healthy: bool)
      ensures this.home == home && this.allocation == Some(allocation) && this.healthy == healthy && strong == 1
      ensures !tainted
    {
      this.home, this.allocation, this.healthy, this.strong := home, Some(allocation), healthy, 1;
      tainted := false;
    }

    /** The domain knows this object as the one holder of its allocation; tainted, it is never healthy again. */
    ghost predicate Owns()
      reads this, home
    {
      && allocation.Some? && 1 <= strong && (tainted ==> !healthy)
      && allocation.value.payload.ticket in home.held
      && home.held[allocation.value.payload.ticket] == Holding(this, allocation.value)
    }

    method Clone()
      requires Owns()
      modifies this`strong
      ensures Owns() && strong == old(strong) + 1
    {
      strong := strong + 1;
    }

    /** Dropping a handle matters to the domain only when it is the last one. */
    method Drop()
      requires home.Valid() && Owns()
      modifies this, home`held, home`remaps, home.pool`slots, home.pool`bytes
      modifies home.memory`allocatedBytes, home.memory`charges, home.memory`totals
      ensures home.Valid() && strong == old(strong) - 1 && healthy == old(healthy)
      ensures old(strong) > 1 ==> tainted == old(tainted)
      ensures old(strong) == 1 && old(tainted) ==> old(allocation.value).payload.ticket !in home.memory.charges
      ensures old(strong) > 1 ==>
                && Owns() && allocation == old(allocation) && home.held == old(home.held)
                && home.remaps == old(home.remaps)
                && home.pool.slots == old(home.pool.slots) && home.memory.charges == old(home.memory.charges)
      ensures old(strong) == 1 ==>
                var a := old(allocation.value);
                && home.held == old(home.held) - {a.payload.ticket}
                && home.Moved(a, FateOf(a, healthy, home.pool.budget, home.lost.Some?),
                              old(home.pool.slots), old(home.remaps), old(home.memory.charges))
                && home.PutAway(a, healthy, old(home.pool.slots), old(home.remaps), old(home.memory.charges))
    {
      if strong == 1 {
        home.DropOwner(this);
      } else {
        strong := strong - 1;
      }
    }

    /** Permanently exclude the allocation from reuse. */
    method Taint()
      requires Owns()
      modifies this`healthy, this`tainted
      ensures Owns() && tainted
    {
      healthy, tainted := false, true;
    }

    /** Fill a mapped staging buffer nobody else holds, and unmap it; it is then filled no second time. */
    method Upload(offset: u64, length: nat, mappable: bool) returns (r: Result<(), ResourceError>)
      requires home.Valid() && Owns()
      modifies this`allocation, home`held
      ensures home.Valid() && Owns()
      ensures var a := old(allocation.value);
              var accepted := strong == 1 && StagingSpec(a.key) && a.payload.mapped && offset % MAP_ALIGNMENT == 0
                              && length > 0
                              && length % COPY_BUFFER_ALIGNMENT == 0 && offset + length <= a.bytes;
              && (r == Err(UploadState) <==> !accepted)
              && (r == Err(MapRange) <==> accepted && !mappable)
              && (r.Ok? ==> allocation == Some(a.(payload := Native(a.payload.ticket, false)))
                            && home.held == old(home.held)[a.payload.ticket := Holding(this, allocation.value)])
              && (r.Err? ==> allocation == old(allocation) && home.held == old(home.held))
    {
      var a := allocation.value;
      home.KnowsSize(this);
      var size := if StagingSpec(a.key) then a.key.buffer.size else 0;
      if strong != 1 || !StagingSpec(a.key) || !a.payload.mapped || offset % MAP_ALIGNMENT != 0 || length == 0
         || length % COPY_BUFFER_ALIGNMENT != 0 || offset + length > U64_MAX || offset + length > size {
        return Err(UploadState);
      }
      if !mappable {
        return Err(MapRange);
      }
      home.Unmap(this);
      r := Ok(());
    }
  }

  // ---------- the domain ----------

  function ErrorOf<T>(r: Result<T, ResourceError>): Option<ResourceError> {
    if r.Err? then Some(r.error) else None
  }

  class Resources {
    const sizeOf: Sizing                // the checked byte count of a descriptor on this device
    const memory: MemoryBudget
    const pool: ResourcePool<Spec, Native>
    var remaps: seq<Remap>
    var lost: Option<string>
    ghost var held: map<nat, Holding>   // allocations of live owners, by charge
    ghost var outside: set<nat>         // charges made on the shared budget by others

    ghost function PlacesWith(hand: set<nat>): Places
      reads this, pool
    {
      Places(pool.slots, Allocations(remaps), held, outside, hand)
    }

    /** Every charge is idle, remapping, held, in hand, or not ours - and in only one of them. */
    ghost predicate Consistent(hand: set<nat>)
      reads this, memory, pool
    {
      && memory.Valid() && pool.Valid() && pool.maxEntries > 0
      && Accounted(PlacesWith(hand), memory.charges) && Fit(PlacesWith(hand), sizeOf)
    }

    /** Nothing is in hand. (The trigger keeps the invariant folded until a proof names `Consistent`.) */
    ghost predicate Valid()
      reads this, memory, pool
    {
      forall hand {:trigger Consistent(hand)} :: hand == {} ==> Consistent(hand)
    }

    constructor (limits: Limits, memory: MemoryBudget, ghost outside: set<nat>)
      requires memory.Valid() && memory.charges.Keys == outside
      ensures Valid() && this.memory == memory && lost.None?
      ensures forall s :: sizeOf(s) == SpecBytes(s, limits)
      ensures fresh(pool) && pool.slots == [] && pool.budget == 0 && pool.maxEntries == 256
      ensures remaps == [] && held == map[]
    {
      SizingOf(limits);
      this.sizeOf, this.memory := s => SpecBytes(s, limits), memory;
      pool := new ResourcePool<Spec, Native>(0, 256);
      remaps, lost := [], None;
      held, this.outside := map[], outside;
    }

    /** Allocated bytes are idle, waiting to be mapped, held by live owners, or not ours; nothing else is charged. */
    lemma Conservation()
      requires Valid()
      ensures memory.allocatedBytes
              == Bytes(pool.slots) + Bytes(Allocations(remaps)) + Total(HeldBytes(held))
                 + Total(Part(memory.charges, outside))
      ensures outside <= memory.charges.Keys
    {
      assert Consistent({});
      Worth(PlacesWith({}), memory.charges);
    }

    // ---------- destroying and returning ----------

    /** Destroyed native resources release their charges. */
    method Destroy(gone: seq<Allocation>)
      requires memory.Valid() && DistinctTickets(gone) && ChargedFor(gone, memory.charges)
      modifies memory`allocatedBytes, memory`charges, memory`totals
      ensures memory.Valid() && memory.charges == old(memory.charges) - Tickets(gone)
      ensures memory.allocatedBytes == old(memory.allocatedBytes) - Bytes(gone)
    {
      var i := 0;
      while i < |gone|
        invariant 0 <= i <= |gone| && memory.Valid()
        invariant memory.charges == old(memory.charges) - Tickets(gone[..i])
        invariant memory.allocatedBytes + Bytes(gone) == old(memory.allocatedBytes) + Bytes(gone[i..])
      {
        var a := gone[i];
        NextTicket(gone, i);
        memory.Release(Charged(a, a.payload.ticket, a.bytes));
        i := i + 1;
      }
      assert gone[|gone|..] == [] && gone[..|gone|] == gone;
    }

    /** Where an allocation went, and what else that changed. */
    ghost predicate Moved(a: Allocation, fate: Fate, slots: seq<Allocation>, waiting: seq<Remap>,
                          charges: map<nat, nat>)
      reads this, pool, memory
    {
      match fate
      case Destroyed => pool.slots == slots && remaps == waiting && memory.charges == charges - {a.payload.ticket}
      case Remapped => pool.slots == slots && remaps == waiting + [Remap(a, None)] && memory.charges == charges
      case Pooled =>
        var n := RoomAt(slots, a.bytes, pool.budget, pool.maxEntries);
        && pool.slots == slots[n..] + [a] && remaps == waiting
        && memory.charges == charges - Tickets(slots[..n])
    }

    /** Offer the allocation to the pool; whatever the pool drops is destroyed. */
    method PutBack(a: Allocation, ghost hand: set<nat>)
      requires a.payload.ticket in hand && Consistent(hand)
      requires memory.charges[a.payload.ticket] == a.bytes && ReadyForReuse(a, sizeOf)
      modifies memory`allocatedBytes, memory`charges, memory`totals, pool`slots, pool`bytes
      ensures Consistent(hand - {a.payload.ticket})
      ensures Moved(a, if a.bytes <= pool.budget then Pooled else Destroyed,
                    old(pool.slots), old(remaps), old(memory.charges))
    {
      if a.bytes > pool.budget {
        Discard(a, hand);   // the pool would refuse it
      } else {
        Returned(PlacesWith(hand), memory.charges, a, RoomAt(pool.slots, a.bytes, pool.budget, pool.maxEntries),
            sizeOf);
        var dropped := pool.Put(a);
        Destroy(dropped);
      }
    }

    /** Hand an allocation to a new owner. */
    method Adopt(a: Allocation, healthy: bool) returns (o: Owned)
      requires Consistent({a.payload.ticket}) && memory.charges[a.payload.ticket] == a.bytes && AsSpecified(a, sizeOf)
      modifies this`held
      ensures Valid() && a.payload.ticket !in old(held) && held == old(held)[a.payload.ticket := Holding(o, a)]
      ensures fresh(o) && o.home == this && o.allocation == Some(a)
      ensures o.healthy == healthy && o.strong == 1 && !o.tainted
    {
      o := new Owned(this, a, healthy);
      Handed(PlacesWith({a.payload.ticket}), memory.charges, Holding(o, a), sizeOf);
      held := held[a.payload.ticket := Holding(o, a)];
    }

    /** The last handle goes away, and gives its allocation up. */
    method GiveUp(o: Owned) returns (a: Allocation)
      requires Valid() && o.home == this && o.Owns()
      modifies o, this`held
      ensures o.allocation.None? && o.strong == 0 && o.healthy == old(o.healthy)
      ensures old(o.allocation) == Some(a) && held == old(held) - {a.payload.ticket}
      ensures Consistent({a.payload.ticket})
      ensures memory.charges[a.payload.ticket] == a.bytes && AsSpecified(a, sizeOf)
    {
      assert Consistent({});
      a := o.allocation.value;
      o.strong, o.allocation := 0, None;
      LetGo(PlacesWith({}), memory.charges, a.payload.ticket, sizeOf);
      held := held - {a.payload.ticket};
    }

    lemma KnowsSize(o: Owned)
      requires Valid() && o.home == this && o.Owns()
      ensures StagingSpec(o.allocation.value.key) ==>
                o.allocation.value.bytes == o.allocation.value.key.buffer.size <= U64_MAX
    {
      assert Consistent({}) && Holding(o, o.allocation.value) in held.Values;
    }

    /** The owner's staging buffer is no longer mapped. */
    method Unmap(o: Owned)
      requires Valid() && o.home == this && o.Owns()
      modifies o`allocation, this`held
      ensures Valid() && o.Owns()
      ensures var a := old(o.allocation.value);
              && o.allocation == Some(a.(payload := Native(a.payload.ticket, false)))
              && held == old(held)[a.payload.ticket := Holding(o, o.allocation.value)]
    {
      assert Consistent({}) && Holding(o, o.allocation.value) in held.Values;
      var a := o.allocation.value.(payload := Native(o.allocation.value.payload.ticket, false));
      Rewritten(PlacesWith({}), memory.charges, Holding(o, a), sizeOf);
      o.allocation := Some(a);
      held := held[a.payload.ticket := Holding(o, a)];
    }

    method Discard(a: Allocation, ghost hand: set<nat>)
      requires a.payload.ticket in hand && Consistent(hand) && memory.charges[a.payload.ticket] == a.bytes
      modifies memory`allocatedBytes, memory`charges, memory`totals
      ensures Consistent(hand - {a.payload.ticket})
      ensures Moved(a, Destroyed, old(pool.slots), old(remaps), old(memory.charges))
    {
      Discarded(PlacesWith(hand), memory.charges, a.payload.ticket);
      memory.Release(Charged(a, a.payload.ticket, a.bytes));
    }

    method AwaitMapping(a: Allocation)
      requires Consistent({a.payload.ticket}) && memory.charges[a.payload.ticket] == a.bytes
      requires AsSpecified(a, sizeOf) && StagingSpec(a.key)
      modifies this`remaps
      ensures Valid() && Moved(a, Remapped, old(pool.slots), old(remaps), old(memory.charges))
    {
      Awaited(PlacesWith({a.payload.ticket}), memory.charges, a);
      remaps := remaps + [Remap(a, None)];
      assert Allocations(remaps) == old(Allocations(remaps)) + [a];
    }

    /**
     What becomes of an allocation nobody holds: after a loss, unhealthy, made for reading back or too
     large to retain, it is destroyed; an unmapped staging buffer waits to be mapped, as the last to
     do so; anything else is the newest idle slot.
     */
    ghost predicate PutAway(a: Allocation, healthy: bool, slots: seq<Allocation>, waiting: seq<Remap>,
                            charges: map<nat, nat>)
      reads this, pool, memory
    {
      var t := a.payload.ticket;
      var readBack := a.key.BufferOf? && MapRead in a.key.buffer.usage;
      var unmapped := a.key.BufferOf? && a.key.buffer.usage == {MapWrite, CopySrc} && !a.payload.mapped;
      if lost.Some? || !healthy || readBack || a.bytes > pool.budget || pool.budget == 0 then
        t !in memory.charges && memory.charges == charges - {t} && pool.slots == slots && remaps == waiting
      else if unmapped then
        t in memory.charges && memory.charges == charges && pool.slots == slots && remaps == waiting + [Remap(a, None)]
      else
        t in memory.charges && pool.slots != [] && pool.slots[|pool.slots| - 1] == a && remaps == waiting
    }

    lemma Resting(a: Allocation, healthy: bool, slots: seq<Allocation>, waiting: seq<Remap>, charges: map<nat, nat>)
      requires Valid() && Moved(a, FateOf(a, healthy, pool.budget, lost.Some?), slots, waiting, charges)
      ensures PutAway(a, healthy, slots, waiting, charges)
    {
      assert Consistent({});
      FateMeans(a, healthy, pool.budget, lost.Some?);
      match FateOf(a, healthy, pool.budget, lost.Some?)
      case Destroyed =>
      case Remapped => assert Allocations(remaps)[|waiting|] == a;
      case Pooled => assert pool.slots[|pool.slots| - 1] == a;
    }

    /** An allocation nobody holds is destroyed, queued for mapping, or pooled. */
    method Return(a: Allocation, healthy: bool)
      requires Consistent({a.payload.ticket}) && memory.charges[a.payload.ticket] == a.bytes && AsSpecified(a, sizeOf)
      modifies this`remaps, pool`slots, pool`bytes, memory`allocatedBytes, memory`charges, memory`totals
      ensures Valid()
      ensures Moved(a, FateOf(a, healthy, pool.budget, lost.Some?), old(pool.slots), old(remaps), old(memory.charges))
    {
      assert {a.payload.ticket} - {a.payload.ticket} == {};
      if !healthy || !Reusable(a.key) || a.bytes > pool.budget || pool.budget == 0 || lost.Some? {
        Discard(a, {a.payload.ticket});
      } else if StagingSpec(a.key) && !a.payload.mapped {
        AwaitMapping(a);
      } else {
        PutBack(a, {a.payload.ticket});
      }
    }

    /** The last handle goes away. */
    method DropOwner(o: Owned)
      requires Valid() && o.home == this && o.Owns() && o.strong == 1
      modifies o, this`held, this`remaps, pool`slots, pool`bytes
      modifies memory`allocatedBytes, memory`charges, memory`totals
      ensures Valid() && o.allocation.None? && o.strong == 0 && o.healthy == old(o.healthy)
      ensures held == old(held) - {old(o.allocation.value).payload.ticket}
      ensures var a := old(o.allocation.value);
              && Moved(a, FateOf(a, old(o.healthy), pool.budget, lost.Some?), old(pool.slots), old(remaps),
                       old(memory.charges))
              && PutAway(a, old(o.healthy), old(pool.slots), old(remaps), old(memory.charges))
    {
      var a := GiveUp(o);
      Return(a, o.healthy);
      Resting(a, o.healthy, old(pool.slots), old(remaps), old(memory.charges));
    }

    // ---------- harvesting map callbacks ----------

    /** A map callback answers, or is dropped; the first answer counts. */
    method AnswerMapping(at: nat, outcome: Outcome)
      requires Valid() && at < |remaps|
      modifies this`remaps
      ensures Valid()
      ensures old(remaps)[at].outcome.Some? ==> remaps == old(remaps)
      ensures old(remaps)[at].outcome.None? ==>
                remaps == old(remaps)[at := Remap(old(remaps)[at].allocation, Some(outcome))]
    {
      assert Consistent({});
      ghost var waiting := Allocations(remaps);
      if remaps[at].outcome.None? {
        remaps := remaps[at := Remap(remaps[at].allocation, Some(outcome))];
      }
      assert Allocations(remaps) == waiting;
    }

    /** Move one answered remap into the hand. */
    method TakeAnswered(at: nat, ghost hand: set<nat>) returns (m: Remap)
      requires Consistent(hand) && at < |remaps|
      modifies this`remaps
      ensures m == old(remaps)[at] && remaps == SwapRemove(old(remaps), at)
      ensures var t := m.allocation.payload.ticket;
              t !in hand && Consistent(hand + {t}) && memory.charges[t] == m.allocation.bytes
      ensures AsSpecified(m.allocation, sizeOf) && StagingSpec(m.allocation.key)
    {
      Harvested(PlacesWith(hand), memory.charges, at, sizeOf);
      AllocationsSwap(remaps, at);
      m := remaps[at];
      remaps := SwapRemove(remaps, at);
    }

    /** Exactly these answered remaps are in hand. (Folded like `Valid`.) */
    ghost predicate Harvesting(done: seq<Remap>)
      reads this, memory, pool
    {
      && InHand(done, memory.charges, sizeOf)
      && forall hand {:trigger Consistent(hand)} :: hand == Tickets(Allocations(done)) ==> Consistent(hand)
    }

    method HarvestOne(at: nat, done: seq<Remap>) returns (m: Remap)
      requires Harvesting(done) && at < |remaps| && remaps[at].outcome.Some?
      modifies this`remaps
      ensures m == old(remaps)[at] && remaps == SwapRemove(old(remaps), at)
      ensures multiset(remaps) + multiset(done + [m]) == multiset(old(remaps)) + multiset(done)
      ensures Harvesting(done + [m])
    {
      assert Consistent(Tickets(Allocations(done)));
      SwapRemoveKeeps(remaps, at);
      m := TakeAnswered(at, Tickets(Allocations(done)));
      InHandPush(done, m, memory.charges, sizeOf);
    }

    /** Take every answered remap out of the list, and no other. */
    method TakeAllAnswered() returns (done: seq<Remap>)
      requires Valid()
      modifies this`remaps
      ensures Harvesting(done) && forall i :: 0 <= i < |done| ==> done[i].outcome.Some?
      ensures multiset(remaps) + multiset(done) == multiset(old(remaps))
      ensures forall i :: 0 <= i < |remaps| ==> remaps[i].outcome.None?
    {
      done := [];
      var at := 0;
      assert Consistent({}) && Tickets(Allocations(done)) == {};
      while at < |remaps|
        invariant at <= |remaps| && Harvesting(done)
        invariant multiset(remaps) + multiset(done) == multiset(old(remaps))
        invariant forall i :: 0 <= i < at ==> remaps[i].outcome.None?
        decreases |remaps| - at
      {
        if remaps[at].outcome.None? {
          at := at + 1;
        } else {
          var m := HarvestOne(at, done);
          done := done + [m];
        }
      }
    }

    /** An answered remap goes to the pool mapped, or is destroyed. */
    method SettleRemap(m: Remap, ghost hand: set<nat>) returns (ghost gone: set<nat>)
      requires m.allocation.payload.ticket in hand && Consistent(hand)
      requires memory.charges[m.allocation.payload.ticket] == m.allocation.bytes
      requires AsSpecified(m.allocation, sizeOf) && StagingSpec(m.allocation.key)
      modifies memory`allocatedBytes, memory`charges, memory`totals, pool`slots, pool`bytes
      ensures Consistent(hand - {m.allocation.payload.ticket}) && memory.charges == old(memory.charges) - gone
      ensures gone !! hand - {m.allocation.payload.ticket}
      ensures Moved(Mapped(m),
                    if Recovered(m, lost.Some?) && m.allocation.bytes <= pool.budget then Pooled else Destroyed,
                    old(pool.slots), remaps, old(memory.charges))
      ensures !Recovered(m, lost.Some?) ==> m.allocation.payload.ticket in gone
    {
      var a := Mapped(m);
      gone := {a.payload.ticket};
      if Recovered(m, lost.Some?) {
        if a.bytes <= pool.budget {
          gone := Tickets(pool.slots[..RoomAt(pool.slots, a.bytes, pool.budget, pool.maxEntries)]);
        }
        PutBack(a, hand);
      } else {
        Discard(a, hand);
      }
    }

    method SettleOne(done: seq<Remap>, i: nat) returns (ghost gone: set<nat>)
      requires i < |done| && Harvesting(done[i..])
      modifies memory`allocatedBytes, memory`charges, memory`totals, pool`slots, pool`bytes
      ensures Harvesting(done[i + 1..]) && memory.charges == old(memory.charges) - gone
      ensures !Recovered(done[i], lost.Some?) ==> done[i].allocation.payload.ticket in gone
      ensures Accepts(old(OnShelf()), Comeback(done[i], lost.Some?)) ==>
                OnShelf() == Shelved(old(OnShelf()), Listed(Comeback(done[i], lost.Some?)))
    {
      var a := Mapped(done[i]);
      if Fits(pool.slots, a.bytes, pool.budget, pool.maxEntries) {
        RoomForAll(pool.slots, a, pool.budget, pool.maxEntries);
      }
      ghost var hand := Tickets(Allocations(done[i..]));
      assert Consistent(hand);
      assert done[i..][0] == done[i] && Allocations(done[i..])[0] == done[i].allocation;
      gone := SettleRemap(done[i], hand);
      InHandNext(done, i, old(memory.charges), gone, sizeOf);
    }

    /** The first i of the harvest are settled: what is owed to them is gone, and the others are in hand. */
    ghost predicate Settled(done: seq<Remap>, i: nat, charges: map<nat, nat>, shelf: Shelf, gone: set<nat>)
      reads this, memory, pool
    {
      && i <= |done| && Harvesting(done[i..]) && memory.charges == charges - gone
      && FailedGone(done, i, lost.Some?, gone)
      && (RoomForComebacks(shelf, done) ==>
            OnShelf() == Shelved(shelf, Present(Comebacks(done, lost.Some?)[..i])))
    }

    method SettleNext(done: seq<Remap>, i: nat, ghost charges: map<nat, nat>, ghost shelf: Shelf, ghost gone: set<nat>)
      returns (ghost more: set<nat>)
      requires i < |done| && Settled(done, i, charges, shelf, gone)
      modifies memory`allocatedBytes, memory`charges, memory`totals, pool`slots, pool`bytes
      ensures Settled(done, i + 1, charges, shelf, more)
    {
      if RoomForComebacks(shelf, done) {
        ComebackNext(shelf, done, i);
      }
      ghost var now := SettleOne(done, i);
      Regrouped(charges, gone, now);
      more := gone + now;
    }

    lemma ShelfBound(done: seq<Remap>)
      requires Harvesting(done)
      ensures Bytes(pool.slots) <= pool.budget && |pool.slots| <= pool.maxEntries
    {
      assert Consistent(Tickets(Allocations(done)));
    }

    /** What failed to map is no longer charged; after a loss that is everything, and nothing comes back. */
    lemma HarvestGone(done: seq<Remap>, shelf: Shelf, gone: set<nat>, charges: map<nat, nat>)
      requires memory.charges == charges - gone && FailedGone(done, |done|, lost.Some?, gone)
      requires shelf.lost == lost.Some? && Bytes(shelf.idle) <= shelf.budget && |shelf.idle| <= shelf.maxEntries
      ensures lost.Some? ==> RoomForComebacks(shelf, done) && Present(Comebacks(done, true)) == []
      ensures forall i :: 0 <= i < |done| && (lost.Some? || done[i].outcome != Some(Ok(()))) ==>
                done[i].allocation.payload.ticket !in memory.charges
    {
      if lost.Some? {
        LostComebacks(shelf, done);
      }
      forall i | 0 <= i < |done| && (lost.Some? || done[i].outcome != Some(Ok(())))
        ensures !Recovered(done[i], lost.Some?)
      {
        ComebackMeans(done, lost.Some?, i);
      }
    }

    /** Harvest the map callbacks that have answered; the rest stays for the next call. */
    method Collect() returns (r: Result<nat, ResourceError>, ghost done: seq<Remap>, ghost gone: set<nat>)
      requires Valid()
      modifies this`remaps, memory`allocatedBytes, memory`charges, memory`totals, pool`slots, pool`bytes
      ensures Valid() && memory.charges == old(memory.charges) - gone
      ensures multiset(remaps) + multiset(done) == multiset(old(remaps))
      ensures forall i :: 0 <= i < |remaps| ==> remaps[i].outcome.None?
      ensures forall i :: 0 <= i < |done| ==> done[i].outcome.Some?
      ensures LastFailure(done).None? ==> r == Ok(|done|)
      ensures LastFailure(done).Some? ==> r == Err(Gpu(LastFailure(done).value))
      ensures FailedGone(done, |done|, lost.Some?, gone)
      ensures RoomForComebacks(old(OnShelf()), done) ==>
                pool.slots == old(pool.slots) + Present(Comebacks(done, lost.Some?))
      ensures lost.Some? ==> pool.slots == old(pool.slots)
      ensures forall i :: 0 <= i < |done| && (lost.Some? || done[i].outcome != Some(Ok(()))) ==>
                done[i].allocation.payload.ticket !in memory.charges
    {
      var completed := TakeAllAnswered();
      done, gone := completed, {};
      ShelfBound(completed);
      ghost var pending, shelf, notes := remaps, OnShelf(), Comebacks(done, lost.Some?);
      var failure: Option<WaitError> := None;
      var i := 0;
      assert completed[0..] == completed;
      while i < |completed|
        invariant Settled(completed, i, old(memory.charges), shelf, gone) && remaps == pending
        invariant failure == LastFailure(completed[..i])
      {
        gone := SettleNext(completed, i, old(memory.charges), shelf, gone);
        LastFailureNext(completed, i);
        if completed[i].outcome.Some? && completed[i].outcome.value.Err? {
          failure := Some(completed[i].outcome.value.error);
        }
        i := i + 1;
      }
      assert completed[..|completed|] == completed && notes[..|notes|] == notes
          && Tickets(Allocations(completed[|completed|..])) == {};
      assert Valid();
      HarvestGone(done, shelf, gone, old(memory.charges));
      if failure.Some? {
        r := Err(Gpu(failure.value));
      } else {
        var count: nat := |completed|;
        r := Ok(count);
      }
    }

    // ---------- batches ----------

    /** A filled slot is the one handle of the allocation noted for it. */
    ghost predicate Intact(slot: Option<Owned>, note: Option<Allocation>, well: bool)
      reads if slot.Some? then {slot.value} else {}
    {
      slot.Some? ==>
        && slot.value.home == this && slot.value.allocation == note
        && slot.value.strong == 1 && slot.value.healthy == well && !slot.value.tainted
    }

    /** The one handle of an allocation, as it leaves its batch. */
    ghost predicate NamesHandle(o: Owned, a: Allocation, well: bool)
      reads this, o
    {
      NamesSlot(held, Some(o), Some(a)) && Intact(Some(o), Some(a), well)
    }

    /** The slots from i on are still the handles of their allocations. */
    ghost predicate OwnsFrom(slots: seq<Option<Owned>>, notes: seq<Option<Allocation>>, well: seq<bool>, i: nat)
      reads this, Owners(slots)
    {
      && |slots| == |notes| == |well| && Apart(slots, notes) && Named(held, slots, notes, i)
      && forall j :: i <= j < |slots| ==> Intact(slots[j], notes[j], well[j])
    }

    /** The slots are the handles of distinct allocations, with the health noted. */
    ghost predicate OwnsAll(slots: seq<Option<Owned>>, notes: seq<Option<Allocation>>, well: seq<bool>)
      reads this, Owners(slots)
    {
      OwnsFrom(slots, notes, well, 0)
    }

    function OnShelf(): Shelf
      reads this, pool
    {
      Shelf(pool.slots, pool.budget, pool.maxEntries, lost.Some?)
    }

    /** Dropping one slot; what is unhealthy is destroyed, what fits goes back and evicts nothing. */
    method DropSlot(slot: Option<Owned>, ghost note: Option<Allocation>, ghost well: bool)
      returns (ghost gone: set<nat>)
      requires Valid() && NamesSlot(held, slot, note) && Intact(slot, note, well)
      modifies if slot.Some? then {slot.value} else {}
      modifies this`held, this`remaps, pool`slots, pool`bytes
      modifies memory`allocatedBytes, memory`charges, memory`totals
      ensures Valid() && held == Less(old(held), note) && memory.charges == old(memory.charges) - gone
      ensures note.Some? && !well ==> note.value.payload.ticket in gone
      ensures Accepts(old(OnShelf()), Healthy(note, well)) ==>
                && OnShelf() == Shelved(old(OnShelf()), Listed(Healthy(note, well))) && remaps == old(remaps)
                && (well ==> gone == {})
    {
      gone := {};
      if slot.Some? {
        ghost var a := note.value;
        gone := match FateOf(a, well, pool.budget, lost.Some?)
          case Destroyed => {a.payload.ticket}
          case Remapped => {}
          case Pooled => Tickets(pool.slots[..RoomAt(pool.slots, a.bytes, pool.budget, pool.maxEntries)]);
        if Fits(pool.slots, a.bytes, pool.budget, pool.maxEntries) {
          RoomForAll(pool.slots, a, pool.budget, pool.maxEntries);
        }
        DropOwner(slot.value);
      }
    }

    method DropAt(slots: seq<Option<Owned>>, ghost notes: seq<Option<Allocation>>, ghost well: seq<bool>, i: nat)
      returns (ghost gone: set<nat>)
      requires Valid() && OwnsFrom(slots, notes, well, i) && i < |slots|
      modifies Owners(slots), this`held, this`remaps, pool`slots, pool`bytes
      modifies memory`allocatedBytes, memory`charges, memory`totals
      ensures Valid() && OwnsFrom(slots, notes, well, i + 1)
      ensures held == Less(old(held), notes[i]) && memory.charges == old(memory.charges) - gone
      ensures notes[i].Some? && !well[i] ==> notes[i].value.payload.ticket in gone
      ensures Accepts(old(OnShelf()), Healthy(notes[i], well[i])) ==>
                && OnShelf() == Shelved(old(OnShelf()), Listed(Healthy(notes[i], well[i]))) && remaps == old(remaps)
                && (well[i] ==> gone == {})
    {
      NamedNext(held, slots, notes, i);
      gone := DropSlot(slots[i], notes[i], well[i]);
    }

    /** The slots before i are given up; with room, what was healthy is back on the shelf, nothing evicted. */
    ghost predicate GivenUp(slots: seq<Option<Owned>>, notes: seq<Option<Allocation>>, well: seq<bool>, i: nat,
                            holders: map<nat, Holding>, charges: map<nat, nat>, shelf: Shelf, waiting: seq<Remap>,
                            gone: set<nat>)
      reads this, memory, pool, Owners(slots)
    {
      && i <= |slots| && OwnsFrom(slots, notes, well, i)
      && held == Without(holders, notes, i) && memory.charges == charges - gone && AllGone(notes, well, i, gone)
      && (Returnable(shelf, AllHealthy(notes, well)) ==>
            && OnShelf() == Shelved(shelf, Present(AllHealthy(notes, well)[..i])) && remaps == waiting
            && ((forall j :: 0 <= j < i ==> well[j]) ==> gone == {}))
    }

    method DropNext(slots: seq<Option<Owned>>, ghost notes: seq<Option<Allocation>>, ghost well: seq<bool>, i: nat,
                    ghost holders: map<nat, Holding>, ghost charges: map<nat, nat>, ghost shelf: Shelf,
                    ghost waiting: seq<Remap>, ghost gone: set<nat>)
      returns (ghost more: set<nat>)
      requires Valid() && i < |slots| && GivenUp(slots, notes, well, i, holders, charges, shelf, waiting, gone)
      modifies Owners(slots), this`held, this`remaps, pool`slots, pool`bytes
      modifies memory`allocatedBytes, memory`charges, memory`totals
      ensures Valid() && GivenUp(slots, notes, well, i + 1, holders, charges, shelf, waiting, more)
    {
      if Returnable(shelf, AllHealthy(notes, well)) {
        AcceptsNext(shelf, AllHealthy(notes, well), i);
      }
      ghost var now := DropAt(slots, notes, well, i);
      Regrouped(charges, gone, now);
      GoneGrows(notes, well, i, gone, now);
      more := gone + now;
    }

    /**
     Dropping a batch gives every filled slot up. What is unhealthy is destroyed; what is healthy,
     if there is room for it, goes back in order and evicts nothing.
     */
    method DropBatch(slots: seq<Option<Owned>>, ghost notes: seq<Option<Allocation>>, ghost well: seq<bool>)
      returns (ghost gone: set<nat>)
      requires Valid() && OwnsAll(slots, notes, well)
      modifies Owners(slots), this`held, this`remaps, pool`slots, pool`bytes
      modifies memory`allocatedBytes, memory`charges, memory`totals
      ensures Valid() && held == old(held) - Tickets(Present(notes)) && memory.charges == old(memory.charges) - gone
      ensures AllGone(notes, well, |notes|, gone)
      ensures Returnable(old(OnShelf()), AllHealthy(notes, well)) ==>
                && pool.slots == old(pool.slots) + Present(AllHealthy(notes, well)) && remaps == old(remaps)
                && ((forall i :: 0 <= i < |well| ==> well[i]) ==> gone == {})
    {
      gone := {};
      var i := 0;
      ghost var shelf, healthy := OnShelf(), AllHealthy(notes, well);
      while i < |slots|
        invariant Valid()
        invariant GivenUp(slots, notes, well, i, old(held), old(memory.charges), shelf, old(remaps), gone)
      {
        gone := DropNext(slots, notes, well, i, old(held), old(memory.charges), shelf, old(remaps), gone);
        i := i + 1;
      }
      WithoutIs(old(held), notes, |slots|);
      assert notes[..|slots|] == notes && healthy[..|slots|] == healthy;
    }

    // ---------- preparing a plan ----------

    /** Take the latest idle allocation of a key out of the pool, into the hand. */
    method TakeKey(key: Spec) returns (taken: Option<Allocation>)
      requires Valid()
      modifies pool`slots, pool`bytes
      ensures var at := LatestAt(old(pool.slots), key);
              && (at.None? ==> taken.None? && pool.slots == old(pool.slots))
              && (at.Some? ==> taken == Some(old(pool.slots)[at.value])
                               && pool.slots == old(pool.slots)[..at.value] + old(pool.slots)[at.value + 1..])
      ensures taken.None? ==> Valid()
      ensures taken.Some? ==>
                && taken.value.key == key && ReadyForReuse(taken.value, sizeOf) && taken.value.bytes <= pool.budget
                && Consistent({taken.value.payload.ticket})
                && memory.charges[taken.value.payload.ticket] == taken.value.bytes
    {
      assert Consistent({});
      ghost var p, at := PlacesWith({}), LatestAt(pool.slots, key);
      taken := pool.Take(key);
      if at.Some? {
        IntoHand(p, PlacesWith({taken.value.payload.ticket}), memory.charges, at.value, sizeOf);
      }
    }

    /** Take the latest idle match of a descriptor; a read-back buffer has none. */
    method TakeIdle(spec: Spec) returns (taken: Option<Allocation>)
      requires Valid() && lost.None?
      modifies pool`slots, pool`bytes
      ensures var at := MatchAt(old(pool.slots), spec);
              && (at.None? ==> taken.None? && pool.slots == old(pool.slots))
              && (at.Some? ==> taken == Some(old(pool.slots)[at.value])
                               && pool.slots == old(pool.slots)[..at.value] + old(pool.slots)[at.value + 1..])
      ensures taken.None? ==> Valid()
      ensures taken.Some? ==>
                && taken.value.key == Normalized(spec) && FateOf(taken.value, true, pool.budget, false) == Pooled
                && Consistent({taken.value.payload.ticket})
                && memory.charges[taken.value.payload.ticket] == taken.value.bytes
                && AsSpecified(taken.value, sizeOf)
    {
      taken := None;
      if Reusable(Normalized(spec)) {
        taken := TakeKey(Normalized(spec));
      }
    }

    /** Check one descriptor's latest idle match out of the pool and give it an owner. */
    method CheckOutSlot(spec: Spec, ghost found: seq<Option<Allocation>>)
      returns (slot: Option<Owned>, ghost note: Option<Allocation>)
      requires Valid() && lost.None?
      modifies pool`slots, pool`bytes, this`held
      ensures Valid()
      ensures CheckedOut(pool.slots, found + [note]) == CheckOne(CheckedOut(old(pool.slots), found), spec)
      ensures slot.Some? <==> note.Some?
      ensures held == More(old(held), slot, note)
      ensures slot.Some? ==> fresh(slot.value) && Ticket(note) !in old(held)
      ensures Intact(slot, note, true)
      ensures note.Some? ==> FateOf(note.value, true, pool.budget, false) == Pooled && Fills(note, spec, sizeOf)
    {
      var taken := TakeIdle(spec);
      slot, note := None, taken;
      if taken.Some? {
        var o := Adopt(taken.value, true);
        slot := Some(o);
      }
    }

    /** The idle matches of the first descriptors of a plan, in owners' hands but ready to go back. */
    ghost predicate Gathered(idle: seq<Allocation>, others: map<nat, Holding>, specs: seq<Spec>,
                             slots: seq<Option<Owned>>, found: seq<Option<Allocation>>, well: seq<bool>)
      reads this, pool, Owners(slots)
    {
      && GatheredOn(idle, others, CheckedOut(pool.slots, found), held, specs, slots, well, sizeOf, pool.budget)
      && OwnsAll(slots, found, well) && lost.None?
    }

    method Gather(specs: seq<Spec>, ghost idle: seq<Allocation>, ghost others: map<nat, Holding>,
                  slots: seq<Option<Owned>>, ghost found: seq<Option<Allocation>>, ghost well: seq<bool>)
      returns (slot: Option<Owned>, bytes: nat, ghost note: Option<Allocation>)
      requires Valid() && Gathered(idle, others, specs, slots, found, well) && |slots| < |specs|
      modifies pool`slots, pool`bytes, this`held
      ensures Valid() && Gathered(idle, others, specs, slots + [slot], found + [note], well + [true])
      ensures forall o :: o in Owners(slots + [slot]) ==> o in Owners(slots) || fresh(o)
      ensures Missing(found + [note], specs, sizeOf) == Missing(found, specs, sizeOf) + bytes
    {
      slot, note := CheckOutSlot(specs[|slots|], found);
      HeldBesidePush(others, old(held), slots, found, slot, note);
      MatchedPush(idle, CheckedOut(old(pool.slots), found), specs, sizeOf, pool.budget, note,
                  CheckedOut(pool.slots, found + [note]));
      MissingPush(found, note, specs, sizeOf);
      bytes := if slot.None? then Size(specs[|slots|], sizeOf) else 0;
      OwnersPush(slots, slot);
    }

    /** Check out matches for the whole plan, unless the missing bytes overflow on the way. */
    method CheckOutPlan(specs: seq<Spec>)
      returns (missing: Option<nat>, slots: seq<Option<Owned>>, ghost found: seq<Option<Allocation>>,
               ghost well: seq<bool>)
      requires Valid() && lost.None?
      modifies pool`slots, pool`bytes, this`held
      ensures Valid() && Gathered(old(pool.slots), old(held), specs, slots, found, well)
      ensures forall o :: o in Owners(slots) ==> fresh(o)
      ensures match missing
              case Some(m) => |slots| == |specs| && m == Missing(found, specs, sizeOf) <= U64_MAX
              case None => Missing(CheckOut(old(pool.slots), specs, |specs|).found, specs, sizeOf) > U64_MAX
    {
      var total := 0;
      slots, found, well := [], [], [];
      GatherNone(pool.slots, held, specs, sizeOf, pool.budget);
      while |slots| < |specs| && total <= U64_MAX
        invariant |slots| <= |specs|
        invariant Valid() && Gathered(old(pool.slots), old(held), specs, slots, found, well)
        invariant forall o :: o in Owners(slots) ==> fresh(o)
        invariant total == Missing(found, specs, sizeOf)
        decreases |specs| - |slots|
      {
        var slot, bytes, note := Gather(specs, old(pool.slots), old(held), slots, found, well);
        slots, found, well := slots + [slot], found + [note], well + [true];
        total := total + bytes;
      }
      MatchedMisses(old(pool.slots), CheckedOut(pool.slots, found), specs, sizeOf, pool.budget);
      missing := if total > U64_MAX then None else Some(total);
    }

    /** Evict the shortest oldest prefix of at least so many idle bytes, or everything. */
    method EvictIdle(wanted: nat)
      requires Valid()
      modifies pool`slots, pool`bytes, memory`allocatedBytes, memory`charges, memory`totals
      ensures Valid()
      ensures var n := FreeAt(old(pool.slots), wanted);
              && pool.slots == old(pool.slots)[n..]
              && memory.charges == old(memory.charges) - Tickets(old(pool.slots)[..n])
              && memory.allocatedBytes == old(memory.allocatedBytes) - Bytes(old(pool.slots)[..n])
    {
      assert Consistent({});
      Shrunk(PlacesWith({}), memory.charges, FreeAt(pool.slots, wanted), sizeOf);
      var freed, dropped := pool.Evict(wanted);
      Destroy(dropped);
    }

    /** The host's idle policy; lowering it evicts the shortest oldest prefix over the new budget. */
    method SetIdleBudget(limit: nat)
      requires Valid() && limit <= U64_MAX
      modifies pool, memory`allocatedBytes, memory`charges, memory`totals
      ensures Valid() && pool.budget == limit
      ensures var n := OverAt(old(pool.slots), limit);
              && pool.slots == old(pool.slots)[n..]
              && memory.charges == old(memory.charges) - Tickets(old(pool.slots)[..n])
    {
      assert Consistent({});
      Shrunk(PlacesWith({}), memory.charges, OverAt(pool.slots, limit), sizeOf);
      var dropped := pool.SetBudget(limit);
      Destroy(dropped);
    }

    method Reserve(missing: nat) returns (r: Result<Reservation, AdmissionError>)
      requires Valid() && missing <= U64_MAX
      modifies memory`reservedBytes, memory`peak, memory`nextTicket, memory`reservations, memory`totals
      ensures Valid()
      ensures var refusal := Refusal(missing, old(memory.Used()), memory.limit, 0);
              && (r.Ok? <==> refusal.None?)
              && (r.Err? ==> r.error == refusal.value && memory.reservations == old(memory.reservations))
      ensures memory.Used() == old(memory.Used()) + if r.Ok? then missing else 0
      ensures r.Ok? ==> Granted(r.value, missing, old(memory.reservations)) && fresh(r.value)
    {
      assert Consistent({});
      r := memory.Reserve(missing);
    }

    /** A reservation of so many bytes, next to the ones already there. */
    ghost predicate Granted(r: Reservation, bytes: nat, others: map<nat, nat>)
      reads r, memory
    {
      && r.budget == memory && r.remaining == bytes && r.ticket !in others
      && memory.reservations == others[r.ticket := bytes]
    }

    /** What a reservation under pressure answers, and which prefix of the idle allocations it cost. */
    ghost predicate Admitted(r: Result<Reservation, AdmissionError>, missing: nat, used: nat, idle: seq<Allocation>,
                             charges: map<nat, nat>, others: map<nat, nat>)
      reads this, pool, memory, if r.Ok? then {r.value} else {}
    {
      var refusal := Refusal(missing, used, memory.limit, Bytes(idle));
      var n := FreeAt(idle, Pressure(missing, used, memory.limit));
      && (r.Ok? <==> refusal.None?)
      && (r.Err? ==> r.error == refusal.value && memory.reservations == others)
      && pool.slots == idle[n..] && memory.charges == charges - Tickets(idle[..n])
      && memory.Used() == used - Bytes(idle[..n]) + (if r.Ok? then missing else 0)
      && (r.Err? ==> n == if r.error.Capacity? then |idle| else 0)
      && (r.Ok? ==> Granted(r.value, missing, others))
    }

    /** Make exactly the room that is missing, and try once more. */
    method Squeeze(missing: nat) returns (r: Result<Reservation, AdmissionError>)
      requires Valid() && missing <= U64_MAX && Pressure(missing, memory.Used(), memory.limit) > 0
      modifies pool`slots, pool`bytes, memory`reservedBytes, memory`allocatedBytes, memory`peak, memory`nextTicket
      modifies memory`reservations, memory`charges, memory`totals
      ensures Valid() && (r.Ok? ==> fresh(r.value))
      ensures Admitted(r, missing, old(memory.Used()), old(pool.slots), old(memory.charges), old(memory.reservations))
    {
      ghost var idle, used := pool.slots, memory.Used();
      EvictIdle(Pressure(missing, memory.Used(), memory.limit));
      Relief(idle, missing, used, memory.limit);
      NoRelief(idle, missing, used, memory.limit);
      r := Reserve(missing);
    }

    /** Reserve what the plan misses, evicting only as much idle capacity as that takes. */
    method Admit(missing: nat) returns (r: Result<Reservation, AdmissionError>)
      requires Valid() && missing <= U64_MAX
      modifies pool`slots, pool`bytes, memory`reservedBytes, memory`allocatedBytes, memory`peak, memory`nextTicket
      modifies memory`reservations, memory`charges, memory`totals
      ensures Valid() && (r.Ok? ==> fresh(r.value))
      ensures Admitted(r, missing, old(memory.Used()), old(pool.slots), old(memory.charges), old(memory.reservations))
    {
      r := Reserve(missing);
      assert Bytes(pool.slots[..0]) == 0 && Tickets(pool.slots[..0]) == {};
      if r.Err? && r.error.Capacity? {
        r := Squeeze(missing);
      }
    }

    /** Create a native resource and charge it; the plan reserved it, so that cannot fail. */
    method Create(reservation: Reservation, key: Spec, ghost others: map<nat, nat>) returns (a: Allocation)
      requires Valid() && Granted(reservation, reservation.remaining, others)
      requires sizeOf(key).Ok? && sizeOf(key).value <= reservation.remaining
      modifies reservation`remaining, memory`reservedBytes, memory`allocatedBytes, memory`nextTicket
      modifies memory`reservations, memory`charges, memory`totals
      ensures a.key == key && sizeOf(key) == Ok(a.bytes) && a.payload.mapped == StagingSpec(key)
      ensures Consistent({a.payload.ticket}) && a.payload.ticket !in old(memory.charges)
      ensures memory.charges == old(memory.charges)[a.payload.ticket := a.bytes]
      ensures Granted(reservation, old(reservation.remaining) - sizeOf(key).value, others)
      ensures memory.Used() == old(memory.Used())
    {
      assert Consistent({});
      var bytes := Size(key, sizeOf);
      Born(PlacesWith({}), memory.charges, memory.nextTicket, bytes);
      var charged := reservation.Charge(key, bytes);
      assert charged.Ok?;
      a := Resource(key, bytes, Native(charged.value.ticket, StagingSpec(key)));
      assert {} + {a.payload.ticket} == {a.payload.ticket};
    }

    /** Fill one empty slot; its owner is not healthy before the scopes accept. */
    method CreateSlot(reservation: Reservation, spec: Spec, ghost others: map<nat, nat>)
      returns (o: Owned, ghost a: Allocation)
      requires Valid() && Granted(reservation, reservation.remaining, others)
      requires sizeOf(spec).Ok? && sizeOf(spec).value <= reservation.remaining
      modifies this`held, reservation`remaining, memory`reservedBytes, memory`allocatedBytes, memory`nextTicket
      modifies memory`reservations, memory`charges, memory`totals
      ensures Valid() && Granted(reservation, old(reservation.remaining) - sizeOf(spec).value, others)
      ensures Fills(Some(a), spec, sizeOf) && a.payload.ticket !in old(held) && a.payload.ticket !in old(memory.charges)
      ensures memory.charges == old(memory.charges)[a.payload.ticket := a.bytes]
      ensures memory.Used() == old(memory.Used())
      ensures fresh(o) && Intact(Some(o), Some(a), false) && held == More(old(held), Some(o), Some(a))
    {
      var created := Create(reservation, Normalized(spec), others);
      o := Adopt(created, false);
      a := created;
    }

    /** The first i slots are filled; what was found is where it was, and what was created is not healthy. */
    ghost predicate Filled(found: seq<Option<Allocation>>, specs: seq<Spec>, i: nat,
                           slots: seq<Option<Owned>>, notes: seq<Option<Allocation>>, well: seq<bool>)
      reads this, Owners(slots)
    {
      && OwnsAll(slots, notes, well) && i <= |slots| == |found| == |specs|
      && (forall j :: 0 <= j < i ==> Fills(notes[j], specs[j], sizeOf))
      && (forall j :: 0 <= j < |slots| ==>
            if found[j].None? && j < i then !well[j] else well[j] && notes[j] == found[j])
    }

    /** Fill slot i, unless a match is already there. */
    method FillSlot(reservation: Reservation, specs: seq<Spec>, i: nat, slots0: seq<Option<Owned>>,
                    ghost found: seq<Option<Allocation>>, ghost notes0: seq<Option<Allocation>>, ghost well0: seq<bool>,
                    ghost others: map<nat, nat>)
      returns (slots: seq<Option<Owned>>, ghost notes: seq<Option<Allocation>>, ghost well: seq<bool>)
      requires Valid() && i < |specs| && Filled(found, specs, i, slots0, notes0, well0)
      requires sizeOf(specs[i]).Ok? && (found[i].Some? ==> Fills(found[i], specs[i], sizeOf))
      requires Granted(reservation, reservation.remaining, others)
      requires found[i].None? ==> sizeOf(specs[i]).value <= reservation.remaining
      modifies this`held, reservation`remaining, memory`reservedBytes, memory`allocatedBytes, memory`nextTicket
      modifies memory`reservations, memory`charges, memory`totals
      ensures Valid() && Filled(found, specs, i + 1, slots, notes, well)
      ensures Granted(reservation, reservation.remaining, others) && memory.Used() == old(memory.Used())
      ensures reservation.remaining + (if found[i].None? then Size(specs[i], sizeOf) else 0)
                == old(reservation.remaining)
      ensures forall o :: o in Owners(slots) ==> o in Owners(slots0) || fresh(o)
      ensures held - Tickets(Present(notes)) == old(held) - Tickets(Present(notes0))
      ensures Extends(old(memory.charges), memory.charges)
    {
      slots, notes, well := slots0, notes0, well0;
      assert NamesSlot(held, slots[i], notes[i]);
      if slots[i].None? {
        var o, a := CreateSlot(reservation, specs[i], others);
        NamedSet(old(held), slots0, notes0, i, Some(o), Some(a));
        HeldSet(old(held), notes0, i, Some(o), Some(a));
        OwnersSet(slots0, i, o);
        slots, notes, well := slots[i := Some(o)], notes[i := Some(a)], well[i := false];
      }
    }

    /** Create every miss, charging the reservation with exactly what it was made for. */
    method CreateMisses(reservation: Reservation, specs: seq<Spec>, slots0: seq<Option<Owned>>,
                        ghost found: seq<Option<Allocation>>, ghost well0: seq<bool>, ghost others: map<nat, nat>)
      returns (slots: seq<Option<Owned>>, ghost notes: seq<Option<Allocation>>, ghost well: seq<bool>)
      requires Valid() && Filled(found, specs, 0, slots0, found, well0)
      requires forall j :: 0 <= j < |specs| ==>
                sizeOf(specs[j]).Ok? && (found[j].Some? ==> Fills(found[j], specs[j], sizeOf))
      requires Granted(reservation, Missing(found, specs, sizeOf), others)
      modifies this`held, reservation`remaining, memory`reservedBytes, memory`allocatedBytes, memory`nextTicket
      modifies memory`reservations, memory`charges, memory`totals
      ensures Valid() && Filled(found, specs, |specs|, slots, notes, well)
      ensures Granted(reservation, 0, others) && memory.Used() == old(memory.Used())
      ensures forall o :: o in Owners(slots) ==> o in Owners(slots0) || fresh(o)
      ensures held - Tickets(Present(notes)) == old(held) - Tickets(Present(found))
      ensures Extends(old(memory.charges), memory.charges)
    {
      slots, notes, well := slots0, found, well0;
      var i := 0;
      while i < |specs|
        invariant i <= |specs| && Valid() && Filled(found, specs, i, slots, notes, well)
        invariant reservation.remaining + Missing(found[..i], specs, sizeOf) == Missing(found, specs, sizeOf)
        invariant Granted(reservation, reservation.remaining, others) && memory.Used() == old(memory.Used())
        invariant forall o :: o in Owners(slots) ==> o in Owners(slots0) || fresh(o)
        invariant held - Tickets(Present(notes)) == old(held) - Tickets(Present(found))
        invariant Extends(old(memory.charges), memory.charges)
      {
        MissingNext(found, specs, sizeOf, i);
        slots, notes, well := FillSlot(reservation, specs, i, slots, found, notes, well, others);
        i := i + 1;
      }
      assert found[..|specs|] == found;
    }

    method CheckDescriptors(specs: seq<Spec>) returns (bad: Option<ResourceError>)
      ensures bad == FirstBad(specs, sizeOf, |specs|)
    {
      for i := 0 to |specs|
        invariant FirstBad(specs, sizeOf, i).None?
      {
        FirstBadSticks(specs, sizeOf, i + 1, |specs|);
        if sizeOf(specs[i]).Err? {
          return Some(sizeOf(specs[i]).error);
        }
      }
      bad := None;
    }

    /** What a refusal leaves behind: the checked-out matches are back and `n` others are gone. */
    ghost predicate Refused(specs: seq<Spec>, idle: seq<Allocation>, others: map<nat, Holding>,
                            charges: map<nat, nat>, n: nat)
      reads this, pool, memory
    {
      var c := CheckOut(idle, specs, |specs|);
      && held == others && n <= |c.rest| && memory.charges == charges - Tickets(c.rest[..n])
      && (n == 0 ==> multiset(pool.slots) == multiset(idle))
      && (n > 0 ==> pool.slots == c.rest[n..] + Present(c.found))
    }

    /** A refused plan gives its matches back: they fit where they came from, and evict nothing. */
    method RollBack(specs: seq<Spec>, slots: seq<Option<Owned>>, ghost found: seq<Option<Allocation>>,
                    ghost well: seq<bool>, ghost idle: seq<Allocation>, ghost others: map<nat, Holding>,
                    ghost evicted: nat)
      requires Valid() && OwnsAll(slots, found, well) && |slots| <= |specs| && lost.None?
      requires var c := CheckOut(idle, specs, |slots|);
               c.found == found && evicted <= |c.rest| && pool.slots == c.rest[evicted..]
      requires AllPooled(found, pool.budget) && held - Tickets(Present(found)) == others
      requires forall i :: 0 <= i < |well| ==> well[i]
      requires Bytes(idle) <= pool.budget && |idle| <= pool.maxEntries
      modifies Owners(slots), this`held, this`remaps, pool`slots, pool`bytes
      modifies memory`allocatedBytes, memory`charges, memory`totals
      ensures Valid() && remaps == old(remaps)
      ensures held == others && memory.charges == old(memory.charges)
      ensures pool.slots == CheckOut(idle, specs, |slots|).rest[evicted..] + Present(found)
      ensures evicted == 0 ==> multiset(pool.slots) == multiset(idle)
    {
      WayBack(OnShelf(), idle, specs, |slots|, well, evicted);
      var gone := DropBatch(slots, found, well);
    }

    method RollBackAll(specs: seq<Spec>, slots: seq<Option<Owned>>, ghost found: seq<Option<Allocation>>,
                       ghost well: seq<bool>, ghost idle: seq<Allocation>, ghost others: map<nat, Holding>)
      requires Valid() && Gathered(idle, others, specs, slots, found, well)
      requires Bytes(idle) <= pool.budget && |idle| <= pool.maxEntries
      modifies Owners(slots), this`held, this`remaps, pool`slots, pool`bytes
      modifies memory`allocatedBytes, memory`charges, memory`totals
      ensures Valid() && remaps == old(remaps) && Refused(specs, idle, others, old(memory.charges), 0)
    {
      RollBack(specs, slots, found, well, idle, others, 0);
    }

    /** A plan too large for 64 bits gives back whatever it had checked out. */
    method GiveBack(specs: seq<Spec>, slots: seq<Option<Owned>>, ghost found: seq<Option<Allocation>>,
                    ghost well: seq<bool>, ghost idle: seq<Allocation>, ghost others: map<nat, Holding>)
      returns (r: Result<Batch, ResourceError>)
      requires Valid() && Gathered(idle, others, specs, slots, found, well)
      requires Missing(CheckOut(idle, specs, |specs|).found, specs, sizeOf) > U64_MAX
      requires Bytes(idle) <= pool.budget && |idle| <= pool.maxEntries
      modifies Owners(slots), this`held, this`remaps, pool`slots, pool`bytes
      modifies memory`allocatedBytes, memory`charges, memory`totals
      ensures Valid() && remaps == old(remaps) && r == Err(ByteOverflow)
      ensures Concluded(r, specs, idle, others, old(memory.charges), old(memory.Used()), 0)
    {
      ghost var used, charges := memory.Used(), memory.charges;
      TooLarge(specs, idle, used);
      RollBackAll(specs, slots, found, well, idle, others);
      r := Err(ByteOverflow);
      Conclude(r, specs, idle, others, charges, used, 0);
    }

    method DropReservation(reservation: Reservation, ghost others: map<nat, nat>)
      requires Valid() && Granted(reservation, reservation.remaining, others)
      modifies memory`reservedBytes, memory`reservations, memory`totals
      ensures Valid() && memory.reservations == others
      ensures memory.Used() == old(memory.Used()) - reservation.remaining
    {
      assert Consistent({});
      reservation.Drop();
    }

    /** Create the misses of an admitted plan; the reservation ends with nothing left. */
    method Build(reservation: Reservation, specs: seq<Spec>, slots: seq<Option<Owned>>,
                 ghost found: seq<Option<Allocation>>, ghost well: seq<bool>, ghost others: map<nat, nat>)
      returns (batch: Batch)
      requires Valid() && Filled(found, specs, 0, slots, found, well) && AllFill(found, specs, sizeOf)
      requires FirstBad(specs, sizeOf, |specs|).None?
      requires Granted(reservation, Missing(found, specs, sizeOf), others)
      modifies this`held, reservation`remaining, memory`reservedBytes, memory`allocatedBytes, memory`nextTicket
      modifies memory`reservations, memory`charges, memory`totals
      ensures Valid() && fresh(batch) && batch.home == this
      ensures Filled(found, specs, |specs|, batch.slots, batch.notes, batch.well)
      ensures memory.reservations == others && memory.Used() == old(memory.Used())
      ensures forall o :: o in Owners(batch.slots) ==> o in Owners(slots) || fresh(o)
      ensures held - Tickets(Present(batch.notes)) == old(held) - Tickets(Present(found))
      ensures Extends(old(memory.charges), memory.charges)
    {
      var filled, notes, done := CreateMisses(reservation, specs, slots, found, well, others);
      DropReservation(reservation, others);
      batch := new Batch(this, filled, notes, done);
    }

    /** The matches of the plan are in owners' hands, and so many others have been evicted. */
    ghost predicate Squeezed(idle: seq<Allocation>, others: map<nat, Holding>, specs: seq<Spec>,
                             slots: seq<Option<Owned>>, found: seq<Option<Allocation>>, well: seq<bool>, evicted: nat)
      reads this, pool, Owners(slots)
    {
      var c := CheckOut(idle, specs, |specs|);
      && |slots| == |specs| && OwnsAll(slots, found, well) && lost.None? && c.found == found
      && (forall i :: 0 <= i < |slots| ==> well[i]) && AllFill(found, specs, sizeOf)
      && AllPooled(found, pool.budget) && held - Tickets(Present(found)) == others
      && evicted <= |c.rest| && pool.slots == c.rest[evicted..]
    }

    /** Reserve what the gathered plan misses. */
    method AdmitPlan(specs: seq<Spec>, missing: nat, slots: seq<Option<Owned>>, ghost found: seq<Option<Allocation>>,
                     ghost well: seq<bool>, ghost idle: seq<Allocation>, ghost others: map<nat, Holding>)
      returns (r: Result<Reservation, ResourceError>, ghost n: nat)
      requires Valid() && Gathered(idle, others, specs, slots, found, well) && |slots| == |specs|
      requires missing == Missing(found, specs, sizeOf) <= U64_MAX
      modifies pool`slots, pool`bytes, memory`reservedBytes, memory`allocatedBytes, memory`peak, memory`nextTicket
      modifies memory`reservations, memory`charges, memory`totals
      ensures Valid() && Squeezed(idle, others, specs, slots, found, well, n)
      ensures Answers(ErrorOf(r), specs, idle, old(memory.Used()), memory.limit, n)
      ensures r.Ok? ==> Granted(r.value, missing, old(memory.reservations)) && fresh(r.value)
      ensures r.Err? ==> memory.reservations == old(memory.reservations)
      ensures var rest := CheckOut(idle, specs, |specs|).rest;
              && memory.charges == old(memory.charges) - Tickets(rest[..n])
              && memory.Used() == old(memory.Used()) - Bytes(rest[..n]) + (if r.Ok? then missing else 0)
    {
      n := FreeAt(pool.slots, Pressure(missing, memory.Used(), memory.limit));
      var admitted := Admit(missing);
      r := if admitted.Ok? then Ok(admitted.value) else Err(Admission(admitted.error));
    }

    /** The answer is the one the plan deserves, and eviction stopped where that answer was settled. */
    ghost predicate Answers(error: Option<ResourceError>, specs: seq<Spec>, idle: seq<Allocation>, used: nat,
                            limit: Option<nat>, n: nat)
    {
      var c := CheckOut(idle, specs, |specs|);
      && error == Shortage(c, specs, sizeOf, used, limit)
      && n == FreeAt(c.rest, Pressure(Missing(c.found, specs, sizeOf), used, limit))
      && (error.Some? ==> n == if CapacityError(error.value) then |c.rest| else 0)
    }

    /** A plan that was not admitted gives its matches back. */
    method Decline(specs: seq<Spec>, slots: seq<Option<Owned>>, ghost found: seq<Option<Allocation>>,
                   ghost well: seq<bool>, ghost idle: seq<Allocation>, ghost others: map<nat, Holding>,
                   ghost charges: map<nat, nat>, ghost used: nat, ghost n: nat, error: ResourceError)
      returns (r: Result<Batch, ResourceError>)
      requires Valid() && Squeezed(idle, others, specs, slots, found, well, n)
      requires memory.charges == charges - Tickets(CheckOut(idle, specs, |specs|).rest[..n])
      requires Bytes(idle) <= pool.budget && |idle| <= pool.maxEntries
      requires Answers(Some(error), specs, idle, used, memory.limit, n)
      modifies Owners(slots), this`held, this`remaps, pool`slots, pool`bytes
      modifies memory`allocatedBytes, memory`charges, memory`totals
      ensures Valid() && remaps == old(remaps) && r == Err(error)
      ensures Concluded(r, specs, idle, others, charges, used, n)
    {
      RollBack(specs, slots, found, well, idle, others, n);
      r := Err(error);
    }

    /** A plan that was admitted is built, and disturbs nobody else. */
    method BuildPlan(reservation: Reservation, specs: seq<Spec>, slots: seq<Option<Owned>>,
                     ghost found: seq<Option<Allocation>>, ghost well: seq<bool>, ghost idle: seq<Allocation>,
                     ghost others: map<nat, Holding>, ghost charges: map<nat, nat>, ghost used: nat,
                     ghost reservations: map<nat, nat>, ghost n: nat)
      returns (batch: Batch)
      requires Valid() && Squeezed(idle, others, specs, slots, found, well, n)
      requires FirstBad(specs, sizeOf, |specs|).None?
                && Granted(reservation, Missing(found, specs, sizeOf), reservations)
      requires memory.charges == charges - Tickets(CheckOut(idle, specs, |specs|).rest[..n])
      requires memory.Used() + Bytes(CheckOut(idle, specs, |specs|).rest[..n]) == used + Missing(found, specs, sizeOf)
      modifies this`held, reservation`remaining, memory`reservedBytes, memory`allocatedBytes, memory`nextTicket
      modifies memory`reservations, memory`charges, memory`totals
      ensures Valid() && fresh(batch) && memory.reservations == reservations
      ensures forall o :: o in Owners(batch.slots) ==> o in Owners(slots) || fresh(o)
      ensures Built(batch, specs, idle, others, charges, used, n)
    {
      batch := Build(reservation, specs, slots, found, well, reservations);
    }

    method Complete(reservation: Reservation, specs: seq<Spec>, slots: seq<Option<Owned>>,
                    ghost found: seq<Option<Allocation>>, ghost well: seq<bool>, ghost idle: seq<Allocation>,
                    ghost others: map<nat, Holding>, ghost charges: map<nat, nat>, ghost used: nat,
                    ghost reservations: map<nat, nat>, ghost n: nat)
      returns (r: Result<Batch, ResourceError>)
      requires Valid() && Squeezed(idle, others, specs, slots, found, well, n)
      requires FirstBad(specs, sizeOf, |specs|).None?
      requires Granted(reservation, Missing(found, specs, sizeOf), reservations)
      requires memory.charges == charges - Tickets(CheckOut(idle, specs, |specs|).rest[..n])
      requires memory.Used() + Bytes(CheckOut(idle, specs, |specs|).rest[..n]) == used + Missing(found, specs, sizeOf)
      requires Answers(None, specs, idle, used, memory.limit, n)
      modifies this`held, reservation`remaining, memory`reservedBytes, memory`allocatedBytes, memory`nextTicket
      modifies memory`reservations, memory`charges, memory`totals
      ensures Valid() && memory.reservations == reservations && r.Ok? && fresh(r.value)
      ensures forall o :: o in Owners(r.value.slots) ==> o in Owners(slots) || fresh(o)
      ensures Concluded(r, specs, idle, others, charges, used, n)
    {
      var batch := BuildPlan(reservation, specs, slots, found, well, idle, others, charges, used, reservations, n);
      r := Ok(batch);
      Conclude(r, specs, idle, others, charges, used, n);
    }

    /** Reserve the misses and create them, or give the matches back. */
    method Proceed(specs: seq<Spec>, missing: nat, slots: seq<Option<Owned>>, ghost found: seq<Option<Allocation>>,
                   ghost well: seq<bool>, ghost idle: seq<Allocation>, ghost others: map<nat, Holding>)
      returns (r: Result<Batch, ResourceError>, ghost n: nat)
      requires Valid() && Gathered(idle, others, specs, slots, found, well) && |slots| == |specs|
      requires missing == Missing(found, specs, sizeOf) <= U64_MAX && FirstBad(specs, sizeOf, |specs|).None?
      requires Bytes(idle) <= pool.budget && |idle| <= pool.maxEntries
      modifies Owners(slots), this`held, this`remaps, pool`slots, pool`bytes, memory`reservedBytes,
          memory`allocatedBytes
      modifies memory`peak, memory`nextTicket, memory`reservations, memory`charges, memory`totals
      ensures Valid() && remaps == old(remaps) && memory.reservations == old(memory.reservations)
      ensures r.Ok? ==> fresh(r.value) && forall o :: o in Owners(r.value.slots) ==> o in Owners(slots) || fresh(o)
      ensures Concluded(r, specs, idle, others, old(memory.charges), old(memory.Used()), n)
    {
      var admitted;
      admitted, n := AdmitPlan(specs, missing, slots, found, well, idle, others);
      if admitted.Err? {
        r := Decline(specs, slots, found, well, idle, others, old(memory.charges), old(memory.Used()), n,
            admitted.error);
      } else {
        r := Complete(admitted.value, specs, slots, found, well, idle, others, old(memory.charges), old(memory.Used()),
                      old(memory.reservations), n);
      }
    }

    /**
     A prepared batch: every slot as specified, matches first, only the shortest oldest prefix
     evicted; apart from that, other owners and other charges are as they were.
     */
    ghost predicate Built(batch: Batch, specs: seq<Spec>, idle: seq<Allocation>, others: map<nat, Holding>,
                          charges: map<nat, nat>, used: nat, n: nat)
      reads this, pool, memory, batch, Owners(batch.slots)
    {
      var c := CheckOut(idle, specs, |specs|);
      && batch.home == this && n <= |c.rest| && pool.slots == c.rest[n..]
      && Filled(c.found, specs, |specs|, batch.slots, batch.notes, batch.well)
      && memory.Used() + Bytes(c.rest[..n]) == used + Missing(c.found, specs, sizeOf)
      && held - Tickets(Present(batch.notes)) == others && Extends(charges - Tickets(c.rest[..n]), memory.charges)
    }

    /** What preparing a checked plan comes to, with `n` idle allocations evicted. */
    ghost predicate ConcludedWith(n: nat, r: Result<Batch, ResourceError>, specs: seq<Spec>, idle: seq<Allocation>,
                                  others: map<nat, Holding>, charges: map<nat, nat>, used: nat)
      reads this, pool, memory, if r.Ok? then {r.value} else {}, if r.Ok? then Owners(r.value.slots) else {}
    {
      && Answers(ErrorOf(r), specs, idle, used, memory.limit, n)
      && if r.Ok? then Built(r.value, specs, idle, others, charges, used, n)
         else Refused(specs, idle, others, charges, n)
    }

    /** The trigger keeps the conclusion folded until a proof names `ConcludedWith`. */
    ghost predicate Concluded(r: Result<Batch, ResourceError>, specs: seq<Spec>, idle: seq<Allocation>,
                              others: map<nat, Holding>, charges: map<nat, nat>, used: nat, n: nat)
      reads this, pool, memory, if r.Ok? then {r.value} else {}, if r.Ok? then Owners(r.value.slots) else {}
    {
      forall m {:trigger ConcludedWith(m, r, specs, idle, others, charges, used)} ::
        m == n ==> ConcludedWith(m, r, specs, idle, others, charges, used)
    }

    lemma Conclude(r: Result<Batch, ResourceError>, specs: seq<Spec>, idle: seq<Allocation>,
                   others: map<nat, Holding>, charges: map<nat, nat>, used: nat, n: nat)
      requires Answers(ErrorOf(r), specs, idle, used, memory.limit, n)
      requires if r.Ok? then Built(r.value, specs, idle, others, charges, used, n)
               else Refused(specs, idle, others, charges, n)
      ensures Concluded(r, specs, idle, others, charges, used, n)
    {
    }

    /** A plan too large for 64 bits is refused whatever is idle. */
    lemma TooLarge(specs: seq<Spec>, idle: seq<Allocation>, used: nat)
      requires Missing(CheckOut(idle, specs, |specs|).found, specs, sizeOf) > U64_MAX
      ensures Answers(Some(ByteOverflow), specs, idle, used, memory.limit, 0)
    {
    }

    lemma Bounded()
      requires Valid()
      ensures Bytes(pool.slots) <= pool.budget && |pool.slots| <= pool.maxEntries
    {
      assert Consistent({});
    }

    /** Check out the plan's idle matches, reserve every miss at once, and create the misses. */
    method PreparePlan(specs: seq<Spec>) returns (r: Result<Batch, ResourceError>, ghost n: nat)
      requires Valid() && lost.None? && FirstBad(specs, sizeOf, |specs|).None?
      modifies this`held, this`remaps, pool`slots, pool`bytes, memory`reservedBytes, memory`allocatedBytes
      modifies memory`peak, memory`nextTicket, memory`reservations, memory`charges, memory`totals
      ensures Valid() && remaps == old(remaps) && memory.reservations == old(memory.reservations)
      ensures r.Ok? ==> fresh(r.value) && forall o :: o in Owners(r.value.slots) ==> fresh(o)
      ensures Concluded(r, specs, old(pool.slots), old(held), old(memory.charges), old(memory.Used()), n)
    {
      ghost var idle, others := pool.slots, held;
      Bounded();
      var missing, slots, found, well := CheckOutPlan(specs);
      if missing.None? {
        n := 0;
        r := GiveBack(specs, slots, found, well, idle, others);
      } else {
        r, n := Proceed(specs, missing.value, slots, found, well, idle, others);
      }
    }

    /** The same, and what it comes to for a plan that idle allocations cover. */
    method PrepareMatched(specs: seq<Spec>) returns (r: Result<Batch, ResourceError>, ghost n: nat)
      requires Valid() && lost.None? && FirstBad(specs, sizeOf, |specs|).None?
      modifies this`held, this`remaps, pool`slots, pool`bytes, memory`reservedBytes, memory`allocatedBytes
      modifies memory`peak, memory`nextTicket, memory`reservations, memory`charges, memory`totals
      ensures Valid() && remaps == old(remaps) && memory.reservations == old(memory.reservations)
      ensures r.Ok? ==> fresh(r.value) && forall o :: o in Owners(r.value.slots) ==> fresh(o)
      ensures Concluded(r, specs, old(pool.slots), old(held), old(memory.charges), old(memory.Used()), n)
      ensures Covered(specs, old(pool.slots)) ==> r.Ok? && n == 0 && memory.Used() == old(memory.Used())
    {
      ghost var covered := Covered(specs, pool.slots);
      if covered {
        Served(specs);
      }
      r, n := PreparePlan(specs);
      assert covered ==>
          ConcludedWith(n, r, specs, old(pool.slots), old(held), old(memory.charges), old(memory.Used()));
    }

    /** What refuses a plan before anything is checked out. */
    method Precheck(specs: seq<Spec>) returns (refusal: Option<ResourceError>)
      requires Valid()
      ensures lost.None? && Covered(specs, pool.slots) ==> refusal.None?
      ensures refusal == if lost.Some? then Some(Gpu(DeviceLost(lost.value))) else FirstBad(specs, sizeOf, |specs|)
    {
      if lost.Some? {
        return Some(Gpu(DeviceLost(lost.value)));
      }
      refusal := CheckDescriptors(specs);
      if Covered(specs, pool.slots) {
        Served(specs);
      }
    }

    lemma Untouched(specs: seq<Spec>)
      ensures Refused(specs, pool.slots, held, memory.charges, 0)
    {
      assert Tickets(CheckOut(pool.slots, specs, |specs|).rest[..0]) == {};
    }

    /** Put a built batch behind its scopes. */
    method Publish(batch: Batch, ghost specs: seq<Spec>, ghost idle: seq<Allocation>, ghost others: map<nat, Holding>,
                   ghost charges: map<nat, nat>, ghost used: nat, ghost n: nat)
      returns (prepared: Prepared)
      requires Valid() && Built(batch, specs, idle, others, charges, used, n)
      ensures Valid() && fresh(prepared) && fresh(prepared.checked) && prepared.Unpublished() && prepared.batch == batch
      ensures Built(batch, specs, idle, others, charges, used, n)
    {
      prepared := new Prepared(batch);
    }

    /** A plan that idle allocations cover needs no allowance: neither limit nor pressure matter. */
    lemma Served(specs: seq<Spec>)
      requires Valid() && Covered(specs, pool.slots)
      ensures FirstBad(specs, sizeOf, |specs|).None?
      ensures forall error, n :: Answers(error, specs, pool.slots, memory.Used(), memory.limit, n) ==>
                                   error.None? && n == 0
      ensures Missing(CheckOut(pool.slots, specs, |specs|).found, specs, sizeOf) == 0
      ensures Bytes(CheckOut(pool.slots, specs, |specs|).rest[..0]) == 0
    {
      assert Consistent({});
      CoveredPlan(pool.slots, specs, sizeOf, memory.Used(), memory.limit);
    }

    /**
     Check the whole plan first, then prepare it. Exactly the plans without objection succeed.
     A refusal gives the checked-out matches back, evicting nothing; one for capacity means that
     nothing idle was left to evict.
     */
    method Prepare(specs: seq<Spec>) returns (r: Result<Prepared, ResourceError>, ghost n: nat)
      requires Valid()
      modifies this`held, this`remaps, pool`slots, pool`bytes, memory`reservedBytes, memory`allocatedBytes
      modifies memory`peak, memory`nextTicket, memory`reservations, memory`charges, memory`totals
      ensures Valid() && remaps == old(remaps) && memory.reservations == old(memory.reservations)
      ensures lost.Some? ==> r == Err(Gpu(DeviceLost(lost.value))) && n == 0
      ensures lost.None? ==> ErrorOf(r) == Objection(specs, sizeOf, old(pool.slots), old(memory.Used()), memory.limit)
      ensures r.Ok? ==>
                && fresh(r.value) && r.value.Unpublished() && fresh(r.value.checked) && fresh(r.value.batch)
                && forall o :: o in Owners(r.value.batch.slots) ==> fresh(o)
      ensures r.Ok? ==>
                && Built(r.value.batch, specs, old(pool.slots), old(held), old(memory.charges), old(memory.Used()), n)
                && Answers(None, specs, old(pool.slots), old(memory.Used()), memory.limit, n)
      ensures r.Err? ==> Refused(specs, old(pool.slots), old(held), old(memory.charges), n)
      ensures r.Err? ==> n == if CapacityError(r.error) then |CheckOut(old(pool.slots), specs, |specs|).rest| else 0
      ensures lost.None? && Covered(specs, old(pool.slots)) ==>
                r.Ok? && n == 0 && memory.Used() == old(memory.Used())
    {
      n := 0;
      var refusal := Precheck(specs);
      if refusal.Some? {
        Untouched(specs);
        return Err(refusal.value), 0;
      }
      var batch;
      batch, n := PrepareMatched(specs);
      assert ConcludedWith(n, batch, specs, old(pool.slots), old(held), old(memory.charges), old(memory.Used()));
      if batch.Err? {
        r := Err(batch.error);
      } else {
        var prepared := Publish(batch.value, specs, old(pool.slots), old(held), old(memory.charges), old(memory.Used()),
                                n);
        r := Ok(prepared);
      }
    }
  }

  // ---------- operations ----------

  /** An operation's resources; each slot is transferred once. */
  class Batch {
    const home: Resources
    var slots: seq<Option<Owned>>
    ghost var notes: seq<Option<Allocation>>
    ghost var well: seq<bool>

    ghost predicate Owns()
      reads this, home, Owners(slots)
    {
      home.OwnsAll(slots, notes, well)
    }

    constructor (home: Resources, slots: seq<Option<Owned>>, ghost notes: seq<Option<Allocation>>,
                 ghost well: seq<bool>)
      ensures this.home == home && this.slots == slots && this.notes == notes && this.well == well
    {
      this.home, this.slots, this.notes, this.well := home, slots, notes, well;
    }

    /** Every scope accepted: from here on the allocations may be reused. */
    method Accept()
      requires Owns()
      modifies Owners(slots), this`well
      ensures Owns() && forall i :: 0 <= i < |well| ==> well[i]
    {
      var i := 0;
      while i < |slots|
        invariant i <= |slots| == |notes| == |well|
        invariant forall j :: 0 <= j < |slots| ==> home.Intact(slots[j], notes[j], j < i || well[j])
      {
        if slots[i].Some? {
          slots[i].value.healthy := true;
        }
        i := i + 1;
      }
      well := seq(|slots|, j => true);
    }

    /** Transfer one slot, if it is there and of the kind asked for. */
    method Transfer(index: nat, buffer: bool) returns (r: Result<Owned, ResourceError>)
      requires Owns()
      modifies this`slots, this`notes
      ensures Owns() && well == old(well)
      ensures r.Ok? <==>
              && index < |old(slots)| && old(notes)[index].Some?
              && old(notes)[index].value.key.BufferOf? == buffer
      ensures r.Err? ==> r.error == Slot && slots == old(slots) && notes == old(notes)
      ensures r.Ok? ==>
                && home.NamesHandle(r.value, old(notes)[index].value, well[index])
                && slots == old(slots)[index := None] && notes == old(notes)[index := None]
    {
      if index >= |slots| {
        return Err(Slot);
      }
      assert NamesSlot(home.held, slots[index], notes[index]) && home.Intact(slots[index], notes[index], well[index]);
      if slots[index].None? || slots[index].value.allocation.value.key.BufferOf? != buffer {
        return Err(Slot);
      }
      r := Ok(slots[index].value);
      slots, notes := slots[index := None], notes[index := None];
      assert Owners(slots) <= Owners(old(slots));
      assert forall j :: 0 <= j < |slots| ==>
          NamesSlot(home.held, slots[j], notes[j]) && home.Intact(slots[j], notes[j], well[j]);
    }
  }

  /** Unsubmitted creation: nothing is published before every scope accepts. */
  class Prepared {
    const batch: Batch
    const checked: ValidationCells.Checked<Batch>

    ghost predicate Unpublished()
      reads this, checked
    {
      checked.value == Some(Ok(batch))
    }

    constructor (batch: Batch)
      ensures this.batch == batch && fresh(checked) && Unpublished()
    {
      this.batch := batch;
      checked := new ValidationCells.Checked<Batch>(Ok(batch));
    }

    /**
     Pending while a scope is; a rejected batch is dropped and everything it created is destroyed;
     an accepted one is handed out once, healthy.
     */
    method Poll(validation: Option<Outcome>) returns (r: Option<Result<Batch, ResourceError>>, ghost gone: set<nat>)
      requires batch.home.Valid() && (Unpublished() || checked.value.None?)
      requires Unpublished() ==> batch.Owns()
      modifies checked, batch`well, Owners(batch.slots)
      modifies batch.home`held, batch.home`remaps, batch.home.pool`slots, batch.home.pool`bytes
      modifies batch.home.memory`allocatedBytes, batch.home.memory`charges, batch.home.memory`totals
      ensures batch.home.Valid() && (Unpublished() || checked.value.None?) && (Unpublished() ==> batch.Owns())
      ensures old(checked.value).None? ==> r == Some(Err(Gpu(Dropped))) && gone == {}
      ensures old(Unpublished()) && validation.None? ==>
                r.None? && Unpublished() && gone == {} && batch.well == old(batch.well)
      ensures old(checked.value).None? || validation.None? || validation.value.Ok? ==>
                && batch.home.held == old(batch.home.held) && batch.home.remaps == old(batch.home.remaps)
                && batch.home.pool.slots == old(batch.home.pool.slots)
      ensures old(Unpublished()) && validation.Some? && validation.value.Ok? ==>
                && r == Some(Ok(batch)) && batch.Owns() && gone == {} && checked.value.None?
                && forall i :: 0 <= i < |batch.well| ==> batch.well[i]
      ensures old(Unpublished()) && validation.Some? && validation.value.Err? ==>
                && r == Some(Err(Gpu(validation.value.error))) && checked.value.None? && batch.well == old(batch.well)
                && batch.home.held == old(batch.home.held) - Tickets(Present(batch.notes))
                && AllGone(batch.notes, batch.well, |batch.notes|, gone)
                && (Returnable(old(batch.home.OnShelf()), AllHealthy(batch.notes, batch.well)) ==>
                      && batch.home.remaps == old(batch.home.remaps)
                      && batch.home.pool.slots == old(batch.home.pool.slots)
                                                  + Present(AllHealthy(batch.notes, batch.well)))
      ensures batch.home.memory.charges == old(batch.home.memory.charges) - gone
    {
      gone := {};
      var live := checked.value.Some?;
      var answer := checked.Poll(validation);
      if answer.None? {
        return None, {};
      }
      if answer.value.Ok? {
        batch.Accept();
        r := Some(Ok(answer.value.value));
      } else {
        if live {
          gone := batch.home.DropBatch(batch.slots, batch.notes, batch.well);
        }
        r := Some(Err(Gpu(answer.value.error)));
      }
    }

    /** Dropped before an answer: aborted, and nothing created is published. */
    method Drop() returns (ghost gone: set<nat>)
      requires batch.home.Valid() && Unpublished() && batch.Owns()
      modifies checked, Owners(batch.slots)
      modifies batch.home`held, batch.home`remaps, batch.home.pool`slots, batch.home.pool`bytes
      modifies batch.home.memory`allocatedBytes, batch.home.memory`charges, batch.home.memory`totals
      ensures batch.home.Valid() && checked.value.None?
      ensures batch.home.held == old(batch.home.held) - Tickets(Present(batch.notes))
      ensures batch.home.memory.charges == old(batch.home.memory.charges) - gone
      ensures AllGone(batch.notes, batch.well, |batch.notes|, gone)
      ensures Returnable(old(batch.home.OnShelf()), AllHealthy(batch.notes, batch.well)) ==>
                batch.home.pool.slots == old(batch.home.pool.slots) + Present(AllHealthy(batch.notes, batch.well))
    {
      checked.value := None;
      gone := batch.home.DropBatch(batch.slots, batch.notes, batch.well);
    }
  }
}

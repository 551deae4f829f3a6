/** Logical allocation admission: byte counters whose truth is a sum over live owners. */
module Admission {
  import opened Outcomes

  const U64_MAX: nat := 0xFFFF_FFFF_FFFF_FFFF

  datatype AdmissionError =
    | Unconfigured
    | Overflow
    | Capacity(requested: nat, used: nat, limit: nat)
    | ReservationTooSmall(requested: nat, remaining: nat)

  /** One resource and its one allocation charge. */
  datatype Charged<+R> = Charged(resource: R, ticket: nat, bytes: nat)

  // ---------- sums over live owners ----------

  ghost function Total(owners: map<nat, nat>): nat {
    if owners == map[] then 0
    else var t :| t in owners; owners[t] + Total(owners - {t})
  }

  lemma {:induction false} TotalWithout(owners: map<nat, nat>, t: nat)
    requires t in owners
    ensures Total(owners) == owners[t] + Total(owners - {t})
  {
    var u :| u in owners && Total(owners) == owners[u] + Total(owners - {u});
    if u != t {
      TotalWithout(owners - {u}, t);
      TotalWithout(owners - {t}, u);
      assert owners - {u} - {t} == owners - {t} - {u};
    }
  }

  lemma TotalWith(owners: map<nat, nat>, t: nat, bytes: nat)
    requires t !in owners
    ensures Total(owners[t := bytes]) == Total(owners) + bytes
  {
    TotalWithout(owners[t := bytes], t);
    assert owners[t := bytes] - {t} == owners;
  }

  lemma TotalLess(owners: map<nat, nat>, t: nat, bytes: nat)
    requires t in owners && bytes <= owners[t]
    ensures Total(owners[t := owners[t] - bytes]) == Total(owners) - bytes
  {
    TotalWithout(owners, t);
    TotalWithout(owners[t := owners[t] - bytes], t);
    assert owners[t := owners[t] - bytes] - {t} == owners - {t};
  }

  /** Totals of disjoint owners add up. */
  lemma {:induction false} TotalUnion(a: map<nat, nat>, b: map<nat, nat>)
    requires a.Keys !! b.Keys
    ensures Total(a + b) == Total(a) + Total(b)
  {
    if a == map[] {
      assert a + b == b;
    } else {
      var t :| t in a;
      TotalWithout(a, t);
      TotalWithout(a + b, t);
      assert a + b - {t} == (a - {t}) + b;
      TotalUnion(a - {t}, b);
    }
  }

  function Max(a: nat, b: nat): nat {
    if a < b then b else a
  }

  function Highest(totals: seq<nat>): nat {
    if totals == [] then 0 else Max(Highest(totals[..|totals| - 1]), totals[|totals| - 1])
  }

  lemma HighestWith(totals: seq<nat>, total: nat)
    ensures Highest(totals + [total]) == Max(Highest(totals), total)
  {
    assert (totals + [total])[..|totals|] == totals;
  }

  /** `Highest` is reached, and nothing is above it. */
  lemma {:induction false} HighestIsMaximum(totals: seq<nat>)
    ensures forall i :: 0 <= i < |totals| ==> totals[i] <= Highest(totals)
    ensures totals != [] ==> Highest(totals) in totals
  {
    if totals == [] {
    } else {
      var before, last := totals[..|totals| - 1], totals[|totals| - 1];
      assert totals == before + [last];
      HighestIsMaximum(before);
      forall i | 0 <= i < |totals| ensures totals[i] <= Highest(totals) {
        assert i < |before| ==> totals[i] == before[i];
      }
    }
  }

  /** The history of totals, its last entry and its maximum. */
  ghost predicate Recorded(totals: seq<nat>, used: nat, peak: nat) {
    totals != [] && totals[|totals| - 1] == used && peak == Highest(totals)
  }

  lemma RecordNext(totals: seq<nat>, used: nat, peak: nat, total: nat)
    requires Recorded(totals, used, peak)
    ensures Recorded(totals + [total], total, Max(peak, total))
  {
    HighestWith(totals, total);
  }

  /** The counters are the sums over live owners, whose tickets have been handed out. */
  ghost predicate Accounts(reserved: nat, charged: nat, reservations: map<nat, nat>, charges: map<nat, nat>,
                           next: nat) {
    && reserved == Total(reservations) && charged == Total(charges)
    && (forall t :: t in reservations ==> t < next)
    && (forall t :: t in charges ==> t < next)
  }

  lemma ChargeMoves(reserved: nat, charged: nat, reservations: map<nat, nat>, charges: map<nat, nat>, next: nat,
                    t: nat, bytes: nat)
    requires Accounts(reserved, charged, reservations, charges, next) && t in reservations && bytes <= reservations[t]
    ensures next !in charges && bytes <= reserved
    ensures Accounts(reserved - bytes, charged + bytes, reservations[t := reservations[t] - bytes],
              charges[next := bytes], next + 1)
  {
    TotalWithout(reservations, t);
    TotalLess(reservations, t, bytes);
    TotalWith(charges, next, bytes);
  }

  class MemoryBudget {
    var limit: Option<nat>
    var reservedBytes: nat
    var allocatedBytes: nat
    var peak: nat
    var nextTicket: nat                    // identity of the next owner
    ghost var reservations: map<nat, nat>  // remainder of every live reservation
    ghost var charges: map<nat, nat>       // bytes of every live charge
    ghost var totals: seq<nat>             // used bytes after every operation so far
    ghost var ceiling: nat                 // the largest limit ever configured

    /** The counters are sums over owners, fit 64 bits, and stay below every limit that admitted them. */
    ghost predicate Valid()
      reads this
    {
      && Accounts(reservedBytes, allocatedBytes, reservations, charges, nextTicket)
      && (limit.Some? ==> limit.value <= ceiling) && ceiling <= U64_MAX
      && reservedBytes + allocatedBytes <= peak <= ceiling
      && Recorded(totals, reservedBytes + allocatedBytes, peak)
    }

    constructor (limit: Option<nat>)
      requires limit.Some? ==> limit.value <= U64_MAX
      ensures Valid() && this.limit == limit && reservedBytes == 0 && allocatedBytes == 0 && peak == 0
      ensures reservations == map[] && charges == map[] && totals == [0]
    {
      this.limit := limit;
      reservedBytes, allocatedBytes, peak, nextTicket := 0, 0, 0, 0;
      reservations, charges, totals := map[], map[], [0];
      ceiling := if limit.Some? then limit.value else 0;
    }

    function Used(): nat
      reads this
    {
      reservedBytes + allocatedBytes
    }

    /** Configure future growth only: nothing held is revoked. */
    method SetLimit(limit: Option<nat>)
      requires Valid() && (limit.Some? ==> limit.value <= U64_MAX)
      modifies this`limit, this`ceiling
      ensures Valid() && this.limit == limit && old(ceiling) <= ceiling
    {
      this.limit := limit;
      ceiling := if limit.Some? then Max(ceiling, limit.value) else ceiling;
    }

    /** Reserve all bytes of an operation at once, or none of them. */
    method Reserve(bytes: nat) returns (r: Result<Reservation, AdmissionError>)
      requires Valid() && bytes <= U64_MAX
      modifies this`reservedBytes, this`peak, this`nextTicket, this`reservations, this`totals
      ensures Valid()
      ensures r.Ok? <==>
              && old(Used()) + bytes <= U64_MAX
              && (bytes == 0 || (limit.Some? && old(Used()) + bytes <= limit.value))
      ensures r == Err(Overflow) <==> old(Used()) + bytes > U64_MAX
      ensures r == Err(Unconfigured) <==> 0 < bytes && old(Used()) + bytes <= U64_MAX && limit.None?
      ensures r.Err? ==>
                && unchanged(this)
                && (r.error.Overflow? || r.error.Unconfigured?
                    || (limit.Some? && r.error == Capacity(bytes, Used(), limit.value)))
      ensures r.Ok? ==>
                && fresh(r.value) && r.value.budget == this && r.value.Valid()
                && r.value.remaining == bytes && r.value.ticket == old(nextTicket)
                && reservations == old(reservations)[r.value.ticket := bytes]
                && reservedBytes == old(reservedBytes) + bytes
                && totals == old(totals) + [Used()]
                && (bytes > 0 ==> limit.Some? && Used() <= limit.value)
    {
      var used := Used();
      var total := used + bytes;
      if total > U64_MAX {
        return Err(Overflow);
      }
      if bytes != 0 {
        if limit.None? {
          return Err(Unconfigured);
        }
        if total > limit.value {
          return Err(Capacity(bytes, used, limit.value));
        }
      }
      reservedBytes := reservedBytes + bytes;
      peak := Max(peak, total);
      var reservation := new Reservation(this, nextTicket, bytes);
      TotalWith(reservations, nextTicket, bytes);
      reservations := reservations[nextTicket := bytes];
      totals := totals + [total];
      nextTicket := nextTicket + 1;
      return Ok(reservation);
    }

    /** A destroyed resource gives its bytes back. */
    method Release<R>(owner: Charged<R>)
      requires Valid() && owner.ticket in charges && charges[owner.ticket] == owner.bytes
      modifies this`allocatedBytes, this`charges, this`totals
      ensures Valid() && charges == old(charges) - {owner.ticket}
      ensures allocatedBytes == old(allocatedBytes) - owner.bytes
    {
      TotalWithout(charges, owner.ticket);
      allocatedBytes := allocatedBytes - owner.bytes;
      charges := charges - {owner.ticket};
      totals := totals + [reservedBytes + allocatedBytes];
    }
  }

  /** An operation's allowance that is not yet charged to a resource. */
  class Reservation {
    const budget: MemoryBudget
    ghost const ticket: nat
    var remaining: nat

    ghost predicate Valid()
      reads this, budget
    {
      budget.Valid() && ticket in budget.reservations && budget.reservations[ticket] == remaining
    }

    constructor (budget: MemoryBudget, ghost ticket: nat, bytes: nat)
      ensures this.budget == budget && this.ticket == ticket && remaining == bytes
    {
      this.budget, this.ticket, this.remaining := budget, ticket, bytes;
    }

    /** Move bytes into a resource's lifetime; total usage does not change. */
    method Charge<R>(resource: R, bytes: nat) returns (r: Result<Charged<R>, AdmissionError>)
      requires Valid()
      modifies this`remaining
      modifies budget`reservedBytes, budget`allocatedBytes, budget`nextTicket, budget`reservations, budget`charges,
          budget`totals
      ensures Valid() && budget.Used() == old(budget.Used())
      ensures r.Err? <==> bytes > old(remaining)
      ensures r.Err? ==> r.error == ReservationTooSmall(bytes, remaining) && unchanged(this) && unchanged(budget)
      ensures r.Ok? ==>
                && r.value == Charged(resource, old(budget.nextTicket), bytes)
                && r.value.ticket !in old(budget.charges)
                && remaining == old(remaining) - bytes
                && budget.charges == old(budget.charges)[r.value.ticket := bytes]
                && budget.reservations == old(budget.reservations)[ticket := remaining]
                && budget.allocatedBytes == old(budget.allocatedBytes) + bytes
                && budget.nextTicket == old(budget.nextTicket) + 1
    {
      if bytes > remaining {
        return Err(ReservationTooSmall(bytes, remaining));
      }
      ChargeMoves(budget.reservedBytes, budget.allocatedBytes, budget.reservations, budget.charges, budget.nextTicket,
          ticket, bytes);
      RecordNext(budget.totals, budget.Used(), budget.peak, budget.Used());
      budget.reservedBytes := budget.reservedBytes - bytes;
      budget.allocatedBytes := budget.allocatedBytes + bytes;
      remaining := remaining - bytes;
      budget.reservations := budget.reservations[ticket := remaining];
      budget.charges := budget.charges[budget.nextTicket := bytes];
      budget.totals := budget.totals + [budget.Used()];
      r := Ok(Charged(resource, budget.nextTicket, bytes));
      budget.nextTicket := budget.nextTicket + 1;
    }

    /** Roll back what was not charged. */
    method Drop()
      requires Valid()
      modifies budget`reservedBytes, budget`reservations, budget`totals
      ensures budget.Valid() && budget.reservations == old(budget.reservations) - {ticket}
      ensures budget.reservedBytes == old(budget.reservedBytes) - remaining
    {
      TotalWithout(budget.reservations, ticket);
      budget.reservedBytes := budget.reservedBytes - remaining;
      budget.reservations := budget.reservations - {ticket};
      budget.totals := budget.totals + [budget.Used()];
    }
  }
}

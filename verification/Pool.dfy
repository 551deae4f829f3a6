/** Idle resources, least recently returned first, bounded in bytes and in number. */
module Pool {
  import opened Outcomes
  import opened Admission

  /** What the pool needs to know of a resource; the rest is its payload. */
  datatype Resource<+K, +P> = Resource(key: K, bytes: nat, payload: P)

  function Bytes<K, P>(slots: seq<Resource<K, P>>): nat {
    if slots == [] then 0 else slots[0].bytes + Bytes(slots[1..])
  }

  lemma {:induction false} BytesConcat<K, P>(a: seq<Resource<K, P>>, b: seq<Resource<K, P>>)
    ensures Bytes(a + b) == Bytes(a) + Bytes(b)
  {
    if a == [] {
      assert a + b == b;
    } else {
      assert (a + b)[1..] == a[1..] + b;
      BytesConcat(a[1..], b);
    }
  }

  lemma BytesSplit<K, P>(slots: seq<Resource<K, P>>, n: nat)
    requires n <= |slots|
    ensures Bytes(slots) == Bytes(slots[..n]) + Bytes(slots[n..])
  {
    assert slots == slots[..n] + slots[n..];
    BytesConcat(slots[..n], slots[n..]);
  }

  lemma BytesWithout<K, P>(slots: seq<Resource<K, P>>, at: nat)
    requires at < |slots|
    ensures Bytes(slots) == Bytes(slots[..at] + slots[at + 1..]) + slots[at].bytes
  {
    BytesSplit(slots, at);
    BytesConcat(slots[..at], slots[at + 1..]);
    assert slots[at..][1..] == slots[at + 1..];
  }

  lemma BytesPush<K, P>(slots: seq<Resource<K, P>>, r: Resource<K, P>)
    ensures Bytes(slots + [r]) == Bytes(slots) + r.bytes
  {
    BytesConcat(slots, [r]);
    assert [r][1..] == [];
  }

  // ---------- the retention policy, independent of how it is computed ----------

  /** A resource of this size can join these slots. */
  predicate Fits<K, P>(slots: seq<Resource<K, P>>, size: nat, budget: nat, maxEntries: nat) {
    Bytes(slots) + size <= budget && |slots| < maxEntries
  }

  /** How many of the oldest slots must go before a resource of this size fits. */
  function RoomAt<K, P>(slots: seq<Resource<K, P>>, size: nat, budget: nat, maxEntries: nat): (n: nat)
    ensures n <= |slots|
  {
    if slots == [] || Fits(slots, size, budget, maxEntries) then 0
    else 1 + RoomAt(slots[1..], size, budget, maxEntries)
  }

  /** It is the shortest prefix that makes room: enough, and nothing less is. */
  lemma {:induction false} RoomAtIsShortest<K, P>(slots: seq<Resource<K, P>>, size: nat, budget: nat, maxEntries: nat)
    requires size <= budget && 0 < maxEntries
    ensures var n := RoomAt(slots, size, budget, maxEntries);
            && Fits(slots[n..], size, budget, maxEntries)
            && forall m :: 0 <= m < n ==> !Fits(slots[m..], size, budget, maxEntries)
  {
    if slots != [] && !Fits(slots, size, budget, maxEntries) {
      var n := RoomAt(slots, size, budget, maxEntries);
      RoomAtIsShortest(slots[1..], size, budget, maxEntries);
      assert slots[n..] == slots[1..][n - 1..];
      forall m | 0 <= m < n ensures !Fits(slots[m..], size, budget, maxEntries) {
        if m == 0 {
          assert slots[0..] == slots;
        } else {
          assert slots[m..] == slots[1..][m - 1..];
        }
      }
    } else {
      assert slots[0..] == slots;
    }
  }

  /** How many of the oldest slots exceed a byte budget. */
  function OverAt<K, P>(slots: seq<Resource<K, P>>, budget: nat): (n: nat)
    ensures n <= |slots|
  {
    if slots == [] || Bytes(slots) <= budget then 0 else 1 + OverAt(slots[1..], budget)
  }

  lemma {:induction false} OverAtIsShortest<K, P>(slots: seq<Resource<K, P>>, budget: nat)
    ensures var n := OverAt(slots, budget);
            && Bytes(slots[n..]) <= budget
            && forall m :: 0 <= m < n ==> Bytes(slots[m..]) > budget
  {
    var n := OverAt(slots, budget);
    if n > 0 {
      OverAtIsShortest(slots[1..], budget);
      assert slots[n..] == slots[1..][n - 1..];
      forall m | 0 <= m < n ensures Bytes(slots[m..]) > budget {
        if m == 0 {
          assert slots[0..] == slots;
        } else {
          assert slots[m..] == slots[1..][m - 1..];
        }
      }
    } else {
      assert slots[0..] == slots;
    }
  }

  /** How many of the oldest slots free at least so many bytes, or all of them. */
  function FreeAt<K, P>(slots: seq<Resource<K, P>>, bytes: nat): (n: nat)
    ensures n <= |slots|
  {
    if bytes == 0 || slots == [] then 0
    else 1 + FreeAt(slots[1..], if slots[0].bytes <= bytes then bytes - slots[0].bytes else 0)
  }

  lemma {:induction false} FreeAtIsShortest<K, P>(slots: seq<Resource<K, P>>, bytes: nat)
    ensures var n := FreeAt(slots, bytes);
            && (n < |slots| ==> bytes <= Bytes(slots[..n]))
            && (forall m :: 0 <= m < n ==> Bytes(slots[..m]) < bytes)
  {
    var n := FreeAt(slots, bytes);
    if n > 0 {
      var rest := if slots[0].bytes <= bytes then bytes - slots[0].bytes else 0;
      FreeAtIsShortest(slots[1..], rest);
      forall m | 0 < m <= n ensures Bytes(slots[..m]) == slots[0].bytes + Bytes(slots[1..][..m - 1]) {
        assert slots[..m][1..] == slots[1..][..m - 1];
      }
      if rest == 0 {
        assert n == 1;
      }
      forall m | 0 <= m < n ensures Bytes(slots[..m]) < bytes {
        if m > 0 {
          assert Bytes(slots[1..][..m - 1]) < rest;
        }
      }
    }
  }

  /** Position of the most recently returned slot of a key. */
  function LatestAt<K(==), P>(slots: seq<Resource<K, P>>, key: K): (at: Option<nat>)
    ensures at.Some? ==> at.value < |slots|
  {
    if slots == [] then None
    else if slots[|slots| - 1].key == key then Some(|slots| - 1)
    else LatestAt(slots[..|slots| - 1], key)
  }

  lemma {:induction false} LatestAtIsLatest<K, P>(slots: seq<Resource<K, P>>, key: K)
    ensures match LatestAt(slots, key)
            case None => forall i :: 0 <= i < |slots| ==> slots[i].key != key
            case Some(at) =>
              && at < |slots| && slots[at].key == key
              && forall i :: at < i < |slots| ==> slots[i].key != key
  {
    if slots != [] && slots[|slots| - 1].key != key {
      LatestAtIsLatest(slots[..|slots| - 1], key);
    }
  }

  // ---------- the pool ----------

  class ResourcePool<K(==), P> {
    var slots: seq<Resource<K, P>>
    var bytes: nat
    var budget: nat
    const maxEntries: nat

    ghost predicate Valid()
      reads this
    {
      bytes == Bytes(slots) && bytes <= budget <= U64_MAX && |slots| <= maxEntries
    }

    constructor (budget: nat, maxEntries: nat)
      requires budget <= U64_MAX
      ensures Valid() && slots == [] && this.budget == budget && this.maxEntries == maxEntries
    {
      slots, bytes := [], 0;
      this.budget, this.maxEntries := budget, maxEntries;
    }

    /** Lowering evicts the shortest oldest prefix beyond the budget; raising brings nothing back. */
    method SetBudget(limit: nat) returns (evicted: seq<Resource<K, P>>)
      requires Valid() && limit <= U64_MAX
      modifies this
      ensures Valid() && budget == limit
      ensures slots == old(slots)[OverAt(old(slots), limit)..]
      ensures evicted == old(slots)[..OverAt(old(slots), limit)]
      ensures limit >= old(budget) ==> evicted == []
    {
      budget := limit;
      var over, kept := 0, bytes;
      while kept > limit && over < |slots|
        invariant 0 <= over <= |slots| && kept == Bytes(slots[over..])
        invariant over + OverAt(slots[over..], limit) == OverAt(slots, limit)
        invariant slots == old(slots) && budget == limit
      {
        assert slots[over..][1..] == slots[over + 1..];
        kept := kept - slots[over].bytes;
        over := over + 1;
      }
      bytes := kept;
      evicted := slots[..over];
      slots := slots[over..];
    }

    /** The most recently returned slot of the key; the others keep their order. */
    method Take(key: K) returns (r: Option<Resource<K, P>>)
      requires Valid()
      modifies this`slots, this`bytes
      ensures Valid()
      ensures LatestAt(old(slots), key).None? ==> r.None? && slots == old(slots)
      ensures LatestAt(old(slots), key).Some? ==>
                var at := LatestAt(old(slots), key).value;
                at < |old(slots)| && r == Some(old(slots)[at]) && slots == old(slots)[..at] + old(slots)[at + 1..]
      ensures r.Some? ==> r.value.key == key && r.value.bytes <= budget
    {
      LatestAtIsLatest(slots, key);
      assert slots[..|slots|] == slots;
      var at := |slots|;
      while at > 0 && slots[at - 1].key != key
        invariant 0 <= at <= |slots|
        invariant LatestAt(slots[..at], key) == LatestAt(slots, key)
        invariant slots == old(slots) && bytes == old(bytes)
      {
        assert slots[..at][..at - 1] == slots[..at - 1];
        at := at - 1;
      }
      if at == 0 {
        return None;
      }
      at := at - 1;
      BytesWithout(slots, at);
      r := Some(slots[at]);
      bytes := bytes - slots[at].bytes;
      slots := slots[..at] + slots[at + 1..];
    }

    /**
     Keep the resource, evicting the shortest oldest prefix that makes room for it; one that
     can never fit is dropped itself and evicts nothing.
     */
    method Put(resource: Resource<K, P>) returns (dropped: seq<Resource<K, P>>)
      requires Valid()
      modifies this`slots, this`bytes
      ensures Valid()
      ensures resource.bytes > budget || maxEntries == 0 ==> slots == old(slots) && dropped == [resource]
      ensures resource.bytes <= budget && maxEntries > 0 ==>
                var n := RoomAt(old(slots), resource.bytes, budget, maxEntries);
                slots == old(slots)[n..] + [resource] && dropped == old(slots)[..n]
      ensures resource.bytes <= budget && maxEntries > 0 ==>
                forall m :: 0 <= m < |dropped| ==>
                    Bytes(old(slots)[m..]) + resource.bytes > budget || |old(slots)| - m >= maxEntries
    {
      var size := resource.bytes;
      if size > budget || maxEntries == 0 {
        return [resource];
      }
      dropped := [];
      var attempts := |slots|;
      var i := 0;
      while i < attempts
        invariant 0 <= i <= attempts == |old(slots)|
        invariant Valid() && slots == old(slots)[i..] && dropped == old(slots)[..i]
        invariant i + RoomAt(slots, size, budget, maxEntries) == RoomAt(old(slots), size, budget, maxEntries)
      {
        if size > budget || (bytes <= budget - size && |slots| < maxEntries) {
          break;
        }
        assert old(slots)[i..][1..] == old(slots)[i + 1..];
        dropped := dropped + [slots[0]];
        bytes := bytes - slots[0].bytes;
        slots := slots[1..];
        i := i + 1;
      }
      RoomAtIsShortest(old(slots), size, budget, maxEntries);
      assert Fits(slots, size, budget, maxEntries);
      assert forall m :: 0 <= m < |dropped| ==> !Fits(old(slots)[m..], size, budget, maxEntries);
      BytesPush(slots, resource);
      bytes := bytes + size;
      slots := slots + [resource];
    }

    /** Evict the shortest oldest prefix of at least so many bytes, or everything. */
    method Evict(wanted: nat) returns (freed: nat, dropped: seq<Resource<K, P>>)
      requires Valid()
      modifies this`slots, this`bytes
      ensures Valid()
      ensures slots == old(slots)[FreeAt(old(slots), wanted)..]
      ensures dropped == old(slots)[..FreeAt(old(slots), wanted)] && freed == Bytes(dropped)
    {
      var attempts := |slots|;
      freed, dropped := 0, [];
      var i := 0;
      while i < attempts
        invariant 0 <= i <= attempts == |old(slots)|
        invariant Valid() && slots == old(slots)[i..] && dropped == old(slots)[..i]
        invariant freed == Bytes(dropped) && freed + bytes == old(bytes)
        invariant i + FreeAt(slots, if freed < wanted then wanted - freed else 0) == FreeAt(old(slots), wanted)
      {
        if freed >= wanted {
          break;
        }
        assert old(slots)[i..][1..] == old(slots)[i + 1..];
        BytesPush(dropped, slots[0]);
        freed := freed + slots[0].bytes;
        dropped := dropped + [slots[0]];
        bytes := bytes - slots[0].bytes;
        slots := slots[1..];
        i := i + 1;
      }
    }
  }
}

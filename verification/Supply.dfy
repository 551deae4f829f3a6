/** What idle allocations cover of a plan, told by keys and usages alone. */
module Supply {
  import opened Outcomes
  import opened Admission
  import opened Pool
  import opened Descriptors
  import opened Plans

  /** A buffer that the host maps for reading is never taken from the pool. */
  predicate ReadBack(spec: Spec) {
    spec.BufferOf? && MapRead in spec.buffer.usage
  }

  /** The keys that the plan's descriptors ask for. */
  function Wanted(specs: seq<Spec>): seq<Spec> {
    seq(|specs|, i requires 0 <= i < |specs| => Normalized(specs[i]))
  }

  function Offered(slots: seq<Allocation>): seq<Spec> {
    seq(|slots|, i requires 0 <= i < |slots| => slots[i].key)
  }

  /** Every descriptor has its own idle match: no key is wanted more often than it is offered. */
  ghost predicate Covered(specs: seq<Spec>, idle: seq<Allocation>) {
    && (forall i :: 0 <= i < |specs| ==> !ReadBack(specs[i]))
    && multiset(Wanted(specs)) <= multiset(Offered(idle))
  }

  /**
   The k-th descriptor misses exactly if it is a read-back buffer or no slot that is still idle
   has its key; otherwise it takes the latest such slot, and nothing else moves.
   */
  lemma MatchLaw(idle: seq<Allocation>, specs: seq<Spec>, k: nat)
    requires k < |specs|
    ensures CheckOut(idle, specs, 0) == CheckedOut(idle, [])
    ensures var rest, key := CheckOut(idle, specs, k).rest, Normalized(specs[k]);
            var d := CheckOut(idle, specs, k + 1);
            && d.found[..k] == CheckOut(idle, specs, k).found
            && (d.found[k].None? <==> ReadBack(specs[k]) || forall i :: 0 <= i < |rest| ==> rest[i].key != key)
            && (d.found[k].None? ==> d.rest == rest)
            && (d.found[k].Some? ==>
                  exists i :: 0 <= i < |rest| && d.found[k] == Some(rest[i]) && rest[i].key == key
                              && (forall j :: i < j < |rest| ==> rest[j].key != key)
                              && d.rest == rest[..i] + rest[i + 1..])
  {
    LatestAtIsLatest(CheckOut(idle, specs, k).rest, Normalized(specs[k]));
  }

  /** Whatever is checked out later, the notes made so far stand. */
  lemma {:induction false} NotesStand(idle: seq<Allocation>, specs: seq<Spec>, k: nat, n: nat)
    requires k <= n <= |specs|
    ensures CheckOut(idle, specs, n).found[..k] == CheckOut(idle, specs, k).found
    decreases n
  {
    if k < n {
      NotesStand(idle, specs, k, n - 1);
      MatchLaw(idle, specs, n - 1);
      assert CheckOut(idle, specs, n).found[..k] == CheckOut(idle, specs, n).found[..n - 1][..k];
    }
  }

  lemma OfferedWithout(slots: seq<Allocation>, at: nat)
    requires at < |slots|
    ensures multiset(Offered(slots)) == multiset(Offered(slots[..at] + slots[at + 1..])) + multiset{slots[at].key}
  {
    assert Offered(slots) == Offered(slots[..at]) + [slots[at].key] + Offered(slots[at + 1..]);
    assert Offered(slots[..at] + slots[at + 1..]) == Offered(slots[..at]) + Offered(slots[at + 1..]);
  }

  lemma OfferedPush(slots: seq<Allocation>, a: Allocation)
    ensures multiset(Offered(slots + [a])) == multiset(Offered(slots)) + multiset{a.key}
  {
    assert Offered(slots + [a]) == Offered(slots) + [a.key];
  }

  function Least(a: nat, b: nat): nat {
    if a < b then a else b
  }

  /** How often the matches of the first n descriptors have this key. */
  ghost function Matches(idle: seq<Allocation>, specs: seq<Spec>, n: nat, key: Spec): nat
    requires n <= |specs|
  {
    multiset(Offered(Present(CheckOut(idle, specs, n).found)))[key]
  }

  /** Of this key, the slots still idle and the matches are what was offered. */
  ghost predicate Balanced(idle: seq<Allocation>, specs: seq<Spec>, n: nat, key: Spec)
    requires n <= |specs|
  {
    multiset(Offered(CheckOut(idle, specs, n).rest))[key] + Matches(idle, specs, n, key)
    == multiset(Offered(idle))[key]
  }

  /** One descriptor changes the matches of its own key only. */
  lemma MatchesNext(idle: seq<Allocation>, specs: seq<Spec>, n: nat, key: Spec)
    requires n < |specs| && Balanced(idle, specs, n, key)
    ensures var more := Normalized(specs[n]) == key && !ReadBack(key)
                        && Matches(idle, specs, n, key) < multiset(Offered(idle))[key];
            Matches(idle, specs, n + 1, key) == Matches(idle, specs, n, key) + if more then 1 else 0
    ensures Balanced(idle, specs, n + 1, key)
  {
    var c, d := CheckOut(idle, specs, n), CheckOut(idle, specs, n + 1);
    MatchLaw(idle, specs, n);
    assert d.found == d.found[..n] + [d.found[n]];
    PresentPush(c.found, d.found[n]);
    if d.found[n].Some? {
      var i :| 0 <= i < |c.rest| && d.found[n] == Some(c.rest[i]) && c.rest[i].key == Normalized(specs[n])
               && d.rest == c.rest[..i] + c.rest[i + 1..];
      OfferedWithout(c.rest, i);
      OfferedPush(Present(c.found), c.rest[i]);
      assert Offered(c.rest)[i] in multiset(Offered(c.rest));
    } else if Normalized(specs[n]) == key && !ReadBack(key) {
      assert forall i :: 0 <= i < |Offered(c.rest)| ==> Offered(c.rest)[i] != key;
      assert key !in Offered(c.rest);
    }
  }

  /** How often the first n descriptors ask for this key. */
  ghost function Asked(specs: seq<Spec>, n: nat, key: Spec): nat
    requires n <= |specs|
  {
    multiset(Wanted(specs[..n]))[key]
  }

  lemma AskedNext(specs: seq<Spec>, n: nat, key: Spec)
    requires n < |specs|
    ensures Asked(specs, n + 1, key) == Asked(specs, n, key) + if Normalized(specs[n]) == key then 1 else 0
  {
    assert Wanted(specs[..n + 1]) == Wanted(specs[..n]) + [Normalized(specs[n])];
  }

  lemma {:induction false} MatchesBalance(idle: seq<Allocation>, specs: seq<Spec>, n: nat, key: Spec)
    requires n <= |specs|
    ensures Balanced(idle, specs, n, key)
  {
    if n == 0 {
      NoMatches(idle, specs, key);
    } else {
      MatchesBalance(idle, specs, n - 1, key);
      MatchesNext(idle, specs, n - 1, key);
    }
  }

  lemma NoMatches(idle: seq<Allocation>, specs: seq<Spec>, key: Spec)
    ensures Matches(idle, specs, 0, key) == 0 && Asked(specs, 0, key) == 0
    ensures CheckOut(idle, specs, 0).rest == idle
  {
    assert Offered([]) == [] && Wanted(specs[..0]) == [];
  }

  /** Of this key, the first n descriptors match as many as they ask for and the pool offers, whichever is less. */
  ghost predicate Allotted(idle: seq<Allocation>, specs: seq<Spec>, n: nat, key: Spec)
    requires n <= |specs|
  {
    Matches(idle, specs, n, key)
    == if ReadBack(key) then 0 else Least(Asked(specs, n, key), multiset(Offered(idle))[key])
  }

  lemma AllottedNext(idle: seq<Allocation>, specs: seq<Spec>, n: nat, key: Spec)
    requires n < |specs| && Balanced(idle, specs, n, key) && Allotted(idle, specs, n, key)
    ensures Allotted(idle, specs, n + 1, key)
  {
    MatchesNext(idle, specs, n, key);
    AskedNext(specs, n, key);
  }

  /** Of every key, a plan matches as many as it wants and the pool offers, whichever is less. */
  lemma {:induction false} MatchesAre(idle: seq<Allocation>, specs: seq<Spec>, n: nat, key: Spec)
    requires n <= |specs|
    ensures Allotted(idle, specs, n, key)
  {
    if n == 0 {
      NoMatches(idle, specs, key);
    } else {
      MatchesAre(idle, specs, n - 1, key);
      MatchesBalance(idle, specs, n - 1, key);
      AllottedNext(idle, specs, n - 1, key);
    }
  }

  predicate AllFound(found: seq<Option<Allocation>>) {
    forall i :: 0 <= i < |found| ==> found[i].Some?
  }

  lemma {:induction false} AllPresent(found: seq<Option<Allocation>>)
    ensures |Present(found)| <= |found|
    ensures |Present(found)| == |found| <==> AllFound(found)
  {
    if found == [] {
    } else {
      var n := |found| - 1;
      AllPresent(found[..n]);
      assert forall i :: 0 <= i < n ==> found[..n][i] == found[i];
    }
  }

  /** The key of what was found is the key that was wanted. */
  lemma FoundKey(idle: seq<Allocation>, specs: seq<Spec>, n: nat, i: nat)
    requires i < n <= |specs| && CheckOut(idle, specs, n).found[i].Some?
    ensures CheckOut(idle, specs, n).found[i].value.key == Normalized(specs[i]) && !ReadBack(specs[i])
  {
    NotesStand(idle, specs, i + 1, n);
    MatchLaw(idle, specs, i);
    assert CheckOut(idle, specs, n).found[i] == CheckOut(idle, specs, n).found[..i + 1][i];
  }

  lemma SameSize<T>(a: seq<T>, b: seq<T>)
    requires multiset(a) == multiset(b)
    ensures |a| == |b|
  {
    assert |multiset(a)| == |a| && |multiset(b)| == |b|;
  }

  /** A covered plan finds as many matches as it has descriptors. */
  lemma CoveredFinds(idle: seq<Allocation>, specs: seq<Spec>)
    requires Covered(specs, idle)
    ensures |Present(CheckOut(idle, specs, |specs|).found)| == |specs|
  {
    var matched, wanted := Offered(Present(CheckOut(idle, specs, |specs|).found)), Wanted(specs);
    assert specs[..|specs|] == specs;
    forall key ensures multiset(matched)[key] == multiset(wanted)[key] {
      MatchesAre(idle, specs, |specs|, key);
      assert key in multiset(wanted) ==> !ReadBack(key) by {
        assert forall i :: 0 <= i < |wanted| ==> !ReadBack(wanted[i]);
      }
    }
    SameSize(matched, wanted);
  }

  lemma FoundWanted(idle: seq<Allocation>, specs: seq<Spec>)
    requires AllFound(CheckOut(idle, specs, |specs|).found)
    ensures Offered(Present(CheckOut(idle, specs, |specs|).found)) == Wanted(specs)
    ensures forall i :: 0 <= i < |specs| ==> !ReadBack(specs[i])
  {
    var found := CheckOut(idle, specs, |specs|).found;
    PresentInOrder(found);
    forall i | 0 <= i < |specs| ensures found[i].value.key == Normalized(specs[i]) && !ReadBack(specs[i]) {
      FoundKey(idle, specs, |specs|, i);
    }
  }

  lemma FoundCovers(idle: seq<Allocation>, specs: seq<Spec>)
    requires AllFound(CheckOut(idle, specs, |specs|).found)
    ensures Covered(specs, idle)
  {
    FoundWanted(idle, specs);
    forall key ensures multiset(Wanted(specs))[key] <= multiset(Offered(idle))[key] {
      MatchesBalance(idle, specs, |specs|, key);
    }
  }

  /** A plan is matched as a whole exactly if the pool covers it. */
  lemma CoveredMeans(idle: seq<Allocation>, specs: seq<Spec>)
    ensures Covered(specs, idle) <==> AllFound(CheckOut(idle, specs, |specs|).found)
  {
    var found := CheckOut(idle, specs, |specs|).found;
    AllPresent(found);
    if Covered(specs, idle) {
      CoveredFinds(idle, specs);
    }
    if AllFound(found) {
      FoundCovers(idle, specs);
    }
  }

  lemma {:induction false} PresentInOrder(found: seq<Option<Allocation>>)
    requires AllFound(found)
    ensures |Present(found)| == |found| && forall i :: 0 <= i < |found| ==> Present(found)[i] == found[i].value
  {
    if found == [] {
    } else {
      PresentInOrder(found[..|found| - 1]);
    }
  }

  lemma {:induction false} NothingMissing(found: seq<Option<Allocation>>, specs: seq<Spec>, sizeOf: Sizing)
    requires |found| <= |specs| && AllFound(found)
    ensures Missing(found, specs, sizeOf) == 0
  {
    if found == [] {
    } else {
      NothingMissing(found[..|found| - 1], specs, sizeOf);
    }
  }

  /** A covered plan misses nothing: whatever the limit, it has no objection to meet and nothing to evict. */
  lemma CoveredPlan(idle: seq<Allocation>, specs: seq<Spec>, sizeOf: Sizing, used: nat, limit: Option<nat>)
    requires Covered(specs, idle) && used <= U64_MAX
    requires forall a :: a in idle ==> sizeOf(a.key).Ok?
    ensures Objection(specs, sizeOf, idle, used, limit).None?
    ensures Missing(CheckOut(idle, specs, |specs|).found, specs, sizeOf) == 0
    ensures FreeAt(CheckOut(idle, specs, |specs|).rest, Pressure(0, used, limit)) == 0
  {
    var c := CheckOut(idle, specs, |specs|);
    CoveredMeans(idle, specs);
    NothingMissing(c.found, specs, sizeOf);
    forall i | 0 <= i < |specs| ensures sizeOf(specs[i]).Ok? {
      assert Wanted(specs)[i] in multiset(Wanted(specs));
      assert Normalized(specs[i]) in multiset(Offered(idle));
      var j :| 0 <= j < |idle| && Offered(idle)[j] == Normalized(specs[i]);
      assert idle[j] in idle;
    }
  }
}

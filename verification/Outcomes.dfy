/** Results, errors and error-scope verdicts shared by every other module. */
module Outcomes {

  datatype Option<+T> = None | Some(value: T)

  datatype Result<+T, +E> = Ok(value: T) | Err(error: E)

  /** Why awaited work failed. */
  datatype WaitError =
    | Poll(message: string)
    | Map(message: string)
    | Dropped
    | SubmitPanicked(message: string)
    | SubmitRejected(message: string)
    | PollPanicked(message: string)
    | DeviceLost(message: string)

  /** What a completion signal or an error scope settles to. */
  type Outcome = Result<(), WaitError>

  type Scope = nat

  /** `small` may only be extended, never contradicted, by `large`. */
  predicate Extends<K(==), V(==)>(small: map<K, V>, large: map<K, V>) {
    forall k :: k in small ==> k in large && large[k] == small[k]
  }

  ghost predicate Distinct<T>(s: seq<T>) {
    forall i, j :: 0 <= i < j < |s| ==> s[i] != s[j]
  }

  /** The first failed scope in order decides; without one, the scopes accept. */
  function FirstError(scopes: seq<Scope>, settled: map<Scope, Outcome>): Outcome
    requires forall c :: c in scopes ==> c in settled
  {
    if scopes == [] then Ok(())
    else if settled[scopes[0]].Err? then settled[scopes[0]]
    else FirstError(scopes[1..], settled)
  }

  /** A composite of error scopes answers only once every member has settled. */
  function Verdict(scopes: seq<Scope>, settled: map<Scope, Outcome>): Option<Outcome> {
    if forall c :: c in scopes ==> c in settled then Some(FirstError(scopes, settled)) else None
  }

  lemma {:induction false} FirstErrorAccepts(scopes: seq<Scope>, settled: map<Scope, Outcome>)
    requires forall c :: c in scopes ==> c in settled
    ensures FirstError(scopes, settled).Ok? <==> forall c :: c in scopes ==> settled[c].Ok?
    ensures FirstError(scopes, settled).Ok? ==> FirstError(scopes, settled) == Ok(())
  {
    if scopes == [] {
    } else {
      assert scopes == [scopes[0]] + scopes[1..];
      FirstErrorAccepts(scopes[1..], settled);
    }
  }

  /** A composite accepts exactly when every owned scope settled without error. */
  lemma VerdictAccepts(scopes: seq<Scope>, settled: map<Scope, Outcome>)
    ensures Verdict(scopes, settled) == Some(Ok(())) <==>
            forall c :: c in scopes ==> c in settled && settled[c].Ok?
    ensures var v := Verdict(scopes, settled); v.Some? && v.value.Ok? ==> v == Some(Ok(()))
  {
    if forall c :: c in scopes ==> c in settled {
      FirstErrorAccepts(scopes, settled);
    }
  }

  predicate AllSettled(scopes: seq<Scope>, settled: map<Scope, Outcome>) {
    forall c :: c in scopes ==> c in settled
  }

  predicate AllAccept(scopes: seq<Scope>, settled: map<Scope, Outcome>) {
    forall c :: c in scopes ==> c in settled && settled[c].Ok?
  }

  /** Every scope has settled, and the first that failed is the i-th. */
  predicate FailsAt(scopes: seq<Scope>, settled: map<Scope, Outcome>, i: nat, error: WaitError) {
    && AllSettled(scopes, settled) && i < |scopes| && settled[scopes[i]] == Err(error)
    && forall j :: 0 <= j < i ==> settled[scopes[j]].Ok?
  }

  lemma {:induction false} FirstErrorIsFirst(scopes: seq<Scope>, settled: map<Scope, Outcome>, i: nat, error: WaitError)
    requires FailsAt(scopes, settled, i, error)
    ensures FirstError(scopes, settled) == Err(error)
  {
    assert scopes == [scopes[0]] + scopes[1..];
    if i > 0 {
      FirstErrorIsFirst(scopes[1..], settled, i - 1, error);
    }
  }

  lemma {:induction false} FirstErrorFails(scopes: seq<Scope>, settled: map<Scope, Outcome>) returns (i: nat)
    requires AllSettled(scopes, settled) && FirstError(scopes, settled).Err?
    ensures FailsAt(scopes, settled, i, FirstError(scopes, settled).error)
  {
    assert scopes == [scopes[0]] + scopes[1..];
    if settled[scopes[0]].Err? {
      i := 0;
    } else {
      var k := FirstErrorFails(scopes[1..], settled);
      i := k + 1;
    }
  }

  /** The three answers of a composite: pending, accepted, or the failure of the first failed member in order. */
  lemma VerdictMeans(scopes: seq<Scope>, settled: map<Scope, Outcome>)
    ensures Verdict(scopes, settled).None? <==> !AllSettled(scopes, settled)
    ensures Verdict(scopes, settled) == Some(Ok(())) <==> AllAccept(scopes, settled)
    ensures forall error :: Verdict(scopes, settled) == Some(Err(error)) <==>
                            exists i :: FailsAt(scopes, settled, i, error)
  {
    VerdictAccepts(scopes, settled);
    forall error | Verdict(scopes, settled) == Some(Err(error)) ensures exists i :: FailsAt(scopes, settled, i, error) {
      var i := FirstErrorFails(scopes, settled);
    }
    forall error, i | FailsAt(scopes, settled, i, error) ensures Verdict(scopes, settled) == Some(Err(error)) {
      FirstErrorIsFirst(scopes, settled, i, error);
    }
  }

  /** A settled composite never changes its answer as further scopes settle. */
  lemma {:induction false} VerdictSticks(scopes: seq<Scope>, early: map<Scope, Outcome>, late: map<Scope, Outcome>)
    requires Extends(early, late)
    requires Verdict(scopes, early).Some?
    ensures Verdict(scopes, late) == Verdict(scopes, early)
  {
    if scopes == [] {
    } else {
      assert scopes == [scopes[0]] + scopes[1..];
      assert Verdict(scopes[1..], early).Some?;
      VerdictSticks(scopes[1..], early, late);
    }
  }

  lemma DistinctConcat<T>(a: seq<T>, b: seq<T>)
    requires Distinct(a) && Distinct(b) && forall x :: x in a ==> x !in b
    ensures Distinct(a + b)
  {
    forall i, j | 0 <= i < j < |a + b| ensures (a + b)[i] != (a + b)[j] {
      if i < |a| && j >= |a| {
        assert a[i] in a && b[j - |a|] in b;
      }
    }
  }
}

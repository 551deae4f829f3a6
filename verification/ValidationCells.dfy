/**
 Error-scope futures shared by concurrent pollers. The future leaves its cell while it is
 polled, so the cell's lock is never held over a backend call.
 */
module ValidationCells {
  import opened Outcomes

  // ---------- a composite over its members ----------

  datatype Validation = Future(scope: Scope) | All(members: seq<Validation>)

  function Leaves(v: Validation): seq<Scope> {
    match v
    case Future(c) => [c]
    case All(members) => AllLeaves(members)
  }

  function AllLeaves(members: seq<Validation>): seq<Scope> {
    if members == [] then [] else Leaves(members[0]) + AllLeaves(members[1..])
  }

  /** Pending if any member is, else the first error in order. */
  function Composite(answers: seq<Option<Outcome>>): Option<Outcome> {
    if answers == [] then Some(Ok(()))
    else
      var rest := Composite(answers[1..]);
      if answers[0].None? || rest.None? then None
      else if answers[0].value.Err? then answers[0]
      else rest
  }

  /** The loop of `poll_all`: every member is polled, none is skipped after a failure. */
  method PollAll(answers: seq<Option<Outcome>>) returns (r: Option<Outcome>)
    ensures r == Composite(answers)
  {
    var pending, failure := false, None;
    var i := 0;
    while i < |answers|
      invariant 0 <= i <= |answers|
      invariant Composite(answers) == (if pending || Composite(answers[i..]).None? then None
                                       else if failure.Some? then Some(Err(failure.value))
                                       else Composite(answers[i..]))
    {
      assert answers[i..][1..] == answers[i + 1..];
      match answers[i] {
        case None => pending := true;
        case Some(Err(error)) =>
          if failure.None? {
            failure := Some(error);
          }
        case Some(Ok(_)) =>
      }
      i := i + 1;
    }
    r := if pending then None else Some(if failure.Some? then Err(failure.value) else Ok(()));
  }

  /** What polling a validation answers while `settled` is published. */
  function Poll(v: Validation, settled: map<Scope, Outcome>): Option<Outcome>
    decreases v
  {
    match v
    case Future(c) => if c in settled then Some(settled[c]) else None
    case All(members) => Composite(seq(|members|, i requires 0 <= i < |members| => Poll(members[i], settled)))
  }

  lemma VerdictConcat(a: seq<Scope>, b: seq<Scope>, settled: map<Scope, Outcome>)
    ensures Verdict(a + b, settled)
            == if Verdict(a, settled).None? || Verdict(b, settled).None? then None
               else if Verdict(a, settled).value.Err? then Verdict(a, settled)
               else Verdict(b, settled)
    decreases |a|
  {
    if a == [] {
      assert a + b == b;
    } else {
      assert a == [a[0]] + a[1..] && (a + b)[1..] == a[1..] + b;
      assert forall c :: c in a + b <==> c == a[0] || c in a[1..] || c in b;
      VerdictConcat(a[1..], b, settled);
      assert forall c :: c in a[1..] + b <==> c in a[1..] || c in b;
    }
  }

  /** However deep the nesting, a composite is the ordered verdict of its scopes. */
  lemma {:induction false} PollIsVerdict(v: Validation, settled: map<Scope, Outcome>)
    ensures Poll(v, settled) == Verdict(Leaves(v), settled)
    decreases v, 1, 0
  {
    match v
    case Future(c) =>
      assert [c][1..] == [];
      if c in settled {
        assert FirstError([c], settled) == settled[c] by {
          if settled[c].Ok? {
            assert settled[c].value == ();
          }
        }
      }
    case All(members) => PollAllIsVerdict(v, members, settled);
  }

  lemma {:induction false} PollAllIsVerdict(v: Validation, members: seq<Validation>, settled: map<Scope, Outcome>)
    requires forall m :: m in members ==> m < v
    ensures Composite(seq(|members|, i requires 0 <= i < |members| => Poll(members[i], settled)))
            == Verdict(AllLeaves(members), settled)
    decreases v, 0, |members|
  {
    if members == [] {
    } else {
      var answers := seq(|members|, i requires 0 <= i < |members| => Poll(members[i], settled));
      var rest := members[1..];
      assert answers[1..] == seq(|rest|, i requires 0 <= i < |rest| => Poll(rest[i], settled));
      assert members[0] in members && forall m :: m in rest ==> m in members;
      PollIsVerdict(members[0], settled);
      PollAllIsVerdict(v, rest, settled);
      VerdictConcat(Leaves(members[0]), AllLeaves(rest), settled);
    }
  }

  // ---------- the cells under concurrent pollers ----------

  datatype Token = InCell | HeldBy(thread: nat) | Destroyed

  datatype Cell = Cell(future: Token, outcome: Option<Outcome>)

  datatype Poller =
    | Resting
    | Holding(scope: Scope)                              // took the future, not polled yet
    | Polled(scope: Scope, verdict: Option<Outcome>)     // the backend answered, not published yet

  datatype State = State(
    cells: seq<Cell>,
    pollers: seq<Poller>,
    misused: bool)      // a future was polled after its scope had settled

  datatype Step =
    | Acquire(thread: nat, scope: Scope)
    | Backend(thread: nat, verdict: Option<Outcome>)
    | Publish(thread: nat)

  predicate Enabled(s: State, step: Step) {
    step.thread < |s.pollers| && var p := s.pollers[step.thread];
    match step
    case Acquire(_, c) => p.Resting? && c < |s.cells|
    case Backend(_, _) => p.Holding? && p.scope < |s.cells|
    case Publish(_) => p.Polled? && p.scope < |s.cells|
  }

  function Do(s: State, step: Step): State
    requires Enabled(s, step)
  {
    match step
    case Acquire(t, c) =>
      if s.cells[c].outcome.None? && s.cells[c].future.InCell? then
        s.(cells := s.cells[c := s.cells[c].(future := HeldBy(t))], pollers := s.pollers[t := Holding(c)])
      else s
    case Backend(t, verdict) =>
      var c := s.pollers[t].scope;
      s.(pollers := s.pollers[t := Polled(c, verdict)], misused := s.misused || s.cells[c].outcome.Some?)
    case Publish(t) =>
      var p := s.pollers[t];
      var token := if p.verdict.None? then InCell else Destroyed;
      s.(cells := s.cells[p.scope := Cell(token, p.verdict)], pollers := s.pollers[t := Resting])
  }

  predicate Has(p: Poller, c: Scope) {
    !p.Resting? && p.scope == c
  }

  /** The future is in its cell, in exactly one poller's hands, or gone with the outcome published. */
  ghost predicate CellOk(s: State, c: Scope)
    requires c < |s.cells|
  {
    match s.cells[c].future
    case InCell => s.cells[c].outcome.None? && forall t :: 0 <= t < |s.pollers| ==> !Has(s.pollers[t], c)
    case HeldBy(h) =>
      s.cells[c].outcome.None? && forall t :: 0 <= t < |s.pollers| ==> (Has(s.pollers[t], c) <==> t == h)
    case Destroyed => s.cells[c].outcome.Some? && forall t :: 0 <= t < |s.pollers| ==> !Has(s.pollers[t], c)
  }

  ghost predicate Inv(s: State) {
    !s.misused && forall c :: 0 <= c < |s.cells| ==> CellOk(s, c)
  }

  /** No step disturbs the one-token rule, and no future is polled after settling. */
  lemma StepKeeps(s: State, step: Step)
    requires Inv(s) && Enabled(s, step)
    ensures Inv(Do(s, step))
  {
    var t := Do(s, step);
    if step.Backend? {
      assert CellOk(s, s.pollers[step.thread].scope);
    }
    forall c | 0 <= c < |t.cells| ensures CellOk(t, c) {
      assert CellOk(s, c);
    }
  }

  /** A settled outcome is final. */
  lemma SettledSticks(s: State, step: Step, c: Scope)
    requires Inv(s) && Enabled(s, step) && c < |s.cells| && s.cells[c].outcome.Some?
    ensures c < |Do(s, step).cells| && Do(s, step).cells[c].outcome == s.cells[c].outcome
  {
    assert CellOk(s, c);
    if step.Publish? {
      assert Has(s.pollers[step.thread], s.pollers[step.thread].scope);
    }
  }

  // ---------- runs ----------

  ghost predicate IsRun(states: seq<State>, steps: seq<Step>) {
    && |states| == |steps| + 1
    && forall n {:trigger steps[n]} :: 0 <= n < |steps| ==>
         Enabled(states[n], steps[n]) && states[n + 1] == Do(states[n], steps[n])
  }

  ghost predicate Initial(s: State) {
    && !s.misused
    && (forall c :: 0 <= c < |s.cells| ==> s.cells[c] == Cell(InCell, None))
    && (forall t :: 0 <= t < |s.pollers| ==> s.pollers[t].Resting?)
  }

  lemma {:induction false} RunKeeps(states: seq<State>, steps: seq<Step>, n: nat)
    requires IsRun(states, steps) && Initial(states[0]) && n < |states|
    ensures Inv(states[n]) && |states[n].cells| == |states[0].cells|
  {
    if n == 0 {
    } else {
      RunKeeps(states, steps, n - 1);
      assert steps[n - 1] == steps[n - 1];
      StepKeeps(states[n - 1], steps[n - 1]);
    }
  }

  function Published(s: State): map<Scope, Outcome> {
    map c | 0 <= c < |s.cells| && s.cells[c].outcome.Some? :: s.cells[c].outcome.value
  }

  /** Published verdicts only accumulate along a run. */
  lemma {:induction false} PublishedGrows(states: seq<State>, steps: seq<Step>, m: nat, n: nat)
    requires IsRun(states, steps) && Initial(states[0]) && m <= n < |states|
    ensures Extends(Published(states[m]), Published(states[n]))
  {
    if m == n {
    } else {
      PublishedGrows(states, steps, m, n - 1);
      RunKeeps(states, steps, n - 1);
      RunKeeps(states, steps, n);
      assert steps[n - 1] == steps[n - 1];
      forall c | c in Published(states[n - 1])
        ensures c in Published(states[n]) && Published(states[n])[c] == Published(states[n - 1])[c]
      {
        SettledSticks(states[n - 1], steps[n - 1], c);
      }
    }
  }

  /** A composite poll looked at member k in state `moments[k]` and was answered from there. */
  ghost predicate Sampled(states: seq<State>, scopes: seq<Scope>, moments: seq<nat>, answers: seq<Option<Outcome>>) {
    && |moments| == |answers| == |scopes|
    && (forall k :: 0 <= k < |moments| ==> moments[k] < |states|)
    && (forall j, k :: 0 <= j < k < |moments| ==> moments[j] <= moments[k])
    && (forall k :: 0 <= k < |answers| ==>
          answers[k] == if scopes[k] in Published(states[moments[k]])
              then Some(Published(states[moments[k]])[scopes[k]]) else None)
  }

  lemma {:induction false} CompositeOf(scopes: seq<Scope>, settled: map<Scope, Outcome>, answers: seq<Option<Outcome>>)
    requires |answers| == |scopes| && forall k :: 0 <= k < |scopes| ==>
              scopes[k] in settled && answers[k] == Some(settled[scopes[k]])
    ensures Composite(answers) == Verdict(scopes, settled) && Composite(answers).Some?
  {
    if scopes == [] {
    } else {
      CompositeOf(scopes[1..], settled, answers[1..]);
      assert forall c :: c in scopes ==> c in settled;
    }
  }

  lemma {:induction false} CompositePending(answers: seq<Option<Outcome>>)
    ensures Composite(answers).None? <==> exists k :: 0 <= k < |answers| && answers[k].None?
  {
    if answers == [] {
    } else {
      CompositePending(answers[1..]);
      if k :| 0 <= k < |answers[1..]| && answers[1..][k].None? {
        assert answers[k + 1].None?;
      }
      if k :| 0 <= k < |answers| && answers[k].None? && k > 0 {
        assert answers[1..][k - 1].None?;
      }
    }
  }

  /**
   A composite answers only once every member has settled, and then with the ordered
   verdict every later poll repeats; pending means some member really was unsettled when
   it was looked at - although other pollers ran between two members.
   */
  lemma CompositeIsAtomic(states: seq<State>, steps: seq<Step>, scopes: seq<Scope>, moments: seq<nat>,
                          answers: seq<Option<Outcome>>, later: nat)
    requires IsRun(states, steps) && Initial(states[0]) && Sampled(states, scopes, moments, answers)
    requires later < |states| && forall k :: 0 <= k < |moments| ==> moments[k] <= later
    ensures Composite(answers).Some? ==> Verdict(scopes, Published(states[later])) == Composite(answers)
    ensures Composite(answers).None? ==>
              exists k :: 0 <= k < |moments| && Verdict(scopes, Published(states[moments[k]])).None?
  {
    CompositePending(answers);
    if Composite(answers).Some? {
      forall k | 0 <= k < |scopes|
        ensures scopes[k] in Published(states[later]) && answers[k] == Some(Published(states[later])[scopes[k]])
      {
        PublishedGrows(states, steps, moments[k], later);
      }
      CompositeOf(scopes, Published(states[later]), answers);
    } else {
      var k :| 0 <= k < |answers| && answers[k].None?;
      assert scopes[k] in scopes && scopes[k] !in Published(states[moments[k]]);
    }
  }

  // ---------- a checked operation ----------

  /** An operation's result stays private until its scopes settle, and is handed out once. */
  class Checked<T> {
    var value: Option<Result<T, WaitError>>

    constructor (value: Result<T, WaitError>)
      ensures this.value == Some(value)
    {
      this.value := Some(value);
    }

    method Poll(validation: Option<Outcome>) returns (r: Option<Result<T, WaitError>>)
      modifies this
      ensures old(value).None? ==> r == Some(Err(Dropped)) && value.None?
      ensures old(value).Some? && validation.None? ==> r.None? && value == old(value)
      ensures old(value).Some? && validation.Some? ==>
                value.None? && r == Some(if validation.value.Err? then Err(validation.value.error)
                    else old(value).value)
    {
      if value.None? {
        return Some(Err(Dropped));
      }
      if validation.None? {
        return None;
      }
      r := Some(if validation.value.Err? then Err(validation.value.error) else value.value);
      value := None;
    }
  }
}

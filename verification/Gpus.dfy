/**
 The GPU and everything around the queue owner that moves without asking it: the
 driver, completion callbacks, scope futures, other threads and the host's loss
 notifier. It is the environment of the protocol: constrained, never controlled.
 */
module Gpus {
  import opened Outcomes

  type Lease = nat
  type Signal = nat
  type Command = nat

  datatype Gpu = Gpu(
    stream: seq<seq<Command>>,         // everything ever queued, in queue order
    retired: nat,                      // the prefix of the stream that finished executing
    queued: map<Lease, nat>,           // where in the stream a lease's commands went
    bound: map<Signal, nat>,           // the stream position whose retirement runs a callback
    signals: map<Signal, Outcome>,     // first outcome of each completion signal
    owned: map<Lease, set<Scope>>,     // the error scopes under which a lease's work was made
    settled: map<Scope, Outcome>,      // error scopes whose verdict is published
    nextSignal: nat,
    nextScope: nat,
    lost: Option<string>)              // terminal loss reported by the host

  /** What the hardware promises: a callback runs only after its position retired. */
  predicate Sound(g: Gpu) {
    && g.retired <= |g.stream|
    && (forall s :: s in g.signals && g.signals[s].Ok? ==> s in g.bound && g.bound[s] < g.retired)
    && (forall s :: s in g.bound ==> s < g.nextSignal && g.bound[s] < |g.stream|)
    && (forall l :: l in g.queued ==> g.queued[l] < |g.stream|)
    && (forall c :: c in g.settled ==> c < g.nextScope)
  }

  /** Monotone history: nothing recorded is ever taken back. */
  predicate Later(g: Gpu, h: Gpu) {
    && g.stream <= h.stream
    && g.retired <= h.retired
    && Extends(g.queued, h.queued)
    && Extends(g.bound, h.bound)
    && Extends(g.signals, h.signals)
    && Extends(g.settled, h.settled)
    && g.nextSignal <= h.nextSignal
    && g.nextScope <= h.nextScope
    && (g.lost.Some? ==> h.lost == g.lost)
    && (forall s :: s in h.bound && s !in g.bound ==> s >= g.nextSignal)
  }

  /** One uncontrolled move: it may settle, signal, retire, submit foreign work or lose the device. */
  predicate Evolves(g: Gpu, h: Gpu) {
    Sound(h) && Later(g, h) && h.queued == g.queued && h.owned == g.owned
  }

  /** Commands of this lease may still be executing, or may execute later. */
  predicate MayRun(g: Gpu, l: Lease) {
    l in g.queued && g.retired <= g.queued[l] && g.lost.None?
  }

  lemma LaterTransitive(a: Gpu, b: Gpu, c: Gpu)
    requires Later(a, b) && Later(b, c)
    ensures Later(a, c)
  {
    assert forall s :: s in c.bound && s !in a.bound && s in b.bound ==> s >= a.nextSignal;
  }
}

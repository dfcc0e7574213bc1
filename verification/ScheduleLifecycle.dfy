/** Scheduled runs over whole executions. */
module ScheduleLifecycleSpec {
  import opened Schema
  import opened Coordinator
  import opened Schedule
  import opened Machine
  import opened WindowSpec

  predicate SameNaturalKey(a: Run, b: Run) {
    a.owner == b.owner && a.trigger == b.trigger && a.key == b.key && a.start == b.start && a.end == b.end
  }

  /** The unique constraint over owner, trigger, key and window. */
  predicate UniqueNaturalKeys(runs: map<Uuid, Run>) {
    forall a, b :: a in runs && b in runs && SameNaturalKey(runs[a], runs[b]) ==> a == b
  }

  /** Action `at` accepts the occurrence while the owner counts as activated at `activation`. */
  predicate AcceptedAt(states: seq<State>, actions: seq<Action>, at: nat, o: Occurrence, owner: Uuid,
      activation: Instant) {
    && |states| == |actions| + 1 && at < |actions|
    && actions[at].OccurrenceArrives? && actions[at].occurrence == o
    && AcceptOccurrence(states[at].t, o, actions[at].newIds, states[at].now).1 == Applied
    && ActivatedAt(states[at].t.subscriptions, owner, o.due, activation)
  }

  /** The run carries the window that one of the occurrences gives the owner. */
  predicate OfChain(run: Run, os: seq<Occurrence>, owner: Uuid, activation: Instant) {
    exists k :: 0 <= k < |os| && activation < os[k].due && FannedTo(run, os[k], owner, StartOf(activation, os[k]))
  }

  /** A stored run of the chain whose window holds the instant. */
  predicate Carries(runs: map<Uuid, Run>, r: Uuid, os: seq<Occurrence>, owner: Uuid, activation: Instant, x: Instant) {
    r in runs && OfChain(runs[r], os, owner, activation) && runs[r].start <= x < runs[r].end
  }
}

/** Natural keys stay unique, and the stored scheduled runs of an owner tile time. */
module ScheduleLifecycle {
  import opened Schema
  import opened Coordinator
  import I = Intake
  import opened Schedule
  import opened Machine
  import opened EvidenceSpec
  import opened LifecycleSpec
  import opened Traces
  import opened Lifecycle
  import opened Deadlines
  import opened WindowSpec
  import opened ScheduleProofs
  import opened ScheduleLifecycleSpec

  // ---------------------------------------------------------------- natural keys

  lemma {:induction false} KeysStayUnique(runs: map<Uuid, Run>, runs': map<Uuid, Run>)
    requires UniqueNaturalKeys(runs) && runs'.Keys == runs.Keys
    requires forall r :: r in runs ==> SameNaturalKey(runs[r], runs'[r])
    ensures UniqueNaturalKeys(runs')
  {
    forall a, b | a in runs' && b in runs' && SameNaturalKey(runs'[a], runs'[b])
      ensures a == b
    {
      assert SameNaturalKey(runs[a], runs[b]);
    }
  }

  lemma {:induction false} NewKeyIsUnique(runs: map<Uuid, Run>, id: Uuid, run: Run)
    requires UniqueNaturalKeys(runs) && forall r :: r in runs ==> !SameNaturalKey(runs[r], run)
    ensures UniqueNaturalKeys(runs[id := run])
  {
  }

  lemma {:induction false} AcceptRunKeys(t: Tables, c: I.RunRequest, now: Instant)
    requires UniqueNaturalKeys(t.runs)
    ensures UniqueNaturalKeys(I.AcceptRun(t, c, now).0.runs)
  {
    var runs' := I.AcceptRun(t, c, now).0.runs;
    if runs' != t.runs {
      assert runs' == t.runs[c.run := I.NewRun(c, now)] && !I.NaturalKeyUsed(t.runs, c);
      forall r | r in t.runs
        ensures !SameNaturalKey(t.runs[r], I.NewRun(c, now))
      {
        assert !I.SameNaturalKey(t.runs[r], c);
      }
      NewKeyIsUnique(t.runs, c.run, I.NewRun(c, now));
    }
  }

  lemma {:induction false} FanOutOneKeys(runs: map<Uuid, Run>, o: Occurrence, owner: Uuid, start: Instant,
      newId: Option<Uuid>, now: Instant)
    requires UniqueNaturalKeys(runs) && FanOutOne(runs, o, owner, start, newId, now).Some?
    ensures UniqueNaturalKeys(FanOutOne(runs, o, owner, start, newId, now).value)
  {
    if !ScheduledRunExists(runs, owner, o.key, start, o.due) {
      var run := Run(owner, o.operation, Scheduled, o.key, start, o.due, Accepted, None, false, now, now);
      NewKeyIsUnique(runs, newId.value, run);
    }
  }

  lemma {:induction false} FanOutKeys(subscriptions: map<SubscriptionKey, Subscription>, runs: map<Uuid, Run>,
      o: Occurrence, owners: seq<Uuid>, n: nat, newIds: seq<Uuid>, now: Instant)
    requires n <= |owners| && forall x :: x in owners ==> x in OwnersBefore(subscriptions, o.due)
    requires UniqueNaturalKeys(runs) && FanOut(subscriptions, runs, o, owners, n, newIds, now).Some?
    ensures UniqueNaturalKeys(FanOut(subscriptions, runs, o, owners, n, newIds, now).value)
    decreases n
  {
    if n > 0 {
      FanOutKeys(subscriptions, runs, o, owners, n - 1, newIds, now);
      FanOutOneKeys(FanOut(subscriptions, runs, o, owners, n - 1, newIds, now).value, o, owners[n - 1],
                    FannedWindowStart(subscriptions, owners[n - 1], o),
                    if n <= |newIds| then Some(newIds[n - 1]) else None, now);
    }
  }

  lemma {:induction false} OccurrenceKeys(t: Tables, o: Occurrence, newIds: seq<Uuid>, now: Instant)
    requires UniqueNaturalKeys(t.runs)
    ensures UniqueNaturalKeys(AcceptOccurrence(t, o, newIds, now).0.runs)
  {
    if AcceptOccurrence(t, o, newIds, now).1 == Applied {
      var owners := OwnerOrder(t.subscriptions, o.due);
      FanOutKeys(t.subscriptions, t.runs, o, owners, |owners|, newIds, now);
    }
  }

  lemma {:induction false} NextKeys(w: Settings, s: State, a: Action)
    requires UniqueNaturalKeys(s.t.runs) && Steady(s.t, Next(w, s, a).t)
    ensures UniqueNaturalKeys(Next(w, s, a).t.runs)
  {
    if a.RunArrives? {
      AcceptRunKeys(s.t, a.run, s.now);
    } else if a.OccurrenceArrives? {
      OccurrenceKeys(s.t, a.occurrence, a.newIds, s.now);
    } else {
      NextInPlace(w, s, a);
      SteadyKeys(s.t, Next(w, s, a).t);
    }
  }

  lemma {:induction false} SteadyKeys(t: Tables, t': Tables)
    requires UniqueNaturalKeys(t.runs) && Steady(t, t') && t'.runs.Keys == t.runs.Keys
    ensures UniqueNaturalKeys(t'.runs)
  {
    forall r | r in t.runs
      ensures SameNaturalKey(t.runs[r], t'.runs[r])
    {
      assert SteadyRun(t.runs[r], t'.runs[r]);
    }
    KeysStayUnique(t.runs, t'.runs);
  }

  /** No two stored runs share owner, trigger, key and window. */
  lemma {:induction false} NaturalKeysAreUnique(w: Settings, issued: Issuer, states: seq<State>, actions: seq<Action>,
      i: nat)
    requires Service(w, issued, states, actions) && i < |states|
    ensures UniqueNaturalKeys(states[i].t.runs)
    decreases i
  {
    if i > 0 {
      NaturalKeysAreUnique(w, issued, states, actions, i - 1);
      ServiceIsFine(w, issued, states, actions);
      SteadyThrough(states, i - 1, i);
      assert StepOf(w, issued, states, actions, i - 1);
      NextKeys(w, states[i - 1], actions[i - 1]);
    }
  }

  // ---------------------------------------------------------------- tiling

  /** The run an accepted occurrence gave the owner is stored from then on. */
  lemma {:induction false} FannedRunStays(w: Settings, issued: Issuer, states: seq<State>, actions: seq<Action>,
      at: nat, i: nat, o: Occurrence, owner: Uuid, activation: Instant)
    requires Service(w, issued, states, actions) && at < i < |states| && activation < o.due
    requires AcceptedAt(states, actions, at, o, owner, activation)
    ensures HasFanned(states[i].t.runs, o, owner, StartOf(activation, o))
  {
    AcceptedOccurrenceReaches(states[at].t, o, actions[at].newIds, states[at].now, owner, activation);
    assert StepOf(w, issued, states, actions, at);
    ServiceIsFine(w, issued, states, actions);
    var r :| r in states[at + 1].t.runs && FannedTo(states[at + 1].t.runs[r], o, owner, StartOf(activation, o));
    RunKept(states, at + 1, i, r);
    assert FannedTo(states[i].t.runs[r], o, owner, StartOf(activation, o));
  }

  /** A run of the chain that holds the instant belongs to the one window the instant lies in. */
  lemma {:induction false} HolderIsUnique(runs: map<Uuid, Run>, os: seq<Occurrence>, owner: Uuid, activation: Instant,
      x: Instant, a: Uuid, b: Uuid)
    requires UniqueNaturalKeys(runs) && Chained(os)
    requires Carries(runs, a, os, owner, activation, x) && Carries(runs, b, os, owner, activation, x)
    ensures a == b
  {
    var i :| 0 <= i < |os| && activation < os[i].due && FannedTo(runs[a], os[i], owner, StartOf(activation, os[i]));
    var j :| 0 <= j < |os| && activation < os[j].due && FannedTo(runs[b], os[j], owner, StartOf(activation, os[j]));
    WindowsAreDisjoint(activation, os, i, j, x);
    assert SameNaturalKey(runs[a], runs[b]);
  }

  /** An instant is held by a run of the chain exactly when it lies in some window. */
  lemma {:induction false} HeldWhenWindowed(runs: map<Uuid, Run>, os: seq<Occurrence>, owner: Uuid, activation: Instant,
      x: Instant)
    requires forall k :: 0 <= k < |os| && activation < os[k].due ==>
      HasFanned(runs, os[k], owner, StartOf(activation, os[k]))
    ensures InSomeWindow(activation, os, x) <==> exists r :: Carries(runs, r, os, owner, activation, x)
  {
    if InSomeWindow(activation, os, x) {
      var k :| 0 <= k < |os| && InWindowOf(activation, os[k], x);
      var r :| r in runs && FannedTo(runs[r], os[k], owner, StartOf(activation, os[k]));
      assert Carries(runs, r, os, owner, activation, x);
    }
    if r :| Carries(runs, r, os, owner, activation, x) {
      var k :| 0 <= k < |os| && activation < os[k].due && FannedTo(runs[r], os[k], owner, StartOf(activation, os[k]));
      assert InWindowOf(activation, os[k], x);
    }
  }

  /** Scheduled runs tile time: in an execution that accepts occurrences which follow each other within seven
      days, for an owner activated at `activation` throughout, at the end an instant is inside a stored run of
      theirs if and only if it lies between the activation, or the first previous due, and the last due, and
      then inside exactly one. */
  lemma {:induction false} ScheduledRunsTile(w: Settings, issued: Issuer, states: seq<State>, actions: seq<Action>,
      i: nat, os: seq<Occurrence>, at: seq<nat>, owner: Uuid, activation: Instant, x: Instant)
    requires Service(w, issued, states, actions) && i < |states|
    requires |at| == |os| && os != [] && Chained(os) && WeeklyAtMost(os)
    requires forall k :: 0 <= k < |os| ==> at[k] < i && AcceptedAt(states, actions, at[k], os[k], owner, activation)
    ensures Greatest(activation, os[0].previousDue) <= x < os[|os| - 1].due <==>
      exists r :: Carries(states[i].t.runs, r, os, owner, activation, x)
    ensures var runs := states[i].t.runs;
      forall a, b | Carries(runs, a, os, owner, activation, x) && Carries(runs, b, os, owner, activation, x) :: a == b
  {
    WindowsTile(activation, os, x);
    NaturalKeysAreUnique(w, issued, states, actions, i);
    forall k | 0 <= k < |os| && activation < os[k].due
      ensures HasFanned(states[i].t.runs, os[k], owner, StartOf(activation, os[k]))
    {
      FannedRunStays(w, issued, states, actions, at[k], i, os[k], owner, activation);
    }
    HeldWhenWindowed(states[i].t.runs, os, owner, activation, x);
    var runs := states[i].t.runs;
    forall a, b | Carries(runs, a, os, owner, activation, x) && Carries(runs, b, os, owner, activation, x)
      ensures a == b
    {
      HolderIsUnique(runs, os, owner, activation, x, a, b);
    }
  }
}

/** What an outside observer of a whole execution may rely on. */
module LifecycleSpec {
  import opened Schema
  import opened Coordinator
  import opened Executor
  import opened Machine
  import opened EvidenceSpec

  const NO_TABLES := Tables(map[], map[], map[], map[], map[], map[], map[], map[], map[])

  /** A service that starts on an empty database. */
  predicate Blank(s: State) {
    s.t == NO_TABLES && s.x == Idle && s.handlers == map[] && s.refusals == {}
  }

  /** An execution from an empty database. */
  ghost predicate Service(w: Settings, issued: Issuer, states: seq<State>, actions: seq<Action>) {
    Execution(w, issued, states, actions) && Blank(states[0])
  }

  /** States that keep the invariant and follow from each other by steps that keep it. */
  ghost predicate FineTrace(issued: Issuer, states: seq<State>) {
    && (forall i :: 0 <= i < |states| ==> Inv(issued, states[i]))
    && (forall i :: 0 <= i < |states| - 1 ==> Fine(issued, states[i].t, states[i + 1].t))
  }

  /** Every step leaves what no step may touch. */
  predicate SteadyTrace(states: seq<State>) {
    forall i :: 0 <= i < |states| - 1 ==>
      Steady(states[i].t, states[i + 1].t) && ReportsFollow(states[i].t, states[i + 1].t)
  }

  predicate InState(s: State, r: Uuid, state: RunState) {
    r in s.t.runs && s.t.runs[r].state == state
  }

  /** The run was acquiring at some moment up to `i`. */
  predicate Began(states: seq<State>, i: nat, r: Uuid) {
    exists j :: 0 <= j <= i < |states| && InState(states[j], r, Acquiring)
  }

  /** The terminal status of a settled run. */
  function StatusOf(state: RunState): (status: OperationStatus)
    requires state.Settled()
    ensures status.Terminal()
  {
    match state
    case RunCompleted => Succeeded
    case RunPartial => PartiallySucceeded
    case RunFailed => Failed
  }

  /** The operation is queued, has its one terminal report exactly when the run is settled, and none
      that tells another end. */
  predicate ReportsTrack(run: Run, outbox: Outbox) {
    && ReportOf(run.operation, Queued) in outbox
    && forall status: OperationStatus :: status.Terminal() ==>
         (ReportOf(run.operation, status) in outbox <==> run.state.Settled() && status == StatusOf(run.state))
  }

  /** Everything a settling completion writes tells the same outcome, and its report warns of exactly the
      causes that apply. */
  predicate Tells(t: Tables, fact: Completion, incomplete: bool) {
    var run, complete := fact.run, fact.omitted == 0 && !incomplete;
    && run in t.runs && run in t.results
    && t.runs[run].state == (if complete then RunCompleted else RunPartial)
    && t.results[run].outcome == t.runs[run].state
    && (t.runs[run].trigger.OnDemand? ==>
         && (ReportOf(t.runs[run].operation, Succeeded) in t.outbox <==> complete)
         && (ReportOf(t.runs[run].operation, PartiallySucceeded) in t.outbox <==> !complete)
         && var status := if complete then Succeeded else PartiallySucceeded;
            Warns(t.outbox, ReportOf(t.runs[run].operation, status), fact, incomplete))
  }

  /** The queued report names the result and warns of omitted context and of unread channels, each exactly when
      it happened. */
  predicate Warns(outbox: Outbox, k: OutboxKey, fact: Completion, incomplete: bool) {
    && k in outbox && outbox[k].Report? && outbox[k].owner == fact.owner && outbox[k].result == Some(fact.result)
    && (ContextOmitted in outbox[k].warnings <==> fact.omitted > 0)
    && (AcquisitionIncomplete in outbox[k].warnings <==> incomplete)
  }

  /** The transaction settles the run of a verified completion. */
  ghost predicate Settles(s: State, h: nat, fact: Completion) {
    && h in s.handlers && s.handlers[h].Verified? && s.handlers[h].fact == fact
    && SettleCompletion(s.t, fact, s.handlers[h].incomplete, s.now).1 == Applied
  }

  /** The transaction from `t` to `t'` settled the run of the completion, whose handler was right. */
  ghost predicate SettlementAt(t: Tables, t': Tables, fact: Completion, incomplete: bool, now: Instant) {
    && SettleCompletion(t, fact, incomplete, now) == (t', Applied)
    && HandlerOk(t.runs, t.manifests, Verified(fact, incomplete))
  }
}

/** Traces of states, whatever the actions between them were. */
module Traces {
  import opened Schema
  import opened Machine
  import opened EvidenceSpec
  import opened LifecycleSpec

  lemma {:induction false} SteadyTransitive(a: Tables, b: Tables, c: Tables)
    requires Steady(a, b) && Steady(b, c)
    ensures Steady(a, c)
  {
    forall r | r in a.runs
      ensures SteadyRun(a.runs[r], c.runs[r])
    {
      assert SteadyRun(a.runs[r], b.runs[r]) && SteadyRun(b.runs[r], c.runs[r]);
    }
    forall r | r in a.manifests
      ensures SameManifest(a.manifests[r], c.manifests[r])
    {
      assert SameManifest(a.manifests[r], b.manifests[r]) && SameManifest(b.manifests[r], c.manifests[r]);
    }
    assert Grows(a.inbox, c.inbox);
    assert Grows(a.outbox, c.outbox);
  }

  lemma {:induction false} FineIsSteady(issued: Issuer, states: seq<State>)
    requires FineTrace(issued, states)
    ensures SteadyTrace(states)
  {
    forall i | 0 <= i < |states| - 1
      ensures Steady(states[i].t, states[i + 1].t) && ReportsFollow(states[i].t, states[i + 1].t)
    {
      assert Fine(issued, states[i].t, states[i + 1].t);
    }
  }

  lemma {:induction false} SteadyThrough(states: seq<State>, i: nat, j: nat)
    requires SteadyTrace(states) && i <= j < |states|
    ensures Steady(states[i].t, states[j].t)
    decreases j - i
  {
    if i < j {
      SteadyThrough(states, i, j - 1);
      assert Steady(states[j - 1].t, states[j - 1 + 1].t);
      SteadyTransitive(states[i].t, states[j - 1].t, states[j].t);
    }
  }

  /** A run never disappears and never changes what it is about. */
  lemma {:induction false} RunKept(states: seq<State>, i: nat, j: nat, r: Uuid)
    requires SteadyTrace(states) && i <= j < |states| && r in states[i].t.runs
    ensures r in states[j].t.runs && SteadyRun(states[i].t.runs[r], states[j].t.runs[r])
  {
    SteadyThrough(states, i, j);
  }

  lemma {:induction false} RunningMeansBegan(issued: Issuer, states: seq<State>, i: nat, r: Uuid)
    requires FineTrace(issued, states) && i < |states| && states[0].t.outbox == map[]
    requires r in states[i].t.runs && states[i].t.runs[r].trigger.OnDemand?
    requires ReportOf(states[i].t.runs[r].operation, Running) in states[i].t.outbox
    ensures Began(states, i, r)
    decreases i
  {
    if states[i].t.runs[r].state.Acquiring? {
      assert InState(states[i], r, Acquiring);
    } else {
      assert Fine(issued, states[i - 1].t, states[i - 1 + 1].t);
      assert r in states[i - 1].t.runs && ReportOf(states[i].t.runs[r].operation, Running) in states[i - 1].t.outbox;
      assert SteadyRun(states[i - 1].t.runs[r], states[i].t.runs[r]);
      RunningMeansBegan(issued, states, i - 1, r);
      var j :| 0 <= j <= i - 1 && InState(states[j], r, Acquiring);
      assert InState(states[j], r, Acquiring);
    }
  }

  lemma {:induction false} SilentStep(t: Tables, t': Tables, r: Uuid, status: OperationStatus)
    requires ReportsFollow(t, t') && Steady(t, t') && r in t.runs && t.runs[r].trigger.Scheduled?
    ensures var k := ReportOf(t.runs[r].operation, status); k in t'.outbox <==> k in t.outbox
  {
  }

  lemma {:induction false} SilentThrough(states: seq<State>, i: nat, j: nat, r: Uuid, status: OperationStatus)
    requires SteadyTrace(states) && i <= j < |states|
    requires r in states[i].t.runs && states[i].t.runs[r].trigger.Scheduled?
    ensures var k := ReportOf(states[i].t.runs[r].operation, status);
      k in states[j].t.outbox <==> k in states[i].t.outbox
    decreases j - i
  {
    if i < j {
      SilentThrough(states, i, j - 1, r, status);
      RunKept(states, i, j - 1, r);
      assert ReportsFollow(states[j - 1].t, states[j - 1 + 1].t);
      SilentStep(states[j - 1].t, states[j].t, r, status);
    }
  }

  lemma {:induction false} BeganMeansRunning(issued: Issuer, states: seq<State>, i: nat, r: Uuid)
    requires FineTrace(issued, states) && Began(states, i, r)
    requires r in states[i].t.runs && states[i].t.runs[r].trigger.OnDemand?
    ensures ReportOf(states[i].t.runs[r].operation, Running) in states[i].t.outbox
  {
    var j :| 0 <= j <= i && InState(states[j], r, Acquiring);
    FineIsSteady(issued, states);
    SteadyThrough(states, j, i);
    RunKept(states, j, i, r);
    assert Inv(issued, states[j]);
    assert ReportsAt(states[j].t.runs, states[j].t.outbox, r);
  }

  lemma {:induction false} ReportsTrackAt(issued: Issuer, states: seq<State>, i: nat, r: Uuid)
    requires FineTrace(issued, states) && i < |states|
    requires r in states[i].t.runs && states[i].t.runs[r].trigger.OnDemand?
    ensures ReportsTrack(states[i].t.runs[r], states[i].t.outbox)
  {
    assert Inv(issued, states[i]);
    assert ReportsAt(states[i].t.runs, states[i].t.outbox, r);
  }
}

/** The run lifecycle over whole executions, under every interleaving of intake, the executor, the
    reaper, the sweeps and the facts in flight. */
module Lifecycle {
  import opened Schema
  import opened Coordinator
  import opened Machine
  import opened EvidenceSpec
  import opened EvidenceSteps
  import opened LifecycleSpec
  import opened Traces

  lemma {:induction false} BlankInv(issued: Issuer, s: State)
    requires Blank(s)
    ensures Inv(issued, s)
  {
    forall r: Uuid
      ensures EvidenceAt(s.t.runs, s.t.manifests, s.t.results, s.t.outbox, r)
    {
    }
  }

  /** Every reachable state satisfies the invariant. */
  lemma {:induction false} Reachable(w: Settings, issued: Issuer, states: seq<State>, actions: seq<Action>, i: nat)
    requires Service(w, issued, states, actions) && i < |states|
    ensures Inv(issued, states[i])
    decreases i
  {
    if i == 0 {
      BlankInv(issued, states[0]);
    } else {
      Reachable(w, issued, states, actions, i - 1);
      assert StepOf(w, issued, states, actions, i - 1);
      NextKept(w, issued, states[i - 1], actions[i - 1]);
    }
  }

  lemma {:induction false} ServiceIsFine(w: Settings, issued: Issuer, states: seq<State>, actions: seq<Action>)
    requires Service(w, issued, states, actions)
    ensures FineTrace(issued, states) && SteadyTrace(states)
  {
    forall i | 0 <= i < |states|
      ensures Inv(issued, states[i])
    {
      Reachable(w, issued, states, actions, i);
    }
    forall i | 0 <= i < |states| - 1
      ensures Fine(issued, states[i].t, states[i + 1].t)
    {
      assert StepOf(w, issued, states, actions, i);
      NextKept(w, issued, states[i], actions[i]);
    }
    FineIsSteady(issued, states);
  }

  /** In every reachable state the manifests, recap requests and results are exactly those the run
      states stand for. */
  lemma {:induction false} EvidenceMatchesState(w: Settings, issued: Issuer, states: seq<State>, actions: seq<Action>,
      i: nat, r: Uuid)
    requires Service(w, issued, states, actions) && i < |states| && r in states[i].t.runs
    ensures var t := states[i].t;
      && RunShape(t.runs[r].state, r in t.manifests, ResultOf(t.results, r))
      && (RecapRequestOf(r) in t.outbox <==> r in t.manifests)
      && (r in t.results ==> t.results[r].outcome == t.runs[r].state && t.results[r].manifest == t.manifests[r].id)
  {
    Reachable(w, issued, states, actions, i);
    assert EvidenceAt(states[i].t.runs, states[i].t.manifests, states[i].t.results, states[i].t.outbox, r);
  }

  /** A settled run keeps its state and its result for good. */
  lemma {:induction false} SettledForGood(w: Settings, issued: Issuer, states: seq<State>, actions: seq<Action>, i: nat,
      j: nat, r: Uuid)
    requires Service(w, issued, states, actions) && i <= j < |states|
    requires r in states[i].t.runs && states[i].t.runs[r].state.Settled()
    ensures r in states[j].t.runs && states[j].t.runs[r].state == states[i].t.runs[r].state
    ensures ResultOf(states[j].t.results, r) == ResultOf(states[i].t.results, r)
  {
    ServiceIsFine(w, issued, states, actions);
    SteadyThrough(states, i, j);
    RunKept(states, i, j, r);
  }

  /** An on-demand operation has exactly one terminal report if and only if its run is settled, with the
      matching status; `queued` is always there, and `running` exactly when acquisition began. */
  lemma {:induction false} ReportsTrackState(w: Settings, issued: Issuer, states: seq<State>, actions: seq<Action>,
      i: nat, r: Uuid)
    requires Service(w, issued, states, actions) && i < |states|
    requires r in states[i].t.runs && states[i].t.runs[r].trigger.OnDemand?
    ensures ReportsTrack(states[i].t.runs[r], states[i].t.outbox)
    ensures ReportOf(states[i].t.runs[r].operation, Running) in states[i].t.outbox <==> Began(states, i, r)
  {
    ServiceIsFine(w, issued, states, actions);
    ReportsTrackAt(issued, states, i, r);
    if ReportOf(states[i].t.runs[r].operation, Running) in states[i].t.outbox {
      RunningMeansBegan(issued, states, i, r);
    }
    if Began(states, i, r) {
      BeganMeansRunning(issued, states, i, r);
    }
  }

  /** A scheduled run adds no report: once it exists, the reports of its operation never change. */
  lemma {:induction false} ScheduledRunsAreSilent(w: Settings, issued: Issuer, states: seq<State>, actions: seq<Action>,
      i: nat, j: nat, r: Uuid, status: OperationStatus)
    requires Service(w, issued, states, actions) && i <= j < |states|
    requires r in states[i].t.runs && states[i].t.runs[r].trigger.Scheduled?
    ensures var k := ReportOf(states[i].t.runs[r].operation, status);
      k in states[j].t.outbox <==> k in states[i].t.outbox
  {
    ServiceIsFine(w, issued, states, actions);
    SilentThrough(states, i, j, r, status);
  }

  // ---------------------------------------------------------------- outcome agreement

  /** A waiting run has no terminal report yet, so the one queued is that of this completion. */
  lemma {:induction false} SettlementWarns(t: Tables, fact: Completion, incomplete: bool, now: Instant)
    requires Local(t, fact.run) && SettleCompletion(t, fact, incomplete, now).1 == Applied
    ensures t.runs[fact.run].trigger.OnDemand? ==>
      Warns(SettleCompletion(t, fact, incomplete, now).0.outbox,
            ReportOf(t.runs[fact.run].operation, CompletionStatus(fact, incomplete)), fact, incomplete)
  {
    var t' := SettleCompletion(t, fact, incomplete, now).0;
    var k := ReportOf(t.runs[fact.run].operation, CompletionStatus(fact, incomplete));
    assert t.runs[fact.run].trigger.OnDemand? ==>
      k !in t.outbox && k in t'.outbox && t'.outbox[k] == CompletionReport(fact.owner, fact, incomplete);
  }

  lemma {:induction false} SettlementTells(t: Tables, t': Tables, fact: Completion, incomplete: bool, now: Instant)
    requires Local(t, fact.run) && Local(t', fact.run) && SettlementAt(t, t', fact, incomplete, now)
    ensures fact.run in t.runs && Tells(t', fact, t.runs[fact.run].incomplete)
  {
    assert t'.runs == t.runs[fact.run := t.runs[fact.run].(state := OutcomeOf(fact, incomplete), updated := now)];
    assert t'.results == t.results[fact.run := CompletedResult(t, fact, incomplete)];
    SettlementWarns(t, fact, incomplete, now);
  }

  lemma {:induction false} SettlementStep(w: Settings, issued: Issuer, s: State, h: nat, fact: Completion)
    requires Inv(issued, s) && Settles(s, h, fact)
    ensures SettlementAt(s.t, Next(w, s, CompletionSettles(h)).t, fact, s.handlers[h].incomplete, s.now)
  {
    assert HandlerOk(s.t.runs, s.t.manifests, s.handlers[h]);
  }

  /** Action `i` settles the completion. */
  lemma {:induction false} SettlementHappens(w: Settings, issued: Issuer, states: seq<State>, actions: seq<Action>,
      i: nat, h: nat, fact: Completion)
    requires Service(w, issued, states, actions) && i < |actions|
    requires actions[i] == CompletionSettles(h) && Settles(states[i], h, fact)
    ensures SettlementAt(states[i].t, states[i + 1].t, fact, states[i].handlers[h].incomplete, states[i].now)
  {
    Reachable(w, issued, states, actions, i);
    assert StepOf(w, issued, states, actions, i);
    SettlementStep(w, issued, states[i], h, fact);
  }

  lemma {:induction false} AtFact(issued: Issuer, s: State, run: Uuid)
    requires Inv(issued, s)
    ensures Local(s.t, run)
  {
    assert EvidenceAt(s.t.runs, s.t.manifests, s.t.results, s.t.outbox, run);
    assert run in s.t.runs ==> ReportsAt(s.t.runs, s.t.outbox, run);
  }

  /** Outcome, run state and report all say "completed" exactly when nothing was omitted and the flag
      stored at that moment is false, although the flag was read in an earlier step; and the report queued is
      that of this completion. */
  lemma {:induction false} OutcomesAgree(w: Settings, issued: Issuer, states: seq<State>, actions: seq<Action>, i: nat,
      h: nat, fact: Completion)
    requires Service(w, issued, states, actions) && i < |actions|
    requires actions[i] == CompletionSettles(h) && Settles(states[i], h, fact)
    ensures fact.run in states[i].t.runs
    ensures Tells(states[i + 1].t, fact, states[i].t.runs[fact.run].incomplete)
  {
    SettlementHappens(w, issued, states, actions, i, h, fact);
    Reachable(w, issued, states, actions, i);
    Reachable(w, issued, states, actions, i + 1);
    AtFact(issued, states[i], fact.run);
    AtFact(issued, states[i + 1], fact.run);
    SettlementTells(states[i].t, states[i + 1].t, fact, states[i].handlers[h].incomplete, states[i].now);
  }
}

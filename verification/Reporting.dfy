/** What every report says: the rows an operation gets, by the state and the failure of its run. */
module ReportingSpec {
  import opened Schema
  import opened Reports

  /** Code by code, whether asking for the recap again may help. */
  predicate RetryHelps(code: RecapFailure) {
    match code
    case ManifestUnavailable => true
    case ManifestIntegrity => false
    case UnsupportedLanguage => false
    case ContextBudget => false
    case RecapProviderUnavailable => true
    case RecapProviderTimeout => true
    case InvalidOutput => false
    case CostBudget => false
    case Cancelled => false
  }

  /** The report of a failed run names the stage that failed it, the failure, and whether a retry may help. */
  predicate TellsFailure(row: OutboxRow, run: Run) {
    run.failure.Some? &&
      match run.failure.value
      case ProviderDown => row == Report(run.owner, "acquiring", run.failure, true, {}, None)
      case ManifestInvalid => row == Report(run.owner, "manifest", run.failure, false, {}, None)
      case DeadlineExceeded => row == Report(run.owner, "deadline", run.failure, true, {}, None)
      case RecapFailed(code) => row == Report(run.owner, "recap", run.failure, RetryHelps(code), {}, None)
      case _ => false
  }

  /** The report of a completed run: without sources, or with its result and no warning. */
  predicate TellsCompletion(row: OutboxRow, run: Run, result: Option<Result>) {
    row == if result.None? then Report(run.owner, "no_sources", None, false, {}, None)
           else Report(run.owner, "completed", None, false, {}, Some(result.value.id))
  }

  /** The report of a partial run names the result, warns, and warns of unread channels exactly when there are. */
  predicate TellsPart(row: OutboxRow, run: Run, result: Option<Result>) {
    && result.Some? && row.Report?
    && row == Report(run.owner, "completed", None, false, row.warnings, Some(result.value.id))
    && row.warnings != {} && (AcquisitionIncomplete in row.warnings <==> run.incomplete)
  }

  function RowOf(outbox: Outbox, operation: Uuid, status: OperationStatus): Option<OutboxRow> {
    if ReportOf(operation, status) in outbox then Some(outbox[ReportOf(operation, status)]) else None
  }

  function ResultAt(t: Tables, r: Uuid): Option<Result> {
    if r in t.results then Some(t.results[r]) else None
  }

  /** The rows of the operation of an on-demand run. */
  predicate OperationTold(t: Tables, r: Uuid)
    requires r in t.runs
  {
    var run, result := t.runs[r], ResultAt(t, r);
    var queued, running := RowOf(t.outbox, run.operation, Queued), RowOf(t.outbox, run.operation, Running);
    var failed, done := RowOf(t.outbox, run.operation, Failed), RowOf(t.outbox, run.operation, Succeeded);
    var part := RowOf(t.outbox, run.operation, PartiallySucceeded);
    && queued == Some(Report(run.owner, "awaiting_acquisition", None, false, {}, None))
    && (running.Some? ==> running.value == Report(run.owner, "acquiring", None, false, {}, None))
    && (run.state.RunFailed? ==> failed.Some? && TellsFailure(failed.value, run))
    && (run.state.RunCompleted? ==> done.Some? && TellsCompletion(done.value, run, result))
    && (run.state.RunPartial? ==> part.Some? && TellsPart(part.value, run, result))
  }

  /** The result of a run that failed for want of a recap holds its failure and no recap; any other holds a recap and
      no failure. */
  predicate ResultTold(run: Run, result: Result) {
    if run.state.RunFailed? then
      && result.failure == run.failure && run.failure.Some? && run.failure.value.RecapFailed?
      && result.recap.None? && result.digest.None? && result.citations == 0
    else result.failure.None? && result.recap.Some? && result.digest.Some?
  }

  /** The run has a failure exactly when it failed, and its result and its reports say the same. */
  predicate Told(t: Tables, r: Uuid)
    requires r in t.runs
  {
    && (t.runs[r].failure.Some? <==> t.runs[r].state.RunFailed?)
    && (r in t.results ==> ResultTold(t.runs[r], t.results[r]))
    && (t.runs[r].trigger.OnDemand? ==> OperationTold(t, r))
  }

  predicate AllTold(t: Tables) {
    forall r :: r in t.runs ==> Told(t, r)
  }

  predicate SameStanding(run: Run, run': Run) {
    run'.state == run.state && run'.failure == run.failure
  }

  /** Other runs stay, and the run moves at the instant, and is told as it then is. */
  predicate MovesTold(t: Tables, t': Tables, run: Uuid, now: Instant) {
    t' == t ||
      (&& run in t.runs && run in t'.runs && t'.runs == t.runs[run := t'.runs[run]]
       && t'.runs[run].updated == now && Told(t', run))
  }

  /** Every run is as it was, or is told as it now is. */
  predicate StandsOrTold(t: Tables, t': Tables) {
    forall r :: r in t'.runs ==> (r in t.runs && SameStanding(t.runs[r], t'.runs[r])) || Told(t', r)
  }
}

module Reporting {
  import opened Schema
  import opened Reports
  import opened Coordinator
  import opened ManifestBuilder
  import opened Intake
  import opened Schedule
  import opened Reaper
  import opened ReaperProofs
  import opened Executor
  import opened Machine
  import opened EvidenceSpec
  import opened EvidenceTransactions
  import opened EvidenceBatches
  import opened EvidenceSteps
  import opened LifecycleSpec
  import opened Lifecycle
  import opened ReportingSpec

  /** A run that did not move is told as before. */
  lemma {:induction false} StandsTold(issued: Issuer, t: Tables, t': Tables, r: Uuid)
    requires TablesInv(issued, t) && Fine(issued, t, t') && r in t.runs && Told(t, r)
    requires SameStanding(t.runs[r], t'.runs[r])
    ensures Told(t', r)
  {
    assert EvidenceAt(t.runs, t.manifests, t.results, t.outbox, r);
    assert EvidenceAt(t'.runs, t'.manifests, t'.results, t'.outbox, r);
    assert SteadyRun(t.runs[r], t'.runs[r]) && ReportsAt(t.runs, t.outbox, r) && ReportsAt(t'.runs, t'.outbox, r);
    assert ResultAt(t', r) == ResultAt(t, r);
  }

  lemma {:induction false} AllStandTold(issued: Issuer, t: Tables, t': Tables)
    requires TablesInv(issued, t) && Fine(issued, t, t') && AllTold(t) && StandsOrTold(t, t')
    ensures AllTold(t')
  {
    forall r | r in t'.runs
      ensures Told(t', r)
    {
      if r in t.runs && SameStanding(t.runs[r], t'.runs[r]) {
        StandsTold(issued, t, t', r);
      }
    }
  }

  lemma {:induction false} MovesStand(t: Tables, t': Tables, run: Uuid, now: Instant)
    requires MovesTold(t, t', run, now)
    ensures StandsOrTold(t, t')
  {
  }

  // ---------------------------------------------------------------- one run moves

  /** A report of a status that was not reported adds one row. */
  lemma {:induction false} ReportAdds(t: Tables, run: Uuid, status: OperationStatus, row: OutboxRow)
    requires run in t.runs
    requires t.runs[run].trigger.OnDemand? ==> ReportOf(t.runs[run].operation, status) !in t.outbox
    ensures ReportRun(t, run, t.runs[run].owner, status, row) ==
      if t.runs[run].trigger.Scheduled? then t
      else t.(outbox := t.outbox[ReportOf(t.runs[run].operation, status) := row])
  {
  }

  lemma {:induction false} BeginTold(t: Tables, p: Pending, now: Instant)
    requires Local(t, p.run) && (p.run in t.runs ==> Told(t, p.run) && t.runs[p.run].owner == p.owner)
    ensures MovesTold(t, BeginAcquisition(t, p, now).0, p.run, now)
  {
  }

  lemma {:induction false} FailTold(t: Tables, run: Uuid, owner: Uuid, failure: FailureClass, now: Instant)
    requires Local(t, run) && (run in t.runs ==> Told(t, run))
    requires failure.ProviderDown? || failure.ManifestInvalid?
    ensures MovesTold(t, FailRun(t, run, owner, failure, now).0, run, now)
  {
    if Owns(t.runs, run, owner) && Unsettled(t.runs[run].state) {
      ReportAdds(MoveFailed(t, run, failure, now), run, Failed, FailureReport(owner, failure));
    }
  }

  lemma {:induction false} CompleteEmptyTold(t: Tables, run: Uuid, owner: Uuid, now: Instant)
    requires Local(t, run) && (run in t.runs ==> Told(t, run))
    ensures MovesTold(t, CompleteEmptyRun(t, run, owner, now).0, run, now)
  {
    if Owns(t.runs, run, owner) && Unsettled(t.runs[run].state) {
      ReportAdds(Move(t, run, RunCompleted, now), run, Succeeded, PlainReport(owner, "no_sources"));
    }
  }

  lemma {:induction false} CommitManifestTold(t: Tables, m: CanonicalManifest, operation: Uuid, requestOk: bool,
      now: Instant)
    requires Local(t, m.run) && (m.run in t.runs ==> Told(t, m.run))
    ensures MovesTold(t, CommitManifest(t, m, operation, requestOk, now).0, m.run, now)
  {
  }

  lemma {:induction false} CompletionRowTold(fact: Completion, incomplete: bool, run: Run, result: Result)
    requires run.state == OutcomeOf(fact, incomplete) && run.owner == fact.owner && run.incomplete == incomplete
    requires result.id == fact.result
    ensures var row := CompletionReport(fact.owner, fact, incomplete);
      && (run.state.RunCompleted? ==> TellsCompletion(row, run, Some(result)))
      && (run.state.RunPartial? ==> TellsPart(row, run, Some(result)))
  {
    if fact.omitted > 0 {
      assert ContextOmitted in CompletionReport(fact.owner, fact, incomplete).warnings;
    }
  }

  lemma {:induction false} SettledTold(t: Tables, t': Tables, fact: Completion, incomplete: bool, now: Instant)
    requires Local(t, fact.run) && fact.run in t.runs && t.runs[fact.run].state.WaitingRecap? && Told(t, fact.run)
    requires fact.run in t.manifests && t.runs[fact.run].owner == fact.owner
    requires t.runs[fact.run].incomplete == incomplete
    requires t'.runs == t.runs[fact.run := t.runs[fact.run].(state := OutcomeOf(fact, incomplete), updated := now)]
    requires t'.results == t.results[fact.run := CompletedResult(t, fact, incomplete)]
    requires t'.outbox == if t.runs[fact.run].trigger.Scheduled? then t.outbox
      else t.outbox[ReportOf(t.runs[fact.run].operation, CompletionStatus(fact, incomplete)) :=
                      CompletionReport(fact.owner, fact, incomplete)]
    ensures Told(t', fact.run)
  {
    CompletionRowTold(fact, incomplete, t'.runs[fact.run], t'.results[fact.run]);
  }

  lemma {:induction false} CompletionTold(t: Tables, fact: Completion, incomplete: bool, now: Instant)
    requires Local(t, fact.run) && (fact.run in t.runs ==> Told(t, fact.run))
    requires Owns(t.runs, fact.run, fact.owner) ==> incomplete == t.runs[fact.run].incomplete
    ensures MovesTold(t, SettleCompletion(t, fact, incomplete, now).0, fact.run, now)
  {
    if SettleCompletion(t, fact, incomplete, now).0 != t {
      var settled := Move(t, fact.run, OutcomeOf(fact, incomplete), now).(
        results := t.results[fact.run := CompletedResult(t, fact, incomplete)],
        inbox := t.inbox[CompletionDecision(fact) := InboxRow(fact.message, Handled, None)]);
      ReportAdds(settled, fact.run, CompletionStatus(fact, incomplete), CompletionReport(fact.owner, fact, incomplete));
      SettledTold(t, SettleCompletion(t, fact, incomplete, now).0, fact, incomplete, now);
    }
  }

  lemma {:induction false} FailureTold(t: Tables, fact: RecapFailureFact, newId: Uuid, now: Instant)
    requires Local(t, fact.run) && (fact.run in t.runs ==> Told(t, fact.run))
    ensures MovesTold(t, SettleFailure(t, fact, newId, now).0, fact.run, now)
  {
    if SettleFailure(t, fact, newId, now).0 != t {
      var settled := MoveFailed(t, fact.run, RecapFailed(fact.code), now).(
        results := t.results[fact.run :=
          Result(newId, t.manifests[fact.run].id, fact.owner, RunFailed, None, None, 0, Some(RecapFailed(fact.code)))],
        inbox := t.inbox[FailureDecision(fact) := InboxRow(fact.message, Handled, None)]);
      ReportAdds(settled, fact.run, Failed,
                 ErrorReport(fact.owner, "recap", RecapFailed(fact.code), Retryable(fact.code)));
    }
  }

  // ---------------------------------------------------------------- runs of a batch, new runs

  lemma {:induction false} ReapTold(issued: Issuer, t: Tables, now: Instant, deadline: nat)
    requires TablesInv(issued, t) && AllTold(t)
    ensures StandsOrTold(t, ReapOnce(t, now, deadline))
  {
    var t' := ReapOnce(t, now, deadline);
    ReapedAreReported(t, now, deadline);
    forall r | r in t.runs && t'.runs[r] != t.runs[r]
      ensures Told(t', r)
    {
      ReapedTold(issued, t, now, deadline, r);
    }
  }

  lemma {:induction false} ReapedTold(issued: Issuer, t: Tables, now: Instant, deadline: nat, r: Uuid)
    requires TablesInv(issued, t) && r in t.runs && Told(t, r) && ReapOnce(t, now, deadline).runs[r] != t.runs[r]
    ensures Told(ReapOnce(t, now, deadline), r)
  {
    var t' := ReapOnce(t, now, deadline);
    ReapedAreReported(t, now, deadline);
    ReapedRow(t.runs, now, deadline, r);
    AtRun(issued, t, r);
    if t.runs[r].trigger.OnDemand? {
      var k := ReportOf(t.runs[r].operation, Failed);
      var x :| x in t.runs && t'.runs[x] != t.runs[x] && TellsDeadline(t.runs, x, k, t'.outbox[k]);
      assert SharesOperation(t.runs[x], t.runs[r]);
    }
    LateTold(t, t', r, now, deadline);
  }

  lemma {:induction false} LateTold(t: Tables, t': Tables, r: Uuid, now: Instant, deadline: nat)
    requires Local(t, r) && r in t.runs && r in t'.runs && Told(t, r) && t'.results == t.results
    requires FailedLate(t.runs[r], t'.runs[r], now, deadline) && Grows(t.outbox, t'.outbox)
    requires t.runs[r].trigger.OnDemand? ==>
      && RowOf(t'.outbox, t.runs[r].operation, Failed).Some?
      && TellsDeadline(t.runs, r, ReportOf(t.runs[r].operation, Failed),
                       RowOf(t'.outbox, t.runs[r].operation, Failed).value)
      && RowOf(t'.outbox, t.runs[r].operation, Running) == RowOf(t.outbox, t.runs[r].operation, Running)
    ensures Told(t', r)
  {
  }

  /** The report of an operation that no decided command named is new. */
  lemma {:induction false} NewRunTold(issued: Issuer, t: Tables, c: RunRequest, now: Instant)
    requires TablesInv(issued, t) && issued(c.operation) == RunDecision(c)
    ensures StandsOrTold(t, AcceptRun(t, c, now).0)
  {
    var t' := AcceptRun(t, c, now).0;
    if t'.runs != t.runs {
      assert t'.runs == t.runs[c.run := NewRun(c, now)] && c.run !in t.runs;
      AtRun(issued, t, c.run);
      assert forall status: OperationStatus :: ReportOf(c.operation, status) !in t.outbox;
      assert Told(t', c.run);
    }
  }

  lemma {:induction false} FannedRuns(t: Tables, o: Occurrence, newIds: seq<Uuid>, now: Instant)
    ensures var t' := AcceptOccurrence(t, o, newIds, now).0;
      && t'.results == t.results
      && (forall r :: r in t.runs ==> r in t'.runs && t'.runs[r] == t.runs[r])
      && forall r :: r in t'.runs && r !in t.runs ==>
           t'.runs[r].trigger.Scheduled? && t'.runs[r].state.Accepted? && t'.runs[r].failure.None?
  {
    if AcceptOccurrence(t, o, newIds, now).1 == Applied {
      var owners := OwnerOrder(t.subscriptions, o.due);
      FanOutFresh(t.subscriptions, t.runs, o, owners, |owners|, newIds, now);
    }
  }

  lemma {:induction false} FannedTold(issued: Issuer, t: Tables, o: Occurrence, newIds: seq<Uuid>, now: Instant)
    requires TablesInv(issued, t)
    ensures StandsOrTold(t, AcceptOccurrence(t, o, newIds, now).0)
  {
    var t' := AcceptOccurrence(t, o, newIds, now).0;
    FannedRuns(t, o, newIds, now);
    forall r | r in t'.runs && r !in t.runs
      ensures r !in t.results
    {
      AtRun(issued, t, r);
    }
    FreshStand(t, t');
  }

  lemma {:induction false} FreshStand(t: Tables, t': Tables)
    requires forall r :: r in t.runs ==> r in t'.runs && t'.runs[r] == t.runs[r]
    requires forall r :: r in t'.runs && r !in t.runs ==>
      t'.runs[r].trigger.Scheduled? && t'.runs[r].state.Accepted? && t'.runs[r].failure.None? && r !in t'.results
    ensures StandsOrTold(t, t')
  {
  }

  lemma {:induction false} FanOutFresh(subscriptions: map<SubscriptionKey, Subscription>, runs: map<Uuid, Run>,
      o: Occurrence, owners: seq<Uuid>, n: nat, newIds: seq<Uuid>, now: Instant)
    requires n <= |owners| && forall x :: x in owners ==> x in OwnersBefore(subscriptions, o.due)
    requires FanOut(subscriptions, runs, o, owners, n, newIds, now).Some?
    ensures var runs' := FanOut(subscriptions, runs, o, owners, n, newIds, now).value;
      && (forall r :: r in runs ==> r in runs' && runs'[r] == runs[r])
      && forall r :: r in runs' && r !in runs ==>
           runs'[r].trigger.Scheduled? && runs'[r].state.Accepted? && runs'[r].failure.None?
    decreases n
  {
    if n > 0 {
      FanOutFresh(subscriptions, runs, o, owners, n - 1, newIds, now);
    }
  }

  lemma {:induction false} SameRunsStand(t: Tables, t': Tables)
    requires t'.runs == t.runs
    ensures StandsOrTold(t, t')
  {
  }

  // ---------------------------------------------------------------- every action

  lemma {:induction false} CommitTold(t: Tables, p: Pending, sources: seq<ManifestSource>, incomplete: bool, e: Event,
      now: Instant)
    requires e.Commits? && Local(t, p.run) && (p.run in t.runs ==> Told(t, p.run))
    ensures StandsOrTold(t, Commit(t, p, sources, incomplete, e, now).0)
  {
    var t' := Commit(t, p, sources, incomplete, e, now).0;
    if sources == [] {
      if incomplete {
        FailTold(t, p.run, p.owner, ProviderDown, now);
      } else {
        CompleteEmptyTold(t, p.run, p.owner, now);
      }
    } else {
      var built := Build(e.manifest, p.owner, p.run, p.start, p.end, sources, e.windowOk, _ => e.accepted);
      if built.Err? {
        FailTold(t, p.run, p.owner, FailureClass.ManifestInvalid, now);
      } else {
        CommitManifestTold(t, built.value, p.operation, e.requestOk, now);
      }
    }
    MovesStand(t, t', p.run, now);
  }

  lemma {:induction false} WalkStands(t: Tables, x: Exec, now: Instant, e: Event, sourceCount: nat)
    requires x.Walking?
    ensures StandsOrTold(t, ExecStep(t, x, now, e, sourceCount).0)
  {
    if !e.Dies? && x.i < |x.queue| && !x.walk.Done? && e.Hears? {
      WalkStepTexts(t, RequestFor(x.p, x.queue[x.i]), x.walk, now, e.answer);
    }
    SameRunsStand(t, ExecStep(t, x, now, e, sourceCount).0);
  }

  lemma {:induction false} ExecTold(issued: Issuer, t: Tables, x: Exec, now: Instant, e: Event, sourceCount: nat)
    requires TablesInv(issued, t) && AllTold(t) && ExecOk(t.runs, t.manifests, x)
    ensures StandsOrTold(t, ExecStep(t, x, now, e, sourceCount).0)
  {
    var t' := ExecStep(t, x, now, e, sourceCount).0;
    if x.Walking? {
      WalkStands(t, x, now, e, sourceCount);
    } else if e.Dies? || x.Idle? || x.Started? || x.Ready? || (x.Recorded? && !e.Commits?) {
      SameRunsStand(t, t');
    } else {
      AtRun(issued, t, x.p.run);
      match x {
        case Chosen(p) =>
          BeginTold(t, p, now);
          MovesStand(t, BeginAcquisition(t, p, now).0, p.run, now);
          SameRunsStand(t, t);
        case Failing(p) =>
          FailTold(t, p.run, p.owner, ProviderDown, now);
          MovesStand(t, t', p.run, now);
        case Chose(p, _, incomplete) => RecordStands(t, p.run, incomplete);
        case Recorded(p, sources, incomplete) => CommitTold(t, p, sources, incomplete, e, now);
      }
    }
  }

  lemma {:induction false} RecordStands(t: Tables, run: Uuid, incomplete: bool)
    ensures StandsOrTold(t, RecordAcquisition(t, run, incomplete))
  {
  }

  lemma {:induction false} HandlerTold(issued: Issuer, s: State, a: Action)
    requires TablesInv(issued, s.t) && AllTold(s.t) && HandlersOk(s.t.runs, s.t.manifests, s.handlers)
    requires a.CompletionLooksUp? || a.CompletionVerifies? || a.CompletionSettles? || a.FailureSettles?
    ensures StandsOrTold(s.t, HandlerStep(s, a).t)
  {
    var t' := HandlerStep(s, a).t;
    if t' == s.t {
      SameRunsStand(s.t, t');
    } else {
      assert HandlerOk(s.t.runs, s.t.manifests, s.handlers[a.h]);
      match (a, s.handlers[a.h])
      case (CompletionSettles(h), Verified(f, i)) =>
        AtRun(issued, s.t, f.run);
        CompletionTold(s.t, f, i, s.now);
        MovesStand(s.t, t', f.run, s.now);
      case (FailureSettles(h, newId), FailureChecked(f)) =>
        AtRun(issued, s.t, f.run);
        FailureTold(s.t, f, newId, s.now);
        MovesStand(s.t, t', f.run, s.now);
      case _ =>
    }
  }

  lemma {:induction false} NextStands(w: Settings, issued: Issuer, s: State, a: Action)
    requires Inv(issued, s) && Plausible(issued, s, a) && AllTold(s.t)
    ensures StandsOrTold(s.t, Next(w, s, a).t)
  {
    if a.Executes? {
      ExecTold(issued, s.t, s.x, s.now, a.event, w.sourceCount);
    } else if a.RunArrives? {
      NewRunTold(issued, s.t, a.run, s.now);
    } else if a.OccurrenceArrives? {
      FannedTold(issued, s.t, a.occurrence, a.newIds, s.now);
    } else if a.Reaps? {
      ReapTold(issued, s.t, s.now, w.deadline);
    } else if a.CompletionLooksUp? || a.CompletionVerifies? || a.CompletionSettles? || a.FailureSettles? {
      HandlerTold(issued, s, a);
    } else {
      QuietRuns(w, s, a);
      SameRunsStand(s.t, Next(w, s, a).t);
    }
  }

  lemma {:induction false} QuietRuns(w: Settings, s: State, a: Action)
    requires !a.Executes? && !a.RunArrives? && !a.OccurrenceArrives? && !a.Reaps?
    requires !a.CompletionLooksUp? && !a.CompletionVerifies? && !a.CompletionSettles? && !a.FailureSettles?
    ensures Next(w, s, a).t.runs == s.t.runs
  {
    if a.SubscriptionArrives? {
      SubscriptionRuns(s.t, a.subscription, a.newSubscription, a.newChannel, s.now);
    }
  }

  lemma {:induction false} SubscriptionRuns(t: Tables, c: SubscriptionRequest, newSubscription: Uuid, newChannel: Uuid,
      now: Instant)
    ensures AcceptSubscription(t, c, newSubscription, newChannel, now).0.runs == t.runs
  {
  }

  lemma {:induction false} StepTold(w: Settings, issued: Issuer, states: seq<State>, actions: seq<Action>, i: nat)
    requires Service(w, issued, states, actions) && i < |actions| && AllTold(states[i].t)
    ensures AllTold(states[i + 1].t)
  {
    Reachable(w, issued, states, actions, i);
    assert StepOf(w, issued, states, actions, i);
    NextStands(w, issued, states[i], actions[i]);
    NextKept(w, issued, states[i], actions[i]);
    AllStandTold(issued, states[i].t, states[i + 1].t);
  }

  /** In every reachable state a run has a failure exactly when it failed, its result agrees, and every report of its
      operation says what the run came to: the stage, the failure, whether a retry may help, the result, the
      warnings. */
  lemma {:induction false} ReportsTellRuns(w: Settings, issued: Issuer, states: seq<State>, actions: seq<Action>,
      i: nat)
    requires Service(w, issued, states, actions) && i < |states|
    ensures forall r :: r in states[i].t.runs ==> Told(states[i].t, r)
    decreases i
  {
    if i > 0 {
      ReportsTellRuns(w, issued, states, actions, i - 1);
      StepTold(w, issued, states, actions, i - 1);
    }
  }
}

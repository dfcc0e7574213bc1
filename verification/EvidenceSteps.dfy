/** The transactions that are not about one run: intake, fan-out, the reaper, and stored texts. */
module EvidenceBatches {
  import opened Schema
  import opened Order
  import opened Revisions
  import opened Reports
  import opened Coordinator
  import opened Intake
  import opened Schedule
  import opened Retention
  import opened Reaper
  import opened Machine
  import opened EvidenceSpec
  import W = Walk

  // ---------------------------------------------------------------- intake

  lemma {:induction false} NoRunEvidence(issued: Issuer, t: Tables, t': Tables)
    requires TablesInv(issued, t) && NoRun(issued, t, t')
    ensures Evidence(t'.runs, t'.manifests, t'.results, t'.outbox)
  {
    forall r: Uuid
      ensures EvidenceAt(t'.runs, t'.manifests, t'.results, t'.outbox, r)
    {
      assert EvidenceAt(t.runs, t.manifests, t.results, t.outbox, r);
    }
  }

  lemma {:induction false} NoRunReports(issued: Issuer, t: Tables, t': Tables)
    requires TablesInv(issued, t) && NoRun(issued, t, t')
    ensures ReportsMatch(t'.runs, t'.outbox)
  {
    forall r | r in t'.runs
      ensures ReportsAt(t'.runs, t'.outbox, r)
    {
      if r in t.runs {
        assert ReportsAt(t.runs, t.outbox, r);
      } else {
        assert NewlyAccepted(issued, t, t', t'.runs[r]);
      }
    }
  }

  lemma {:induction false} NoRunOwned(issued: Issuer, t: Tables, t': Tables)
    requires TablesInv(issued, t) && NoRun(issued, t, t')
    ensures Owned(issued, t'.runs, t'.inbox, t'.outbox)
  {
    forall r | r in t'.runs && r !in t.runs
      ensures NewlyAccepted(issued, t, t', t'.runs[r])
    {
    }
    forall a, b | a in t'.runs && b in t'.runs && SharesOperation(t'.runs[a], t'.runs[b])
      ensures a == b
    {
      assert a in t.runs && b in t.runs ==> SharesOperation(t.runs[a], t.runs[b]);
    }
  }

  lemma {:induction false} NoRunFine(issued: Issuer, t: Tables, t': Tables)
    requires TablesInv(issued, t) && NoRun(issued, t, t')
    ensures Fine(issued, t, t') && LeavesExecutor(t, t')
  {
    NoRunEvidence(issued, t, t');
    NoRunReports(issued, t, t');
    NoRunOwned(issued, t, t');
    forall r | r in t'.runs && r !in t.runs
      ensures NewlyAccepted(issued, t, t', t'.runs[r])
    {
    }
  }

  /** A decision recorded with at most one report of its operation. */
  lemma {:induction false} DecisionStep(issued: Issuer, t: Tables, t': Tables, op: Uuid, status: OperationStatus,
      decided: InboxRow, row: OutboxRow)
    requires issued(op) !in t.inbox && t'.inbox == t.inbox[issued(op) := decided]
    requires t'.runs == t.runs && t'.manifests == t.manifests && t'.results == t.results
    requires t'.outbox == t.outbox || t'.outbox == Enqueue(t.outbox, ReportOf(op, status), row)
    ensures NoRun(issued, t, t')
  {
    assert Grows(t.inbox, t'.inbox);
    assert Grows(t.outbox, t'.outbox);
    forall k | k in t'.outbox && k !in t.outbox
      ensures NewOperation(issued, t, t', k)
    {
      assert k == ReportOf(op, status);
    }
  }

  lemma {:induction false} RejectStep(issued: Issuer, t: Tables, rejection: Rejection)
    requires issued(rejection.operation) == rejection.decision
    ensures NoRun(issued, t, Reject(t, rejection).0)
  {
    if !Decided(t, rejection.message, rejection.decision) {
      DecisionStep(issued, t, Reject(t, rejection).0, rejection.operation, Failed,
                   InboxRow(rejection.message, Refused, Some(rejection.reason)),
                   ErrorReport(rejection.owner, "rejected", rejection.reason, false));
    }
  }

  lemma {:induction false} AcceptSubscriptionStep(issued: Issuer, t: Tables, c: SubscriptionRequest,
      newSubscription: Uuid, newChannel: Uuid, now: Instant)
    requires issued(c.operation) == SubscriptionDecision(c)
    ensures NoRun(issued, t, AcceptSubscription(t, c, newSubscription, newChannel, now).0)
  {
    var t' := AcceptSubscription(t, c, newSubscription, newChannel, now).0;
    if t' != t {
      DecisionStep(issued, t, t', c.operation, Succeeded, InboxRow(c.message, Handled, None),
                   PlainReport(c.owner, "applied"));
    }
  }

  /** An on-demand run that is accepted is always a new one: its natural key names its decision. */
  lemma {:induction false} OnDemandIsNew(issued: Issuer, t: Tables, c: RunRequest)
    requires Owned(issued, t.runs, t.inbox, t.outbox) && c.trigger.OnDemand? && RunDecision(c) !in t.inbox
    ensures !NaturalKeyUsed(t.runs, c)
  {
  }

  /** A new run joins the decision of its command. */
  lemma {:induction false} NewRunStep(issued: Issuer, t: Tables, t': Tables, c: RunRequest, now: Instant)
    requires issued(c.operation) == RunDecision(c) && RunDecision(c) !in t.inbox && c.run !in t.runs
    requires t'.runs == t.runs[c.run := NewRun(c, now)] && t'.manifests == t.manifests && t'.results == t.results
    requires t'.inbox == t.inbox[RunDecision(c) := InboxRow(c.message, Handled, None)]
    requires t'.outbox == if c.trigger.OnDemand?
      then Enqueue(t.outbox, ReportOf(c.operation, Queued), PlainReport(c.owner, "awaiting_acquisition")) else t.outbox
    ensures NoRun(issued, t, t')
  {
    assert Grows(t.inbox, t'.inbox) && Grows(t.runs, t'.runs);
    assert Grows(t.outbox, t'.outbox);
    forall k | k in t'.outbox && k !in t.outbox
      ensures NewOperation(issued, t, t', k) && k == ReportOf(c.operation, Queued)
    {
    }
    assert NewlyAccepted(issued, t, t', t'.runs[c.run]);
  }

  lemma {:induction false} AcceptRunStep(issued: Issuer, t: Tables, c: RunRequest, now: Instant)
    requires Owned(issued, t.runs, t.inbox, t.outbox) && issued(c.operation) == RunDecision(c)
    ensures NoRun(issued, t, AcceptRun(t, c, now).0)
  {
    var t' := AcceptRun(t, c, now).0;
    if t' != t {
      if NaturalKeyUsed(t.runs, c) {
        if c.trigger.OnDemand? {
          OnDemandIsNew(issued, t, c);
        } else {
          DecisionStep(issued, t, t', c.operation, Queued, InboxRow(c.message, Handled, None),
                       PlainReport(c.owner, ""));
        }
      } else {
        NewRunStep(issued, t, t', c, now);
      }
    }
  }

  // ---------------------------------------------------------------- fan-out

  /** New runs are scheduled runs of the occurrence; the others stay. */
  predicate FannedRuns(runs: map<Uuid, Run>, runs': map<Uuid, Run>, o: Occurrence, now: Instant) {
    && Grows(runs, runs')
    && forall r :: r in runs' && r !in runs ==> FannedRun(runs'[r], o, now)
  }

  predicate FannedRun(run: Run, o: Occurrence, now: Instant) {
    && run.state.Accepted? && run.trigger.Scheduled? && run.operation == o.operation
    && run.created == now && run.updated == now
  }

  lemma {:induction false} FanOutAdds(subscriptions: map<SubscriptionKey, Subscription>, runs: map<Uuid, Run>,
      o: Occurrence, owners: seq<Uuid>, n: nat, newIds: seq<Uuid>, now: Instant)
    requires n <= |owners| && forall x :: x in owners ==> x in OwnersBefore(subscriptions, o.due)
    ensures var fanned := FanOut(subscriptions, runs, o, owners, n, newIds, now);
      fanned.Some? ==> FannedRuns(runs, fanned.value, o, now)
    decreases n
  {
    if n > 0 {
      FanOutAdds(subscriptions, runs, o, owners, n - 1, newIds, now);
    }
  }

  lemma {:induction false} AcceptOccurrenceStep(issued: Issuer, t: Tables, o: Occurrence, newIds: seq<Uuid>,
      now: Instant)
    requires issued(o.operation) == OccurrenceDecision(o)
    ensures NoRun(issued, t, AcceptOccurrence(t, o, newIds, now).0)
  {
    var t' := AcceptOccurrence(t, o, newIds, now).0;
    if t' != t {
      var owners := OwnerOrder(t.subscriptions, o.due);
      FanOutAdds(t.subscriptions, t.runs, o, owners, |owners|, newIds, now);
      assert FannedRuns(t.runs, t'.runs, o, now);
    }
  }

  // ---------------------------------------------------------------- stored texts

  lemma {:induction false} TextOnlyFine(issued: Issuer, t: Tables, t': Tables)
    requires TablesInv(issued, t) && TextOnly(t, t')
    ensures Fine(issued, t, t') && LeavesExecutor(t, t')
  {
    forall r: Uuid
      ensures EvidenceAt(t'.runs, t'.manifests, t'.results, t'.outbox, r)
    {
      assert EvidenceAt(t.runs, t.manifests, t.results, t.outbox, r);
    }
  }

  lemma {:induction false} WithdrawTextsOnly(t: Tables, channel: Uuid, gone: Absence, at: Instant)
    ensures TextOnly(t, WithdrawMissing(t, channel, gone, at))
  {
  }

  lemma {:induction false} LeasesOnly(t: Tables, t': Tables)
    requires t' == t.(leases := t'.leases) || t' == t.(revisions := t'.revisions)
    ensures TextOnly(t, t')
  {
  }

  lemma {:induction false} WalkStepTexts(t: Tables, req: W.Request, w: W.Walk, now: Instant, a: W.Answer)
    ensures TextOnly(t, W.Step(t, req, w, now, a).0)
  {
    var t' := W.Step(t, req, w, now, a).0;
    if w.Withdrawing? {
      LeasesOnly(t, t);
      if W.Proved(w.page, w.at.before).Some? {
        WithdrawTextsOnly(t, req.channel, W.AbsenceOf(w.page, W.Proved(w.page, w.at.before).value), now);
      }
    } else if w.Storing? {
      assert t' == t.(revisions := t'.revisions);
      LeasesOnly(t, t');
    } else {
      assert t' == t.(leases := t'.leases);
      LeasesOnly(t, t');
    }
  }

  lemma {:induction false} SweepTexts(t: Tables, before: Instant, limit: nat, now: Instant)
    ensures TextOnly(t, t.(revisions := MinimizeBodies(t.revisions, before, limit, now)))
    ensures TextOnly(t, t.(manifests := MinimizeTexts(t.runs, t.manifests, before, limit, now)))
  {
  }

  // ---------------------------------------------------------------- the reaper

  /** The reports of a batch: one failure for every on-demand run in it, and nothing else. */
  lemma {:induction false} ReapReportsOf(outbox: Outbox, runs: map<Uuid, Run>, batch: seq<Rank>)
    ensures var o := ReapReports(outbox, runs, batch);
      && (forall i :: 0 <= i < |batch| && batch[i].b in runs && runs[batch[i].b].trigger.OnDemand? ==>
           ReportOf(runs[batch[i].b].operation, Failed) in o)
      && (forall k :: k in o && k !in outbox ==> ReportsOneOf(runs, batch, k))
    decreases |batch|
  {
    if batch != [] {
      var n := |batch| - 1;
      ReapReportsOf(outbox, runs, batch[..n]);
      var o := ReapReports(outbox, runs, batch);
      forall k | k in o && k !in outbox
        ensures ReportsOneOf(runs, batch, k)
      {
        if ReportsOneOf(runs, batch[..n], k) {
          var i :| 0 <= i < n && ReportsAsFailed(runs, batch[..n][i].b, k);
          assert ReportsAsFailed(runs, batch[i].b, k);
        } else {
          assert ReportsAsFailed(runs, batch[n].b, k);
        }
      }
    }
  }

  predicate ReportsAsFailed(runs: map<Uuid, Run>, r: Uuid, k: OutboxKey) {
    r in runs && runs[r].trigger.OnDemand? && k == ReportOf(runs[r].operation, Failed)
  }

  predicate ReportsOneOf(runs: map<Uuid, Run>, batch: seq<Rank>, k: OutboxKey) {
    exists i :: 0 <= i < |batch| && ReportsAsFailed(runs, batch[i].b, k)
  }

  /** The batch lists exactly the reaped runs. */
  lemma {:induction false} BatchIsReaped(runs: map<Uuid, Run>, now: Instant, deadline: nat, r: Uuid)
    ensures (exists i :: 0 <= i < |BatchOf(runs, now, deadline)| && BatchOf(runs, now, deadline)[i].b == r)
      <==> r in runs && Reaped(runs, r, now, deadline)
  {
    var first := First(Overdue(runs, now, deadline), BATCH);
    var batch := BatchOf(runs, now, deadline);
    AscendingSorts(first);
    if i :| 0 <= i < |batch| && batch[i].b == r {
      assert batch[i] in first;
    }
    if r in runs && Reaped(runs, r, now, deadline) {
      assert Rank(runs[r].updated, r, 0, 0) in batch;
    }
  }

  lemma {:induction false} ReapIsReapStep(t: Tables, now: Instant, deadline: nat)
    ensures ReapStep(t, ReapOnce(t, now, deadline))
  {
    var t' := ReapOnce(t, now, deadline);
    var batch := BatchOf(t.runs, now, deadline);
    ReapReportsOf(t.outbox, t.runs, batch);
    forall r | r in t.runs
      ensures t'.runs[r] == t.runs[r] || ReapedRun(t.runs[r], t'.runs[r], t'.outbox)
    {
      BatchIsReaped(t.runs, now, deadline, r);
    }
    forall k | k in t'.outbox && k !in t.outbox
      ensures OfReaped(t, t', k)
    {
      var i :| 0 <= i < |batch| && ReportsAsFailed(t.runs, batch[i].b, k);
      BatchIsReaped(t.runs, now, deadline, batch[i].b);
    }
  }

  lemma {:induction false} ReapEvidence(issued: Issuer, t: Tables, t': Tables)
    requires TablesInv(issued, t) && ReapStep(t, t')
    ensures Evidence(t'.runs, t'.manifests, t'.results, t'.outbox)
  {
    forall r: Uuid
      ensures EvidenceAt(t'.runs, t'.manifests, t'.results, t'.outbox, r)
    {
      assert EvidenceAt(t.runs, t.manifests, t.results, t.outbox, r);
    }
  }

  lemma {:induction false} ReapReportsMatch(issued: Issuer, t: Tables, t': Tables)
    requires TablesInv(issued, t) && ReapStep(t, t')
    ensures ReportsMatch(t'.runs, t'.outbox)
  {
    forall r | r in t'.runs
      ensures ReportsAt(t'.runs, t'.outbox, r)
    {
      assert ReportsAt(t.runs, t.outbox, r);
      ReapedOperation(issued, t, t', r);
    }
  }

  /** A failure reported for the operation of a run is the failure of that run. */
  lemma {:induction false} ReapedOperation(issued: Issuer, t: Tables, t': Tables, r: Uuid)
    requires TablesInv(issued, t) && ReapStep(t, t') && r in t.runs
    ensures forall k :: k in t'.outbox && k !in t.outbox && k.ReportOf? && k.operation == t.runs[r].operation ==>
      k.status.Failed? && t.runs[r].trigger.OnDemand? && t'.runs[r].state.RunFailed?
  {
    forall k | k in t'.outbox && k !in t.outbox && k.ReportOf? && k.operation == t.runs[r].operation
      ensures k.status.Failed? && t.runs[r].trigger.OnDemand? && t'.runs[r].state.RunFailed?
    {
      assert OfReaped(t, t', k);
      var x :| x in t.runs && x in t'.runs && t.runs[x].trigger.OnDemand? && t.runs[x].operation == k.operation
        && t'.runs[x].state.RunFailed?;
      assert SharesOperation(t.runs[x], t.runs[r]);
    }
  }

  lemma {:induction false} ReapSteady(t: Tables, t': Tables)
    requires ReapStep(t, t')
    ensures Steady(t, t') && LeavesExecutor(t, t')
  {
    forall r | r in t.runs
      ensures SteadyRun(t.runs[r], t'.runs[r]) && t'.runs[r].incomplete == t.runs[r].incomplete
    {
      assert t'.runs[r] == t.runs[r] || ReapedRun(t.runs[r], t'.runs[r], t'.outbox);
    }
  }

  lemma {:induction false} ReapStepFine(issued: Issuer, t: Tables, t': Tables)
    requires TablesInv(issued, t) && ReapStep(t, t')
    ensures Fine(issued, t, t') && LeavesExecutor(t, t')
  {
    ReapEvidence(issued, t, t');
    ReapReportsMatch(issued, t, t');
    ReapOwned(issued, t, t');
    ReapFollows(issued, t, t');
    ReapSteady(t, t');
  }

  lemma {:induction false} ReapFine(issued: Issuer, t: Tables, now: Instant, deadline: nat)
    requires TablesInv(issued, t)
    ensures Fine(issued, t, ReapOnce(t, now, deadline)) && LeavesExecutor(t, ReapOnce(t, now, deadline))
  {
    ReapIsReapStep(t, now, deadline);
    ReapStepFine(issued, t, ReapOnce(t, now, deadline));
  }

  lemma {:induction false} ReapOwned(issued: Issuer, t: Tables, t': Tables)
    requires TablesInv(issued, t) && ReapStep(t, t')
    ensures Owned(issued, t'.runs, t'.inbox, t'.outbox)
  {
    forall k | k in t'.outbox && k.ReportOf?
      ensures issued(k.operation) in t'.inbox
    {
      assert k in t.outbox || OfReaped(t, t', k);
    }
    forall a, b | a in t'.runs && b in t'.runs && SharesOperation(t'.runs[a], t'.runs[b])
      ensures a == b
    {
      assert SharesOperation(t.runs[a], t.runs[b]);
    }
  }

  lemma {:induction false} ReapFollows(issued: Issuer, t: Tables, t': Tables)
    requires TablesInv(issued, t) && ReapStep(t, t')
    ensures ReportsFollow(t, t')
  {
    forall r | r in t'.runs
      ensures forall k :: k in t'.outbox && k !in t.outbox && k.ReportOf? && k.operation == t.runs[r].operation ==>
        k.status.Failed? && t.runs[r].trigger.OnDemand?
    {
      ReapedOperation(issued, t, t', r);
    }
  }
}

/** Every action keeps every invariant. */
module EvidenceSteps {
  import opened Schema
  import opened Revisions
  import opened Coordinator
  import opened ManifestBuilder
  import opened Executor
  import opened Machine
  import opened EvidenceSpec
  import opened EvidenceTransactions
  import opened EvidenceBatches
  import W = Walk

  lemma {:induction false} UnchangedFine(issued: Issuer, t: Tables)
    requires TablesInv(issued, t)
    ensures Fine(issued, t, t) && LeavesExecutor(t, t)
  {
  }

  /** While another actor moves, the run of the executor at most fails. */
  lemma {:induction false} ExecOkAround(t: Tables, t': Tables, x: Exec)
    requires ExecOk(t.runs, t.manifests, x) && LeavesExecutor(t, t')
    ensures ExecOk(t'.runs, t'.manifests, x)
  {
  }

  /** What a fact has read of a run with a manifest stays true. */
  lemma {:induction false} HandlersOkAround(t: Tables, t': Tables, handlers: map<nat, Handling>)
    requires HandlersOk(t.runs, t.manifests, handlers) && Steady(t, t')
    ensures HandlersOk(t'.runs, t'.manifests, handlers)
  {
    forall h | h in handlers
      ensures HandlerOk(t'.runs, t'.manifests, handlers[h])
    {
      assert HandlerOk(t.runs, t.manifests, handlers[h]);
    }
  }

  // ---------------------------------------------------------------- the executor

  /** One step of the executor keeps the tables in order and its own knowledge right. */
  ghost predicate ExecKept(issued: Issuer, t: Tables, t': Tables, x': Exec) {
    Fine(issued, t, t') && ExecOk(t'.runs, t'.manifests, x')
  }

  lemma {:induction false} SelectKept(issued: Issuer, t: Tables, now: Instant)
    requires TablesInv(issued, t)
    ensures ExecKept(issued, t, t, SelectPending(t, now))
  {
    UnchangedFine(issued, t);
    var x := SelectPending(t, now);
    if x.Chosen? {
      AtRun(issued, t, x.p.run);
    }
  }

  lemma {:induction false} ChosenKept(issued: Issuer, t: Tables, p: Pending, now: Instant)
    requires TablesInv(issued, t) && ExecOk(t.runs, t.manifests, Chosen(p))
    ensures p.state.Accepted? ==> var (t', began) := BeginAcquisition(t, p, now);
      ExecKept(issued, t, t', if began then Started(p) else Idle)
    ensures !p.state.Accepted? ==> ExecKept(issued, t, t, Started(p))
  {
    UnchangedFine(issued, t);
    AtRun(issued, t, p.run);
    BeginStep(t, p, now);
    RunStepFine(issued, t, BeginAcquisition(t, p, now).0, p.run);
  }

  lemma {:induction false} WalkingKept(issued: Issuer, t: Tables, x: Exec, req: W.Request, now: Instant, a: W.Answer)
    requires TablesInv(issued, t) && x.Walking? && ExecOk(t.runs, t.manifests, x)
    ensures var (t', w') := W.Step(t, req, x.walk, now, a); ExecKept(issued, t, t', x.(walk := w'))
  {
    var t' := W.Step(t, req, x.walk, now, a).0;
    WalkStepTexts(t, req, x.walk, now, a);
    TextOnlyFine(issued, t, t');
  }

  lemma {:induction false} FailingKept(issued: Issuer, t: Tables, p: Pending, now: Instant)
    requires TablesInv(issued, t)
    ensures ExecKept(issued, t, FailRun(t, p.run, p.owner, ProviderDown, now).0, Idle)
  {
    AtRun(issued, t, p.run);
    FailStep(t, p.run, p.owner, ProviderDown, now);
    RunStepFine(issued, t, FailRun(t, p.run, p.owner, ProviderDown, now).0, p.run);
  }

  lemma {:induction false} RecordKept(issued: Issuer, t: Tables, p: Pending, sources: seq<ManifestSource>,
      incomplete: bool)
    requires TablesInv(issued, t) && ExecOk(t.runs, t.manifests, Chose(p, sources, incomplete))
    ensures ExecKept(issued, t, RecordAcquisition(t, p.run, incomplete), Recorded(p, sources, incomplete))
  {
    AtRun(issued, t, p.run);
    RecordStep(t, p.run, incomplete);
    RunStepFine(issued, t, RecordAcquisition(t, p.run, incomplete), p.run);
  }

  lemma {:induction false} CommitStep(t: Tables, p: Pending, sources: seq<ManifestSource>, incomplete: bool, e: Event,
      now: Instant)
    requires e.Commits? && Local(t, p.run) && ExecOk(t.runs, t.manifests, Recorded(p, sources, incomplete))
    ensures RunStep(t, Commit(t, p, sources, incomplete, e, now).0, p.run)
  {
    if sources == [] {
      if incomplete {
        FailStep(t, p.run, p.owner, ProviderDown, now);
      } else {
        CompleteEmptyStep(t, p.run, p.owner, now);
      }
    } else {
      var built := Build(e.manifest, p.owner, p.run, p.start, p.end, sources, e.windowOk, _ => e.accepted);
      if built.Err? {
        FailStep(t, p.run, p.owner, FailureClass.ManifestInvalid, now);
      } else {
        CommitManifestStep(t, built.value, p.operation, e.requestOk, now);
      }
    }
  }

  lemma {:induction false} CommitKept(issued: Issuer, t: Tables, p: Pending, sources: seq<ManifestSource>,
      incomplete: bool, e: Event, now: Instant)
    requires e.Commits? && TablesInv(issued, t) && ExecOk(t.runs, t.manifests, Recorded(p, sources, incomplete))
    ensures ExecKept(issued, t, Commit(t, p, sources, incomplete, e, now).0, Idle)
  {
    AtRun(issued, t, p.run);
    CommitStep(t, p, sources, incomplete, e, now);
    RunStepFine(issued, t, Commit(t, p, sources, incomplete, e, now).0, p.run);
  }

  lemma {:induction false} WalkingStepKept(issued: Issuer, t: Tables, x: Exec, now: Instant, e: Event, sourceCount: nat)
    requires TablesInv(issued, t) && ExecOk(t.runs, t.manifests, x) && x.Walking? && !e.Dies?
    ensures var (t', x') := ExecStep(t, x, now, e, sourceCount); ExecKept(issued, t, t', x')
  {
    UnchangedFine(issued, t);
    if x.i < |x.queue| && !x.walk.Done? && e.Hears? {
      WalkingKept(issued, t, x, RequestFor(x.p, x.queue[x.i]), now, e.answer);
    }
  }

  lemma {:induction false} EndStepKept(issued: Issuer, t: Tables, x: Exec, now: Instant, e: Event, sourceCount: nat)
    requires TablesInv(issued, t) && ExecOk(t.runs, t.manifests, x) && !e.Dies?
    requires x.Failing? || x.Ready? || x.Chose? || x.Recorded?
    ensures var (t', x') := ExecStep(t, x, now, e, sourceCount); ExecKept(issued, t, t', x')
  {
    UnchangedFine(issued, t);
    match x
    case Failing(p) => FailingKept(issued, t, p, now);
    case Ready(p, incomplete) =>
    case Chose(p, sources, incomplete) => RecordKept(issued, t, p, sources, incomplete);
    case Recorded(p, sources, incomplete) =>
      if e.Commits? {
        CommitKept(issued, t, p, sources, incomplete, e, now);
      }
  }

  lemma {:induction false} ExecStepKept(issued: Issuer, t: Tables, x: Exec, now: Instant, e: Event, sourceCount: nat)
    requires TablesInv(issued, t) && ExecOk(t.runs, t.manifests, x)
    ensures var (t', x') := ExecStep(t, x, now, e, sourceCount); ExecKept(issued, t, t', x')
  {
    if e.Dies? || x.Started? {
      UnchangedFine(issued, t);
    } else if x.Idle? {
      SelectKept(issued, t, now);
    } else if x.Chosen? {
      ChosenKept(issued, t, x.p, now);
    } else if x.Walking? {
      WalkingStepKept(issued, t, x, now, e, sourceCount);
    } else {
      EndStepKept(issued, t, x, now, e, sourceCount);
    }
  }

  // ---------------------------------------------------------------- facts

  /** A settling transaction leaves the executor's run alone: that run has no manifest. */
  lemma {:induction false} SettledLeavesExecutor(t: Tables, t': Tables, run: Uuid)
    requires RunStep(t, t', run) && (t' != t ==> run in t.manifests && t'.manifests == t.manifests)
    ensures LeavesExecutor(t, t')
  {
  }

  lemma {:induction false} SettleCompletionFine(issued: Issuer, t: Tables, f: Completion, incomplete: bool,
      now: Instant)
    requires TablesInv(issued, t) && HandlerOk(t.runs, t.manifests, Verified(f, incomplete))
    ensures var t' := SettleCompletion(t, f, incomplete, now).0; Fine(issued, t, t') && LeavesExecutor(t, t')
  {
    var t' := SettleCompletion(t, f, incomplete, now).0;
    AtRun(issued, t, f.run);
    SettleCompletionStep(t, f, incomplete, now);
    RunStepFine(issued, t, t', f.run);
    SettledLeavesExecutor(t, t', f.run);
  }

  lemma {:induction false} SettleFailureFine(issued: Issuer, t: Tables, f: RecapFailureFact, newId: Uuid, now: Instant)
    requires TablesInv(issued, t)
    ensures var t' := SettleFailure(t, f, newId, now).0; Fine(issued, t, t') && LeavesExecutor(t, t')
  {
    var t' := SettleFailure(t, f, newId, now).0;
    AtRun(issued, t, f.run);
    SettleFailureStep(t, f, newId, now);
    RunStepFine(issued, t, t', f.run);
    SettledLeavesExecutor(t, t', f.run);
  }

  lemma {:induction false} CompletionStepFine(issued: Issuer, s: State, h: nat)
    requires TablesInv(issued, s.t) && h in s.handlers && s.handlers[h].Verified?
    requires HandlerOk(s.t.runs, s.t.manifests, s.handlers[h])
    ensures var t' := HandlerStep(s, CompletionSettles(h)).t; Fine(issued, s.t, t') && LeavesExecutor(s.t, t')
  {
    SettleCompletionFine(issued, s.t, s.handlers[h].fact, s.handlers[h].incomplete, s.now);
  }

  lemma {:induction false} FailureStepFine(issued: Issuer, s: State, h: nat, newId: Uuid)
    requires TablesInv(issued, s.t) && h in s.handlers && s.handlers[h].FailureChecked?
    ensures var t' := HandlerStep(s, FailureSettles(h, newId)).t; Fine(issued, s.t, t') && LeavesExecutor(s.t, t')
  {
    SettleFailureFine(issued, s.t, s.handlers[h].failure, newId, s.now);
  }

  lemma {:induction false} HandlerStepFine(issued: Issuer, s: State, a: Action)
    requires TablesInv(issued, s.t) && HandlersOk(s.t.runs, s.t.manifests, s.handlers)
    requires a.CompletionLooksUp? || a.CompletionVerifies? || a.CompletionSettles? || a.FailureSettles?
    ensures Fine(issued, s.t, HandlerStep(s, a).t) && LeavesExecutor(s.t, HandlerStep(s, a).t)
  {
    if a.CompletionSettles? && a.h in s.handlers && s.handlers[a.h].Verified? {
      CompletionStepFine(issued, s, a.h);
    } else if a.FailureSettles? && a.h in s.handlers && s.handlers[a.h].FailureChecked? {
      FailureStepFine(issued, s, a.h, a.newId);
    } else {
      assert HandlerStep(s, a).t == s.t;
      UnchangedFine(issued, s.t);
    }
  }

  lemma {:induction false} OneHandlerOk(runs: Runs, manifests: Manifests, handlers: map<nat, Handling>,
      handlers': map<nat, Handling>, h: nat)
    requires HandlersOk(runs, manifests, handlers)
    requires forall k :: k in handlers' && k != h ==> k in handlers && handlers'[k] == handlers[k]
    requires h in handlers' ==> HandlerOk(runs, manifests, handlers'[h])
    ensures HandlersOk(runs, manifests, handlers')
  {
  }

  /** What a step of a fact does to the handlers: one of them moves on, in a state that is right. */
  lemma {:induction false} HandlerStepKept(s: State, a: Action)
    requires HandlersOk(s.t.runs, s.t.manifests, s.handlers)
    requires a.CompletionLooksUp? || a.CompletionVerifies? || a.CompletionSettles? || a.FailureSettles?
    ensures HandlersOk(s.t.runs, s.t.manifests, HandlerStep(s, a).handlers)
  {
    if a.h in s.handlers {
      assert HandlerOk(s.t.runs, s.t.manifests, s.handlers[a.h]);
      OneHandlerOk(s.t.runs, s.t.manifests, s.handlers, HandlerStep(s, a).handlers, a.h);
    }
  }

  // ---------------------------------------------------------------- every action

  /** A step of anything but the executor. */
  lemma {:induction false} AroundKept(issued: Issuer, s: State, s': State)
    requires Inv(issued, s) && Fine(issued, s.t, s'.t) && LeavesExecutor(s.t, s'.t)
    requires s'.x == s.x && RefusalsOk(issued, s'.refusals) && HandlersOk(s.t.runs, s.t.manifests, s'.handlers)
    ensures Inv(issued, s')
  {
    ExecOkAround(s.t, s'.t, s.x);
    HandlersOkAround(s.t, s'.t, s'.handlers);
  }

  /** The arrivals: what is accepted, refused, or read. */
  lemma {:induction false} ArrivalFine(w: Settings, issued: Issuer, s: State, a: Action)
    requires TablesInv(issued, s.t) && RefusalsOk(issued, s.refusals) && Plausible(issued, s, a)
    requires a.RunArrives? || a.SubscriptionArrives? || a.OccurrenceArrives? || a.Refuses?
    ensures Fine(issued, s.t, Next(w, s, a).t) && LeavesExecutor(s.t, Next(w, s, a).t)
  {
    var t' := Next(w, s, a).t;
    if a.RunArrives? {
      AcceptRunStep(issued, s.t, a.run, s.now);
      NoRunFine(issued, s.t, t');
    } else if a.SubscriptionArrives? {
      AcceptSubscriptionStep(issued, s.t, a.subscription, a.newSubscription, a.newChannel, s.now);
      NoRunFine(issued, s.t, t');
    } else if a.OccurrenceArrives? {
      AcceptOccurrenceStep(issued, s.t, a.occurrence, a.newIds, s.now);
      NoRunFine(issued, s.t, t');
    } else if a.refusal in s.refusals {
      RejectStep(issued, s.t, a.refusal);
      NoRunFine(issued, s.t, t');
    } else {
      UnchangedFine(issued, s.t);
    }
  }

  lemma {:induction false} ArrivalKept(w: Settings, issued: Issuer, s: State, a: Action)
    requires Inv(issued, s) && Plausible(issued, s, a)
    requires a.RunArrives? || a.SubscriptionArrives? || a.OccurrenceArrives? || a.Refuses?
    ensures Inv(issued, Next(w, s, a)) && Fine(issued, s.t, Next(w, s, a).t)
    ensures LeavesExecutor(s.t, Next(w, s, a).t)
  {
    ArrivalFine(w, issued, s, a);
    AroundKept(issued, s, Next(w, s, a));
  }

  lemma {:induction false} IdleKept(w: Settings, issued: Issuer, s: State, a: Action)
    requires Inv(issued, s) && Plausible(issued, s, a)
    requires a.TimePasses? || a.UnreadableArrives? || a.RefusalDies? || a.HandlerDies?
    ensures Inv(issued, Next(w, s, a)) && Fine(issued, s.t, Next(w, s, a).t)
    ensures LeavesExecutor(s.t, Next(w, s, a).t)
  {
    UnchangedFine(issued, s.t);
    AroundKept(issued, s, Next(w, s, a));
  }

  lemma {:induction false} SweepKept(w: Settings, issued: Issuer, s: State, a: Action)
    requires Inv(issued, s) && (a.SweepsBodies? || a.SweepsTexts? || a.Reaps?)
    ensures Inv(issued, Next(w, s, a)) && Fine(issued, s.t, Next(w, s, a).t)
    ensures LeavesExecutor(s.t, Next(w, s, a).t)
  {
    var s' := Next(w, s, a);
    if a.Reaps? {
      ReapFine(issued, s.t, s.now, w.deadline);
    } else {
      SweepTexts(s.t, a.before, a.limit, s.now);
      TextOnlyFine(issued, s.t, s'.t);
    }
    AroundKept(issued, s, s');
  }

  predicate OfFact(a: Action) {
    || a.CompletionArrives? || a.CompletionLooksUp? || a.CompletionVerifies? || a.CompletionSettles?
    || a.FailureArrives? || a.FailureSettles?
  }

  lemma {:induction false} FactFine(w: Settings, issued: Issuer, s: State, a: Action)
    requires Inv(issued, s) && OfFact(a)
    ensures Fine(issued, s.t, Next(w, s, a).t) && LeavesExecutor(s.t, Next(w, s, a).t)
  {
    if a.CompletionArrives? || a.FailureArrives? {
      UnchangedFine(issued, s.t);
    } else {
      assert Next(w, s, a) == HandlerStep(s, a);
      HandlerStepFine(issued, s, a);
    }
  }

  lemma {:induction false} FactHandlers(w: Settings, issued: Issuer, s: State, a: Action)
    requires Inv(issued, s) && Plausible(issued, s, a) && OfFact(a)
    ensures HandlersOk(s.t.runs, s.t.manifests, Next(w, s, a).handlers)
    ensures Next(w, s, a).x == s.x && Next(w, s, a).refusals == s.refusals
  {
    if a.CompletionArrives? {
      AtRun(issued, s.t, a.fact.run);
    } else if !a.FailureArrives? {
      HandlerStepKept(s, a);
    }
  }

  lemma {:induction false} FactKept(w: Settings, issued: Issuer, s: State, a: Action)
    requires Inv(issued, s) && Plausible(issued, s, a) && OfFact(a)
    ensures Inv(issued, Next(w, s, a)) && Fine(issued, s.t, Next(w, s, a).t)
    ensures LeavesExecutor(s.t, Next(w, s, a).t)
  {
    FactFine(w, issued, s, a);
    FactHandlers(w, issued, s, a);
    AroundKept(issued, s, Next(w, s, a));
  }

  /** Every plausible action keeps every invariant, and changes nothing it may not change. */
  lemma {:induction false} NextKept(w: Settings, issued: Issuer, s: State, a: Action)
    requires Inv(issued, s) && Plausible(issued, s, a)
    ensures Inv(issued, Next(w, s, a)) && Fine(issued, s.t, Next(w, s, a).t)
    ensures !a.Executes? ==> LeavesExecutor(s.t, Next(w, s, a).t)
  {
    if a.Executes? {
      ExecStepKept(issued, s.t, s.x, s.now, a.event, w.sourceCount);
      HandlersOkAround(s.t, Next(w, s, a).t, s.handlers);
    } else if a.RunArrives? || a.SubscriptionArrives? || a.OccurrenceArrives? || a.Refuses? {
      ArrivalKept(w, issued, s, a);
    } else if OfFact(a) {
      FactKept(w, issued, s, a);
    } else if a.SweepsBodies? || a.SweepsTexts? || a.Reaps? {
      SweepKept(w, issued, s, a);
    } else {
      IdleKept(w, issued, s, a);
    }
  }
}

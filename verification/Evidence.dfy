/** What every reachable state of the service keeps: the evidence behind each run state, the reports
    of each operation, and what the executor and the facts in flight may still rely on. */
module EvidenceSpec {
  import opened Schema
  import opened Revisions
  import opened Coordinator
  import opened Intake
  import opened Executor
  import opened Machine

  type Runs = map<Uuid, Run>
  type Results = map<Uuid, Result>
  type Outbox = map<OutboxKey, OutboxRow>

  /** The evidence a run state stands for. */
  predicate RunShape(state: RunState, manifest: bool, result: Option<Result>) {
    match state
    case Accepted => !manifest && result.None?
    case Acquiring => !manifest && result.None?
    case WaitingRecap => manifest && result.None?
    case RunCompleted => if manifest then result.Some? && result.value.outcome.RunCompleted? else result.None?
    case RunPartial => manifest && result.Some? && result.value.outcome.RunPartial?
    case RunFailed => result.Some? ==> manifest && result.value.outcome.RunFailed?
  }

  function ResultOf(results: Results, r: Uuid): Option<Result> {
    if r in results then Some(results[r]) else None
  }

  predicate EvidenceAt(runs: Runs, manifests: Manifests, results: Results, outbox: Outbox, r: Uuid) {
    && (r in manifests ==> r in runs && manifests[r].owner == runs[r].owner)
    && (r in results ==>
         r in manifests && results[r].manifest == manifests[r].id && results[r].owner == manifests[r].owner)
    && (RecapRequestOf(r) in outbox <==> r in manifests)
    && (r in runs ==> RunShape(runs[r].state, r in manifests, ResultOf(results, r)))
    && (r in runs && runs[r].state.RunCompleted? ==> !runs[r].incomplete)
  }

  /** Manifests, recap requests and results match the state of their run, and a completed run read
      its whole window. */
  ghost predicate Evidence(runs: Runs, manifests: Manifests, results: Results, outbox: Outbox) {
    forall r: Uuid :: EvidenceAt(runs, manifests, results, outbox, r)
  }

  predicate SameLinkage(manifests: Manifests, manifests': Manifests) {
    && manifests'.Keys == manifests.Keys
    && forall r :: r in manifests ==> SameManifest(manifests[r], manifests'[r])
  }

  predicate SameManifest(m: Manifest, m': Manifest) {
    m' == m.(text := m'.text, minimized := m'.minimized)
  }

  // ---------------------------------------------------------------- reports

  predicate ReportsAt(runs: Runs, outbox: Outbox, r: Uuid)
    requires r in runs
  {
    var op := runs[r].operation;
    var state := runs[r].state;
    runs[r].trigger.OnDemand? ==>
      && ReportOf(op, Queued) in outbox
      && (state.Accepted? ==> ReportOf(op, Running) !in outbox)
      && (state.Acquiring? ==> ReportOf(op, Running) in outbox)
      && (state.WaitingRecap? || state.RunCompleted? || state.RunPartial? ==> ReportOf(op, Running) in outbox)
      && (ReportOf(op, Succeeded) in outbox <==> state.RunCompleted?)
      && (ReportOf(op, PartiallySucceeded) in outbox <==> state.RunPartial?)
      && (ReportOf(op, Failed) in outbox <==> state.RunFailed?)
  }

  /** The reports of every on-demand operation follow the state of its run. */
  predicate ReportsMatch(runs: Runs, outbox: Outbox) {
    forall r :: r in runs ==> ReportsAt(runs, outbox, r)
  }

  /** Reports and runs belong to decided commands, and the operation of an on-demand run is of that run
      alone. */
  predicate Owned(issued: Issuer, runs: Runs, inbox: map<Decision, InboxRow>, outbox: Outbox) {
    && (forall k :: k in outbox && k.ReportOf? ==> issued(k.operation) in inbox)
    && (forall r :: r in runs ==> issued(runs[r].operation) in inbox)
    && (forall r :: r in runs && runs[r].trigger.OnDemand? ==>
         issued(runs[r].operation) == Decision(RunCommand, Named(runs[r].key)))
    && (forall a, b :: a in runs && b in runs && SharesOperation(runs[a], runs[b]) ==> a == b)
  }

  predicate SharesOperation(a: Run, b: Run) {
    (a.trigger.OnDemand? || b.trigger.OnDemand?) && a.operation == b.operation
  }

  ghost predicate TablesInv(issued: Issuer, t: Tables) {
    && Evidence(t.runs, t.manifests, t.results, t.outbox)
    && ReportsMatch(t.runs, t.outbox)
    && Owned(issued, t.runs, t.inbox, t.outbox)
  }

  // ---------------------------------------------------------------- local states

  /** The run row still is what the executor read, and has no manifest. */
  predicate Holds(runs: Runs, manifests: Manifests, p: Pending) {
    && p.run in runs && p.run !in manifests
    && runs[p.run].owner == p.owner && runs[p.run].operation == p.operation
    && runs[p.run].start == p.start && runs[p.run].end == p.end
  }

  predicate Begun(state: RunState) { state.Acquiring? || state.RunFailed? }

  /** Only the reaper can have moved the run the executor works on. */
  predicate ExecOk(runs: Runs, manifests: Manifests, x: Exec) {
    match x
    case Idle => true
    case Chosen(p) => Holds(runs, manifests, p) && Unsettled(p.state)
      && (runs[p.run].state == p.state || runs[p.run].state.RunFailed?)
    case Recorded(p, _, incomplete) =>
      Holds(runs, manifests, p) && Begun(runs[p.run].state) && runs[p.run].incomplete == incomplete
    case _ => Holds(runs, manifests, x.p) && Begun(runs[x.p.run].state)
  }

  /** A stale flag of a run with a manifest is still the stored one. */
  predicate HandlerOk(runs: Runs, manifests: Manifests, g: Handling) {
    match g
    case FailureChecked(f) =>
      && f.run in manifests && f.run in runs && runs[f.run].owner == f.owner
      && manifests[f.run].owner == f.owner && manifests[f.run].sha == f.manifestSha
    case _ =>
      && g.fact.run in manifests && g.fact.run in runs
      && (runs[g.fact.run].owner == g.fact.owner ==> g.incomplete == runs[g.fact.run].incomplete)
      && (g.Verified? ==> runs[g.fact.run].owner == g.fact.owner && FactFits(manifests[g.fact.run], g.fact))
  }

  /** The fact is about exactly this manifest. */
  predicate FactFits(m: Manifest, fact: Completion) {
    && m.owner == fact.owner && m.sha == fact.manifestSha
    && m.sourceCount == fact.selected && fact.channels <= m.channelCount
  }

  predicate HandlersOk(runs: Runs, manifests: Manifests, handlers: map<nat, Handling>) {
    forall h :: h in handlers ==> HandlerOk(runs, manifests, handlers[h])
  }

  predicate RefusalsOk(issued: Issuer, refusals: set<Rejection>) {
    forall r :: r in refusals ==> issued(r.operation) == r.decision
  }

  ghost predicate Inv(issued: Issuer, s: State) {
    && TablesInv(issued, s.t)
    && ExecOk(s.t.runs, s.t.manifests, s.x)
    && HandlersOk(s.t.runs, s.t.manifests, s.handlers)
    && RefusalsOk(issued, s.refusals)
  }

  // ---------------------------------------------------------------- kinds of change

  /** What no step does to a run or to the evidence of another: identities stay, settled states stay,
      and a flag that a fact may have read stays. */
  predicate Steady(t: Tables, t': Tables) {
    && t.runs.Keys <= t'.runs.Keys && t.manifests.Keys <= t'.manifests.Keys && t.results.Keys <= t'.results.Keys
    && (forall r :: r in t.runs ==> SteadyRun(t.runs[r], t'.runs[r]))
    && (forall r :: r in t.runs && r in t.manifests ==> t'.runs[r].incomplete == t.runs[r].incomplete)
    && (forall r :: r in t.manifests ==> SameManifest(t.manifests[r], t'.manifests[r]))
    && (forall r :: r in t.results ==> t'.results[r] == t.results[r])
    && (forall r :: r in t.runs && t.runs[r].state.Settled() && r in t'.results ==> r in t.results)
    && Grows(t.inbox, t'.inbox)
    && Grows(t.outbox, t'.outbox)
  }

  predicate SteadyRun(run: Run, run': Run) {
    && run' == run.(state := run'.state, failure := run'.failure, incomplete := run'.incomplete,
                    updated := run'.updated)
    && (run.state.Settled() ==> run'.state == run.state)
  }

  /** What happens to a run without a manifest while the executor is not the one acting. */
  predicate LeavesExecutor(t: Tables, t': Tables) {
    forall r :: r in t.runs && r !in t.manifests ==>
      r in t'.runs && r !in t'.manifests && (t'.runs[r] == t.runs[r] || OnlyFailed(t.runs[r], t'.runs[r]))
  }

  predicate OnlyFailed(run: Run, run': Run) {
    run' == run.(state := RunFailed, failure := run'.failure, updated := run'.updated)
  }

  /** What a step adds to the reports: running comes with acquiring, and the operation of a scheduled run
      is never reported again. */
  predicate ReportsFollow(t: Tables, t': Tables) {
    && (forall r | r in t'.runs && t'.runs[r].trigger.OnDemand?
          && ReportOf(t'.runs[r].operation, Running) in t'.outbox ::
         t'.runs[r].state.Acquiring? || (r in t.runs && ReportOf(t'.runs[r].operation, Running) in t.outbox))
    && (forall r, k | r in t.runs && t.runs[r].trigger.Scheduled? && k in t'.outbox && k !in t.outbox && k.ReportOf? ::
         k.operation != t.runs[r].operation)
  }

  /** A transaction kept the tables in order and left everything it may not touch. */
  ghost predicate Fine(issued: Issuer, t: Tables, t': Tables) {
    TablesInv(issued, t') && Steady(t, t') && ReportsFollow(t, t')
  }

  /** What a transaction about one run knows of it. */
  predicate Local(t: Tables, run: Uuid) {
    && EvidenceAt(t.runs, t.manifests, t.results, t.outbox, run)
    && (run in t.runs ==> ReportsAt(t.runs, t.outbox, run))
  }

  /** Nothing changed, or one run moved together with its evidence and its reports. */
  predicate RunStep(t: Tables, t': Tables, run: Uuid) {
    t' == t || (OneRun(t, t', run) && Local(t', run))
  }

  /** A move of one run, before it is reported. */
  predicate Moved(t: Tables, t1: Tables, run: Uuid) {
    && run in t.runs && run in t1.runs && t1.runs == t.runs[run := t1.runs[run]] && SteadyRun(t.runs[run], t1.runs[run])
    && t1.manifests == t.manifests && OnlyAt(t.results, t1.results, run) && t.runs[run].state.Open()
    && t1.runs[run].incomplete == t.runs[run].incomplete
    && Grows(t.inbox, t1.inbox) && t1.outbox == t.outbox
  }

  predicate StatusFits(from: RunState, to: RunState, status: OperationStatus) {
    match status
    case Queued => false
    case Running => from.Accepted? && to.Acquiring?
    case Succeeded => (from.Acquiring? || from.WaitingRecap?) && to.RunCompleted?
    case PartiallySucceeded => from.WaitingRecap? && to.RunPartial?
    case Failed => from.Open() && to.RunFailed?
  }

  /** One run, its evidence, and the reports of its operation change; everything else stays. */
  predicate OneRun(t: Tables, t': Tables, run: Uuid) {
    && run in t.runs && run in t'.runs && t'.runs == t.runs[run := t'.runs[run]] && SteadyRun(t.runs[run], t'.runs[run])
    && OnlyAt(t.manifests, t'.manifests, run) && OnlyAt(t.results, t'.results, run)
    && (t.runs[run].state.Settled() ==> t'.results == t.results)
    && (run in t.manifests ==> t'.runs[run].incomplete == t.runs[run].incomplete)
    && Grows(t.inbox, t'.inbox)
    && Grows(t.outbox, t'.outbox)
    && (forall k :: k in t'.outbox && k !in t.outbox ==> k == RecapRequestOf(run) || ReportsRun(k, t'.runs[run]))
  }

  predicate ReportsRun(k: OutboxKey, run: Run) {
    k.ReportOf? && run.trigger.OnDemand? && k.operation == run.operation && (k.status.Running? ==> run.state.Acquiring?)
  }

  /** The map differs at most by a new entry for the key. */
  predicate OnlyAt<V(==)>(m: map<Uuid, V>, m': map<Uuid, V>, key: Uuid) {
    m' == m || (key !in m && key in m' && m' == m[key := m'[key]])
  }

  predicate Grows<K, V(==)>(m: map<K, V>, m': map<K, V>) {
    forall k :: k in m ==> k in m' && m'[k] == m[k]
  }

  /** The runs stay but for new ones, their evidence stays, and only operations decided just now are
      reported. */
  predicate NoRun(issued: Issuer, t: Tables, t': Tables) {
    && Grows(t.runs, t'.runs) && t'.manifests == t.manifests && t'.results == t.results
    && Grows(t.inbox, t'.inbox) && Grows(t.outbox, t'.outbox)
    && (forall k :: k in t'.outbox && k !in t.outbox ==> NewOperation(issued, t, t', k))
    && (forall r :: r in t'.runs && r !in t.runs ==> NewlyAccepted(issued, t, t', t'.runs[r]))
    && (forall a, b :: a in t'.runs && b in t'.runs && a !in t.runs && b !in t.runs && t'.runs[a].trigger.OnDemand? ==>
         a == b)
  }

  /** A run of a command that was decided just now; when it is on demand, it is reported queued only. */
  predicate NewlyAccepted(issued: Issuer, t: Tables, t': Tables, run: Run) {
    && run.state.Accepted?
    && issued(run.operation) !in t.inbox && issued(run.operation) in t'.inbox
    && (run.trigger.OnDemand? ==>
         && issued(run.operation) == Decision(RunCommand, Named(run.key))
         && ReportOf(run.operation, Queued) in t'.outbox
         && forall k :: k in t'.outbox && k !in t.outbox ==> k == ReportOf(run.operation, Queued))
  }

  /** A report of a command that was decided just now. */
  predicate NewOperation(issued: Issuer, t: Tables, t': Tables, k: OutboxKey) {
    k.ReportOf? && issued(k.operation) !in t.inbox && issued(k.operation) in t'.inbox
  }

  /** Only stored texts changed: bodies, manifest texts, withdrawals, leases. */
  predicate TextOnly(t: Tables, t': Tables) {
    && t'.runs == t.runs && t'.results == t.results && t'.inbox == t.inbox && t'.outbox == t.outbox
    && SameLinkage(t.manifests, t'.manifests)
  }

  /** The reaper failed some open runs and reported the ones on demand. */
  predicate ReapStep(t: Tables, t': Tables) {
    && t'.runs.Keys == t.runs.Keys && t'.manifests == t.manifests && t'.results == t.results && t'.inbox == t.inbox
    && Grows(t.outbox, t'.outbox)
    && (forall r :: r in t.runs ==> t'.runs[r] == t.runs[r] || ReapedRun(t.runs[r], t'.runs[r], t'.outbox))
    && (forall k :: k in t'.outbox && k !in t.outbox ==> OfReaped(t, t', k))
  }

  predicate ReapedRun(run: Run, run': Run, outbox: Outbox) {
    && run.state.Open() && OnlyFailed(run, run')
    && (run.trigger.OnDemand? ==> ReportOf(run.operation, Failed) in outbox)
  }

  predicate OfReaped(t: Tables, t': Tables, k: OutboxKey) {
    && k.ReportOf? && k.status.Failed?
    && exists r :: r in t.runs && r in t'.runs && t.runs[r].trigger.OnDemand? && t.runs[r].operation == k.operation
         && t'.runs[r].state.RunFailed?
  }
}

/** Each transaction keeps the tables in order. */
module EvidenceTransactions {
  import opened Schema
  import opened Reports
  import opened Coordinator
  import opened ManifestBuilder
  import opened Executor
  import opened Machine
  import opened EvidenceSpec

  // ---------------------------------------------------------------- one run moves

  lemma {:induction false} OneRunEvidence(t: Tables, t': Tables, run: Uuid)
    requires Evidence(t.runs, t.manifests, t.results, t.outbox) && OneRun(t, t', run)
    requires EvidenceAt(t'.runs, t'.manifests, t'.results, t'.outbox, run)
    ensures Evidence(t'.runs, t'.manifests, t'.results, t'.outbox)
  {
    forall r: Uuid
      ensures EvidenceAt(t'.runs, t'.manifests, t'.results, t'.outbox, r)
    {
      assert EvidenceAt(t.runs, t.manifests, t.results, t.outbox, r);
    }
  }

  lemma {:induction false} OneRunReports(issued: Issuer, t: Tables, t': Tables, run: Uuid)
    requires ReportsMatch(t.runs, t.outbox) && Owned(issued, t.runs, t.inbox, t.outbox)
    requires OneRun(t, t', run) && ReportsAt(t'.runs, t'.outbox, run)
    ensures ReportsMatch(t'.runs, t'.outbox)
  {
    forall r | r in t'.runs
      ensures ReportsAt(t'.runs, t'.outbox, r)
    {
      assert ReportsAt(t.runs, t.outbox, r);
      assert SharesOperation(t.runs[r], t.runs[run]) ==> r == run;
    }
  }

  lemma {:induction false} OneRunOwned(issued: Issuer, t: Tables, t': Tables, run: Uuid)
    requires Owned(issued, t.runs, t.inbox, t.outbox) && OneRun(t, t', run)
    ensures Owned(issued, t'.runs, t'.inbox, t'.outbox)
  {
    forall a, b | a in t'.runs && b in t'.runs && SharesOperation(t'.runs[a], t'.runs[b])
      ensures a == b
    {
      assert SharesOperation(t.runs[a], t.runs[b]);
    }
  }

  lemma {:induction false} OneRunFollows(issued: Issuer, t: Tables, t': Tables, run: Uuid)
    requires Owned(issued, t.runs, t.inbox, t.outbox) && OneRun(t, t', run)
    ensures ReportsFollow(t, t')
  {
    forall r | r in t.runs && t.runs[r].operation == t.runs[run].operation && t.runs[run].trigger.OnDemand?
      ensures r == run
    {
      assert SharesOperation(t.runs[r], t.runs[run]);
    }
  }

  lemma {:induction false} RunStepFine(issued: Issuer, t: Tables, t': Tables, run: Uuid)
    requires TablesInv(issued, t) && RunStep(t, t', run)
    ensures Fine(issued, t, t')
  {
    if t' != t {
      OneRunEvidence(t, t', run);
      OneRunReports(issued, t, t', run);
      OneRunOwned(issued, t, t', run);
      OneRunFollows(issued, t, t', run);
    }
  }

  /** What is known about the run a transaction is about. */
  lemma {:induction false} AtRun(issued: Issuer, t: Tables, run: Uuid)
    requires TablesInv(issued, t)
    ensures Local(t, run)
  {
  }

  lemma {:induction false} ReportKeepsRun(t: Tables, t1: Tables, run: Uuid, status: OperationStatus, row: OutboxRow)
    requires Moved(t, t1, run) && (status.Running? ==> t1.runs[run].state.Acquiring?)
    ensures OneRun(t, ReportRun(t1, run, t.runs[run].owner, status, row), run)
  {
    var t' := ReportRun(t1, run, t.runs[run].owner, status, row);
    assert t' == t1.(outbox := t'.outbox);
    assert t.runs[run].trigger.Scheduled? ==> t'.outbox == t.outbox;
    assert t.runs[run].trigger.OnDemand? ==>
      t'.outbox == Enqueue(t.outbox, ReportOf(t.runs[run].operation, status), row);
    assert Grows(t.outbox, t'.outbox);
    assert forall k :: k in t'.outbox && k !in t.outbox ==> ReportsRun(k, t'.runs[run]);
  }

  lemma {:induction false} ReportKeepsLocal(t: Tables, t1: Tables, run: Uuid, status: OperationStatus, row: OutboxRow)
    requires Moved(t, t1, run) && Local(t, run)
    requires EvidenceAt(t1.runs, t1.manifests, t1.results, t1.outbox, run)
    requires StatusFits(t.runs[run].state, t1.runs[run].state, status)
    ensures Local(ReportRun(t1, run, t.runs[run].owner, status, row), run)
  {
    var t' := ReportRun(t1, run, t.runs[run].owner, status, row);
    var op := t.runs[run].operation;
    assert t' == t1.(outbox := t'.outbox);
    assert RecapRequestOf(run) in t'.outbox <==> RecapRequestOf(run) in t1.outbox;
    assert EvidenceAt(t'.runs, t'.manifests, t'.results, t'.outbox, run);
    assert t.runs[run].trigger.OnDemand? ==>
      forall k :: k in t'.outbox <==> k in t.outbox || k == ReportOf(op, status);
    assert ReportsAt(t'.runs, t'.outbox, run);
  }

  /** A fitting report completes a move. */
  lemma {:induction false} ReportedStep(t: Tables, t1: Tables, run: Uuid, owner: Uuid, status: OperationStatus,
      row: OutboxRow)
    requires Moved(t, t1, run) && Local(t, run) && t.runs[run].owner == owner
    requires EvidenceAt(t1.runs, t1.manifests, t1.results, t1.outbox, run)
    requires StatusFits(t.runs[run].state, t1.runs[run].state, status)
    ensures RunStep(t, ReportRun(t1, run, owner, status, row), run)
  {
    ReportKeepsRun(t, t1, run, status, row);
    ReportKeepsLocal(t, t1, run, status, row);
  }

  lemma {:induction false} BeginStep(t: Tables, p: Pending, now: Instant)
    requires Local(t, p.run) && (p.run in t.runs ==> t.runs[p.run].owner == p.owner)
    ensures RunStep(t, BeginAcquisition(t, p, now).0, p.run)
  {
    if p.run in t.runs && t.runs[p.run].state.Accepted? {
      ReportedStep(t, Move(t, p.run, Acquiring, now), p.run, p.owner, Running, PlainReport(p.owner, "acquiring"));
    }
  }

  lemma {:induction false} CompleteEmptyStep(t: Tables, run: Uuid, owner: Uuid, now: Instant)
    requires Local(t, run) && (run in t.runs ==> Begun(t.runs[run].state) && !t.runs[run].incomplete)
    ensures RunStep(t, CompleteEmptyRun(t, run, owner, now).0, run)
  {
    if Owns(t.runs, run, owner) && Unsettled(t.runs[run].state) {
      ReportedStep(t, Move(t, run, RunCompleted, now), run, owner, Succeeded, PlainReport(owner, "no_sources"));
    }
  }

  lemma {:induction false} FailStep(t: Tables, run: Uuid, owner: Uuid, failure: FailureClass, now: Instant)
    requires Local(t, run)
    ensures RunStep(t, FailRun(t, run, owner, failure, now).0, run)
  {
    if Owns(t.runs, run, owner) && Unsettled(t.runs[run].state) {
      ReportedStep(t, MoveFailed(t, run, failure, now), run, owner, Failed, FailureReport(owner, failure));
    }
  }

  lemma {:induction false} RecordStep(t: Tables, run: Uuid, incomplete: bool)
    requires Local(t, run) && (run in t.runs ==> Begun(t.runs[run].state) && run !in t.manifests)
    ensures RunStep(t, RecordAcquisition(t, run, incomplete), run)
  {
  }

  lemma {:induction false} CommitManifestStep(t: Tables, m: CanonicalManifest, operation: Uuid, requestOk: bool,
      now: Instant)
    requires Local(t, m.run) && (m.run in t.runs ==> Begun(t.runs[m.run].state))
    ensures RunStep(t, CommitManifest(t, m, operation, requestOk, now).0, m.run)
  {
  }

  /** The flag a completion read is the stored one, so outcome, state and report agree. */
  lemma {:induction false} SettleCompletionStep(t: Tables, fact: Completion, incomplete: bool, now: Instant)
    requires Local(t, fact.run)
    requires Owns(t.runs, fact.run, fact.owner) ==> incomplete == t.runs[fact.run].incomplete
    ensures RunStep(t, SettleCompletion(t, fact, incomplete, now).0, fact.run)
  {
    if SettleCompletion(t, fact, incomplete, now).0 != t {
      var settled := Move(t, fact.run, OutcomeOf(fact, incomplete), now).(
        results := t.results[fact.run := CompletedResult(t, fact, incomplete)],
        inbox := t.inbox[CompletionDecision(fact) := InboxRow(fact.message, Handled, None)]);
      ReportedStep(t, settled, fact.run, fact.owner, CompletionStatus(fact, incomplete),
                   CompletionReport(fact.owner, fact, incomplete));
    }
  }

  lemma {:induction false} SettleFailureStep(t: Tables, fact: RecapFailureFact, newId: Uuid, now: Instant)
    requires Local(t, fact.run)
    ensures RunStep(t, SettleFailure(t, fact, newId, now).0, fact.run)
  {
    if SettleFailure(t, fact, newId, now).0 != t {
      var settled := MoveFailed(t, fact.run, RecapFailed(fact.code), now).(
        results := t.results[fact.run :=
          Result(newId, t.manifests[fact.run].id, fact.owner, RunFailed, None, None, 0, Some(RecapFailed(fact.code)))],
        inbox := t.inbox[FailureDecision(fact) := InboxRow(fact.message, Handled, None)]);
      ReportedStep(t, settled, fact.run, fact.owner, Failed,
                   ErrorReport(fact.owner, "recap", RecapFailed(fact.code), Retryable(fact.code)));
    }
  }
}

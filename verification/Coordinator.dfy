/** The reports an operation gets, as rows of the outbox. */
module Reports {
  import opened Schema

  type Outbox = map<OutboxKey, OutboxRow>

  /** `insert ... on conflict (subject, semantic_key) do nothing`. */
  function Enqueue(outbox: Outbox, key: OutboxKey, row: OutboxRow): (r: Outbox)
    ensures key in r && forall k :: k in outbox ==> k in r && r[k] == outbox[k]
    ensures forall k :: k in r ==> k in outbox || k == key
  {
    if key in outbox then outbox else outbox[key := row]
  }

  /** The operation that owns a run; a scheduled run is owned by none. */
  function OnDemandOperation(runs: map<Uuid, Run>, run: Uuid, owner: Uuid): Option<Uuid> {
    if run in runs && runs[run].owner == owner && runs[run].trigger.OnDemand? then Some(runs[run].operation) else None
  }

  /** Queues a report for the operation of an on-demand run, and nothing for a scheduled one. */
  function ReportRun(t: Tables, run: Uuid, owner: Uuid, status: OperationStatus, row: OutboxRow): Tables {
    var op := OnDemandOperation(t.runs, run, owner);
    if op.Some? then t.(outbox := Enqueue(t.outbox, ReportOf(op.value, status), row)) else t
  }

  function PlainReport(owner: Uuid, stage: string): OutboxRow {
    Report(owner, stage, None, false, {}, None)
  }

  function ErrorReport(owner: Uuid, stage: string, error: FailureClass, retryable: bool): OutboxRow {
    Report(owner, stage, Some(error), retryable, {}, None)
  }
}

/** The transactions of the coordinator: each is its effect on the tables and its answer. */
module Coordinator {
  import opened Schema
  import opened ManifestBuilder
  import opened Reports

  datatype Reply = Applied | Replayed | InvalidReply | StorageReply

  datatype Completion = Completion(
    message: Uuid, run: Uuid, owner: Uuid, result: Uuid, analysis: Uuid, manifestSha: TextDigest,
    resultDigest: string, included: nat, omitted: nat, selected: nat, channels: nat)

  datatype RecapFailureFact = RecapFailureFact(
    message: Uuid, run: Uuid, owner: Uuid, manifestSha: TextDigest, code: RecapFailure)

  /** The states the executor may settle a run from. */
  predicate Unsettled(state: RunState) { state.Accepted? || state.Acquiring? }

  predicate Owns(runs: map<Uuid, Run>, run: Uuid, owner: Uuid) {
    run in runs && runs[run].owner == owner
  }

  function Move(t: Tables, run: Uuid, state: RunState, now: Instant): Tables
    requires run in t.runs
  {
    t.(runs := t.runs[run := t.runs[run].(state := state, updated := now)])
  }

  function MoveFailed(t: Tables, run: Uuid, failure: FailureClass, now: Instant): Tables
    requires run in t.runs
  {
    t.(runs := t.runs[run := t.runs[run].(state := RunFailed, failure := Some(failure), updated := now)])
  }

  // ---------------------------------------------------------------- manifest

  predicate ManifestIdUsed(manifests: map<Uuid, Manifest>, id: Uuid) {
    exists r :: r in manifests && manifests[r].id == id
  }

  function ManifestRow(m: CanonicalManifest): Manifest {
    Manifest(m.id, m.owner, m.sha, m.sourceCount, m.channelCount, Some(m.text), None, set x | x in m.messages)
  }

  /** `commit_manifest`. Whether the contract accepts the recap request is a parameter. */
  function CommitManifest(t: Tables, m: CanonicalManifest, operation: Uuid, requestOk: bool,
      now: Instant): (Tables, Reply)
  {
    if !requestOk then (t, InvalidReply)
    else if m.run in t.manifests then
      var held := t.manifests[m.run];
      (t, if held.id == m.id && held.owner == m.owner && held.sha == m.sha then Replayed else InvalidReply)
    else if m.run !in t.runs || ManifestIdUsed(t.manifests, m.id) || RecapRequestOf(m.run) in t.outbox
         || !(1 <= m.sourceCount <= 100) || !(1 <= m.channelCount <= 20) then (t, StorageReply)
    else if !Owns(t.runs, m.run, m.owner) || !Unsettled(t.runs[m.run].state) then (t, InvalidReply)
    else
      var request := RecapRequest(m.owner, operation, m.id, m.sha, m.sourceCount, m.channelCount);
      (Move(t, m.run, WaitingRecap, now).(
         manifests := t.manifests[m.run := ManifestRow(m)],
         outbox := t.outbox[RecapRequestOf(m.run) := request]),
       Applied)
  }

  // ---------------------------------------------------------------- settling without a recap

  function CompleteEmptyRun(t: Tables, run: Uuid, owner: Uuid, now: Instant): (Tables, Reply) {
    if !Owns(t.runs, run, owner) || !Unsettled(t.runs[run].state) then (t, InvalidReply)
    else (ReportRun(Move(t, run, RunCompleted, now), run, owner, Succeeded, PlainReport(owner, "no_sources")), Applied)
  }

  /** The two reasons a run ends without a recap, with their stage and whether a retry may help. */
  function FailureReport(owner: Uuid, failure: FailureClass): OutboxRow {
    if failure.ProviderDown? then ErrorReport(owner, "acquiring", failure, true)
    else ErrorReport(owner, "manifest", failure, false)
  }

  function FailRun(t: Tables, run: Uuid, owner: Uuid, failure: FailureClass, now: Instant): (Tables, Reply) {
    if !Owns(t.runs, run, owner) || !Unsettled(t.runs[run].state) then (t, InvalidReply)
    else (ReportRun(MoveFailed(t, run, failure, now), run, owner, Failed, FailureReport(owner, failure)), Applied)
  }

  // ---------------------------------------------------------------- Knowledge facts

  predicate Decided(t: Tables, message: Uuid, decision: Decision) {
    decision in t.inbox || exists d :: d in t.inbox && t.inbox[d].message == message
  }

  predicate ResultIdUsed(results: map<Uuid, Result>, id: Uuid) {
    exists r :: r in results && results[r].id == id
  }

  /** First read: the stored flag, false when no such run is owned. */
  function ReadIncomplete(t: Tables, run: Uuid, owner: Uuid): bool {
    Owns(t.runs, run, owner) && t.runs[run].incomplete
  }

  function OutcomeOf(fact: Completion, incomplete: bool): RunState {
    if fact.omitted == 0 && !incomplete then RunCompleted else RunPartial
  }

  predicate SameResult(t: Tables, run: Uuid, fact: Completion, incomplete: bool)
    requires run in t.results
  {
    var held := t.results[run];
    && run == fact.run && held.owner == fact.owner
    && run in t.manifests && t.manifests[run].sha == fact.manifestSha
    && held.recap == Some(fact.analysis) && held.digest == Some(fact.resultDigest)
    && held.outcome == OutcomeOf(fact, incomplete) && held.citations == fact.included
  }

  /** Second read: a stored result of that identity answers the fact by itself. */
  ghost function LookUpResult(t: Tables, fact: Completion, incomplete: bool): Option<Reply> {
    if !ResultIdUsed(t.results, fact.result) then None
    else
      var run :| run in t.results && t.results[run].id == fact.result;
      if t.results[run].recap.None? then Some(StorageReply)
      else Some(if SameResult(t, run, fact, incomplete) then Replayed else InvalidReply)
  }

  /** Third read: the run waits for a recap of exactly this manifest. */
  predicate VerifiesCompletion(t: Tables, fact: Completion) {
    && Owns(t.runs, fact.run, fact.owner)
    && fact.run in t.manifests && t.manifests[fact.run].owner == fact.owner
    && t.runs[fact.run].state.WaitingRecap?
    && fact.manifestSha == t.manifests[fact.run].sha
    && fact.selected == t.manifests[fact.run].sourceCount
    && fact.channels <= t.manifests[fact.run].channelCount
  }

  function CompletionReport(owner: Uuid, fact: Completion, incomplete: bool): OutboxRow {
    Report(owner, "completed", None, false,
           (if fact.omitted > 0 then {ContextOmitted} else {}) + (if incomplete then {AcquisitionIncomplete} else {}),
           Some(fact.result))
  }

  function CompletionStatus(fact: Completion, incomplete: bool): OperationStatus {
    if fact.omitted == 0 && !incomplete then Succeeded else PartiallySucceeded
  }

  function CompletedResult(t: Tables, fact: Completion, incomplete: bool): Result
    requires fact.run in t.manifests
  {
    Result(fact.result, t.manifests[fact.run].id, fact.owner, OutcomeOf(fact, incomplete), Some(fact.analysis),
           Some(fact.resultDigest), fact.included, None)
  }

  function CompletionDecision(fact: Completion): Decision {
    Decision(RecapCompletedEvent, OfResult(fact.result))
  }

  /** The settling transaction of a completion, with the flag read before it. */
  function SettleCompletion(t: Tables, fact: Completion, incomplete: bool, now: Instant): (Tables, Reply) {
    var decision := CompletionDecision(fact);
    if Decided(t, fact.message, decision) then (t, Replayed)
    else if !Owns(t.runs, fact.run, fact.owner) || fact.run !in t.manifests then (t, InvalidReply)
    else if fact.run in t.results || ResultIdUsed(t.results, fact.result) then (t, StorageReply)
    else if !t.runs[fact.run].state.WaitingRecap? then (t, InvalidReply)
    else
      var settled := Move(t, fact.run, OutcomeOf(fact, incomplete), now).(
        results := t.results[fact.run := CompletedResult(t, fact, incomplete)],
        inbox := t.inbox[decision := InboxRow(fact.message, Handled, None)]);
      (ReportRun(settled, fact.run, fact.owner, CompletionStatus(fact, incomplete),
                 CompletionReport(fact.owner, fact, incomplete)),
       Applied)
  }

  /** Whether a retry may help, by failure code. */
  predicate Retryable(code: RecapFailure) {
    code.ManifestUnavailable? || code.RecapProviderUnavailable? || code.RecapProviderTimeout?
  }

  /** The read before the failure transaction: `None` goes on. */
  function CheckFailure(t: Tables, fact: RecapFailureFact): Option<Reply> {
    if !Owns(t.runs, fact.run, fact.owner) || fact.run !in t.manifests || t.manifests[fact.run].owner != fact.owner
    then Some(InvalidReply)
    else if t.runs[fact.run].state.RunFailed? then Some(Replayed)
    else if !t.runs[fact.run].state.WaitingRecap? || fact.manifestSha != t.manifests[fact.run].sha
    then Some(InvalidReply)
    else None
  }

  function FailureDecision(fact: RecapFailureFact): Decision {
    Decision(RecapFailedEvent, OfRun(fact.run))
  }

  function SettleFailure(t: Tables, fact: RecapFailureFact, newId: Uuid, now: Instant): (Tables, Reply) {
    var decision := FailureDecision(fact);
    if Decided(t, fact.message, decision) then (t, Replayed)
    else if fact.run !in t.manifests || fact.run in t.results || ResultIdUsed(t.results, newId) then (t, StorageReply)
    else if !Owns(t.runs, fact.run, fact.owner) || !t.runs[fact.run].state.WaitingRecap? then (t, InvalidReply)
    else
      var settled := MoveFailed(t, fact.run, RecapFailed(fact.code), now).(
        results := t.results[fact.run :=
          Result(newId, t.manifests[fact.run].id, fact.owner, RunFailed, None, None, 0, Some(RecapFailed(fact.code)))],
        inbox := t.inbox[decision := InboxRow(fact.message, Handled, None)]);
      (ReportRun(settled, fact.run, fact.owner, Failed,
                 ErrorReport(fact.owner, "recap", RecapFailed(fact.code), Retryable(fact.code))),
       Applied)
  }
}

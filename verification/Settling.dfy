/** The first delivery of a fact settles its run. */
module SettlingSpec {
  import opened Schema
  import opened Coordinator
  import opened Machine

  /** The actions of one delivery of a completion, with nothing in between. */
  predicate DeliversCompletion(actions: seq<Action>, i: nat, h: nat, fact: Completion) {
    && i + 3 < |actions|
    && actions[i] == CompletionArrives(h, fact) && actions[i + 1] == CompletionLooksUp(h)
    && actions[i + 2] == CompletionVerifies(h) && actions[i + 3] == CompletionSettles(h)
  }

  predicate DeliversFailure(actions: seq<Action>, i: nat, h: nat, fact: RecapFailureFact, newId: Uuid) {
    && i + 1 < |actions|
    && actions[i] == FailureArrives(h, fact) && actions[i + 1] == FailureSettles(h, newId)
  }

  predicate IsNewFact(t: Tables, message: Uuid, result: Uuid) {
    && (forall d :: d in t.inbox ==> t.inbox[d].message != message)
    && (forall r :: r in t.results ==> t.results[r].id != result)
  }

  /** The run waits for the recap of its manifest, and the fact is about exactly this one. */
  predicate Awaits(t: Tables, run: Uuid, owner: Uuid, sha: TextDigest) {
    && run in t.runs && run in t.manifests && t.runs[run].owner == owner && t.runs[run].state.WaitingRecap?
    && t.manifests[run].sha == sha
  }

  /** The run moved, and its result, its decision and its reports are all that changed besides. */
  predicate SettlesAs(t: Tables, t': Tables, run: Uuid, run': Run, result: Result, decision: Decision, message: Uuid) {
    && t' == t.(runs := t'.runs, results := t'.results, inbox := t'.inbox, outbox := t'.outbox)
    && t'.runs.Keys == t.runs.Keys && (forall r :: r in t.runs && r != run ==> t'.runs[r] == t.runs[r])
    && run in t'.runs && t'.runs[run] == run'
    && t'.results == t.results[run := result]
    && t'.inbox == t.inbox[decision := InboxRow(message, Handled, None)]
  }
}

module Settling {
  import opened Schema
  import opened Reports
  import ManifestBuilder
  import opened Coordinator
  import opened Machine
  import opened EvidenceSpec
  import opened LifecycleSpec
  import opened Lifecycle
  import opened StoredSpec
  import opened StoredSteps
  import opened SettlingSpec

  lemma {:induction false} CompletionApplies(t: Tables, fact: Completion, incomplete: bool, now: Instant)
    requires Local(t, fact.run) && Awaits(t, fact.run, fact.owner, fact.manifestSha)
    requires IsNewFact(t, fact.message, fact.result)
    requires Decision(RecapCompletedEvent, OfResult(fact.result)) !in t.inbox
    ensures var t' := SettleCompletion(t, fact, incomplete, now).0;
      var outcome := if fact.omitted == 0 && !incomplete then RunCompleted else RunPartial;
      SettlesAs(t, t', fact.run, t.runs[fact.run].(state := outcome, updated := now),
                Result(fact.result, t.manifests[fact.run].id, fact.owner, outcome, Some(fact.analysis),
                       Some(fact.resultDigest), fact.included, None),
                Decision(RecapCompletedEvent, OfResult(fact.result)), fact.message)
  {
    var settled := Move(t, fact.run, OutcomeOf(fact, incomplete), now).(
      results := t.results[fact.run := CompletedResult(t, fact, incomplete)],
      inbox := t.inbox[CompletionDecision(fact) := InboxRow(fact.message, Handled, None)]);
    ReportTexts(settled, fact.run, fact.owner, CompletionStatus(fact, incomplete),
                CompletionReport(fact.owner, fact, incomplete));
  }

  lemma {:induction false} FailureApplies(t: Tables, fact: RecapFailureFact, newId: Uuid, now: Instant)
    requires Local(t, fact.run) && Awaits(t, fact.run, fact.owner, fact.manifestSha)
    requires IsNewFact(t, fact.message, newId) && Decision(RecapFailedEvent, OfRun(fact.run)) !in t.inbox
    ensures SettlesAs(t, SettleFailure(t, fact, newId, now).0, fact.run,
                      t.runs[fact.run].(state := RunFailed, failure := Some(RecapFailed(fact.code)), updated := now),
                      Result(newId, t.manifests[fact.run].id, fact.owner, RunFailed, None, None, 0,
                             Some(RecapFailed(fact.code))),
                      Decision(RecapFailedEvent, OfRun(fact.run)), fact.message)
  {
    var settled := MoveFailed(t, fact.run, RecapFailed(fact.code), now).(
      results := t.results[fact.run :=
        Result(newId, t.manifests[fact.run].id, fact.owner, RunFailed, None, None, 0, Some(RecapFailed(fact.code)))],
      inbox := t.inbox[FailureDecision(fact) := InboxRow(fact.message, Handled, None)]);
    ReportTexts(settled, fact.run, fact.owner, Failed,
                ErrorReport(fact.owner, "recap", RecapFailed(fact.code), Retryable(fact.code)));
  }

  /** The reads of a delivery that finds its run waiting let it through with the stored flag, and change nothing. */
  lemma {:induction false} ReadsPass(w: Settings, issued: Issuer, states: seq<State>, actions: seq<Action>, i: nat,
      h: nat, fact: Completion)
    requires Service(w, issued, states, actions) && DeliversCompletion(actions, i, h, fact)
    requires h !in states[i].handlers && Awaits(states[i].t, fact.run, fact.owner, fact.manifestSha)
    requires fact.selected == states[i].t.manifests[fact.run].sourceCount
    requires fact.channels <= states[i].t.manifests[fact.run].channelCount
    requires IsNewFact(states[i].t, fact.message, fact.result)
    ensures states[i + 3].t == states[i].t && states[i + 3].now == states[i].now
    ensures h in states[i + 3].handlers
    ensures states[i + 3].handlers[h] == Verified(fact, states[i].t.runs[fact.run].incomplete)
  {
    Reachable(w, issued, states, actions, i);
    AtFact(issued, states[i], fact.run);
    assert StepOf(w, issued, states, actions, i);
    assert StepOf(w, issued, states, actions, i + 1);
    assert StepOf(w, issued, states, actions, i + 2);
  }

  /** A completion delivered for the first time, about a run that waits for exactly this manifest, settles the run: as
      completed when nothing was omitted and the window was read completely, otherwise as partial, with its result and
      its decision. */
  lemma {:induction false} FirstCompletionSettles(w: Settings, issued: Issuer, states: seq<State>, actions: seq<Action>,
      i: nat, h: nat, fact: Completion)
    requires Service(w, issued, states, actions) && DeliversCompletion(actions, i, h, fact)
    requires h !in states[i].handlers && Awaits(states[i].t, fact.run, fact.owner, fact.manifestSha)
    requires fact.selected == states[i].t.manifests[fact.run].sourceCount
    requires fact.channels <= states[i].t.manifests[fact.run].channelCount
    requires IsNewFact(states[i].t, fact.message, fact.result)
    requires Decision(RecapCompletedEvent, OfResult(fact.result)) !in states[i].t.inbox
    ensures var t := states[i].t;
      var run := t.runs[fact.run];
      var outcome := if fact.omitted == 0 && !run.incomplete then RunCompleted else RunPartial;
      SettlesAs(t, states[i + 4].t, fact.run, run.(state := outcome, updated := states[i].now),
                Result(fact.result, t.manifests[fact.run].id, fact.owner, outcome, Some(fact.analysis),
                       Some(fact.resultDigest), fact.included, None),
                Decision(RecapCompletedEvent, OfResult(fact.result)), fact.message)
  {
    ReadsPass(w, issued, states, actions, i, h, fact);
    Reachable(w, issued, states, actions, i);
    AtFact(issued, states[i], fact.run);
    assert StepOf(w, issued, states, actions, i + 3);
    CompletionApplies(states[i].t, fact, states[i].t.runs[fact.run].incomplete, states[i].now);
  }

  lemma {:induction false} FailurePasses(w: Settings, issued: Issuer, states: seq<State>, actions: seq<Action>, i: nat,
      h: nat, fact: RecapFailureFact, newId: Uuid)
    requires Service(w, issued, states, actions) && DeliversFailure(actions, i, h, fact, newId)
    requires h !in states[i].handlers && Awaits(states[i].t, fact.run, fact.owner, fact.manifestSha)
    ensures states[i + 1].t == states[i].t && states[i + 1].now == states[i].now
    ensures h in states[i + 1].handlers && states[i + 1].handlers[h] == FailureChecked(fact)
  {
    Reachable(w, issued, states, actions, i);
    AtFact(issued, states[i], fact.run);
    assert StepOf(w, issued, states, actions, i);
  }

  /** A failure delivered for the first time, about a run that waits for exactly this manifest, fails the run. */
  lemma {:induction false} FirstFailureSettles(w: Settings, issued: Issuer, states: seq<State>, actions: seq<Action>,
      i: nat, h: nat, fact: RecapFailureFact, newId: Uuid)
    requires Service(w, issued, states, actions) && DeliversFailure(actions, i, h, fact, newId)
    requires h !in states[i].handlers && Awaits(states[i].t, fact.run, fact.owner, fact.manifestSha)
    requires IsNewFact(states[i].t, fact.message, newId)
    requires Decision(RecapFailedEvent, OfRun(fact.run)) !in states[i].t.inbox
    ensures var t := states[i].t;
      SettlesAs(t, states[i + 2].t, fact.run,
                t.runs[fact.run].(state := RunFailed, failure := Some(RecapFailed(fact.code)),
                                  updated := states[i].now),
                Result(newId, t.manifests[fact.run].id, fact.owner, RunFailed, None, None, 0,
                       Some(RecapFailed(fact.code))),
                Decision(RecapFailedEvent, OfRun(fact.run)), fact.message)
  {
    FailurePasses(w, issued, states, actions, i, h, fact, newId);
    Reachable(w, issued, states, actions, i);
    AtFact(issued, states[i], fact.run);
    assert StepOf(w, issued, states, actions, i + 1);
    FailureApplies(states[i].t, fact, newId, states[i].now);
  }

  /** What the lookup of a completion finds: nothing when no result has its identity, an error when that is the result
      of a failure, and otherwise whether the stored result is exactly the one delivered. */
  lemma {:induction false} LookUpAnswers(t: Tables, fact: Completion, incomplete: bool, r: Uuid)
    requires UniqueResults(t.results)
    ensures (forall x :: x in t.results ==> t.results[x].id != fact.result) ==>
      LookUpResult(t, fact, incomplete) == None
    ensures r in t.results && t.results[r].id == fact.result ==>
      LookUpResult(t, fact, incomplete) == Some(
        if t.results[r].recap.None? then StorageReply
        else if r == fact.run && r in t.manifests && t.manifests[r].sha == fact.manifestSha
          && t.results[r] == Result(fact.result, t.results[r].manifest, fact.owner,
                                    if fact.omitted == 0 && !incomplete then RunCompleted else RunPartial,
                                    Some(fact.analysis), Some(fact.resultDigest), fact.included, t.results[r].failure)
        then Replayed else InvalidReply)
  {
  }

  /** A manifest committed again is replayed, and another one of the run is refused; neither changes anything. */
  lemma {:induction false} CommitReplays(t: Tables, m: ManifestBuilder.CanonicalManifest, operation: Uuid, now: Instant,
      again: ManifestBuilder.CanonicalManifest, later: Instant)
    requires CommitManifest(t, m, operation, true, now).1 == Applied && again.run == m.run
    ensures var t' := CommitManifest(t, m, operation, true, now).0;
      CommitManifest(t', again, operation, true, later) ==
        (t', if again.id == m.id && again.owner == m.owner && again.sha == m.sha then Replayed else InvalidReply)
  {
  }

  /** The executor's transactions move a run only before it waits for a recap, and only for its owner. */
  lemma {:induction false} EarlyRunsOnly(t: Tables, run: Uuid, owner: Uuid, failure: FailureClass, now: Instant)
    ensures var early := run in t.runs && t.runs[run].owner == owner
        && (t.runs[run].state.Accepted? || t.runs[run].state.Acquiring?);
      && FailRun(t, run, owner, failure, now).1 == (if early then Applied else InvalidReply)
      && CompleteEmptyRun(t, run, owner, now).1 == (if early then Applied else InvalidReply)
      && (!early ==> FailRun(t, run, owner, failure, now).0 == t && CompleteEmptyRun(t, run, owner, now).0 == t)
  {
  }

  /** A first manifest is committed exactly for an early run of its owner, with at most a hundred sources of at most
      twenty channels, under fresh identities. */
  lemma {:induction false} CommitAppliesExactlyWhen(t: Tables, m: ManifestBuilder.CanonicalManifest, operation: Uuid,
      requestOk: bool, now: Instant)
    requires m.run !in t.manifests && RecapRequestOf(m.run) !in t.outbox
    ensures CommitManifest(t, m, operation, requestOk, now).1 == Applied <==>
      && requestOk && m.run in t.runs && t.runs[m.run].owner == m.owner
      && (t.runs[m.run].state.Accepted? || t.runs[m.run].state.Acquiring?)
      && 1 <= m.sourceCount <= 100 && 1 <= m.channelCount <= 20
      && forall r :: r in t.manifests ==> t.manifests[r].id != m.id
    ensures CommitManifest(t, m, operation, requestOk, now).1 != Applied ==>
      CommitManifest(t, m, operation, requestOk, now).0 == t
  {
  }
}

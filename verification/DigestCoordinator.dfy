/** The coordinator's transactions, statement by statement, each proved to have the effect the state
    machine gives it. A transaction that cannot go on leaves the tables as it found them. */
module DigestCoordinators {
  import opened Schema
  import opened Reports
  import opened ManifestBuilder
  import opened Databases
  import opened StoredSpec
  import C = Coordinator
  import S = Schedule

  class DigestCoordinator {
    const db: Database

    constructor (db: Database)
      ensures this.db == db
    {
      this.db := db;
    }

    /** `update digest_runs set state ... where state in ('accepted', 'acquiring')`. */
    method MoveUnsettled(run: Uuid, owner: Uuid, state: RunState, failure: Option<FailureClass>, now: Instant)
      returns (changed: bool)
      modifies db`runs
      ensures changed <==> C.Owns(old(db.runs), run, owner) && C.Unsettled(old(db.runs)[run].state)
      ensures db.runs == if !changed then old(db.runs) else
        old(db.runs)[run := old(db.runs)[run].(state := state, updated := now,
          failure := if failure.Some? then failure else old(db.runs)[run].failure)]
    {
      changed := run in db.runs && db.runs[run].owner == owner && C.Unsettled(db.runs[run].state);
      if changed {
        var row := db.runs[run].(state := state, updated := now);
        db.runs := db.runs[run := if failure.Some? then row.(failure := failure) else row];
      }
    }

    method CommitManifest(m: CanonicalManifest, operation: Uuid, requestOk: bool, now: Instant) returns (reply: C.Reply)
      modifies db
      ensures (db.Snapshot(), reply) == C.CommitManifest(old(db.Snapshot()), m, operation, requestOk, now)
    {
      if !requestOk {
        return C.InvalidReply;
      }
      var saved := db.Snapshot();
      if m.run in db.manifests {
        var held := db.manifests[m.run];
        return if held.id == m.id && held.owner == m.owner && held.sha == m.sha then C.Replayed else C.InvalidReply;
      }
      if m.run !in db.runs || C.ManifestIdUsed(db.manifests, m.id)
        || !(1 <= m.sourceCount <= 100) || !(1 <= m.channelCount <= 20)
      {
        return C.StorageReply;
      }
      var row := Manifest(m.id, m.owner, m.sha, m.sourceCount, m.channelCount, Some(m.text), None, {});
      db.manifests := db.manifests[m.run := row];
      for i := 0 to |m.messages|
        invariant m.run in db.manifests && db.manifests == saved.manifests[m.run := db.manifests[m.run]]
        invariant db.manifests[m.run] == row.(messages := set x | x in m.messages[..i])
        invariant db.Snapshot() == saved.(manifests := db.manifests)
      {
        assert m.messages[..i + 1] == m.messages[..i] + [m.messages[i]];
        db.manifests := db.manifests[m.run := row.(messages := db.manifests[m.run].messages + {m.messages[i]})];
      }
      assert m.messages[..|m.messages|] == m.messages;
      assert db.manifests == saved.manifests[m.run := C.ManifestRow(m)];
      if RecapRequestOf(m.run) in db.outbox {
        db.Rollback(saved);
        return C.StorageReply;
      }
      var request := RecapRequest(m.owner, operation, m.id, m.sha, m.sourceCount, m.channelCount);
      db.outbox := db.outbox[RecapRequestOf(m.run) := request];
      var changed := MoveUnsettled(m.run, m.owner, WaitingRecap, None, now);
      if !changed {
        db.Rollback(saved);
        return C.InvalidReply;
      }
      reply := C.Applied;
    }

    method CompleteEmptyRun(run: Uuid, owner: Uuid, now: Instant) returns (reply: C.Reply)
      modifies db
      ensures (db.Snapshot(), reply) == C.CompleteEmptyRun(old(db.Snapshot()), run, owner, now)
    {
      var changed := MoveUnsettled(run, owner, RunCompleted, None, now);
      if !changed {
        return C.InvalidReply;
      }
      db.ReportRun(run, owner, Succeeded, PlainReport(owner, "no_sources"));
      reply := C.Applied;
    }

    method FailRun(run: Uuid, owner: Uuid, failure: FailureClass, now: Instant) returns (reply: C.Reply)
      modifies db
      ensures (db.Snapshot(), reply) == C.FailRun(old(db.Snapshot()), run, owner, failure, now)
    {
      var changed := MoveUnsettled(run, owner, RunFailed, Some(failure), now);
      if !changed {
        return C.InvalidReply;
      }
      db.ReportRun(run, owner, Failed, C.FailureReport(owner, failure));
      reply := C.Applied;
    }

    // -------------------------------------------------------------- Knowledge facts

    /** The settling transaction of a completion whose reads were made before it. */
    method CommitCompletion(fact: C.Completion, incomplete: bool, now: Instant) returns (reply: C.Reply)
      modifies db
      ensures (db.Snapshot(), reply) == C.SettleCompletion(old(db.Snapshot()), fact, incomplete, now)
    {
      var saved := db.Snapshot();
      var decision := C.CompletionDecision(fact);
      var inserted := db.InsertDecision(fact.message, decision);
      if !inserted {
        return C.Replayed;
      }
      if !C.Owns(db.runs, fact.run, fact.owner) || fact.run !in db.manifests {
        db.Rollback(saved);
        return C.InvalidReply;
      }
      if fact.run in db.results || C.ResultIdUsed(db.results, fact.result) {
        db.Rollback(saved);
        return C.StorageReply;
      }
      db.results := db.results[fact.run := C.CompletedResult(db.Snapshot(), fact, incomplete)];
      if !db.runs[fact.run].state.WaitingRecap? {
        db.Rollback(saved);
        return C.InvalidReply;
      }
      db.runs := db.runs[fact.run := db.runs[fact.run].(state := C.OutcomeOf(fact, incomplete), updated := now)];
      db.ReportRun(fact.run, fact.owner, C.CompletionStatus(fact, incomplete),
                   C.CompletionReport(fact.owner, fact, incomplete));
      db.CompleteDecision(decision);
      assert db.inbox == saved.inbox[decision := InboxRow(fact.message, Handled, None)];
      reply := C.Applied;
    }

    /** `settle_completion`: two reads that may answer the fact, one that verifies it, then the transaction. */
    method SettleCompletion(fact: C.Completion, now: Instant) returns (reply: C.Reply)
      requires UniqueResults(db.results)
      modifies db
      ensures var t := old(db.Snapshot());
        var incomplete := C.ReadIncomplete(t, fact.run, fact.owner);
        var found := C.LookUpResult(t, fact, incomplete);
        (db.Snapshot(), reply) ==
          if found.Some? then (t, found.value)
          else if !C.VerifiesCompletion(t, fact) then (t, C.InvalidReply)
          else C.SettleCompletion(t, fact, incomplete, now)
    {
      var incomplete := C.ReadIncomplete(db.Snapshot(), fact.run, fact.owner);
      if C.ResultIdUsed(db.results, fact.result) {
        var run :| run in db.results && db.results[run].id == fact.result;
        if db.results[run].recap.None? {
          return C.StorageReply;
        }
        return if C.SameResult(db.Snapshot(), run, fact, incomplete) then C.Replayed else C.InvalidReply;
      }
      if !C.VerifiesCompletion(db.Snapshot(), fact) {
        return C.InvalidReply;
      }
      reply := CommitCompletion(fact, incomplete, now);
    }

    method CommitFailure(fact: C.RecapFailureFact, newId: Uuid, now: Instant) returns (reply: C.Reply)
      modifies db
      ensures (db.Snapshot(), reply) == C.SettleFailure(old(db.Snapshot()), fact, newId, now)
    {
      var saved := db.Snapshot();
      var decision := C.FailureDecision(fact);
      var inserted := db.InsertDecision(fact.message, decision);
      if !inserted {
        return C.Replayed;
      }
      if fact.run !in db.manifests || fact.run in db.results || C.ResultIdUsed(db.results, newId) {
        db.Rollback(saved);
        return C.StorageReply;
      }
      db.results := db.results[fact.run :=
        Result(newId, db.manifests[fact.run].id, fact.owner, RunFailed, None, None, 0, Some(RecapFailed(fact.code)))];
      if !C.Owns(db.runs, fact.run, fact.owner) || !db.runs[fact.run].state.WaitingRecap? {
        db.Rollback(saved);
        return C.InvalidReply;
      }
      db.runs := db.runs[fact.run :=
        db.runs[fact.run].(state := RunFailed, failure := Some(RecapFailed(fact.code)), updated := now)];
      db.ReportRun(fact.run, fact.owner, Failed,
                   ErrorReport(fact.owner, "recap", RecapFailed(fact.code), C.Retryable(fact.code)));
      db.CompleteDecision(decision);
      assert db.inbox == saved.inbox[decision := InboxRow(fact.message, Handled, None)];
      reply := C.Applied;
    }

    method SettleFailure(fact: C.RecapFailureFact, newId: Uuid, now: Instant) returns (reply: C.Reply)
      modifies db
      ensures var t := old(db.Snapshot());
        (db.Snapshot(), reply) ==
          if C.CheckFailure(t, fact).Some? then (t, C.CheckFailure(t, fact).value)
          else C.SettleFailure(t, fact, newId, now)
    {
      var answer := C.CheckFailure(db.Snapshot(), fact);
      if answer.Some? {
        return answer.value;
      }
      reply := CommitFailure(fact, newId, now);
    }

    // -------------------------------------------------------------- schedule occurrences

    /** `insert into digest_runs ... 'scheduled' ... on conflict do nothing`. */
    method InsertScheduled(o: S.Occurrence, owner: Uuid, start: Instant, newId: Option<Uuid>,
        now: Instant) returns (ok: bool)
      modifies db`runs
      ensures S.FanOutOne(old(db.runs), o, owner, start, newId, now) == if ok then Some(db.runs) else None
    {
      if start >= o.due {
        return false;
      }
      if S.ScheduledRunExists(db.runs, owner, o.key, start, o.due) {
        return true;
      }
      if newId.None? || newId.value in db.runs {
        return false;
      }
      var run := Run(owner, o.operation, Scheduled, o.key, start, o.due, Accepted, None, false, now, now);
      db.runs := db.runs[newId.value := run];
      ok := true;
    }

    /** `fan_out`: one scheduled run an owner; `false` when a statement violates a constraint. */
    method FanOut(o: S.Occurrence, newIds: seq<Uuid>, now: Instant) returns (ok: bool)
      modifies db`runs
      ensures S.FanOutAll(db.subscriptions, old(db.runs), o, newIds, now) == if ok then Some(db.runs) else None
    {
      var owners := S.OwnerOrder(db.subscriptions, o.due);
      ghost var runs := db.runs;
      for i := 0 to |owners|
        invariant S.FanOut(db.subscriptions, runs, o, owners, i, newIds, now) == Some(db.runs)
      {
        var start := S.FannedWindowStart(db.subscriptions, owners[i], o);
        FanOutNext(db.subscriptions, runs, o, owners, i, newIds, now, db.runs);
        ok := InsertScheduled(o, owners[i], start, if i < |newIds| then Some(newIds[i]) else None, now);
        if !ok {
          FanOutStops(db.subscriptions, runs, o, owners, i + 1, newIds, now);
          return;
        }
      }
      ok := true;
    }

    /** The fan-out, the report of the occurrence's own operation, and the mark on its decision. */
    method FanOutAndRecord(o: S.Occurrence, newIds: seq<Uuid>, now: Instant, decision: Decision) returns (ok: bool)
      requires decision in db.inbox
      modifies db`runs, db`outbox, db`inbox
      ensures ok <==> S.FanOutAll(db.subscriptions, old(db.runs), o, newIds, now).Some?
      ensures ok ==> db.runs == S.FanOutAll(db.subscriptions, old(db.runs), o, newIds, now).value
      ensures ok ==>
        db.outbox == Enqueue(old(db.outbox), ReportOf(o.operation, Succeeded), PlainReport(o.owner, "fanned_out"))
      ensures ok ==>
        db.inbox == old(db.inbox)[decision := InboxRow(old(db.inbox)[decision].message, Handled, None)]
    {
      ok := FanOut(o, newIds, now);
      if ok {
        db.Enqueue(ReportOf(o.operation, Succeeded), PlainReport(o.owner, "fanned_out"));
        db.CompleteDecision(decision);
      }
    }

    method AcceptOccurrence(o: S.Occurrence, newIds: seq<Uuid>, now: Instant) returns (reply: C.Reply)
      modifies db
      ensures db.Snapshot() == S.AcceptOccurrence(old(db.Snapshot()), o, newIds, now).0
      ensures reply == S.AcceptOccurrence(old(db.Snapshot()), o, newIds, now).1
    {
      if !(S.OCCURRENCE_PREFIX <= o.key) {
        return C.InvalidReply;
      }
      var saved := db.Snapshot();
      var decision := S.OccurrenceDecision(o);
      var inserted := db.InsertDecision(o.message, decision);
      if !inserted {
        return C.Replayed;
      }
      var ok := FanOutAndRecord(o, newIds, now, decision);
      if !ok {
        db.Rollback(saved);
        return C.StorageReply;
      }
      assert db.inbox == saved.inbox[decision := InboxRow(o.message, Handled, None)];
      reply := C.Applied;
    }
  }

  /** One owner more is one insertion more. */
  lemma {:induction false} FanOutNext(subscriptions: map<SubscriptionKey, Subscription>, runs: map<Uuid, Run>,
      o: S.Occurrence, owners: seq<Uuid>, i: nat, newIds: seq<Uuid>, now: Instant, before: map<Uuid, Run>)
    requires i < |owners| && forall x :: x in owners ==> x in S.OwnersBefore(subscriptions, o.due)
    requires S.FanOut(subscriptions, runs, o, owners, i, newIds, now) == Some(before)
    ensures S.FanOut(subscriptions, runs, o, owners, i + 1, newIds, now) ==
      S.FanOutOne(before, o, owners[i], S.FannedWindowStart(subscriptions, owners[i], o),
                  if i < |newIds| then Some(newIds[i]) else None, now)
  {
  }

  /** A fan-out that stopped at an owner stays stopped. */
  lemma {:induction false} FanOutStopsAt(subscriptions: map<SubscriptionKey, Subscription>, runs: map<Uuid, Run>,
      o: S.Occurrence, owners: seq<Uuid>, n: nat, m: nat, newIds: seq<Uuid>, now: Instant)
    requires n <= m <= |owners| && forall x :: x in owners ==> x in S.OwnersBefore(subscriptions, o.due)
    requires S.FanOut(subscriptions, runs, o, owners, n, newIds, now).None?
    ensures S.FanOut(subscriptions, runs, o, owners, m, newIds, now).None?
    decreases m - n
  {
    if n < m {
      FanOutStopsAt(subscriptions, runs, o, owners, n, m - 1, newIds, now);
    }
  }

  lemma {:induction false} FanOutStops(subscriptions: map<SubscriptionKey, Subscription>, runs: map<Uuid, Run>,
      o: S.Occurrence, owners: seq<Uuid>, n: nat, newIds: seq<Uuid>, now: Instant)
    requires n <= |owners| && forall x :: x in owners ==> x in S.OwnersBefore(subscriptions, o.due)
    requires S.FanOut(subscriptions, runs, o, owners, n, newIds, now).None?
    ensures S.FanOut(subscriptions, runs, o, owners, |owners|, newIds, now).None?
  {
    FanOutStopsAt(subscriptions, runs, o, owners, n, |owners|, newIds, now);
  }
}

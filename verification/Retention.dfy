/** Batched minimization of bodies and manifest texts. */
module Retention {
  import opened Schema
  import opened Order
  import opened Revisions

  predicate ExpiredBody(row: Revision, before: Instant) {
    row.published < before && row.body.Some?
  }

  function BodyRank(row: Revision): Rank { Rank(row.published, row.id, 0, 0) }

  function ExpiredBodies(rows: Rows, before: Instant): set<Rank> {
    set k | k in rows && ExpiredBody(rows[k], before) :: BodyRank(rows[k])
  }

  /** `minimize_before`: the oldest `limit` expired bodies lose their text. */
  function MinimizeBodies(rows: Rows, before: Instant, limit: nat, now: Instant): (r: Rows)
    ensures r.Keys == rows.Keys
  {
    var batch := First(ExpiredBodies(rows, before), limit);
    map k | k in rows ::
      if ExpiredBody(rows[k], before) && BodyRank(rows[k]) in batch
      then rows[k].(body := None, minimized := Some(now)) else rows[k]
  }

  /** A manifest that still has its text, of a settled run whose window began before the cutoff. */
  predicate ExpiredText(runs: map<Uuid, Run>, manifests: Manifests, r: Uuid, before: Instant)
    requires r in manifests
  {
    manifests[r].text.Some? && r in runs && runs[r].state.Settled() && runs[r].start < before
  }

  function TextRank(runs: map<Uuid, Run>, manifests: Manifests, r: Uuid): Rank
    requires r in manifests && r in runs
  {
    Rank(runs[r].start, manifests[r].id, 0, 0)
  }

  function ExpiredTexts(runs: map<Uuid, Run>, manifests: Manifests, before: Instant): set<Rank> {
    set r | r in manifests && ExpiredText(runs, manifests, r, before) :: TextRank(runs, manifests, r)
  }

  /** `minimize_manifests_before`. */
  function MinimizeTexts(runs: map<Uuid, Run>, manifests: Manifests, before: Instant, limit: nat,
      now: Instant): (m: Manifests)
    ensures m.Keys == manifests.Keys
  {
    var batch := First(ExpiredTexts(runs, manifests, before), limit);
    map r | r in manifests ::
      if ExpiredText(runs, manifests, r, before) && TextRank(runs, manifests, r) in batch
      then WithoutText(manifests[r], now) else manifests[r]
  }
}

/** The run deadline reaper. */
module Reaper {
  import opened Schema
  import opened Order
  import opened Reports

  const BATCH: nat := 100

  predicate IsOverdue(run: Run, now: Instant, deadline: nat) {
    run.state.Open() && run.updated < now - deadline
  }

  function Overdue(runs: map<Uuid, Run>, now: Instant, deadline: nat): set<Rank> {
    set r | r in runs && IsOverdue(runs[r], now, deadline) :: Rank(runs[r].updated, r, 0, 0)
  }

  predicate Reaped(runs: map<Uuid, Run>, r: Uuid, now: Instant, deadline: nat)
    requires r in runs
  {
    IsOverdue(runs[r], now, deadline) && Rank(runs[r].updated, r, 0, 0) in First(Overdue(runs, now, deadline), BATCH)
  }

  function ReapRuns(runs: map<Uuid, Run>, now: Instant, deadline: nat): (m: map<Uuid, Run>)
    ensures m.Keys == runs.Keys
  {
    map r | r in runs ::
      if Reaped(runs, r, now, deadline)
      then runs[r].(state := RunFailed, failure := Some(DeadlineExceeded), updated := now) else runs[r]
  }

  /** The reports of the reaped runs, in the order of the batch. */
  function ReapReports(outbox: Outbox, runs: map<Uuid, Run>, batch: seq<Rank>): (o: Outbox)
    ensures outbox.Keys <= o.Keys
    ensures forall k :: k in outbox ==> o[k] == outbox[k]
  {
    if batch == [] then outbox else
      var n := |batch| - 1;
      var before := ReapReports(outbox, runs, batch[..n]);
      var r := batch[n].b;
      if r in runs && runs[r].trigger.OnDemand?
      then Enqueue(before, ReportOf(runs[r].operation, Failed),
                   ErrorReport(runs[r].owner, "deadline", DeadlineExceeded, true))
      else before
  }

  function BatchOf(runs: map<Uuid, Run>, now: Instant, deadline: nat): seq<Rank> {
    Ascending(First(Overdue(runs, now, deadline), BATCH))
  }

  /** `reap_once`. */
  function ReapOnce(t: Tables, now: Instant, deadline: nat): Tables {
    t.(runs := ReapRuns(t.runs, now, deadline),
       outbox := ReapReports(t.outbox, t.runs, BatchOf(t.runs, now, deadline)))
  }
}

/** How far a loop over rows has come. */
module UpkeepSpec {
  import opened Schema
  import opened Order
  import opened Revisions

  /** The runs after the first `i` of the batch failed. */
  predicate FailedSoFar(runs: map<Uuid, Run>, runs': map<Uuid, Run>, batch: seq<Rank>, i: nat, now: Instant)
    requires i <= |batch|
  {
    && runs'.Keys == runs.Keys
    && forall r :: r in runs ==>
         runs'[r] == if exists j :: 0 <= j < i && batch[j].b == r
                     then runs[r].(state := RunFailed, failure := Some(DeadlineExceeded), updated := now) else runs[r]
  }

  /** Exactly these rows lost their bodies. */
  predicate NulledBodies(rows: Rows, rows': Rows, keys: set<RevisionKey>, now: Instant) {
    && rows'.Keys == rows.Keys
    && forall k :: k in rows ==>
      rows'[k] == if k in keys then rows[k].(body := None, minimized := Some(now)) else rows[k]
  }

  predicate NulledTexts(manifests: Manifests, manifests': Manifests, order: seq<Uuid>, now: Instant) {
    && manifests'.Keys == manifests.Keys
    && forall r :: r in manifests ==>
      manifests'[r] == if r in order then WithoutText(manifests[r], now) else manifests[r]
  }

  /** The rows published before the cutoff that still have their body. */
  function OldBodies(rows: Rows, before: Instant): set<RevisionKey> {
    set k | k in rows && rows[k].published < before && rows[k].body.Some?
  }

  /** The manifests of settled runs with a window begun before the cutoff that still have their text. */
  function OldTexts(runs: map<Uuid, Run>, manifests: Manifests, before: Instant): set<Uuid> {
    set r | r in manifests && r in runs && manifests[r].text.Some? && runs[r].state.Settled() && runs[r].start < before
  }
}

/** The reaper, the two minimizing updates and the sweep, row by row. */
module Upkeep {
  import opened Schema
  import opened Order
  import opened Reports
  import opened Revisions
  import opened Selection
  import opened SelectionProofs
  import opened Databases
  import opened UpkeepSpec
  import opened StoredSpec
  import M = Retention
  import P = Reaper
  import D = Drain
  import opened EvidenceBatches

  class Reaper {
    const db: Database
    const deadline: nat

    constructor (db: Database, deadline: nat)
      ensures this.db == db && this.deadline == deadline
    {
      this.db := db;
      this.deadline := deadline;
    }

    /** The update of one batch of overdue runs. */
    method FailBatch(batch: seq<Rank>, now: Instant)
      requires forall i :: 0 <= i < |batch| ==> batch[i].b in db.runs
      modifies db`runs
      ensures FailedSoFar(old(db.runs), db.runs, batch, |batch|, now)
    {
      ghost var runs := db.runs;
      for i := 0 to |batch|
        invariant FailedSoFar(runs, db.runs, batch, i, now)
      {
        var r := batch[i].b;
        db.runs := db.runs[r := db.runs[r].(state := RunFailed, failure := Some(DeadlineExceeded), updated := now)];
      }
    }

    /** One report for every on-demand run of the batch. */
    method ReportBatch(runs: map<Uuid, Run>, batch: seq<Rank>)
      modifies db`outbox
      ensures db.outbox == P.ReapReports(old(db.outbox), runs, batch)
    {
      ghost var outbox := db.outbox;
      for i := 0 to |batch|
        invariant db.outbox == P.ReapReports(outbox, runs, batch[..i])
      {
        var r := batch[i].b;
        assert batch[..i + 1][..i] == batch[..i];
        if r in runs && runs[r].trigger.OnDemand? {
          db.Enqueue(ReportOf(runs[r].operation, Failed),
                     ErrorReport(runs[r].owner, "deadline", DeadlineExceeded, true));
        }
      }
      assert batch[..|batch|] == batch;
    }

    /** `reap_once`: fails one batch of overdue runs and reports the ones on demand, in one transaction. */
    method ReapOnce(now: Instant) returns (reaped: nat)
      modifies db
      ensures db.Snapshot() == P.ReapOnce(old(db.Snapshot()), now, deadline)
      ensures reaped == |set r | r in old(db.runs) && P.Reaped(old(db.runs), r, now, deadline)|
    {
      var runs := db.runs;
      var batch := P.BatchOf(runs, now, deadline);
      BatchMembers(runs, now, deadline);
      FailBatch(batch, now);
      FailedIsReaped(runs, db.runs, now, deadline);
      ReportBatch(runs, batch);
      reaped := |batch|;
    }

    lemma {:induction false} BatchMembers(runs: map<Uuid, Run>, now: Instant, deadline: nat)
      ensures var batch := P.BatchOf(runs, now, deadline);
        && (forall i :: 0 <= i < |batch| ==> batch[i].b in runs)
        && |batch| == |set r | r in runs && P.Reaped(runs, r, now, deadline)|
    {
      var first := First(P.Overdue(runs, now, deadline), P.BATCH);
      var batch := P.BatchOf(runs, now, deadline);
      AscendingSorts(first);
      forall i | 0 <= i < |batch|
        ensures batch[i].b in runs
      {
        assert batch[i] in first;
      }
      var reaped := set r | r in runs && P.Reaped(runs, r, now, deadline);
      var pairs := map r | r in reaped :: Rank(runs[r].updated, r, 0, 0);
      forall x | x in first
        ensures exists r :: r in pairs && pairs[r] == x
      {
        var r :| r in runs && P.IsOverdue(runs[r], now, deadline) && Rank(runs[r].updated, r, 0, 0) == x;
        assert r in pairs;
      }
      SameSize(pairs, first);
      assert pairs.Keys == reaped;
    }

    lemma {:induction false} FailedIsReaped(runs: map<Uuid, Run>, runs': map<Uuid, Run>, now: Instant, deadline: nat)
      requires FailedSoFar(runs, runs', P.BatchOf(runs, now, deadline), |P.BatchOf(runs, now, deadline)|, now)
      ensures runs' == P.ReapRuns(runs, now, deadline)
    {
      forall r | r in runs
        ensures runs'[r] == P.ReapRuns(runs, now, deadline)[r]
      {
        BatchIsReaped(runs, now, deadline, r);
      }
    }
  }

  class Maintenance {
    const db: Database

    constructor (db: Database)
      ensures this.db == db
    {
      this.db := db;
    }

    /** Takes the bodies of the rows, one after the other. */
    method NullBodies(keys: set<RevisionKey>, now: Instant)
      requires keys <= db.revisions.Keys
      modifies db`revisions
      ensures NulledBodies(old(db.revisions), db.revisions, keys, now)
    {
      ghost var rows := db.revisions;
      var todo := keys;
      while todo != {}
        invariant todo <= keys && NulledBodies(rows, db.revisions, keys - todo, now)
        decreases |todo|
      {
        var k :| k in todo;
        db.revisions := db.revisions[k := db.revisions[k].(body := None, minimized := Some(now))];
        todo := todo - {k};
      }
    }

    /** `minimize_before`: one batch of expired rows loses its bodies. */
    method MinimizeBefore(before: Instant, limit: nat, now: Instant) returns (affected: nat)
      requires UniqueIds(db.revisions)
      modifies db`revisions
      ensures db.revisions == M.MinimizeBodies(old(db.revisions), before, limit, now)
      ensures affected == |First(M.ExpiredBodies(old(db.revisions), before), limit)|
    {
      var rows := db.revisions;
      var batch := First(M.ExpiredBodies(rows, before), limit);
      var keys := set k | k in rows && M.ExpiredBody(rows[k], before) && M.BodyRank(rows[k]) in batch;
      BatchRows(rows, before, limit);
      NullBodies(keys, now);
      affected := |keys|;
    }

    lemma {:induction false} BatchRows(rows: Rows, before: Instant, limit: nat)
      requires UniqueIds(rows)
      ensures var batch := First(M.ExpiredBodies(rows, before), limit);
        |set k | k in rows && M.ExpiredBody(rows[k], before) && M.BodyRank(rows[k]) in batch| == |batch|
    {
      var batch := First(M.ExpiredBodies(rows, before), limit);
      var keys := set k | k in rows && M.ExpiredBody(rows[k], before) && M.BodyRank(rows[k]) in batch;
      var pairs := map k | k in keys :: M.BodyRank(rows[k]);
      forall x | x in batch
        ensures exists k :: k in pairs && pairs[k] == x
      {
        var k :| k in rows && M.ExpiredBody(rows[k], before) && M.BodyRank(rows[k]) == x;
        assert k in pairs;
      }
      SameSize(pairs, batch);
      assert pairs.Keys == keys;
    }

    /** Takes the texts of the manifests, one after the other. */
    method NullTexts(order: seq<Uuid>, now: Instant)
      requires forall i :: 0 <= i < |order| ==> order[i] in db.manifests
      modifies db`manifests
      ensures NulledTexts(old(db.manifests), db.manifests, order, now)
    {
      var manifests := db.manifests;
      for i := 0 to |order|
        invariant NulledTexts(manifests, db.manifests, order[..i], now)
      {
        db.manifests := db.manifests[order[i] := WithoutText(manifests[order[i]], now)];
      }
      assert order[..|order|] == order;
    }

    /** `minimize_manifests_before`: one batch of expired manifests loses its texts. */
    method MinimizeManifestsBefore(before: Instant, limit: nat, now: Instant) returns (affected: nat)
      requires UniqueManifests(db.manifests)
      modifies db`manifests
      ensures db.manifests == M.MinimizeTexts(db.runs, old(db.manifests), before, limit, now)
      ensures affected == |First(M.ExpiredTexts(db.runs, old(db.manifests), before), limit)|
    {
      var manifests := db.manifests;
      var batch := First(M.ExpiredTexts(db.runs, manifests, before), limit);
      var keys := set r | r in manifests
        && M.ExpiredText(db.runs, manifests, r, before) && M.TextRank(db.runs, manifests, r) in batch;
      var order := Listing(keys);
      forall i | 0 <= i < |order|
        ensures order[i] in manifests
      {
        assert order[i] in order;
      }
      BatchTexts(db.runs, manifests, before, limit);
      NullTexts(order, now);
      NulledIsMinimized(db.runs, manifests, db.manifests, order, before, limit, now);
      affected := |keys|;
    }

    lemma {:induction false} NulledIsMinimized(runs: map<Uuid, Run>, manifests: Manifests, manifests': Manifests,
        order: seq<Uuid>, before: Instant, limit: nat, now: Instant)
      requires NulledTexts(manifests, manifests', order, now)
      requires var batch := First(M.ExpiredTexts(runs, manifests, before), limit);
        forall r :: r in order <==>
          r in manifests && M.ExpiredText(runs, manifests, r, before) && M.TextRank(runs, manifests, r) in batch
      ensures manifests' == M.MinimizeTexts(runs, manifests, before, limit, now)
    {
      forall r | r in manifests
        ensures manifests'[r] == M.MinimizeTexts(runs, manifests, before, limit, now)[r]
      {
      }
    }

    lemma {:induction false} BatchTexts(runs: map<Uuid, Run>, manifests: Manifests, before: Instant, limit: nat)
      requires UniqueManifests(manifests)
      ensures var batch := First(M.ExpiredTexts(runs, manifests, before), limit);
        |set r | r in manifests
          && M.ExpiredText(runs, manifests, r, before) && M.TextRank(runs, manifests, r) in batch| == |batch|
    {
      var batch := First(M.ExpiredTexts(runs, manifests, before), limit);
      var keys := set r | r in manifests
        && M.ExpiredText(runs, manifests, r, before) && M.TextRank(runs, manifests, r) in batch;
      var pairs := map r | r in keys :: M.TextRank(runs, manifests, r);
      forall x | x in batch
        ensures exists r :: r in pairs && pairs[r] == x
      {
        var r :| r in manifests && M.ExpiredText(runs, manifests, r, before) && M.TextRank(runs, manifests, r) == x;
        assert r in pairs;
      }
      SameSize(pairs, batch);
      assert pairs.Keys == keys;
    }
  }

  const SWEEP_BATCH: nat := 5_000

  /** A batch is as large as the limit, or as what is expired. */
  lemma {:induction false} BodySweepSize(rows: Rows, before: Instant)
    requires UniqueIds(rows)
    ensures |First(M.ExpiredBodies(rows, before), SWEEP_BATCH)| ==
      Min(5_000, |OldBodies(rows, before)|)
  {
    FirstSize(M.ExpiredBodies(rows, before), SWEEP_BATCH);
    D.ExpiredBodiesCount(rows, before);
    assert (set k | k in rows && M.ExpiredBody(rows[k], before)) == OldBodies(rows, before);
  }

  lemma {:induction false} TextSweepSize(runs: map<Uuid, Run>, manifests: Manifests, before: Instant)
    requires UniqueManifests(manifests)
    ensures |First(M.ExpiredTexts(runs, manifests, before), SWEEP_BATCH)| ==
      Min(5_000, |OldTexts(runs, manifests, before)|)
  {
    FirstSize(M.ExpiredTexts(runs, manifests, before), SWEEP_BATCH);
    D.ExpiredTextsCount(runs, manifests, before);
    assert (set r | r in manifests && M.ExpiredText(runs, manifests, r, before)) == OldTexts(runs, manifests, before);
  }

  class RetentionSweeper {
    const maintenance: Maintenance
    const bodyDays: nat
    var bodies: nat
    var manifests: nat

    constructor (maintenance: Maintenance, bodyDays: nat)
      ensures this.maintenance == maintenance && this.bodyDays == bodyDays && bodies == 0 && manifests == 0
    {
      this.maintenance := maintenance;
      this.bodyDays := bodyDays;
      bodies, manifests := 0, 0;
    }

    /** The retention, in days, before `now`. */
    function Cutoff(now: Instant): (before: Instant)
      ensures before + bodyDays * 24 * 3_600 == now
    {
      now - 86_400 * bodyDays
    }

    /** `sweep_once`: one batch of bodies, then one of manifest texts, both before the same cutoff; the
        counters grow by what each took, and short counts say that nothing expired is left. */
    method SweepOnce(now: Instant) returns (minimizedBodies: nat, minimizedManifests: nat)
      requires UniqueIds(maintenance.db.revisions) && UniqueManifests(maintenance.db.manifests)
      modifies this`bodies, this`manifests, maintenance.db`revisions, maintenance.db`manifests
      ensures maintenance.db.revisions ==
        M.MinimizeBodies(old(maintenance.db.revisions), Cutoff(now), 5_000, now)
      ensures maintenance.db.manifests ==
        M.MinimizeTexts(maintenance.db.runs, old(maintenance.db.manifests), Cutoff(now), 5_000, now)
      ensures minimizedBodies == Min(5_000, |OldBodies(old(maintenance.db.revisions), Cutoff(now))|)
      ensures minimizedManifests ==
        Min(5_000, |OldTexts(maintenance.db.runs, old(maintenance.db.manifests), Cutoff(now))|)
      ensures bodies == old(bodies) + minimizedBodies && manifests == old(manifests) + minimizedManifests
    {
      var cutoff := Cutoff(now);
      BodySweepSize(maintenance.db.revisions, cutoff);
      TextSweepSize(maintenance.db.runs, maintenance.db.manifests, cutoff);
      minimizedBodies := maintenance.MinimizeBefore(cutoff, SWEEP_BATCH, now);
      bodies := bodies + minimizedBodies;
      minimizedManifests := maintenance.MinimizeManifestsBefore(cutoff, SWEEP_BATCH, now);
      manifests := manifests + minimizedManifests;
    }
  }
}

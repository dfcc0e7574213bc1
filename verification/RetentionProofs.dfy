/** Repeated sweeps, and what they may take. */
module DrainSpec {
  import opened Schema
  import opened Order
  import opened Revisions
  import opened Retention

  /** One sweep after the other, each at an instant of its own. */
  function SweepBodies(rows: Rows, before: Instant, limit: nat, nows: seq<Instant>): (r: Rows)
    ensures r.Keys == rows.Keys
    decreases |nows|
  {
    if nows == [] then rows
    else SweepBodies(MinimizeBodies(rows, before, limit, nows[0]), before, limit, nows[1..])
  }

  /** The row lost its body to one of the first `n` expired rows. */
  predicate DrainedBody(rows: Rows, before: Instant, n: nat, k: RevisionKey)
    requires k in rows
  {
    ExpiredBody(rows[k], before) && BodyRank(rows[k]) in First(ExpiredBodies(rows, before), n)
  }

  function SweepTexts(runs: map<Uuid, Run>, manifests: Manifests, before: Instant, limit: nat,
      nows: seq<Instant>): (m: Manifests)
    ensures m.Keys == manifests.Keys
    decreases |nows|
  {
    if nows == [] then manifests
    else SweepTexts(runs, MinimizeTexts(runs, manifests, before, limit, nows[0]), before, limit, nows[1..])
  }

  predicate DrainedText(runs: map<Uuid, Run>, manifests: Manifests, before: Instant, n: nat, r: Uuid)
    requires r in manifests
  {
    && ExpiredText(runs, manifests, r, before)
    && TextRank(runs, manifests, r) in First(ExpiredTexts(runs, manifests, before), n)
  }
}

/** Repeated sweeps drain what is expired, oldest first. */
module Drain {
  import opened Schema
  import opened Order
  import opened Revisions
  import opened Selection
  import opened SelectionProofs
  import opened Retention
  import opened StoredSpec
  import opened DrainSpec

  // ---------------------------------------------------------------- bodies

  lemma {:induction false} BodiesLeft(rows: Rows, before: Instant, limit: nat, now: Instant)
    ensures var expired := ExpiredBodies(rows, before);
      ExpiredBodies(MinimizeBodies(rows, before, limit, now), before) == expired - First(expired, limit)
  {
    var expired := ExpiredBodies(rows, before);
    var rows' := MinimizeBodies(rows, before, limit, now);
    forall x | x in expired - First(expired, limit)
      ensures x in ExpiredBodies(rows', before)
    {
      var k :| k in rows && ExpiredBody(rows[k], before) && BodyRank(rows[k]) == x;
      assert rows'[k] == rows[k];
    }
    forall x | x in ExpiredBodies(rows', before)
      ensures x in expired - First(expired, limit)
    {
      var k :| k in rows' && ExpiredBody(rows'[k], before) && BodyRank(rows'[k]) == x;
      assert rows'[k] == rows[k];
    }
  }

  /** One sweep and `n` rows more take the first `limit + n`. */
  lemma {:induction false} BodiesStep(rows: Rows, before: Instant, limit: nat, now: Instant, n: nat, k: RevisionKey)
    requires k in rows
    ensures var rows1 := MinimizeBodies(rows, before, limit, now);
      && (DrainedBody(rows, before, limit + n, k) <==>
           DrainedBody(rows, before, limit, k) || DrainedBody(rows1, before, n, k))
      && (if DrainedBody(rows, before, limit, k) then rows1[k].body.None? && rows1[k].minimized.Some?
          else rows1[k] == rows[k])
  {
    BodiesLeft(rows, before, limit, now);
    FirstDrains(ExpiredBodies(rows, before), limit, n);
  }

  /** A body that one sweep took is not left for the next. */
  lemma {:induction false} BodyTakenOnce(rows: Rows, before: Instant, limit: nat, now: Instant, n: nat, k: RevisionKey)
    requires k in rows
    ensures DrainedBody(rows, before, limit, k) ==> !DrainedBody(MinimizeBodies(rows, before, limit, now), before, n, k)
  {
  }

  /** Sweeps of limit L minimize exactly the oldest expired bodies, L a sweep, and touch no other row. */
  lemma {:induction false} SweepsDrainBodies(rows: Rows, before: Instant, limit: nat, nows: seq<Instant>,
      k: RevisionKey)
    requires k in rows
    ensures var rows' := SweepBodies(rows, before, limit, nows);
      && (DrainedBody(rows, before, limit * |nows|, k) ==> rows'[k].body.None? && rows'[k].minimized.Some?)
      && (!DrainedBody(rows, before, limit * |nows|, k) ==> rows'[k] == rows[k])
    decreases |nows|
  {
    if nows == [] {
      FirstZero(ExpiredBodies(rows, before));
    } else {
      var n := limit * |nows[1..]|;
      var rows1 := MinimizeBodies(rows, before, limit, nows[0]);
      assert limit * |nows| == limit + n;
      BodiesStep(rows, before, limit, nows[0], n, k);
      BodyTakenOnce(rows, before, limit, nows[0], n, k);
      SweepsDrainBodies(rows1, before, limit, nows[1..], k);
    }
  }

  /** Every expired row counts once. */
  lemma {:induction false} ExpiredBodiesCount(rows: Rows, before: Instant)
    requires UniqueIds(rows)
    ensures |ExpiredBodies(rows, before)| == |set k | k in rows && ExpiredBody(rows[k], before)|
  {
    var keys := set k | k in rows && ExpiredBody(rows[k], before);
    var pairs := map k | k in keys :: BodyRank(rows[k]);
    forall x | x in ExpiredBodies(rows, before)
      ensures exists k :: k in pairs && pairs[k] == x
    {
      var k :| k in rows && ExpiredBody(rows[k], before) && BodyRank(rows[k]) == x;
      assert k in pairs;
    }
    SameSize(pairs, ExpiredBodies(rows, before));
    assert pairs.Keys == keys;
  }

  /** As many rows as the sweeps may take, or all that are expired. */
  lemma {:induction false} DrainedSize(s: set<Rank>, limit: nat, sweeps: nat)
    ensures |First(s, limit * sweeps)| == Min(|s|, limit * sweeps)
  {
    FirstSize(s, limit * sweeps);
  }

  lemma {:induction false} ChangedBody(rows: Rows, before: Instant, limit: nat, nows: seq<Instant>, k: RevisionKey)
    requires k in rows
    ensures SweepBodies(rows, before, limit, nows)[k] != rows[k] <==> DrainedBody(rows, before, limit * |nows|, k)
  {
    SweepsDrainBodies(rows, before, limit, nows, k);
  }

  /** The rows the sweeps take. */
  lemma {:induction false} ChangedBodies(rows: Rows, before: Instant, n: nat, rows': Rows)
    requires rows'.Keys == rows.Keys
    requires forall k :: k in rows ==> (rows'[k] != rows[k] <==> DrainedBody(rows, before, n, k))
    ensures (set k | k in rows && rows'[k] != rows[k]) == (set k | k in rows && DrainedBody(rows, before, n, k))
  {
  }

  lemma {:induction false} DrainedBodies(rows: Rows, before: Instant, n: nat)
    requires UniqueIds(rows)
    ensures |set k | k in rows && DrainedBody(rows, before, n, k)| == |First(ExpiredBodies(rows, before), n)|
  {
    var keys := set k | k in rows && DrainedBody(rows, before, n, k);
    var pairs := map k | k in keys :: BodyRank(rows[k]);
    forall x | x in First(ExpiredBodies(rows, before), n)
      ensures exists k :: k in pairs && pairs[k] == x
    {
      var k :| k in rows && ExpiredBody(rows[k], before) && BodyRank(rows[k]) == x;
      assert k in pairs;
    }
    SameSize(pairs, First(ExpiredBodies(rows, before), n));
    assert pairs.Keys == keys;
  }

  /** Conservation: the sweeps change as many rows as they may take, or all that are expired. */
  lemma {:induction false} BodiesDrained(rows: Rows, before: Instant, limit: nat, nows: seq<Instant>)
    requires UniqueIds(rows)
    ensures |set k | k in rows && SweepBodies(rows, before, limit, nows)[k] != rows[k]| ==
      Min(|set k | k in rows && ExpiredBody(rows[k], before)|, limit * |nows|)
  {
    var rows' := SweepBodies(rows, before, limit, nows);
    forall k | k in rows
      ensures rows'[k] != rows[k] <==> DrainedBody(rows, before, limit * |nows|, k)
    {
      ChangedBody(rows, before, limit, nows, k);
    }
    ChangedBodies(rows, before, limit * |nows|, rows');
    DrainedBodies(rows, before, limit * |nows|);
    ExpiredBodiesCount(rows, before);
    DrainedSize(ExpiredBodies(rows, before), limit, |nows|);
  }

  /** What the sweeps do to a row: nothing, or they take the body it had. */
  predicate BodyTaken(row: Revision, row': Revision, before: Instant, nows: seq<Instant>) {
    && row.published < before && row.body.Some? && row'.minimized.Some? && row'.minimized.value in nows
    && row' == row.(body := None, minimized := row'.minimized)
  }

  lemma {:induction false} SweptRow(rows: Rows, before: Instant, limit: nat, nows: seq<Instant>, k: RevisionKey)
    requires k in rows
    ensures var row' := SweepBodies(rows, before, limit, nows)[k];
      row' == rows[k] || BodyTaken(rows[k], row', before, nows)
    decreases |nows|
  {
    if nows != [] {
      SweptRow(MinimizeBodies(rows, before, limit, nows[0]), before, limit, nows[1..], k);
    }
  }

  /** Sweeps take bodies of posts published before the cutoff, at the instant of one of them, the oldest first: one
      that is left was published no earlier than one that is taken, and has the higher identity at the same instant. */
  lemma {:induction false} OldestBodiesFirst(rows: Rows, before: Instant, limit: nat, nows: seq<Instant>,
      a: RevisionKey, b: RevisionKey)
    requires a in rows && b in rows
    ensures var rows' := SweepBodies(rows, before, limit, nows);
      rows'[a] != rows[a] ==>
        && BodyTaken(rows[a], rows'[a], before, nows)
        && (rows[b].published < before && rows'[b].body.Some? ==>
             || rows[a].published < rows[b].published
             || (rows[a].published == rows[b].published && rows[a].id < rows[b].id))
  {
    var n := limit * |nows|;
    var rows' := SweepBodies(rows, before, limit, nows);
    SweptRow(rows, before, limit, nows, a);
    SweepsDrainBodies(rows, before, limit, nows, a);
    SweepsDrainBodies(rows, before, limit, nows, b);
    if rows'[a] != rows[a] && rows[b].published < before && rows'[b].body.Some? {
      var expired := ExpiredBodies(rows, before);
      assert BodyRank(rows[b]) in expired;
      FirstIsDownwardClosed(expired, n, BodyRank(rows[a]), BodyRank(rows[b]));
    }
  }

  // ---------------------------------------------------------------- texts

  lemma {:induction false} TextsLeft(runs: map<Uuid, Run>, manifests: Manifests, before: Instant, limit: nat,
      now: Instant)
    ensures var expired := ExpiredTexts(runs, manifests, before);
      ExpiredTexts(runs, MinimizeTexts(runs, manifests, before, limit, now), before) == expired - First(expired, limit)
  {
    var expired := ExpiredTexts(runs, manifests, before);
    var manifests' := MinimizeTexts(runs, manifests, before, limit, now);
    forall x | x in expired - First(expired, limit)
      ensures x in ExpiredTexts(runs, manifests', before)
    {
      var r :| r in manifests && ExpiredText(runs, manifests, r, before) && TextRank(runs, manifests, r) == x;
      assert manifests'[r] == manifests[r];
    }
    forall x | x in ExpiredTexts(runs, manifests', before)
      ensures x in expired - First(expired, limit)
    {
      var r :| r in manifests' && ExpiredText(runs, manifests', r, before) && TextRank(runs, manifests', r) == x;
      assert manifests'[r] == manifests[r];
    }
  }

  lemma {:induction false} TextsStep(runs: map<Uuid, Run>, manifests: Manifests, before: Instant, limit: nat,
      now: Instant, n: nat, r: Uuid)
    requires r in manifests
    ensures var manifests1 := MinimizeTexts(runs, manifests, before, limit, now);
      && (DrainedText(runs, manifests, before, limit + n, r) <==>
            DrainedText(runs, manifests, before, limit, r) || DrainedText(runs, manifests1, before, n, r))
      && (if DrainedText(runs, manifests, before, limit, r)
          then manifests1[r].text.None? && manifests1[r].minimized.Some?
          else manifests1[r] == manifests[r])
  {
    TextsLeft(runs, manifests, before, limit, now);
    FirstDrains(ExpiredTexts(runs, manifests, before), limit, n);
  }

  lemma {:induction false} TextTakenOnce(runs: map<Uuid, Run>, manifests: Manifests, before: Instant, limit: nat,
      now: Instant, n: nat, r: Uuid)
    requires r in manifests
    ensures DrainedText(runs, manifests, before, limit, r) ==>
      !DrainedText(runs, MinimizeTexts(runs, manifests, before, limit, now), before, n, r)
  {
  }

  /** The same for manifest texts: exactly those of the settled runs whose windows began first. */
  lemma {:induction false} SweepsDrainTexts(runs: map<Uuid, Run>, manifests: Manifests, before: Instant, limit: nat,
      nows: seq<Instant>, r: Uuid)
    requires r in manifests
    ensures var manifests' := SweepTexts(runs, manifests, before, limit, nows);
      && (DrainedText(runs, manifests, before, limit * |nows|, r) ==>
           manifests'[r].text.None? && manifests'[r].minimized.Some?)
      && (!DrainedText(runs, manifests, before, limit * |nows|, r) ==> manifests'[r] == manifests[r])
    decreases |nows|
  {
    if nows == [] {
      FirstZero(ExpiredTexts(runs, manifests, before));
    } else {
      var n := limit * |nows[1..]|;
      var manifests1 := MinimizeTexts(runs, manifests, before, limit, nows[0]);
      assert limit * |nows| == limit + n;
      TextsStep(runs, manifests, before, limit, nows[0], n, r);
      TextTakenOnce(runs, manifests, before, limit, nows[0], n, r);
      SweepsDrainTexts(runs, manifests1, before, limit, nows[1..], r);
    }
  }

  lemma {:induction false} ExpiredTextsCount(runs: map<Uuid, Run>, manifests: Manifests, before: Instant)
    requires UniqueManifests(manifests)
    ensures |ExpiredTexts(runs, manifests, before)| ==
      |set r | r in manifests && ExpiredText(runs, manifests, r, before)|
  {
    var settled := set r | r in manifests && ExpiredText(runs, manifests, r, before);
    var pairs := map r | r in settled :: TextRank(runs, manifests, r);
    forall x | x in ExpiredTexts(runs, manifests, before)
      ensures exists r :: r in pairs && pairs[r] == x
    {
      var r :| r in manifests && ExpiredText(runs, manifests, r, before) && TextRank(runs, manifests, r) == x;
      assert r in pairs;
    }
    SameSize(pairs, ExpiredTexts(runs, manifests, before));
    assert pairs.Keys == settled;
  }

  lemma {:induction false} ChangedText(runs: map<Uuid, Run>, manifests: Manifests, before: Instant, limit: nat,
      nows: seq<Instant>, r: Uuid)
    requires r in manifests
    ensures SweepTexts(runs, manifests, before, limit, nows)[r] != manifests[r] <==>
      DrainedText(runs, manifests, before, limit * |nows|, r)
  {
    SweepsDrainTexts(runs, manifests, before, limit, nows, r);
  }

  lemma {:induction false} ChangedTexts(runs: map<Uuid, Run>, manifests: Manifests, before: Instant, n: nat,
      manifests': Manifests)
    requires manifests'.Keys == manifests.Keys
    requires forall r :: r in manifests ==>
      (manifests'[r] != manifests[r] <==> DrainedText(runs, manifests, before, n, r))
    ensures (set r | r in manifests && manifests'[r] != manifests[r]) ==
      (set r | r in manifests && DrainedText(runs, manifests, before, n, r))
  {
  }

  lemma {:induction false} DrainedTexts(runs: map<Uuid, Run>, manifests: Manifests, before: Instant, n: nat)
    requires UniqueManifests(manifests)
    ensures |set r | r in manifests && DrainedText(runs, manifests, before, n, r)| ==
      |First(ExpiredTexts(runs, manifests, before), n)|
  {
    var drained := set r | r in manifests && DrainedText(runs, manifests, before, n, r);
    var pairs := map r | r in drained :: TextRank(runs, manifests, r);
    forall x | x in First(ExpiredTexts(runs, manifests, before), n)
      ensures exists r :: r in pairs && pairs[r] == x
    {
      var r :| r in manifests && ExpiredText(runs, manifests, r, before) && TextRank(runs, manifests, r) == x;
      assert r in pairs;
    }
    SameSize(pairs, First(ExpiredTexts(runs, manifests, before), n));
    assert pairs.Keys == drained;
  }

  /** Conservation for texts. */
  lemma {:induction false} TextsDrained(runs: map<Uuid, Run>, manifests: Manifests, before: Instant, limit: nat,
      nows: seq<Instant>)
    requires UniqueManifests(manifests)
    ensures |set r | r in manifests && SweepTexts(runs, manifests, before, limit, nows)[r] != manifests[r]| ==
      Min(|set r | r in manifests && ExpiredText(runs, manifests, r, before)|, limit * |nows|)
  {
    var manifests' := SweepTexts(runs, manifests, before, limit, nows);
    forall r | r in manifests
      ensures manifests'[r] != manifests[r] <==> DrainedText(runs, manifests, before, limit * |nows|, r)
    {
      ChangedText(runs, manifests, before, limit, nows, r);
    }
    ChangedTexts(runs, manifests, before, limit * |nows|, manifests');
    DrainedTexts(runs, manifests, before, limit * |nows|);
    ExpiredTextsCount(runs, manifests, before);
    DrainedSize(ExpiredTexts(runs, manifests, before), limit, |nows|);
  }

  /** What the sweeps do to a manifest: nothing, or they take the text it had, of a settled run. */
  predicate TextTaken(run: Run, m: Manifest, m': Manifest, before: Instant, nows: seq<Instant>) {
    && run.state.Settled() && run.start < before && m.text.Some? && m'.minimized.Some? && m'.minimized.value in nows
    && m' == m.(text := None, minimized := m'.minimized)
  }

  lemma {:induction false} SweptManifest(runs: map<Uuid, Run>, manifests: Manifests, before: Instant, limit: nat,
      nows: seq<Instant>, r: Uuid)
    requires r in manifests
    ensures var m' := SweepTexts(runs, manifests, before, limit, nows)[r];
      m' == manifests[r] || (r in runs && TextTaken(runs[r], manifests[r], m', before, nows))
    decreases |nows|
  {
    if nows != [] {
      SweptManifest(runs, MinimizeTexts(runs, manifests, before, limit, nows[0]), before, limit, nows[1..], r);
    }
  }

  /** The same for texts, by the start of the run's window. */
  lemma {:induction false} OldestTextsFirst(runs: map<Uuid, Run>, manifests: Manifests, before: Instant, limit: nat,
      nows: seq<Instant>, a: Uuid, b: Uuid)
    requires a in manifests && b in manifests && a in runs && b in runs
    ensures var manifests' := SweepTexts(runs, manifests, before, limit, nows);
      manifests'[a] != manifests[a] ==>
        && TextTaken(runs[a], manifests[a], manifests'[a], before, nows)
        && (runs[b].state.Settled() && runs[b].start < before && manifests'[b].text.Some? ==>
             || runs[a].start < runs[b].start
             || (runs[a].start == runs[b].start && manifests[a].id < manifests[b].id))
  {
    var n := limit * |nows|;
    var manifests' := SweepTexts(runs, manifests, before, limit, nows);
    SweptManifest(runs, manifests, before, limit, nows, a);
    SweepsDrainTexts(runs, manifests, before, limit, nows, a);
    SweepsDrainTexts(runs, manifests, before, limit, nows, b);
    if manifests'[a] != manifests[a] && runs[b].state.Settled() && runs[b].start < before && manifests'[b].text.Some? {
      var expired := ExpiredTexts(runs, manifests, before);
      assert TextRank(runs, manifests, b) in expired;
      FirstIsDownwardClosed(expired, n, TextRank(runs, manifests, a), TextRank(runs, manifests, b));
    }
  }

  // ---------------------------------------------------------------- short batches

  /** A short batch took everything. */
  lemma {:induction false} ShortIsAll(s: set<Rank>, limit: nat)
    requires |First(s, limit)| < limit
    ensures First(s, limit) == s
  {
    FirstSize(s, limit);
  }

  lemma {:induction false} ShortBodies(rows: Rows, before: Instant, limit: nat, now: Instant, k: RevisionKey)
    requires |First(ExpiredBodies(rows, before), limit)| < limit
    requires k in rows && rows[k].published < before
    ensures MinimizeBodies(rows, before, limit, now)[k].body.None?
  {
    ShortIsAll(ExpiredBodies(rows, before), limit);
    assert ExpiredBody(rows[k], before) ==> BodyRank(rows[k]) in ExpiredBodies(rows, before);
  }

  lemma {:induction false} ShortTexts(runs: map<Uuid, Run>, manifests: Manifests, before: Instant, limit: nat,
      now: Instant, r: Uuid)
    requires |First(ExpiredTexts(runs, manifests, before), limit)| < limit
    requires r in manifests && r in runs && runs[r].state.Settled() && runs[r].start < before
    ensures MinimizeTexts(runs, manifests, before, limit, now)[r].text.None?
  {
    ShortIsAll(ExpiredTexts(runs, manifests, before), limit);
    assert ExpiredText(runs, manifests, r, before) ==>
      TextRank(runs, manifests, r) in ExpiredTexts(runs, manifests, before);
  }
}

/** The reaper takes the runs that have not moved for longest, and reports each. */
module ReaperProofs {
  import opened Schema
  import opened Order
  import opened Reports
  import opened Reaper
  import opened SelectionProofs
  import opened EvidenceBatches

  predicate IsLate(run: Run, now: Instant, deadline: nat) {
    run.state.Open() && run.updated + deadline < now
  }

  /** The deadline failed the run. */
  predicate FailedLate(run: Run, run': Run, now: Instant, deadline: nat) {
    && IsLate(run, now, deadline)
    && run' == run.(state := RunFailed, failure := Some(DeadlineExceeded), updated := now)
  }

  predicate StaysLate(run: Run, run': Run, now: Instant, deadline: nat) {
    IsLate(run, now, deadline) && run' == run
  }

  lemma {:induction false} ReapedRow(runs: map<Uuid, Run>, now: Instant, deadline: nat, r: Uuid)
    requires r in runs
    ensures var run' := ReapRuns(runs, now, deadline)[r];
      && (Reaped(runs, r, now, deadline) ==> run' != runs[r] && FailedLate(runs[r], run', now, deadline))
      && (!Reaped(runs, r, now, deadline) ==> run' == runs[r])
  {
  }

  /** A sweep fails late runs only, those that moved last the longest time ago first, and as many as one batch holds. */
  lemma {:induction false} LatestRunsReaped(runs: map<Uuid, Run>, now: Instant, deadline: nat)
    ensures var runs' := ReapRuns(runs, now, deadline);
      && (forall a :: a in runs && runs'[a] != runs[a] ==> FailedLate(runs[a], runs'[a], now, deadline))
      && (forall a, b | a in runs && b in runs && runs'[a] != runs[a] && StaysLate(runs[b], runs'[b], now, deadline) ::
           runs[a].updated < runs[b].updated || (runs[a].updated == runs[b].updated && a < b))
      && |set r | r in runs && runs'[r] != runs[r]| == Min(100, |set r | r in runs && IsLate(runs[r], now, deadline)|)
  {
    var overdue := Overdue(runs, now, deadline);
    var runs' := ReapRuns(runs, now, deadline);
    forall r | r in runs
      ensures runs'[r] != runs[r] <==> Reaped(runs, r, now, deadline)
      ensures runs'[r] != runs[r] ==> FailedLate(runs[r], runs'[r], now, deadline)
    {
      ReapedRow(runs, now, deadline, r);
    }
    forall a, b | a in runs && b in runs && runs'[a] != runs[a] && StaysLate(runs[b], runs'[b], now, deadline)
      ensures Less(Rank(runs[a].updated, a, 0, 0), Rank(runs[b].updated, b, 0, 0))
    {
      FirstIsDownwardClosed(overdue, BATCH, Rank(runs[a].updated, a, 0, 0), Rank(runs[b].updated, b, 0, 0));
    }
    FirstSize(overdue, BATCH);
    RanksOfRuns(runs, (set r | r in runs && runs'[r] != runs[r]), First(overdue, BATCH));
    RanksOfRuns(runs, (set r | r in runs && IsLate(runs[r], now, deadline)), overdue);
  }

  /** Runs and their ranks are as many. */
  lemma {:induction false} RanksOfRuns(runs: map<Uuid, Run>, ids: set<Uuid>, ranks: set<Rank>)
    requires forall r :: r in ids ==> r in runs && Rank(runs[r].updated, r, 0, 0) in ranks
    requires forall x :: x in ranks ==> x.b in ids && x == Rank(runs[x.b].updated, x.b, 0, 0)
    ensures |ids| == |ranks|
  {
    var pairs := map r | r in ids :: Rank(runs[r].updated, r, 0, 0);
    assert pairs.Keys == ids;
    SameSize(pairs, ranks);
  }

  /** The report of a run the deadline failed. */
  predicate TellsDeadline(runs: map<Uuid, Run>, r: Uuid, k: OutboxKey, row: OutboxRow) {
    && r in runs && runs[r].trigger.OnDemand? && k == ReportOf(runs[r].operation, Failed)
    && row == Report(runs[r].owner, "deadline", Some(DeadlineExceeded), true, {}, None)
  }

  lemma {:induction false} NewReports(outbox: Outbox, runs: map<Uuid, Run>, batch: seq<Rank>, k: OutboxKey)
    requires k in ReapReports(outbox, runs, batch) && k !in outbox
    ensures exists i :: 0 <= i < |batch| && TellsDeadline(runs, batch[i].b, k, ReapReports(outbox, runs, batch)[k])
    decreases |batch|
  {
    var n := |batch| - 1;
    var before := ReapReports(outbox, runs, batch[..n]);
    if k in before {
      NewReports(outbox, runs, batch[..n], k);
      var i :| 0 <= i < n && TellsDeadline(runs, batch[..n][i].b, k, before[k]);
      assert TellsDeadline(runs, batch[i].b, k, ReapReports(outbox, runs, batch)[k]);
    } else {
      assert TellsDeadline(runs, batch[n].b, k, ReapReports(outbox, runs, batch)[k]);
    }
  }

  /** Every on-demand run that the deadline failed is reported, nothing else is, and a retry may help. */
  lemma {:induction false} ReapedAreReported(t: Tables, now: Instant, deadline: nat)
    ensures var t' := ReapOnce(t, now, deadline);
      && (forall r :: r in t.runs && t'.runs[r] != t.runs[r] && t.runs[r].trigger.OnDemand? ==>
           ReportOf(t.runs[r].operation, Failed) in t'.outbox)
      && (forall k :: k in t.outbox ==> k in t'.outbox && t'.outbox[k] == t.outbox[k])
      && (forall k :: k in t'.outbox && k !in t.outbox ==>
           exists r :: r in t.runs && t'.runs[r] != t.runs[r] && TellsDeadline(t.runs, r, k, t'.outbox[k]))
      && t' == t.(runs := t'.runs, outbox := t'.outbox)
  {
    var t' := ReapOnce(t, now, deadline);
    var batch := BatchOf(t.runs, now, deadline);
    ReapReportsOf(t.outbox, t.runs, batch);
    forall r | r in t.runs
      ensures t'.runs[r] != t.runs[r] <==> exists i :: 0 <= i < |batch| && batch[i].b == r
    {
      ReapedRow(t.runs, now, deadline, r);
      BatchIsReaped(t.runs, now, deadline, r);
    }
    forall k | k in t'.outbox && k !in t.outbox
      ensures exists r :: r in t.runs && t'.runs[r] != t.runs[r] && TellsDeadline(t.runs, r, k, t'.outbox[k])
    {
      NewReports(t.outbox, t.runs, batch, k);
      var i :| 0 <= i < |batch| && TellsDeadline(t.runs, batch[i].b, k, t'.outbox[k]);
    }
  }
}

/** What a logged tick of the executor means. */
module TickSpec {
  import opened Schema
  import opened Order
  import opened Executor
  import opened TickOutcomeSpec
  import W = Walk

  /** An event with the instant it came at. */
  datatype TimedEvent = TimedEvent(at: Instant, event: Event)

  /** The tables and the executor after a sequence of events with nothing in between. */
  ghost function After(t: Tables, x: Exec, events: seq<TimedEvent>, sourceCount: nat): (Tables, Exec)
    decreases |events|
  {
    if events == [] then (t, x) else
      var n := |events| - 1;
      var (t', x') := After(t, x, events[..n], sourceCount);
      ExecStep(t', x', events[n].at, events[n].event, sourceCount)
  }

  /** Part of one tick: nothing died, and the executor was idle at most before the first event and after the
      last. */
  ghost predicate WithinOneTick(t0: Tables, events: seq<TimedEvent>, sourceCount: nat) {
    && (forall i :: 0 <= i < |events| ==> !events[i].event.Dies?)
    && (forall j :: 0 < j < |events| ==> !After(t0, Idle, events[..j], sourceCount).1.Idle?)
  }

  ghost predicate InTick(t0: Tables, events: seq<TimedEvent>, sourceCount: nat, t: Tables, x: Exec) {
    After(t0, Idle, events, sourceCount) == (t, x) && WithinOneTick(t0, events, sourceCount)
  }

  /** The walk the executor counts next, if it has one that ended. */
  predicate CountsNext(x: Exec) {
    x.Walking? && x.i < |x.queue| && x.walk.Done?
  }

  /** How the walks ended that were counted on the way, in their order. */
  ghost function Outcomes(t0: Tables, events: seq<TimedEvent>, sourceCount: nat): seq<W.Outcome>
    decreases |events|
  {
    if events == [] then [] else
      var n := |events| - 1;
      var x := After(t0, Idle, events[..n], sourceCount).1;
      Outcomes(t0, events[..n], sourceCount)
      + (if CountsNext(x) && !events[n].event.Dies? then [x.walk.outcome] else [])
  }

  /** The counters are the numbers of walks that reported and that wait, and the flag says whether another left part
      of its channel unread. */
  predicate Tallied(outcomes: seq<W.Outcome>, good: nat, deferred: nat, incomplete: bool) {
    && good == Numbered(outcomes, Reports) && deferred == Numbered(outcomes, Waits)
    && (incomplete <==> AnyGap(outcomes))
  }

  /** So many channels were walked, with these counters. */
  predicate AcquiredAs(outcomes: seq<W.Outcome>, channels: nat, good: nat, deferred: nat, incomplete: bool) {
    |outcomes| == channels && Tallied(outcomes, good, deferred, incomplete)
  }

  /** The answers a walk heard, as events of the executor. */
  function Heard(log: seq<W.Timed>): (events: seq<TimedEvent>)
    ensures |events| == |log|
  {
    seq(|log|, i requires 0 <= i < |log| => TimedEvent(log[i].at, Hears(log[i].answer)))
  }

  /** The channels ranked by username. */
  function NameRanks(collation: string -> int, channels: map<Uuid, Channel>, ids: set<Uuid>): set<Rank>
    requires forall c :: c in ids ==> c in channels
  {
    set c | c in ids :: Rank(collation(channels[c].username), c, 0, 0)
  }

  predicate ListedAt(channels: map<Uuid, Channel>, x: Rank, l: Listed) {
    l.channel == x.b && l.channel in channels && l.username == channels[l.channel].username
  }

  predicate IsListed(queue: seq<Listed>, c: Uuid) {
    exists i :: 0 <= i < |queue| && queue[i].channel == c
  }

  /** The usernames do not fall, and no channel left out comes before one listed. */
  predicate FirstByName(collation: string -> int, channels: map<Uuid, Channel>, ids: set<Uuid>, queue: seq<Listed>)
    requires forall c :: c in ids ==> c in channels
  {
    && (forall i, j :: 0 <= i < j < |queue| ==> collation(queue[i].username) <= collation(queue[j].username))
    && (forall c, i :: c in ids && 0 <= i < |queue| && !IsListed(queue, c) ==>
         collation(queue[i].username) <= collation(channels[c].username))
  }
}

/** The executor's tick: one pending run from selection to commit, statement by statement. */
module RunExecutors {
  import opened Schema
  import opened Order
  import opened Reports
  import opened Revisions
  import opened ManifestBuilder
  import opened Databases
  import opened DigestCoordinators
  import opened AcquisitionSpec
  import opened Acquisition
  import opened TickOutcomeSpec
  import opened TickSpec
  import S = Selection
  import SP = SelectionProofs
  import X = Executor
  import C = Coordinator
  import W = Walk
  import StoredSteps
  import Exactness

  // ---------------------------------------------------------------- logs

  lemma {:induction false} TickBegins(t0: Tables, sourceCount: nat)
    ensures InTick(t0, [], sourceCount, t0, X.Idle)
  {
  }

  lemma {:induction false} TickSteps(t0: Tables, events: seq<TimedEvent>, sourceCount: nat, t: Tables, x: X.Exec,
      e: TimedEvent)
    requires InTick(t0, events, sourceCount, t, x)
    requires !e.event.Dies? && (events == [] || !x.Idle?)
    ensures var (t', x') := X.ExecStep(t, x, e.at, e.event, sourceCount); InTick(t0, events + [e], sourceCount, t', x')
  {
    var longer := events + [e];
    assert longer[..|events|] == events;
    forall j | 0 < j < |longer|
      ensures !After(t0, X.Idle, longer[..j], sourceCount).1.Idle?
    {
      assert longer[..j] == events[..j];
      assert events[..|events|] == events;
    }
  }

  /** An answer heard is a step of the walk. */
  lemma {:induction false} HearsStep(t: Tables, x: X.Exec, a: W.Timed, sourceCount: nat)
    requires x.Walking? && x.i < |x.queue| && !x.walk.Done?
    ensures var (t', w') := W.Step(t, X.RequestFor(x.p, x.queue[x.i]), x.walk, a.at, a.answer);
      X.ExecStep(t, x, a.at, X.Hears(a.answer), sourceCount) == (t', x.(walk := w'))
  {
  }

  /** A whole walk inside a tick. */
  lemma {:induction false} TickWalks(t0: Tables, events: seq<TimedEvent>, sourceCount: nat, t: Tables, x: X.Exec,
      log: seq<W.Timed>, t': Tables, w': W.Walk)
    requires InTick(t0, events, sourceCount, t, x)
    requires x.Walking? && x.i < |x.queue| && x.walk == W.Entering
    requires At(t, X.RequestFor(x.p, x.queue[x.i]), log, t', w')
    ensures InTick(t0, events + Heard(log), sourceCount, t', x.(walk := w'))
    decreases |log|
  {
    var req := X.RequestFor(x.p, x.queue[x.i]);
    if log == [] {
      assert events + Heard(log) == events;
    } else {
      var n := |log| - 1;
      var before := log[..n];
      var (t1, w1) := W.Advance(t, req, W.Entering, before);
      AtPrefix(t, req, log, t', w', n);
      TickWalks(t0, events, sourceCount, t, x, before, t1, w1);
      TickHears(t0, events + Heard(before), sourceCount, t1, x.(walk := w1), log[n], t', w');
      HeardLast(events, log, n);
    }
  }

  lemma {:induction false} TickHears(t0: Tables, events: seq<TimedEvent>, sourceCount: nat, t: Tables, x: X.Exec,
      a: W.Timed, t': Tables, w': W.Walk)
    requires InTick(t0, events, sourceCount, t, x) && x.Walking? && x.i < |x.queue| && !x.walk.Done?
    requires W.Step(t, X.RequestFor(x.p, x.queue[x.i]), x.walk, a.at, a.answer) == (t', w')
    ensures InTick(t0, events + [TimedEvent(a.at, X.Hears(a.answer))], sourceCount, t', x.(walk := w'))
  {
    HearsStep(t, x, a, sourceCount);
    TickSteps(t0, events, sourceCount, t, x, TimedEvent(a.at, X.Hears(a.answer)));
  }

  lemma {:induction false} HeardLast(events: seq<TimedEvent>, log: seq<W.Timed>, n: nat)
    requires |log| == n + 1
    ensures events + Heard(log) == events + Heard(log[..n]) + [TimedEvent(log[n].at, X.Hears(log[n].answer))]
  {
  }

  lemma {:induction false} OneMoreOutcome(outcomes: seq<W.Outcome>, o: W.Outcome)
    ensures Numbered(outcomes + [o], Reports) == Numbered(outcomes, Reports) + (if o.Reported? then 1 else 0)
    ensures Numbered(outcomes + [o], Waits) == Numbered(outcomes, Waits) + (if o.Deferred? then 1 else 0)
    ensures AnyGap(outcomes + [o]) <==> AnyGap(outcomes) || (!WasRead(o) && !o.Deferred?)
  {
    var longer := outcomes + [o];
    assert longer[..|outcomes|] == outcomes;
    if AnyGap(outcomes) {
      var i :| 0 <= i < |outcomes| && !WasRead(outcomes[i]) && !outcomes[i].Deferred?;
      assert longer[i] == outcomes[i];
    }
    assert longer[|outcomes|] == o;
  }

  /** What a tick has counted. */
  predicate Known(x: X.Exec, outcomes: seq<W.Outcome>) {
    && (x.Idle? || x.Chosen? || x.Started? ==> outcomes == [])
    && (x.Walking? ==> x.i == |outcomes| && Tallied(outcomes, x.good, x.deferred, x.incomplete))
  }

  /** Counting a walk that ended. */
  lemma {:induction false} CountKnown(t: Tables, x: X.Exec, now: Instant, e: X.Event, sourceCount: nat,
      outcomes: seq<W.Outcome>)
    requires Known(x, outcomes) && !e.Dies? && CountsNext(x)
    ensures Known(X.ExecStep(t, x, now, e, sourceCount).1, outcomes + [x.walk.outcome])
  {
    var o := x.walk.outcome;
    OneMoreOutcome(outcomes, o);
    var x' := X.Count(x);
    assert X.ExecStep(t, x, now, e, sourceCount).1 == x' && x'.Walking? && x'.i == x.i + 1;
    assert Tallied(outcomes + [o], x'.good, x'.deferred, x'.incomplete);
  }

  /** A step that counts none. */
  lemma {:induction false} StepKnown(t: Tables, x: X.Exec, now: Instant, e: X.Event, sourceCount: nat,
      outcomes: seq<W.Outcome>)
    requires Known(x, outcomes) && !e.Dies? && !CountsNext(x)
    ensures var x' := X.ExecStep(t, x, now, e, sourceCount).1; x'.Idle? || Known(x', outcomes)
  {
  }

  /** What a tick has counted so far is known. */
  ghost predicate KnownAfter(t0: Tables, events: seq<TimedEvent>, sourceCount: nat) {
    var x := After(t0, X.Idle, events, sourceCount).1;
    (x.Idle? && events != []) || Known(x, Outcomes(t0, events, sourceCount))
  }

  lemma {:induction false} OneMoreEvent(t0: Tables, head: seq<TimedEvent>, last: TimedEvent, sourceCount: nat)
    requires KnownAfter(t0, head, sourceCount) && !last.event.Dies?
    requires head != [] ==> !After(t0, X.Idle, head, sourceCount).1.Idle?
    ensures KnownAfter(t0, head + [last], sourceCount)
  {
    assert (head + [last])[..|head|] == head;
    var (t, x) := After(t0, X.Idle, head, sourceCount);
    var outcomes := Outcomes(t0, head, sourceCount);
    if CountsNext(x) {
      CountKnown(t, x, last.at, last.event, sourceCount, outcomes);
    } else {
      StepKnown(t, x, last.at, last.event, sourceCount, outcomes);
      assert outcomes + [] == outcomes;
    }
  }

  lemma {:induction false} HeadWithin(t0: Tables, events: seq<TimedEvent>, sourceCount: nat)
    requires WithinOneTick(t0, events, sourceCount) && events != []
    ensures var head := events[..|events| - 1];
      && WithinOneTick(t0, head, sourceCount) && !events[|events| - 1].event.Dies?
      && (head != [] ==> !After(t0, X.Idle, head, sourceCount).1.Idle?)
  {
    var n := |events| - 1;
    var head := events[..n];
    forall j | 0 < j < n
      ensures !After(t0, X.Idle, head[..j], sourceCount).1.Idle?
    {
      assert head[..j] == events[..j];
    }
  }

  /** The counters of a tick tally the walks that ended in it. */
  lemma {:induction false} TickTallies(t0: Tables, events: seq<TimedEvent>, sourceCount: nat)
    requires WithinOneTick(t0, events, sourceCount)
    ensures KnownAfter(t0, events, sourceCount)
    decreases |events|
  {
    if events != [] {
      var n := |events| - 1;
      var head := events[..n];
      HeadWithin(t0, events, sourceCount);
      TickTallies(t0, head, sourceCount);
      OneMoreEvent(t0, head, events[n], sourceCount);
      assert head + [events[n]] == events;
    }
  }

  /** A selection inside a tick. */
  lemma {:induction false} TickSelects(t0: Tables, events: seq<TimedEvent>, sourceCount: nat, t: Tables, p: X.Pending,
      incomplete: bool, selected: S.Selected)
    requires InTick(t0, events, sourceCount, t, X.Ready(p, incomplete))
    requires selected == S.SelectSources(X.ViewOf(t, p), sourceCount)
    ensures InTick(t0, events + [TimedEvent(0, X.Go)], sourceCount, t,
                   X.Chose(p, selected.sources, incomplete || selected.eligible > |selected.sources|))
  {
    TickSteps(t0, events, sourceCount, t, X.Ready(p, incomplete), TimedEvent(0, X.Go));
  }

  /** A whole walk inside a tick, and its counting. */
  lemma {:induction false} TickCounts(t0: Tables, events: seq<TimedEvent>, sourceCount: nat, t: Tables, x: X.Exec,
      log: seq<W.Timed>, t': Tables, outcome: W.Outcome)
    requires InTick(t0, events, sourceCount, t, x)
    requires x.Walking? && x.i < |x.queue| && x.walk == W.Entering
    requires At(t, X.RequestFor(x.p, x.queue[x.i]), log, t', W.Done(outcome))
    ensures InTick(t0, events + Heard(log) + [TimedEvent(0, X.Go)], sourceCount, t',
                   X.Count(x.(walk := W.Done(outcome))))
  {
    TickWalks(t0, events, sourceCount, t, x, log, t', W.Done(outcome));
    TickSteps(t0, events + Heard(log), sourceCount, t', x.(walk := W.Done(outcome)), TimedEvent(0, X.Go));
  }

  /** The walk was on its way before the last answer. */
  lemma {:induction false} AtPrefix(t: Tables, req: W.Request, log: seq<W.Timed>, t': Tables, w': W.Walk, n: nat)
    requires At(t, req, log, t', w') && n < |log|
    ensures var (t1, w1) := W.Advance(t, req, W.Entering, log[..n]); At(t, req, log[..n], t1, w1) && !w1.Done?
  {
    forall m | 0 <= m < n
      ensures !W.Advance(t, req, W.Entering, log[..n][..m]).1.Done?
    {
      assert log[..n][..m] == log[..m];
    }
  }

  // ---------------------------------------------------------------- the executor

  class RunExecutor {
    const db: Database
    const engine: AcquisitionEngine
    const coordinator: DigestCoordinator
    const outside: Environment
    const sourceCount: nat
    /** Where the collation of the database puts a text. */
    const collation: string -> int

    constructor (db: Database, engine: AcquisitionEngine, coordinator: DigestCoordinator, outside: Environment,
        sourceCount: nat, collation: string -> int)
      requires engine.revisions.db == db && coordinator.db == db
      ensures this.db == db && this.engine == engine && this.coordinator == coordinator && this.outside == outside
      ensures 1 <= this.sourceCount <= 100 && this.collation == collation
    {
      this.db, this.engine, this.coordinator, this.outside := db, engine, coordinator, outside;
      this.collation := collation;
      this.sourceCount := if sourceCount < 1 then 1 else if sourceCount > 100 then 100 else sourceCount;
    }

    predicate Wired() {
      engine.revisions.db == db && coordinator.db == db
    }

    /** `begin_acquisition`. */
    method BeginAcquisition(p: X.Pending, now: Instant) returns (began: bool)
      modifies db
      ensures (db.Snapshot(), began) == X.BeginAcquisition(old(db.Snapshot()), p, now)
    {
      if p.run !in db.runs || !db.runs[p.run].state.Accepted? {
        return false;
      }
      db.runs := db.runs[p.run := db.runs[p.run].(state := Acquiring, updated := now)];
      db.ReportRun(p.run, p.owner, Running, PlainReport(p.owner, "acquiring"));
      began := true;
    }

    /** The first twenty rows of the ordered channels, with their usernames. */
    method FirstTwenty(order: seq<Rank>) returns (queue: seq<X.Listed>)
      requires forall i :: 0 <= i < |order| ==> order[i].b in db.channels
      ensures |queue| == Min(20, |order|)
      ensures forall i :: 0 <= i < |queue| ==> ListedAt(db.channels, order[i], queue[i])
    {
      queue := [];
      while |queue| < Min(20, |order|)
        invariant |queue| <= Min(20, |order|)
        invariant forall i :: 0 <= i < |queue| ==> ListedAt(db.channels, order[i], queue[i])
      {
        queue := queue + [X.Listed(order[|queue|].b, db.channels[order[|queue|].b].username)];
      }
    }

    /** `subscribed_channels`: the owner's active channels by username, up to twenty. */
    method SubscribedChannels(owner: Uuid) returns (queue: seq<X.Listed>)
      requires forall k :: k in db.subscriptions ==> k.channel in db.channels
      ensures X.IsListing(db.Snapshot(), owner, queue)
      ensures FirstByName(collation, db.channels, X.Watched(db.subscriptions, owner), queue)
    {
      var order := Ascending(NameRanks(collation, db.channels, X.Watched(db.subscriptions, owner)));
      NameRanksListed(collation, db.channels, X.Watched(db.subscriptions, owner));
      queue := FirstTwenty(order);
      ListedInOrder(collation, db.channels, X.Watched(db.subscriptions, owner), order, queue);
    }

    /** `record_acquisition`. */
    method RecordAcquisition(run: Uuid, incomplete: bool)
      modifies db`runs
      ensures db.Snapshot() == X.RecordAcquisition(old(db.Snapshot()), run, incomplete)
    {
      if run in db.runs {
        db.runs := db.runs[run := db.runs[run].(incomplete := incomplete)];
      }
    }

    /** The inner query: the latest revision of each message, newest message first. */
    method RankNewest(v: S.View) returns (newest: seq<Rank>)
      requires S.UniqueIds(v.rows)
      ensures newest == S.Newest(v)
    {
      var latest := S.DistinctOn(S.Grouped(v));
      S.GroupedAreCited(v);
      var ranks: set<Rank> := {};
      for i := 0 to |latest|
        invariant ranks == S.RanksOf(v, latest[..i])
      {
        assert latest[i] in latest && S.Cited(v, -latest[i].d);
        var k :| k in S.Candidates(v) && v.rows[k].id == -latest[i].d;
        SP.KeyIsUnique(v, k);
        RanksOn(v, latest, i);
        ranks := ranks + {S.NewestRank(v, k)};
      }
      assert latest[..|latest|] == latest;
      newest := Ascending(ranks);
    }

    /** The source of one row of the order. */
    method SourceAt(v: S.View, newest: seq<Rank>, i: nat) returns (source: ManifestSource)
      requires S.UniqueIds(v.rows) && newest == S.Newest(v) && i < |newest|
      ensures source == S.SourceOf(v, S.KeyAt(v, i))
    {
      S.NewestAreCited(v, i);
      var k :| k in S.Candidates(v) && v.rows[k].id == -newest[i].d;
      OnlyKeyAt(v, i, k);
      source := S.SourceOf(v, k);
    }

    /** The first `n` of the order, turned around: oldest first. */
    method TurnAround(v: S.View, newest: seq<Rank>, n: nat) returns (sources: seq<ManifestSource>)
      requires S.UniqueIds(v.rows) && newest == S.Newest(v) && n <= |newest|
      ensures |sources| == n && S.TurnsAround(v, n, sources)
    {
      sources := [];
      for j := 0 to n
        invariant |sources| == j && S.TurnsAround(v, n, sources)
      {
        var source := SourceAt(v, newest, n - 1 - j);
        TurnsOn(v, n, sources, source);
        sources := sources + [source];
      }
    }

    /** `select_sources`: the newest messages, each by its latest revision, oldest first, and the count before
        the cut. */
    method SelectSources(p: X.Pending) returns (s: S.Selected)
      requires S.UniqueIds(db.revisions)
      ensures s == S.SelectSources(X.ViewOf(db.Snapshot(), p), sourceCount)
    {
      var v := X.ViewOf(db.Snapshot(), p);
      var newest := RankNewest(v);
      var n := Min(sourceCount, |newest|);
      var sources := TurnAround(v, newest, n);
      s := S.Selected(sources, if n == 0 then 0 else |newest|);
      TurnedAround(v, sourceCount, sources);
    }

    /** `commit`: without sources the run ends at once; otherwise it waits for a recap of the manifest built from
        them. */
    method Commit(p: X.Pending, sources: seq<ManifestSource>, incomplete: bool, e: X.Event,
        now: Instant) returns (reply: C.Reply)
      requires e.Commits? && Wired()
      modifies db
      ensures (db.Snapshot(), reply) == X.Commit(old(db.Snapshot()), p, sources, incomplete, e, now)
    {
      if sources == [] {
        if incomplete {
          reply := coordinator.FailRun(p.run, p.owner, ProviderDown, now);
        } else {
          reply := coordinator.CompleteEmptyRun(p.run, p.owner, now);
        }
        return;
      }
      var built := Build(e.manifest, p.owner, p.run, p.start, p.end, sources, e.windowOk, _ => e.accepted);
      if built.Err? {
        reply := coordinator.FailRun(p.run, p.owner, FailureClass.ManifestInvalid, now);
        return;
      }
      reply := coordinator.CommitManifest(built.value, p.operation, e.requestOk, now);
    }

    // -------------------------------------------------------------- the tick

    /** Channel `i` of the run: a whole attempt, counted. */
    method AcquireChannel(p: X.Pending, queue: seq<X.Listed>, i: nat, good0: nat, deferred0: nat, incomplete0: bool,
        ghost t0: Tables, ghost events0: seq<TimedEvent>)
      returns (good: nat, deferred: nat, incomplete: bool, ghost events: seq<TimedEvent>)
      requires Wired() && S.UniqueIds(db.revisions) && i < |queue|
      requires InTick(t0, events0, sourceCount, db.Snapshot(),
                      X.Walking(p, queue, i, good0, deferred0, incomplete0, W.Entering))
      modifies db
      ensures S.UniqueIds(db.revisions)
      ensures events0 <= events
      ensures InTick(t0, events, sourceCount, db.Snapshot(),
                     X.Walking(p, queue, i + 1, good, deferred, incomplete, W.Entering))
    {
      ghost var t := db.Snapshot();
      ghost var x := X.Walking(p, queue, i, good0, deferred0, incomplete0, W.Entering);
      var req := X.RequestFor(p, queue[i]);
      var outcome;
      ghost var log;
      outcome, log := engine.Execute(req);
      good, deferred, incomplete := good0, deferred0, incomplete0;
      match outcome {
        case Reported(_, _, partial) => good, incomplete := good0 + 1, incomplete0 || partial;
        case Deferred => deferred := deferred0 + 1;
        case Unavailable => incomplete := true;
      }
      assert X.Count(x.(walk := W.Done(outcome))) == X.Walking(p, queue, i + 1, good, deferred, incomplete, W.Entering);
      events := events0 + Heard(log) + [TimedEvent(0, X.Go)];
      AdvanceIds(t, req, log);
      TickCounts(t0, events0, sourceCount, t, x, log, db.Snapshot(), outcome);
    }

    /** `acquire`: every channel of the queue, one after the other. */
    method Acquire(p: X.Pending, queue: seq<X.Listed>, ghost t0: Tables, ghost events0: seq<TimedEvent>)
      returns (good: nat, deferred: nat, incomplete: bool, ghost events: seq<TimedEvent>)
      requires Wired() && S.UniqueIds(db.revisions)
      requires InTick(t0, events0, sourceCount, db.Snapshot(), X.Walking(p, queue, 0, 0, 0, false, W.Entering))
      modifies db
      ensures S.UniqueIds(db.revisions)
      ensures events0 <= events
      ensures InTick(t0, events, sourceCount, db.Snapshot(),
                     X.Walking(p, queue, |queue|, good, deferred, incomplete, W.Entering))
      ensures AcquiredAs(Outcomes(t0, events, sourceCount), |queue|, good, deferred, incomplete)
    {
      good, deferred, incomplete, events := 0, 0, false, events0;
      for i := 0 to |queue|
        invariant S.UniqueIds(db.revisions)
        invariant events0 <= events
        invariant InTick(t0, events, sourceCount, db.Snapshot(),
                         X.Walking(p, queue, i, good, deferred, incomplete, W.Entering))
      {
        good, deferred, incomplete, events := AcquireChannel(p, queue, i, good, deferred, incomplete, t0, events);
      }
      TickTallies(t0, events, sourceCount);
    }

    /** The commit, with the verdicts of the contract crate as they come. */
    method Settle(p: X.Pending, sources: seq<ManifestSource>, incomplete: bool, ghost t0: Tables,
        ghost events0: seq<TimedEvent>)
      returns (ghost events: seq<TimedEvent>)
      requires Wired() && InTick(t0, events0, sourceCount, db.Snapshot(), X.Recorded(p, sources, incomplete))
      modifies db
      ensures events0 <= events
      ensures InTick(t0, events, sourceCount, db.Snapshot(), X.Idle)
    {
      ghost var t := db.Snapshot();
      var now := outside.Now();
      var manifest := outside.NewId();
      var windowOk: bool, accepted: bool, requestOk: bool := *, *, *;
      var e := X.Commits(manifest, windowOk, accepted, requestOk);
      var reply := Commit(p, sources, incomplete, e, now);
      CommitEnds(t, p, sources, incomplete, e, now, sourceCount);
      TickSteps(t0, events0, sourceCount, t, X.Recorded(p, sources, incomplete), TimedEvent(now, e));
      events := events0 + [TimedEvent(now, e)];
    }

    /** Records whether the window was read completely, before anything settles on it. */
    method Record(p: X.Pending, sources: seq<ManifestSource>, incomplete: bool, ghost t0: Tables,
        ghost events0: seq<TimedEvent>)
      returns (ghost events: seq<TimedEvent>)
      requires Wired() && InTick(t0, events0, sourceCount, db.Snapshot(), X.Chose(p, sources, incomplete))
      modifies db
      ensures events0 <= events
      ensures InTick(t0, events, sourceCount, db.Snapshot(), X.Idle)
    {
      ghost var t := db.Snapshot();
      RecordAcquisition(p.run, incomplete);
      TickSteps(t0, events0, sourceCount, t, X.Chose(p, sources, incomplete), TimedEvent(0, X.Go));
      events := Settle(p, sources, incomplete, t0, events0 + [TimedEvent(0, X.Go)]);
    }

    /** Selects and goes on with the selection. */
    method Finish(p: X.Pending, incomplete: bool, ghost t0: Tables, ghost events0: seq<TimedEvent>)
      returns (ghost events: seq<TimedEvent>)
      requires Wired() && S.UniqueIds(db.revisions)
      requires InTick(t0, events0, sourceCount, db.Snapshot(), X.Ready(p, incomplete))
      modifies db
      ensures events0 <= events
      ensures InTick(t0, events, sourceCount, db.Snapshot(), X.Idle)
    {
      var selected := SelectSources(p);
      TickSelects(t0, events0, sourceCount, db.Snapshot(), p, incomplete, selected);
      events := Record(p, selected.sources, incomplete || selected.eligible > |selected.sources|, t0,
                       events0 + [TimedEvent(0, X.Go)]);
    }

    /** What the finished acquisition means: wait, fail the run, or go on. */
    method Proceed(p: X.Pending, queue: seq<X.Listed>, good: nat, deferred: nat, incomplete: bool, ghost t0: Tables,
        ghost events0: seq<TimedEvent>)
      returns (ghost events: seq<TimedEvent>)
      requires Wired() && S.UniqueIds(db.revisions)
      requires InTick(t0, events0, sourceCount, db.Snapshot(),
                      X.Walking(p, queue, |queue|, good, deferred, incomplete, W.Entering))
      modifies db
      ensures events0 <= events
      ensures InTick(t0, events, sourceCount, db.Snapshot(), X.Idle)
    {
      ghost var x := X.Walking(p, queue, |queue|, good, deferred, incomplete, W.Entering);
      ghost var t := db.Snapshot();
      TickSteps(t0, events0, sourceCount, t, x, TimedEvent(0, X.Go));
      events := events0 + [TimedEvent(0, X.Go)];
      if deferred > 0 {
        return;
      }
      if queue != [] && good == 0 {
        var now := outside.Now();
        var reply := coordinator.FailRun(p.run, p.owner, ProviderDown, now);
        TickSteps(t0, events, sourceCount, t, X.Failing(p), TimedEvent(now, X.Go));
        events := events + [TimedEvent(now, X.Go)];
        return;
      }
      events := Finish(p, incomplete, t0, events);
    }

    /** Moves a pending run on: an accepted one begins first, and may have been settled in the meantime. */
    method Begin(p: X.Pending, ghost t0: Tables, ghost events0: seq<TimedEvent>)
      returns (started: bool, ghost events: seq<TimedEvent>)
      requires InTick(t0, events0, sourceCount, db.Snapshot(), X.Chosen(p))
      modifies db
      ensures db.revisions == old(db.revisions) && db.subscriptions == old(db.subscriptions)
      ensures db.channels == old(db.channels)
      ensures events0 <= events
      ensures InTick(t0, events, sourceCount, db.Snapshot(), if started then X.Started(p) else X.Idle)
    {
      ghost var t := db.Snapshot();
      var now := outside.Now();
      started := true;
      if p.state.Accepted? {
        started := BeginAcquisition(p, now);
      }
      TickSteps(t0, events0, sourceCount, t, X.Chosen(p), TimedEvent(now, X.Go));
      events := events0 + [TimedEvent(now, X.Go)];
      BeginRows(t, p, now);
    }

    /** One pending run, from its beginning to its commit. */
    method Work(p: X.Pending, ghost t0: Tables, ghost events0: seq<TimedEvent>) returns (ghost events: seq<TimedEvent>)
      requires Wired() && S.UniqueIds(db.revisions)
      requires forall k :: k in db.subscriptions ==> k.channel in db.channels
      requires InTick(t0, events0, sourceCount, db.Snapshot(), X.Chosen(p))
      modifies db
      ensures events0 <= events
      ensures InTick(t0, events, sourceCount, db.Snapshot(), X.Idle)
    {
      var started;
      started, events := Begin(p, t0, events0);
      if !started {
        return;
      }
      var queue := SubscribedChannels(p.owner);
      TickSteps(t0, events, sourceCount, db.Snapshot(), X.Started(p), TimedEvent(0, X.Lists(queue)));
      events := events + [TimedEvent(0, X.Lists(queue))];
      var good, deferred, incomplete;
      good, deferred, incomplete, events := Acquire(p, queue, t0, events);
      events := Proceed(p, queue, good, deferred, incomplete, t0, events);
    }

    /** `execute_one`: at most one pending run, from selection to commit. The log of what it met replays, step by
        step, to the tables it leaves. */
    method ExecuteOne() returns (worked: bool, ghost events: seq<TimedEvent>)
      requires Wired() && S.UniqueIds(db.revisions)
      requires forall k :: k in db.subscriptions ==> k.channel in db.channels
      modifies db
      ensures InTick(old(db.Snapshot()), events, sourceCount, db.Snapshot(), X.Idle)
      ensures events != [] && (worked <==> X.SelectPending(old(db.Snapshot()), events[0].at).Chosen?)
    {
      ghost var t0 := db.Snapshot();
      TickBegins(t0, sourceCount);
      var now := outside.Now();
      var x := X.SelectPending(db.Snapshot(), now);
      TickSteps(t0, [], sourceCount, t0, X.Idle, TimedEvent(now, X.Go));
      ghost var first := [TimedEvent(now, X.Go)];
      assert [] + first == first;
      worked, events := x.Chosen?, first;
      if worked {
        events := Work(x.p, t0, first);
      }
    }
  }

  // ---------------------------------------------------------------- what the tick relies on

  lemma {:induction false} CommitEnds(t: Tables, p: X.Pending, sources: seq<ManifestSource>, incomplete: bool,
      e: X.Event, now: Instant, sourceCount: nat)
    requires e.Commits?
    ensures X.ExecStep(t, X.Recorded(p, sources, incomplete), now, e, sourceCount) ==
      (X.Commit(t, p, sources, incomplete, e, now).0, X.Idle)
  {
  }

  lemma {:induction false} BeginRows(t: Tables, p: X.Pending, now: Instant)
    ensures var t' := X.BeginAcquisition(t, p, now).0;
      t'.revisions == t.revisions && t'.subscriptions == t.subscriptions && t'.channels == t.channels
  {
    StoredSteps.BeginTexts(t, p, now);
  }

  /** A walk keeps row identities unique. */
  lemma {:induction false} StepIds(t: Tables, req: W.Request, w: W.Walk, now: Instant, a: W.Answer)
    requires S.UniqueIds(t.revisions)
    ensures S.UniqueIds(W.Step(t, req, w, now, a).0.revisions)
  {
    if w.Storing? && w.next < |w.page.posts| {
      StorePostIds(t, req, w, a);
    }
  }

  lemma {:induction false} AppendIds(rows: Rows, key: RevisionKey, newId: Uuid, seen: Observation)
    requires S.UniqueIds(rows) && Append(rows, key, newId, seen).Some?
    ensures S.UniqueIds(Append(rows, key, newId, seen).value)
  {
    assert key !in rows ==> forall k :: k in rows ==> rows[k].id != newId;
  }

  lemma {:induction false} StorePostIds(t: Tables, req: W.Request, w: W.Walk, a: W.Answer)
    requires S.UniqueIds(t.revisions) && w.Storing? && w.next < |w.page.posts|
    ensures S.UniqueIds(W.StorePost(t, req, w, a).0.revisions)
  {
    var seen := Exactness.StorePostAppends(t, req, w, a);
    if W.StorePost(t, req, w, a).0 != t {
      AppendIds(t.revisions, req.Key(w.page.posts[w.next]), a.newId, seen);
    }
  }

  lemma {:induction false} AdvanceIds(t: Tables, req: W.Request, log: seq<W.Timed>)
    requires S.UniqueIds(t.revisions)
    ensures S.UniqueIds(W.Advance(t, req, W.Entering, log).0.revisions)
    decreases |log|
  {
    if log != [] {
      var n := |log| - 1;
      AdvanceIds(t, req, log[..n]);
      var (t', w') := W.Advance(t, req, W.Entering, log[..n]);
      StepIds(t', req, w', log[n].at, log[n].answer);
    }
  }

  lemma {:induction false} RanksOn(v: S.View, latest: seq<Rank>, i: nat)
    requires i < |latest| && forall x :: x in latest ==> S.Cited(v, -x.d)
    ensures S.RanksOf(v, latest[..i + 1]) == S.RanksOf(v, latest[..i]) + {S.NewestRank(v, S.KeyWith(v, -latest[i].d))}
  {
    assert latest[..i + 1] == latest[..i] + [latest[i]];
  }

  lemma {:induction false} TurnsOn(v: S.View, n: nat, sources: seq<ManifestSource>, source: ManifestSource)
    requires S.TurnsAround(v, n, sources) && |sources| < n
    requires source == S.SourceOf(v, S.KeyAt(v, n - 1 - |sources|))
    ensures S.TurnsAround(v, n, sources + [source])
  {
  }

  lemma {:induction false} OnlyKeyAt(v: S.View, i: nat, k: RevisionKey)
    requires S.UniqueIds(v.rows) && i < |S.Newest(v)|
    requires k in S.Candidates(v) && v.rows[k].id == -S.Newest(v)[i].d
    ensures k == S.KeyAt(v, i)
  {
    S.NewestAreCited(v, i);
    SP.KeyIsUnique(v, k);
  }

  lemma {:induction false} TurnedAt(v: S.View, n: nat, sources: seq<ManifestSource>, i: nat)
    requires n <= |S.Newest(v)| && S.TurnsAround(v, n, sources) && i < |sources| == n
    ensures sources[i] == S.SourceOf(v, S.OldestFirst(v, n)[i])
  {
    S.OldestFirstAt(v, n, i);
  }

  lemma {:induction false} TurnedAround(v: S.View, limit: nat, sources: seq<ManifestSource>)
    requires |sources| == Min(limit, |S.Newest(v)|) && S.TurnsAround(v, |sources|, sources)
    ensures S.SelectSources(v, limit) == S.Selected(sources, if |sources| == 0 then 0 else |S.Newest(v)|)
  {
    forall i | 0 <= i < |sources|
      ensures sources[i] == S.SourceOf(v, S.OldestFirst(v, |sources|)[i])
    {
      TurnedAt(v, |sources|, sources, i);
    }
    assert S.SelectSources(v, limit).sources == sources;
  }

  lemma {:induction false} NameRanksListed(collation: string -> int, channels: map<Uuid, Channel>, ids: set<Uuid>)
    requires forall c :: c in ids ==> c in channels
    ensures var order := Ascending(NameRanks(collation, channels, ids));
      && |order| == |ids| && Sorted(order)
      && (forall i :: 0 <= i < |order| ==>
           order[i].b in ids && order[i] == Rank(collation(channels[order[i].b].username), order[i].b, 0, 0))
      && (forall c :: c in ids ==> Rank(collation(channels[c].username), c, 0, 0) in order)
  {
    var ranks := NameRanks(collation, channels, ids);
    var pairs := map c | c in ids :: Rank(collation(channels[c].username), c, 0, 0);
    forall y | y in ranks
      ensures exists c :: c in pairs && pairs[c] == y
    {
      assert y.b in pairs;
    }
    SP.SameSize(pairs, ranks);
    assert pairs.Keys == ids;
    AscendingSorts(ranks);
    forall i | 0 <= i < |Ascending(ranks)|
      ensures Ascending(ranks)[i] in ranks
    {
    }
  }

  /** The head of the order is a listing by name. */
  lemma {:induction false} ListedInOrder(collation: string -> int, channels: map<Uuid, Channel>, ids: set<Uuid>,
      order: seq<Rank>, queue: seq<X.Listed>)
    requires (forall c :: c in ids ==> c in channels) && order == Ascending(NameRanks(collation, channels, ids))
    requires |queue| <= |order| && forall i :: 0 <= i < |queue| ==> ListedAt(channels, order[i], queue[i])
    ensures FirstByName(collation, channels, ids, queue)
    ensures forall i :: 0 <= i < |queue| ==> queue[i].channel in ids
    ensures forall i, j :: 0 <= i < j < |queue| ==> queue[i].channel != queue[j].channel
  {
    NameRanksListed(collation, channels, ids);
    forall i, j | 0 <= i < j < |queue|
      ensures collation(queue[i].username) <= collation(queue[j].username) && queue[i].channel != queue[j].channel
    {
      assert Less(order[i], order[j]);
    }
    forall c, i | c in ids && 0 <= i < |queue| && !IsListed(queue, c)
      ensures collation(queue[i].username) <= collation(channels[c].username)
    {
      var j :| 0 <= j < |order| && order[j] == Rank(collation(channels[c].username), c, 0, 0);
      if j < |queue| {
        assert IsListed(queue, c);
      } else {
        assert Less(order[i], order[j]);
      }
    }
  }
}

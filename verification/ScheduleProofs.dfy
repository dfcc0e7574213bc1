/** The windows that successive occurrences give one owner. */
module WindowSpec {
  import opened Schema
  import opened Schedule

  /** An occurrence begins where the last one ended. */
  predicate Chained(os: seq<Occurrence>) {
    && (forall k :: 0 <= k < |os| ==> os[k].previousDue < os[k].due)
    && (forall k :: 0 < k < |os| ==> os[k].previousDue == os[k - 1].due)
  }

  predicate WeeklyAtMost(os: seq<Occurrence>) {
    forall k :: 0 <= k < |os| ==> os[k].due - os[k].previousDue <= WEEK
  }

  function StartOf(activation: Instant, o: Occurrence): Instant {
    WindowStart(true, activation, Some(o.previousDue), o.due)
  }

  /** The instant lies in the window the occurrence gives an owner activated before it. */
  predicate InWindowOf(activation: Instant, o: Occurrence, x: Instant) {
    activation < o.due && StartOf(activation, o) <= x < o.due
  }

  predicate InSomeWindow(activation: Instant, os: seq<Occurrence>, x: Instant) {
    exists k :: 0 <= k < |os| && InWindowOf(activation, os[k], x)
  }

  /** The run the occurrence fans out to an owner. */
  predicate FannedTo(run: Run, o: Occurrence, owner: Uuid, start: Instant) {
    run.owner == owner && run.trigger.Scheduled? && run.key == o.key && run.start == start && run.end == o.due
  }

  predicate HasFanned(runs: map<Uuid, Run>, o: Occurrence, owner: Uuid, start: Instant) {
    exists r :: r in runs && FannedTo(runs[r], o, owner, start)
  }

  /** The run is the one of an owner among the first `n`. */
  predicate OfOneOwner(subscriptions: map<SubscriptionKey, Subscription>, o: Occurrence, owners: seq<Uuid>, n: nat,
      run: Run)
    requires n <= |owners| && forall x :: x in owners ==> x in OwnersBefore(subscriptions, o.due)
  {
    exists i :: 0 <= i < n && FannedTo(run, o, owners[i], FannedWindowStart(subscriptions, owners[i], o))
  }

  /** The subscription is the owner's, active, and was first activated at the instant. */
  predicate ActiveSince(subscriptions: map<SubscriptionKey, Subscription>, k: SubscriptionKey, owner: Uuid,
      instant: Instant)
    requires k in subscriptions
  {
    k.owner == owner && subscriptions[k].enabled && subscriptions[k].firstActivated == instant
  }

  /** No active subscription of the owner was first activated before both instants, and one was at `activation` when
      that is the earlier. */
  predicate ActivatedAt(subscriptions: map<SubscriptionKey, Subscription>, owner: Uuid, due: Instant,
      activation: Instant) {
    && (forall k :: k in subscriptions && k.owner == owner && subscriptions[k].enabled ==>
         activation <= subscriptions[k].firstActivated || due <= subscriptions[k].firstActivated)
    && (activation < due ==> exists k :: k in subscriptions && ActiveSince(subscriptions, k, owner, activation))
  }

  /** A run as the fan-out creates it. */
  predicate IsFresh(run: Run, o: Occurrence, now: Instant) {
    && run.operation == o.operation && run.state.Accepted? && run.failure.None? && !run.incomplete
    && run.created == now && run.updated == now
  }

  predicate DistinctIds(ids: seq<Uuid>) {
    forall i, j :: 0 <= i < j < |ids| ==> ids[i] != ids[j]
  }

  /** The run carries the window of its owner's own activation. */
  ghost predicate GivenBy(subscriptions: map<SubscriptionKey, Subscription>, o: Occurrence, run: Run) {
    exists activation: Instant :: activation < o.due && ActivatedAt(subscriptions, run.owner, o.due, activation)
      && FannedTo(run, o, run.owner, StartOf(activation, o))
  }
}

/** Scheduled windows tile time, and a replayed occurrence adds nothing. */
module ScheduleProofs {
  import opened Schema
  import opened Order
  import opened Coordinator
  import opened Schedule
  import opened WindowSpec

  // ---------------------------------------------------------------- windows

  lemma {:induction false} DuesRise(os: seq<Occurrence>, i: nat, j: nat)
    requires Chained(os) && i <= j < |os|
    ensures os[i].due <= os[j].due && (i < j ==> os[i].due <= os[j].previousDue)
    decreases j - i
  {
    if i < j {
      DuesRise(os, i, j - 1);
    }
  }

  /** Windows are never empty, at most seven days long, and pairwise disjoint, whatever the gaps. */
  lemma {:induction false} WindowsAreDisjoint(activation: Instant, os: seq<Occurrence>, i: nat, j: nat, x: Instant)
    requires Chained(os) && i < |os| && j < |os|
    ensures activation < os[i].due ==> StartOf(activation, os[i]) < os[i].due
    ensures os[i].due - StartOf(activation, os[i]) <= WEEK
    ensures InWindowOf(activation, os[i], x) && InWindowOf(activation, os[j], x) ==> i == j
  {
    if i < j {
      DuesRise(os, i, j);
    } else {
      DuesRise(os, j, i);
    }
  }

  /** With gaps of at most seven days the windows leave no instant out. */
  lemma {:induction false} WindowsCover(activation: Instant, os: seq<Occurrence>, x: Instant) returns (k: nat)
    requires Chained(os) && WeeklyAtMost(os) && os != []
    requires Greatest(activation, os[0].previousDue) <= x < os[|os| - 1].due
    ensures k < |os| && InWindowOf(activation, os[k], x)
    decreases |os|
  {
    var n := |os| - 1;
    if n == 0 || os[n].previousDue <= x {
      k := n;
    } else {
      k := WindowsCover(activation, os[..n], x);
    }
  }

  // ---------------------------------------------------------------- fan-out

  /** What one insertion does. */
  lemma {:induction false} FanOutOneAdds(runs: map<Uuid, Run>, o: Occurrence, owner: Uuid, start: Instant,
      newId: Option<Uuid>, now: Instant)
    requires FanOutOne(runs, o, owner, start, newId, now).Some?
    ensures var runs' := FanOutOne(runs, o, owner, start, newId, now).value;
      && HasFanned(runs', o, owner, start)
      && (forall r :: r in runs ==> r in runs' && runs'[r] == runs[r])
      && (forall r :: r in runs' && r !in runs ==> FannedTo(runs'[r], o, owner, start) && IsFresh(runs'[r], o, now))
      && (HasFanned(runs, o, owner, start) ==> runs' == runs)
      && start < o.due
  {
    var runs' := FanOutOne(runs, o, owner, start, newId, now).value;
    if ScheduledRunExists(runs, owner, o.key, start, o.due) {
      var r :| r in runs && runs[r].owner == owner && runs[r].trigger.Scheduled? && runs[r].key == o.key
        && runs[r].start == start && runs[r].end == o.due;
      assert FannedTo(runs[r], o, owner, start);
    } else {
      var id: Uuid := newId.value;
      var run := Run(owner, o.operation, Scheduled, o.key, start, o.due, Accepted, None, false, now, now);
      assert runs' == runs[id := run];
      assert id in runs' && FannedTo(runs'[id], o, owner, start);
    }
  }

  /** After the first `n` owners: each has its run, old runs stay, and every new run is one of theirs. */
  lemma {:induction false} FanOutReaches(subscriptions: map<SubscriptionKey, Subscription>, runs: map<Uuid, Run>,
      o: Occurrence, owners: seq<Uuid>, n: nat, newIds: seq<Uuid>, now: Instant)
    requires n <= |owners| && forall x :: x in owners ==> x in OwnersBefore(subscriptions, o.due)
    requires FanOut(subscriptions, runs, o, owners, n, newIds, now).Some?
    ensures var runs' := FanOut(subscriptions, runs, o, owners, n, newIds, now).value;
      && (forall i :: 0 <= i < n ==> HasFanned(runs', o, owners[i], FannedWindowStart(subscriptions, owners[i], o)))
      && (forall r :: r in runs ==> r in runs' && runs'[r] == runs[r])
      && (forall r :: r in runs' && r !in runs ==>
           OfOneOwner(subscriptions, o, owners, n, runs'[r]) && IsFresh(runs'[r], o, now))
    decreases n
  {
    if n > 0 {
      FanOutReaches(subscriptions, runs, o, owners, n - 1, newIds, now);
      var before := FanOut(subscriptions, runs, o, owners, n - 1, newIds, now).value;
      var after := FanOut(subscriptions, runs, o, owners, n, newIds, now).value;
      var start := FannedWindowStart(subscriptions, owners[n - 1], o);
      FanOutOneAdds(before, o, owners[n - 1], start, if n <= |newIds| then Some(newIds[n - 1]) else None, now);
      forall i | 0 <= i < n - 1
        ensures HasFanned(after, o, owners[i], FannedWindowStart(subscriptions, owners[i], o))
      {
        FannedStays(before, after, o, owners[i], FannedWindowStart(subscriptions, owners[i], o));
      }
      forall r | r in after && r !in runs
        ensures OfOneOwner(subscriptions, o, owners, n, after[r]) && IsFresh(after[r], o, now)
      {
        if r in before {
          assert OfOneOwner(subscriptions, o, owners, n - 1, before[r]);
        } else {
          assert FannedTo(after[r], o, owners[n - 1], start);
        }
      }
    }
  }

  lemma {:induction false} FannedStays(runs: map<Uuid, Run>, runs': map<Uuid, Run>, o: Occurrence, owner: Uuid,
      start: Instant)
    requires HasFanned(runs, o, owner, start) && forall r :: r in runs ==> r in runs' && runs'[r] == runs[r]
    ensures HasFanned(runs', o, owner, start)
  {
    var r :| r in runs && FannedTo(runs[r], o, owner, start);
    assert FannedTo(runs'[r], o, owner, start);
  }

  /** A fan-out where every owner has its run adds nothing. */
  lemma {:induction false} FanOutIsIdempotent(subscriptions: map<SubscriptionKey, Subscription>, runs: map<Uuid, Run>,
      o: Occurrence, owners: seq<Uuid>, n: nat, newIds: seq<Uuid>, now: Instant)
    requires n <= |owners| && forall x :: x in owners ==> x in OwnersBefore(subscriptions, o.due)
    requires forall i :: 0 <= i < |owners| ==>
      HasFanned(runs, o, owners[i], FannedWindowStart(subscriptions, owners[i], o))
    requires o.previousDue < o.due
    ensures FanOut(subscriptions, runs, o, owners, n, newIds, now) == Some(runs)
    decreases n
  {
    if n > 0 {
      FanOutIsIdempotent(subscriptions, runs, o, owners, n - 1, newIds, now);
      var start := FannedWindowStart(subscriptions, owners[n - 1], o);
      assert HasFanned(runs, o, owners[n - 1], start);
      var r :| r in runs && FannedTo(runs[r], o, owners[n - 1], start);
      assert ScheduledRunExists(runs, owners[n - 1], o.key, start, o.due);
    }
  }

  /** The start of a window is the latest of the activation, the previous due instant and seven days before the end;
      outside a schedule, of the activation and one day before the end. */
  lemma {:induction false} WindowHolds(scheduled: bool, activation: Instant, previous: Option<Instant>, end: Instant,
      x: Instant)
    ensures WindowStart(scheduled, activation, previous, end) <= x <==>
      && activation <= x
      && (if scheduled then end - 7 * 86_400 <= x && (previous.Some? ==> previous.value <= x) else end - 86_400 <= x)
  {
  }

  /** The activation that starts an owner's window is the least of the owner's own. */
  lemma {:induction false} EarliestIsLeast(subscriptions: map<SubscriptionKey, Subscription>, owner: Uuid, due: Instant,
      activation: Instant)
    ensures owner in OwnersBefore(subscriptions, due) && EarliestActivation(subscriptions, owner, due) == activation
      <==> activation < due && ActivatedAt(subscriptions, owner, due, activation)
  {
    forall k | k in subscriptions && k.owner == owner && subscriptions[k].enabled
      && subscriptions[k].firstActivated < due
      ensures Rank(subscriptions[k].firstActivated, 0, 0, 0) in Activations(subscriptions, owner, due)
    {
    }
    if owner in OwnersBefore(subscriptions, due) {
      ActivationExists(subscriptions, owner, due);
      var least := Least(Activations(subscriptions, owner, due));
      var k :| k in subscriptions && subscriptions[k].enabled && subscriptions[k].firstActivated < due
        && k.owner == owner && least == Rank(subscriptions[k].firstActivated, 0, 0, 0);
      assert ActiveSince(subscriptions, k, owner, least.a);
    }
  }

  /** Accepting an occurrence gives every counted owner the window since its own activation, and every new run is
      one of those. */
  lemma {:induction false} AcceptedOccurrenceReaches(t: Tables, o: Occurrence, newIds: seq<Uuid>, now: Instant,
      owner: Uuid, activation: Instant)
    requires AcceptOccurrence(t, o, newIds, now).1 == Applied
    requires activation < o.due && ActivatedAt(t.subscriptions, owner, o.due, activation)
    ensures var t' := AcceptOccurrence(t, o, newIds, now).0;
      && HasFanned(t'.runs, o, owner, StartOf(activation, o))
      && forall r :: r in t'.runs && r !in t.runs ==>
           GivenBy(t.subscriptions, o, t'.runs[r]) && IsFresh(t'.runs[r], o, now)
  {
    var t' := AcceptOccurrence(t, o, newIds, now).0;
    var owners := OwnerOrder(t.subscriptions, o.due);
    EarliestIsLeast(t.subscriptions, owner, o.due, activation);
    FanOutReaches(t.subscriptions, t.runs, o, owners, |owners|, newIds, now);
    var i :| 0 <= i < |owners| && owners[i] == owner;
    forall r | r in t'.runs && r !in t.runs
      ensures GivenBy(t.subscriptions, o, t'.runs[r])
    {
      var j :| 0 <= j < |owners|
        && FannedTo(t'.runs[r], o, owners[j], FannedWindowStart(t.subscriptions, owners[j], o));
      OwnWindow(t.subscriptions, o, owners[j], t'.runs[r]);
    }
  }

  lemma {:induction false} OwnWindow(subscriptions: map<SubscriptionKey, Subscription>, o: Occurrence, owner: Uuid,
      run: Run)
    requires owner in OwnersBefore(subscriptions, o.due)
    requires FannedTo(run, o, owner, FannedWindowStart(subscriptions, owner, o))
    ensures GivenBy(subscriptions, o, run)
  {
    EarliestIsLeast(subscriptions, owner, o.due, EarliestActivation(subscriptions, owner, o.due));
  }

  lemma {:induction false} FanOutOneSucceeds(runs: map<Uuid, Run>, o: Occurrence, owner: Uuid, start: Instant, id: Uuid,
      now: Instant)
    requires start < o.due && id !in runs
    ensures var fanned := FanOutOne(runs, o, owner, start, Some(id), now);
      fanned.Some? && fanned.value.Keys <= runs.Keys + {id}
  {
  }

  /** A fan-out with an identity for every owner succeeds. */
  lemma {:induction false} FanOutSucceeds(subscriptions: map<SubscriptionKey, Subscription>, runs: map<Uuid, Run>,
      o: Occurrence, owners: seq<Uuid>, n: nat, newIds: seq<Uuid>, now: Instant)
    requires n <= |owners| <= |newIds| && forall x :: x in owners ==> x in OwnersBefore(subscriptions, o.due)
    requires o.previousDue < o.due && DistinctIds(newIds) && forall x :: x in newIds ==> x !in runs
    ensures FanOut(subscriptions, runs, o, owners, n, newIds, now).Some?
    ensures forall m :: n <= m < |newIds| ==> newIds[m] !in FanOut(subscriptions, runs, o, owners, n, newIds, now).value
    decreases n
  {
    if n > 0 {
      FanOutSucceeds(subscriptions, runs, o, owners, n - 1, newIds, now);
      var before := FanOut(subscriptions, runs, o, owners, n - 1, newIds, now).value;
      var start := FannedWindowStart(subscriptions, owners[n - 1], o);
      FanOutOneSucceeds(before, o, owners[n - 1], start, newIds[n - 1], now);
      assert FanOut(subscriptions, runs, o, owners, n, newIds, now) ==
        FanOutOne(before, o, owners[n - 1], start, Some(newIds[n - 1]), now);
      forall m | n <= m < |newIds|
        ensures newIds[m] !in before && newIds[m] != newIds[n - 1]
      {
        assert newIds[n - 1] != newIds[m];
      }
    } else {
      assert FanOut(subscriptions, runs, o, owners, n, newIds, now) == Some(runs);
      forall m | 0 <= m < |newIds|
        ensures newIds[m] !in runs
      {
        assert newIds[m] in newIds;
      }
    }
  }

  /** An occurrence under a schedule key that is not decided is accepted, however many owners it reaches, when the
      identities drawn for its runs are fresh; under another key it is invalid, and a decided one is replayed. */
  lemma {:induction false} FreshOccurrenceApplies(t: Tables, o: Occurrence, newIds: seq<Uuid>, now: Instant)
    requires o.previousDue < o.due && DistinctIds(newIds) && forall x :: x in newIds ==> x !in t.runs
    requires |newIds| >= |OwnersBefore(t.subscriptions, o.due)|
    ensures var reply := AcceptOccurrence(t, o, newIds, now).1;
      && (reply == InvalidReply <==> !("schedule-occurrence:" <= o.key))
      && (reply == Replayed <==>
           "schedule-occurrence:" <= o.key && Decided(t, o.message, Decision(OccurrenceCommand, Named(o.key))))
      && reply != StorageReply
  {
    var owners := OwnerOrder(t.subscriptions, o.due);
    ListingSize(OwnersBefore(t.subscriptions, o.due));
    FanOutSucceeds(t.subscriptions, t.runs, o, owners, |owners|, newIds, now);
  }

  /** A listing names each identity once. */
  lemma {:induction false} ListingSize(ids: set<Uuid>)
    ensures |Listing(ids)| == |ids|
  {
    var r := Listing(ids);
    ListingAscends(ids);
    AscendingSize(r);
    var named := set x: Uuid | x in r;
    assert |named| == |r|;
    assert named == ids;
  }

  lemma {:induction false} AscendingSize(r: seq<Uuid>)
    requires forall i, j :: 0 <= i < j < |r| ==> r[i] < r[j]
    ensures |set x: Uuid | x in r| == |r|
    decreases |r|
  {
    if r != [] {
      var n := |r| - 1;
      AscendingSize(r[..n]);
      assert r == r[..n] + [r[n]];
      assert (set x: Uuid | x in r) == (set x: Uuid | x in r[..n]) + {r[n]};
    }
  }

  /** Replay adds no run: the decision answers it, and even without the decision every insertion is
      skipped. */
  lemma {:induction false} ReplayAddsNone(t: Tables, o: Occurrence, newIds: seq<Uuid>, now: Instant, newIds': seq<Uuid>,
      now': Instant)
    requires AcceptOccurrence(t, o, newIds, now).1 == Applied && o.previousDue < o.due
    ensures var t' := AcceptOccurrence(t, o, newIds, now).0;
      && AcceptOccurrence(t', o, newIds', now') == (t', Replayed)
      && var owners := OwnerOrder(t.subscriptions, o.due);
         FanOut(t.subscriptions, t'.runs, o, owners, |owners|, newIds', now') == Some(t'.runs)
  {
    var owners := OwnerOrder(t.subscriptions, o.due);
    FanOutReaches(t.subscriptions, t.runs, o, owners, |owners|, newIds, now);
    FanOutIsIdempotent(t.subscriptions, AcceptOccurrence(t, o, newIds, now).0.runs, o, owners, |owners|, newIds', now');
  }

  // ---------------------------------------------------------------- tiling

  /** Every instant from the activation, or the first previous due, up to the last due lies in exactly one
      window, and no other instant in any. */
  lemma {:induction false} WindowsTile(activation: Instant, os: seq<Occurrence>, x: Instant)
    requires Chained(os) && WeeklyAtMost(os) && os != []
    ensures Greatest(activation, os[0].previousDue) <= x < os[|os| - 1].due <==> InSomeWindow(activation, os, x)
    ensures forall i, j :: 0 <= i < j < |os| ==> !(InWindowOf(activation, os[i], x) && InWindowOf(activation, os[j], x))
  {
    if Greatest(activation, os[0].previousDue) <= x < os[|os| - 1].due {
      var k := WindowsCover(activation, os, x);
    }
    if InSomeWindow(activation, os, x) {
      var k :| 0 <= k < |os| && InWindowOf(activation, os[k], x);
      DuesRise(os, k, |os| - 1);
      DuesRise(os, 0, k);
    }
    forall i, j | 0 <= i < j < |os|
      ensures !(InWindowOf(activation, os[i], x) && InWindowOf(activation, os[j], x))
    {
      WindowsAreDisjoint(activation, os, i, j, x);
    }
  }
}

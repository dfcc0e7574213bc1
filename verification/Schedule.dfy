/** Schedule occurrences and the windows they fan out. */
module Schedule {
  import opened Schema
  import opened Order
  import opened Reports
  import opened Coordinator

  const DAY: int := 86_400
  const WEEK: int := 604_800

  function Greatest(a: int, b: int): int { if a >= b then a else b }

  /** `normalized_window`: the start; the end is `end`. */
  function WindowStart(scheduled: bool, activation: Instant, previous: Option<Instant>, end: Instant): Instant {
    Greatest(activation,
             if scheduled then Greatest(if previous.Some? then previous.value else end - WEEK, end - WEEK)
             else end - DAY)
  }

  datatype Occurrence = Occurrence(
    message: Uuid, key: string, previousDue: Instant, due: Instant, operation: Uuid, owner: Uuid)

  /** The owners with an active subscription first activated before the due instant. */
  function OwnersBefore(subscriptions: map<SubscriptionKey, Subscription>, due: Instant): set<Uuid> {
    set k | k in subscriptions && subscriptions[k].enabled && subscriptions[k].firstActivated < due :: k.owner
  }

  function Activations(subscriptions: map<SubscriptionKey, Subscription>, owner: Uuid, due: Instant): set<Rank> {
    set k | k in subscriptions && subscriptions[k].enabled && subscriptions[k].firstActivated < due && k.owner == owner
      :: Rank(subscriptions[k].firstActivated, 0, 0, 0)
  }

  /** `min(first_activated_at)` of the owner's active subscriptions before the due instant. */
  function EarliestActivation(subscriptions: map<SubscriptionKey, Subscription>, owner: Uuid,
      due: Instant): (m: Instant)
    requires owner in OwnersBefore(subscriptions, due)
    ensures m < due
  {
    ActivationExists(subscriptions, owner, due);
    Least(Activations(subscriptions, owner, due)).a
  }

  lemma {:induction false} ActivationExists(subscriptions: map<SubscriptionKey, Subscription>, owner: Uuid,
      due: Instant)
    requires owner in OwnersBefore(subscriptions, due)
    ensures Activations(subscriptions, owner, due) != {}
  {
    var k :| k in subscriptions && subscriptions[k].enabled
      && subscriptions[k].firstActivated < due && k.owner == owner;
    assert Rank(subscriptions[k].firstActivated, 0, 0, 0) in Activations(subscriptions, owner, due);
  }

  function FannedWindowStart(subscriptions: map<SubscriptionKey, Subscription>, owner: Uuid, o: Occurrence): Instant
    requires owner in OwnersBefore(subscriptions, o.due)
  {
    WindowStart(true, EarliestActivation(subscriptions, owner, o.due), Some(o.previousDue), o.due)
  }

  predicate ScheduledRunExists(runs: map<Uuid, Run>, owner: Uuid, key: string, start: Instant, end: Instant) {
    exists r :: r in runs && runs[r].owner == owner && runs[r].trigger.Scheduled? && runs[r].key == key
      && runs[r].start == start && runs[r].end == end
  }

  /** The owners in the order of the query. */
  function OwnerOrder(subscriptions: map<SubscriptionKey, Subscription>, due: Instant): (owners: seq<Uuid>)
    ensures forall x :: x in owners <==> x in OwnersBefore(subscriptions, due)
  {
    Listing(OwnersBefore(subscriptions, due))
  }

  /** `fan_out` over the first `n` owners: `None` when a statement violates a constraint. */
  function FanOut(subscriptions: map<SubscriptionKey, Subscription>, runs: map<Uuid, Run>, o: Occurrence,
      owners: seq<Uuid>, n: nat, newIds: seq<Uuid>, now: Instant): Option<map<Uuid, Run>>
    requires n <= |owners| && forall x :: x in owners ==> x in OwnersBefore(subscriptions, o.due)
  {
    if n == 0 then Some(runs) else
      var before := FanOut(subscriptions, runs, o, owners, n - 1, newIds, now);
      if before.None? then None
      else FanOutOne(before.value, o, owners[n - 1], FannedWindowStart(subscriptions, owners[n - 1], o),
                     if n <= |newIds| then Some(newIds[n - 1]) else None, now)
  }

  /** One insertion: a repeated natural key is skipped, an empty window or a taken identity refused. */
  function FanOutOne(runs: map<Uuid, Run>, o: Occurrence, owner: Uuid, start: Instant, newId: Option<Uuid>,
      now: Instant):
    Option<map<Uuid, Run>>
  {
    if start >= o.due then None
    else if ScheduledRunExists(runs, owner, o.key, start, o.due) then Some(runs)
    else if newId.None? || newId.value in runs then None
    else
      var run := Run(owner, o.operation, Scheduled, o.key, start, o.due, Accepted, None, false, now, now);
      Some(runs[newId.value := run])
  }

  /** The whole fan-out. */
  function FanOutAll(subscriptions: map<SubscriptionKey, Subscription>, runs: map<Uuid, Run>, o: Occurrence,
      newIds: seq<Uuid>, now: Instant): Option<map<Uuid, Run>>
  {
    var owners := OwnerOrder(subscriptions, o.due);
    FanOut(subscriptions, runs, o, owners, |owners|, newIds, now)
  }

  const OCCURRENCE_PREFIX := "schedule-occurrence:"

  function OccurrenceDecision(o: Occurrence): Decision {
    Decision(OccurrenceCommand, Named(o.key))
  }

  /** `accept_occurrence`. */
  function AcceptOccurrence(t: Tables, o: Occurrence, newIds: seq<Uuid>, now: Instant): (Tables, Reply) {
    var decision := OccurrenceDecision(o);
    if !(OCCURRENCE_PREFIX <= o.key) then (t, InvalidReply)
    else if Decided(t, o.message, decision) then (t, Replayed)
    else
      var runs := FanOutAll(t.subscriptions, t.runs, o, newIds, now);
      if runs.None? then (t, StorageReply)
      else
        (t.(runs := runs.value,
            outbox := Enqueue(t.outbox, ReportOf(o.operation, Succeeded), PlainReport(o.owner, "fanned_out")),
            inbox := t.inbox[decision := InboxRow(o.message, Handled, None)]),
         Applied)
  }
}

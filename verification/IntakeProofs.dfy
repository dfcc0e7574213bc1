/** What a command does, told on the rows it leaves. */
module IntakeSpec {
  import opened Schema
  import opened Intake
  import opened Executor
  import opened StoredSpec

  predicate HasName(channels: Channels, c: Uuid, name: string) {
    c in channels && channels[c].username == name
  }

  /** The owner already watches the channel of the name. */
  predicate WatchesName(t: Tables, owner: Uuid, name: string) {
    exists c :: c in Watched(t.subscriptions, owner) && HasName(t.channels, c, name)
  }

  /** The decision is recorded under the message, and no other decision changed. */
  predicate Records(t: Tables, t': Tables, decision: Decision, message: Uuid, state: InboxState,
      failure: Option<FailureClass>) {
    && decision !in t.inbox && t'.inbox.Keys == t.inbox.Keys + {decision}
    && t'.inbox[decision].message == message && t'.inbox[decision].state == state
    && t'.inbox[decision].failure == failure
    && forall d :: d in t.inbox ==> t'.inbox[d] == t.inbox[d]
  }

  /** The operation has its report: the one queued now, unless one of the status was there. */
  predicate Announces(t: Tables, t': Tables, operation: Uuid, status: OperationStatus, owner: Uuid, stage: string,
      error: Option<FailureClass>) {
    var k := ReportOf(operation, status);
    && k in t'.outbox && t'.outbox.Keys == t.outbox.Keys + {k}
    && (forall x :: x in t.outbox ==> t'.outbox[x] == t.outbox[x])
    && (k !in t.outbox ==> t'.outbox[k].Report? && Tells(t'.outbox[k], owner, stage, error))
  }

  predicate Tells(row: OutboxRow, owner: Uuid, stage: string, error: Option<FailureClass>)
    requires row.Report?
  {
    row.owner == owner && row.stage == stage && row.error == error && !row.retryable && row.warnings == {}
    && row.result.None?
  }

  /** Afterwards the owner watches the channel of the name exactly when asked to, and every other channel, and every
      other owner, as before. Rows stay but for the one updated or added, which carries the instant. */
  ghost predicate SubscriptionIsSet(channels: Channels, before: Subscriptions, channels': Channels,
      after: Subscriptions, owner: Uuid, name: string, active: bool, now: Instant) {
    && (exists c :: c in channels' && HasName(channels', c, name))
    && (forall c :: HasName(channels', c, name) ==> (c in Watched(after, owner) <==> active))
    && (forall o: Uuid, c: Uuid :: o != owner || !HasName(channels', c, name) ==>
         (c in Watched(after, o) <==> c in Watched(before, o)))
    && (forall k :: k in before ==> k in after && after[k].firstActivated == before[k].firstActivated)
    && (forall k :: k in after && k !in before ==> after[k].firstActivated == now)
    && (forall k :: k in after ==>
         if k.owner == owner && HasName(channels', k.channel, name) then after[k].updated == now
         else k in before && after[k] == before[k])
    && (forall c :: c in channels ==> c in channels' && channels'[c] == channels[c])
    && (forall c :: c in channels' && c !in channels ==> HasName(channels', c, name) && channels'[c].displayName.None?)
  }

  /** The run has the columns of the command. */
  predicate IsRunOf(run: Run, c: RunRequest) {
    run.owner == c.owner && run.trigger == c.trigger && run.key == c.key && run.start == c.start && run.end == c.end
  }

  /** The run as the command creates it. */
  predicate IsNewRunOf(run: Run, c: RunRequest, now: Instant) {
    && IsRunOf(run, c) && run.operation == c.operation && run.state.Accepted? && run.failure.None? && !run.incomplete
    && run.created == now && run.updated == now
  }

  /** Another run has the owner, trigger, key and window of the command. */
  predicate KeyTaken(runs: map<Uuid, Run>, c: RunRequest) {
    && (c.run in runs ==> !IsRunOf(runs[c.run], c))
    && exists r :: r in runs && IsRunOf(runs[r], c)
  }
}

/** Which commands take effect, and what it is. */
module IntakeProofs {
  import opened Schema
  import opened Coordinator
  import opened Intake
  import opened Schedule
  import opened Executor
  import opened StoredSpec
  import opened StoredWrites
  import opened IntakeSpec

  // ---------------------------------------------------------------- subscriptions

  lemma {:induction false} WatchedAfter(subscriptions: Subscriptions, key: SubscriptionKey, row: Subscription,
      owner: Uuid, c: Uuid)
    ensures c in Watched(subscriptions[key := row], owner) <==>
      if key == SubscriptionKey(owner, c) then row.enabled else c in Watched(subscriptions, owner)
  {
    var after := subscriptions[key := row];
    var k := SubscriptionKey(owner, c);
    assert c in Watched(after, owner) <==> k in after && after[k].enabled;
    assert c in Watched(subscriptions, owner) <==> k in subscriptions && subscriptions[k].enabled;
  }

  /** A change switches exactly the asked subscription to what was asked. */
  lemma {:induction false} SubscriptionTakesEffect(channels: Channels, held: Subscriptions, newSubscription: Uuid,
      newChannel: Uuid, owner: Uuid, username: string, active: bool, now: Instant)
    requires ChannelsOk(channels) && forall k :: k in held ==> k.channel in channels
    requires SetSubscription(channels, held, newSubscription, newChannel, owner, username, active, now).Changed?
    ensures var c := SetSubscription(channels, held, newSubscription, newChannel, owner, username, active, now);
      SubscriptionIsSet(channels, held, c.channels, c.subscriptions, owner, LowerAll(username), active, now)
  {
    var c := SetSubscription(channels, held, newSubscription, newChannel, owner, username, active, now);
    var name := LowerAll(username);
    var channel := if UsernameKnown(channels, name) then ChannelOf(channels, name) else newChannel;
    var key := SubscriptionKey(owner, channel);
    assert c.subscriptions == held[key := c.subscriptions[key]];
    assert HasName(c.channels, channel, name);
    assert forall x :: HasName(c.channels, x, name) ==> x == channel;
    forall o: Uuid, x: Uuid
      ensures x in Watched(c.subscriptions, o) <==>
        if key == SubscriptionKey(o, x) then c.subscriptions[key].enabled else x in Watched(held, o)
    {
      WatchedAfter(held, key, c.subscriptions[key], o, x);
    }
  }

  lemma {:induction false} WatchedActive(subscriptions: Subscriptions, owner: Uuid, c: Uuid)
    ensures c in Watched(subscriptions, owner) <==>
      SubscriptionKey(owner, c) in subscriptions && subscriptions[SubscriptionKey(owner, c)].enabled
  {
  }

  /** A change is refused exactly when it would activate a twenty-first subscription, and fails exactly when the
      identity drawn for a new channel is taken. */
  lemma {:induction false} LimitHoldsExactlyWhen(channels: Channels, held: Subscriptions, newSubscription: Uuid,
      newChannel: Uuid, owner: Uuid, username: string, active: bool, now: Instant)
    requires ChannelsOk(channels) && forall k :: k in held ==> k.channel in channels
    ensures var c := SetSubscription(channels, held, newSubscription, newChannel, owner, username, active, now);
      var name := LowerAll(username);
      && (c.StorageError? <==> newChannel in channels && forall x :: x in channels ==> !HasName(channels, x, name))
      && (c.LimitReached? <==>
           && !c.StorageError? && active && |Watched(held, owner)| >= 20
           && forall x :: x in Watched(held, owner) ==> !HasName(channels, x, name))
  {
    var name := LowerAll(username);
    WatchedSize(held, owner);
    if UsernameKnown(channels, name) {
      var channel := ChannelOf(channels, name);
      WatchedActive(held, owner, channel);
      assert HasName(channels, channel, name);
      assert forall x :: HasName(channels, x, name) ==> x == channel;
    } else {
      forall x | x in channels
        ensures !HasName(channels, x, name)
      {
      }
      assert newChannel !in channels ==> SubscriptionKey(owner, newChannel) !in held;
    }
  }

  /** What the first transaction of a subscription command answers; one that is not applied changes nothing. */
  lemma {:induction false} SubscriptionAnswers(t: Tables, c: SubscriptionRequest, newSubscription: Uuid,
      newChannel: Uuid, now: Instant)
    requires ChannelsOk(t.channels) && forall k :: k in t.subscriptions ==> k.channel in t.channels
    requires newChannel !in t.channels
    ensures var (t', step) := AcceptSubscription(t, c, newSubscription, newChannel, now);
      var decision := Decision(SubscriptionCommand, Named(c.key));
      && step == (
           if !c.valid then ToRefuse(Rejection(c.message, decision, c.operation, c.owner, CommandInvalid))
           else if Decided(t, c.message, decision) then Answered(Replayed)
           else if c.active && |Watched(t.subscriptions, c.owner)| >= 20
                   && !WatchesName(t, c.owner, LowerAll(c.username))
           then ToRefuse(Rejection(c.message, decision, c.operation, c.owner, SubscriptionLimit))
           else Answered(Applied))
      && (step != Answered(Applied) ==> t' == t)
  {
    LimitHoldsExactlyWhen(t.channels, t.subscriptions, newSubscription, newChannel, c.owner, c.username, c.active, now);
  }

  /** An applied subscription command is in effect, recorded and reported. */
  lemma {:induction false} SubscriptionApplies(t: Tables, c: SubscriptionRequest, newSubscription: Uuid,
      newChannel: Uuid, now: Instant)
    requires ChannelsOk(t.channels) && forall k :: k in t.subscriptions ==> k.channel in t.channels
    requires AcceptSubscription(t, c, newSubscription, newChannel, now).1 == Answered(Applied)
    ensures var t' := AcceptSubscription(t, c, newSubscription, newChannel, now).0;
      && SubscriptionIsSet(t.channels, t.subscriptions, t'.channels, t'.subscriptions, c.owner, LowerAll(c.username),
                           c.active, now)
      && Records(t, t', Decision(SubscriptionCommand, Named(c.key)), c.message, Handled, None)
      && Announces(t, t', c.operation, Succeeded, c.owner, "applied", None)
      && t' == t.(channels := t'.channels, subscriptions := t'.subscriptions, inbox := t'.inbox, outbox := t'.outbox)
  {
    SubscriptionTakesEffect(t.channels, t.subscriptions, newSubscription, newChannel, c.owner, c.username, c.active,
                            now);
  }

  // ---------------------------------------------------------------- runs

  lemma {:induction false} KeyIsTaken(runs: map<Uuid, Run>, c: RunRequest)
    ensures NaturalKeyUsed(runs, c) <==> exists r :: r in runs && IsRunOf(runs[r], c)
    ensures KeyTaken(runs, c) <==> !SelectsOwnRun(runs, c)
  {
    if r :| r in runs && IsRunOf(runs[r], c) {
      assert SameNaturalKey(runs[r], c);
    }
    if r :| r in runs && SameNaturalKey(runs[r], c) {
      assert IsRunOf(runs[r], c);
    }
  }

  /** What the first transaction of a run command answers: a command whose key belongs to another run is refused, one
      that repeats its own run only records its decision, and any other creates its run. */
  lemma {:induction false} RunAnswers(t: Tables, c: RunRequest, now: Instant)
    ensures var (t', step) := AcceptRun(t, c, now);
      var decision := Decision(RunCommand, Named(c.key));
      && step == (
           if !c.valid || (!Decided(t, c.message, decision) && KeyTaken(t.runs, c))
           then ToRefuse(Rejection(c.message, decision, c.operation, c.owner, CommandInvalid))
           else if Decided(t, c.message, decision) then Answered(Replayed)
           else if (c.run in t.runs || c.start >= c.end) && !(c.run in t.runs && IsRunOf(t.runs[c.run], c))
           then Answered(StorageReply)
           else Answered(Applied))
      && (step != Answered(Applied) ==> t' == t)
  {
    KeyIsTaken(t.runs, c);
  }

  /** An applied run command has its run, its decision and, on demand, its report. */
  lemma {:induction false} RunApplies(t: Tables, c: RunRequest, now: Instant)
    requires AcceptRun(t, c, now).1 == Answered(Applied)
    ensures var t' := AcceptRun(t, c, now).0;
      && (if c.run in t.runs then t'.runs == t.runs && IsRunOf(t.runs[c.run], c)
          else t'.runs.Keys == t.runs.Keys + {c.run} && IsNewRunOf(t'.runs[c.run], c, now)
               && forall r :: r in t.runs ==> t'.runs[r] == t.runs[r])
      && Records(t, t', Decision(RunCommand, Named(c.key)), c.message, Handled, None)
      && (if c.trigger.OnDemand? then Announces(t, t', c.operation, Queued, c.owner, "awaiting_acquisition", None)
          else t'.outbox == t.outbox)
      && t' == t.(runs := t'.runs, inbox := t'.inbox, outbox := t'.outbox)
  {
    KeyIsTaken(t.runs, c);
  }

  // ---------------------------------------------------------------- refusals

  /** A refusal is recorded once, with its reason, and reported as failed; whatever was decided before stays. */
  lemma {:induction false} RejectionIsRecorded(t: Tables, r: Rejection)
    ensures var (t', reply) := Reject(t, r);
      && reply == (if Decided(t, r.message, r.decision) then Replayed else Applied)
      && (reply == Replayed ==> t' == t)
      && (reply == Applied ==>
           && Records(t, t', r.decision, r.message, Refused, Some(r.reason))
           && Announces(t, t', r.operation, Failed, r.owner, "rejected", Some(r.reason))
           && t' == t.(inbox := t'.inbox, outbox := t'.outbox))
  {
  }

  // ---------------------------------------------------------------- occurrences

  /** An accepted occurrence records its decision and reports its own operation. */
  lemma {:induction false} OccurrenceIsRecorded(t: Tables, o: Occurrence, newIds: seq<Uuid>, now: Instant)
    ensures var (t', reply) := AcceptOccurrence(t, o, newIds, now);
      && (reply != Applied ==> t' == t)
      && (reply == Applied ==>
           && Records(t, t', Decision(OccurrenceCommand, Named(o.key)), o.message, Handled, None)
           && Announces(t, t', o.operation, Succeeded, o.owner, "fanned_out", None)
           && t' == t.(runs := t'.runs, inbox := t'.inbox, outbox := t'.outbox))
  {
  }
}

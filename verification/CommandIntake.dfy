/** Command intake, statement by statement: the first transaction, and the refusal in a second one. */
module CommandIntakes {
  import opened Schema
  import opened Reports
  import opened Databases
  import opened StoredSpec
  import C = Coordinator
  import I = Intake

  class CommandIntake {
    const db: Database

    constructor (db: Database)
      ensures this.db == db
    {
      this.db := db;
    }

    /** Records a refusal in its own transaction. */
    method Reject(r: I.Rejection) returns (reply: C.Reply)
      modifies db
      ensures db.Snapshot() == I.Reject(old(db.Snapshot()), r).0
      ensures reply == I.Reject(old(db.Snapshot()), r).1
    {
      if C.Decided(db.Snapshot(), r.message, r.decision) {
        return C.Replayed;
      }
      db.inbox := db.inbox[r.decision := InboxRow(r.message, Refused, Some(r.reason))];
      db.Enqueue(ReportOf(r.operation, Failed), ErrorReport(r.owner, "rejected", r.reason, false));
      reply := C.Applied;
    }

    // -------------------------------------------------------------- runs

    /** `create_digest_run`: the run of the natural key, inserted when there is none. */
    method CreateDigestRun(c: I.RunRequest, now: Instant) returns (own: Option<bool>)
      modifies db`runs
      ensures own.None? <==> !I.NaturalKeyUsed(old(db.runs), c) && (c.run in old(db.runs) || c.start >= c.end)
      ensures own.Some? ==> own.value == I.SelectsOwnRun(old(db.runs), c)
      ensures db.runs == if own.None? || I.NaturalKeyUsed(old(db.runs), c) then old(db.runs)
                         else old(db.runs)[c.run := I.NewRun(c, now)]
    {
      if I.NaturalKeyUsed(db.runs, c) {
        return Some(I.SelectsOwnRun(db.runs, c));
      }
      if c.run in db.runs || c.start >= c.end {
        return None;
      }
      db.runs := db.runs[c.run := I.NewRun(c, now)];
      own := Some(true);
    }

    /** The accepting transaction of a run command. */
    method TryAcceptRun(c: I.RunRequest, now: Instant) returns (step: I.IntakeStep)
      modifies db
      ensures db.Snapshot() == I.AcceptRun(old(db.Snapshot()), c, now).0
      ensures step == I.AcceptRun(old(db.Snapshot()), c, now).1
    {
      var decision := I.RunDecision(c);
      var refusal := I.ToRefuse(I.Rejection(c.message, decision, c.operation, c.owner, CommandInvalid));
      if !c.valid {
        return refusal;
      }
      var saved := db.Snapshot();
      var inserted := db.InsertDecision(c.message, decision);
      if !inserted {
        return I.Answered(C.Replayed);
      }
      var own := CreateDigestRun(c, now);
      if own.None? {
        db.Rollback(saved);
        return I.Answered(C.StorageReply);
      }
      if !own.value {
        db.Rollback(saved);
        return refusal;
      }
      if c.trigger.OnDemand? {
        db.Enqueue(ReportOf(c.operation, Queued), PlainReport(c.owner, "awaiting_acquisition"));
      }
      db.CompleteDecision(decision);
      assert db.inbox == saved.inbox[decision := InboxRow(c.message, Handled, None)];
      step := I.Answered(C.Applied);
    }

    /** One delivery of a run command: a refusal goes through a second transaction. */
    method AcceptRun(c: I.RunRequest, now: Instant) returns (reply: C.Reply)
      modifies db
      ensures var (t, step) := I.AcceptRun(old(db.Snapshot()), c, now);
        if step.Answered? then db.Snapshot() == t && reply == step.reply
        else db.Snapshot() == I.Reject(t, step.rejection).0 && reply == I.Reject(t, step.rejection).1
    {
      var step := TryAcceptRun(c, now);
      if step.Answered? {
        return step.reply;
      }
      reply := Reject(step.rejection);
    }

    // -------------------------------------------------------------- subscriptions

    /** `set_subscription`; a change that fails leaves the tables to the rollback of its caller. */
    method SetSubscription(newSubscription: Uuid, newChannel: Uuid, owner: Uuid, username: string, active: bool,
        now: Instant)
      returns (failure: Option<bool>)
      requires ChannelsOk(db.channels)
      modifies db`channels, db`subscriptions
      ensures var change := I.SetSubscription(old(db.channels), old(db.subscriptions), newSubscription, newChannel,
                                              owner, username, active, now);
        && (failure == Some(false) <==> change.StorageError?)
        && (failure == Some(true) <==> change.LimitReached?)
        && (failure.None? ==> db.channels == change.channels && db.subscriptions == change.subscriptions)
    {
      var name := I.LowerAll(username);
      if !I.UsernameKnown(db.channels, name) {
        if newChannel in db.channels {
          return Some(false);
        }
        db.channels := db.channels[newChannel := Channel(name, None)];
        assert db.channels[newChannel].username == name;
      }
      var channel :| channel in db.channels && db.channels[channel].username == name;
      var key := SubscriptionKey(owner, channel);
      var full := |I.ActiveOf(db.subscriptions, owner)| >= I.ACTIVE_LIMIT;
      if key in db.subscriptions {
        if active && !db.subscriptions[key].enabled && full {
          return Some(true);
        }
        db.subscriptions := db.subscriptions[key := db.subscriptions[key].(enabled := active, updated := now)];
      } else {
        if active && full {
          return Some(true);
        }
        db.subscriptions := db.subscriptions[key := Subscription(newSubscription, now, active, now)];
      }
      failure := None;
    }

    /** The change and the report of its operation. */
    method ApplySubscription(c: I.SubscriptionRequest, newSubscription: Uuid, newChannel: Uuid, now: Instant)
      returns (failure: Option<bool>)
      requires ChannelsOk(db.channels)
      modifies db`channels, db`subscriptions, db`outbox
      ensures var change := I.SetSubscription(old(db.channels), old(db.subscriptions), newSubscription, newChannel,
                                              c.owner, c.username, c.active, now);
        && (failure == Some(false) <==> change.StorageError?)
        && (failure == Some(true) <==> change.LimitReached?)
        && (failure.None? ==> db.channels == change.channels && db.subscriptions == change.subscriptions)
      ensures db.outbox == if failure.Some? then old(db.outbox)
        else Enqueue(old(db.outbox), ReportOf(c.operation, Succeeded), PlainReport(c.owner, "applied"))
    {
      failure := SetSubscription(newSubscription, newChannel, c.owner, c.username, c.active, now);
      if failure.None? {
        db.Enqueue(ReportOf(c.operation, Succeeded), PlainReport(c.owner, "applied"));
      }
    }

    method TryAcceptSubscription(c: I.SubscriptionRequest, newSubscription: Uuid, newChannel: Uuid, now: Instant)
      returns (step: I.IntakeStep)
      requires ChannelsOk(db.channels)
      modifies db
      ensures db.Snapshot() == I.AcceptSubscription(old(db.Snapshot()), c, newSubscription, newChannel, now).0
      ensures step == I.AcceptSubscription(old(db.Snapshot()), c, newSubscription, newChannel, now).1
    {
      var decision := I.SubscriptionDecision(c);
      if !c.valid {
        return I.ToRefuse(I.Rejection(c.message, decision, c.operation, c.owner, CommandInvalid));
      }
      var saved := db.Snapshot();
      var inserted := db.InsertDecision(c.message, decision);
      if !inserted {
        return I.Answered(C.Replayed);
      }
      var failure := ApplySubscription(c, newSubscription, newChannel, now);
      if failure.Some? {
        db.Rollback(saved);
        return if failure.value
          then I.ToRefuse(I.Rejection(c.message, decision, c.operation, c.owner, SubscriptionLimit))
               else I.Answered(C.StorageReply);
      }
      db.CompleteDecision(decision);
      assert db.inbox == saved.inbox[decision := InboxRow(c.message, Handled, None)];
      step := I.Answered(C.Applied);
    }

    method AcceptSubscription(c: I.SubscriptionRequest, newSubscription: Uuid, newChannel: Uuid, now: Instant)
      returns (reply: C.Reply)
      requires ChannelsOk(db.channels)
      modifies db
      ensures var (t, step) := I.AcceptSubscription(old(db.Snapshot()), c, newSubscription, newChannel, now);
        if step.Answered? then db.Snapshot() == t && reply == step.reply
        else db.Snapshot() == I.Reject(t, step.rejection).0 && reply == I.Reject(t, step.rejection).1
    {
      var step := TryAcceptSubscription(c, newSubscription, newChannel, now);
      if step.Answered? {
        return step.reply;
      }
      reply := Reject(step.rejection);
    }
  }
}

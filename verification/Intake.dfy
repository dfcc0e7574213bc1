/** Command intake: the inbox decision, the domain effect and the report of one command. */
module Intake {
  import opened Schema
  import opened Reports
  import opened Coordinator

  datatype RunRequest = RunRequest(
    message: Uuid, owner: Uuid, operation: Uuid, trigger: Trigger, key: string, run: Uuid,
    start: Instant, end: Instant, valid: bool)

  datatype SubscriptionRequest = SubscriptionRequest(
    message: Uuid, owner: Uuid, operation: Uuid, key: string, username: string, active: bool, valid: bool)

  /** A refusal to be recorded in a transaction of its own. */
  datatype Rejection = Rejection(
    message: Uuid, decision: Decision, operation: Uuid, owner: Uuid, reason: FailureClass)

  /** A transaction either answers, or leaves a refusal to record. */
  datatype IntakeStep = Answered(reply: Reply) | ToRefuse(rejection: Rejection)

  function Reject(t: Tables, r: Rejection): (Tables, Reply) {
    if Decided(t, r.message, r.decision) then (t, Replayed)
    else
      (t.(inbox := t.inbox[r.decision := InboxRow(r.message, Refused, Some(r.reason))],
          outbox := Enqueue(t.outbox, ReportOf(r.operation, Failed),
                            ErrorReport(r.owner, "rejected", r.reason, false))),
       Applied)
  }

  // ---------------------------------------------------------------- runs

  predicate SameNaturalKey(run: Run, c: RunRequest) {
    run.owner == c.owner && run.trigger == c.trigger && run.key == c.key && run.start == c.start && run.end == c.end
  }

  predicate NaturalKeyUsed(runs: map<Uuid, Run>, c: RunRequest) {
    exists r :: r in runs && SameNaturalKey(runs[r], c)
  }

  /** `create_digest_run` answers with the run of the natural key; here, whether that is `c.run`. */
  predicate SelectsOwnRun(runs: map<Uuid, Run>, c: RunRequest) {
    NaturalKeyUsed(runs, c) ==> c.run in runs && SameNaturalKey(runs[c.run], c)
  }

  function RunDecision(c: RunRequest): Decision {
    Decision(RunCommand, Named(c.key))
  }

  function NewRun(c: RunRequest, now: Instant): Run {
    Run(c.owner, c.operation, c.trigger, c.key, c.start, c.end, Accepted, None, false, now, now)
  }

  function AcceptRun(t: Tables, c: RunRequest, now: Instant): (Tables, IntakeStep) {
    var decision := RunDecision(c);
    var refusal := ToRefuse(Rejection(c.message, decision, c.operation, c.owner, CommandInvalid));
    if !c.valid then (t, refusal)
    else if Decided(t, c.message, decision) then (t, Answered(Replayed))
    else if !NaturalKeyUsed(t.runs, c) && (c.run in t.runs || c.start >= c.end) then (t, Answered(StorageReply))
    else if !SelectsOwnRun(t.runs, c) then (t, refusal)
    else
      var runs := if NaturalKeyUsed(t.runs, c) then t.runs else t.runs[c.run := NewRun(c, now)];
      var outbox := if c.trigger.OnDemand?
        then Enqueue(t.outbox, ReportOf(c.operation, Queued), PlainReport(c.owner, "awaiting_acquisition"))
        else t.outbox;
      (t.(runs := runs, outbox := outbox, inbox := t.inbox[decision := InboxRow(c.message, Handled, None)]),
       Answered(Applied))
  }

  // ---------------------------------------------------------------- subscriptions

  const ACTIVE_LIMIT: nat := 20

  function Lower(c: char): char {
    if 'A' <= c <= 'Z' then ((c as int) + 32) as char else c
  }

  /** Capital ASCII letters become small ones; everything else stays. */
  function LowerAll(s: string): (r: string)
    ensures |r| == |s|
    ensures forall i :: 0 <= i < |s| ==>
      if 'A' <= s[i] <= 'Z' then 'a' <= r[i] <= 'z' && r[i] as int - 'a' as int == s[i] as int - 'A' as int
      else r[i] == s[i]
  {
    if s == [] then [] else [Lower(s[0])] + LowerAll(s[1..])
  }

  function ActiveOf(subscriptions: map<SubscriptionKey, Subscription>, owner: Uuid): set<SubscriptionKey> {
    set k | k in subscriptions && k.owner == owner && subscriptions[k].enabled
  }

  predicate UsernameKnown(channels: map<Uuid, Channel>, username: string) {
    exists c :: c in channels && channels[c].username == username
  }

  datatype SubscriptionChange =
    | LimitReached
    | StorageError
    | Changed(channels: map<Uuid, Channel>, subscriptions: map<SubscriptionKey, Subscription>)

  /** The channel row of a username, which is unique. */
  ghost function ChannelOf(channels: map<Uuid, Channel>, username: string): (c: Uuid)
    requires UsernameKnown(channels, username)
    ensures c in channels && channels[c].username == username
  {
    var c :| c in channels && channels[c].username == username;
    c
  }

  /** `set_subscription`. */
  ghost function SetSubscription(known: map<Uuid, Channel>, held: map<SubscriptionKey, Subscription>,
      newSubscription: Uuid, newChannel: Uuid, owner: Uuid, username: string, active: bool,
      now: Instant): SubscriptionChange
  {
    var name := LowerAll(username);
    if !UsernameKnown(known, name) && newChannel in known then StorageError else
    var channels := if UsernameKnown(known, name) then known else known[newChannel := Channel(name, None)];
    var channel := if UsernameKnown(known, name) then ChannelOf(known, name) else newChannel;
    var key := SubscriptionKey(owner, channel);
    var full := |ActiveOf(held, owner)| >= ACTIVE_LIMIT;
    if key in held then
      if active && !held[key].enabled && full then LimitReached
      else Changed(channels, held[key := held[key].(enabled := active, updated := now)])
    else if active && full then LimitReached
    else Changed(channels, held[key := Subscription(newSubscription, now, active, now)])
  }

  function SubscriptionDecision(c: SubscriptionRequest): Decision {
    Decision(SubscriptionCommand, Named(c.key))
  }

  ghost function AcceptSubscription(t: Tables, c: SubscriptionRequest, newSubscription: Uuid, newChannel: Uuid,
      now: Instant): (Tables, IntakeStep)
  {
    var decision := SubscriptionDecision(c);
    if !c.valid then (t, ToRefuse(Rejection(c.message, decision, c.operation, c.owner, CommandInvalid)))
    else if Decided(t, c.message, decision) then (t, Answered(Replayed))
    else
      var change := SetSubscription(t.channels, t.subscriptions, newSubscription, newChannel, c.owner, c.username,
                                    c.active, now);
      if change.StorageError? then (t, Answered(StorageReply))
      else if change.LimitReached? then
        (t, ToRefuse(Rejection(c.message, decision, c.operation, c.owner, SubscriptionLimit)))
      else
        (t.(channels := change.channels, subscriptions := change.subscriptions,
            outbox := Enqueue(t.outbox, ReportOf(c.operation, Succeeded), PlainReport(c.owner, "applied")),
            inbox := t.inbox[decision := InboxRow(c.message, Handled, None)]),
         Answered(Applied))
  }
}

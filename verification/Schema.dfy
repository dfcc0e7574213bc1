/** The tables of the `channel_digests` schema, as values.

    A table is a map from its unique key to the row, so a uniqueness constraint of the schema holds
    by the type; constraints over other columns are stated where they are used. Instants are whole
    seconds, identities are integers compared as the database compares them, and a digest is an
    injective constructor over what it digests. */
module Schema {

  type Uuid = int
  type Instant = int

  const I64_MIN := -0x8000_0000_0000_0000
  const I64_MAX := 0x7fff_ffff_ffff_ffff
  type MessageId = x: int | I64_MIN <= x <= I64_MAX

  newtype Byte = x: int | 0 <= x < 256
  type Body = seq<Byte>

  datatype Option<+T> = None | Some(value: T)

  // ---------------------------------------------------------------- posts

  datatype BodyDigest = Sha256(of: Body)

  /** `https://t.me/{username}/{message}`. */
  datatype Link = TelegramLink(username: string, message: MessageId)

  datatype Message = Message(channel: Uuid, id: MessageId)

  datatype RevisionKey = RevisionKey(channel: Uuid, message: MessageId, digest: BodyDigest)
  {
    function Of(): Message { Message(channel, message) }
  }

  datatype Revision = Revision(
    id: Uuid,
    body: Option<Body>,
    link: Link,
    published: Instant,
    observed: Instant,
    deleted: Option<Instant>,
    minimized: Option<Instant>)

  // ---------------------------------------------------------------- channels and subscriptions

  datatype Channel = Channel(username: string, displayName: Option<string>)

  datatype SubscriptionKey = SubscriptionKey(owner: Uuid, channel: Uuid)

  datatype Subscription = Subscription(id: Uuid, firstActivated: Instant, enabled: bool, updated: Instant)

  // ---------------------------------------------------------------- acquisition leases

  datatype Mark = FloodWait | ProviderUnavailable | PageCommitted | PageLimit | Completed

  datatype LeaseKey = LeaseKey(run: Uuid, channel: Uuid)

  datatype Checkpoint = Checkpoint(
    before: Option<MessageId>, pages: nat, revisions: nat, mark: Mark, expires: Instant)

  // ---------------------------------------------------------------- runs, manifests, results

  datatype Trigger = OnDemand | Scheduled

  datatype RunState = Accepted | Acquiring | WaitingRecap | RunCompleted | RunPartial | RunFailed
  {
    predicate Open() { Accepted? || Acquiring? || WaitingRecap? }
    predicate Settled() { !Open() }
  }

  datatype FailureClass =
    | ProviderDown
    | ManifestInvalid
    | DeadlineExceeded
    | RecapFailed(code: RecapFailure)
    | SubscriptionLimit
    | CommandInvalid

  datatype RecapFailure =
    | ManifestUnavailable | ManifestIntegrity | UnsupportedLanguage | ContextBudget
    | RecapProviderUnavailable | RecapProviderTimeout | InvalidOutput | CostBudget | Cancelled

  datatype Run = Run(
    owner: Uuid,
    operation: Uuid,
    trigger: Trigger,
    key: string,
    start: Instant,
    end: Instant,
    state: RunState,
    failure: Option<FailureClass>,
    incomplete: bool,
    created: Instant,
    updated: Instant)

  /** One source of the contract manifest. */
  datatype ContractSource = ContractSource(
    revision: Uuid,
    channel: Uuid,
    channelLabel: string,
    message: MessageId,
    published: Instant,
    content: Body,
    digest: BodyDigest,
    link: Link,
    index: nat)

  datatype ManifestValue = ManifestValue(
    manifest: Uuid, owner: Uuid, run: Uuid, start: Instant, end: Instant, sources: seq<ContractSource>)

  /** The canonical text of a manifest, an injective rendering of its value. */
  datatype Text = Canonical(of: ManifestValue)

  datatype TextDigest = Sha256Hex(of: Text)

  datatype Manifest = Manifest(
    id: Uuid,
    owner: Uuid,
    sha: TextDigest,
    sourceCount: nat,
    channelCount: nat,
    text: Option<Text>,
    minimized: Option<Instant>,
    messages: set<Message>)

  datatype Result = Result(
    id: Uuid,
    manifest: Uuid,
    owner: Uuid,
    outcome: RunState,
    recap: Option<Uuid>,
    digest: Option<string>,
    citations: nat,
    failure: Option<FailureClass>)

  // ---------------------------------------------------------------- inbox and outbox

  datatype Subject =
    | SubscriptionCommand | RunCommand | OccurrenceCommand | RecapCompletedEvent | RecapFailedEvent

  datatype SemanticKey =
    | Named(key: string)
    | InvalidCommand(message: Uuid)
    | OfResult(result: Uuid)
    | OfRun(run: Uuid)

  datatype Decision = Decision(subject: Subject, key: SemanticKey)

  datatype InboxState = Processing | Handled | Refused

  datatype InboxRow = InboxRow(message: Uuid, state: InboxState, failure: Option<FailureClass>)

  datatype OperationStatus = Queued | Running | Succeeded | PartiallySucceeded | Failed
  {
    predicate Terminal() { Succeeded? || PartiallySucceeded? || Failed? }
  }

  datatype Warning = ContextOmitted | AcquisitionIncomplete

  datatype OutboxKey =
    | ReportOf(operation: Uuid, status: OperationStatus)
    | RecapRequestOf(run: Uuid)

  datatype OutboxRow =
    | Report(owner: Uuid, stage: string, error: Option<FailureClass>, retryable: bool,
             warnings: set<Warning>, result: Option<Uuid>)
    | RecapRequest(requester: Uuid, operation: Uuid, manifest: Uuid, sha: TextDigest,
                   sources: nat, channels: nat)

  // ---------------------------------------------------------------- the database

  /** Manifests and results carry a unique `run_id` and are keyed by it. */
  datatype Tables = Tables(
    channels: map<Uuid, Channel>,
    subscriptions: map<SubscriptionKey, Subscription>,
    revisions: map<RevisionKey, Revision>,
    leases: map<LeaseKey, Checkpoint>,
    runs: map<Uuid, Run>,
    manifests: map<Uuid, Manifest>,
    results: map<Uuid, Result>,
    inbox: map<Decision, InboxRow>,
    outbox: map<OutboxKey, OutboxRow>)

  function Min(a: int, b: int): (m: int)
    ensures m <= a && m <= b && (m == a || m == b)
  {
    if a < b then a else b
  }
}

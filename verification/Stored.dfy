/** What every reachable state keeps of the stored texts and subscriptions. */
module StoredSpec {
  import opened Schema
  import opened Provider
  import opened Revisions
  import opened ManifestBuilder
  import opened Selection
  import opened Intake
  import opened Executor

  type Channels = map<Uuid, Channel>
  type Subscriptions = map<SubscriptionKey, Subscription>

  /** A row holds the body of its digest until it is minimized, a withdrawn row holds none, and its link
      names its channel and message. */
  predicate RowOk(channels: Channels, k: RevisionKey, row: Revision) {
    && row.body == (if row.minimized.None? then Some(k.digest.of) else None)
    && (row.deleted.Some? ==> row.body.None?)
    && 0 < |k.digest.of| <= MAX_CONTENT_BYTES
    && k.channel in channels && row.link == TelegramLink(channels[k.channel].username, k.message)
  }

  predicate RowsOk(channels: Channels, rows: Rows) {
    UniqueIds(rows) && forall k :: k in rows ==> RowOk(channels, k, rows[k])
  }

  /** The message has a revision that is not withdrawn. */
  predicate HasLive(rows: Rows, m: Message) {
    exists k :: k in rows && k.Of() == m && rows[k].deleted.None?
  }

  /** Text and minimization exclude each other, and a manifest with its text cites live messages only. */
  predicate ManifestOk(rows: Rows, m: Manifest) {
    && (m.text.Some? <==> m.minimized.None?)
    && (m.text.Some? ==> forall x :: x in m.messages ==> HasLive(rows, x))
  }

  predicate ManifestsOk(rows: Rows, manifests: Manifests) {
    && (forall r :: r in manifests ==> ManifestOk(rows, manifests[r]))
    && UniqueManifests(manifests)
  }

  predicate UniqueManifests(manifests: Manifests) {
    forall a, b :: a in manifests && b in manifests && manifests[a].id == manifests[b].id ==> a == b
  }

  predicate UniqueResults(results: map<Uuid, Result>) {
    forall a, b :: a in results && b in results && results[a].id == results[b].id ==> a == b
  }

  predicate ChannelsOk(channels: Channels) {
    forall a, b :: a in channels && b in channels && channels[a].username == channels[b].username ==> a == b
  }

  /** At most twenty active subscriptions an owner. */
  ghost predicate SubscriptionsOk(channels: Channels, subscriptions: Subscriptions) {
    && (forall k :: k in subscriptions ==> k.channel in channels)
    && (forall owner: Uuid :: |ActiveOf(subscriptions, owner)| <= ACTIVE_LIMIT)
  }

  /** Nothing the builder itself checks refuses these sources. */
  predicate SourcesFit(p: Pending, sources: seq<ManifestSource>) {
    && |sources| <= MAX_SOURCES && |ChannelsOf(sources)| <= MAX_CHANNELS
    && forall i :: 0 <= i < |sources| ==> ContractOf(sources[i]).Ok? && p.start <= sources[i].published < p.end
  }

  predicate SourcesLive(rows: Rows, sources: seq<ManifestSource>) {
    forall i :: 0 <= i < |sources| ==> HasLive(rows, Message(sources[i].channel, sources[i].message))
  }

  predicate QueueNamed(channels: Channels, queue: seq<Listed>) {
    forall i :: 0 <= i < |queue| ==>
      queue[i].channel in channels && channels[queue[i].channel].username == queue[i].username
  }

  /** What the executor read is still true: only it withdraws. */
  predicate ExecStored(t: Tables, x: Exec) {
    match x
    case Walking(_, queue, _, _, _, _, _) => QueueNamed(t.channels, queue)
    case Chose(p, sources, _) => SourcesFit(p, sources) && SourcesLive(t.revisions, sources)
    case Recorded(p, sources, _) => SourcesFit(p, sources) && SourcesLive(t.revisions, sources)
    case _ => true
  }

  ghost predicate StoredInv(t: Tables) {
    && RowsOk(t.channels, t.revisions)
    && ManifestsOk(t.revisions, t.manifests)
    && ChannelsOk(t.channels)
    && SubscriptionsOk(t.channels, t.subscriptions)
    && UniqueResults(t.results)
  }

  // ---------------------------------------------------------------- kinds of change

  /** A body or text never comes back, and a withdrawal or minimization is written once. */
  predicate RowStays(row: Revision, row': Revision) {
    && row' == row.(body := row'.body, deleted := row'.deleted, minimized := row'.minimized)
    && (row.body.None? ==> row'.body.None?)
    && (row.deleted.Some? ==> row'.deleted == row.deleted)
    && (row.minimized.Some? ==> row'.minimized == row.minimized)
  }

  predicate RowsStay(rows: Rows, rows': Rows) {
    forall k :: k in rows ==> k in rows' && RowStays(rows[k], rows'[k])
  }

  predicate TextStays(m: Manifest, m': Manifest) {
    && (m'.text.Some? ==> m'.text == m.text)
    && (m.minimized.Some? ==> m'.minimized == m.minimized)
  }

  predicate TextsStay(manifests: Manifests, manifests': Manifests) {
    forall r :: r in manifests ==> r in manifests' && TextStays(manifests[r], manifests'[r])
  }

  predicate NamesStay(channels: Channels, channels': Channels) {
    forall c :: c in channels ==> c in channels' && channels'[c] == channels[c]
  }

  predicate ActivationStays(s: Subscription, s': Subscription) {
    s'.id == s.id && s'.firstActivated == s.firstActivated
  }

  predicate ActivationsStay(subscriptions: Subscriptions, subscriptions': Subscriptions) {
    forall k :: k in subscriptions ==> k in subscriptions' && ActivationStays(subscriptions[k], subscriptions'[k])
  }

  predicate StoredStays(t: Tables, t': Tables) {
    && RowsStay(t.revisions, t'.revisions) && TextsStay(t.manifests, t'.manifests)
    && NamesStay(t.channels, t'.channels) && ActivationsStay(t.subscriptions, t'.subscriptions)
  }

  /** A step kept the stored texts in order and the executor's reading of them right. */
  ghost predicate Kept(t: Tables, t': Tables, x': Exec) {
    StoredInv(t') && StoredStays(t, t') && ExecStored(t', x')
  }

  /** Texts, leases and results are as they were. */
  predicate SameTexts(t: Tables, t': Tables) {
    t' == t.(runs := t'.runs, inbox := t'.inbox, outbox := t'.outbox)
  }

  /** No message loses its live revision. */
  predicate LiveStays(rows: Rows, rows': Rows) {
    forall k :: k in rows ==> k in rows' && (rows[k].deleted.None? ==> rows'[k].deleted.None?)
  }
}

/** Each write to the stored texts and subscriptions keeps them in order. */
module StoredWrites {
  import opened Schema
  import opened Order
  import opened Provider
  import opened Revisions
  import opened ManifestBuilder
  import opened ManifestProofs
  import opened Selection
  import opened SelectionProofs
  import opened Coordinator
  import opened Intake
  import opened Retention
  import opened Executor
  import opened StoredSpec

  // ---------------------------------------------------------------- rows

  lemma {:induction false} AppendOk(channels: Channels, rows: Rows, key: RevisionKey, newId: Uuid, seen: Observation)
    requires RowsOk(channels, rows) && Append(rows, key, newId, seen).Some?
    requires 0 < |key.digest.of| <= MAX_CONTENT_BYTES && key.channel in channels
    requires seen.link == TelegramLink(channels[key.channel].username, key.message)
    ensures var rows' := Append(rows, key, newId, seen).value;
      RowsOk(channels, rows') && RowsStay(rows, rows') && LiveStays(rows, rows')
  {
    var rows' := Append(rows, key, newId, seen).value;
    if key !in rows {
      assert RowOk(channels, key, rows'[key]);
      assert forall k :: k in rows ==> rows[k].id != newId;
    }
  }

  lemma {:induction false} LiveKept(rows: Rows, rows': Rows, m: Message)
    requires LiveStays(rows, rows') && HasLive(rows, m)
    ensures HasLive(rows', m)
  {
    var k :| k in rows && k.Of() == m && rows[k].deleted.None?;
    assert k in rows';
  }

  lemma {:induction false} ManifestsLiveKept(rows: Rows, rows': Rows, manifests: Manifests)
    requires LiveStays(rows, rows') && ManifestsOk(rows, manifests)
    ensures ManifestsOk(rows', manifests)
  {
    forall r, x | r in manifests && manifests[r].text.Some? && x in manifests[r].messages
      ensures HasLive(rows', x)
    {
      assert ManifestOk(rows, manifests[r]);
      LiveKept(rows, rows', x);
    }
  }

  lemma {:induction false} WithdrawRowsOk(channels: Channels, rows: Rows, channel: Uuid, gone: Absence, at: Instant)
    requires RowsOk(channels, rows)
    ensures var rows' := WithdrawRows(rows, channel, gone, at); RowsOk(channels, rows') && RowsStay(rows, rows')
  {
    var rows' := WithdrawRows(rows, channel, gone, at);
    forall k | k in rows
      ensures RowOk(channels, k, rows'[k]) && RowStays(rows[k], rows'[k]) && rows'[k].id == rows[k].id
    {
      assert RowOk(channels, k, rows[k]);
    }
  }

  /** A withdrawal takes the text of every manifest that cites a withdrawn message. */
  lemma {:induction false} WithdrawTextsOk(rows: Rows, manifests: Manifests, channel: Uuid, gone: Absence, at: Instant)
    requires ManifestsOk(rows, manifests)
    ensures var manifests' := WithdrawTexts(manifests, channel, gone, at);
      ManifestsOk(WithdrawRows(rows, channel, gone, at), manifests') && TextsStay(manifests, manifests')
  {
    var rows' := WithdrawRows(rows, channel, gone, at);
    var manifests' := WithdrawTexts(manifests, channel, gone, at);
    forall r | r in manifests
      ensures ManifestOk(rows', manifests'[r]) && TextStays(manifests[r], manifests'[r])
      ensures manifests'[r].id == manifests[r].id
    {
      assert ManifestOk(rows, manifests[r]);
      if manifests'[r].text.Some? {
        forall x | x in manifests[r].messages
          ensures HasLive(rows', x)
        {
          var k :| k in rows && k.Of() == x && rows[k].deleted.None?;
          assert !Hit(k, rows[k], channel, gone);
          assert rows'[k] == rows[k];
        }
      }
    }
  }

  lemma {:induction false} MinimizeBodiesOk(channels: Channels, rows: Rows, before: Instant, limit: nat, now: Instant)
    requires RowsOk(channels, rows)
    ensures var rows' := MinimizeBodies(rows, before, limit, now);
      RowsOk(channels, rows') && RowsStay(rows, rows') && LiveStays(rows, rows')
  {
    var rows' := MinimizeBodies(rows, before, limit, now);
    forall k | k in rows
      ensures RowOk(channels, k, rows'[k]) && RowStays(rows[k], rows'[k])
      ensures rows'[k].id == rows[k].id && rows'[k].deleted == rows[k].deleted
    {
      assert RowOk(channels, k, rows[k]);
    }
  }

  lemma {:induction false} MinimizeTextsOk(rows: Rows, runs: map<Uuid, Run>, manifests: Manifests, before: Instant,
      limit: nat, now: Instant)
    requires ManifestsOk(rows, manifests)
    ensures var manifests' := MinimizeTexts(runs, manifests, before, limit, now);
      ManifestsOk(rows, manifests') && TextsStay(manifests, manifests')
  {
    var manifests' := MinimizeTexts(runs, manifests, before, limit, now);
    forall r | r in manifests
      ensures ManifestOk(rows, manifests'[r]) && TextStays(manifests[r], manifests'[r])
      ensures manifests'[r].id == manifests[r].id
    {
      assert ManifestOk(rows, manifests[r]);
    }
  }

  // ---------------------------------------------------------------- manifests

  /** The messages of a built manifest are those of its sources. */
  lemma {:induction false} BuiltMessages(id: Uuid, p: Pending, sources: seq<ManifestSource>, windowOk: bool,
      accepts: ManifestValue -> bool)
    ensures var b := Build(id, p.owner, p.run, p.start, p.end, sources, windowOk, accepts);
      b.Ok? ==> (set x | x in b.value.messages) == MessagesOf(sources)
  {
    if Build(id, p.owner, p.run, p.start, p.end, sources, windowOk, accepts).Ok? {
      MessagesAreOfText(id, p.owner, p.run, p.start, p.end, sources, windowOk, accepts);
    }
  }

  lemma {:induction false} ManifestRowOk(rows: Rows, m: CanonicalManifest, sources: seq<ManifestSource>)
    requires SourcesLive(rows, sources) && (set x | x in m.messages) == MessagesOf(sources)
    ensures ManifestOk(rows, ManifestRow(m))
  {
    forall x | x in MessagesOf(sources)
      ensures HasLive(rows, x)
    {
      var s :| s in sources && x == Message(s.channel, s.message);
      var i :| 0 <= i < |sources| && sources[i] == s;
      assert HasLive(rows, Message(sources[i].channel, sources[i].message));
    }
  }

  lemma {:induction false} CommitManifestOk(t: Tables, m: CanonicalManifest, operation: Uuid, requestOk: bool,
      now: Instant)
    requires ManifestsOk(t.revisions, t.manifests) && ManifestOk(t.revisions, ManifestRow(m))
    ensures var t' := CommitManifest(t, m, operation, requestOk, now).0;
      && ManifestsOk(t'.revisions, t'.manifests) && TextsStay(t.manifests, t'.manifests)
      && t'.revisions == t.revisions && t'.channels == t.channels
      && t'.subscriptions == t.subscriptions && t'.results == t.results
  {
  }

  // ---------------------------------------------------------------- selection

  /** A selection from stored rows passes every check the builder itself makes. */
  lemma {:induction false} SelectionFits(t: Tables, p: Pending, limit: nat)
    requires StoredInv(t) && limit <= MAX_SOURCES
    ensures var sources := SelectSources(ViewOf(t, p), limit).sources;
      SourcesFit(p, sources) && SourcesLive(t.revisions, sources)
  {
    var v := ViewOf(t, p);
    var sources := SelectSources(v, limit).sources;
    var keys := SelectedKeys(v, limit);
    forall i | 0 <= i < |sources|
      ensures ContractOf(sources[i]).Ok? && p.start <= sources[i].published < p.end
      ensures HasLive(t.revisions, Message(sources[i].channel, sources[i].message))
      ensures sources[i].channel in v.watched
    {
      assert keys[i] in Candidates(v) && sources[i] == SourceOf(v, keys[i]);
      assert RowOk(t.channels, keys[i], t.revisions[keys[i]]);
    }
    WatchedSize(t.subscriptions, p.owner);
    assert ChannelsOf(sources) <= v.watched;
    SubsetSize(ChannelsOf(sources), v.watched);
  }

  /** An owner watches as many channels as active subscriptions, one each. */
  lemma {:induction false} WatchedSize(subscriptions: Subscriptions, owner: Uuid)
    ensures |Watched(subscriptions, owner)| == |ActiveOf(subscriptions, owner)|
  {
    var active := ActiveOf(subscriptions, owner);
    var pairs := map k | k in active :: k.channel;
    forall a, b | a in pairs && b in pairs && pairs[a] == pairs[b]
      ensures a == b
    {
    }
    forall c | c in Watched(subscriptions, owner)
      ensures exists k :: k in pairs && pairs[k] == c
    {
      var k :| k in subscriptions && k.owner == owner && subscriptions[k].enabled && k.channel == c;
      assert k in pairs;
    }
    SameSize(pairs, Watched(subscriptions, owner));
    assert pairs.Keys == active;
  }

  // ---------------------------------------------------------------- subscriptions

  lemma {:induction false} ActiveChange(subscriptions: Subscriptions, key: SubscriptionKey, row: Subscription,
      owner: Uuid)
    ensures var after := ActiveOf(subscriptions[key := row], owner);
      && (owner != key.owner ==> after == ActiveOf(subscriptions, owner))
      && (owner == key.owner && !row.enabled ==> after == ActiveOf(subscriptions, owner) - {key})
      && (owner == key.owner && row.enabled ==> after == ActiveOf(subscriptions, owner) + {key})
  {
  }

  /** A change keeps the bound: an activation that would exceed it is refused. */
  lemma {:induction false} SetSubscriptionOk(t: Tables, newSubscription: Uuid, newChannel: Uuid, owner: Uuid,
      username: string, active: bool, now: Instant)
    requires ChannelsOk(t.channels) && SubscriptionsOk(t.channels, t.subscriptions)
    requires SetSubscription(t.channels, t.subscriptions, newSubscription, newChannel, owner, username, active,
                             now).Changed?
    ensures var c := SetSubscription(t.channels, t.subscriptions, newSubscription, newChannel, owner, username, active,
                                     now);
      && ChannelsOk(c.channels) && SubscriptionsOk(c.channels, c.subscriptions)
      && NamesStay(t.channels, c.channels) && ActivationsStay(t.subscriptions, c.subscriptions)
  {
    var c := SetSubscription(t.channels, t.subscriptions, newSubscription, newChannel, owner, username, active, now);
    var name := LowerAll(username);
    var channel := if UsernameKnown(t.channels, name) then ChannelOf(t.channels, name) else newChannel;
    var key := SubscriptionKey(owner, channel);
    assert c.subscriptions == t.subscriptions[key := c.subscriptions[key]];
    assert c.subscriptions[key].enabled == active;
    assert active && key !in ActiveOf(t.subscriptions, owner) ==> |ActiveOf(t.subscriptions, owner)| < ACTIVE_LIMIT;
    assert ChannelsOk(c.channels) && NamesStay(t.channels, c.channels);
    forall o: Uuid
      ensures |ActiveOf(c.subscriptions, o)| <= ACTIVE_LIMIT
    {
      ActiveChange(t.subscriptions, key, c.subscriptions[key], o);
      assert |ActiveOf(t.subscriptions, o)| <= ACTIVE_LIMIT;
      if o == owner && !active {
        SubsetSize(ActiveOf(t.subscriptions, o) - {key}, ActiveOf(t.subscriptions, o));
      }
    }
  }
}

/** Every action keeps the stored texts and subscriptions in order. */
module StoredSteps {
  import opened Schema
  import opened Provider
  import opened Revisions
  import opened Reports
  import opened Coordinator
  import opened ManifestBuilder
  import opened Intake
  import opened Schedule
  import opened Retention
  import opened Reaper
  import opened Executor
  import opened Machine
  import opened StoredSpec
  import opened StoredWrites
  import W = Walk

  lemma {:induction false} SameTextsKept(t: Tables, t': Tables, x: Exec)
    requires StoredInv(t) && ExecStored(t, x) && SameTexts(t, t')
    ensures Kept(t, t', x)
  {
  }

  lemma {:induction false} SourcesLiveKept(rows: Rows, rows': Rows, sources: seq<ManifestSource>)
    requires LiveStays(rows, rows') && SourcesLive(rows, sources)
    ensures SourcesLive(rows', sources)
  {
    forall i | 0 <= i < |sources|
      ensures HasLive(rows', Message(sources[i].channel, sources[i].message))
    {
      LiveKept(rows, rows', Message(sources[i].channel, sources[i].message));
    }
  }

  /** Nobody but the executor makes a message lose its live revision, and no channel is renamed. */
  lemma {:induction false} ExecStoredAround(t: Tables, t': Tables, x: Exec)
    requires ExecStored(t, x) && LiveStays(t.revisions, t'.revisions) && NamesStay(t.channels, t'.channels)
    ensures ExecStored(t', x)
  {
    if x.Chose? || x.Recorded? {
      SourcesLiveKept(t.revisions, t'.revisions, x.sources);
    }
  }

  // ---------------------------------------------------------------- the walk

  lemma {:induction false} AppendStored(t: Tables, key: RevisionKey, newId: Uuid, seen: Observation)
    requires StoredInv(t) && Append(t.revisions, key, newId, seen).Some? && 0 < |key.digest.of| <= MAX_CONTENT_BYTES
    requires key.channel in t.channels && seen.link == TelegramLink(t.channels[key.channel].username, key.message)
    ensures var t' := t.(revisions := Append(t.revisions, key, newId, seen).value); StoredInv(t') && StoredStays(t, t')
  {
    AppendOk(t.channels, t.revisions, key, newId, seen);
    ManifestsLiveKept(t.revisions, Append(t.revisions, key, newId, seen).value, t.manifests);
  }

  lemma {:induction false} StorePostStored(t: Tables, req: W.Request, w: W.Walk, a: W.Answer)
    requires StoredInv(t) && w.Storing? && w.next < |w.page.posts|
    requires req.channel in t.channels && t.channels[req.channel].username == req.username
    ensures var t' := W.StorePost(t, req, w, a).0; StoredInv(t') && StoredStays(t, t') && t'.channels == t.channels
  {
    var t' := W.StorePost(t, req, w, a).0;
    var p := w.page.posts[w.next];
    if t' != t {
      var seen := Observation(TelegramLink(req.username, p.id), p.published.value, req.end);
      assert req.Wanted(p) && t' == t.(revisions := Append(t.revisions, req.Key(p), a.newId, seen).value);
      AppendStored(t, req.Key(p), a.newId, seen);
    }
  }

  lemma {:induction false} WithdrawStored(t: Tables, channel: Uuid, gone: Absence, at: Instant)
    requires StoredInv(t)
    ensures var t' := WithdrawMissing(t, channel, gone, at);
      StoredInv(t') && StoredStays(t, t') && t'.channels == t.channels
  {
    WithdrawRowsOk(t.channels, t.revisions, channel, gone, at);
    WithdrawTextsOk(t.revisions, t.manifests, channel, gone, at);
  }

  lemma {:induction false} WalkStored(t: Tables, req: W.Request, w: W.Walk, now: Instant, a: W.Answer)
    requires StoredInv(t) && req.channel in t.channels && t.channels[req.channel].username == req.username
    ensures var t' := W.Step(t, req, w, now, a).0; StoredInv(t') && StoredStays(t, t') && t'.channels == t.channels
  {
    if w.Storing? && w.next < |w.page.posts| {
      StorePostStored(t, req, w, a);
    } else if w.Withdrawing? && W.Proved(w.page, w.at.before).Some? {
      WithdrawStored(t, req.channel, W.AbsenceOf(w.page, W.Proved(w.page, w.at.before).value), now);
    } else {
      var t' := W.Step(t, req, w, now, a).0;
      assert t' == t.(leases := t'.leases);
    }
  }

  // ---------------------------------------------------------------- the executor

  lemma {:induction false} ReportTexts(t: Tables, run: Uuid, owner: Uuid, status: OperationStatus, row: OutboxRow)
    ensures var t' := ReportRun(t, run, owner, status, row); t' == t.(outbox := t'.outbox)
  {
  }

  lemma {:induction false} BeginTexts(t: Tables, p: Pending, now: Instant)
    ensures SameTexts(t, BeginAcquisition(t, p, now).0)
  {
    if p.run in t.runs && t.runs[p.run].state.Accepted? {
      ReportTexts(Move(t, p.run, Acquiring, now), p.run, p.owner, Running, PlainReport(p.owner, "acquiring"));
    }
  }

  lemma {:induction false} FailTexts(t: Tables, run: Uuid, owner: Uuid, failure: FailureClass, now: Instant)
    ensures SameTexts(t, FailRun(t, run, owner, failure, now).0)
  {
    if Owns(t.runs, run, owner) && Unsettled(t.runs[run].state) {
      ReportTexts(MoveFailed(t, run, failure, now), run, owner, Failed, FailureReport(owner, failure));
    }
  }

  lemma {:induction false} CompleteEmptyTexts(t: Tables, run: Uuid, owner: Uuid, now: Instant)
    ensures SameTexts(t, CompleteEmptyRun(t, run, owner, now).0)
  {
    if Owns(t.runs, run, owner) && Unsettled(t.runs[run].state) {
      ReportTexts(Move(t, run, RunCompleted, now), run, owner, Succeeded, PlainReport(owner, "no_sources"));
    }
  }

  lemma {:induction false} CommitStored(t: Tables, p: Pending, sources: seq<ManifestSource>, incomplete: bool, e: Event,
      now: Instant)
    requires StoredInv(t) && e.Commits? && ExecStored(t, Recorded(p, sources, incomplete))
    ensures Kept(t, Commit(t, p, sources, incomplete, e, now).0, Idle)
  {
    var t' := Commit(t, p, sources, incomplete, e, now).0;
    var built := Build(e.manifest, p.owner, p.run, p.start, p.end, sources, e.windowOk, _ => e.accepted);
    if sources == [] || built.Err? {
      FailTexts(t, p.run, p.owner, if sources == [] then ProviderDown else FailureClass.ManifestInvalid, now);
      CompleteEmptyTexts(t, p.run, p.owner, now);
      SameTextsKept(t, t', Idle);
    } else {
      BuiltMessages(e.manifest, p, sources, e.windowOk, _ => e.accepted);
      ManifestRowOk(t.revisions, built.value, sources);
      CommitManifestOk(t, built.value, p.operation, e.requestOk, now);
      assert t' == CommitManifest(t, built.value, p.operation, e.requestOk, now).0;
    }
  }

  lemma {:induction false} WalkingStored(t: Tables, x: Exec, now: Instant, e: Event, sourceCount: nat)
    requires StoredInv(t) && ExecStored(t, x) && x.Walking?
    ensures var (t', x') := ExecStep(t, x, now, e, sourceCount); Kept(t, t', x')
  {
    SameTextsKept(t, t, Idle);
    if !e.Dies? && x.i < |x.queue| && !x.walk.Done? && e.Hears? {
      WalkStored(t, RequestFor(x.p, x.queue[x.i]), x.walk, now, e.answer);
    }
  }

  /** The steps that move the run. */
  lemma {:induction false} MovingStored(t: Tables, x: Exec, now: Instant, e: Event, sourceCount: nat)
    requires StoredInv(t) && ExecStored(t, x) && !e.Dies? && (x.Chosen? || x.Failing? || x.Chose? || x.Recorded?)
    ensures var (t', x') := ExecStep(t, x, now, e, sourceCount); Kept(t, t', x')
  {
    SameTextsKept(t, t, x);
    match x
    case Chosen(p) =>
      BeginTexts(t, p, now);
      SameTextsKept(t, BeginAcquisition(t, p, now).0, Idle);
    case Failing(p) =>
      FailTexts(t, p.run, p.owner, ProviderDown, now);
      SameTextsKept(t, FailRun(t, p.run, p.owner, ProviderDown, now).0, Idle);
    case Chose(p, sources, incomplete) =>
      SameTextsKept(t, RecordAcquisition(t, p.run, incomplete), x);
    case Recorded(p, sources, incomplete) =>
      if e.Commits? {
        CommitStored(t, p, sources, incomplete, e, now);
      }
  }

  lemma {:induction false} ExecKeepsStored(t: Tables, x: Exec, now: Instant, e: Event, sourceCount: nat)
    requires StoredInv(t) && ExecStored(t, x) && sourceCount <= MAX_SOURCES
    ensures var (t', x') := ExecStep(t, x, now, e, sourceCount); Kept(t, t', x')
  {
    if x.Walking? {
      WalkingStored(t, x, now, e, sourceCount);
    } else if !e.Dies? && (x.Chosen? || x.Failing? || x.Chose? || x.Recorded?) {
      MovingStored(t, x, now, e, sourceCount);
    } else {
      SameTextsKept(t, t, Idle);
      if x.Ready? {
        SelectionFits(t, x.p, sourceCount);
      }
    }
  }

  // ---------------------------------------------------------------- everything else

  lemma {:induction false} NewResult(results: map<Uuid, Result>, run: Uuid, result: Result)
    requires UniqueResults(results) && !ResultIdUsed(results, result.id)
    ensures UniqueResults(results[run := result])
  {
  }

  lemma {:induction false} SettledKept(t: Tables, t': Tables, x: Exec)
    requires StoredInv(t) && ExecStored(t, x) && UniqueResults(t'.results)
    requires t' == t.(runs := t'.runs, results := t'.results, inbox := t'.inbox, outbox := t'.outbox)
    ensures Kept(t, t', x)
  {
  }

  lemma {:induction false} CompletionStored(t: Tables, x: Exec, f: Completion, i: bool, now: Instant)
    requires StoredInv(t) && ExecStored(t, x)
    ensures Kept(t, SettleCompletion(t, f, i, now).0, x)
  {
    var t' := SettleCompletion(t, f, i, now).0;
    if t' == t {
      SameTextsKept(t, t, x);
    } else {
      NewResult(t.results, f.run, CompletedResult(t, f, i));
      var settled := Move(t, f.run, OutcomeOf(f, i), now).(
        results := t.results[f.run := CompletedResult(t, f, i)],
        inbox := t.inbox[CompletionDecision(f) := InboxRow(f.message, Handled, None)]);
      ReportTexts(settled, f.run, f.owner, CompletionStatus(f, i), CompletionReport(f.owner, f, i));
      SettledKept(t, t', x);
    }
  }

  lemma {:induction false} FailureStored(t: Tables, x: Exec, f: RecapFailureFact, newId: Uuid, now: Instant)
    requires StoredInv(t) && ExecStored(t, x)
    ensures Kept(t, SettleFailure(t, f, newId, now).0, x)
  {
    var t' := SettleFailure(t, f, newId, now).0;
    if t' == t {
      SameTextsKept(t, t, x);
    } else {
      var result := Result(newId, t.manifests[f.run].id, f.owner, RunFailed, None, None, 0, Some(RecapFailed(f.code)));
      NewResult(t.results, f.run, result);
      var settled := MoveFailed(t, f.run, RecapFailed(f.code), now).(
        results := t.results[f.run := result],
        inbox := t.inbox[FailureDecision(f) := InboxRow(f.message, Handled, None)]);
      ReportTexts(settled, f.run, f.owner, Failed,
                  ErrorReport(f.owner, "recap", RecapFailed(f.code), Retryable(f.code)));
      SettledKept(t, t', x);
    }
  }

  lemma {:induction false} HandlersStored(s: State, a: Action)
    requires StoredInv(s.t) && ExecStored(s.t, s.x)
    requires a.CompletionLooksUp? || a.CompletionVerifies? || a.CompletionSettles? || a.FailureSettles?
    ensures Kept(s.t, HandlerStep(s, a).t, s.x)
  {
    var t' := HandlerStep(s, a).t;
    if t' != s.t {
      match (a, s.handlers[a.h])
      case (CompletionSettles(h), Verified(f, i)) =>
        CompletionStored(s.t, s.x, f, i, s.now);
      case (FailureSettles(h, newId), FailureChecked(f)) =>
        FailureStored(s.t, s.x, f, newId, s.now);
      case _ =>
    } else {
      SameTextsKept(s.t, t', s.x);
    }
  }

  lemma {:induction false} BodySweepStored(t: Tables, x: Exec, before: Instant, limit: nat, now: Instant)
    requires StoredInv(t) && ExecStored(t, x)
    ensures Kept(t, t.(revisions := MinimizeBodies(t.revisions, before, limit, now)), x)
  {
    var bodies := t.(revisions := MinimizeBodies(t.revisions, before, limit, now));
    MinimizeBodiesOk(t.channels, t.revisions, before, limit, now);
    ManifestsLiveKept(t.revisions, bodies.revisions, t.manifests);
    ExecStoredAround(t, bodies, x);
  }

  lemma {:induction false} TextSweepStored(t: Tables, x: Exec, before: Instant, limit: nat, now: Instant)
    requires StoredInv(t) && ExecStored(t, x)
    ensures Kept(t, t.(manifests := MinimizeTexts(t.runs, t.manifests, before, limit, now)), x)
  {
    MinimizeTextsOk(t.revisions, t.runs, t.manifests, before, limit, now);
    ExecStoredAround(t, t.(manifests := MinimizeTexts(t.runs, t.manifests, before, limit, now)), x);
  }

  lemma {:induction false} RowsUnderNames(channels: Channels, channels': Channels, rows: Rows)
    requires RowsOk(channels, rows) && NamesStay(channels, channels')
    ensures RowsOk(channels', rows)
  {
    forall k | k in rows
      ensures RowOk(channels', k, rows[k])
    {
      assert RowOk(channels, k, rows[k]);
    }
  }

  lemma {:induction false} SubscriptionStored(t: Tables, x: Exec, c: SubscriptionRequest, newSubscription: Uuid,
      newChannel: Uuid, now: Instant)
    requires StoredInv(t) && ExecStored(t, x)
    ensures Kept(t, AcceptSubscription(t, c, newSubscription, newChannel, now).0, x)
  {
    var t' := AcceptSubscription(t, c, newSubscription, newChannel, now).0;
    if t' == t {
      SameTextsKept(t, t, x);
    } else {
      SetSubscriptionOk(t, newSubscription, newChannel, c.owner, c.username, c.active, now);
      RowsUnderNames(t.channels, t'.channels, t.revisions);
      ExecStoredAround(t, t', x);
    }
  }

  lemma {:induction false} AcceptRunTexts(t: Tables, c: RunRequest, now: Instant)
    ensures SameTexts(t, AcceptRun(t, c, now).0)
  {
  }

  lemma {:induction false} RejectTexts(t: Tables, r: Rejection)
    ensures SameTexts(t, Reject(t, r).0)
  {
  }

  lemma {:induction false} OccurrenceTexts(t: Tables, o: Occurrence, ids: seq<Uuid>, now: Instant)
    ensures SameTexts(t, AcceptOccurrence(t, o, ids, now).0)
  {
  }

  lemma {:induction false} ReapTexts(t: Tables, now: Instant, deadline: nat)
    ensures SameTexts(t, ReapOnce(t, now, deadline))
  {
  }

  lemma {:induction false} ArrivalStored(w: Settings, s: State, a: Action)
    requires StoredInv(s.t) && ExecStored(s.t, s.x)
    requires a.RunArrives? || a.OccurrenceArrives? || a.Refuses? || a.Reaps?
    ensures Kept(s.t, Next(w, s, a).t, Next(w, s, a).x)
  {
    var t' := Next(w, s, a).t;
    match a {
      case RunArrives(c) => AcceptRunTexts(s.t, c, s.now);
      case OccurrenceArrives(o, ids) => OccurrenceTexts(s.t, o, ids, s.now);
      case Refuses(r) => RejectTexts(s.t, r);
      case Reaps => ReapTexts(s.t, s.now, w.deadline);
    }
    SameTextsKept(s.t, t', s.x);
  }

  /** Every action keeps the stored texts and subscriptions in order. */
  lemma {:induction false} NextKeepsStored(w: Settings, s: State, a: Action)
    requires ValidSettings(w) && StoredInv(s.t) && ExecStored(s.t, s.x)
    ensures Kept(s.t, Next(w, s, a).t, Next(w, s, a).x)
  {
    if a.Executes? {
      ExecKeepsStored(s.t, s.x, s.now, a.event, w.sourceCount);
    } else if a.SubscriptionArrives? {
      SubscriptionStored(s.t, s.x, a.subscription, a.newSubscription, a.newChannel, s.now);
    } else if a.SweepsBodies? {
      BodySweepStored(s.t, s.x, a.before, a.limit, s.now);
    } else if a.SweepsTexts? {
      TextSweepStored(s.t, s.x, a.before, a.limit, s.now);
    } else if a.RunArrives? || a.OccurrenceArrives? || a.Refuses? || a.Reaps? {
      ArrivalStored(w, s, a);
    } else if a.CompletionLooksUp? || a.CompletionVerifies? || a.CompletionSettles? || a.FailureSettles? {
      assert Next(w, s, a) == HandlerStep(s, a);
      HandlersStored(s, a);
    } else {
      SameTextsKept(s.t, s.t, s.x);
    }
  }
}

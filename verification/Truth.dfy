/** What a completed run promises about the channels it watched. */
module TruthSpec {
  import opened Schema
  import opened Provider
  import opened Revisions
  import opened CoverageSpec
  import opened ManifestBuilder
  import opened Executor
  import opened Machine
  import W = Walk

  /** One run, its window, the channels its owner watches, and what those channels hold. */
  datatype Target = Target(run: Uuid, start: Instant, end: Instant, watched: set<Uuid>, feed: Uuid -> seq<Post>)
  {
    /** The walk over one channel; no property depends on the username. */
    function To(c: Uuid): W.Request {
      W.Request(run, c, "", start, end, WALK_PAGES, WALK_PAGE_SIZE)
    }

    /** Post `j` of the channel is storable and inside the window. */
    predicate Owes(c: Uuid, j: nat) {
      && c in watched && j < |feed(c)| && !feed(c)[j].deleted && 0 < |feed(c)[j].body| <= 16_384
      && feed(c)[j].published.Some? && start <= feed(c)[j].published.value < end
    }
  }

  /** Every post the run owes is a message of the set. */
  ghost predicate Told(g: Target, messages: set<Message>) {
    forall c, j: nat :: g.Owes(c, j) ==> Message(c, g.feed(c)[j].id) in messages
  }

  ghost predicate LeasesSound(g: Target, leases: map<LeaseKey, Checkpoint>, keys: Keys) {
    forall c: Uuid :: SoundLease(leases, keys, g.To(c), g.feed(c))
  }

  predicate AllCovered(g: Target, keys: Keys) {
    forall c :: c in g.watched ==> Covered(keys, g.To(c), g.feed(c))
  }

  predicate QueueCovered(g: Target, keys: Keys, queue: seq<Listed>, i: nat)
    requires i <= |queue|
  {
    forall j :: 0 <= j < i ==> Covered(keys, g.To(queue[j].channel), g.feed(queue[j].channel))
  }

  predicate QueueLists(g: Target, queue: seq<Listed>) {
    forall c :: c in g.watched ==> exists i :: 0 <= i < |queue| && queue[i].channel == c
  }

  /** What the executor knows about the run it works on. */
  ghost predicate TruthExec(g: Target, keys: Keys, x: Exec) {
    x != Idle && x.p.run == g.run ==>
      match x
      case Walking(_, queue, i, _, deferred, incomplete, walk) =>
        && QueueLists(g, queue) && i <= |queue|
        && (i < |queue| ==> SoundWalk(keys, g.To(queue[i].channel), g.feed(queue[i].channel), walk))
        && (!incomplete && deferred == 0 ==> QueueCovered(g, keys, queue, i))
      case Ready(_, incomplete) => !incomplete ==> AllCovered(g, keys)
      case Chose(_, sources, incomplete) => !incomplete ==> Told(g, MessagesOf(sources))
      case Recorded(_, sources, incomplete) => !incomplete ==> Told(g, MessagesOf(sources))
      case _ => true
  }

  /** What the tables say about the run. */
  ghost predicate TruthTables(g: Target, t: Tables) {
    g.run in t.runs ==>
      && (g.run in t.manifests && !t.runs[g.run].incomplete ==> Told(g, t.manifests[g.run].messages))
      && (g.run !in t.manifests && t.runs[g.run].state.RunCompleted? ==> Told(g, {}))
  }

  /** The row can be cited in the window. */
  predicate CitableRow(g: Target, row: Revision) {
    g.start <= row.published < g.end && row.body.Some? && row.deleted.None?
  }

  predicate HasCitable(g: Target, rows: Rows, m: Message) {
    exists k :: k in rows && k.Of() == m && CitableRow(g, rows[k])
  }

  /** A post of the run that is stored can be cited. */
  ghost predicate Citable(g: Target, rows: Rows) {
    forall c, j: nat :: g.Owes(c, j) && g.To(c).Key(g.feed(c)[j]) in rows ==>
      HasCitable(g, rows, Message(c, g.feed(c)[j].id))
  }

  /** While it walks and until it selects, the executor keeps what it can cite. */
  ghost predicate CitableExec(g: Target, rows: Rows, x: Exec) {
    (x.Walking? || x.Ready?) && x.p.run == g.run ==> Citable(g, rows)
  }

  ghost predicate TruthInv(g: Target, s: State) {
    && LeasesSound(g, s.t.leases, s.t.revisions.Keys) && TruthExec(g, s.t.revisions.Keys, s.x) && TruthTables(g, s.t)
    && CitableExec(g, s.t.revisions, s.x)
  }

  /** A walk writes its own lease only. */
  ghost predicate OtherLeases(leases: map<LeaseKey, Checkpoint>, leases': map<LeaseKey, Checkpoint>, lease: LeaseKey) {
    forall k :: k != lease ==> (k in leases <==> k in leases') && (k in leases ==> leases'[k] == leases[k])
  }

  /** Requests that differ in the username only. */
  predicate OtherName(req: W.Request, req': W.Request) {
    req' == req.(username := req'.username)
  }

  // ---------------------------------------------------------------- assumptions

  /** The window of the run, and of the copy the executor holds. */
  predicate Describes(g: Target, s: State) {
    && (g.run in s.t.runs ==> s.t.runs[g.run].start == g.start && s.t.runs[g.run].end == g.end)
    && (s.x != Idle && s.x.p.run == g.run ==> s.x.p.start == g.start && s.x.p.end == g.end)
  }

  /** While the executor works on the run the channels and subscriptions stay, the provider answers with the
      channel, and no sweep of bodies reaches the window; what was stored before a tick can be cited when it
      starts. */
  ghost predicate Fixed(g: Target, s: State, a: Action) {
    s.x != Idle && s.x.p.run == g.run ==>
      && Watched(s.t.subscriptions, s.x.p.owner) == g.watched
      && (s.x.Started? ==> Citable(g, s.t.revisions))
      && (a.SweepsBodies? ==> a.before <= g.start)
      && (a.Executes? && a.event.Hears? && s.x.Walking? && s.x.i < |s.x.queue| ==>
           Faithful(g.To(s.x.queue[s.x.i].channel), g.feed(s.x.queue[s.x.i].channel), s.x.walk, a.event.answer))
  }

  ghost predicate AllValid(g: Target) {
    forall c: Uuid :: ValidChannel(g.feed(c))
  }
}

/** What a tick stores of its run can be cited, and its withdrawals spare it. */
module Citing {
  import opened Schema
  import opened Provider
  import opened Revisions
  import opened CoverageSpec
  import opened Selection
  import opened Retention
  import opened Executor
  import opened Exactness
  import opened StoredSpec
  import opened TruthSpec
  import opened ManifestBuilder
  import opened SelectionProofs
  import W = Walk

  /** Rows that can be cited stay, and new keys can be cited. */
  lemma {:induction false} CitableStays(g: Target, rows: Rows, rows': Rows)
    requires Citable(g, rows)
    requires forall c, j: nat :: g.Owes(c, j) && HasCitable(g, rows, Message(c, g.feed(c)[j].id)) ==>
      HasCitable(g, rows', Message(c, g.feed(c)[j].id))
    requires forall k :: k in rows' && k !in rows ==> CitableRow(g, rows'[k])
    ensures Citable(g, rows')
  {
    forall c, j: nat | g.Owes(c, j) && g.To(c).Key(g.feed(c)[j]) in rows'
      ensures HasCitable(g, rows', Message(c, g.feed(c)[j].id))
    {
      var k := g.To(c).Key(g.feed(c)[j]);
      if k !in rows {
        assert k.Of() == Message(c, g.feed(c)[j].id);
      }
    }
  }

  lemma {:induction false} WitnessStays(g: Target, rows: Rows, rows': Rows, m: Message)
    requires HasCitable(g, rows, m)
    requires forall k :: k in rows && k.Of() == m && CitableRow(g, rows[k]) ==> k in rows' && CitableRow(g, rows'[k])
    ensures HasCitable(g, rows', m)
  {
    var k :| k in rows && k.Of() == m && CitableRow(g, rows[k]);
    assert k in rows' && CitableRow(g, rows'[k]);
  }

  /** A visited post leaves the rows, or adds its own, with its body and its instant inside the window. */
  lemma {:induction false} StoredRow(t: Tables, req: W.Request, w: W.Walk, a: W.Answer)
    requires w.Storing? && w.next < |w.page.posts|
    ensures var rows, rows' := t.revisions, W.StorePost(t, req, w, a).0.revisions;
      && (forall k :: k in rows ==> k in rows' && rows'[k] == rows[k])
      && (forall k :: k in rows' && k !in rows ==>
           req.start <= rows'[k].published < req.end && rows'[k].body.Some? && rows'[k].deleted.None?)
  {
    var p := w.page.posts[w.next];
    var t' := W.StorePost(t, req, w, a).0;
    if t' != t {
      var seen := Observation(TelegramLink(req.username, p.id), p.published.value, req.end);
      assert req.Wanted(p) && t'.revisions == Append(t.revisions, req.Key(p), a.newId, seen).value;
      AppendedRow(t.revisions, req.Key(p), a.newId, seen);
    }
  }

  lemma {:induction false} AppendedRow(rows: Rows, key: RevisionKey, newId: Uuid, seen: Observation)
    requires Append(rows, key, newId, seen).Some?
    ensures var rows' := Append(rows, key, newId, seen).value;
      && (forall k :: k in rows ==> k in rows' && rows'[k] == rows[k])
      && (forall k :: k in rows' && k !in rows ==>
           rows'[k].published == seen.published && rows'[k].body.Some? && rows'[k].deleted.None?)
  {
  }

  /** Storing keeps what can be cited. */
  lemma {:induction false} StoringCites(g: Target, t: Tables, req: W.Request, w: W.Walk, a: W.Answer)
    requires w.Storing? && w.next < |w.page.posts| && req.start == g.start && req.end == g.end
    requires Citable(g, t.revisions)
    ensures Citable(g, W.StorePost(t, req, w, a).0.revisions)
  {
    var rows' := W.StorePost(t, req, w, a).0.revisions;
    StoredRow(t, req, w, a);
    forall c, j: nat | g.Owes(c, j) && HasCitable(g, t.revisions, Message(c, g.feed(c)[j].id))
      ensures HasCitable(g, rows', Message(c, g.feed(c)[j].id))
    {
      WitnessStays(g, t.revisions, rows', Message(c, g.feed(c)[j].id));
    }
    CitableStays(g, t.revisions, rows');
  }

  /** A page of the channel proves no owed message gone. */
  lemma {:induction false} OwedIsSpared(g: Target, c: Uuid, j: nat, before: Option<MessageId>, page: Page)
    requires ValidChannel(g.feed(c)) && g.Owes(c, j)
    requires page == PageOf(g.feed(c), before, g.To(c).Limit()) && W.Proved(page, before).Some?
    ensures !W.AbsenceOf(page, W.Proved(page, before).value).Covers(g.feed(c)[j].id)
  {
    var p, n, e := PageIsSlice(g.feed(c), before, g.To(c).Limit());
    assert Live(g.feed(c), g.feed(c)[j].id);
    LiveIsNotAbsent(g.feed(c), before, p, n, e, W.Proved(page, before).value, g.feed(c)[j].id);
  }

  /** Withdrawing by a page of the channel keeps what can be cited. */
  lemma {:induction false} WithdrawalCites(g: Target, rows: Rows, c: Uuid, before: Option<MessageId>, page: Page,
      now: Instant)
    requires ValidChannel(g.feed(c)) && Citable(g, rows)
    requires page == PageOf(g.feed(c), before, g.To(c).Limit()) && W.Proved(page, before).Some?
    ensures Citable(g, WithdrawRows(rows, c, W.AbsenceOf(page, W.Proved(page, before).value), now))
  {
    var gone := W.AbsenceOf(page, W.Proved(page, before).value);
    var rows' := WithdrawRows(rows, c, gone, now);
    forall d, j: nat | g.Owes(d, j) && HasCitable(g, rows, Message(d, g.feed(d)[j].id))
      ensures HasCitable(g, rows', Message(d, g.feed(d)[j].id))
    {
      if d == c {
        OwedIsSpared(g, c, j, before, page);
      }
      WitnessStays(g, rows, rows', Message(d, g.feed(d)[j].id));
    }
    CitableStays(g, rows, rows');
  }

  /** A step of the run's own walk keeps what can be cited. */
  lemma {:induction false} WalkCites(g: Target, t: Tables, req: W.Request, c: Uuid, w: W.Walk, now: Instant,
      a: W.Answer)
    requires ValidChannel(g.feed(c)) && OtherName(g.To(c), req) && Citable(g, t.revisions)
    requires SoundWalk(t.revisions.Keys, g.To(c), g.feed(c), w)
    ensures Citable(g, W.Step(t, req, w, now, a).0.revisions)
  {
    if w.Storing? {
      if w.next < |w.page.posts| {
        StoringCites(g, t, req, w, a);
      }
    } else if w.Withdrawing? {
      if W.Proved(w.page, w.at.before).Some? {
        WithdrawalCites(g, t.revisions, c, w.at.before, w.page, now);
      }
    }
  }

  /** A sweep of bodies older than the window keeps what can be cited. */
  lemma {:induction false} SweepCites(g: Target, rows: Rows, before: Instant, limit: nat, now: Instant)
    requires Citable(g, rows) && before <= g.start
    ensures Citable(g, MinimizeBodies(rows, before, limit, now))
  {
    var rows' := MinimizeBodies(rows, before, limit, now);
    forall c, j: nat | g.Owes(c, j) && HasCitable(g, rows, Message(c, g.feed(c)[j].id))
      ensures HasCitable(g, rows', Message(c, g.feed(c)[j].id))
    {
      WitnessStays(g, rows, rows', Message(c, g.feed(c)[j].id));
    }
    CitableStays(g, rows, rows');
  }

  /** What can be cited is eligible when the executor selects. */
  lemma {:induction false} CitableIsEligible(g: Target, t: Tables, p: Pending, c: Uuid, j: nat)
    requires Citable(g, t.revisions) && RowsOk(t.channels, t.revisions)
    requires p.start == g.start && p.end == g.end && Watched(t.subscriptions, p.owner) == g.watched
    requires g.Owes(c, j) && g.To(c).Key(g.feed(c)[j]) in t.revisions
    ensures Message(c, g.feed(c)[j].id) in Eligible(ViewOf(t, p))
  {
    var rows := t.revisions;
    assert HasCitable(g, rows, Message(c, g.feed(c)[j].id));
    var k :| k in rows && k.Of() == Message(c, g.feed(c)[j].id) && CitableRow(g, rows[k]);
    assert RowOk(t.channels, k, rows[k]);
    assert k in Candidates(ViewOf(t, p));
  }

  /** A source cites the body the post has now. */
  predicate CitesPost(sources: seq<ManifestSource>, c: Uuid, p: Post) {
    exists x :: x in sources && x.channel == c && x.message == p.id && x.body == p.body
  }

  predicate OfRow(x: ManifestSource, k: RevisionKey) {
    x.channel == k.channel && x.message == k.message && x.body == k.digest.of
  }

  lemma {:induction false} CitesRow(sources: seq<ManifestSource>, keys: seq<RevisionKey>, c: Uuid, p: Post)
    requires |sources| == |keys| && forall i :: 0 <= i < |keys| ==> OfRow(sources[i], keys[i])
    ensures CitesPost(sources, c, p) <==> RevisionKey(c, p.id, Sha256(p.body)) in keys
  {
    var k := RevisionKey(c, p.id, Sha256(p.body));
    if i :| 0 <= i < |keys| && keys[i] == k {
      assert OfRow(sources[i], keys[i]) && sources[i] in sources;
    }
    if x :| x in sources && x.channel == c && x.message == p.id && x.body == p.body {
      var i :| 0 <= i < |sources| && sources[i] == x;
      assert OfRow(sources[i], keys[i]) && keys[i] == k;
    }
  }

  lemma {:induction false} SelectedBody(t: Tables, v: View, limit: nat, i: nat)
    requires RowsOk(t.channels, v.rows) && i < |SelectedKeys(v, limit)|
    ensures OfRow(SelectSources(v, limit).sources[i], SelectedKeys(v, limit)[i])
  {
    var k := SelectedKeys(v, limit)[i];
    assert RowOk(t.channels, k, v.rows[k]);
  }

  /** Which body is cited: of a post whose message is selected, the body it has now is cited if and only if the row
      of that body can be cited and no row of another body that can be was observed after it. */
  lemma {:induction false} CitedBodyIsCurrent(t: Tables, v: View, limit: nat, c: Uuid, p: Post)
    requires RowsOk(t.channels, v.rows)
    requires Message(c, p.id) in MessagesOf(SelectSources(v, limit).sources)
    ensures CitesPost(SelectSources(v, limit).sources, c, p) <==> RevisionKey(c, p.id, Sha256(p.body)) in Latest(v)
  {
    var keys, sources := SelectedKeys(v, limit), SelectSources(v, limit).sources;
    forall i | 0 <= i < |keys|
      ensures OfRow(sources[i], keys[i])
    {
      SelectedBody(t, v, limit, i);
    }
    CitesRow(sources, keys, c, p);
    CitedIsLatest(v, limit, RevisionKey(c, p.id, Sha256(p.body)));
  }

  /** The input that shows it: a post edited and edited back converges on its first row, so the body between is
      cited. */
  lemma {:induction false} EditedBackCitesBetween(t: Tables, v: View, limit: nat, c: Uuid, p: Post,
      between: RevisionKey, newId: Uuid, seen: Observation)
    requires RowsOk(t.channels, v.rows) && Message(c, p.id) in MessagesOf(SelectSources(v, limit).sources)
    requires var first := RevisionKey(c, p.id, Sha256(p.body));
      && first in v.rows && between in Candidates(v) && between.Of() == first.Of() && between != first
      && v.rows[first].observed < v.rows[between].observed
    ensures Append(v.rows, RevisionKey(c, p.id, Sha256(p.body)), newId, seen) == Some(v.rows)
    ensures !CitesPost(SelectSources(v, limit).sources, c, p)
  {
    CitedBodyIsCurrent(t, v, limit, c, p);
  }
}

module Truth {
  import opened Schema
  import opened Provider
  import opened CoverageSpec
  import opened Coverage
  import opened ManifestBuilder
  import opened Selection
  import opened SelectionProofs
  import opened Reports
  import opened Coordinator
  import opened Executor
  import opened StoredSpec
  import StoredWrites
  import StoredSteps
  import opened TruthSpec
  import opened Citing
  import W = Walk

  // ---------------------------------------------------------------- the name of a channel

  lemma {:induction false} NamesOfPosts(req: W.Request, req': W.Request)
    requires OtherName(req, req')
    ensures forall p :: req.Wanted(p) == req'.Wanted(p)
    ensures forall p :: req.TooOld(p) == req'.TooOld(p)
    ensures forall p :: req.Key(p) == req'.Key(p)
  {
  }

  lemma {:induction false} NameOfCursor(keys: Keys, req: W.Request, req': W.Request, ch: seq<Post>,
      before: Option<MessageId>, pages: nat)
    requires OtherName(req, req')
    ensures SoundCursor(keys, req, ch, before, pages) <==> SoundCursor(keys, req', ch, before, pages)
    ensures Covered(keys, req, ch) <==> Covered(keys, req', ch)
  {
    NamesOfPosts(req, req');
  }

  lemma {:induction false} NameOfPage(keys: Keys, req: W.Request, req': W.Request, ch: seq<Post>, at: W.Position,
      page: Page, next: nat, reached: bool)
    requires OtherName(req, req')
    ensures SoundPage(keys, req, ch, at, page, next, reached) <==> SoundPage(keys, req', ch, at, page, next, reached)
  {
    NamesOfPosts(req, req');
    if at.pages > 0 {
      NameOfCursor(keys, req, req', ch, at.before, at.pages - 1);
    }
    assert PageStored(keys, req, page, next, reached) <==> PageStored(keys, req', page, next, reached);
  }

  /** What a walk promises does not depend on the username it asked for. */
  lemma {:induction false} NameOfWalk(leases: map<LeaseKey, Checkpoint>, keys: Keys, req: W.Request, req': W.Request,
      ch: seq<Post>, w: W.Walk)
    requires OtherName(req, req')
    ensures SoundWalk(keys, req, ch, w) <==> SoundWalk(keys, req', ch, w)
    ensures SoundLease(leases, keys, req, ch) <==> SoundLease(leases, keys, req', ch)
  {
    NameOfCursor(keys, req, req', ch, None, 0);
    if req.Lease() in leases {
      NameOfCursor(keys, req, req', ch, leases[req.Lease()].before, leases[req.Lease()].pages);
    }
    match w
    case Storing(at, page, seen, next, _, reached) => NameOfPage(keys, req, req', ch, at, page, next, reached);
    case Withdrawing(at, page, seen, _, reached) => NameOfPage(keys, req, req', ch, at, page, |page.posts|, reached);
    case Entering =>
    case Done(_) =>
    case _ => NameOfCursor(keys, req, req', ch, w.at.before, w.at.pages);
  }

  // ---------------------------------------------------------------- growth

  lemma {:induction false} LeasesGrow(g: Target, leases: map<LeaseKey, Checkpoint>, keys: Keys, keys': Keys)
    requires LeasesSound(g, leases, keys) && keys <= keys'
    ensures LeasesSound(g, leases, keys')
  {
    forall c: Uuid
      ensures SoundLease(leases, keys', g.To(c), g.feed(c))
    {
      assert SoundLease(leases, keys, g.To(c), g.feed(c));
      SoundGrows(keys, keys', leases, g.To(c), g.feed(c), W.Entering);
    }
  }

  lemma {:induction false} QueueGrows(g: Target, keys: Keys, keys': Keys, queue: seq<Listed>, i: nat)
    requires i <= |queue| && QueueCovered(g, keys, queue, i) && keys <= keys'
    ensures QueueCovered(g, keys', queue, i)
  {
  }

  lemma {:induction false} TruthExecGrows(g: Target, keys: Keys, keys': Keys, x: Exec)
    requires TruthExec(g, keys, x) && keys <= keys'
    ensures TruthExec(g, keys', x)
  {
    if x.Walking? && x.p.run == g.run {
      if x.i < |x.queue| {
        var c := x.queue[x.i].channel;
        SoundGrows(keys, keys', map[], g.To(c), g.feed(c), x.walk);
      }
      if !x.incomplete && x.deferred == 0 {
        QueueGrows(g, keys, keys', x.queue, x.i);
      }
    }
  }

  // ---------------------------------------------------------------- the walk

  lemma {:induction false} StepLeases(t: Tables, req: W.Request, w: W.Walk, now: Instant, a: W.Answer)
    ensures OtherLeases(t.leases, W.Step(t, req, w, now, a).0.leases, req.Lease())
  {
  }

  lemma {:induction false} LeasesAround(g: Target, leases: map<LeaseKey, Checkpoint>,
      leases': map<LeaseKey, Checkpoint>, keys: Keys, lease: LeaseKey)
    requires LeasesSound(g, leases, keys) && OtherLeases(leases, leases', lease)
    requires lease.run == g.run ==> SoundLease(leases', keys, g.To(lease.channel), g.feed(lease.channel))
    ensures LeasesSound(g, leases', keys)
  {
    forall c: Uuid
      ensures SoundLease(leases', keys, g.To(c), g.feed(c))
    {
      assert SoundLease(leases, keys, g.To(c), g.feed(c));
      assert g.To(c).Lease() == LeaseKey(g.run, c);
    }
  }

  /** A step of a walk of the run keeps its channel's promise. */
  lemma {:induction false} OwnWalk(g: Target, t: Tables, req: W.Request, c: Uuid, w: W.Walk, now: Instant, a: W.Answer)
    requires ValidChannel(g.feed(c)) && OtherName(g.To(c), req)
    requires LeasesSound(g, t.leases, t.revisions.Keys) && SoundWalk(t.revisions.Keys, g.To(c), g.feed(c), w)
    requires Faithful(g.To(c), g.feed(c), w, a)
    ensures var (t', w') := W.Step(t, req, w, now, a);
      && t.revisions.Keys <= t'.revisions.Keys
      && SoundWalk(t'.revisions.Keys, g.To(c), g.feed(c), w')
      && SoundLease(t'.leases, t'.revisions.Keys, g.To(c), g.feed(c))
  {
    var (t', w') := W.Step(t, req, w, now, a);
    assert SoundLease(t.leases, t.revisions.Keys, g.To(c), g.feed(c));
    NameOfWalk(t.leases, t.revisions.Keys, g.To(c), req, g.feed(c), w);
    StepSound(t, req, g.feed(c), w, now, a);
    NameOfWalk(t'.leases, t'.revisions.Keys, g.To(c), req, g.feed(c), w');
  }

  lemma {:induction false} WalkingTruth(g: Target, t: Tables, x: Exec, now: Instant, a: W.Answer)
    requires x.Walking? && x.i < |x.queue| && x.p.run == g.run && x.p.start == g.start && x.p.end == g.end
    requires var c := x.queue[x.i].channel; ValidChannel(g.feed(c)) && Faithful(g.To(c), g.feed(c), x.walk, a)
    requires LeasesSound(g, t.leases, t.revisions.Keys) && TruthExec(g, t.revisions.Keys, x)
    requires CitableExec(g, t.revisions, x)
    ensures var (t', w') := W.Step(t, RequestFor(x.p, x.queue[x.i]), x.walk, now, a);
      && LeasesSound(g, t'.leases, t'.revisions.Keys) && TruthExec(g, t'.revisions.Keys, x.(walk := w'))
      && CitableExec(g, t'.revisions, x.(walk := w'))
  {
    var req := RequestFor(x.p, x.queue[x.i]);
    var c := x.queue[x.i].channel;
    var (t', w') := W.Step(t, req, x.walk, now, a);
    OwnWalk(g, t, req, c, x.walk, now, a);
    WalkCites(g, t, req, c, x.walk, now, a);
    StepLeases(t, req, x.walk, now, a);
    LeasesGrow(g, t.leases, t.revisions.Keys, t'.revisions.Keys);
    LeasesAround(g, t.leases, t'.leases, t'.revisions.Keys, req.Lease());
    if !x.incomplete && x.deferred == 0 {
      QueueGrows(g, t.revisions.Keys, t'.revisions.Keys, x.queue, x.i);
    }
  }

  lemma {:induction false} OtherWalk(g: Target, t: Tables, req: W.Request, w: W.Walk, now: Instant, a: W.Answer)
    requires LeasesSound(g, t.leases, t.revisions.Keys) && req.run != g.run
    requires t.revisions.Keys <= W.Step(t, req, w, now, a).0.revisions.Keys
    ensures var t' := W.Step(t, req, w, now, a).0; LeasesSound(g, t'.leases, t'.revisions.Keys)
  {
    var t' := W.Step(t, req, w, now, a).0;
    StepLeases(t, req, w, now, a);
    LeasesGrow(g, t.leases, t.revisions.Keys, t'.revisions.Keys);
    LeasesAround(g, t.leases, t'.leases, t'.revisions.Keys, req.Lease());
  }

  /** Counting a channel that reported no gap extends what is covered. */
  lemma {:induction false} CountTruth(g: Target, keys: Keys, x: Exec)
    requires x.Walking? && x.i < |x.queue| && x.walk.Done? && TruthExec(g, keys, x)
    ensures TruthExec(g, keys, Count(x))
  {
  }

  lemma {:induction false} ConcludeTruth(g: Target, keys: Keys, x: Exec)
    requires x.Walking? && x.i >= |x.queue| && TruthExec(g, keys, x)
    ensures TruthExec(g, keys, Conclude(x))
  {
    if x.p.run == g.run && !x.incomplete && x.deferred == 0 {
      forall c | c in g.watched
        ensures Covered(keys, g.To(c), g.feed(c))
      {
        var j :| 0 <= j < |x.queue| && x.queue[j].channel == c;
      }
    }
  }

  // ---------------------------------------------------------------- selection and commit

  /** A selection that dropped nothing from covered channels holds every post the run owes. */
  lemma {:induction false} SelectionTells(g: Target, t: Tables, p: Pending, limit: nat)
    requires AllCovered(g, t.revisions.Keys) && Citable(g, t.revisions) && RowsOk(t.channels, t.revisions) && limit > 0
    requires p.start == g.start && p.end == g.end && Watched(t.subscriptions, p.owner) == g.watched
    requires var s := SelectSources(ViewOf(t, p), limit); s.eligible <= |s.sources|
    ensures Told(g, MessagesOf(SelectSources(ViewOf(t, p), limit).sources))
  {
    var v := ViewOf(t, p);
    var s := SelectSources(v, limit);
    SelectionRefinesNewest(v, limit);
    forall c, j: nat | g.Owes(c, j)
      ensures Message(c, g.feed(c)[j].id) in MessagesOf(s.sources)
    {
      assert Covered(t.revisions.Keys, g.To(c), g.feed(c));
      assert g.To(c).Key(g.feed(c)[j]) in t.revisions;
      CitableIsEligible(g, t, p, c, j);
    }
  }

  lemma {:induction false} ReadyTruth(g: Target, t: Tables, p: Pending, incomplete: bool, limit: nat)
    requires TruthExec(g, t.revisions.Keys, Ready(p, incomplete)) && CitableExec(g, t.revisions, Ready(p, incomplete))
    requires RowsOk(t.channels, t.revisions) && limit > 0
    requires p.run == g.run ==> p.start == g.start && p.end == g.end && Watched(t.subscriptions, p.owner) == g.watched
    ensures var s := SelectSources(ViewOf(t, p), limit);
      TruthExec(g, t.revisions.Keys, Chose(p, s.sources, incomplete || s.eligible > |s.sources|))
  {
    var s := SelectSources(ViewOf(t, p), limit);
    if p.run == g.run && !incomplete && s.eligible <= |s.sources| {
      SelectionTells(g, t, p, limit);
    }
  }

  lemma {:induction false} CommitTruth(g: Target, t: Tables, p: Pending, sources: seq<ManifestSource>, incomplete: bool,
      e: Event, now: Instant)
    requires e.Commits? && p.run == g.run && p.run in t.runs && p.run !in t.manifests
    requires t.runs[p.run].incomplete == incomplete
    requires !t.runs[p.run].state.RunCompleted?
    requires !incomplete ==> Told(g, MessagesOf(sources))
    ensures TruthTables(g, Commit(t, p, sources, incomplete, e, now).0)
  {
    var t' := Commit(t, p, sources, incomplete, e, now).0;
    if sources == [] {
      assert MessagesOf(sources) == {};
      if !incomplete {
        EmptyTruth(g, t, p.owner, now);
      } else {
        FailedTruth(g, t, p.owner, ProviderDown, now);
      }
    } else {
      var built := Build(e.manifest, p.owner, p.run, p.start, p.end, sources, e.windowOk, _ => e.accepted);
      if built.Err? {
        FailedTruth(g, t, p.owner, FailureClass.ManifestInvalid, now);
      } else {
        StoredWrites.BuiltMessages(e.manifest, p, sources, e.windowOk, _ => e.accepted);
        ManifestTruth(g, t, built.value, p.operation, e.requestOk, now);
        assert t' == CommitManifest(t, built.value, p.operation, e.requestOk, now).0;
      }
    }
  }

  lemma {:induction false} EmptyTruth(g: Target, t: Tables, owner: Uuid, now: Instant)
    requires g.run in t.runs && g.run !in t.manifests && Told(g, {})
    ensures TruthTables(g, CompleteEmptyRun(t, g.run, owner, now).0)
  {
    if Owns(t.runs, g.run, owner) && Unsettled(t.runs[g.run].state) {
      StoredSteps.ReportTexts(Move(t, g.run, RunCompleted, now), g.run, owner, Succeeded,
                              PlainReport(owner, "no_sources"));
    }
  }

  lemma {:induction false} FailedTruth(g: Target, t: Tables, owner: Uuid, failure: FailureClass, now: Instant)
    requires g.run in t.runs && g.run !in t.manifests && !t.runs[g.run].state.RunCompleted?
    ensures TruthTables(g, FailRun(t, g.run, owner, failure, now).0)
  {
    if Owns(t.runs, g.run, owner) && Unsettled(t.runs[g.run].state) {
      StoredSteps.ReportTexts(MoveFailed(t, g.run, failure, now), g.run, owner, Failed, FailureReport(owner, failure));
    }
  }

  lemma {:induction false} ManifestTruth(g: Target, t: Tables, m: CanonicalManifest, operation: Uuid, requestOk: bool,
      now: Instant)
    requires m.run == g.run && g.run in t.runs && g.run !in t.manifests && !t.runs[g.run].state.RunCompleted?
    requires !t.runs[g.run].incomplete ==> Told(g, set x | x in m.messages)
    ensures TruthTables(g, CommitManifest(t, m, operation, requestOk, now).0)
  {
  }
}

/** The acquisition walk, one durable operation or provider answer at a time.

    A walk is the local state of `AcquisitionEngine::execute`. Each step consumes one answer of the
    environment: the provider's, or whether the database carried out a statement. A process that dies
    simply stops consuming answers; what it wrote stays in the tables. */
module Walk {
  import opened Schema
  import opened Provider
  import opened Revisions

  datatype Request = Request(
    run: Uuid, channel: Uuid, username: string, start: Instant, end: Instant,
    maxPages: nat, pageSize: nat)
  {
    function Limit(): nat { Min(pageSize, PAGE_LIMIT) }
    function Lease(): LeaseKey { LeaseKey(run, channel) }
    function Key(p: Post): RevisionKey { RevisionKey(channel, p.id, Sha256(p.body)) }

    /** A storable post published inside the window. */
    predicate Wanted(p: Post) {
      Storable(p) && p.published.Some? && start <= p.published.value < end
    }

    /** A storable post that proves every later one older than the window. */
    predicate TooOld(p: Post) {
      Storable(p) && p.published.Some? && p.published.value < start
    }
  }

  datatype Position = Position(before: Option<MessageId>, pages: nat, revisions: nat)

  datatype Outcome =
    | Reported(pages: nat, revisions: nat, partial: bool)
    | Unavailable
    | Deferred

  type SeenPosts = set<(MessageId, BodyDigest)>

  datatype Walk =
    | Entering
    | Resolving(at: Position)
    | Fetching(at: Position, seen: SeenPosts)
    | Storing(at: Position, page: Page, seen: SeenPosts, next: nat, stored: nat, reached: bool)
    | Withdrawing(at: Position, page: Page, seen: SeenPosts, stored: nat, reached: bool)
    | Saving(at: Position, seen: SeenPosts)
    | Closing(at: Position)
    | Waiting(at: Position, seconds: nat)
    | Breaking(at: Position)
    | Done(outcome: Outcome)

  /** One answer of the environment. `Silent` drives steps that ask nothing. */
  datatype Answer =
    | Silent
    | Carried(newId: Uuid)
    | StorageDown
    | Resolved
    | Fetched(page: Page)
    | Flood(seconds: nat)
    | Refusal

  predicate IsLower(c: char) { 'a' <= c <= 'z' }
  predicate IsUpper(c: char) { 'A' <= c <= 'Z' }
  predicate IsDigit(c: char) { '0' <= c <= '9' }

  /** `PublicChannelUsername::parse`. */
  predicate CanonicalUsername(name: string) {
    && 5 <= |name| <= 32
    && (IsLower(name[0]) || IsUpper(name[0]))
    && forall i :: 0 <= i < |name| ==> IsLower(name[i]) || IsDigit(name[i]) || name[i] == '_'
  }

  function AfterResume(req: Request, at: Position): Walk {
    if CanonicalUsername(req.username) then Resolving(at) else Done(Unavailable)
  }

  /** Reads the lease: an active provider wait defers, a completed walk reads no page. */
  function Resume(leases: map<LeaseKey, Checkpoint>, req: Request, now: Instant): Walk {
    if req.Lease() !in leases then AfterResume(req, Position(None, 0, 0)) else
    var c := leases[req.Lease()];
    if c.mark.FloodWait? && c.expires > now then Done(Deferred)
    else if c.mark.Completed? then AfterResume(req, Position(None, req.maxPages, c.revisions))
    else AfterResume(req, Position(c.before, c.pages, c.revisions))
  }

  function Continue(req: Request, at: Position, seen: SeenPosts): Walk {
    if at.pages < req.maxPages then Fetching(at, seen) else Closing(at)
  }

  /** The proved range of a page that answered a request below `before`. */
  function Proved(page: Page, before: Option<MessageId>): Option<ProvedRange> {
    if page.next.None? then Some(ProvedRange(I64_MIN, before))
    else if page.posts == [] then None
    else Some(ProvedRange(Lowest(page.posts), before))
  }

  function Lowest(posts: seq<Post>): (m: MessageId)
    requires posts != []
    ensures exists i :: 0 <= i < |posts| && posts[i].id == m
    ensures forall i :: 0 <= i < |posts| ==> m <= posts[i].id
  {
    if |posts| == 1 then posts[0].id else
      var m := Lowest(posts[1..]);
      assert forall i :: 0 < i < |posts| ==> posts[i] == posts[1..][i - 1];
      if posts[0].id < m then posts[0].id else m
  }

  function Ids(posts: seq<Post>, deleted: bool): set<MessageId> {
    set i | 0 <= i < |posts| && posts[i].deleted == deleted :: posts[i].id
  }

  function AbsenceOf(page: Page, range: ProvedRange): Absence {
    Absence(range, Ids(page.posts, false), Ids(page.posts, true))
  }

  function Clamp(seconds: nat): nat {
    if seconds < 1 then 1 else if seconds > 3_600 then 3_600 else seconds
  }

  const LEASE_SECONDS: nat := 300

  function Save(t: Tables, req: Request, at: Position, mark: Mark, expires: Instant): Tables {
    t.(leases := t.leases[req.Lease() := Checkpoint(at.before, at.pages, at.revisions, mark, expires)])
  }

  /** One post of the page: skipped, refused, or appended. */
  function StorePost(t: Tables, req: Request, w: Walk, a: Answer): (Tables, Walk)
    requires w.Storing? && w.next < |w.page.posts|
  {
    var p := w.page.posts[w.next];
    if !Storable(p) then (t, w.(next := w.next + 1))
    else if p.published.None? then (t, Done(Unavailable))
    else if p.published.value < req.start then (t, w.(next := w.next + 1, reached := true))
    else if p.published.value >= req.end then (t, w.(next := w.next + 1))
    else if (p.id, Sha256(p.body)) in w.seen then (t, w.(next := w.next + 1))
    else if !a.Carried? then (t, Done(Unavailable))
    else
      var seen := Observation(TelegramLink(req.username, p.id), p.published.value, req.end);
      var rows := Append(t.revisions, req.Key(p), a.newId, seen);
      if rows.None? then (t, Done(Unavailable))
      else (t.(revisions := rows.value),
            w.(next := w.next + 1, stored := w.stored + 1, seen := w.seen + {(p.id, Sha256(p.body))}))
  }

  function Step(t: Tables, req: Request, w: Walk, now: Instant, a: Answer): (Tables, Walk) {
    match w
    case Entering =>
      (t, if a.StorageDown? then Done(Unavailable) else Resume(t.leases, req, now))
    case Resolving(at) => (
      match a
      case Resolved => (t, Continue(req, at, {}))
      case Flood(s) => (t, Waiting(at, s))
      case _ => (t, Done(Unavailable)))
    case Fetching(at, seen) => (
      match a
      case Fetched(page) => (t, Storing(at.(pages := at.pages + 1), page, seen, 0, 0, false))
      case Flood(s) => (t, Waiting(at, s))
      case _ => (t, if at.pages > 0 then Breaking(at) else Done(Unavailable)))
    case Storing(at, page, seen, next, stored, reached) =>
      if next < |page.posts| then StorePost(t, req, w, a)
      else (t, Withdrawing(at, page, seen, stored, reached))
    case Withdrawing(at, page, seen, stored, reached) =>
      var range := Proved(page, at.before);
      var saved := Saving(Position(if reached then None else page.next, at.pages, at.revisions + stored), seen);
      if range.None? then (t, saved)
      else if !a.Carried? then (t, Done(Unavailable))
      else (WithdrawMissing(t, req.channel, AbsenceOf(page, range.value), now), saved)
    case Saving(at, seen) =>
      if !a.Carried? then (t, Done(Unavailable))
      else (Save(t, req, at, PageCommitted, now + LEASE_SECONDS),
            if at.before.None? then Closing(at) else Continue(req, at, seen))
    case Closing(at) =>
      if !a.Carried? then (t, Done(Unavailable))
      else (Save(t, req, at, if at.before.Some? then PageLimit else Mark.Completed, now + LEASE_SECONDS),
            Done(Reported(at.pages, at.revisions, at.before.Some?)))
    case Waiting(at, seconds) =>
      if !a.Carried? then (t, Done(Unavailable))
      else (Save(t, req, at, FloodWait, now + Clamp(seconds)), Done(Deferred))
    case Breaking(at) =>
      if !a.Carried? then (t, Done(Unavailable))
      else (Save(t, req, at, ProviderUnavailable, now + LEASE_SECONDS),
            Done(Reported(at.pages, at.revisions, true)))
    case Done(_) => (t, w)
  }

  /** An answer with the instant it arrived at. */
  datatype Timed = Timed(at: Instant, answer: Answer)

  /** The tables and the walk after a sequence of answers. */
  function Advance(t: Tables, req: Request, w: Walk, answers: seq<Timed>): (Tables, Walk)
    decreases |answers|
  {
    if answers == [] then (t, w) else
      var (t', w') := Advance(t, req, w, answers[..|answers| - 1]);
      var last := answers[|answers| - 1];
      Step(t', req, w', last.at, last.answer)
  }
}

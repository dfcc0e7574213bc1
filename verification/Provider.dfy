/** The public-channel provider: what one page of a channel holds. */
module Provider {
  import opened Schema

  datatype Post = Post(id: MessageId, body: Body, published: Option<Instant>, deleted: bool)

  /** A page and its exclusive continuation cursor. */
  datatype Page = Page(posts: seq<Post>, next: Option<MessageId>)

  const MAX_CONTENT_BYTES: nat := 16_384

  /** A post that can be stored: present, with text, within the content bound. */
  predicate Storable(p: Post) {
    !p.deleted && 0 < |p.body| <= MAX_CONTENT_BYTES
  }

  predicate Descending(posts: seq<Post>) {
    forall i, j :: 0 <= i < j < |posts| ==> posts[i].id > posts[j].id
  }

  /** Ids rise with time: along the channel, newest first, publication instants never rise. */
  predicate TimesFall(posts: seq<Post>) {
    forall i, j :: 0 <= i < j < |posts| && posts[i].published.Some? && posts[j].published.Some?
      ==> posts[i].published.value >= posts[j].published.value
  }

  predicate ValidChannel(ch: seq<Post>) {
    Descending(ch) && TimesFall(ch)
  }

  /** The channel holds the message and does not mark it deleted. */
  predicate Live(ch: seq<Post>, id: MessageId) {
    exists i :: 0 <= i < |ch| && ch[i].id == id && !ch[i].deleted
  }

  /** How many posts lie at or above the cursor. */
  function Above(ch: seq<Post>, before: Option<MessageId>): (n: nat)
    ensures n <= |ch|
  {
    match before
    case None => 0
    case Some(b) => if ch == [] || ch[0].id < b then 0 else 1 + Above(ch[1..], before)
  }

  lemma {:induction false} AboveSplits(ch: seq<Post>, b: MessageId)
    requires Descending(ch)
    ensures forall j :: 0 <= j < |ch| ==> (j < Above(ch, Some(b)) <==> ch[j].id >= b)
  {
    if ch != [] && ch[0].id >= b {
      AboveSplits(ch[1..], b);
      forall j | 0 < j < |ch|
        ensures j < Above(ch, Some(b)) <==> ch[j].id >= b
      {
        assert ch[1..][j - 1] == ch[j];
      }
    }
  }

  /** The page contract: the first `limit` posts below the cursor, and a next cursor exactly when
      the page is full. */
  function PageOf(ch: seq<Post>, before: Option<MessageId>, limit: nat): (page: Page)
    ensures |page.posts| <= limit
  {
    var i := Above(ch, before);
    var e := Min(i + limit, |ch|);
    var posts := ch[i..e];
    Page(posts, if |posts| == limit && posts != [] then Some(posts[|posts| - 1].id) else None)
  }

  const I32_MAX: int := 0x7fff_ffff
  const PAGE_LIMIT: nat := 100

  /** What the wire protocol serves for an offset id: everything for zero, otherwise the ids below. */
  function Served(ch: seq<Post>, offset: int): seq<Post>
    requires offset <= I64_MAX
  {
    if offset <= 0 then ch else ch[Above(ch, Some(offset))..]
  }

  /** The cursor narrowed to 32 bits, or the newest post. */
  function Offset(before: Option<MessageId>): (offset: int)
    ensures offset <= I32_MAX
  {
    if before.Some? && -I32_MAX - 1 <= before.value <= I32_MAX then before.value else 0
  }

  /** The page the adapter makes of what it is served. */
  function Adapted(ch: seq<Post>, before: Option<MessageId>, limit: nat): Page {
    var served := Served(ch, Offset(before));
    var posts := served[..Min(Min(limit, PAGE_LIMIT), |served|)];
    Page(posts, if |posts| == limit && posts != [] then Some(posts[|posts| - 1].id) else None)
  }

  /** The adapter: it narrows the cursor to 32 bits, falling back to the newest post, caps the page and
      reads until the page is full or the channel ends. */
  method FetchPublicPosts(ch: seq<Post>, before: Option<MessageId>, limit: nat) returns (page: Page)
    ensures page == Adapted(ch, before, limit)
  {
    var offset := if before.Some? && -I32_MAX - 1 <= before.value <= I32_MAX then before.value else 0;
    var served := Served(ch, offset);
    var most := if limit < PAGE_LIMIT then limit else PAGE_LIMIT;
    var posts: seq<Post> := [];
    while |posts| < most && |posts| < |served|
      invariant |posts| <= Min(most, |served|)
      invariant posts == served[..|posts|]
    {
      posts := posts + [served[|posts|]];
    }
    page := Page(posts, if |posts| == limit && posts != [] then Some(posts[|posts| - 1].id) else None);
  }
}

/** When the adapter meets the page contract. */
module PageContract {
  import opened Schema
  import opened Provider

  /** Whatever the channel holds, the adapter serves the page of the contract. */
  ghost predicate MeetsContract(before: Option<MessageId>, limit: nat) {
    forall ch | ValidChannel(ch) :: Adapted(ch, before, limit) == PageOf(ch, before, limit)
  }

  lemma {:induction false} AdaptedIsPage(ch: seq<Post>, before: Option<MessageId>, limit: nat)
    requires limit == 0 || (limit <= PAGE_LIMIT && (before.Some? ==> 0 < before.value <= I32_MAX))
    ensures Adapted(ch, before, limit) == PageOf(ch, before, limit)
  {
    if limit > 0 {
      var served := Served(ch, Offset(before));
      assert served == ch[Above(ch, before)..];
    }
  }

  /** A post with the cursor's own id is below no such cursor, and a cursor outside the range shows it. */
  lemma {:induction false} PostAtCursor(cursor: MessageId, limit: nat)
    requires limit > 0 && !(0 < cursor <= I32_MAX)
    ensures !MeetsContract(Some(cursor), limit)
  {
    var ch := [Post(cursor, [1], Some(0), false)];
    assert ValidChannel(ch);
    assert Above(ch, Some(cursor)) == 1;
    assert Served(ch, Offset(Some(cursor))) == ch;
    assert |Adapted(ch, Some(cursor), limit).posts| == 1;
    assert PageOf(ch, Some(cursor), limit).posts == [];
  }

  /** One post more than the cap tells a larger limit apart. */
  lemma {:induction false} OnePostTooMany(before: Option<MessageId>, limit: nat)
    requires limit > PAGE_LIMIT && (before.Some? ==> 0 < before.value <= I32_MAX)
    ensures !MeetsContract(before, limit)
  {
    var top := if before.Some? then before.value - 1 else 0;
    var ch := seq(PAGE_LIMIT + 1, i requires 0 <= i <= PAGE_LIMIT => Post(top - i, [1], Some(0), false));
    assert ValidChannel(ch);
    assert Above(ch, before) == 0;
    assert Served(ch, Offset(before)) == ch;
    assert |Adapted(ch, before, limit).posts| == PAGE_LIMIT;
    assert |PageOf(ch, before, limit).posts| == PAGE_LIMIT + 1;
  }

  /** The adapter meets the page contract for exactly the limits up to the cap with a positive 32-bit
      cursor or none, and trivially for an empty page. */
  lemma {:induction false} MeetsContractExactlyWhen(before: Option<MessageId>, limit: nat)
    ensures MeetsContract(before, limit) <==>
      limit == 0 || (limit <= PAGE_LIMIT && (before.Some? ==> 0 < before.value <= I32_MAX))
  {
    if limit == 0 || (limit <= PAGE_LIMIT && (before.Some? ==> 0 < before.value <= I32_MAX)) {
      forall ch | ValidChannel(ch)
        ensures Adapted(ch, before, limit) == PageOf(ch, before, limit)
      {
        AdaptedIsPage(ch, before, limit);
      }
    } else if before.Some? && !(0 < before.value <= I32_MAX) {
      PostAtCursor(before.value, limit);
    } else {
      OnePostTooMany(before, limit);
    }
  }
}

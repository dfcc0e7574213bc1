/** The revision store: append-only observations and withdrawal by absence. */
module Revisions {
  import opened Schema

  type Rows = map<RevisionKey, Revision>
  type Manifests = map<Uuid, Manifest>

  /** What one observation carries besides its key. */
  datatype Observation = Observation(link: Link, published: Instant, observed: Instant)

  predicate IdUsed(rows: Rows, id: Uuid) {
    exists k :: k in rows && rows[k].id == id
  }

  /** `append_revision`: a known (message, digest) converges on its stored row; an identity already
      taken by another row violates the primary key. */
  function Append(rows: Rows, key: RevisionKey, newId: Uuid, seen: Observation): (r: Option<Rows>)
    ensures r.None? <==> key !in rows && IdUsed(rows, newId)
    ensures r.Some? ==> r.value.Keys == rows.Keys + {key}
    ensures r.Some? ==> forall k :: k in rows ==> r.value[k] == rows[k]
  {
    if key in rows then Some(rows)
    else if IdUsed(rows, newId) then None
    else Some(rows[key := Revision(newId, Some(key.digest.of), seen.link, seen.published, seen.observed, None, None)])
  }

  /** The ids one page proves: at or above `lowest`, below `below` when that is given. */
  datatype ProvedRange = ProvedRange(lowest: MessageId, below: Option<MessageId>)
  {
    predicate Holds(id: MessageId) {
      lowest <= id && (below.Some? ==> id < below.value)
    }
  }

  /** What a page proves gone: inside the range and not on the page, or marked deleted on it. */
  datatype Absence = Absence(range: ProvedRange, present: set<MessageId>, deleted: set<MessageId>)
  {
    predicate Covers(id: MessageId) {
      (range.Holds(id) && id !in present) || id in deleted
    }
  }

  function Withdrawn(row: Revision, at: Instant): Revision {
    row.(deleted := Some(at), body := None, minimized := if row.minimized.Some? then row.minimized else Some(at))
  }

  function WithoutText(m: Manifest, at: Instant): Manifest {
    m.(text := None, minimized := Some(at))
  }

  predicate Hit(k: RevisionKey, row: Revision, channel: Uuid, gone: Absence) {
    k.channel == channel && row.deleted.None? && gone.Covers(k.message)
  }

  predicate Touches(m: Manifest, channel: Uuid, gone: Absence) {
    m.text.Some? && exists x :: x in m.messages && x.channel == channel && gone.Covers(x.id)
  }

  /** `withdraw_missing`, one statement over both tables. */
  function WithdrawRows(rows: Rows, channel: Uuid, gone: Absence, at: Instant): (r: Rows)
    ensures r.Keys == rows.Keys
  {
    map k | k in rows :: if Hit(k, rows[k], channel, gone) then Withdrawn(rows[k], at) else rows[k]
  }

  function WithdrawTexts(manifests: Manifests, channel: Uuid, gone: Absence, at: Instant): (r: Manifests)
    ensures r.Keys == manifests.Keys
  {
    map r | r in manifests ::
      if Touches(manifests[r], channel, gone) then WithoutText(manifests[r], at) else manifests[r]
  }

  function WithdrawMissing(t: Tables, channel: Uuid, gone: Absence, at: Instant): Tables {
    t.(revisions := WithdrawRows(t.revisions, channel, gone, at),
       manifests := WithdrawTexts(t.manifests, channel, gone, at))
  }
}

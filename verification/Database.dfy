/** The database as an object: tables that statements change in place, and transactions that can be
    rolled back. */
module Databases {
  import opened Schema
  import opened Coordinator
  import R = Reports

  class Database {
    var channels: map<Uuid, Channel>
    var subscriptions: map<SubscriptionKey, Subscription>
    var revisions: map<RevisionKey, Revision>
    var leases: map<LeaseKey, Checkpoint>
    var runs: map<Uuid, Run>
    var manifests: map<Uuid, Manifest>
    var results: map<Uuid, Result>
    var inbox: map<Decision, InboxRow>
    var outbox: map<OutboxKey, OutboxRow>

    /** All tables at this moment. */
    function Snapshot(): Tables
      reads this
    {
      Tables(channels, subscriptions, revisions, leases, runs, manifests, results, inbox, outbox)
    }

    constructor ()
      ensures Snapshot() == Tables(map[], map[], map[], map[], map[], map[], map[], map[], map[])
    {
      channels, subscriptions, revisions, leases := map[], map[], map[], map[];
      runs, manifests, results, inbox, outbox := map[], map[], map[], map[], map[];
    }

    method Rollback(t: Tables)
      modifies this
      ensures Snapshot() == t
    {
      channels, subscriptions, revisions, leases := t.channels, t.subscriptions, t.revisions, t.leases;
      runs, manifests, results, inbox, outbox := t.runs, t.manifests, t.results, t.inbox, t.outbox;
    }

    /** `insert into outbox_messages ... on conflict do nothing`. */
    method Enqueue(key: OutboxKey, row: OutboxRow)
      modifies this`outbox
      ensures outbox == R.Enqueue(old(outbox), key, row)
    {
      if key !in outbox {
        outbox := outbox[key := row];
      }
    }

    /** Reports the operation of an on-demand run and stays silent for a scheduled one. */
    method ReportRun(run: Uuid, owner: Uuid, status: OperationStatus, row: OutboxRow)
      modifies this`outbox
      ensures Snapshot() == R.ReportRun(old(Snapshot()), run, owner, status, row)
    {
      if run in runs && runs[run].owner == owner && runs[run].trigger.OnDemand? {
        Enqueue(ReportOf(runs[run].operation, status), row);
      }
    }

    /** `insert into inbox_messages ... 'processing' on conflict do nothing`. */
    method InsertDecision(message: Uuid, decision: Decision) returns (inserted: bool)
      modifies this`inbox
      ensures inserted <==> !Decided(old(Snapshot()), message, decision)
      ensures inbox == if inserted then old(inbox)[decision := InboxRow(message, Processing, None)] else old(inbox)
    {
      inserted := decision !in inbox && !exists d :: d in inbox && inbox[d].message == message;
      if inserted {
        inbox := inbox[decision := InboxRow(message, Processing, None)];
      }
    }

    method CompleteDecision(decision: Decision)
      requires decision in inbox
      modifies this`inbox
      ensures inbox == old(inbox)[decision := InboxRow(old(inbox)[decision].message, Handled, None)]
    {
      inbox := inbox[decision := InboxRow(inbox[decision].message, Handled, None)];
    }
  }
}

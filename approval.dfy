/**
 * The plan-approval store of `vibe/approval.py`: pending approvals kept in
 * memory under their ids, decided by a user, waited on by a worker.
 *
 * Each approval is an object, shared between the store and the worker that
 * waits on it; the store maps ids to those objects and keeps the ids in
 * insertion order, as a Python `dict` does. The event an approval is
 * signalled through is the boolean `signalled`; waiting on it reports that
 * flag (the model has no threads, so nothing else can happen while waiting).
 */
module Approval {
  import opened Wrappers
  import opened Strings

  datatype Decision = Pending | Approved | Rejected

  /** `PendingApproval`: one plan awaiting a decision. */
  class PendingApproval {
    const approvalId: string
    const taskName: string
    const workerId: string
    const planText: string
    var decision: Decision
    var signalled: bool

    constructor (approvalId: string, taskName: string, workerId: string, planText: string)
      ensures this.approvalId == approvalId && this.taskName == taskName
      ensures this.workerId == workerId && this.planText == planText
      ensures decision == Pending && !signalled
    {
      this.approvalId := approvalId;
      this.taskName := taskName;
      this.workerId := workerId;
      this.planText := planText;
      decision := Pending;
      signalled := false;
    }

    /** `wait(timeout)`: whether the approval has been signalled. */
    method Wait() returns (isSet: bool)
      ensures isSet == signalled
    {
      isSet := signalled;
    }

    /** `approve()`: sets the decision, whatever it was, and signals. */
    method Approve()
      modifies this
      ensures decision == Approved && signalled
    {
      decision := Approved;
      signalled := true;
    }

    /** `reject()`: sets the decision, whatever it was, and signals. */
    method Reject()
      modifies this
      ensures decision == Rejected && signalled
    {
      decision := Rejected;
      signalled := true;
    }
  }

  /** What an approval holds, as a value. */
  datatype Record = Record(taskName: string, workerId: string, planText: string, decision: Decision, signalled: bool)

  function RecordOf(p: PendingApproval): Record
    reads p
  {
    Record(p.taskName, p.workerId, p.planText, p.decision, p.signalled)
  }

  // ============================================ the store, as values

  /** The store after `submit`: a fresh, undecided record under `id`. */
  function Submitted(m: map<string, Record>, id: string, task: string, worker: string, plan: string)
    : (r: map<string, Record>)
    ensures r.Keys == m.Keys + {id}
    ensures r[id] == Record(task, worker, plan, Pending, false)
    ensures forall k :: k in m && k != id ==> r[k] == m[k]
  {
    m[id := Record(task, worker, plan, Pending, false)]
  }

  lemma SameMap<K, V>(a: map<K, V>, b: map<K, V>)
    requires a.Keys == b.Keys && forall k :: k in a ==> a[k] == b[k]
    ensures a == b
  {
  }

  /** A dict keeps the place of a key that is assigned again. */
  function OrderAfterSubmit(order: seq<string>, id: string): (r: seq<string>)
    ensures forall k :: k in r <==> k in order || k == id
    ensures NoDuplicates(order) ==> NoDuplicates(r)
  {
    if id in order then order
    else
      NoDuplicatesSnoc(order, id);
      order + [id]
  }

  /** The store after `approve(id)` (`d` is `Approved`) or `reject(id)`
      (`d` is `Rejected`). */
  function Decided(m: map<string, Record>, id: string, d: Decision): (r: map<string, Record>)
    ensures r.Keys == m.Keys
    ensures id in m ==> r[id] == m[id].(decision := d, signalled := true)
    ensures forall k :: k in m && k != id ==> r[k] == m[k]
    ensures id !in m ==> r == m
  {
    if id in m then m[id := m[id].(decision := d, signalled := true)] else m
  }

  /** The store after `remove(id)`. */
  function Removed(m: map<string, Record>, id: string): (r: map<string, Record>)
    ensures r.Keys == m.Keys - {id}
    ensures forall k :: k in r ==> r[k] == m[k]
  {
    m - {id}
  }

  /** The order without `id`. */
  function Without(order: seq<string>, id: string): (r: seq<string>)
    ensures forall k :: k in r <==> k in order && k != id
    ensures NoDuplicates(order) ==> NoDuplicates(r)
    decreases |order|
  {
    if order == [] then []
    else
      var p := order[..|order| - 1];
      var x := order[|order| - 1];
      var rest := Without(p, id);
      assert forall k :: k in order <==> k in p || k == x by {
        assert order == p + [x];
      }
      if x == id then rest
      else
        NoDuplicatesSnoc(rest, x);
        rest + [x]
  }

  /** `list_pending()`'s ids: those whose record is undecided, in order. */
  function PendingIds(order: seq<string>, m: map<string, Record>): (r: seq<string>)
    ensures forall k :: k in r <==> k in order && k in m && m[k].decision == Pending
    ensures |r| <= |order|
    decreases |order|
  {
    if order == [] then []
    else
      var prev := PendingIds(order[..|order| - 1], m);
      var k := order[|order| - 1];
      assert forall x :: x in order <==> x in order[..|order| - 1] || x == k by {
        assert order == order[..|order| - 1] + [k];
      }
      if k in m && m[k].decision == Pending then prev + [k] else prev
  }

  lemma PendingIdsSnoc(order: seq<string>, k: string, m: map<string, Record>)
    ensures PendingIds(order + [k], m)
      == if k in m && m[k].decision == Pending then PendingIds(order, m) + [k] else PendingIds(order, m)
  {
    assert (order + [k])[..|order|] == order;
  }

  /** A decided approval leaves the pending list, and is still in the store. */
  lemma DecidedLeavesPending(order: seq<string>, m: map<string, Record>, id: string, d: Decision)
    requires d != Pending
    ensures id !in PendingIds(order, Decided(m, id, d))
    ensures id in Decided(m, id, d) <==> id in m
  {
  }

  /** Deciding one approval leaves every other one's pending status alone. */
  lemma DecidingKeepsOthers(order: seq<string>, m: map<string, Record>, id: string, d: Decision, k: string)
    requires k != id
    ensures k in PendingIds(order, Decided(m, id, d)) <==> k in PendingIds(order, m)
  {
  }

  /** A submitted approval is pending until decided. */
  lemma SubmittedIsPending(order: seq<string>, m: map<string, Record>, id: string, task: string, worker: string, plan: string)
    ensures id in PendingIds(OrderAfterSubmit(order, id), Submitted(m, id, task, worker, plan))
  {
  }

  /** Once signalled, an approval stays signalled whatever is decided. */
  lemma SignalStays(m: map<string, Record>, id: string, d: Decision, k: string)
    requires k in m && m[k].signalled
    ensures Decided(m, id, d)[k].signalled
  {
  }

  /** There is no one-shot guard: a later decision overwrites an earlier one. */
  lemma LaterDecisionWins(m: map<string, Record>, id: string, d1: Decision, d2: Decision)
    ensures Decided(Decided(m, id, d1), id, d2) == Decided(m, id, d2)
  {
  }

  /** After `remove(id)` the id is gone, and removing it again changes nothing. */
  lemma RemoveIdempotent(m: map<string, Record>, id: string)
    ensures id !in Removed(m, id)
    ensures Removed(Removed(m, id), id) == Removed(m, id)
    ensures id !in m ==> Removed(m, id) == m
  {
  }

  // ================================================ the store, in place

  /** `ApprovalStore`. */
  class ApprovalStore {
    var items: map<string, PendingApproval>
    /** The keys of `items`, in insertion order. */
    var order: seq<string>

    /** Every id is listed once, and each approval is stored under its own
        id (so no two ids share an approval). */
    ghost predicate Valid()
      reads this
    {
      && (forall k :: k in items <==> k in order)
      && NoDuplicates(order)
      && (forall k :: k in items ==> items[k].approvalId == k)
    }

    function Records(): set<PendingApproval>
      reads this
    {
      set k | k in items :: items[k]
    }

    /** The store's contents, as values. */
    function Snapshot(): map<string, Record>
      reads this, Records()
    {
      map k | k in items :: RecordOf(items[k])
    }

    constructor ()
      ensures Valid() && items == map[] && order == []
    {
      items := map[];
      order := [];
    }

    /** `submit(task_name, worker_id, plan_text)`; `id` is the approval id
        (`uuid4().hex[:12]` in the source). */
    method Submit(id: string, taskName: string, workerId: string, planText: string)
      returns (item: PendingApproval)
      requires Valid()
      modifies this
      ensures Valid() && fresh(item)
      ensures items == old(items)[id := item] && order == OrderAfterSubmit(old(order), id)
      ensures item.approvalId == id && item.decision == Pending && !item.signalled
      ensures Snapshot() == Submitted(old(Snapshot()), id, taskName, workerId, planText)
    {
      ghost var before := Snapshot();
      item := new PendingApproval(id, taskName, workerId, planText);
      order := OrderAfterSubmit(order, id);
      items := items[id := item];
      ghost var now := Snapshot();
      ghost var after := Submitted(before, id, taskName, workerId, planText);
      assert now.Keys == after.Keys;
      forall k | k in now
        ensures now[k] == after[k]
      {
        if k != id {
          assert items[k] == old(items)[k];
          assert before[k] == old(RecordOf(items[k]));
        }
      }
      SameMap(now, after);
    }

    /** `get(approval_id)`: the very object stored, or nothing. */
    method Get(id: string) returns (r: Option<PendingApproval>)
      ensures id in items ==> r == Some(items[id])
      ensures id !in items ==> r == None
    {
      if id in items {
        r := Some(items[id]);
      } else {
        r := None;
      }
    }

    /** `list_pending()`: the undecided approvals, in insertion order. */
    method ListPending() returns (r: seq<PendingApproval>)
      requires Valid()
      ensures r == ApprovalsOf(PendingIds(order, Snapshot()))
      ensures forall p :: p in r <==> p in Records() && p.decision == Pending
    {
      r := CollectPending();
      ListedPending(r);
    }

    /** The loop of `list_pending()`. */
    method CollectPending() returns (r: seq<PendingApproval>)
      requires forall k :: k in order ==> k in items
      ensures r == ApprovalsOf(PendingIds(order, Snapshot()))
    {
      ghost var snap := Snapshot();
      assert forall x :: x in snap ==> x in items;
      r := [];
      var i := 0;
      while i < |order|
        invariant 0 <= i <= |order|
        invariant r == ApprovalsOf(PendingIds(order[..i], snap))
      {
        var k := order[i];
        assert order[..i + 1] == order[..i] + [k];
        CollectStep(order[..i], k, snap, r);
        if items[k].decision == Pending {
          r := r + [items[k]];
        }
        i := i + 1;
      }
      assert order[..|order|] == order;
      assert snap == Snapshot();
    }

    lemma CollectStep(prefix: seq<string>, k: string, snap: map<string, Record>, r: seq<PendingApproval>)
      requires snap == Snapshot()
      requires k in items && forall x :: x in prefix ==> x in items
      requires r == ApprovalsOf(PendingIds(prefix, snap))
      ensures (if items[k].decision == Pending then r + [items[k]] else r)
        == ApprovalsOf(PendingIds(prefix + [k], snap))
    {
      PendingIdsSnoc(prefix, k, snap);
      assert snap[k].decision == items[k].decision;
      if items[k].decision == Pending {
        ApprovalsOfSnoc(PendingIds(prefix, snap), k);
      }
    }

    /** The approvals stored under `ids`. */
    function ApprovalsOf(ids: seq<string>): (r: seq<PendingApproval>)
      requires forall k :: k in ids ==> k in items
      reads this
      ensures |r| == |ids| && forall i :: 0 <= i < |ids| ==> r[i] == items[ids[i]]
      decreases |ids|
    {
      if ids == [] then [] else ApprovalsOf(ids[..|ids| - 1]) + [items[ids[|ids| - 1]]]
    }

    lemma ApprovalsOfSnoc(ids: seq<string>, k: string)
      requires forall x :: x in ids ==> x in items
      requires k in items
      ensures ApprovalsOf(ids + [k]) == ApprovalsOf(ids) + [items[k]]
    {
      assert (ids + [k])[..|ids|] == ids;
    }

    lemma ListedPending(r: seq<PendingApproval>)
      requires Valid()
      requires r == ApprovalsOf(PendingIds(order, Snapshot()))
      ensures forall p :: p in r <==> p in Records() && p.decision == Pending
    {
      var ids := PendingIds(order, Snapshot());
      forall p | p in Records() && p.decision == Pending
        ensures p in r
      {
        var k :| k in items && items[k] == p;
        assert k in ids;
        var i :| 0 <= i < |ids| && ids[i] == k;
        assert r[i] == p;
      }
      forall p | p in r
        ensures p in Records() && p.decision == Pending
      {
        var i :| 0 <= i < |r| && r[i] == p;
        assert ids[i] in ids;
      }
    }

    /** `approve(approval_id)`: true iff the id is present. */
    method Approve(id: string) returns (ok: bool)
      requires Valid()
      modifies Records()
      ensures Valid() && items == old(items) && order == old(order)
      ensures ok <==> id in items
      ensures Snapshot() == Decided(old(Snapshot()), id, Approved)
    {
      if id !in items {
        return false;
      }
      var item := items[id];
      item.Approve();
      ok := true;
    }

    /** `reject(approval_id)`: true iff the id is present. */
    method Reject(id: string) returns (ok: bool)
      requires Valid()
      modifies Records()
      ensures Valid() && items == old(items) && order == old(order)
      ensures ok <==> id in items
      ensures Snapshot() == Decided(old(Snapshot()), id, Rejected)
    {
      if id !in items {
        return false;
      }
      var item := items[id];
      item.Reject();
      ok := true;
    }

    /** `remove(approval_id)`: no error when the id is absent. */
    method Remove(id: string)
      requires Valid()
      modifies this
      ensures Valid()
      ensures items == old(items) - {id} && order == Without(old(order), id)
      ensures Snapshot() == Removed(old(Snapshot()), id)
    {
      items := items - {id};
      order := Without(order, id);
    }
  }
}

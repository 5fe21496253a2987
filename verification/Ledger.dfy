/** The durable receipts table: one row per request id, first write wins. */
module Ledger {
  import opened Counting

  type Id = string

  datatype Option<+T> = None | Some(value: T)

  datatype Disposition = Accepted | Delayed | Rejected

  /** The columns the reconciliations read. */
  datatype Receipt = Receipt(
    selectedModel: string,
    routeReason: string,
    policyName: string,
    disposition: Option<Disposition>,
    fallbackFrom: Option<string>
  )

  type Table = map<Id, Receipt>

  /** INSERT ... ON CONFLICT (request_id) DO NOTHING. */
  function Insert(t: Table, id: Id, r: Receipt): Table {
    if id in t then t else t[id := r]
  }

  function InsertAll(t: Table, ids: seq<Id>, rs: seq<Receipt>): Table
    requires |ids| == |rs|
  {
    if |ids| == 0 then t
    else Insert(InsertAll(t, ids[..|ids| - 1], rs[..|rs| - 1]), ids[|ids| - 1], rs[|rs| - 1])
  }

  lemma InsertAllSnoc(t: Table, ids: seq<Id>, rs: seq<Receipt>, id: Id, r: Receipt)
    requires |ids| == |rs|
    ensures InsertAll(t, ids + [id], rs + [r]) == Insert(InsertAll(t, ids, rs), id, r)
  {
    assert (ids + [id])[..|ids|] == ids && (rs + [r])[..|rs|] == rs;
  }

  /** DELETE FROM receipts WHERE policy_name = policy. */
  function DeletePolicy(t: Table, policy: string): Table {
    map id | id in t && t[id].policyName != policy :: t[id]
  }

  /** SELECT count(*) ... WHERE p. */
  function CountWhere(t: Table, p: Receipt -> bool): nat {
    |Select(t, p)|
  }

  /** Distinct ids, none of them used before: what `uuid4` is relied on for. */
  predicate Fresh(t: Table, ids: seq<Id>) {
    && (forall i | 0 <= i < |ids| :: ids[i] !in t)
    && (forall i, j | 0 <= i < j < |ids| :: ids[i] != ids[j])
  }

  lemma InsertCount(t: Table, id: Id, r: Receipt, p: Receipt -> bool)
    requires id !in t
    ensures CountWhere(Insert(t, id, r), p) == CountWhere(t, p) + (if p(r) then 1 else 0)
  {
    SelectUpdate(t, id, r, p);
  }

  lemma {:induction false} InsertAllKeys(t: Table, ids: seq<Id>, rs: seq<Receipt>)
    requires |ids| == |rs|
    ensures forall k | k in InsertAll(t, ids, rs) :: k in t || k in ids
    ensures forall k | k in t :: k in InsertAll(t, ids, rs) && InsertAll(t, ids, rs)[k] == t[k]
  {
    if |ids| == 0 {
    } else {
      InsertAllKeys(t, ids[..|ids| - 1], rs[..|rs| - 1]);
    }
  }

  /** The last of fresh ids is still unused when its turn comes. */
  lemma FreshLast(t: Table, ids: seq<Id>, rs: seq<Receipt>)
    requires |ids| == |rs| > 0 && Fresh(t, ids)
    ensures var n := |ids| - 1;
            Fresh(t, ids[..n]) && ids[n] !in InsertAll(t, ids[..n], rs[..n])
  {
    hide InsertAll;
    var n := |ids| - 1;
    InsertAllKeys(t, ids[..n], rs[..n]);
    assert ids[n] !in ids[..n];
  }

  lemma InsertSize(t: Table, id: Id, r: Receipt)
    requires id !in t
    ensures |Insert(t, id, r)| == |t| + 1
  {
  }

  /** With fresh ids nothing is lost: every query grows by exactly the matching
      receipts, and the table by exactly their number. */
  lemma {:induction false} InsertAllConserves(t: Table, ids: seq<Id>, rs: seq<Receipt>, p: Receipt -> bool)
    requires |ids| == |rs| && Fresh(t, ids)
    ensures CountWhere(InsertAll(t, ids, rs), p) == CountWhere(t, p) + CountIf(rs, p)
    ensures |InsertAll(t, ids, rs)| == |t| + |rs|
  {
    hide Fresh, Insert, Select;
    if |ids| == 0 {
    } else {
      var n := |ids| - 1;
      var prev := InsertAll(t, ids[..n], rs[..n]);
      FreshLast(t, ids, rs);
      InsertAllConserves(t, ids[..n], rs[..n], p);
      InsertCount(prev, ids[n], rs[n], p);
      InsertSize(prev, ids[n], rs[n]);
    }
  }

  /** The ids in the table afterwards are the old ones and the given ones. */
  lemma {:induction false} InsertAllKeysExact(t: Table, ids: seq<Id>, rs: seq<Receipt>)
    requires |ids| == |rs|
    ensures forall k :: k in InsertAll(t, ids, rs) <==> k in t || k in ids
  {
    if |ids| == 0 {
    } else {
      var n := |ids| - 1;
      InsertAllKeysExact(t, ids[..n], rs[..n]);
      assert ids == ids[..n] + [ids[n]];
    }
  }

  /** With fresh ids each id has its own receipt. */
  lemma {:induction false} InsertAllRowAt(t: Table, ids: seq<Id>, rs: seq<Receipt>, i: nat)
    requires |ids| == |rs| && Fresh(t, ids) && i < |ids|
    ensures ids[i] in InsertAll(t, ids, rs) && InsertAll(t, ids, rs)[ids[i]] == rs[i]
  {
    hide Fresh;
    var n := |ids| - 1;
    FreshLast(t, ids, rs);
    if i < n {
      InsertAllRowAt(t, ids[..n], rs[..n], i);
    }
  }

  /** Without, some receipt is silently lost. */
  lemma {:induction false} InsertAllLoses(t: Table, ids: seq<Id>, rs: seq<Receipt>)
    requires |ids| == |rs|
    ensures |InsertAll(t, ids, rs)| <= |t| + |ids|
    ensures |InsertAll(t, ids, rs)| == |t| + |ids| <==> Fresh(t, ids)
  {
    hide Insert;
    if |ids| == 0 {
    } else {
      var n := |ids| - 1;
      var prev := InsertAll(t, ids[..n], rs[..n]);
      InsertAllLoses(t, ids[..n], rs[..n]);
      InsertAllKeysExact(t, ids[..n], rs[..n]);
      InsertSizeIff(prev, ids[n], rs[n]);
      FreshSnoc(t, ids);
    }
  }

  lemma InsertSizeIff(t: Table, id: Id, r: Receipt)
    ensures |Insert(t, id, r)| == |t| + (if id in t then 0 else 1)
  {
  }

  lemma FreshSnoc(t: Table, ids: seq<Id>)
    requires |ids| > 0
    ensures var n := |ids| - 1;
            Fresh(t, ids) <==> Fresh(t, ids[..n]) && ids[n] !in t && ids[n] !in ids[..n]
  {
    var n := |ids| - 1;
    assert forall i | 0 <= i < n :: ids[..n][i] == ids[i];
    if Fresh(t, ids) { assert ids[n] !in ids[..n]; }
    if Fresh(t, ids[..n]) && ids[n] !in t && ids[n] !in ids[..n] {
      forall i, j | 0 <= i < j < |ids| ensures ids[i] != ids[j] {
        if j == n { assert ids[i] in ids[..n]; }
      }
      forall i | 0 <= i < |ids| ensures ids[i] !in t { if i < n { assert ids[..n][i] !in t; } }
    }
  }

  /** Every row of another policy is still there with its value. */
  ghost predicate OthersKept(t: Table, t': Table, policy: string) {
    forall id | id in t && t[id].policyName != policy :: id in t' && t'[id] == t[id]
  }

  /** Deleting a policy's rows keeps exactly the others, unchanged. */
  lemma DeletePolicyKeeps(t: Table, policy: string)
    ensures OthersKept(t, DeletePolicy(t, policy), policy)
    ensures forall id | id in DeletePolicy(t, policy) :: id in t && t[id].policyName != policy
  {
  }

  /** So no other query notices. */
  lemma OtherQueriesUnchanged(t: Table, policy: string, p: Receipt -> bool)
    requires forall r: Receipt :: p(r) ==> r.policyName != policy
    ensures CountWhere(DeletePolicy(t, policy), p) == CountWhere(t, p)
  {
    assert Select(DeletePolicy(t, policy), p) == Select(t, p);
  }

  /** Inserting never touches what is there. */
  lemma OthersKeptByInserts(t: Table, policy: string, ids: seq<Id>, rs: seq<Receipt>)
    requires |ids| == |rs|
    ensures OthersKept(t, InsertAll(DeletePolicy(t, policy), ids, rs), policy)
  {
    hide InsertAll;
    DeletePolicyKeeps(t, policy);
    InsertAllKeys(DeletePolicy(t, policy), ids, rs);
  }

  /** Removing a policy's rows leaves none of them. */
  lemma DeletePolicyClears(t: Table, policy: string, p: Receipt -> bool)
    requires forall r: Receipt :: p(r) ==> r.policyName == policy
    ensures CountWhere(DeletePolicy(t, policy), p) == 0
  {
    var t' := DeletePolicy(t, policy);
    assert Select(t', p) == {};
  }

  /** The PostgreSQL table as the services share it. */
  class Postgres {
    var receipts: Table

    constructor ()
      ensures receipts == map[]
    {
      receipts := map[];
    }

    method InsertReceipt(id: Id, r: Receipt)
      modifies this
      ensures receipts == Insert(old(receipts), id, r)
      ensures forall k | k in old(receipts) :: k in receipts && receipts[k] == old(receipts)[k]
    {
      if id !in receipts {
        receipts := receipts[id := r];
      }
    }

    method ClearPolicy(policy: string)
      modifies this
      ensures receipts == DeletePolicy(old(receipts), policy)
      ensures OthersKept(old(receipts), receipts, policy)
      ensures forall id | id in receipts :: receipts[id].policyName != policy
    {
      DeletePolicyKeeps(receipts, policy);
      receipts := map id | id in receipts && receipts[id].policyName != policy :: receipts[id];
    }
  }
}

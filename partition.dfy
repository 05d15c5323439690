/** The `by_id` index and the approved/unapproved split of `main`. The
    split pops `approved` from the very dict objects the index holds. */
module Partitioning {
  import opened Json

  /** Every transaction has a hashable `id`, so the index can be built. */
  predicate IdsHashable(ts: seq<map<string, Json>>) {
    forall i :: 0 <= i < |ts| ==> "id" in ts[i] && Hashable(ts[i]["id"])
  }

  /** `{ transaction['id']: transaction for transaction in transactions }`:
      a transaction without `id` raises KeyError and an unhashable id raises
      TypeError. */
  function ById(txns: seq<Record>): (r: Result<map<Json, Record>>)
    reads txns
    ensures r.Success? <==> IdsHashable(FieldsOf(txns))
    decreases |txns|
  {
    if txns == [] then Success(map[])
    else
      var index :- ById(txns[..|txns| - 1]);
      var last := txns[|txns| - 1];
      if "id" !in last.fields then Failure(KeyError(JStr("id")))
      else if !Hashable(last.fields["id"]) then Failure(TypeError)
      else Success(index[last.fields["id"] := last])
  }

  /** Transaction `j` carries an id and no later transaction carries the
      same one. */
  ghost predicate LastIn(ts: seq<map<string, Json>>, j: int) {
    && 0 <= j < |ts|
    && "id" in ts[j]
    && forall k :: j < k < |ts| && "id" in ts[k] ==> ts[k]["id"] != ts[j]["id"]
  }

  /** The index holds every transaction's id. */
  lemma {:induction false} ByIdKeys(txns: seq<Record>)
    requires ById(txns).Success?
    ensures forall i :: 0 <= i < |txns| ==> txns[i].fields["id"] in ById(txns).value
    decreases |txns|
  {
    if txns != [] {
      var init := txns[..|txns| - 1];
      ByIdKeys(init);
      forall i | 0 <= i < |init|
        ensures init[i] == txns[i]
      {
      }
    }
  }

  /** The dicts of `txns` without its last record are the dicts of
      `txns` without their last entry. */
  lemma FieldsOfInit(txns: seq<Record>)
    requires txns != []
    ensures forall k :: 0 <= k < |txns| - 1 ==> FieldsOf(txns[..|txns| - 1])[k] == FieldsOf(txns)[k]
  {
    var init := txns[..|txns| - 1];
    forall k | 0 <= k < |init|
      ensures FieldsOf(init)[k] == FieldsOf(txns)[k]
    {
      assert init[k] == txns[k];
    }
  }

  /** Each key of the index maps to the last transaction that carries it. */
  lemma {:induction false} ByIdOwners(txns: seq<Record>)
    requires ById(txns).Success?
    ensures forall id :: id in ById(txns).value ==>
              exists j :: LastIn(FieldsOf(txns), j) && ById(txns).value[id] == txns[j] && txns[j].fields["id"] == id
    decreases |txns|
  {
    if txns != [] {
      var n := |txns| - 1;
      var init := txns[..n];
      ByIdOwners(init);
      FieldsOfInit(txns);
      var ts, its := FieldsOf(txns), FieldsOf(init);
      var index := ById(txns).value;
      var lastId := txns[n].fields["id"];
      assert index == ById(init).value[lastId := txns[n]];
      forall id | id in index
        ensures exists j :: LastIn(ts, j) && index[id] == txns[j] && txns[j].fields["id"] == id
      {
        if id == lastId {
          assert LastIn(ts, n);
        } else {
          var j :| LastIn(its, j) && ById(init).value[id] == init[j] && init[j].fields["id"] == id;
          assert LastIn(ts, j);
        }
      }
    }
  }

  /** Of several transactions with one id, the index keeps the last. */
  lemma {:induction false} ByIdLastWins(txns: seq<Record>)
    requires ById(txns).Success?
    ensures forall i :: LastIn(FieldsOf(txns), i) ==>
              txns[i].fields["id"] in ById(txns).value && ById(txns).value[txns[i].fields["id"]] == txns[i]
    decreases |txns|
  {
    if txns != [] {
      var n := |txns| - 1;
      var init := txns[..n];
      ByIdLastWins(init);
      FieldsOfInit(txns);
      var ts, its := FieldsOf(txns), FieldsOf(init);
      forall i | LastIn(ts, i)
        ensures txns[i].fields["id"] in ById(txns).value && ById(txns).value[txns[i].fields["id"]] == txns[i]
      {
        if i < n {
          assert LastIn(its, i);
          assert init[i] == txns[i];
        }
      }
    }
  }

  /** An input or output of the split: `id`, `details` and the category
      label (`category` for an approved one, `proposed_category` otherwise). */
  datatype Labelled = Labelled(id: Json, details: map<string, Json>, category: Json)

  /** The split's two output lists. */
  datatype Split = Split(approved: seq<Labelled>, unapproved: seq<Labelled>)

  /** The dict `{'id', 'details', 'category'}` appended to `approved`. */
  function ApprovedJson(x: Labelled): Json {
    JObj(map["id" := x.id, "details" := JObj(x.details), "category" := x.category])
  }

  /** The dict `{'id', 'details', 'proposed_category'}` appended to `unapproved`. */
  function UnapprovedJson(x: Labelled): Json {
    JObj(map["id" := x.id, "details" := JObj(x.details), "proposed_category" := x.category])
  }

  /** One transaction's turn of the loop, on its dict as it was before:
      pop `approved` (KeyError if missing), copy, pop `id` and
      `category_name` from the copy (KeyError if missing). The flag is the
      truth value of the popped `approved`. */
  function Reshape(m: map<string, Json>): (r: Result<(bool, Labelled)>)
    ensures r.Success? <==> "approved" in m && "id" in m && "category_name" in m
    ensures "approved" !in m ==> r == Failure(KeyError(JStr("approved")))
    ensures "approved" in m && "id" !in m ==> r == Failure(KeyError(JStr("id")))
    ensures "approved" in m && "id" in m && "category_name" !in m ==> r == Failure(KeyError(JStr("category_name")))
    ensures r.Success? ==> r.value.0 == Truthy(m["approved"])
    ensures r.Success? ==> r.value.1.id == m["id"] && r.value.1.category == m["category_name"]
    ensures r.Success? ==> r.value.1.details.Keys == m.Keys - {"approved", "id", "category_name"}
    ensures r.Success? ==> forall k :: k in r.value.1.details ==> r.value.1.details[k] == m[k]
  {
    if "approved" !in m then Failure(KeyError(JStr("approved")))
    else
      var txn := m - {"approved"};
      if "id" !in txn then Failure(KeyError(JStr("id")))
      else if "category_name" !in txn then Failure(KeyError(JStr("category_name")))
      else Success((Truthy(m["approved"]), Labelled(txn["id"], txn - {"id", "category_name"}, txn["category_name"])))
  }

  /** The split of a list of transaction dicts, in the loop's order; the first
      transaction whose turn fails decides the error. */
  function PartitionAll(ts: seq<map<string, Json>>): (r: Result<Split>)
    ensures r.Success? <==> forall i :: 0 <= i < |ts| ==> Reshape(ts[i]).Success?
    decreases |ts|
  {
    if ts == [] then Success(Split([], []))
    else
      var s :- PartitionAll(ts[..|ts| - 1]);
      var step :- Reshape(ts[|ts| - 1]);
      if step.0 then Success(Split(s.approved + [step.1], s.unapproved))
      else Success(Split(s.approved, s.unapproved + [step.1]))
  }

  /** Reference definition of one side of the split: the reshaped
      transactions whose flag is `flag`, in input order. */
  function Side(ts: seq<map<string, Json>>, flag: bool): seq<Labelled>
    requires forall i :: 0 <= i < |ts| ==> Reshape(ts[i]).Success?
  {
    if ts == [] then []
    else
      var step := Reshape(ts[0]).value;
      (if step.0 == flag then [step.1] else []) + Side(ts[1..], flag)
  }

  lemma {:induction false} SideAppend(ts: seq<map<string, Json>>, m: map<string, Json>, flag: bool)
    requires forall i :: 0 <= i < |ts| ==> Reshape(ts[i]).Success?
    requires Reshape(m).Success?
    ensures Side(ts + [m], flag) ==
              Side(ts, flag) + (if Reshape(m).value.0 == flag then [Reshape(m).value.1] else [])
    decreases |ts|
  {
    if ts == [] {
      assert [m][1..] == [];
      assert [m][0] == m;
    } else {
      assert (ts + [m])[0] == ts[0];
      assert (ts + [m])[1..] == ts[1..] + [m];
      SideAppend(ts[1..], m, flag);
    }
  }

  /** The split is total, disjoint and order-preserving: the approved list is
      exactly the transactions whose `approved` is truthy, the unapproved list
      exactly the others, each in input order. */
  lemma {:induction false} PartitionIsSides(ts: seq<map<string, Json>>)
    requires PartitionAll(ts).Success?
    ensures PartitionAll(ts).value.approved == Side(ts, true)
    ensures PartitionAll(ts).value.unapproved == Side(ts, false)
    decreases |ts|
  {
    if ts != [] {
      var init := ts[..|ts| - 1];
      PartitionIsSides(init);
      assert ts == init + [ts[|ts| - 1]];
      SideAppend(init, ts[|ts| - 1], true);
      SideAppend(init, ts[|ts| - 1], false);
    }
  }

  lemma {:induction false} SidesCover(ts: seq<map<string, Json>>)
    requires forall i :: 0 <= i < |ts| ==> Reshape(ts[i]).Success?
    ensures |Side(ts, true)| + |Side(ts, false)| == |ts|
    decreases |ts|
  {
    if ts != [] {
      SidesCover(ts[1..]);
    }
  }

  /** Every transaction lands in exactly one list. */
  lemma PartitionSizes(ts: seq<map<string, Json>>)
    requires PartitionAll(ts).Success?
    ensures |PartitionAll(ts).value.approved| + |PartitionAll(ts).value.unapproved| == |ts|
  {
    PartitionIsSides(ts);
    SidesCover(ts);
  }

  lemma {:induction false} PartitionFailurePersists(ts: seq<map<string, Json>>, k: nat)
    requires k <= |ts|
    requires PartitionAll(ts[..k]).Failure?
    ensures PartitionAll(ts) == PartitionAll(ts[..k])
    decreases |ts| - k
  {
    if k < |ts| {
      var init := ts[..|ts| - 1];
      assert init[..k] == ts[..k];
      PartitionFailurePersists(init, k);
    } else {
      assert ts[..k] == ts;
    }
  }

  /** The dicts of a list of records. */
  function FieldsOf(txns: seq<Record>): (r: seq<map<string, Json>>)
    reads txns
    ensures |r| == |txns| && forall i :: 0 <= i < |txns| ==> r[i] == txns[i].fields
  {
    seq(|txns|, i reads txns requires 0 <= i < |txns| => txns[i].fields)
  }

  /** One transaction's turn of the loop: pops `approved` from the dict
      itself (before anything can fail), then copies the dict and pops `id`
      and `category_name` from the copy. */
  method TakeTurn(txn: Record) returns (r: Result<(bool, Labelled)>)
    modifies txn
    ensures r == Reshape(old(txn.fields))
    ensures txn.fields == old(txn.fields) - {"approved"}
  {
    var isApproved := txn.Pop("approved");
    if isApproved.None? {
      return Failure(KeyError(JStr("approved")));
    }
    var details := txn.fields;
    if "id" !in details {
      return Failure(KeyError(JStr("id")));
    }
    var id := details["id"];
    details := details - {"id"};
    if "category_name" !in details {
      return Failure(KeyError(JStr("category_name")));
    }
    var category := details["category_name"];
    details := details - {"category_name"};
    assert details == old(txn.fields) - {"approved"} - {"id", "category_name"};
    return Success((Truthy(isApproved.value), Labelled(id, details, category)));
  }

  /** One more successful turn appends the reshaped transaction to the
      side its flag names. */
  lemma PartitionStep(ts: seq<map<string, Json>>, i: nat)
    requires i < |ts|
    requires PartitionAll(ts[..i]).Success?
    requires Reshape(ts[i]).Success?
    ensures var s, step := PartitionAll(ts[..i]).value, Reshape(ts[i]).value;
            PartitionAll(ts[..i + 1]) ==
              Success(if step.0 then Split(s.approved + [step.1], s.unapproved)
                      else Split(s.approved, s.unapproved + [step.1]))
  {
    assert ts[..i + 1][..i] == ts[..i];
  }

  /** Transaction `k` is the first whose turn fails: every earlier one
      reshapes. */
  ghost predicate FirstFailing(ts: seq<map<string, Json>>, k: int) {
    && 0 <= k < |ts|
    && (forall j :: 0 <= j < k ==> Reshape(ts[j]).Success?)
    && Reshape(ts[k]).Failure?
  }

  /** At most one transaction is the first to fail. */
  lemma FirstFailingUnique(ts: seq<map<string, Json>>, k: int, k': int)
    requires FirstFailing(ts, k) && FirstFailing(ts, k')
    ensures k == k'
  {
  }

  /** When the first `i` transactions reshape and transaction `i` does not,
      `i` is the first failing one and its error is the split's error. */
  lemma FirstFailureDecides(ts: seq<map<string, Json>>, i: nat)
    requires i < |ts|
    requires PartitionAll(ts[..i]).Success?
    requires Reshape(ts[i]).Failure?
    ensures FirstFailing(ts, i)
    ensures PartitionAll(ts) == Failure(Reshape(ts[i]).error)
  {
    assert forall j :: 0 <= j < i ==> ts[..i][j] == ts[j];
    assert ts[..i + 1][..i] == ts[..i];
    PartitionFailurePersists(ts, i + 1);
  }

  /** Dicts `0..k-1` have lost `approved` and the others are as they were
      in `before`. */
  ghost predicate PoppedBefore(txns: seq<Record>, before: seq<map<string, Json>>, k: int)
    reads txns
  {
    && |before| == |txns|
    && forall j :: 0 <= j < |txns| ==>
         txns[j].fields == if j < k then before[j] - {"approved"} else before[j]
  }

  /** The loop of `main` that fills `approved` and `unapproved`. It pops
      `approved` from each transaction dict itself: on success every dict
      has lost it; when transaction `k` is the first to fail, dicts `0..k`
      have lost it (`k` too: its pop comes before the pops that fail) and
      the later ones are untouched. */
  method Partition(txns: seq<Record>) returns (res: Result<Split>)
    requires Distinct(txns)
    modifies txns
    ensures res == PartitionAll(old(FieldsOf(txns)))
    ensures res.Success? ==> PoppedBefore(txns, old(FieldsOf(txns)), |txns|)
    ensures res.Failure? ==>
              exists k :: FirstFailing(old(FieldsOf(txns)), k) && PoppedBefore(txns, old(FieldsOf(txns)), k + 1)
  {
    ghost var before := FieldsOf(txns);
    var approved: seq<Labelled> := [];
    var unapproved: seq<Labelled> := [];
    for i := 0 to |txns|
      invariant PartitionAll(before[..i]) == Success(Split(approved, unapproved))
      invariant PoppedBefore(txns, before, i)
    {
      assert txns[i].fields == before[i];
      var turn := TakeTurn(txns[i]);
      assert PoppedBefore(txns, before, i + 1);
      if turn.Failure? {
        FirstFailureDecides(before, i);
        return Failure(turn.error);
      }
      PartitionStep(before, i);
      var (isApproved, labelled) := turn.value;
      if isApproved {
        approved := approved + [labelled];
      } else {
        unapproved := unapproved + [labelled];
      }
    }
    assert before[..|txns|] == before;
    return Success(Split(approved, unapproved));
  }
}

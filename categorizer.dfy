/** The data path of `main`, end to end: category names, normalised
    transactions, the `by_id` index, the split, the prompt and, unless it is
    a dry run, the reconciliation of the model's reply. The HTTP bodies, the
    reply text and the JSON codec are parameters. */
module Categorizer {
  import opened Json
  import opened Lines
  import opened Categories
  import opened Transactions
  import opened Partitioning
  import opened Prompt
  import opened Reconcile

  datatype Report = Report(prompt: string, audits: seq<Audit>, diagnostics: seq<Diagnostic>)

  /** Every step before the model is asked runs without raising: the
      directory and the transactions are well formed, every transaction has
      a hashable id, `approved` and `category_name`, and every category name
      is a string. */
  predicate RunSucceeds(categoriesDoc: Json, transactionsDoc: Json, dumps: Json -> string) {
    && CategoryNames(categoriesDoc).Success?
    && NormalisedTransactions(transactionsDoc).Success?
    && var ts := NormalisedTransactions(transactionsDoc).value;
    && IdsHashable(ts)
    && PartitionAll(ts).Success?
    && BuildPrompt(CategoryNames(categoriesDoc).value, PartitionAll(ts).value.approved,
                   PartitionAll(ts).value.unapproved, dumps).Success?
  }

  /** The record was built from transaction `ts[j]`, the last one carrying
      its id, as the index holds it after the split: the transaction without
      `approved`. */
  ghost predicate FromTransaction(a: Audit, ts: seq<map<string, Json>>) {
    exists j :: LastIn(ts, j) && a.details == ts[j] - {"approved"} && a.id == ts[j]["id"]
  }

  /** Every transaction's id is a key of the index. */
  ghost predicate IdsIndexed(byId: map<Json, Record>, ts: seq<map<string, Json>>) {
    forall j :: 0 <= j < |ts| ==> "id" in ts[j] && ts[j]["id"] in byId
  }

  /** The index maps each id to the last transaction of the list that had
      that id. */
  ghost predicate IndexesOwners(byId: map<Json, Record>, txns: seq<Record>, ts: seq<map<string, Json>>) {
    forall id :: id in byId ==>
      exists j :: j < |txns| && LastIn(ts, j) && byId[id] == txns[j] && ts[j]["id"] == id
  }

  /** The index as the reply is reconciled against it: every transaction's
      id is a key, and each key maps to the dict of the last transaction
      with that id, stripped of `approved` by the split. */
  ghost predicate IndexesSplitTransactions(byId: map<Json, Record>, ts: seq<map<string, Json>>)
    reads byId.Values
  {
    && IdsIndexed(byId, ts)
    && (forall id :: id in byId ==>
          exists j :: LastIn(ts, j) && ts[j]["id"] == id && byId[id].fields == ts[j] - {"approved"})
  }

  /** An index that owns the ids of `ts` and whose dicts are `ts` minus
      `approved` indexes the split transactions. */
  lemma IndexSeesSplit(byId: map<Json, Record>, txns: seq<Record>, ts: seq<map<string, Json>>)
    requires |txns| == |ts|
    requires IndexesOwners(byId, txns, ts) && IdsIndexed(byId, ts)
    requires forall j :: 0 <= j < |ts| ==> txns[j].fields == ts[j] - {"approved"}
    ensures IndexesSplitTransactions(byId, ts)
  {
    forall id | id in byId
      ensures exists j :: LastIn(ts, j) && ts[j]["id"] == id && byId[id].fields == ts[j] - {"approved"}
    {
      var j :| j < |txns| && LastIn(ts, j) && byId[id] == txns[j] && ts[j]["id"] == id;
      assert byId[id].fields == ts[j] - {"approved"};
    }
  }

  /** Reconciling through an index whose dicts have lost `approved` in the
      split gives records whose details are those dicts. */
  lemma AuditsSeeSplitTransactions(lines: seq<string>, loads: string -> Option<Json>, byId: map<Json, Record>,
                                   ts: seq<map<string, Json>>)
    requires IndexesSplitTransactions(byId, ts)
    requires forall j :: 0 <= j < |ts| ==> Reshape(ts[j]).Success?
    ensures forall a :: a in EmittedOf(Outcomes(lines, loads, byId)) ==>
              && FromTransaction(a, ts)
              && "approved" !in a.details
              && "id" in a.details && a.details["id"] == a.id
              && "category_name" in a.details && a.ynabCategory == a.details["category_name"]
  {
    var os := Outcomes(lines, loads, byId);
    OutcomesAreFromLines(os);
    OutcomesPerLine(lines, loads, byId);
    forall a | a in EmittedOf(os)
      ensures FromTransaction(a, ts) && "approved" !in a.details
      ensures "id" in a.details && a.details["id"] == a.id
      ensures "category_name" in a.details && a.ynabCategory == a.details["category_name"]
    {
      var i :| 0 <= i < |os| && os[i] == Emitted(a);
      var id := loads(lines[i]).value.fields["id"];
      var j :| LastIn(ts, j) && ts[j]["id"] == id && byId[id].fields == ts[j] - {"approved"};
      assert a.details == ts[j] - {"approved"};
    }
  }

  /** `extract_transaction_data` followed by the `by_id` comprehension: fresh
      dicts holding the normalised transactions, and an index mapping each
      id to the last of them that carries it. */
  method IndexTransactions(transactionsDoc: Json) returns (res: Result<seq<Record>>, byId: map<Json, Record>)
    ensures res.Success? <==>
              NormalisedTransactions(transactionsDoc).Success? && IdsHashable(NormalisedTransactions(transactionsDoc).value)
    ensures res.Success? ==>
              && FieldsOf(res.value) == NormalisedTransactions(transactionsDoc).value
              && Distinct(res.value)
              && (forall i :: 0 <= i < |res.value| ==> fresh(res.value[i]))
              && IndexesOwners(byId, res.value, NormalisedTransactions(transactionsDoc).value)
              && IdsIndexed(byId, NormalisedTransactions(transactionsDoc).value)
  {
    byId := map[];
    res := ExtractTransactionData(transactionsDoc);
    if res.Failure? {
      return;
    }
    var records := res.value;
    ghost var ts := NormalisedTransactions(transactionsDoc).value;
    assert FieldsOf(records) == ts;
    var index := ById(records);
    if index.Failure? {
      return Failure(index.error), byId;
    }
    byId := index.value;
    ByIdKeys(records);
    ByIdOwners(records);
    ByIdLastWins(records);
  }

  /** `main` up to the prompt: the category names, the normalised
      transactions, the index and the split. On success the prompt is the
      template over the names and the two sides of the split, and the index
      maps every id to a transaction dict that the split has stripped of
      `approved`. */
  method PreparePrompt(categoriesDoc: Json, transactionsDoc: Json, dumps: Json -> string)
    returns (res: Result<string>, byId: map<Json, Record>, ghost txns: seq<Record>)
    ensures res.Success? <==> RunSucceeds(categoriesDoc, transactionsDoc, dumps)
    ensures res.Success? ==>
              var ts := NormalisedTransactions(transactionsDoc).value;
              && res.value == BuildPrompt(CategoryNames(categoriesDoc).value, PartitionAll(ts).value.approved,
                                          PartitionAll(ts).value.unapproved, dumps).value
              && |txns| == |ts|
              && IndexesOwners(byId, txns, ts)
              && IdsIndexed(byId, ts)
              && forall j :: 0 <= j < |ts| ==> Reshape(ts[j]).Success? && txns[j].fields == ts[j] - {"approved"}
  {
    txns := [];
    byId := map[];
    var categories := AllowedCategoryNames(categoriesDoc);
    if categories.Failure? {
      return Failure(categories.error), byId, txns;
    }
    var transactions, index := IndexTransactions(transactionsDoc);
    if transactions.Failure? {
      return Failure(transactions.error), byId, txns;
    }
    var records := transactions.value;
    txns, byId := records, index;
    ghost var ts := NormalisedTransactions(transactionsDoc).value;
    var split := Partition(records);
    if split.Failure? {
      return Failure(split.error), byId, txns;
    }
    assert PoppedBefore(records, ts, |records|);
    res := BuildPrompt(categories.value, split.value.approved, split.value.unapproved, dumps);
  }

  /** `main` from the two fetched bodies to the audit records. On success
      the prompt is the template over the category names and the two sides
      of the split, and each record's details are a transaction as the
      index sees it after the split: `approved` is gone, `id` and
      `category_name` are still there, and `ynab_category` is that
      transaction's `category_name`. */
  method Categorize(categoriesDoc: Json, transactionsDoc: Json, dryRun: bool, reply: string,
                    loads: string -> Option<Json>, dumps: Json -> string)
    returns (res: Result<Report>, ghost byId: map<Json, Record>)
    ensures res.Success? <==> RunSucceeds(categoriesDoc, transactionsDoc, dumps)
    ensures res.Success? ==>
              var ts := NormalisedTransactions(transactionsDoc).value;
              res.value.prompt == BuildPrompt(CategoryNames(categoriesDoc).value, PartitionAll(ts).value.approved,
                                              PartitionAll(ts).value.unapproved, dumps).value
    ensures res.Success? ==> IndexesSplitTransactions(byId, NormalisedTransactions(transactionsDoc).value)
    ensures res.Success? && dryRun ==> res.value.audits == [] && res.value.diagnostics == []
    ensures res.Success? && !dryRun ==>
              && res.value.audits == EmittedOf(Outcomes(SplitLines(reply), loads, byId))
              && res.value.diagnostics == DiagnosticsOf(Outcomes(SplitLines(reply), loads, byId))
    ensures res.Success? && !dryRun ==> |res.value.audits| + |res.value.diagnostics| == |SplitLines(reply)|
    ensures res.Success? ==> forall a :: a in res.value.audits ==>
              && FromTransaction(a, NormalisedTransactions(transactionsDoc).value)
              && "approved" !in a.details
              && "id" in a.details && a.details["id"] == a.id
              && "category_name" in a.details && a.ynabCategory == a.details["category_name"]
  {
    var prompt, index, txns := PreparePrompt(categoriesDoc, transactionsDoc, dumps);
    byId := index;
    if prompt.Failure? {
      return Failure(prompt.error), byId;
    }
    IndexSeesSplit(index, txns, NormalisedTransactions(transactionsDoc).value);
    if dryRun {
      return Success(Report(prompt.value, [], [])), byId;
    }
    var lines := SplitLines(reply);
    var audits, diagnostics := ReconcileReply(lines, loads, index);
    AuditsSeeSplitTransactions(lines, loads, index, NormalisedTransactions(transactionsDoc).value);
    return Success(Report(prompt.value, audits, diagnostics)), byId;
  }
}

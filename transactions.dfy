/** Transaction normalisation: `extract_transaction_data` and its inner
    `extract_txn`, which rescale `amount` and strip a fixed list of keys
    from every transaction dict in place. */
module Transactions {
  import opened Json

  /** The keys `extract_txn` pops, in the order it pops them. */
  const FieldsToRemove: seq<string> := [
    "flag_color", "flag_name", "account_id", "payee_id", "category_id",
    "transfer_account_id", "transfer_transaction_id", "matched_transaction_id",
    "import_id", "import_payee_name", "import_payee_name_original",
    "debt_transaction_type", "subtransactions"
  ]

  /** The keys a list names. */
  function KeySet(fields: seq<string>): set<string> {
    set f | f in fields
  }

  const RemovedKeys: set<string> := KeySet(FieldsToRemove)

  /** The numeric value Python divides: a number, or a boolean (an int in Python). */
  predicate IsNumeric(j: Json) {
    j.JNum? || j.JBool?
  }

  function NumericValue(j: Json): real
    requires IsNumeric(j)
  {
    if j.JNum? then j.n else if j.b then 1.0 else 0.0
  }

  /** `amount / 1000.0`, in exact arithmetic: the result times 1000 is the
      wire amount; anything but a number or a boolean raises TypeError. */
  function Rescale(amount: Json): (r: Result<Json>)
    ensures r.Success? <==> IsNumeric(amount)
    ensures r.Success? ==> r.value.JNum? && r.value.n * 1000.0 == NumericValue(amount)
    ensures r.Failure? ==> r.error == TypeError
  {
    if IsNumeric(amount) then Success(JNum(NumericValue(amount) / 1000.0)) else Failure(TypeError)
  }

  /** The dict `extract_txn` leaves behind. It fails with KeyError when
      `amount` is missing and with TypeError when it is not numeric. */
  function Normalised(m: map<string, Json>): (r: Result<map<string, Json>>)
    ensures r.Success? <==> "amount" in m && IsNumeric(m["amount"])
    ensures "amount" !in m ==> r == Failure(KeyError(JStr("amount")))
    ensures "amount" in m && !IsNumeric(m["amount"]) ==> r == Failure(TypeError)
  {
    if "amount" !in m then Failure(KeyError(JStr("amount")))
    else
      var scaled :- Rescale(m["amount"]);
      Success(m["amount" := scaled] - RemovedKeys)
  }

  /** A normalised dict: every key of the fixed list is gone (an absent one
      is no change), `amount` is rescaled, and every other key keeps its
      value. */
  lemma NormalisedContents(m: map<string, Json>)
    requires Normalised(m).Success?
    ensures Normalised(m).value.Keys == m.Keys - RemovedKeys
    ensures Normalised(m).value["amount"].JNum?
    ensures Normalised(m).value["amount"].n * 1000.0 == NumericValue(m["amount"])
    ensures forall k :: k in Normalised(m).value && k != "amount" ==> Normalised(m).value[k] == m[k]
  {
    var scaled := Rescale(m["amount"]).value;
    assert "amount" !in RemovedKeys;
    assert Normalised(m).value == m["amount" := scaled] - RemovedKeys;
  }

  /** `extract_txn(txn)`: assigns the rescaled amount, then pops each key of
      the fixed list with a default. On failure the dict is untouched. */
  method ExtractTxn(txn: Record) returns (res: Result<()>)
    modifies txn
    ensures Normalised(old(txn.fields)).Success? ==> res == Success(()) && txn.fields == Normalised(old(txn.fields)).value
    ensures Normalised(old(txn.fields)).Failure? ==>
              res == Failure(Normalised(old(txn.fields)).error) && txn.fields == old(txn.fields)
  {
    if "amount" !in txn.fields {
      return Failure(KeyError(JStr("amount")));
    }
    var scaled := Rescale(txn.fields["amount"]);
    if scaled.Failure? {
      return Failure(scaled.error);
    }
    txn.Set("amount", scaled.value);
    ghost var start := txn.fields;
    for i := 0 to |FieldsToRemove|
      invariant txn.fields == start - KeySet(FieldsToRemove[..i])
    {
      assert KeySet(FieldsToRemove[..i + 1]) == KeySet(FieldsToRemove[..i]) + {FieldsToRemove[i]};
      var _ := txn.Pop(FieldsToRemove[i]);
    }
    assert FieldsToRemove[..|FieldsToRemove|] == FieldsToRemove;
    return Success(());
  }

  /** The normalised dicts of a list of parsed transactions, in order. A
      member that is not a dict raises TypeError at `txn['amount']`; the
      first failing member decides the error. */
  function NormaliseAll(items: seq<Json>): (r: Result<seq<map<string, Json>>>)
    ensures r.Success? <==>
              forall i :: 0 <= i < |items| ==> items[i].JObj? && Normalised(items[i].fields).Success?
    ensures r.Success? ==> |r.value| == |items|
    decreases |items|
  {
    if items == [] then Success([])
    else
      var init :- NormaliseAll(items[..|items| - 1]);
      var last := items[|items| - 1];
      if !last.JObj? then Failure(TypeError)
      else
        var m :- Normalised(last.fields);
        Success(init + [m])
  }

  /** Entry `i` of the normalised list is member `i` normalised: the list
      keeps the body's order. */
  lemma {:induction false} NormaliseAllPointwise(items: seq<Json>)
    requires NormaliseAll(items).Success?
    ensures forall i :: 0 <= i < |items| ==> NormaliseAll(items).value[i] == Normalised(items[i].fields).value
    decreases |items|
  {
    if items != [] {
      var init := items[..|items| - 1];
      NormaliseAllPointwise(init);
      forall i | 0 <= i < |init|
        ensures init[i] == items[i]
      {
      }
    }
  }

  /** What `extract_transaction_data` returns for a parsed body, as values:
      `data['data']['transactions']`, each normalised. */
  function NormalisedTransactions(doc: Json): Result<seq<map<string, Json>>> {
    var data :- Subscript(doc, "data");
    var v :- Subscript(data, "transactions");
    var items :- Members(v);
    NormaliseAll(items)
  }

  lemma {:induction false} NormaliseFailurePersists(items: seq<Json>, k: nat)
    requires k <= |items|
    requires NormaliseAll(items[..k]).Failure?
    ensures NormaliseAll(items) == NormaliseAll(items[..k])
    decreases |items| - k
  {
    if k < |items| {
      var init := items[..|items| - 1];
      assert init[..k] == items[..k];
      NormaliseFailurePersists(init, k);
    } else {
      assert items[..k] == items;
    }
  }

  /** `extract_transaction_data`: each transaction of the parsed body becomes
      a dict object of its own, normalised in place by `extract_txn`; the
      list keeps the body's order. */
  method ExtractTransactionData(doc: Json) returns (res: Result<seq<Record>>)
    ensures res.Success? <==> NormalisedTransactions(doc).Success?
    ensures res.Failure? ==> res.error == NormalisedTransactions(doc).error
    ensures res.Success? ==> |res.value| == |NormalisedTransactions(doc).value|
    ensures res.Success? ==> forall i :: 0 <= i < |res.value| ==>
              fresh(res.value[i]) && res.value[i].fields == NormalisedTransactions(doc).value[i]
    ensures res.Success? ==> Distinct(res.value)
  {
    var data :- Subscript(doc, "data");
    var v :- Subscript(data, "transactions");
    var items :- Members(v);
    var txns: seq<Record> := [];
    for i := 0 to |items|
      invariant NormaliseAll(items[..i]).Success?
      invariant |txns| == i
      invariant forall k :: 0 <= k < i ==> fresh(txns[k]) && txns[k].fields == NormaliseAll(items[..i]).value[k]
      invariant Distinct(txns)
    {
      assert items[..i + 1][..i] == items[..i];
      if !items[i].JObj? {
        NormaliseFailurePersists(items, i + 1);
        return Failure(TypeError);
      }
      var txn := new Record(items[i].fields);
      var ok := ExtractTxn(txn);
      if ok.Failure? {
        NormaliseFailurePersists(items, i + 1);
        return Failure(ok.error);
      }
      txns := txns + [txn];
    }
    assert items[..|items|] == items;
    return Success(txns);
  }
}

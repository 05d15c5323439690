/** Reconciliation of the model's reply: each line is parsed, matched to its
    transaction through `by_id` and turned into an audit record, or reported
    and skipped. A bad line never stops the others. */
module Reconcile {
  import opened Json

  /** The output dict `{id, details, ynab_category, ai_category, ai_reason}`. */
  datatype Audit = Audit(id: Json, details: map<string, Json>, ynabCategory: Json, aiCategory: Json, aiReason: Json)

  /** What is reported for a skipped line, one per `except` clause. */
  datatype Diagnostic =
    | ParseFailed(line: string)    // json.JSONDecodeError: the offending line
    | MissingField(key: Json)      // KeyError: the missing key
    | Unexpected                   // any other exception (a TypeError here)

  /** The explicit result of one line. */
  datatype LineOutcome = Emitted(audit: Audit) | Reported(diagnostic: Diagnostic)

  /** The lines parse and match: the line parses (with `loads` standing for
      `json.loads`) to a dict with `id`, `category` and `reason`, its id is
      a key of the index, and the indexed transaction has `category_name`. */
  predicate Matches(line: string, loads: string -> Option<Json>, byId: map<Json, Record>)
    reads byId.Values
  {
    && loads(line).Some?
    && loads(line).value.JObj?
    && "id" in loads(line).value.fields
    && "category" in loads(line).value.fields
    && "reason" in loads(line).value.fields
    && Hashable(loads(line).value.fields["id"])
    && loads(line).value.fields["id"] in byId
    && "category_name" in byId[loads(line).value.fields["id"]].fields
  }

  /** The `try` block for one line, with its three `except` clauses. */
  function ReconcileLine(line: string, loads: string -> Option<Json>, byId: map<Json, Record>): (o: LineOutcome)
    reads byId.Values
    ensures o.Emitted? <==> Matches(line, loads, byId)
    ensures o.Emitted? ==>
              var data := loads(line).value.fields;
              var txn := byId[data["id"]].fields;
              && o.audit.id == data["id"]
              && o.audit.details == txn
              && o.audit.ynabCategory == txn["category_name"]
              && o.audit.aiCategory == data["category"]
              && o.audit.aiReason == data["reason"]
    ensures loads(line).None? ==> o == Reported(ParseFailed(line))
    ensures loads(line).Some? && loads(line).value.JObj? && "id" !in loads(line).value.fields ==>
              o == Reported(MissingField(JStr("id")))
  {
    match loads(line)
    case None => Reported(ParseFailed(line))
    case Some(data) =>
      if !data.JObj? then Reported(Unexpected)
      else if "id" !in data.fields then Reported(MissingField(JStr("id")))
      else
        var id := data.fields["id"];
        if !Hashable(id) then Reported(Unexpected)
        else if id !in byId then Reported(MissingField(id))
        else
          var txn := byId[id].fields;
          if "category_name" !in txn then Reported(MissingField(JStr("category_name")))
          else if "category" !in data.fields then Reported(MissingField(JStr("category")))
          else if "reason" !in data.fields then Reported(MissingField(JStr("reason")))
          else Emitted(Audit(id, txn, txn["category_name"], data.fields["category"], data.fields["reason"]))
  }

  /** The outcome of every line, line by line. */
  function Outcomes(lines: seq<string>, loads: string -> Option<Json>, byId: map<Json, Record>): seq<LineOutcome>
    reads byId.Values
    decreases |lines|
  {
    if lines == [] then []
    else Outcomes(lines[..|lines| - 1], loads, byId) + [ReconcileLine(lines[|lines| - 1], loads, byId)]
  }

  /** Line `i`'s outcome is the outcome of line `i` on its own: lines do not
      affect each other. */
  lemma {:induction false} OutcomesPerLine(lines: seq<string>, loads: string -> Option<Json>, byId: map<Json, Record>)
    ensures |Outcomes(lines, loads, byId)| == |lines|
    ensures forall i :: 0 <= i < |lines| ==> Outcomes(lines, loads, byId)[i] == ReconcileLine(lines[i], loads, byId)
    decreases |lines|
  {
    if lines != [] {
      OutcomesPerLine(lines[..|lines| - 1], loads, byId);
    }
  }

  /** The records emitted, in line order. */
  function EmittedOf(os: seq<LineOutcome>): seq<Audit>
    decreases |os|
  {
    if os == [] then []
    else
      var last := os[|os| - 1];
      EmittedOf(os[..|os| - 1]) + if last.Emitted? then [last.audit] else []
  }

  /** The diagnostics reported, in line order. */
  function DiagnosticsOf(os: seq<LineOutcome>): seq<Diagnostic>
    decreases |os|
  {
    if os == [] then []
    else
      var last := os[|os| - 1];
      DiagnosticsOf(os[..|os| - 1]) + if last.Reported? then [last.diagnostic] else []
  }

  lemma OutcomesStep(os: seq<LineOutcome>, o: LineOutcome)
    ensures EmittedOf(os + [o]) == EmittedOf(os) + if o.Emitted? then [o.audit] else []
    ensures DiagnosticsOf(os + [o]) == DiagnosticsOf(os) + if o.Reported? then [o.diagnostic] else []
  {
    assert (os + [o])[..|os|] == os;
  }

  /** Every line gives exactly one record or one diagnostic. */
  lemma {:induction false} OutcomeCounts(os: seq<LineOutcome>)
    ensures |EmittedOf(os)| + |DiagnosticsOf(os)| == |os|
    decreases |os|
  {
    if os != [] {
      OutcomeCounts(os[..|os| - 1]);
    }
  }

  /** Records keep line order: the records of `a + b` are those of `a`
      followed by those of `b`, and likewise the diagnostics. */
  lemma {:induction false} OutcomesAppend(a: seq<LineOutcome>, b: seq<LineOutcome>)
    ensures EmittedOf(a + b) == EmittedOf(a) + EmittedOf(b)
    ensures DiagnosticsOf(a + b) == DiagnosticsOf(a) + DiagnosticsOf(b)
    decreases |b|
  {
    if b == [] {
      assert a + b == a;
    } else {
      var b' := b[..|b| - 1];
      assert (a + b)[..|a + b| - 1] == a + b';
      assert (a + b)[|a + b| - 1] == b[|b| - 1];
      OutcomesAppend(a, b');
    }
  }

  /** Every emitted record is the outcome of some line, and every reported
      diagnostic too. */
  lemma {:induction false} OutcomesAreFromLines(os: seq<LineOutcome>)
    ensures forall a :: a in EmittedOf(os) ==> Emitted(a) in os
    ensures forall d :: d in DiagnosticsOf(os) ==> Reported(d) in os
    decreases |os|
  {
    if os != [] {
      var init := os[..|os| - 1];
      OutcomesAreFromLines(init);
      assert forall x :: x in init ==> x in os;
    }
  }

  /** A reply of a matching line and an unparsable one yields exactly one
      record, carrying the line's category and reason, and one parse
      diagnostic naming the bad line: the bad line does not disturb the
      good one. */
  lemma OneGoodOneBadLine(good: string, bad: string, loads: string -> Option<Json>, byId: map<Json, Record>)
    requires Matches(good, loads, byId)
    requires loads(bad).None?
    ensures |EmittedOf(Outcomes([good, bad], loads, byId))| == 1
    ensures EmittedOf(Outcomes([good, bad], loads, byId))[0].aiCategory == loads(good).value.fields["category"]
    ensures EmittedOf(Outcomes([good, bad], loads, byId))[0].aiReason == loads(good).value.fields["reason"]
    ensures DiagnosticsOf(Outcomes([good, bad], loads, byId)) == [ParseFailed(bad)]
  {
    OutcomesPerLine([good, bad], loads, byId);
    var os := Outcomes([good, bad], loads, byId);
    assert os == [os[0]] + [os[1]];
    OutcomesStep([os[0]], os[1]);
    OutcomesStep([], os[0]);
    assert [] + [os[0]] == [os[0]];
  }

  /** The loop over the reply's lines: appends a record for each line that
      matches and a diagnostic for each that does not. */
  method ReconcileReply(lines: seq<string>, loads: string -> Option<Json>, byId: map<Json, Record>)
    returns (audits: seq<Audit>, diagnostics: seq<Diagnostic>)
    ensures audits == EmittedOf(Outcomes(lines, loads, byId))
    ensures diagnostics == DiagnosticsOf(Outcomes(lines, loads, byId))
    ensures |audits| + |diagnostics| == |lines|
  {
    audits, diagnostics := [], [];
    for i := 0 to |lines|
      invariant audits == EmittedOf(Outcomes(lines[..i], loads, byId))
      invariant diagnostics == DiagnosticsOf(Outcomes(lines[..i], loads, byId))
    {
      assert lines[..i + 1][..i] == lines[..i];
      var o := ReconcileLine(lines[i], loads, byId);
      OutcomesStep(Outcomes(lines[..i], loads, byId), o);
      match o
      case Emitted(audit) => audits := audits + [audit];
      case Reported(diagnostic) => diagnostics := diagnostics + [diagnostic];
    }
    assert lines[..|lines|] == lines;
    OutcomeCounts(Outcomes(lines, loads, byId));
    OutcomesPerLine(lines, loads, byId);
  }
}

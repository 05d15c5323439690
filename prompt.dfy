/** The prompt template of `main`: the allowed category names, the approved
    examples and the unapproved targets, each block joined by newlines. */
module Prompt {
  import opened Json
  import opened Lines
  import opened Partitioning

  const Intro: string :=
    "You are going to assign categories to personal financial transactions. "
    + "The following are the allowed categories:\n```\n"

  const ExamplesHeader: string :=
    "\n```\n\nHere are some example categorized transactions:\n```\n"

  const Instructions: string :=
    "\n```\n\n"
    + "For each of the following unapproved transactions, print a single json object containing "
    + "the fields id, category, and reason. \"category\" should be the most specific category that "
    + "transaction would fit in. \"reason\" should be a very short justification for the selected "
    + "category. There may be an existing proposed category provided, this is just a guess based on "
    + "having previously seen the same payee name. Feel free to override it if you think it's likely "
    + "incorrect, for example if you think this transaction is materially different from the previous "
    + "transaction with that payee, or if the payee sells a wide variety of possible goods, like Amazon. "
    + "Print no other output.\n```\n"

  const Outro: string := "\n```\n"

  /** The category names as Python strings: `"\n".join` raises TypeError on
      the first member that is not a string. */
  function NameStrings(names: seq<Json>): (r: Result<seq<string>>)
    ensures r.Success? <==> forall i :: 0 <= i < |names| ==> names[i].JStr?
    ensures r.Failure? ==> r.error == TypeError
    ensures r.Success? ==> |r.value| == |names| && forall i :: 0 <= i < |names| ==> JStr(r.value[i]) == names[i]
    decreases |names|
  {
    if names == [] then Success([])
    else if !names[0].JStr? then Failure(TypeError)
    else
      var rest :- NameStrings(names[1..]);
      Success([names[0].s] + rest)
  }

  /** `json.dumps(x) for x in xs`, with `dumps` standing for `json.dumps`. */
  function DumpAll(xs: seq<Json>, dumps: Json -> string): (r: seq<string>)
    ensures |r| == |xs| && forall i :: 0 <= i < |xs| ==> r[i] == dumps(xs[i])
  {
    seq(|xs|, i requires 0 <= i < |xs| => dumps(xs[i]))
  }

  function ApprovedJsons(xs: seq<Labelled>): (r: seq<Json>)
    ensures |r| == |xs| && forall i :: 0 <= i < |xs| ==> r[i] == ApprovedJson(xs[i])
  {
    seq(|xs|, i requires 0 <= i < |xs| => ApprovedJson(xs[i]))
  }

  function UnapprovedJsons(xs: seq<Labelled>): (r: seq<Json>)
    ensures |r| == |xs| && forall i :: 0 <= i < |xs| ==> r[i] == UnapprovedJson(xs[i])
  {
    seq(|xs|, i requires 0 <= i < |xs| => UnapprovedJson(xs[i]))
  }

  /** The part of the prompt after the category names: the serialised
      examples, the instructions and the serialised targets. */
  function ExamplesAndTargets(approved: seq<Labelled>, unapproved: seq<Labelled>, dumps: Json -> string): string {
    ExamplesHeader + JoinLines(DumpAll(ApprovedJsons(approved), dumps))
    + Instructions + JoinLines(DumpAll(UnapprovedJsons(unapproved), dumps))
    + Outro
  }

  /** The prompt text: a function of its inputs alone, so equal inputs give
      byte-identical prompts. */
  function BuildPrompt(categories: seq<Json>, approved: seq<Labelled>, unapproved: seq<Labelled>,
                       dumps: Json -> string): Result<string>
  {
    var names :- NameStrings(categories);
    Success(Intro + JoinLines(names) + ExamplesAndTargets(approved, unapproved, dumps))
  }

  lemma ThreePartSlices(x: string, y: string, z: string)
    ensures |x| + |y| <= |x + y + z|
    ensures (x + y + z)[..|x|] == x
    ensures (x + y + z)[|x|..|x| + |y|] == y
    ensures (x + y + z)[|x| + |y|..] == z
  {
  }

  /** The prompt can be built exactly when every category name is a string;
      the names then stand right after the introduction, verbatim, and cut
      at the newlines they give back the names one per line (when there is
      at least one and none holds a newline). The examples and targets
      follow, each serialised and in list order. */
  lemma PromptLayout(categories: seq<Json>, approved: seq<Labelled>, unapproved: seq<Labelled>,
                     dumps: Json -> string)
    ensures BuildPrompt(categories, approved, unapproved, dumps).Success? <==>
              forall i :: 0 <= i < |categories| ==> categories[i].JStr?
    ensures BuildPrompt(categories, approved, unapproved, dumps).Success? ==>
              var p := BuildPrompt(categories, approved, unapproved, dumps).value;
              var names := NameStrings(categories).value;
              var block := JoinLines(names);
              && |Intro| + |block| <= |p|
              && p[..|Intro|] == Intro
              && p[|Intro|..|Intro| + |block|] == block
              && (names != [] && (forall i :: 0 <= i < |names| ==> NoNewline(names[i])) ==>
                    SplitLines(p[|Intro|..|Intro| + |block|]) == names)
              && p[|Intro| + |block|..] == ExamplesAndTargets(approved, unapproved, dumps)
  {
    var r := BuildPrompt(categories, approved, unapproved, dumps);
    if r.Success? {
      var names := NameStrings(categories).value;
      var block := JoinLines(names);
      var tail := ExamplesAndTargets(approved, unapproved, dumps);
      assert r.value == Intro + block + tail;
      ThreePartSlices(Intro, block, tail);
      if names != [] && forall i :: 0 <= i < |names| ==> NoNewline(names[i]) {
        SplitJoin(names);
      }
    }
  }
}

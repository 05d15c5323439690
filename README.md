# YNAB AI categorizer: the data path, in Dafny

`ynab_ai_categorizer.py` fetches a budget's category directory and its
recent transactions from the YNAB API. It builds a prompt that shows the
approved transactions as examples and the unapproved ones as targets, asks
an Anthropic model for a category per target, and reconciles each line of
the reply with the transaction it names. This project models the
deterministic layer between the network calls:

- the flattening of `category_groups -> categories` into a list of names
  (`Categories`);
- `extract_transaction_data` / `extract_txn`, which rescale `amount` and
  pop a fixed list of keys from every transaction dict in place
  (`Transactions`);
- the `by_id` index and the approved/unapproved split (`Partitioning`).
  Transaction dicts are `Record` objects with a `fields` map, so the
  split's `pop('approved')` is seen through the index, as in the script;
- the prompt template (`Prompt`);
- the line-by-line reconciliation of the reply, with one explicit outcome
  per line: a record or a diagnostic (`Reconcile`);
- `main`'s data path from the two parsed response bodies to the records
  (`Categorizer`).

`Json` holds the JSON value type, Python's subscript and iteration rules as
the script uses them, the `Record` class for mutable dicts, and the
`Result` type that models the exceptions which abort a run. `Lines` holds
`"\n".join` and `str.split("\n")`.

Python's `json.loads` on a reply line and `json.dumps` are the function
parameters `loads: string -> Option<Json>` and `dumps: Json -> string`. The
two HTTP response bodies arrive already parsed, as `Json` values. The
model's reply text and the `--dry-run` flag are parameters of
`Categorizer.Categorize`.

Four facts about the script shape the model:

- The script catches no fetch or parse error from the YNAB API: a
  malformed body raises and ends the run. It never returns an empty list in place of an error.
- The category directory is a list of names only. No category ids are
  collected.
- The script has no write-back step: nothing is pushed to YNAB, and no
  memo is built.
- `amount` is divided by 1000.

## Model

| member | source | states |
|---|---|---|
| Json.Subscript | ynab_ai_categorizer.py:17-19 | `v[key]` succeeds exactly on a dict holding the key and gives its value. A dict without it raises KeyError of that key. Any other value raises TypeError. |
| Json.Members | ynab_ai_categorizer.py:17-18 | A `for` loop whose members are then subscripted visits a list's items. It visits nothing in an empty dict or string. Any other value ends in TypeError. |
| Json.Record.Pop | ynab_ai_categorizer.py:38 | `dict.pop(key, None)` removes exactly that key. It returns the old value, or None when the key was absent, and then the dict is unchanged. |
| Json.Truthy | ynab_ai_categorizer.py:90 | The truth value of `if is_approved:`: false exactly for null, false, zero, and the empty string, list and dict. `Partitioning.Reshape` states that the split's flag is this value. |
| Json.Record.Set | ynab_ai_categorizer.py:29 | `d[key] = v` overwrites one key and leaves the others alone. |
| Categories.GroupNames | ynab_ai_categorizer.py:18-19 | The names of one group: `group['categories']`, iterated, each subscripted with `name`. Its properties are stated by `Categories.NamesOf`. |
| Categories.NamesOf | ynab_ai_categorizer.py:18-19 | One name per category, in order. It succeeds exactly when every category has `name`. A failure is the error of one of the categories. |
| Categories.FlattenGroups | ynab_ai_categorizer.py:17-19 | Flattening succeeds exactly when every group yields its names. |
| Categories.FlattenAppend | ynab_ai_categorizer.py:16-20 | The names of groups `a + b` are the names of `a` followed by those of `b`, so the list runs in group order, then category order. |
| Categories.FlattenLength | ynab_ai_categorizer.py:16-20 | The flat list's length is the sum of the groups' category counts. |
| Categories.CategoryNames | ynab_ai_categorizer.py:16-20 | `data['data']['category_groups']`, iterated and flattened: the value the loop is proved equal to in `Categories.AllowedCategoryNames`. Its order and length are stated by `Categories.FlattenAppend` and `Categories.FlattenLength`. |
| Categories.AllowedCategoryNames | ynab_ai_categorizer.py:16-20 | The nested append loop returns exactly the flattening of `data['data']['category_groups']`, or the same error. |
| Transactions.Rescale | ynab_ai_categorizer.py:29 | `amount / 1000.0` is a number whose value times 1000 is the wire amount; a boolean counts as 0 or 1. Any other value raises TypeError. |
| Transactions.Normalised | ynab_ai_categorizer.py:28-40 | It succeeds exactly when `amount` is present and numeric. A missing `amount` raises KeyError and a non-numeric one TypeError. |
| Transactions.NormalisedContents | ynab_ai_categorizer.py:29-38 | The normalised keys are the input's keys minus the fixed list, so an absent listed key changes nothing. `amount` is rescaled and every other key keeps its value. |
| Transactions.ExtractTxn | ynab_ai_categorizer.py:28-40 | The in-place pop loop leaves the dict equal to its normalised form. On failure the dict is unchanged. |
| Transactions.NormaliseAll | ynab_ai_categorizer.py:42 | It succeeds exactly when every member is a dict that normalises, and the output then has the same length. |
| Transactions.NormaliseAllPointwise | ynab_ai_categorizer.py:42 | Entry `i` of the output is member `i` normalised, so the order is kept. |
| Transactions.NormalisedTransactions | ynab_ai_categorizer.py:23-42 | `data['data']['transactions']`, iterated, each member normalised: the value `Transactions.ExtractTransactionData` is proved to produce. Its entries are stated by `Transactions.NormaliseAll` and `Transactions.NormaliseAllPointwise`. |
| Transactions.ExtractTransactionData | ynab_ai_categorizer.py:23-42 | It returns one fresh, distinct dict object per transaction, in body order, each holding the normalised fields. Otherwise it returns the same error as the value-level definition. |
| Partitioning.ById | ynab_ai_categorizer.py:76 | The index can be built exactly when every transaction has a hashable `id`. |
| Partitioning.ByIdKeys | ynab_ai_categorizer.py:76 | Every transaction's id is a key of the index. |
| Partitioning.ByIdOwners | ynab_ai_categorizer.py:76 | Each key maps to the last listed transaction that carries that id. |
| Partitioning.ByIdLastWins | ynab_ai_categorizer.py:76 | Of several transactions with one id, the index keeps the last. |
| Partitioning.Reshape | ynab_ai_categorizer.py:83-88 | It fails exactly when `approved`, `id` or `category_name` is missing, with KeyError of the first one missing. Otherwise the flag is the truth value of `approved`, and `id` and the category are copied. `details` has exactly the other keys, with their values. |
| Partitioning.PartitionAll | ynab_ai_categorizer.py:79-103 | The split succeeds exactly when every transaction reshapes. A missing key aborts the run; it is not skipped. |
| Partitioning.PartitionIsSides | ynab_ai_categorizer.py:79-103 | `approved` is exactly the reshaped transactions with a truthy flag, and `unapproved` exactly the rest, each in input order. |
| Partitioning.PartitionSizes | ynab_ai_categorizer.py:79-103 | `|approved| + |unapproved| = |transactions|`. |
| Partitioning.TakeTurn | ynab_ai_categorizer.py:83-88 | One turn of the loop gives the reshape of the dict as it was, and the dict itself loses `approved` whether or not the turn then fails. |
| Partitioning.ApprovedJson | ynab_ai_categorizer.py:91-95 | The dict `{id, details, category}` appended to `approved`. |
| Partitioning.UnapprovedJson | ynab_ai_categorizer.py:98-102 | The dict `{id, details, proposed_category}` appended to `unapproved`. |
| Partitioning.PartitionStep | ynab_ai_categorizer.py:82-103 | One more successful turn appends the reshaped transaction to `approved` when its flag is truthy and to `unapproved` otherwise, leaving the other side alone. |
| Partitioning.FirstFailureDecides | ynab_ai_categorizer.py:82-88 | When every earlier turn succeeds and transaction `i`'s fails, `i` is the first failing transaction and its KeyError is the loop's error. |
| Partitioning.FirstFailingUnique | ynab_ai_categorizer.py:82-88 | Only one transaction can be the first whose turn fails, so the failing transaction named by `Partitioning.Partition` is the one that raised. |
| Partitioning.Partition | ynab_ai_categorizer.py:78-103 | The loop returns the split of the old dicts and pops `approved` from those same objects. On success every dict has lost it. When transaction `k` is the first whose turn fails, dicts `0..k` have lost it and the later dicts are untouched. |
| Prompt.NameStrings | ynab_ai_categorizer.py:107 | `"\n".join` accepts the names exactly when all are strings, keeping them in order. Otherwise it raises TypeError. |
| Prompt.ApprovedJsons | ynab_ai_categorizer.py:91-96 | One `{id, details, category}` dict per approved example, in order. |
| Prompt.UnapprovedJsons | ynab_ai_categorizer.py:98-102 | One `{id, details, proposed_category}` dict per unapproved target, in order. |
| Prompt.BuildPrompt | ynab_ai_categorizer.py:105-119 | The prompt: the introduction, the joined names, then `Prompt.ExamplesAndTargets`. Its layout is stated by `Prompt.PromptLayout`. |
| Prompt.ExamplesAndTargets | ynab_ai_categorizer.py:108-119 | The text after the names: the examples header, the serialised approved examples one per line, the instructions, the serialised targets one per line, and the closing fence. |
| Prompt.PromptLayout | ynab_ai_categorizer.py:105-119 | The prompt exists exactly when every category name is a string. The newline-joined names follow the introduction verbatim, and split at newlines they give the names back. The serialised examples and targets follow, in list order. |
| Lines.JoinLines | ynab_ai_categorizer.py:107 | `"\n".join`: the pieces with one newline between neighbours. Its inverse is stated by `Lines.SplitJoin` and `Lines.JoinSplit`. |
| Lines.SplitLines | ynab_ai_categorizer.py:141 | `str.split("\n")`: always at least one piece. `Lines.SplitPiecesHaveNoNewline` and `Lines.JoinSplit` state the other properties. |
| Lines.SplitJoin | ynab_ai_categorizer.py:107 | Splitting newline-free names joined by newlines gives back the names. |
| Lines.JoinSplit | ynab_ai_categorizer.py:141 | Joining the reply's lines with newlines gives back the reply text. |
| Lines.SplitPiecesHaveNoNewline | ynab_ai_categorizer.py:141 | No reply line contains a newline. |
| Reconcile.ReconcileLine | ynab_ai_categorizer.py:144-162 | A line yields a record exactly when it parses to a dict with `id`, `category` and `reason`, its id is a hashable key of `by_id`, and that transaction has `category_name`. The record's `ynab_category` is `by_id[id]['category_name']`. `ai_category` and `ai_reason` are copied from the line, and `details` is the indexed transaction. An unparsable line reports itself. |
| Reconcile.Outcomes | ynab_ai_categorizer.py:143-162 | The outcome of every line of the reply, in line order. `Reconcile.OutcomesPerLine` states that each is its own line's outcome. |
| Reconcile.OutcomesPerLine | ynab_ai_categorizer.py:143-162 | Line `i`'s outcome depends on line `i` alone, so a failure stays on its own line. |
| Reconcile.OutcomeCounts | ynab_ai_categorizer.py:143-162 | Records plus diagnostics number exactly the lines. |
| Reconcile.OutcomesAppend | ynab_ai_categorizer.py:143-162 | Records and diagnostics keep line order. |
| Reconcile.OutcomesAreFromLines | ynab_ai_categorizer.py:143-162 | Every record and every diagnostic is the outcome of some line. |
| Reconcile.OneGoodOneBadLine | ynab_ai_categorizer.py:143-158 | A matching line plus an unparsable line give one record, with the good line's category and reason, and one parse diagnostic naming the bad line. |
| Reconcile.ReconcileReply | ynab_ai_categorizer.py:141-162 | The loop emits exactly the records and diagnostics of the lines' outcomes, in line order, with one per line. |
| Categorizer.AuditsSeeSplitTransactions | ynab_ai_categorizer.py:76-154 | Through the shared dicts, every record's details are the last transaction with the record's id, without `approved`. They still hold `id`, equal to the record's id, and `category_name`, equal to `ynab_category`. |
| Categorizer.IndexTransactions | ynab_ai_categorizer.py:74-76 | Extraction and indexing succeed exactly when the body normalises and every transaction has a hashable id. The dicts are fresh and distinct and hold the normalised transactions. The index maps each id to the last of them that carries it. |
| Categorizer.PreparePrompt | ynab_ai_categorizer.py:73-119 | A prompt is produced exactly when every step before it succeeds, and it is the template over the names and the two sides of the split. Every id is a key, each key maps to the last transaction with that id, and each indexed dict has lost `approved`. |
| Categorizer.IndexSeesSplit | ynab_ai_categorizer.py:76-103 | After the split, the index keys every transaction's id, and each key maps to the dict of the last transaction with that id, without `approved`. |
| Categorizer.Categorize | ynab_ai_categorizer.py:73-162 | The run gets past the prompt exactly when every step before it succeeds. The prompt is the template over the names and the two sides of the split. A dry run emits nothing. Otherwise the records and diagnostics are exactly the reconciliation of the reply's lines, in line order, against an index that maps each id to the last transaction carrying it, split. They number the reply's lines, and every record's details are that normalised transaction, which has lost `approved`. |

## Left out

- HTTP requests, headers, URL building and `raise_for_status`
  (ynab_ai_categorizer.py:9-15, 44-51) are network I/O. The model starts
  from the parsed response bodies.
- The parsing of the two response bodies with `json.loads` (lines 15 and
  24) is library code. On the reply lines, `json.loads` is the `loads`
  parameter, and `json.dumps` is the `dumps` parameter: their internals
  are not modelled.
- The Anthropic client is foreign code: `count_tokens`, `create` and
  `response.content[0].text` (lines 121-141). The reply text is a
  parameter, and a dry run stops after the prompt.
- argparse, the `YNAB_TOKEN` environment read, every `print` and the output
  file (lines 54-71, 124, 132, 139, 155-162) are CLI and I/O. The model
  yields the records and one `Diagnostic` per skipped line. How a record
  is serialised to the output file and the message text are not modelled.
- Transactions.Rescale: uses exact rational arithmetic for
  `amount / 1000.0`. Floating-point rounding is not modelled. An integer
  `amount` too large for a float (such as `10**309`) makes the script raise
  OverflowError at line 29, which ends the run. The model rescales it and
  succeeds, so `Transactions.Rescale` and `Transactions.Normalised` claim
  success on inputs where the script fails.
- JSON numbers: integers and floats are both `JNum(real)`, so `1` and `1.0`
  are equal keys, as in Python. Python also treats `True` as `1`; that
  identity is not modelled. `json.loads` can also yield `nan` and `inf`
  (from `NaN`, `Infinity` or `1e400`), which a real cannot hold, so those
  amounts are outside the model. `json.dumps` prints `1` and `1.0`
  differently, and `JNum` hides that difference from `dumps`.
- Dict key order is not recorded: a JSON object is a map. `json.dumps`
  output order is therefore outside the model.
- Json.Members: iterating a non-empty dict or string is modelled as
  TypeError. In the script it yields strings, and the subscript that
  follows in every loop raises TypeError.
- Reconcile.ReconcileLine: the contract names the diagnostic only for an
  unparsable line and a missing `id`. Which KeyError or TypeError a later
  failed lookup reports is fixed by its definition, which follows the
  order of the lookups, and is not restated.
- Write-back to YNAB, category ids and memo construction do not occur in
  this script.

# Personal finance ledger, modelled in Dafny

This project models the in-memory ledger of `finance_tracker.py`: the
`Transaction` record and its flat-record form, the `FinanceTracker` state
(a list of transactions and a vocabulary of categories per kind, "income"
and "expense"), the operations that change it (`add_transaction`,
`delete_transaction`, the load and save of the data file), and the
queries over it (`get_transactions`, `get_balance`,
`get_category_summary`, and what `generate_report` computes before it
formats text).

Modules, one per component:

- `Wrappers` (wrappers.dfy): `Option` and `Result`, standing for Python's `None` and raised exceptions.
- `Text` (text.dfy): `str.lower()` on ASCII letters and Python's ordering of strings, proved a total order; ISO dates are compared with it, as the source compares them as strings.
- `Seqs` (seqs.dfy): order-preserving filtering (a list comprehension with `if`) and removal of duplicates.
- `Sorting` (sorting.dfy): `sorted(..., key=..., reverse=True)` as a stable insertion sort into descending key order, proved sorted, a permutation and stable.
- `Transactions` (transactions.dfy): the record, its constructor, `to_dict` and `from_dict`, and the round trip of a whole ledger through the file.
- `Queries` (queries.dfy): filtering, sorting and summing over the ledger.
- `Reports` (reports.dfy): the report's period start, balance and category blocks.
- `Ledger` (ledger.dfy): the `FinanceTracker` class, whose methods update its fields in place.

Amounts are `real` numbers. Dates are strings ordered as Python orders them. The
transaction type is kept as the source keeps it: a lowercased string
(`kind`, since `type` is a Dafny keyword). `add_transaction` admits only
"income" and "expense" there, but a loaded file can hold any type.
The clock readings become parameters: the identifier, today's date and the report's start dates
(`Reports.Lookback`). The data file is the field `file` of the tracker, holding
the parsed document or `Malformed`. `save_data` overwrites it with a
snapshot of the state.

Three behaviours of the code shape the model:

- `delete_transaction` removes every entry with the given identifier, since identifiers can collide.
- The type is a free string. A loaded file may hold other types, and `get_category_summary` then raises KeyError, which the model returns as `Failure(UnknownKind(..))`.
- `load_data` leaves the state unchanged on a KeyError. The tracker is empty at that point anyway, because the constructor has just run.

Today's date is taken to be non-empty, as `strftime("%Y-%m-%d")` always is. So every stored entry carries a date, which the tracker's invariant records.

Python dicts whose key order matters are association lists in insertion order (`Queries.Totals`). An example is the category summary: the report falls back on its key order when two amounts are equal.

## Model

| member | source | states |
|---|---|---|
| Text.LexLe | finance_tracker.py:116-124 | Python's `<=` on strings: `a` is at most `b` exactly when `a` is a prefix of `b` or, at the first position where they differ, `a` has the smaller character |
| Text.Lower | finance_tracker.py:23 | `lower()` keeps the length and lowercases each character |
| Text.LowerIsLower | finance_tracker.py:23 | lowercasing is idempotent, so a stored type is already lowercase |
| Text.LexLeReflexive | finance_tracker.py:116-118 | every date is within the bounds of a range that starts and ends on it |
| Text.LexLeTotal | finance_tracker.py:124 | any two dates are comparable, so sorting by date is well defined |
| Text.LexLeAntisymmetric | finance_tracker.py:124 | two dates that compare both ways are the same date |
| Text.LexLeTransitive | finance_tracker.py:116-124 | the string order on dates is transitive |
| Seqs.FilterMembers | finance_tracker.py:116-122 | a comprehension keeps an element exactly when it was present and passes the test |
| Seqs.FilterIsSubsequence | finance_tracker.py:129 | a comprehension keeps the survivors in their original order |
| Seqs.FilterKeepsAll | finance_tracker.py:128-130 | the filtered list is as long as the input exactly when every element passes, and is then the input itself |
| Seqs.FilterFilter | finance_tracker.py:113-122 | successive comprehensions equal one comprehension with the conjunction of the tests |
| Seqs.Dedup | finance_tracker.py:81 | the result holds each element of the input exactly once |
| Sorting.SortDesc | finance_tracker.py:124 | sorting returns a permutation of its input |
| Sorting.SortDescSorted | finance_tracker.py:124 | the sorted list is in descending key order |
| Sorting.SortDescStable | finance_tracker.py:124 | elements with equal keys keep their original relative order |
| Transactions.NewTransaction | finance_tracker.py:17-24 | the stored amount is the absolute value of the input and never negative; the type is lowercased; a missing or empty date becomes today |
| Transactions.ToDict | finance_tracker.py:31-40 | the record has exactly the six keys id, amount, category, description, type and date |
| Transactions.FromDict | finance_tracker.py:42-53 | decoding succeeds exactly when every key is present with a value of the right kind. The decoded transaction keeps the stored id, category and description, takes the absolute amount and the lowercased type, and replaces an empty date with today. A KeyError names an absent key |
| Transactions.FromDictErrorOrder | finance_tracker.py:42-53 | the KeyError names the first absent constructor argument (amount, category, description, type, date); with all five present, a non-numeric amount or a non-string type raises before a missing `id` is looked up |
| Transactions.RoundTrip | finance_tracker.py:31-53 | `from_dict(to_dict(t))` gives back `t` for every well-formed transaction with a date |
| Transactions.DecodeIdempotent | finance_tracker.py:31-53 | re-encoding a decoded record and decoding it again gives the same transaction |
| Transactions.ToDicts | finance_tracker.py:88 | the saved list holds one record per transaction, in order |
| Transactions.FromDicts | finance_tracker.py:75 | loading gives one transaction per record, or the error of the first record that fails, all records before it decoding |
| Transactions.FromDictsFirst | finance_tracker.py:75 | if record `i` is the first that fails, loading raises exactly its error |
| Transactions.FromDictsWellFormed | finance_tracker.py:20-24 | every loaded transaction has a non-negative amount, a lowercase type and a non-empty date |
| Transactions.LedgerRoundTrip | finance_tracker.py:75-88 | saving a ledger of well-formed entries and loading it back reproduces it exactly, in order |
| Queries.DateOrder | finance_tracker.py:124 | comparing entries by date is a total preorder |
| Queries.GetTransactions | finance_tracker.py:110-124 | the result is never longer than the ledger, and with no filter given it holds every entry of the ledger, each as often |
| Queries.GetTransactionsIsSortedFilter | finance_tracker.py:110-124 | the four optional filters compose into one filter by all given conditions, followed by the sort |
| Queries.GetTransactionsSpec | finance_tracker.py:110-124 | the result holds exactly the matching ledger entries (start <= date <= end, category equal ignoring case, type equal), each as often as in the ledger, newest first, same-date entries in ledger order |
| Queries.SumKind | finance_tracker.py:139-140 | the total of a type is zero when no entry has that type |
| Queries.GetBalance | finance_tracker.py:135-147 | the balance is income minus expenses |
| Queries.BalanceSpec | finance_tracker.py:135-147 | income and expenses are the sums over the ledger entries in the date range whatever their order, are never negative, and all three are zero on an empty ledger |
| Queries.AddToKeepsKeysUnique | finance_tracker.py:159-160 | a key is added only when absent, so a dict with distinct keys keeps them distinct |
| Queries.AddTo | finance_tracker.py:159-161 | adding to a category's total changes only that category's value, appends a new key at the end and raises the dict's total by the amount |
| Queries.AccumulateKeepsKeysUnique | finance_tracker.py:156-161 | one loop step keeps both dicts free of repeated categories |
| Queries.SummarizeSucceeds | finance_tracker.py:155-161 | the summary loop runs to the end exactly when every entry is income or expense |
| Queries.SummarizeErrorIsUnknown | finance_tracker.py:158-161 | whenever the loop raises, the type it names is neither income nor expense |
| Queries.SummarizeFirstFailure | finance_tracker.py:155-161 | the summary loop raises KeyError naming the type of the first entry that is neither income nor expense |
| Queries.SummarizeCategories | finance_tracker.py:153-161 | each dict holds exactly the categories occurring among the entries of its kind, each once |
| Queries.SummarizeLookup | finance_tracker.py:153-161 | each category's value is the sum of the amounts of its entries of that kind |
| Queries.SummarizeTotal | finance_tracker.py:153-161 | the values of a dict add up to the total of its kind |
| Queries.SummarizeFailureSticks | finance_tracker.py:155-161 | once an entry of unknown type has raised, the later entries do not matter |
| Queries.SummaryMatchesBalance | finance_tracker.py:135-163 | for the same dates, each dict of the category summary adds up to the matching total of the balance |
| Reports.PeriodStart | finance_tracker.py:167-174 | week, month and year start at the matching lookback date; any other period has no lower bound |
| Reports.AmountOrder | finance_tracker.py:191-192 | comparing category items by amount is a total preorder |
| Reports.Block | finance_tracker.py:189-201 | a block is left out exactly when its dict is empty, and otherwise lists every item of the dict once |
| Reports.BlockSpec | finance_tracker.py:191-201 | a block lists its items largest amount first, equal amounts in insertion order |
| Reports.BuildReport | finance_tracker.py:165-203 | when the report cannot be built, the error names a type that is neither income nor expense |
| Reports.ReportSpec | finance_tracker.py:165-201 | the report fails exactly when an entry of the period has an unknown type; otherwise its balance is `get_balance` from the period start, its blocks hold the categories of the period, and their totals equal the balance's |
| Reports.SummaryExample | finance_tracker.py:149-163 | Food expenses of 20 and 30 and a Salary of 1000 give Food 50 and Salary 1000 and nothing else |
| Reports.BlockExample | finance_tracker.py:199-201 | Bills at 200 is listed before Food at 50 |
| Ledger.DefaultCategories | finance_tracker.py:62-66 | the default vocabulary has exactly the two kinds and no repeated category |
| Ledger.WithoutIdSpec | finance_tracker.py:126-133 | deleting by identifier removes every entry with it and nothing else, keeps the survivors in order, and shortens the list exactly when some entry had it |
| Ledger.WithCategory | finance_tracker.py:101-103 | the category joins its kind's list unless already there with the same letter case; the list only grows and the other kind's list is untouched |
| Ledger.FinanceTracker.constructor | finance_tracker.py:59-66 | a new tracker has no transactions and the default vocabulary |
| Ledger.FinanceTracker.LoadData | finance_tracker.py:69-83 | a missing file or malformed text changes nothing. A missing key is reported and changes nothing. Any other decoding error escapes. Otherwise the stored transactions replace the list and the vocabularies are merged |
| Ledger.FinanceTracker.MergeCategories | finance_tracker.py:77-81 | each vocabulary named in the file becomes the union of its old entries and the file's, without repetition; the others are kept |
| Ledger.FinanceTracker.SaveData | finance_tracker.py:85-92 | the file then holds every transaction as a record and the current vocabulary |
| Ledger.FinanceTracker.AddTransaction | finance_tracker.py:94-108 | an invalid type fails before anything changes. Otherwise the category is in its kind's vocabulary, which grows as `Ledger.WithCategory` states. The new transaction is appended after the unchanged earlier entries and returned, and the file is saved |
| Ledger.FinanceTracker.Append | finance_tracker.py:101-108 | an accepted transaction goes after the unchanged earlier entries, its category joins its type's vocabulary as `Ledger.WithCategory` states, the file is saved, and the invariant (dated, well-formed entries, duplicate-free vocabularies) still holds |
| Ledger.FinanceTracker.DeleteTransaction | finance_tracker.py:126-133 | returns true exactly when some entry had the identifier; afterwards none has it, survivors keep their order, and the file is saved only when something was removed |
| Ledger.FinanceTracker.GetCategorySummary | finance_tracker.py:149-163 | the loop computes the category summary of the entries in the date range, raising at the first entry of unknown type |
| Ledger.SaveAndReload | finance_tracker.py:59-92 | after saving, a new tracker on the same file loads, holds the same transactions in the same order, and has the default vocabularies merged with the saved ones |
| Ledger.FinanceTracker.GenerateReport | finance_tracker.py:165-203 | the report is the one `Reports.BuildReport` describes for the current ledger |

## Left out

- Reading and writing JSON (`open`, `json.load`, `json.dump`): the file is the field `file`, holding either a parsed document or `Malformed`; a top-level value that is not an object, and a vocabulary in the file that is not a list, are not modelled.
- Failures of the write in `save_data` (disk full, permissions) are not modelled; saving always succeeds.
- Clock readings: `_generate_id` (`now` in microseconds modulo 10^6, which can collide), the default date and the report's `now` minus 7, 30 or 365 days are parameters (`id`, `today`, `Reports.Lookback`).
- Floating point: amounts are exact reals, so rounding and the order-dependence of a float `sum` are not modelled.
- Text formatting: the report's and the balance's rendered text (`%.2f`, widths, headings) is not modelled; `Reports.Report` holds what is rendered, with an absent block for an omitted one.
- `main()`: argument parsing, dispatch, printing, `--limit` and the `categories` listing are command-line glue.
- sample_data.py: random sample generation and prompts, a driver over `add_transaction`.
- `get_transactions` and `get_balance` are functions of the transaction list (`Queries.GetTransactions`, `Queries.GetBalance`) rather than members of the class; the class's methods apply them to its `transactions` field.
- Text.Lower: lowercases only ASCII letters, while Python's `lower()` covers all of Unicode.
- Transactions.FromDict: the model accepts an integer for `id` and strings for `category`, `description` and `date`, and reports any other JSON value as `WrongType` (an exception escaping `load_data`). Python instead stores any value given for `id`, `category` and `description`. For `date` it keeps any truthy value and replaces a falsy one (null, 0, false, an empty list or object) with today.
- Ledger.FinanceTracker.MergeCategories: the merged list's order comes from Python's set hashing; the model fixes first-occurrence order in its body and its contract states only the elements and that none repeats.

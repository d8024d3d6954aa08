/**
 * The read-only queries of `FinanceTracker`: `get_transactions`,
 * `get_balance` and the per-category sums of `get_category_summary`, as
 * functions of the ledger's list of transactions.
 */
module Queries {
  import opened Wrappers
  import opened Text
  import opened Seqs
  import opened Sorting
  import opened Transactions

  const Income: string := "income"
  const Expense: string := "expense"

  /** Python's truth value of an optional text argument: `None` and "" both switch a filter off. */
  predicate Given(o: Option<string>) {
    o.Some? && o.value != ""
  }

  function OnOrAfter(start: string): Transaction -> bool {
    (t: Transaction) => LexLe(start, t.date)
  }

  function OnOrBefore(end: string): Transaction -> bool {
    (t: Transaction) => LexLe(t.date, end)
  }

  function InCategory(category: string): Transaction -> bool {
    (t: Transaction) => Lower(t.category) == Lower(category)
  }

  function OfKind(kind: string): Transaction -> bool {
    (t: Transaction) => t.kind == Lower(kind)
  }

  /** The combined condition of the four optional filters of `get_transactions`. */
  predicate Matches(t: Transaction, start: Option<string>, end: Option<string>,
                    category: Option<string>, kind: Option<string>) {
    && (Given(start) ==> LexLe(start.value, t.date))
    && (Given(end) ==> LexLe(t.date, end.value))
    && (Given(category) ==> Lower(t.category) == Lower(category.value))
    && (Given(kind) ==> t.kind == Lower(kind.value))
  }

  function MatchesFn(start: Option<string>, end: Option<string>,
                     category: Option<string>, kind: Option<string>): Transaction -> bool {
    (t: Transaction) => Matches(t, start, end, category, kind)
  }

  /** The ledger entries that pass every given filter, in ledger order. */
  function Filtered(ts: seq<Transaction>, start: Option<string>, end: Option<string>,
                    category: Option<string>, kind: Option<string>): seq<Transaction> {
    Filter(ts, MatchesFn(start, end, category, kind))
  }

  /** The sort key of `get_transactions`: `lambda x: x.date`. */
  function DateLe(a: Transaction, b: Transaction): bool {
    LexLe(a.date, b.date)
  }

  lemma DateOrder()
    ensures TotalPreorder(DateLe)
  {
    forall a: Transaction, b: Transaction
      ensures DateLe(a, b) || DateLe(b, a)
    {
      LexLeTotal(a.date, b.date);
    }
    forall a: Transaction, b: Transaction, c: Transaction | DateLe(a, b) && DateLe(b, c)
      ensures DateLe(a, c)
    {
      LexLeTransitive(a.date, b.date, c.date);
    }
  }

  /** `get_transactions`: four successive filters, then a stable sort by date, newest first. */
  function GetTransactions(ts: seq<Transaction>, start: Option<string>, end: Option<string>,
                           category: Option<string>, kind: Option<string>): (r: seq<Transaction>)
    ensures |r| <= |ts|
    ensures !Given(start) && !Given(end) && !Given(category) && !Given(kind) ==> multiset(r) == multiset(ts)
  {
    var byStart := if Given(start) then Filter(ts, OnOrAfter(start.value)) else ts;
    var byEnd := if Given(end) then Filter(byStart, OnOrBefore(end.value)) else byStart;
    var byCategory := if Given(category) then Filter(byEnd, InCategory(category.value)) else byEnd;
    var byKind := if Given(kind) then Filter(byCategory, OfKind(kind.value)) else byCategory;
    SortDesc(byKind, DateLe)
  }

  /** One filter stage: applying `p` when the argument is given turns filter `m` into `mp`. */
  lemma FilterStage(s: seq<Transaction>, m: Transaction -> bool, p: Transaction -> bool,
                    given: bool, mp: Transaction -> bool)
    requires forall t :: mp(t) == (m(t) && (given ==> p(t)))
    ensures (if given then Filter(Filter(s, m), p) else Filter(s, m)) == Filter(s, mp)
  {
    if given {
      FilterFilter(s, m, p, mp);
    } else {
      FilterSameTest(s, m, mp);
    }
  }

  lemma GetTransactionsIsSortedFilter(ts: seq<Transaction>, start: Option<string>, end: Option<string>,
                                      category: Option<string>, kind: Option<string>)
    ensures GetTransactions(ts, start, end, category, kind) == SortDesc(Filtered(ts, start, end, category, kind), DateLe)
  {
    var none: Option<string> := None;
    FilterKeepsAll(ts, MatchesFn(none, none, none, none));
    var f0 := Filter(ts, MatchesFn(none, none, none, none));
    assert f0 == ts;
    var byStart := if Given(start) then Filter(ts, OnOrAfter(start.value)) else ts;
    FilterStage(ts, MatchesFn(none, none, none, none),
                if Given(start) then OnOrAfter(start.value) else MatchesFn(none, none, none, none),
                Given(start), MatchesFn(start, none, none, none));
    assert byStart == Filter(ts, MatchesFn(start, none, none, none));
    var byEnd := if Given(end) then Filter(byStart, OnOrBefore(end.value)) else byStart;
    FilterStage(ts, MatchesFn(start, none, none, none),
                if Given(end) then OnOrBefore(end.value) else MatchesFn(none, none, none, none),
                Given(end), MatchesFn(start, end, none, none));
    assert byEnd == Filter(ts, MatchesFn(start, end, none, none));
    var byCategory := if Given(category) then Filter(byEnd, InCategory(category.value)) else byEnd;
    FilterStage(ts, MatchesFn(start, end, none, none),
                if Given(category) then InCategory(category.value) else MatchesFn(none, none, none, none),
                Given(category), MatchesFn(start, end, category, none));
    assert byCategory == Filter(ts, MatchesFn(start, end, category, none));
    var byKind := if Given(kind) then Filter(byCategory, OfKind(kind.value)) else byCategory;
    FilterStage(ts, MatchesFn(start, end, category, none),
                if Given(kind) then OfKind(kind.value) else MatchesFn(none, none, none, none),
                Given(kind), MatchesFn(start, end, category, kind));
    assert byKind == Filtered(ts, start, end, category, kind);
  }

  /**
   * What `get_transactions` returns: exactly the ledger entries that pass
   * every given filter (each as often as in the ledger), newest date first,
   * entries of the same date in ledger order.
   */
  lemma GetTransactionsSpec(ts: seq<Transaction>, start: Option<string>, end: Option<string>,
                            category: Option<string>, kind: Option<string>)
    ensures var r := GetTransactions(ts, start, end, category, kind);
      && multiset(r) == multiset(Filtered(ts, start, end, category, kind))
      && (forall t :: t in r <==> t in ts && Matches(t, start, end, category, kind))
      && SortedDesc(r, DateLe)
      && (forall y :: Ties(r, DateLe, y) == Ties(Filtered(ts, start, end, category, kind), DateLe, y))
      && IsSubsequence(Filtered(ts, start, end, category, kind), ts)
  {
    var f := Filtered(ts, start, end, category, kind);
    var r := GetTransactions(ts, start, end, category, kind);
    GetTransactionsIsSortedFilter(ts, start, end, category, kind);
    forall t
      ensures t in r <==> t in ts && Matches(t, start, end, category, kind)
    {
      assert t in r <==> t in multiset(r);
      assert t in f <==> t in multiset(f);
      FilterMembers(ts, MatchesFn(start, end, category, kind), t);
    }
    DateOrder();
    SortDescSorted(f, DateLe);
    forall y
      ensures Ties(r, DateLe, y) == Ties(f, DateLe, y)
    {
      SortDescStable(f, DateLe, y);
    }
    FilterIsSubsequence(ts, MatchesFn(start, end, category, kind));
  }

  /** `sum(t.amount for t in ts if t.transaction_type == kind)`. */
  function SumKind(ts: seq<Transaction>, kind: string): (r: real)
    ensures (forall t :: t in ts ==> t.kind != kind) ==> r == 0.0
  {
    if ts == [] then 0.0
    else
      assert forall t :: t in ts[1..] ==> t in ts;
      (if ts[0].kind == kind then ts[0].amount else 0.0) + SumKind(ts[1..], kind)
  }

  /** The total of one category within one kind. */
  function SumCategory(ts: seq<Transaction>, kind: string, category: string): real {
    if ts == [] then 0.0
    else (if ts[0].kind == kind && ts[0].category == category then ts[0].amount else 0.0)
         + SumCategory(ts[1..], kind, category)
  }

  lemma {:induction false} SumKindAppend(ts: seq<Transaction>, t: Transaction, kind: string)
    ensures SumKind(ts + [t], kind) == SumKind(ts, kind) + (if t.kind == kind then t.amount else 0.0)
  {
    if ts != [] {
      assert (ts + [t])[1..] == ts[1..] + [t];
      SumKindAppend(ts[1..], t, kind);
    }
  }

  lemma {:induction false} SumCategoryAppend(ts: seq<Transaction>, t: Transaction, kind: string, category: string)
    ensures SumCategory(ts + [t], kind, category) ==
            SumCategory(ts, kind, category) + (if t.kind == kind && t.category == category then t.amount else 0.0)
  {
    if ts != [] {
      assert (ts + [t])[1..] == ts[1..] + [t];
      SumCategoryAppend(ts[1..], t, kind, category);
    }
  }

  lemma SumKindLast(ts: seq<Transaction>, kind: string)
    requires ts != []
    ensures var last := ts[|ts| - 1];
      SumKind(ts, kind) == SumKind(ts[..|ts| - 1], kind) + (if last.kind == kind then last.amount else 0.0)
  {
    assert ts == ts[..|ts| - 1] + [ts[|ts| - 1]];
    SumKindAppend(ts[..|ts| - 1], ts[|ts| - 1], kind);
  }

  lemma SumCategoryLast(ts: seq<Transaction>, kind: string, category: string)
    requires ts != []
    ensures var last := ts[|ts| - 1];
      SumCategory(ts, kind, category) == SumCategory(ts[..|ts| - 1], kind, category)
        + (if last.kind == kind && last.category == category then last.amount else 0.0)
  {
    assert ts == ts[..|ts| - 1] + [ts[|ts| - 1]];
    SumCategoryAppend(ts[..|ts| - 1], ts[|ts| - 1], kind, category);
  }

  lemma {:induction false} SumKindInsert(x: Transaction, s: seq<Transaction>, kind: string)
    ensures SumKind(Insert(x, s, DateLe), kind) == SumKind([x] + s, kind)
  {
    if s != [] && !DateLe(s[0], x) {
      SumKindInsert(x, s[1..], kind);
      assert ([x] + s)[1..] == s;
      assert ([x] + s[1..])[1..] == s[1..];
    }
  }

  /** Sorting does not change a sum. */
  lemma {:induction false} SumKindSort(s: seq<Transaction>, kind: string)
    ensures SumKind(SortDesc(s, DateLe), kind) == SumKind(s, kind)
  {
    if s != [] {
      SumKindSort(s[1..], kind);
      SumKindInsert(s[0], SortDesc(s[1..], DateLe), kind);
      assert ([s[0]] + SortDesc(s[1..], DateLe))[1..] == SortDesc(s[1..], DateLe);
    }
  }

  lemma {:induction false} SumKindNonNegative(ts: seq<Transaction>, kind: string)
    requires forall t :: t in ts ==> t.amount >= 0.0
    ensures SumKind(ts, kind) >= 0.0
  {
    if ts != [] {
      assert ts[0] in ts;
      SumKindNonNegative(ts[1..], kind);
    }
  }

  datatype Balance = Balance(income: real, expenses: real, balance: real)

  /** `get_balance`: income and expense totals of the entries in the date range. */
  function GetBalance(ts: seq<Transaction>, start: Option<string>, end: Option<string>): (b: Balance)
    ensures b.balance == b.income - b.expenses
  {
    var f := GetTransactions(ts, start, end, None, None);
    var income := SumKind(f, Income);
    var expenses := SumKind(f, Expense);
    Balance(income, expenses, income - expenses)
  }

  /**
   * The totals of `get_balance` are the sums over the ledger entries in the
   * date range, whatever their order; they are never negative when no
   * amount is, and all three are zero on an empty ledger.
   */
  lemma BalanceSpec(ts: seq<Transaction>, start: Option<string>, end: Option<string>)
    ensures var b := GetBalance(ts, start, end);
      && b.income == SumKind(Filtered(ts, start, end, None, None), Income)
      && b.expenses == SumKind(Filtered(ts, start, end, None, None), Expense)
      && ((forall t :: t in ts ==> t.amount >= 0.0) ==> b.income >= 0.0 && b.expenses >= 0.0)
      && (ts == [] ==> b == Balance(0.0, 0.0, 0.0))
  {
    var f := Filtered(ts, start, end, None, None);
    GetTransactionsIsSortedFilter(ts, start, end, None, None);
    SumKindSort(f, Income);
    SumKindSort(f, Expense);
    if forall t :: t in ts ==> t.amount >= 0.0 {
      forall t | t in f
        ensures t.amount >= 0.0
      {
        FilterMembers(ts, MatchesFn(start, end, None, None), t);
      }
      SumKindNonNegative(f, Income);
      SumKindNonNegative(f, Expense);
    }
  }

  /**
   * A Python dict from category to amount, as its items in insertion
   * order; the dict's key order is what the report falls back on for
   * equal amounts.
   */
  type Totals = seq<(string, real)>

  function Categories(acc: Totals): (cs: seq<string>)
    ensures |cs| == |acc|
    ensures forall i :: 0 <= i < |acc| ==> cs[i] == acc[i].0
  {
    if acc == [] then [] else [acc[0].0] + Categories(acc[1..])
  }

  /** The value stored under `category`, or 0 when it is absent. */
  function Lookup(acc: Totals, category: string): real {
    if acc == [] then 0.0
    else if acc[0].0 == category then acc[0].1
    else Lookup(acc[1..], category)
  }

  /** The sum of all values. */
  function Total(acc: Totals): real {
    if acc == [] then 0.0 else acc[0].1 + Total(acc[1..])
  }

  /**
   * `if category not in d: d[category] = 0` followed by
   * `d[category] += amount`: an existing key keeps its place, a new one
   * goes last.
   */
  function AddTo(acc: Totals, category: string, amount: real): (r: Totals)
    ensures Categories(r) == if category in Categories(acc) then Categories(acc) else Categories(acc) + [category]
    ensures forall c :: Lookup(r, c) == Lookup(acc, c) + (if c == category then amount else 0.0)
    ensures Total(r) == Total(acc) + amount
  {
    if acc == [] then [(category, amount)]
    else if acc[0].0 == category then
      [(category, acc[0].1 + amount)] + acc[1..]
    else
      assert Categories(acc[1..]) == Categories(acc)[1..];
      var rest := AddTo(acc[1..], category, amount);
      assert Categories([acc[0]] + rest) == [acc[0].0] + Categories(rest);
      [acc[0]] + rest
  }

  /** A dict never holds a key twice: adding to it keeps its keys distinct. */
  lemma AddToKeepsKeysUnique(acc: Totals, category: string, amount: real)
    requires NoDuplicates(Categories(acc))
    ensures NoDuplicates(Categories(AddTo(acc, category, amount)))
  {
  }

  /** The result of `get_category_summary`: one dict per kind. */
  datatype Summary = Summary(income: Totals, expense: Totals)

  /** `summary[cat_type]` raises KeyError for a type other than income or expense. */
  datatype SummaryError = UnknownKind(kind: string)

  /** One iteration of the loop of `get_category_summary`. */
  function Accumulate(s: Summary, t: Transaction): Result<Summary, SummaryError>
  {
    if t.kind == Income then Success(s.(income := AddTo(s.income, t.category, t.amount)))
    else if t.kind == Expense then Success(s.(expense := AddTo(s.expense, t.category, t.amount)))
    else Failure(UnknownKind(t.kind))
  }

  /** One loop step keeps both dicts free of repeated categories. */
  lemma AccumulateKeepsKeysUnique(s: Summary, t: Transaction)
    requires NoDuplicates(Categories(s.income)) && NoDuplicates(Categories(s.expense))
    ensures Accumulate(s, t).Success? ==>
      NoDuplicates(Categories(Accumulate(s, t).value.income))
      && NoDuplicates(Categories(Accumulate(s, t).value.expense))
  {
    AddToKeepsKeysUnique(s.income, t.category, t.amount);
    AddToKeepsKeysUnique(s.expense, t.category, t.amount);
  }

  /** The loop of `get_category_summary` over `ts`, stopping at the first entry of an unknown kind. */
  function Summarize(ts: seq<Transaction>): Result<Summary, SummaryError>
  {
    if ts == [] then Success(Summary([], []))
    else
      match Summarize(ts[..|ts| - 1])
      case Failure(e) => Failure(e)
      case Success(s) => Accumulate(s, ts[|ts| - 1])
  }

  /** A type `get_category_summary` has a dict for. */
  predicate KnownKind(kind: string) {
    kind == Income || kind == Expense
  }

  /** One more entry keeps the loop running exactly when it was running and the entry's type is known. */
  lemma SummarizeLastSucceeds(ts: seq<Transaction>)
    requires ts != []
    ensures Summarize(ts).Success? <==> Summarize(ts[..|ts| - 1]).Success? && KnownKind(ts[|ts| - 1].kind)
  {
    var last := ts[|ts| - 1];
    match Summarize(ts[..|ts| - 1])
    case Failure(e) =>
    case Success(s) =>
      assert Summarize(ts) == Accumulate(s, last);
  }

  /** Every entry is income or expense. */
  predicate AllKnown(ts: seq<Transaction>) {
    forall j :: 0 <= j < |ts| ==> KnownKind(ts[j].kind)
  }

  lemma AllKnownLast(ts: seq<Transaction>)
    requires ts != []
    ensures AllKnown(ts) <==> AllKnown(ts[..|ts| - 1]) && KnownKind(ts[|ts| - 1].kind)
  {
    var init := ts[..|ts| - 1];
    assert forall j :: 0 <= j < |init| ==> init[j] == ts[j];
  }

  /** The loop runs to the end exactly when every entry is income or expense. */
  lemma {:induction false} SummarizeSucceeds(ts: seq<Transaction>)
    ensures Summarize(ts).Success? <==> AllKnown(ts)
  {
    if ts != [] {
      SummarizeSucceeds(ts[..|ts| - 1]);
      SummarizeLastSucceeds(ts);
      AllKnownLast(ts);
    }
  }

  /** The entries before `i` all have a known type, so the loop gets past them. */
  lemma SummarizePrefixSucceeds(ts: seq<Transaction>, i: nat)
    requires i <= |ts|
    requires forall j :: 0 <= j < i ==> KnownKind(ts[j].kind)
    ensures Summarize(ts[..i]).Success?
  {
    var prefix := ts[..i];
    forall j | 0 <= j < |prefix| ensures KnownKind(prefix[j].kind) {
      assert prefix[j] == ts[j];
    }
    SummarizeSucceeds(prefix);
  }

  /** A successful prefix followed by an entry of unknown type makes the whole loop raise. */
  lemma {:induction false} SummarizeFailsFrom(ts: seq<Transaction>, i: nat)
    requires i < |ts| && !KnownKind(ts[i].kind) && Summarize(ts[..i]).Success?
    ensures Summarize(ts) == Failure(UnknownKind(ts[i].kind))
  {
    if i + 1 == |ts| {
      SummarizeFailsAt(ts, i);
      assert ts[..i + 1] == ts;
    } else {
      var init := ts[..|ts| - 1];
      assert init[..i] == ts[..i] && init[i] == ts[i];
      SummarizeFailsFrom(init, i);
    }
  }

  /** An entry of unknown type right after a successful prefix makes the loop raise. */
  lemma SummarizeFailsAt(ts: seq<Transaction>, i: nat)
    requires i < |ts| && !KnownKind(ts[i].kind) && Summarize(ts[..i]).Success?
    ensures Summarize(ts[..i + 1]) == Failure(UnknownKind(ts[i].kind))
  {
    SummarizeNext(ts, i);
  }

  /** Whenever the loop raises, the type it names is neither income nor expense. */
  lemma {:induction false} SummarizeErrorIsUnknown(ts: seq<Transaction>)
    ensures Summarize(ts).Failure? ==> !KnownKind(Summarize(ts).error.kind)
  {
    if ts != [] {
      SummarizeErrorIsUnknown(ts[..|ts| - 1]);
    }
  }

  /** The loop raises KeyError at the first entry that is neither income nor expense. */
  lemma SummarizeFirstFailure(ts: seq<Transaction>, i: nat)
    requires i < |ts| && !KnownKind(ts[i].kind)
    requires forall j :: 0 <= j < i ==> KnownKind(ts[j].kind)
    ensures Summarize(ts) == Failure(UnknownKind(ts[i].kind))
  {
    SummarizePrefixSucceeds(ts, i);
    SummarizeFailsFrom(ts, i);
  }

  /** `summary[kind]`. */
  function Dict(s: Summary, kind: string): Totals {
    if kind == Income then s.income else s.expense
  }

  /** One more iteration of the loop. */
  lemma SummarizeNext(ts: seq<Transaction>, i: nat)
    requires i < |ts|
    ensures Summarize(ts[..i + 1]) ==
      match Summarize(ts[..i])
      case Failure(e) => Failure(e)
      case Success(s) => Accumulate(s, ts[i])
  {
    assert ts[..i + 1][..i] == ts[..i];
  }

  /** Once an entry of unknown kind has stopped the loop, later entries change nothing. */
  lemma {:induction false} SummarizeFailureSticks(ts: seq<Transaction>, k: nat)
    requires k <= |ts| && Summarize(ts[..k]).Failure?
    ensures Summarize(ts) == Summarize(ts[..k])
    decreases |ts|
  {
    if k == |ts| {
      assert ts[..k] == ts;
    } else {
      var init := ts[..|ts| - 1];
      assert init[..k] == ts[..k];
      SummarizeFailureSticks(init, k);
    }
  }

  /** The last iteration of the loop, seen from one of the two dicts. */
  lemma SummarizeStep(ts: seq<Transaction>, kind: string)
    requires ts != [] && Summarize(ts).Success?
    requires KnownKind(kind)
    ensures Summarize(ts[..|ts| - 1]).Success?
    ensures var last := ts[|ts| - 1];
      Dict(Summarize(ts).value, kind) ==
        if last.kind == kind then AddTo(Dict(Summarize(ts[..|ts| - 1]).value, kind), last.category, last.amount)
        else Dict(Summarize(ts[..|ts| - 1]).value, kind)
  {
  }

  /** The categories of a dict are those occurring among the entries of its kind, each once. */
  lemma {:induction false} SummarizeCategories(ts: seq<Transaction>, kind: string, c: string)
    requires Summarize(ts).Success?
    requires KnownKind(kind)
    ensures NoDuplicates(Categories(Dict(Summarize(ts).value, kind)))
    ensures c in Categories(Dict(Summarize(ts).value, kind)) <==> c in CategoriesOf(ts, kind)
  {
    if ts != [] {
      var init := ts[..|ts| - 1];
      SummarizeStep(ts, kind);
      SummarizeCategories(init, kind, c);
      CategoriesOfLast(ts, kind);
      var last := ts[|ts| - 1];
      AddToKeepsKeysUnique(Dict(Summarize(init).value, kind), last.category, last.amount);
    }
  }

  /** The categories of the entries of one kind. */
  function CategoriesOf(ts: seq<Transaction>, kind: string): set<string> {
    set t | t in ts && t.kind == kind :: t.category
  }

  lemma CategoriesOfLast(ts: seq<Transaction>, kind: string)
    requires ts != []
    ensures var last := ts[|ts| - 1];
      CategoriesOf(ts, kind) ==
        CategoriesOf(ts[..|ts| - 1], kind) + (if last.kind == kind then {last.category} else {})
  {
    var init, last := ts[..|ts| - 1], ts[|ts| - 1];
    assert ts == init + [last];
    forall t
      ensures t in ts <==> t in init || t == last
    {
    }
  }

  /** Each category's value is the sum of the amounts of its entries of that kind. */
  lemma {:induction false} SummarizeLookup(ts: seq<Transaction>, kind: string, c: string)
    requires Summarize(ts).Success?
    requires KnownKind(kind)
    ensures Lookup(Dict(Summarize(ts).value, kind), c) == SumCategory(ts, kind, c)
  {
    if ts != [] {
      SummarizeStep(ts, kind);
      SummarizeLookup(ts[..|ts| - 1], kind, c);
      SumCategoryLast(ts, kind, c);
    }
  }

  /** The values of a dict add up to the total of its kind. */
  lemma {:induction false} SummarizeTotal(ts: seq<Transaction>, kind: string)
    requires Summarize(ts).Success?
    requires KnownKind(kind)
    ensures Total(Dict(Summarize(ts).value, kind)) == SumKind(ts, kind)
  {
    if ts != [] {
      SummarizeStep(ts, kind);
      SummarizeTotal(ts[..|ts| - 1], kind);
      SumKindLast(ts, kind);
    }
  }

  /**
   * `get_category_summary` over a date range agrees with `get_balance`
   * over the same range: the values of each dict add up to that kind's total.
   */
  lemma SummaryMatchesBalance(ts: seq<Transaction>, start: Option<string>, end: Option<string>)
    requires Summarize(GetTransactions(ts, start, end, None, None)).Success?
    ensures var s := Summarize(GetTransactions(ts, start, end, None, None)).value;
      && Total(s.income) == GetBalance(ts, start, end).income
      && Total(s.expense) == GetBalance(ts, start, end).expenses
  {
    SummarizeTotal(GetTransactions(ts, start, end, None, None), Income);
    SummarizeTotal(GetTransactions(ts, start, end, None, None), Expense);
  }
}

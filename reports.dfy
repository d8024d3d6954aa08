/**
 * What `generate_report` computes before it formats text: the period's
 * start date, the balance and category summary from that date on, and the
 * two category blocks ordered by amount, largest first.
 */
module Reports {
  import opened Wrappers
  import opened Seqs
  import opened Sorting
  import opened Transactions
  import opened Queries

  /** The start dates the source derives from the clock: today minus 7, 30 and 365 days. */
  datatype Lookback = Lookback(weekAgo: string, monthAgo: string, yearAgo: string)

  /** `week`, `month` and `year` bound the report from below; any other period is unbounded. */
  function PeriodStart(period: string, lookback: Lookback): (r: Option<string>)
    ensures r.None? <==> period != "week" && period != "month" && period != "year"
    ensures period == "week" ==> r == Some(lookback.weekAgo)
    ensures period == "month" ==> r == Some(lookback.monthAgo)
    ensures period == "year" ==> r == Some(lookback.yearAgo)
  {
    if period == "week" then Some(lookback.weekAgo)
    else if period == "month" then Some(lookback.monthAgo)
    else if period == "year" then Some(lookback.yearAgo)
    else None
  }

  /** The sort key of a block: `lambda x: x[1]`. */
  function AmountLe(a: (string, real), b: (string, real)): bool {
    a.1 <= b.1
  }

  lemma AmountOrder()
    ensures TotalPreorder(AmountLe)
  {
  }

  /** A category block: left out when the dict is empty, otherwise its items sorted by amount, largest first. */
  function Block(totals: Totals): (r: Option<Totals>)
    ensures r.None? <==> totals == []
    ensures r.Some? ==> multiset(r.value) == multiset(totals)
  {
    if totals == [] then None else Some(SortDesc(totals, AmountLe))
  }

  /**
   * A present block lists the items largest amount first, and items with
   * equal amounts in the dict's insertion order.
   */
  lemma BlockSpec(totals: Totals)
    ensures Block(totals).Some? ==>
      var b := Block(totals).value;
      && SortedDesc(b, AmountLe)
      && forall y :: Ties(b, AmountLe, y) == Ties(totals, AmountLe, y)
  {
    if totals != [] {
      AmountOrder();
      SortDescSorted(totals, AmountLe);
      forall y
        ensures Ties(SortDesc(totals, AmountLe), AmountLe, y) == Ties(totals, AmountLe, y)
      {
        SortDescStable(totals, AmountLe, y);
      }
    }
  }

  datatype Report = Report(period: string, balance: Balance, incomeBlock: Option<Totals>, expenseBlock: Option<Totals>)

  /** `generate_report` without the text formatting; it raises where `get_category_summary` does. */
  function BuildReport(ts: seq<Transaction>, period: string, lookback: Lookback): (r: Result<Report, SummaryError>)
    ensures r.Failure? ==> !KnownKind(r.error.kind)
  {
    SummarizeErrorIsUnknown(GetTransactions(ts, PeriodStart(period, lookback), None, None, None));
    var start := PeriodStart(period, lookback);
    var balance := GetBalance(ts, start, None);
    match Summarize(GetTransactions(ts, start, None, None, None))
    case Failure(e) => Failure(e)
    case Success(s) => Success(Report(period, balance, Block(s.income), Block(s.expense)))
  }

  /**
   * A report covers the entries dated on or after the period's start; it
   * fails exactly when one of them is neither income nor expense; its
   * balance is that of `get_balance` from the same start; each block holds
   * the categories of its kind in the period, and its amounts add up to
   * the kind's total in the balance.
   */
  lemma ReportSpec(ts: seq<Transaction>, period: string, lookback: Lookback)
    ensures var start := PeriodStart(period, lookback);
      var r := BuildReport(ts, period, lookback);
      && (r.Failure? <==> exists t :: t in ts && Matches(t, start, None, None, None) && !KnownKind(t.kind))
      && (r.Success? ==>
        var s := Summarize(GetTransactions(ts, start, None, None, None)).value;
        && r.value.balance == GetBalance(ts, start, None)
        && r.value.incomeBlock == Block(s.income)
        && r.value.expenseBlock == Block(s.expense)
        && Total(s.income) == r.value.balance.income
        && Total(s.expense) == r.value.balance.expenses
        && (forall c :: c in Categories(s.income) <==> c in CategoriesOf(Filtered(ts, start, None, None, None), Income))
        && (forall c :: c in Categories(s.expense) <==> c in CategoriesOf(Filtered(ts, start, None, None, None), Expense)))
  {
    var start := PeriodStart(period, lookback);
    var f := GetTransactions(ts, start, None, None, None);
    GetTransactionsSpec(ts, start, None, None, None);
    SummarizeSucceeds(f);
    if Summarize(f).Failure? {
      var j :| 0 <= j < |f| && !KnownKind(f[j].kind);
      assert f[j] in f;
    } else {
      forall t | t in ts && Matches(t, start, None, None, None)
        ensures KnownKind(t.kind)
      {
        var j :| 0 <= j < |f| && f[j] == t;
      }
    }
    if Summarize(f).Success? {
      SummaryMatchesBalance(ts, start, None);
      var filtered := Filtered(ts, start, None, None, None);
      forall c
        ensures c in Categories(Summarize(f).value.income) <==> c in CategoriesOf(filtered, Income)
        ensures c in Categories(Summarize(f).value.expense) <==> c in CategoriesOf(filtered, Expense)
      {
        SummarizeCategories(f, Income, c);
        SummarizeCategories(f, Expense, c);
        SameElementsSameCategories(f, filtered, Income);
        SameElementsSameCategories(f, filtered, Expense);
      }
    }
  }

  lemma SameElementsSameCategories(a: seq<Transaction>, b: seq<Transaction>, kind: string)
    requires multiset(a) == multiset(b)
    ensures CategoriesOf(a, kind) == CategoriesOf(b, kind)
  {
    forall t
      ensures t in a <==> t in b
    {
      assert t in a <==> t in multiset(a);
      assert t in b <==> t in multiset(b);
    }
  }

  /** Two food expenses of 20 and 30 and a salary of 1000 give Food 50 and Salary 1000, nothing else. */
  lemma SummaryExample()
    ensures var ts := [Transaction(1, 20.0, "Food", "lunch", Expense, "2024-02-01"),
                       Transaction(2, 30.0, "Food", "dinner", Expense, "2024-02-02"),
                       Transaction(3, 1000.0, "Salary", "pay", Income, "2024-02-03")];
      Summarize(ts) == Success(Summary([("Salary", 1000.0)], [("Food", 50.0)]))
  {
    var lunch := Transaction(1, 20.0, "Food", "lunch", Expense, "2024-02-01");
    var dinner := Transaction(2, 30.0, "Food", "dinner", Expense, "2024-02-02");
    var pay := Transaction(3, 1000.0, "Salary", "pay", Income, "2024-02-03");
    var ts := [lunch, dinner, pay];
    assert ts[..2] == [lunch, dinner] && [lunch, dinner][..1] == [lunch] && [lunch][..0] == [];
    assert Summarize([lunch]) == Success(Summary([], [("Food", 20.0)]));
    var food: Totals := [("Food", 20.0)];
    assert food[1..] == [];
    assert AddTo(food, "Food", 30.0) == [("Food", 50.0)];
    assert Summarize([lunch, dinner]) == Success(Summary([], [("Food", 50.0)]));
  }

  /** Bills at 200 are listed before Food at 50. */
  lemma BlockExample()
    ensures Block([("Food", 50.0), ("Bills", 200.0)]) == Some([("Bills", 200.0), ("Food", 50.0)])
  {
    var food, bills := ("Food", 50.0), ("Bills", 200.0);
    var both, one := [food, bills], [bills];
    assert both[1..] == one && one[1..] == [];
    assert SortDesc(both, AmountLe) == Insert(food, SortDesc(one, AmountLe), AmountLe);
    assert SortDesc(one, AmountLe) == one;
    assert Insert(food, one, AmountLe) == [bills] + Insert(food, [], AmountLe) == [bills, food];
    assert Block(both) == Some([bills, food]);
  }
}

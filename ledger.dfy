/**
 * `FinanceTracker`: the ledger's mutable state (the list of transactions
 * and the per-kind category vocabulary), its loading and saving, and the
 * operations that change or read it.
 */
module Ledger {
  import opened Wrappers
  import opened Text
  import opened Seqs
  import opened Transactions
  import opened Queries
  import opened Reports

  /** The data file's top-level object; an absent key reads as empty, as `data.get(key, default)` does. */
  datatype Document = Document(transactions: seq<Record>, categories: map<string, seq<string>>)

  /** What the data file holds: text that is not valid JSON, or a parsed document. */
  datatype FileContent = Malformed | Parsed(doc: Document)

  /** `add_transaction` raises ValueError for a type other than income or expense. */
  datatype AddError = InvalidType

  datatype LoadOutcome =
    | NoFile               // the file does not exist
    | Loaded               // the file was read
    | Recovered            // JSONDecodeError or KeyError: reported, state left as it was
    | Raised(error: DecodeError)  // any other exception escapes `load_data`

  /** The vocabulary a new tracker starts with. */
  function DefaultCategories(): (m: map<string, seq<string>>)
    ensures m.Keys == {Income, Expense}
    ensures forall k :: k in m ==> NoDuplicates(m[k])
  {
    map[Income := ["Salary", "Freelance", "Investment", "Gift", "Other Income"],
        Expense := ["Food", "Transportation", "Entertainment", "Bills", "Shopping",
                    "Healthcare", "Education", "Travel", "Other Expense"]]
  }

  /** The test of `delete_transaction`'s comprehension: `t.id != transaction_id`. */
  function IdIsNot(id: int): Transaction -> bool {
    (t: Transaction) => t.id != id
  }

  /**
   * Removing by identifier takes out every entry with that identifier and
   * nothing else, keeps the survivors in order, and shortens the list
   * exactly when some entry had the identifier.
   */
  lemma WithoutIdSpec(ts: seq<Transaction>, id: int)
    ensures var r := Filter(ts, IdIsNot(id));
      && (|r| < |ts| <==> exists t :: t in ts && t.id == id)
      && (forall t :: t in r <==> t in ts && t.id != id)
      && IsSubsequence(r, ts)
      && (|r| == |ts| ==> r == ts)
  {
    var r := Filter(ts, IdIsNot(id));
    FilterKeepsAll(ts, IdIsNot(id));
    FilterIsSubsequence(ts, IdIsNot(id));
    forall t
      ensures t in r <==> t in ts && t.id != id
    {
      FilterMembers(ts, IdIsNot(id), t);
    }
  }

  /**
   * The category merge of `load_data`: a vocabulary named in the file
   * becomes the union of its entries and the file's, without repetition;
   * the others are kept. The result for one kind has no order the source
   * fixes (`list(set(...))`), so only its elements are specified.
   */
  ghost predicate MergedVocabulary(merged: map<string, seq<string>>, current: map<string, seq<string>>,
                                   fromFile: map<string, seq<string>>) {
    && merged.Keys == current.Keys
    && (forall k :: k in merged && k !in fromFile ==> merged[k] == current[k])
    && (forall k :: k in merged && k in fromFile ==>
          NoDuplicates(merged[k]) && forall c :: c in merged[k] <==> c in current[k] || c in fromFile[k])
  }

  /**
   * The vocabulary step of `add_transaction`: append the category to its
   * kind's list unless the list already holds it with the same letter case.
   * Vocabularies only grow, and the other kind's list is untouched.
   */
  function WithCategory(vocabularies: map<string, seq<string>>, kind: string, category: string)
    : (r: map<string, seq<string>>)
    requires kind in vocabularies
    ensures r.Keys == vocabularies.Keys
    ensures forall k :: k in r && k != kind ==> r[k] == vocabularies[k]
    ensures forall c :: c in r[kind] <==> c in vocabularies[kind] || c == category
    ensures vocabularies[kind] <= r[kind]
    ensures NoDuplicates(vocabularies[kind]) ==> NoDuplicates(r[kind])
    ensures category in vocabularies[kind] ==> r == vocabularies
  {
    if category in vocabularies[kind] then vocabularies
    else
      var grown := vocabularies[kind] + [category];
      assert grown[..|vocabularies[kind]|] == vocabularies[kind];
      vocabularies[kind := grown]
  }

  class FinanceTracker {
    var transactions: seq<Transaction>
    /** `self.categories`: the vocabulary of each kind, keyed by "income" and "expense". */
    var categories: map<string, seq<string>>
    /** The data file; `None` while it does not exist. */
    var file: Option<FileContent>

    ghost predicate Valid()
      reads this
    {
      && categories.Keys == {Income, Expense}
      && (forall k :: k in categories ==> NoDuplicates(categories[k]))
      && (forall t :: t in transactions ==> WellFormed(t) && t.date != "")
    }

    /** What `save_data` writes. */
    function Snapshot(): Document
      reads this
    {
      Document(ToDicts(transactions), categories)
    }

    /** The defaults of `__init__`; the `load_data` call that follows is `LoadData`. */
    constructor (file: Option<FileContent>)
      ensures Valid()
      ensures transactions == [] && categories == DefaultCategories() && this.file == file
    {
      transactions := [];
      categories := DefaultCategories();
      this.file := file;
    }

    /**
     * `load_data`: decode every stored transaction, then merge the stored
     * vocabularies into the current ones. Nothing changes unless every
     * record decodes; a missing key is reported and ignored, any other
     * decoding failure escapes.
     */
    method LoadData(today: string) returns (outcome: LoadOutcome)
      requires Valid() && today != ""
      modifies this
      ensures Valid() && file == old(file)
      ensures file.None? ==> outcome == NoFile
      ensures file == Some(Malformed) ==> outcome == Recovered
      ensures file.Some? && file.value.Parsed? ==>
        var decoded := FromDicts(file.value.doc.transactions, today);
        && (decoded.Failure? && decoded.error.MissingKey? ==> outcome == Recovered)
        && (decoded.Failure? && decoded.error.WrongType? ==> outcome == Raised(decoded.error))
        && (decoded.Success? ==>
              outcome == Loaded && transactions == decoded.value
              && MergedVocabulary(categories, old(categories), file.value.doc.categories))
      ensures outcome != Loaded ==> transactions == old(transactions) && categories == old(categories)
    {
      if file.None? {
        return NoFile;
      }
      if file.value.Malformed? {
        return Recovered;
      }
      var doc := file.value.doc;
      var decoded := FromDicts(doc.transactions, today);
      if decoded.Failure? {
        if decoded.error.MissingKey? {
          return Recovered;
        }
        return Raised(decoded.error);
      }
      FromDictsWellFormed(doc.transactions, today);
      transactions := decoded.value;
      MergeCategories(doc.categories);
      outcome := Loaded;
    }

    /** The loop of `load_data` that merges the stored vocabularies into the current ones. */
    method MergeCategories(fromFile: map<string, seq<string>>)
      requires forall k :: k in categories ==> NoDuplicates(categories[k])
      modifies this`categories
      ensures MergedVocabulary(categories, old(categories), fromFile)
      ensures forall k :: k in categories ==> NoDuplicates(categories[k])
    {
      var pending := fromFile.Keys;
      while pending != {}
        invariant pending <= fromFile.Keys
        invariant categories.Keys == old(categories).Keys
        invariant forall k :: k in categories ==> NoDuplicates(categories[k])
        invariant forall k :: k in categories && (k !in fromFile || k in pending) ==> categories[k] == old(categories)[k]
        invariant forall k :: k in categories && k in fromFile && k !in pending ==>
          forall c :: c in categories[k] <==> c in old(categories)[k] || c in fromFile[k]
        decreases pending
      {
        var k :| k in pending;
        if k in categories {
          categories := categories[k := Dedup(categories[k] + fromFile[k])];
        }
        pending := pending - {k};
      }
    }

    /** `save_data`: the file is overwritten with the whole ledger and vocabulary. */
    method SaveData()
      modifies this`file
      ensures file == Some(Parsed(Snapshot()))
    {
      file := Some(Parsed(Snapshot()));
    }

    /**
     * `add_transaction`: reject a type other than income or expense (in any
     * letter case) before anything changes; otherwise add the category to
     * that type's vocabulary if it is not there yet (compared with its
     * letter case), append the new transaction, save, and return it.
     */
    method AddTransaction(id: int, amount: real, category: string, description: string,
                          transactionType: string, date: Option<string>, today: string)
      returns (r: Result<Transaction, AddError>)
      requires Valid() && today != ""
      modifies this
      ensures Valid()
      ensures !KnownKind(Lower(transactionType)) ==>
        r == Failure(InvalidType) && transactions == old(transactions)
        && categories == old(categories) && file == old(file)
      ensures KnownKind(Lower(transactionType)) ==>
        var kind := Lower(transactionType);
        && r == Success(NewTransaction(id, amount, category, description, transactionType, date, today))
        && transactions == old(transactions) + [r.value]
        && categories == WithCategory(old(categories), kind, category)
        && file == Some(Parsed(Snapshot()))
      ensures r.Success? ==> category in categories[r.value.kind]
    {
      var kind := Lower(transactionType);
      if !KnownKind(kind) {
        return Failure(InvalidType);
      }
      var t := NewTransaction(id, amount, category, description, transactionType, date, today);
      Append(t);
      r := Success(t);
    }

    /** The state change of `add_transaction` once the type is accepted. */
    method Append(t: Transaction)
      requires Valid() && KnownKind(t.kind) && WellFormed(t) && t.date != ""
      modifies this
      ensures Valid()
      ensures transactions == old(transactions) + [t]
      ensures categories == WithCategory(old(categories), t.kind, t.category)
      ensures file == Some(Parsed(Snapshot()))
    {
      var before := categories;
      categories := WithCategory(categories, t.kind, t.category);
      forall k | k in categories
        ensures NoDuplicates(categories[k])
      {
        if k != t.kind {
          assert categories[k] == before[k];
        }
      }
      var ts := transactions;
      transactions := ts + [t];
      forall u | u in transactions
        ensures WellFormed(u) && u.date != ""
      {
        if u != t {
          assert u in ts;
        }
      }
      SaveData();
    }

    /**
     * `delete_transaction`: drop every entry with the identifier, save if
     * the list got shorter, and report whether it did.
     */
    method DeleteTransaction(id: int) returns (deleted: bool)
      requires Valid()
      modifies this`transactions, this`file
      ensures Valid()
      ensures transactions == Filter(old(transactions), IdIsNot(id))
      ensures deleted <==> exists t :: t in old(transactions) && t.id == id
      ensures forall t :: t in transactions ==> t.id != id
      ensures IsSubsequence(transactions, old(transactions))
      ensures !deleted ==> transactions == old(transactions)
      ensures file == if deleted then Some(Parsed(Snapshot())) else old(file)
    {
      var originalLength := |transactions|;
      WithoutIdSpec(transactions, id);
      transactions := Filter(transactions, IdIsNot(id));
      if |transactions| < originalLength {
        SaveData();
        return true;
      }
      return false;
    }

    /**
     * `get_category_summary`: one pass over the entries in the date range,
     * newest first, adding each amount to its category in its kind's dict.
     */
    method GetCategorySummary(start: Option<string>, end: Option<string>) returns (r: Result<Summary, SummaryError>)
      ensures r == Summarize(GetTransactions(transactions, start, end, None, None))
    {
      var ts := GetTransactions(transactions, start, end, None, None);
      var income: Totals := [];
      var expense: Totals := [];
      var i := 0;
      while i < |ts|
        invariant 0 <= i <= |ts|
        invariant Summarize(ts[..i]) == Success(Summary(income, expense))
      {
        var t := ts[i];
        SummarizeNext(ts, i);
        if t.kind == Income {
          income := AddTo(income, t.category, t.amount);
        } else if t.kind == Expense {
          expense := AddTo(expense, t.category, t.amount);
        } else {
          SummarizeFailureSticks(ts, i + 1);
          assert ts[..|ts|] == ts;
          return Failure(UnknownKind(t.kind));
        }
        i := i + 1;
      }
      assert ts[..|ts|] == ts;
      r := Success(Summary(income, expense));
    }

    /** `generate_report` with the clock readings passed in and the text left unformatted. */
    method GenerateReport(period: string, lookback: Lookback) returns (r: Result<Report, SummaryError>)
      ensures r == BuildReport(transactions, period, lookback)
    {
      var start := PeriodStart(period, lookback);
      var balance := GetBalance(transactions, start, None);
      var summary := GetCategorySummary(start, None);
      match summary
      case Failure(e) =>
        r := Failure(e);
      case Success(s) =>
        r := Success(Report(period, balance, Block(s.income), Block(s.expense)));
    }
  }

  /**
   * `save_data` followed by a new `FinanceTracker` on the same file: the
   * new tracker loads every saved entry back, in order, and its
   * vocabularies are the defaults merged with the saved ones.
   */
  method SaveAndReload(saved: FinanceTracker, today: string) returns (reloaded: FinanceTracker, outcome: LoadOutcome)
    requires saved.Valid() && today != ""
    ensures outcome == Loaded
    ensures reloaded.transactions == saved.transactions
    ensures MergedVocabulary(reloaded.categories, DefaultCategories(), saved.categories)
  {
    LedgerRoundTrip(saved.transactions, today);
    reloaded := new FinanceTracker(Some(Parsed(saved.Snapshot())));
    outcome := reloaded.LoadData(today);
  }
}

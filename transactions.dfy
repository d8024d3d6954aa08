/**
 * The `Transaction` record of finance_tracker.py and its conversion to
 * and from the flat record stored in the data file.
 */
module Transactions {
  import opened Wrappers
  import opened Text

  /**
   * One income or expense entry. `kind` holds the source's
   * `transaction_type`: the lowercased type text, which `add_transaction`
   * restricts to "income" or "expense" but a loaded file need not.
   */
  datatype Transaction = Transaction(
    id: int,
    amount: real,
    category: string,
    description: string,
    kind: string,
    date: string)

  /** What the constructor guarantees of every transaction it builds. */
  predicate WellFormed(t: Transaction) {
    t.amount >= 0.0 && IsLower(t.kind)
  }

  function Abs(x: real): real {
    if x < 0.0 then -x else x
  }

  /**
   * `Transaction(amount, category, description, transaction_type, date)`
   * given the identifier and today's date that the source reads from the
   * clock. A missing or empty `date` falls back to `today`.
   */
  function NewTransaction(id: int, amount: real, category: string, description: string,
                          transactionType: string, date: Option<string>, today: string): (t: Transaction)
    ensures WellFormed(t)
    ensures t.amount == amount || t.amount == -amount
    ensures t.kind == Lower(transactionType)
    ensures t.id == id && t.category == category && t.description == description
    ensures date.Some? && date.value != "" ==> t.date == date.value
    ensures date.None? || date.value == "" ==> t.date == today
  {
    LowerIsLower(transactionType);
    var d := if date.Some? && date.value != "" then date.value else today;
    Transaction(id, Abs(amount), category, description, Lower(transactionType), d)
  }

  /** A value of the data file's record (a JSON number, integer or string). */
  datatype Value = Int(i: int) | Num(r: real) | Str(s: string)

  type Record = map<string, Value>

  datatype DecodeError =
    | MissingKey(key: string)   // Python's KeyError
    | WrongType(key: string)    // Python's TypeError or AttributeError

  /** `to_dict`. */
  function ToDict(t: Transaction): (r: Record)
    ensures r.Keys == {"id", "amount", "category", "description", "type", "date"}
  {
    map["id" := Int(t.id), "amount" := Num(t.amount), "category" := Str(t.category),
        "description" := Str(t.description), "type" := Str(t.kind), "date" := Str(t.date)]
  }

  predicate IsNumber(v: Value) {
    v.Int? || v.Num?
  }

  function NumberValue(v: Value): real
    requires IsNumber(v)
  {
    if v.Int? then v.i as real else v.r
  }

  /** Every key `from_dict` reads is present and holds a value of the kind it expects. */
  predicate Decodable(r: Record) {
    && "id" in r && r["id"].Int?
    && "amount" in r && IsNumber(r["amount"])
    && "category" in r && r["category"].Str?
    && "description" in r && r["description"].Str?
    && "type" in r && r["type"].Str?
    && "date" in r && r["date"].Str?
  }

  /**
   * `from_dict`: the five constructor arguments are looked up first, then
   * the constructor takes the absolute value of the amount and lowercases
   * the type, and last the `id` is looked up.
   */
  function FromDict(r: Record, today: string): (res: Result<Transaction, DecodeError>)
    ensures res.Success? <==> Decodable(r)
    ensures res.Success? ==> WellFormed(res.value)
    ensures res.Success? ==>
      && res.value.id == r["id"].i
      && res.value.amount == Abs(NumberValue(r["amount"]))
      && res.value.category == r["category"].s
      && res.value.description == r["description"].s
      && res.value.kind == Lower(r["type"].s)
      && res.value.date == (if r["date"].s != "" then r["date"].s else today)
    ensures res.Failure? && res.error.MissingKey? ==> res.error.key !in r
  {
    if "amount" !in r then Failure(MissingKey("amount"))
    else if "category" !in r then Failure(MissingKey("category"))
    else if "description" !in r then Failure(MissingKey("description"))
    else if "type" !in r then Failure(MissingKey("type"))
    else if "date" !in r then Failure(MissingKey("date"))
    else if !IsNumber(r["amount"]) then Failure(WrongType("amount"))
    else if !r["type"].Str? then Failure(WrongType("type"))
    else if "id" !in r then Failure(MissingKey("id"))
    else if !r["category"].Str? then Failure(WrongType("category"))
    else if !r["description"].Str? then Failure(WrongType("description"))
    else if !r["date"].Str? then Failure(WrongType("date"))
    else if !r["id"].Int? then Failure(WrongType("id"))
    else
      var t := NewTransaction(r["id"].i, NumberValue(r["amount"]), r["category"].s,
                              r["description"].s, r["type"].s, Some(r["date"].s), today);
      Success(t)
  }

  /** The keys the constructor call in `from_dict` reads, in the order it reads them. */
  const ConstructorKeys: seq<string> := ["amount", "category", "description", "type", "date"]

  /**
   * Which error `from_dict` raises: the first absent constructor argument
   * is a KeyError; with all five present, a bad amount or type raises
   * TypeError or AttributeError before a missing `id` is looked up.
   */
  lemma FromDictErrorOrder(r: Record, today: string, i: nat)
    requires i < |ConstructorKeys|
    ensures ConstructorKeys[i] !in r && (forall j :: 0 <= j < i ==> ConstructorKeys[j] in r) ==>
      FromDict(r, today) == Failure(MissingKey(ConstructorKeys[i]))
    ensures (forall k :: k in ConstructorKeys ==> k in r) && !IsNumber(r["amount"]) ==>
      FromDict(r, today) == Failure(WrongType("amount"))
    ensures (forall k :: k in ConstructorKeys ==> k in r) && IsNumber(r["amount"]) && !r["type"].Str? ==>
      FromDict(r, today) == Failure(WrongType("type"))
  {
    assert ConstructorKeys[0] == "amount" && ConstructorKeys[1] == "category"
      && ConstructorKeys[2] == "description" && ConstructorKeys[3] == "type" && ConstructorKeys[4] == "date";
  }

  /** Round trip: a well-formed transaction with a date survives `to_dict` then `from_dict`. */
  lemma RoundTrip(t: Transaction, today: string)
    requires WellFormed(t) && t.date != ""
    ensures FromDict(ToDict(t), today) == Success(t)
  {
  }

  /** Decoding normalises: encoding a decoded transaction and decoding again changes nothing. */
  lemma DecodeIdempotent(r: Record, today: string)
    requires today != ""
    requires FromDict(r, today).Success?
    ensures FromDict(ToDict(FromDict(r, today).value), today) == FromDict(r, today)
  {
    RoundTrip(FromDict(r, today).value, today);
  }

  /** `[t.to_dict() for t in ts]`. */
  function ToDicts(ts: seq<Transaction>): (rs: seq<Record>)
    ensures |rs| == |ts|
    ensures forall i :: 0 <= i < |ts| ==> rs[i] == ToDict(ts[i])
  {
    if ts == [] then [] else [ToDict(ts[0])] + ToDicts(ts[1..])
  }

  /** Record `i` is the first that fails to decode, and it fails with `e`. */
  predicate FirstFailure(rs: seq<Record>, today: string, i: int, e: DecodeError) {
    && 0 <= i < |rs|
    && FromDict(rs[i], today) == Failure(e)
    && forall j :: 0 <= j < i ==> FromDict(rs[j], today).Success?
  }

  /** `[Transaction.from_dict(t) for t in rs]`: the first failing record raises. */
  function FromDicts(rs: seq<Record>, today: string): (res: Result<seq<Transaction>, DecodeError>)
    ensures res.Success? ==> |res.value| == |rs|
    ensures res.Success? ==> forall i :: 0 <= i < |rs| ==> FromDict(rs[i], today) == Success(res.value[i])
    ensures res.Failure? ==> exists i :: FirstFailure(rs, today, i, res.error)
  {
    if rs == [] then Success([])
    else match FromDict(rs[0], today)
      case Failure(e) =>
        assert FirstFailure(rs, today, 0, e);
        Failure(e)
      case Success(t) =>
        match FromDicts(rs[1..], today)
        case Failure(e) =>
          var i :| FirstFailure(rs[1..], today, i, e);
          assert forall j :: 1 <= j <= i + 1 ==> rs[j] == rs[1..][j - 1];
          assert FirstFailure(rs, today, i + 1, e);
          Failure(e)
        case Success(ts) =>
          Success([t] + ts)
  }

  /** Loading raises exactly the error of the first record that fails to decode. */
  lemma {:induction false} FromDictsFirst(rs: seq<Record>, today: string, i: nat)
    requires i < |rs| && FromDict(rs[i], today).Failure?
    requires forall j :: 0 <= j < i ==> FromDict(rs[j], today).Success?
    ensures FromDicts(rs, today) == Failure(FromDict(rs[i], today).error)
  {
    if i > 0 {
      assert forall j :: 0 <= j < i - 1 ==> rs[1..][j] == rs[j + 1];
      FromDictsFirst(rs[1..], today, i - 1);
    }
  }

  /**
   * Every transaction decoded from the file is one the constructor could
   * have built, and carries a date when today's date is not empty.
   */
  lemma FromDictsWellFormed(rs: seq<Record>, today: string)
    requires FromDicts(rs, today).Success? && today != ""
    ensures forall t :: t in FromDicts(rs, today).value ==> WellFormed(t) && t.date != ""
  {
    var ts := FromDicts(rs, today).value;
    forall t | t in ts
      ensures WellFormed(t) && t.date != ""
    {
      var i :| 0 <= i < |ts| && ts[i] == t;
      assert FromDict(rs[i], today) == Success(t);
    }
  }

  /** Saving the ledger and loading it back reproduces every entry, in order. */
  lemma {:induction false} LedgerRoundTrip(ts: seq<Transaction>, today: string)
    requires forall t :: t in ts ==> WellFormed(t) && t.date != ""
    ensures FromDicts(ToDicts(ts), today) == Success(ts)
  {
    if ts != [] {
      var rs := ToDicts(ts);
      assert rs == [ToDict(ts[0])] + ToDicts(ts[1..]);
      assert rs[0] == ToDict(ts[0]) && rs[1..] == ToDicts(ts[1..]);
      RoundTrip(ts[0], today);
      LedgerRoundTrip(ts[1..], today);
      assert FromDicts(rs, today) == Success([ts[0]] + ts[1..]);
      assert ts == [ts[0]] + ts[1..];
    }
  }
}

/** The ledger's objects: transactions, accounts with a running balance,
    investments growing in whole months, and the client that holds them.
    Every read of the clock is a `now` parameter (a timestamp in seconds). */
module Finances {
  import opened Registry
  import opened Growth
  import opened DateOrder
  import opened Totals
  import opened Sequences

  // ---------------------------------------------------------------------
  // Transaction

  /** The four fields of a transaction, as a value. */
  datatype Fields = Fields(amount: real, date: int, category: string, description: string)

  /** One named argument of `update`. */
  datatype Attribute =
    | Amount(amount: real)
    | Category(code: int)
    | Description(description: string)
    | Date(date: int)

  /** What `update` leaves behind: the fields, and the error it raised. */
  datatype Patched = Patched(fields: Fields, error: Option<Error>)

  predicate ValidAttribute(a: Attribute)
  {
    a.Category? ==> a.code in CATEGORIES
  }

  /** Overwrites the one field `a` names; a category code is stored as its
      name. */
  function Apply(f: Fields, a: Attribute): Fields
    requires ValidAttribute(a)
  {
    match a
    case Amount(v) => f.(amount := v)
    case Category(c) => f.(category := CATEGORIES[c])
    case Description(d) => f.(description := d)
    case Date(d) => f.(date := d)
  }

  /** `update(**attributes)`: the attributes are applied in order; an
      invalid category code raises, and those applied before it stay. */
  function Patch(f: Fields, attrs: seq<Attribute>): Patched
    decreases attrs
  {
    if attrs == [] then Patched(f, None)
    else if !ValidAttribute(attrs[0]) then Patched(f, Some(InvalidCategory))
    else Patch(Apply(f, attrs[0]), attrs[1..])
  }

  /** The update raises exactly when some attribute is an invalid code, and
      then it raises the invalid-category error. */
  lemma {:induction false} PatchFails(f: Fields, attrs: seq<Attribute>)
    ensures Patch(f, attrs).error.Some? <==> exists i :: 0 <= i < |attrs| && !ValidAttribute(attrs[i])
    ensures Patch(f, attrs).error.Some? ==> Patch(f, attrs).error.value == InvalidCategory
    decreases attrs
  {
    if attrs != [] && ValidAttribute(attrs[0]) {
      PatchFails(Apply(f, attrs[0]), attrs[1..]);
      assert forall i :: 0 < i < |attrs| ==> attrs[i] == attrs[1..][i - 1];
    }
  }

  /** The category stays a registry name whatever the update does. */
  lemma {:induction false} PatchKeepsCategory(f: Fields, attrs: seq<Attribute>)
    requires IsCategoryName(f.category)
    ensures IsCategoryName(Patch(f, attrs).fields.category)
    decreases attrs
  {
    if attrs != [] && ValidAttribute(attrs[0]) {
      assert IsCategoryName(Apply(f, attrs[0]).category);
      PatchKeepsCategory(Apply(f, attrs[0]), attrs[1..]);
    }
  }

  /** A field that no attribute names keeps its value. */
  lemma {:induction false} PatchKeepsUnnamed(f: Fields, attrs: seq<Attribute>)
    ensures (forall i :: 0 <= i < |attrs| ==> !attrs[i].Amount?) ==> Patch(f, attrs).fields.amount == f.amount
    ensures (forall i :: 0 <= i < |attrs| ==> !attrs[i].Category?) ==> Patch(f, attrs).fields.category == f.category
    ensures (forall i :: 0 <= i < |attrs| ==> !attrs[i].Description?) ==> Patch(f, attrs).fields.description == f.description
    ensures (forall i :: 0 <= i < |attrs| ==> !attrs[i].Date?) ==> Patch(f, attrs).fields.date == f.date
    decreases attrs
  {
    if attrs != [] && ValidAttribute(attrs[0]) {
      PatchKeepsUnnamed(Apply(f, attrs[0]), attrs[1..]);
      assert forall i :: 0 <= i < |attrs| - 1 ==> attrs[1..][i] == attrs[i + 1];
    }
  }

  /** Updating with `a + b` is updating with `a`, then, unless that raised,
      with `b`. */
  lemma {:induction false} PatchConcat(f: Fields, a: seq<Attribute>, b: seq<Attribute>)
    ensures Patch(f, a + b)
         == if Patch(f, a).error.Some? then Patch(f, a) else Patch(Patch(f, a).fields, b)
    decreases a
  {
    if a == [] {
      assert a + b == b;
    } else {
      assert (a + b)[0] == a[0];
      if ValidAttribute(a[0]) {
        assert (a + b)[1..] == a[1..] + b;
        PatchConcat(Apply(f, a[0]), a[1..], b);
      }
    }
  }

  /** The update is not atomic: at the first invalid code it stops with
      the attributes before that code applied. */
  lemma PatchStopsAtInvalid(f: Fields, attrs: seq<Attribute>, k: nat)
    requires k < |attrs| && !ValidAttribute(attrs[k])
    requires forall i :: 0 <= i < k ==> ValidAttribute(attrs[i])
    ensures Patch(f, attrs[..k]).error == None
    ensures Patch(f, attrs) == Patched(Patch(f, attrs[..k]).fields, Some(InvalidCategory))
  {
    PatchFails(f, attrs[..k]);
    PatchConcat(f, attrs[..k], attrs[k..]);
    assert attrs[..k] + attrs[k..] == attrs;
    assert attrs[k..][0] == attrs[k];
  }

  /** The update of the transaction tests: amount, category and
      description replaced, the date kept. */
  lemma PatchExample(date: int)
    ensures Patch(Fields(150.0, date, "Transferência", "Transferência bancária"),
                  [Amount(200.0), Category(1), Description("Pagamento de fatura")])
         == Patched(Fields(200.0, date, "Pagamento", "Pagamento de fatura"), None)
  {
  }

  /** A record of one monetary movement. Its category is always a name
      from the registry. */
  class Transaction {
    var amount: real
    var date: int
    var category: string
    var description: string

    function View(): Fields
      reads this
    {
      Fields(amount, date, category, description)
    }

    ghost predicate Valid()
      reads this
    {
      IsCategoryName(category)
    }

    constructor Init(amount: real, date: int, category: string, description: string)
      requires IsCategoryName(category)
      ensures View() == Fields(amount, date, category, description)
      ensures Valid()
    {
      this.amount := amount;
      this.date := date;
      this.category := category;
      this.description := description;
    }

    /** `Transaction(amount, category, description)` at time `now`. */
    static method Create(amount: real, code: int, description: string, now: int)
      returns (r: Result<Transaction>)
      ensures r.Failure? <==> code !in CATEGORIES
      ensures r.Failure? ==> r.error == InvalidCategory
      ensures r.Success? ==> fresh(r.value) && r.value.Valid()
      ensures r.Success? ==> r.value.View() == Fields(amount, now, CATEGORIES[code], description)
    {
      var name := Resolve(code);
      if name.Failure? {
        return Failure(name.error);
      }
      var t := new Transaction.Init(amount, now, name.value, description);
      return Success(t);
    }

    /** `update(**attributes)`, one attribute at a time. */
    method Update(attrs: seq<Attribute>) returns (error: Option<Error>)
      modifies this
      ensures Patched(View(), error) == Patch(old(View()), attrs)
      ensures old(Valid()) ==> Valid()
    {
      var i := 0;
      while i < |attrs|
        invariant 0 <= i <= |attrs|
        invariant Patch(old(View()), attrs) == Patch(View(), attrs[i..])
        invariant old(Valid()) ==> Valid()
        decreases |attrs| - i
      {
        var a := attrs[i];
        assert attrs[i..][0] == a && attrs[i..][1..] == attrs[i + 1..];
        if a.Category? && Resolve(a.code).Failure? {
          return Some(Resolve(a.code).error);
        }
        match a {
          case Amount(v) => amount := v;
          case Category(c) => category := Resolve(c).value;
          case Description(d) => description := d;
          case Date(d) => date := d;
        }
        i := i + 1;
      }
      return None;
    }
  }

  // ---------------------------------------------------------------------
  // Ledger views of a sequence of transactions

  function Amounts(ts: seq<Transaction>): (r: seq<real>)
    reads ts
    ensures |r| == |ts| && forall i :: 0 <= i < |ts| ==> r[i] == ts[i].amount
  {
    seq(|ts|, i requires 0 <= i < |ts| reads ts => ts[i].amount)
  }

  /** The sum of the amounts of a ledger. */
  function Total(ts: seq<Transaction>): real
    reads ts
  {
    Sum(Amounts(ts))
  }

  /** Each transaction paired with its date, the sort key. */
  function Dated(ts: seq<Transaction>): (r: seq<Keyed<Transaction>>)
    reads ts
    ensures |r| == |ts| && forall i :: 0 <= i < |ts| ==> r[i] == Keyed(ts[i].date, ts[i])
  {
    seq(|ts|, i requires 0 <= i < |ts| reads ts => Keyed(ts[i].date, ts[i]))
  }

  predicate DateSorted(ts: seq<Transaction>)
    reads ts
  {
    SortedByKey(Dated(ts))
  }

  /** `ts.sort(key=lambda t: t.date)`. */
  function SortByDate(ts: seq<Transaction>): seq<Transaction>
    reads ts
  {
    Items(StableSort(Dated(ts)))
  }

  /** The stable sort keeps each entry keyed by its own transaction's date,
      so dating the sorted ledger again gives back the sorted entries. */
  lemma SortKeepsKeys(ts: seq<Transaction>)
    ensures Dated(SortByDate(ts)) == StableSort(Dated(ts))
  {
    var s := StableSort(Dated(ts));
    StableSortPermutes(Dated(ts));
    forall i | 0 <= i < |s|
      ensures s[i] == Keyed(s[i].item.date, s[i].item)
    {
      assert s[i] in multiset(Dated(ts));
      assert s[i] in Dated(ts);
    }
  }

  /** Sorting any ledger by date leaves it date-sorted. */
  lemma SortByDateSorted(ts: seq<Transaction>)
    ensures DateSorted(SortByDate(ts))
  {
    SortKeepsKeys(ts);
    StableSortSorted(Dated(ts));
  }

  /** Sorting any ledger by date is a permutation of it. */
  lemma SortByDatePermutes(ts: seq<Transaction>)
    ensures multiset(SortByDate(ts)) == multiset(ts)
  {
    StableSortItems(Dated(ts));
    assert Items(Dated(ts)) == ts;
  }

  /** Where a transaction dated `date` lands when posted to `ts`. */
  function SlotFor(ts: seq<Transaction>, date: int): nat
    reads ts
  {
    Slot(Dated(ts), date)
  }

  lemma TotalSplice(ts: seq<Transaction>, k: nat, t: Transaction)
    requires k <= |ts|
    ensures Total(ts[..k] + [t] + ts[k..]) == Total(ts) + t.amount
  {
    var before, after := Amounts(ts[..k]), Amounts(ts[k..]);
    assert Amounts(ts[..k] + [t] + ts[k..]) == before + [t.amount] + after;
    assert Amounts(ts) == before + after;
    SumAppend(before + [t.amount], after);
    SumAppend(before, [t.amount]);
    SumAppend(before, after);
    assert Sum([t.amount]) == t.amount;
  }

  /** Pairing with dates commutes with inserting one transaction. */
  lemma DatedSplice(ts: seq<Transaction>, k: nat, t: Transaction)
    requires k <= |ts|
    ensures Dated(ts[..k] + [t] + ts[k..]) == Dated(ts)[..k] + [Keyed(t.date, t)] + Dated(ts)[k..]
  {
    var d, spliced := Dated(ts), ts[..k] + [t] + ts[k..];
    var sorted := d[..k] + [Keyed(t.date, t)] + d[k..];
    forall i | 0 <= i < |sorted|
      ensures Dated(spliced)[i] == sorted[i]
    {
      if i < k { assert sorted[i] == d[i]; }
      else if i > k { assert sorted[i] == d[i - 1]; }
    }
  }

  /** And so does dropping the dates. */
  lemma ItemsSplice(ts: seq<Transaction>, k: nat, t: Transaction)
    requires k <= |ts|
    ensures Items(Dated(ts)[..k] + [Keyed(t.date, t)] + Dated(ts)[k..]) == ts[..k] + [t] + ts[k..]
  {
    var d, spliced := Dated(ts), ts[..k] + [t] + ts[k..];
    var sorted := d[..k] + [Keyed(t.date, t)] + d[k..];
    forall i | 0 <= i < |sorted|
      ensures Items(sorted)[i] == spliced[i]
    {
      if i < k { assert sorted[i] == d[i]; }
      else if i > k { assert sorted[i] == d[i - 1]; }
    }
  }

  /** Sorting a date-sorted ledger with one new transaction appended puts
      it after every entry dated no later, keeps the old entries' order
      and leaves the ledger date-sorted. */
  lemma PostIntoSorted(ts: seq<Transaction>, t: Transaction)
    requires DateSorted(ts)
    ensures SlotFor(ts, t.date) <= |ts|
    ensures SortByDate(ts + [t])
         == ts[..SlotFor(ts, t.date)] + [t] + ts[SlotFor(ts, t.date)..]
    ensures DateSorted(SortByDate(ts + [t]))
  {
    var d := Dated(ts);
    var x := Keyed(t.date, t);
    var k := SlotFor(ts, t.date);
    SortAppended(d, x);
    assert Dated(ts + [t]) == d + [x];
    ItemsSplice(ts, k, t);
    DatedSplice(ts, k, t);
  }

  /** A balance agrees with a ledger: it is the ledger's sum, the ledger
      is in date order and every category is a registry name. */
  ghost predicate Consistent(balance: real, ts: seq<Transaction>)
    reads ts
  {
    && balance == Total(ts)
    && DateSorted(ts)
    && forall x :: x in ts ==> x.Valid()
  }

  /** Posting `t` to a consistent ledger inserts it after every entry dated
      no later and keeps balance and ledger consistent. */
  lemma PostKeepsLedger(ts: seq<Transaction>, t: Transaction, balance: real)
    requires Consistent(balance, ts) && t.Valid()
    ensures SlotFor(ts, t.date) <= |ts|
    ensures SortByDate(ts + [t]) == ts[..SlotFor(ts, t.date)] + [t] + ts[SlotFor(ts, t.date)..]
    ensures Consistent(balance + t.amount, SortByDate(ts + [t]))
  {
    PostIntoSorted(ts, t);
    var k := SlotFor(ts, t.date);
    TotalSplice(ts, k, t);
    assert forall x :: x in ts[..k] + [t] + ts[k..] ==> x in ts || x == t;
  }

  predicate InRange(t: Transaction, start: Option<int>, end: Option<int>)
    reads t
  {
    (start.None? || t.date >= start.value) && (end.None? || t.date <= end.value)
  }

  /** All supplied criteria hold of `t`. */
  predicate Selects(t: Transaction, start: Option<int>, end: Option<int>, code: Option<int>)
    reads t
  {
    InRange(t, start, end)
    && (code.None? || (code.value in CATEGORIES && t.category == CATEGORIES[code.value]))
  }

  /** The list comprehension of `get_transactions`. The criteria are
      tested left to right, so the lookup of an unknown code raises a
      KeyError, and only once some transaction has passed both date
      criteria. */
  function Filter(ts: seq<Transaction>, start: Option<int>, end: Option<int>, code: Option<int>)
    : (r: Result<seq<Transaction>>)
    reads ts
    ensures r.Failure? ==> r.error == UnknownCategoryKey
    ensures code.None? || code.value in CATEGORIES ==> r.Success?
  {
    if ts == [] then Success([])
    else
      var t := ts[0];
      if !InRange(t, start, end) then Filter(ts[1..], start, end, code)
      else if code.Some? && code.value !in CATEGORIES then Failure(UnknownCategoryKey)
      else
        var rest := Filter(ts[1..], start, end, code);
        if rest.Failure? then rest
        else if code.None? || t.category == CATEGORIES[code.value] then Success([t] + rest.value)
        else rest
  }

  /** The filter raises exactly when the code is unknown and some
      transaction lies in the date range. */
  lemma {:induction false} FilterFails(ts: seq<Transaction>, start: Option<int>, end: Option<int>, code: Option<int>)
    ensures Filter(ts, start, end, code).Failure? <==>
      code.Some? && code.value !in CATEGORIES && exists i :: 0 <= i < |ts| && InRange(ts[i], start, end)
  {
    if ts != [] {
      FilterFails(ts[1..], start, end, code);
      assert forall i :: 0 < i < |ts| ==> ts[i] == ts[1..][i - 1];
      if InRange(ts[0], start, end) {
        assert 0 < |ts| && InRange(ts[0], start, end);
      }
    }
  }

  /** When the filter does not raise it returns, in ledger order, exactly
      the transactions that meet every criterion. */
  lemma {:induction false} FilterSelects(ts: seq<Transaction>, start: Option<int>, end: Option<int>, code: Option<int>)
    requires Filter(ts, start, end, code).Success?
    ensures IsSubsequence(Filter(ts, start, end, code).value, ts)
    ensures forall t :: t in Filter(ts, start, end, code).value ==> Selects(t, start, end, code)
    ensures forall i :: 0 <= i < |ts| && Selects(ts[i], start, end, code) ==> ts[i] in Filter(ts, start, end, code).value
  {
    if ts != [] {
      var t, tail := ts[0], ts[1..];
      FilterSelects(tail, start, end, code);
      var rest := Filter(tail, start, end, code).value;
      assert ts == [t] + tail;
      assert forall i :: 0 < i < |ts| ==> ts[i] == tail[i - 1];
      if Selects(t, start, end, code) {
        assert Filter(ts, start, end, code).value == [t] + rest;
        assert ([t] + rest)[1..] == rest;
      } else {
        assert Filter(ts, start, end, code).value == rest;
        SubsequenceCons(rest, tail, t);
      }
    }
  }

  /** With no criteria the whole ledger comes back, in its order. */
  lemma {:induction false} FilterNothing(ts: seq<Transaction>)
    ensures Filter(ts, None, None, None) == Success(ts)
  {
    if ts != [] {
      FilterNothing(ts[1..]);
      assert [ts[0]] + ts[1..] == ts;
    }
  }

  /** With a known code (or none) the filter never raises, and a
      transaction in front is kept exactly when it meets every criterion. */
  lemma FilterCons(t: Transaction, ts: seq<Transaction>,
                   start: Option<int>, end: Option<int>, code: Option<int>)
    requires code.None? || code.value in CATEGORIES
    ensures Filter(ts, start, end, code).Success?
    ensures Filter([t] + ts, start, end, code)
         == Success(if Selects(t, start, end, code) then [t] + Filter(ts, start, end, code).value
                    else Filter(ts, start, end, code).value)
  {
    assert ([t] + ts)[0] == t && ([t] + ts)[1..] == ts;
  }

  /** A filter by code `d` keeps a transaction posted with code `c` in the
      date range exactly when `c` is `d`. */
  lemma SelectsByCode(t: Transaction, c: int, d: int, start: Option<int>, end: Option<int>)
    requires c in CATEGORIES && t.category == CATEGORIES[c]
    ensures Selects(t, start, end, Some(d)) <==> InRange(t, start, end) && c == d
  {
    if d in CATEGORIES {
      NamesIdentifyCodes(c, d);
    }
  }

  /** A single transaction is kept exactly when it meets every criterion. */
  lemma FilterSingle(t: Transaction, start: Option<int>, end: Option<int>, code: Option<int>)
    requires code.None? || code.value in CATEGORIES
    ensures Filter([t], start, end, code) == Success(if Selects(t, start, end, code) then [t] else [])
  {
    FilterCons(t, [], start, end, code);
    assert [t] + [] == [t];
  }

  // ---------------------------------------------------------------------
  // Account

  /** A named ledger with a running balance. */
  class Account {
    const name: string
    var balance: real
    var transactions: seq<Transaction>

    /** The balance is the sum of the ledger, the ledger is in date order
        and every category is a registry name. */
    ghost predicate Valid()
      reads this, transactions
    {
      Consistent(balance, transactions)
    }

    constructor (name: string)
      ensures this.name == name && balance == 0.0 && transactions == []
      ensures Valid()
    {
      this.name := name;
      balance := 0.0;
      transactions := [];
    }

    /** The bookkeeping of a posting: the balance gains the amount, the
        transaction is appended and the ledger is sorted by date. */
    method Post(t: Transaction)
      modifies this
      ensures balance == old(balance) + t.amount
      ensures transactions == SortByDate(old(transactions) + [t])
      ensures old(Valid()) && t.Valid() ==>
        && Valid()
        && var k := SlotFor(old(transactions), t.date);
           k <= |old(transactions)|
           && transactions == old(transactions)[..k] + [t] + old(transactions)[k..]
    {
      if Valid() && t.Valid() {
        PostKeepsLedger(transactions, t, balance);
      }
      balance, transactions := balance + t.amount, SortByDate(transactions + [t]);
    }

    /** `add_transaction(amount, category, description)` at time `now`. */
    method AddTransaction(amount: real, code: int, description: string, now: int)
      returns (r: Result<Transaction>)
      modifies this
      ensures r.Failure? <==> code !in CATEGORIES
      ensures r.Failure? ==>
        r.error == InvalidCategory && balance == old(balance) && transactions == old(transactions)
      ensures r.Success? ==> fresh(r.value) && r.value.Valid()
      ensures r.Success? ==> r.value.View() == Fields(amount, now, CATEGORIES[code], description)
      ensures r.Success? ==> balance == old(balance) + amount
      ensures r.Success? ==> transactions == SortByDate(old(transactions) + [r.value])
      ensures r.Success? && old(Valid()) ==>
        && Valid()
        && var k := SlotFor(old(transactions), now);
           k <= |old(transactions)|
           && transactions == old(transactions)[..k] + [r.value] + old(transactions)[k..]
    {
      var name := Resolve(code);
      if name.Failure? {
        return Failure(name.error);
      }
      var created := Transaction.Create(amount, code, description, now);
      var t := created.value;
      Post(t);
      r := Success(t);
    }

    /** `get_transactions(start_date, end_date, category)`. */
    function GetTransactions(start: Option<int>, end: Option<int>, code: Option<int>)
      : (r: Result<seq<Transaction>>)
      reads this, transactions
      ensures r.Failure? <==>
        code.Some? && code.value !in CATEGORIES
        && exists i :: 0 <= i < |transactions| && InRange(transactions[i], start, end)
      ensures r.Failure? ==> r.error == UnknownCategoryKey
      ensures r.Success? ==> IsSubsequence(r.value, transactions)
      ensures r.Success? ==> forall t :: t in r.value ==> t in transactions && Selects(t, start, end, code)
      ensures r.Success? ==>
        forall i :: 0 <= i < |transactions| && Selects(transactions[i], start, end, code) ==> transactions[i] in r.value
    {
      var f := Filter(transactions, start, end, code);
      FilterFails(transactions, start, end, code);
      if f.Success? then
        FilterSelects(transactions, start, end, code);
        SubsequenceMembers(f.value, transactions);
        f
      else f
    }
  }

  // ---------------------------------------------------------------------
  // Investment

  /** A principal growing at `rateOfReturn` per whole 30-day month. */
  class Investment {
    const kind: string
    var initialAmount: real
    var datePurchased: int
    const rateOfReturn: real

    /** `Investment(type, initial_amount, rate_of_return)` at time `now`. */
    constructor (kind: string, initialAmount: real, rateOfReturn: real, now: int)
      ensures this.kind == kind && this.initialAmount == initialAmount
      ensures this.rateOfReturn == rateOfReturn && datePurchased == now
    {
      this.kind := kind;
      this.initialAmount := initialAmount;
      this.datePurchased := now;
      this.rateOfReturn := rateOfReturn;
    }

    function AsHolding(): Holding
      reads this
    {
      Holding(initialAmount, rateOfReturn, datePurchased)
    }

    /** `calculate_value(date)`. */
    function CalculateValue(date: int): (r: Result<real>)
      reads this
      ensures r.Failure? <==> rateOfReturn == -1.0 && date < datePurchased
      ensures date >= datePurchased ==>
        r.Success? && r.value == initialAmount * Pow(1.0 + rateOfReturn, ElapsedMonths(datePurchased, date))
    {
      ValueOf(AsHolding(), date)
    }

    /** `sell(account)` at time `now`: the current value is posted to the
        account as a deposit and the principal becomes zero. */
    method Sell(account: Account, now: int) returns (r: Result<Transaction>)
      modifies this, account
      ensures old(CalculateValue(now)).Failure? ==>
        r == Failure(ZeroToNegativePower) && unchanged(this, account)
      ensures old(CalculateValue(now)).Success? ==>
        var v := old(CalculateValue(now)).value;
        && r.Success? && fresh(r.value)
        && r.value.View() == Fields(v, now, CATEGORIES[DEPOSIT], "Venda de investimento " + kind)
        && account.balance == old(account.balance) + v
        && account.transactions == SortByDate(old(account.transactions) + [r.value])
        && (old(account.Valid()) ==> account.Valid())
        && initialAmount == 0.0 && datePurchased == old(datePurchased)
      ensures old(CalculateValue(now)).Success? ==>
        forall d :: CalculateValue(d).Success? ==> CalculateValue(d).value == 0.0
    {
      var value := CalculateValue(now);
      if value.Failure? {
        return Failure(value.error);
      }
      DepositIsValid();
      initialAmount := 0.0;
      r := account.AddTransaction(value.value, DEPOSIT, "Venda de investimento " + kind, now);
      forall d | CalculateValue(d).Success?
        ensures CalculateValue(d).value == 0.0
      {
        ZeroPrincipalIsWorthless(rateOfReturn, datePurchased, d);
      }
    }
  }

  // ---------------------------------------------------------------------
  // Client

  /** A client: accounts with distinct names, and investments. */
  class Client {
    var name: string
    var accounts: seq<Account>
    var investments: seq<Investment>

    ghost predicate Valid()
      reads this
    {
      forall i, j :: 0 <= i < j < |accounts| ==> accounts[i].name != accounts[j].name
    }

    constructor (name: string)
      ensures this.name == name && accounts == [] && investments == []
      ensures Valid()
    {
      this.name := name;
      accounts := [];
      investments := [];
    }

    /** `any(account.name == account_name for account in self.accounts)`. */
    predicate HasAccount(accountName: string)
      reads this
    {
      exists i :: 0 <= i < |accounts| && accounts[i].name == accountName
    }

    /** `add_account(account_name)`. */
    method AddAccount(accountName: string) returns (r: Result<Account>)
      modifies this
      ensures r.Failure? <==> old(HasAccount(accountName))
      ensures r.Failure? ==> r.error == DuplicateAccount && accounts == old(accounts)
      ensures r.Success? ==> fresh(r.value) && r.value.Valid()
      ensures r.Success? ==>
        && r.value.name == accountName && r.value.balance == 0.0 && r.value.transactions == []
        && accounts == old(accounts) + [r.value]
      ensures name == old(name) && investments == old(investments)
      ensures old(Valid()) ==> Valid()
    {
      if HasAccount(accountName) {
        return Failure(DuplicateAccount);
      }
      var account := new Account(accountName);
      accounts := accounts + [account];
      return Success(account);
    }

    /** `add_investment(investment)`. */
    method AddInvestment(investment: Investment)
      modifies this
      ensures investments == old(investments) + [investment]
      ensures name == old(name) && accounts == old(accounts)
      ensures Valid() == old(Valid())
    {
      investments := investments + [investment];
    }

    function Balances(): (r: seq<real>)
      reads this, accounts
      ensures |r| == |accounts| && forall i :: 0 <= i < |accounts| ==> r[i] == accounts[i].balance
    {
      seq(|accounts|, i requires 0 <= i < |accounts| reads this, accounts => accounts[i].balance)
    }

    function Holdings(): (r: seq<Holding>)
      reads this, investments
      ensures |r| == |investments| && forall i :: 0 <= i < |investments| ==> r[i] == investments[i].AsHolding()
    {
      seq(|investments|, i requires 0 <= i < |investments| reads this, investments => investments[i].AsHolding())
    }

    /** `get_net_worth()` at time `now`: the balances plus the current
        investment values, raising when some investment cannot be valued. */
    function GetNetWorth(now: int): (r: Result<real>)
      reads this, accounts, investments
      ensures r.Failure? <==>
        exists i :: 0 <= i < |investments| && investments[i].CalculateValue(now).Failure?
      ensures r.Success? ==>
        TotalValue(Holdings(), now).Success? && r.value == Sum(Balances()) + TotalValue(Holdings(), now).value
    {
      NetWorthFails(Balances(), Holdings(), now);
      NetWorth(Balances(), Holdings(), now)
    }

    /** The projected net worth of `future_value_report(client,
        future_date)` run at time `now`. */
    function ProjectedNetWorth(now: int, future: int): (r: Result<real>)
      reads this, accounts, investments
      ensures r.Failure? <==>
        exists i :: 0 <= i < |investments| && investments[i].rateOfReturn == -1.0
                    && (future < now || now < investments[i].datePurchased)
    {
      Totals.ProjectedNetWorth(Balances(), Holdings(), now, future)
    }
  }
}

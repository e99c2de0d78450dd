/** The summary page (client/src/pages/Dashboard.jsx): each ledger entry
    with the currency of its account, the entries of the viewed month, and
    the per-currency balance, income and expense cards. The viewed month's
    "YYYY-MM" key is a parameter. */
module Dashboard {
  import opened Common
  import opened Records

  /** A ledger entry tagged with the currency of its account. */
  datatype Entry = Entry(txn: Transaction, currency: Currency)

  /** The currency of the entry's account, or pesos when no account matches. */
  function CurrencyOf(t: Transaction, accounts: seq<Account>): (cur: Currency)
    ensures (forall a :: a in accounts ==> a.id != t.accountId) ==> cur == ARS
    ensures forall i :: (0 <= i < |accounts| && accounts[i].id == t.accountId
                         && forall j :: 0 <= j < i ==> accounts[j].id != t.accountId)
                        ==> cur == accounts[i].currency
  {
    match FindAccount(accounts, t.accountId)
    case None => ARS
    case Some(a) => assert a.id == t.accountId; a.currency
  }

  /** enrichedTransactions: every entry, in order, with its currency. */
  function Enriched(ts: seq<Transaction>, accounts: seq<Account>): (r: seq<Entry>)
    ensures |r| == |ts|
    ensures forall i :: 0 <= i < |r| ==> r[i] == Entry(ts[i], CurrencyOf(ts[i], accounts))
    decreases |ts|
  {
    if |ts| == 0 then []
    else Enriched(ts[..|ts| - 1], accounts) + [Entry(ts[|ts| - 1], CurrencyOf(ts[|ts| - 1], accounts))]
  }

  /** An entry of the filtered month: a non-empty date that begins with the key. */
  function InMonth(key: string): Entry -> bool
  {
    (e: Entry) => e.txn.date != "" && StartsWith(e.txn.date, key)
  }

  /** monthlyTransactions: the entries of the month, in ledger order. */
  function Monthly(entries: seq<Entry>, key: string): (r: seq<Entry>)
    ensures forall e :: e in r <==> e in entries && e.txn.date != "" && StartsWith(e.txn.date, key)
    ensures |r| <= |entries|
    ensures forall e :: multiset(r)[e] == if InMonth(key)(e) then multiset(entries)[e] else 0
    ensures Subsequence(r, entries)
  {
    FilterKeepsOrder(entries, InMonth(key));
    Filter(entries, InMonth(key))
  }

  /** For a real month key the missing-date guard changes nothing: an empty
      date never starts with a non-empty key. */
  lemma EmptyDateNeverInMonth(e: Entry, key: string)
    requires |key| > 0 && e.txn.date == ""
    ensures !StartsWith(e.txn.date, key)
  {
  }

  // ---------------------------------------------------------------------
  // Balance cards

  function BalanceIn(cur: Currency): Account -> real
  {
    (a: Account) => if a.currency == cur then a.balance else 0.0
  }

  /** totalBalanceARS / totalBalanceUSD. */
  function BalanceTotal(accounts: seq<Account>, cur: Currency): real
  {
    Sum(Filter(accounts, AccountIn(cur)), Balance)
  }

  /** A currency's balance card counts that currency's accounts only, and
      with every account in pesos or dollars the two cards hold all the money. */
  lemma {:induction false} BalanceTotalsCover(accounts: seq<Account>)
    ensures BalanceTotal(accounts, ARS) == Sum(accounts, BalanceIn(ARS))
    ensures BalanceTotal(accounts, USD) == Sum(accounts, BalanceIn(USD))
    ensures (forall a :: a in accounts ==> a.currency == ARS || a.currency == USD) ==>
              BalanceTotal(accounts, ARS) + BalanceTotal(accounts, USD) == Sum(accounts, Balance)
  {
    BalanceCardIsGuardedSum(accounts, ARS);
    BalanceCardIsGuardedSum(accounts, USD);
    if forall a :: a in accounts ==> a.currency == ARS || a.currency == USD {
      assert forall a :: a in accounts ==> Balance(a) == BalanceIn(ARS)(a) + BalanceIn(USD)(a);
      SumSplit(accounts, BalanceIn(ARS), BalanceIn(USD), Balance);
    }
  }

  /** One balance card as a sum over every account. */
  lemma {:induction false} BalanceCardIsGuardedSum(accounts: seq<Account>, cur: Currency)
    ensures BalanceTotal(accounts, cur) == Sum(accounts, BalanceIn(cur))
  {
    SumFilter(accounts, AccountIn(cur), Balance, BalanceIn(cur));
  }

  // ---------------------------------------------------------------------
  // Income and expense cards

  function EntryAmount(e: Entry): real { e.txn.amount }

  function IncomeIn(cur: Currency): Entry -> bool
  {
    (e: Entry) => e.txn.amount > 0.0 && e.currency == cur
  }

  function OutflowIn(cur: Currency): Entry -> bool
  {
    (e: Entry) => e.txn.amount < 0.0 && e.currency == cur
  }

  function InCurrency(cur: Currency): Entry -> bool
  {
    (e: Entry) => e.currency == cur
  }

  function IncomeAt(cur: Currency): Entry -> real
  {
    (e: Entry) => if e.txn.amount > 0.0 && e.currency == cur then e.txn.amount else 0.0
  }

  function OutflowAt(cur: Currency): Entry -> real
  {
    (e: Entry) => if e.txn.amount < 0.0 && e.currency == cur then e.txn.amount else 0.0
  }

  function OutflowSizeAt(cur: Currency): Entry -> real
  {
    (e: Entry) => if e.txn.amount < 0.0 && e.currency == cur then -e.txn.amount else 0.0
  }

  function AmountAt(cur: Currency): Entry -> real
  {
    (e: Entry) => if e.currency == cur then e.txn.amount else 0.0
  }

  /** incomeARS / incomeUSD. */
  function Income(entries: seq<Entry>, cur: Currency): real
  {
    Sum(Filter(entries, IncomeIn(cur)), EntryAmount)
  }

  /** expenseARS / expenseUSD: the size of the outflows added up. */
  function Expense(entries: seq<Entry>, cur: Currency): real
  {
    Abs(Sum(Filter(entries, OutflowIn(cur)), EntryAmount))
  }

  /** Income is the sum of the currency's positive amounts. */
  lemma {:induction false} IncomeIsPositives(entries: seq<Entry>, cur: Currency)
    ensures Income(entries, cur) == Sum(entries, IncomeAt(cur))
    ensures Income(entries, cur) >= 0.0
  {
    SumFilter(entries, IncomeIn(cur), EntryAmount, IncomeAt(cur));
    SumNonNegative(entries, IncomeAt(cur));
  }

  /** Expense is the sum of the sizes of the currency's negative amounts. */
  lemma {:induction false} ExpenseIsSizes(entries: seq<Entry>, cur: Currency)
    ensures Expense(entries, cur) == Sum(entries, OutflowSizeAt(cur))
    ensures Expense(entries, cur) == -Sum(entries, OutflowAt(cur))
    ensures Expense(entries, cur) >= 0.0
  {
    SumFilter(entries, OutflowIn(cur), EntryAmount, OutflowAt(cur));
    SumNegated(entries, OutflowAt(cur), OutflowSizeAt(cur));
    SumNonNegative(entries, OutflowSizeAt(cur));
  }

  /** Zero amounts count in neither card, so income minus expense is the
      currency's net movement. */
  lemma {:induction false} NetMovement(entries: seq<Entry>, cur: Currency)
    ensures Income(entries, cur) - Expense(entries, cur) == Sum(Filter(entries, InCurrency(cur)), EntryAmount)
  {
    IncomeIsPositives(entries, cur);
    ExpenseIsSizes(entries, cur);
    SumFilter(entries, InCurrency(cur), EntryAmount, AmountAt(cur));
    forall e | e in entries ensures AmountAt(cur)(e) == IncomeAt(cur)(e) + OutflowAt(cur)(e) { }
    SumSplit(entries, IncomeAt(cur), OutflowAt(cur), AmountAt(cur));
  }

  /** The income card is positive exactly when the currency has an income entry. */
  lemma {:induction false} IncomePositiveIff(entries: seq<Entry>, cur: Currency)
    ensures Income(entries, cur) > 0.0 <==> exists e :: e in entries && e.txn.amount > 0.0 && e.currency == cur
  {
    IncomeIsPositives(entries, cur);
    SumPositive(entries, IncomeAt(cur));
    assert (exists e :: e in entries && IncomeAt(cur)(e) > 0.0)
       <==> (exists e :: e in entries && e.txn.amount > 0.0 && e.currency == cur);
  }

  /** The expense card is positive exactly when the currency has an outflow. */
  lemma {:induction false} ExpensePositiveIff(entries: seq<Entry>, cur: Currency)
    ensures Expense(entries, cur) > 0.0 <==> exists e :: e in entries && e.txn.amount < 0.0 && e.currency == cur
  {
    ExpenseIsSizes(entries, cur);
    SumPositive(entries, OutflowSizeAt(cur));
    assert (exists e :: e in entries && OutflowSizeAt(cur)(e) > 0.0)
       <==> (exists e :: e in entries && e.txn.amount < 0.0 && e.currency == cur);
  }
}

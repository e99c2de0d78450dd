/** The records the backend stores (backend/models.py, backend/schemas.py),
    restricted to the fields the modelled logic reads or writes. */
module Records {
  import opened Common

  /** Currencies are free strings in the database; the pages know two. */
  type Currency = string

  const ARS: Currency := "ARS"
  const USD: Currency := "USD"

  /** A calendar date as the pages obtain it from a "YYYY-MM-DD" text:
      month runs 1..12. */
  datatype Date = Date(year: int, month: int, day: int)

  /** The description of a ledger entry. The backend and the pages build it
      from a fixed text and a few values; the model keeps the values and
      leaves the number formatting out. */
  datatype Memo =
    | Typed(text: string)                                   // entered by the user
    | JobCollection(job: string, conversion: Option<Conversion>)  // "Cobro: <job>" [+ " (U$S <amount> x <rate>)"]
    | GoalSaving(goal: string)                              // "Ahorro para meta: <goal>"
    | CardPayment(cycle: int, usd: Option<real>)            // "Pago Tarjeta (<month>)" [+ " (+ U$S <usd>)"]

  datatype Conversion = Conversion(usdAmount: real, rate: real)

  datatype Account = Account(id: int, name: string, balance: real, currency: Currency)

  /** A category with no owner (userId None) is a system category. */
  datatype Category = Category(id: int, name: string, userId: Option<int>)

  /** A ledger entry; a positive amount is an inflow, a negative one an outflow. */
  datatype Transaction = Transaction(id: int, amount: real, description: Memo, date: string,
                                     categoryId: int, accountId: int)

  datatype Subscription = Subscription(id: int, name: string, price: real, currency: Currency,
                                       billingDay: int, cardId: Option<int>)

  datatype CreditCard = CreditCard(id: int, name: string, limit: real, closingDay: int)

  datatype CardPurchase = CardPurchase(id: int, description: string, amount: real, currency: Currency,
                                       installments: int, date: Date, isRecurring: bool, cardId: int)

  datatype Job = Job(id: int, description: string, amount: real, isPaid: bool, date: string,
                     clientId: int, currency: Currency)

  datatype Goal = Goal(id: int, name: string, targetAmount: real, currentAmount: real,
                       currency: Currency, deadline: string)

  /** The first account with that id, if any. */
  function FindAccount(accounts: seq<Account>, id: int): (r: Option<Account>)
    ensures r.None? <==> forall a :: a in accounts ==> a.id != id
    ensures r.Some? ==> exists i :: 0 <= i < |accounts| && accounts[i] == r.value && r.value.id == id
                          && forall j :: 0 <= j < i ==> accounts[j].id != id
    decreases |accounts|
  {
    if |accounts| == 0 then None
    else if accounts[0].id == id then Some(accounts[0])
    else
      var r := FindAccount(accounts[1..], id);
      assert forall a :: a in accounts ==> a == accounts[0] || a in accounts[1..];
      if r.Some? then
        ghost var i :| 0 <= i < |accounts[1..]| && accounts[1..][i] == r.value && r.value.id == id
                       && forall j :: 0 <= j < i ==> accounts[1..][j].id != id;
        assert accounts[i + 1] == r.value;
        r
      else r
  }

  /** Whether an account is in the given currency, as a filter predicate. */
  function AccountIn(cur: Currency): Account -> bool
  {
    (a: Account) => a.currency == cur
  }

  function Balance(a: Account): real { a.balance }
}

/** The card statement page (client/src/pages/CreditCards.jsx): which card
    purchases a viewed month shows, the per-currency totals of that month,
    and the ledger entry that pays the statement. */
module CardStatement {
  import opened Common
  import opened Records
  import opened Store

  /** The month of a date as one count: the first days of two months compared
      between two dates orders them exactly as this number does. */
  function MonthIndex(d: Date): int
  {
    d.year * 12 + (d.month - 1)
  }

  /** The label a shown purchase carries. */
  datatype Label = AutoDebit | Installment(current: nat, total: nat)
  {
    function Text(): string
    {
      match this
      case AutoDebit => "Débito Automático"
      case Installment(k, n) => NatToString(k) + " / " + NatToString(n)
    }
  }

  /** Whether a purchase is listed in the viewed month, and if so with which
      caption and whether it is still running. */
  datatype Status = Hidden | Shown(caption: Label, active: bool)

  /** calculateDisplayStatus: a purchase is hidden before its own month; a
      recurring one is shown in every later month as an active automatic
      debit; an installment purchase is shown while the month offset plus 1
      does not exceed its installments, labelled "k / n". */
  function DisplayStatus(p: CardPurchase, view: Date): (s: Status)
    ensures s.Shown? <==>
              MonthIndex(p.date) <= MonthIndex(view)
              && (p.isRecurring || MonthIndex(view) - MonthIndex(p.date) < p.installments)
    ensures s.Shown? && p.isRecurring ==> s == Shown(AutoDebit, true)
    ensures s.Shown? && !p.isRecurring ==>
              && s.caption == Installment(MonthIndex(view) - MonthIndex(p.date) + 1, p.installments)
              && 1 <= s.caption.current <= s.caption.total
              && !s.active
  {
    var pMonth := MonthIndex(p.date);
    var vMonth := MonthIndex(view);
    if pMonth > vMonth then Hidden
    else if p.isRecurring then Shown(AutoDebit, true)
    else
      var current := vMonth - pMonth + 1;
      if current > p.installments then Hidden
      else Shown(Installment(current, p.installments), false)
  }

  /** The day of month of either date plays no part. */
  lemma DayIrrelevant(p: CardPurchase, view: Date, purchaseDay: int, viewDay: int)
    ensures DisplayStatus(p.(date := p.date.(day := purchaseDay)), view.(day := viewDay))
         == DisplayStatus(p, view)
  {
  }

  /** A recurring purchase is an active automatic debit in every month from
      its own, whatever its installments say; never before. */
  lemma RecurringAlwaysShown(p: CardPurchase, view: Date)
    requires p.isRecurring
    ensures DisplayStatus(p, view) == if MonthIndex(p.date) <= MonthIndex(view) then Shown(AutoDebit, true) else Hidden
    ensures forall k :: DisplayStatus(p.(installments := k), view) == DisplayStatus(p, view)
  {
  }

  /** The months lo .. lo + n - 1. */
  ghost function MonthRange(lo: int, n: nat): (r: set<int>)
    ensures forall m :: m in r <==> lo <= m < lo + n
    ensures |r| == n
    decreases n
  {
    if n == 0 then {} else MonthRange(lo, n - 1) + {lo + n - 1}
  }

  /** An installment purchase of n payments from month M is shown in exactly
      the n months M .. M + n - 1, and in month M + k - 1 it is labelled
      "k / n". */
  lemma InstallmentWindow(p: CardPurchase)
    requires !p.isRecurring && p.installments >= 0
    ensures forall view :: DisplayStatus(p, view).Shown? <==> MonthIndex(view) in MonthRange(MonthIndex(p.date), p.installments)
    ensures |MonthRange(MonthIndex(p.date), p.installments)| == p.installments
    ensures forall view, k :: 1 <= k <= p.installments && MonthIndex(view) == MonthIndex(p.date) + k - 1 ==>
              DisplayStatus(p, view) == Shown(Installment(k, p.installments), false)
  {
  }

  /** The installment number is what the label starts with. */
  lemma InstallmentLabelReadsBack(k: nat, n: nat)
    ensures ParseInt(Installment(k, n).Text()) == Some(k)
  {
    var digits, rest := NatToString(k), " / " + NatToString(n);
    assert Installment(k, n).Text() == digits + rest;
    assert rest[0] == ' ';
    ParseIntOfRendering(k, rest);
  }

  /** A three-payment purchase of 15 November 2024: its second payment falls
      in December, its last in January 2025, and nothing is due in February. */
  lemma AcrossYearEnd()
    ensures var p := CardPurchase(7, "Zapatillas", 90000.0, ARS, 3, Date(2024, 11, 15), false, 1);
      && DisplayStatus(p, Date(2024, 10, 31)) == Hidden
      && DisplayStatus(p, Date(2024, 11, 1)) == Shown(Installment(1, 3), false)
      && DisplayStatus(p, Date(2024, 12, 5)) == Shown(Installment(2, 3), false)
      && DisplayStatus(p, Date(2025, 1, 20)) == Shown(Installment(3, 3), false)
      && DisplayStatus(p, Date(2025, 2, 1)) == Hidden
  {
  }

  /** What create_subscription adds for a card is shown in every month from
      the day it was created on. */
  lemma SubscriptionChargeShown(sub: SubscriptionCreate, id: int, today: Date, view: Date)
    requires ChargesCard(sub) && MonthIndex(today) <= MonthIndex(view)
    ensures DisplayStatus(AutoPurchase(sub, id, today), view) == Shown(AutoDebit, true)
  {
  }

  // ---------------------------------------------------------------------
  // visiblePurchases

  /** A shown purchase together with its caption and activity. */
  datatype Line = Line(purchase: CardPurchase, caption: Label, active: bool)

  function ShownIn(view: Date): CardPurchase -> bool
  {
    (p: CardPurchase) => DisplayStatus(p, view).Shown?
  }

  /** The purchases shown in the viewed month, each with its status. */
  function VisiblePurchases(ps: seq<CardPurchase>, view: Date): (r: seq<Line>)
    ensures |r| <= |ps|
    ensures forall l :: l in r ==> l.purchase in ps && DisplayStatus(l.purchase, view) == Shown(l.caption, l.active)
    decreases |ps|
  {
    if |ps| == 0 then []
    else
      var init, last := ps[..|ps| - 1], ps[|ps| - 1];
      assert ps == init + [last];
      var lines := VisiblePurchases(init, view);
      match DisplayStatus(last, view)
      case Hidden => lines
      case Shown(caption, active) => lines + [Line(last, caption, active)]
  }

  function PurchasesOf(lines: seq<Line>): seq<CardPurchase>
    decreases |lines|
  {
    if |lines| == 0 then [] else PurchasesOf(lines[..|lines| - 1]) + [lines[|lines| - 1].purchase]
  }

  /** The lines carry exactly the shown purchases, unchanged and in their
      original order. */
  lemma {:induction false} VisibleAreTheShown(ps: seq<CardPurchase>, view: Date)
    ensures PurchasesOf(VisiblePurchases(ps, view)) == Filter(ps, ShownIn(view))
    decreases |ps|
  {
    if |ps| > 0 {
      var init := ps[..|ps| - 1];
      VisibleAreTheShown(init, view);
      var lines := VisiblePurchases(init, view);
      if DisplayStatus(ps[|ps| - 1], view).Shown? {
        var l := VisiblePurchases(ps, view);
        assert l[..|l| - 1] == lines;
      }
    }
  }

  // ---------------------------------------------------------------------
  // Totals and payment

  function LineIn(cur: Currency): Line -> bool { (l: Line) => l.purchase.currency == cur }

  function LineAmount(l: Line): real { l.purchase.amount }

  /** The amounts of the month's lines in one currency, added up. */
  function Total(lines: seq<Line>, cur: Currency): real
  {
    Sum(Filter(lines, LineIn(cur)), LineAmount)
  }

  function ShownAmountIn(view: Date, cur: Currency): CardPurchase -> real
  {
    (p: CardPurchase) => if DisplayStatus(p, view).Shown? && p.currency == cur then p.amount else 0.0
  }

  function LineAmountIn(cur: Currency): Line -> real
  {
    (l: Line) => if l.purchase.currency == cur then l.purchase.amount else 0.0
  }

  /** A month's total in a currency is the sum of the amounts of the
      purchases shown that month in that currency, and of nothing else. */
  lemma {:induction false} TotalOfMonth(ps: seq<CardPurchase>, view: Date, cur: Currency)
    ensures Total(VisiblePurchases(ps, view), cur) == Sum(ps, ShownAmountIn(view, cur))
    decreases |ps|
  {
    SumFilter(VisiblePurchases(ps, view), LineIn(cur), LineAmount, LineAmountIn(cur));
    LinesSum(ps, view, cur);
  }

  lemma {:induction false} LinesSum(ps: seq<CardPurchase>, view: Date, cur: Currency)
    ensures Sum(VisiblePurchases(ps, view), LineAmountIn(cur)) == Sum(ps, ShownAmountIn(view, cur))
    decreases |ps|
  {
    if |ps| > 0 {
      var init := ps[..|ps| - 1];
      LinesSum(init, view, cur);
      var lines := VisiblePurchases(init, view);
      var l := VisiblePurchases(ps, view);
      if DisplayStatus(ps[|ps| - 1], view).Shown? {
        assert l[..|l| - 1] == lines;
      }
    }
  }

  /** Lines in another currency count toward neither total. */
  lemma OtherCurrencyIgnored(lines: seq<Line>, extra: seq<Line>, cur: Currency)
    requires forall l :: l in extra ==> l.purchase.currency != cur
    ensures Total(lines + extra, cur) == Total(lines, cur)
  {
    SumFilter(lines + extra, LineIn(cur), LineAmount, LineAmountIn(cur));
    SumFilter(lines, LineIn(cur), LineAmount, LineAmountIn(cur));
    SumFilter(extra, LineIn(cur), LineAmount, LineAmountIn(cur));
    SumFilterNone(extra, LineIn(cur), LineAmount);
    SumAppend(lines, extra, LineAmountIn(cur));
  }

  /** estimatedTotal: the dollars are added, converted, only when there are
      some and a rate has been typed (None stands for an empty rate field). */
  function EstimatedTotal(totalARS: real, totalUSD: real, rate: Option<real>): (r: real)
    ensures totalUSD <= 0.0 || rate.None? ==> r == totalARS
    ensures totalUSD > 0.0 && rate.Some? ==> r - totalARS == totalUSD * rate.value
  {
    totalARS + (if totalUSD > 0.0 && rate.Some? then totalUSD * rate.value else 0.0)
  }

  /** The payment dialog's initial state: the first account, an empty rate. */
  datatype CardPayDialog = CardPayDialog(accountId: Option<int>, rate: Option<real>)

  /** openPayModal: refused when both totals are 0. */
  function OpenPayModal(totalARS: real, totalUSD: real, accounts: seq<Account>): (r: Option<CardPayDialog>)
    ensures r.None? <==> totalARS == 0.0 && totalUSD == 0.0
    ensures r.Some? ==> r.value.rate.None?
    ensures r.Some? ==> (r.value.accountId.None? <==> |accounts| == 0)
    ensures r.Some? && |accounts| > 0 ==> r.value.accountId == Some(accounts[0].id)
  {
    if totalARS == 0.0 && totalUSD == 0.0 then None
    else Some(CardPayDialog(if |accounts| > 0 then Some(accounts[0].id) else None, None))
  }

  /** A month showing no peso or dollar purchase has nothing to pay. */
  lemma NothingToPay(ps: seq<CardPurchase>, view: Date, accounts: seq<Account>)
    requires forall p :: p in ps && DisplayStatus(p, view).Shown? ==> p.currency != ARS && p.currency != USD
    ensures var lines := VisiblePurchases(ps, view);
      OpenPayModal(Total(lines, ARS), Total(lines, USD), accounts).None?
  {
    var lines := VisiblePurchases(ps, view);
    SumFilterNone(lines, LineIn(ARS), LineAmount);
    SumFilterNone(lines, LineIn(USD), LineAmount);
  }

  /** confirmPayment: the peso total plus the converted dollars, posted as a
      debit (never positive) on the chosen account under category 1. The
      rate field is required whenever dollars are due. */
  method ConfirmPayment(totalARS: real, totalUSD: real, rate: Option<real>, cycle: int,
                        accountId: int, today: string) returns (req: TransactionCreate)
    requires totalUSD > 0.0 ==> rate.Some?
    ensures req.amount == -Abs(EstimatedTotal(totalARS, totalUSD, rate))
    ensures req.amount <= 0.0
    ensures req.description == CardPayment(cycle, if totalUSD > 0.0 then Some(totalUSD) else None)
    ensures req.accountId == accountId && req.categoryId == DefaultCategory && req.date == today
  {
    var finalAmount := totalARS;
    var usd: Option<real> := None;
    if totalUSD > 0.0 {
      finalAmount := finalAmount + totalUSD * rate.value;
      usd := Some(totalUSD);
    }
    req := TransactionCreate(-Abs(finalAmount), DefaultCategory, accountId, CardPayment(cycle, usd), today);
  }

  /** What the viewed month's payment dialog shows as the total to debit. */
  function StatementEstimate(ps: seq<CardPurchase>, view: Date, rate: Option<real>): real
  {
    var lines := VisiblePurchases(ps, view);
    EstimatedTotal(Total(lines, ARS), Total(lines, USD), rate)
  }

  /** The summary offers "Registrar Pago" only while one of the two totals
      is positive; a month of refunds only offers nothing. */
  predicate PayOffered(ps: seq<CardPurchase>, view: Date)
  {
    var lines := VisiblePurchases(ps, view);
    Total(lines, ARS) > 0.0 || Total(lines, USD) > 0.0
  }

  /** The request confirmPayment sends for the viewed month. */
  function StatementRequest(ps: seq<CardPurchase>, view: Date, rate: Option<real>, accountId: int,
                            today: string): TransactionCreate
  {
    var totalUSD := Total(VisiblePurchases(ps, view), USD);
    TransactionCreate(-Abs(StatementEstimate(ps, view, rate)), DefaultCategory, accountId,
                      CardPayment(MonthIndex(view), if totalUSD > 0.0 then Some(totalUSD) else None), today)
  }

  /** A request built as confirmPayment builds it from the month's totals is
      the month's statement request. */
  lemma ConfirmedIsStatementRequest(ps: seq<CardPurchase>, view: Date, rate: Option<real>, accountId: int,
                                    today: string, req: TransactionCreate)
    requires var lines := VisiblePurchases(ps, view);
      var totalUSD := Total(lines, USD);
      && req.amount == -Abs(EstimatedTotal(Total(lines, ARS), totalUSD, rate))
      && req.description == CardPayment(MonthIndex(view), if totalUSD > 0.0 then Some(totalUSD) else None)
      && req.accountId == accountId && req.categoryId == DefaultCategory && req.date == today
    ensures req == StatementRequest(ps, view, rate, accountId, today)
  {
  }

  /** Paying the viewed month's statement of one card end to end: nothing
      changes unless the summary offers the payment; otherwise the ledger
      gains one debit of the estimated total shown in the dialog, with the
      month's text, category 1, the chosen account and today's date, and the
      chosen account's balance, if it exists, drops by as much. */
  method PayStatement(store: FinanceStore, cardId: int, view: Date, accounts: seq<Account>,
                      accountId: int, rate: Option<real>, today: string) returns (paid: Option<Transaction>)
    requires store.Valid()
    requires Total(VisiblePurchases(CardPurchases(store.purchases, cardId), view), USD) > 0.0 ==> rate.Some?
    modifies store
    ensures store.Valid()
    ensures paid.None? <==> !PayOffered(CardPurchases(old(store.purchases), cardId), view)
    ensures paid.None? ==> unchanged(store)
    ensures paid.Some? ==>
      var ps := CardPurchases(old(store.purchases), cardId);
      var req := StatementRequest(ps, view, rate, accountId, today);
      && paid.value == Transaction(old(store.nextId), req.amount, req.description, today, DefaultCategory, accountId)
      && paid.value.amount == -Abs(StatementEstimate(ps, view, rate))
      && store.transactions == old(store.transactions) + [paid.value]
      && store.accounts == Credit(old(store.accounts), accountId, req.amount)
      && store.nextId == old(store.nextId) + 1
    ensures store.categories == old(store.categories) && store.goals == old(store.goals)
    ensures store.subscriptions == old(store.subscriptions) && store.purchases == old(store.purchases)
    ensures store.jobs == old(store.jobs)
  {
    var ps := CardPurchases(store.purchases, cardId);
    var lines := VisiblePurchases(ps, view);
    var totalARS := Total(lines, ARS);
    var totalUSD := Total(lines, USD);
    if !(totalARS > 0.0 || totalUSD > 0.0) {
      return None;
    }
    var dialog := OpenPayModal(totalARS, totalUSD, accounts);
    assert dialog.Some?;
    var req := ConfirmPayment(totalARS, totalUSD, rate, MonthIndex(view), accountId, today);
    ConfirmedIsStatementRequest(ps, view, rate, accountId, today, req);
    var t := store.CreateTransaction(req);
    paid := Some(t);
  }

  // ---------------------------------------------------------------------
  // submitExpense

  /** The new-purchase form; None stands for an empty amount field. */
  datatype ExpenseForm = ExpenseForm(description: string, amount: Option<real>, installments: int,
                                     currency: Currency, date: Date, isRecurring: bool)

  /** openExpenseModal resets the form to one payment in pesos, dated today. */
  function FreshExpenseForm(today: Date): (f: ExpenseForm)
    ensures f.installments == 1 && f.currency == ARS && !f.isRecurring && f.amount.None? && f.date == today
  {
    ExpenseForm("", None, 1, ARS, today, false)
  }

  /** submitExpense: a recurring expense is stored with one installment. The
      amount field is required by the form. */
  function ExpenseRequest(f: ExpenseForm): (req: CardPurchaseCreate)
    requires f.amount.Some?
    ensures req.isRecurring == f.isRecurring && req.amount == f.amount.value && req.currency == f.currency
    ensures req.description == f.description && req.date == f.date
    ensures req.installments == if f.isRecurring then 1 else f.installments
  {
    CardPurchaseCreate(f.description, f.amount.value, f.currency,
                       if f.isRecurring then 1 else f.installments, f.date, f.isRecurring)
  }

  /** Forcing one installment on a recurring expense never changes what any
      month shows for it. */
  lemma RecurringInstallmentsHarmless(f: ExpenseForm, id: int, cardId: int, view: Date)
    requires f.amount.Some? && f.isRecurring
    ensures var req := ExpenseRequest(f);
      DisplayStatus(CardPurchase(id, req.description, req.amount, req.currency, req.installments, req.date, true, cardId), view)
      == DisplayStatus(CardPurchase(id, f.description, f.amount.value, f.currency, f.installments, f.date, true, cardId), view)
  {
  }
}

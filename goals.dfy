/** The savings-goal page (client/src/pages/Goals.jsx): the progress bar,
    the completion mark, the guard on the deposit dialog, and the accounts
    it offers as the source of a deposit. */
module GoalsPage {
  import opened Common
  import opened Records
  import opened Store

  /** The saved share of the target in percent, capped at 100. A zero target
      divides by zero in floating point; it is outside this model. */
  function Percentage(g: Goal): (r: real)
    requires g.targetAmount != 0.0
    ensures r <= 100.0
    ensures g.currentAmount / g.targetAmount * 100.0 < 100.0 ==> r == g.currentAmount / g.targetAmount * 100.0
    ensures g.currentAmount / g.targetAmount * 100.0 >= 100.0 ==> r == 100.0
    ensures g.targetAmount > 0.0 && g.currentAmount >= 0.0 ==> r >= 0.0
  {
    var raw := g.currentAmount / g.targetAmount * 100.0;
    if raw < 100.0 then raw else 100.0
  }

  /** A goal is completed once its percentage reaches 100. */
  predicate IsCompleted(g: Goal)
    requires g.targetAmount != 0.0
  {
    Percentage(g) >= 100.0
  }

  /** For a positive target a goal is complete exactly when the saved amount
      has reached the target. */
  lemma CompletedIffReached(g: Goal)
    requires g.targetAmount > 0.0
    ensures IsCompleted(g) <==> g.currentAmount >= g.targetAmount
  {
    var t, c := g.targetAmount, g.currentAmount;
    var q := c / t;
    assert (q - 1.0) * t == c - t;
    assert q >= 1.0 <==> c >= t;
  }

  /** The deposit form; None stands for an empty field. */
  datatype DepositForm = DepositForm(accountField: Option<int>, amount: Option<real>)

  /** The page's dialog state. */
  datatype DepositDialog = DepositDialog(open: bool, goal: Option<Goal>, form: DepositForm)

  /** openDepositModal: refused, with no state change, for a goal that has
      reached its target; otherwise the dialog opens on that goal with an
      empty form. */
  function OpenDepositModal(page: DepositDialog, g: Goal): (r: DepositDialog)
    ensures g.currentAmount >= g.targetAmount ==> r == page
    ensures g.currentAmount < g.targetAmount ==>
              r.open && r.goal == Some(g) && r.form == DepositForm(None, None)
  {
    if g.currentAmount >= g.targetAmount then page
    else DepositDialog(true, Some(g), DepositForm(None, None))
  }

  /** For a positive target the dialog is refused exactly for completed goals. */
  lemma RefusedIffCompleted(page: DepositDialog, g: Goal)
    requires g.targetAmount > 0.0 && !page.open
    ensures OpenDepositModal(page, g).open <==> !IsCompleted(g)
  {
    CompletedIffReached(g);
  }

  /** The accounts offered for a deposit: those in the goal's currency. */
  function DepositAccounts(accounts: seq<Account>, g: Goal): (r: seq<Account>)
    ensures forall a :: a in r <==> a in accounts && a.currency == g.currency
  {
    Filter(accounts, AccountIn(g.currency))
  }

  /** handleDeposit's request body; both fields are required by the form. */
  function DepositRequest(f: DepositForm): (d: GoalDeposit)
    requires f.accountField.Some? && f.amount.Some?
    ensures d.accountId == f.accountField.value && d.amount == f.amount.value
  {
    GoalDeposit(f.accountField.value, f.amount.value)
  }

  /** An account the dialog offers never draws the backend's currency
      mismatch error; with enough balance the deposit passes every check. */
  lemma OfferedAccountsMatch(accounts: seq<Account>, g: Goal, a: Account, amount: real)
    requires a in DepositAccounts(accounts, g)
    ensures var check := DepositCheck(Some(g), Some(a), amount);
      && !(check.Fail? && check.error.CurrencyMismatch?)
      && (check == Pass <==> a.balance >= amount)
  {
  }
}

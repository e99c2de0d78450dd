/** The collection dialog of the clients page (client/src/pages/Clients.jsx):
    which job and account currencies need an exchange rate, the amount the
    dialog says will be credited, the rate it sends to pay_job, and the
    pending balance of a client's jobs. The page's React state is a value;
    each user action yields the next value, with the rate-reset effect
    applied after it. */
module ClientsPage {
  import opened Common
  import opened Records
  import opened Store

  /** The dialog's state: the job being collected (None while closed), the
      account select (None stands for ''), and the rate field (None for ''). */
  datatype PayDialog = PayDialog(job: Option<Job>, accountField: Option<int>, rate: Option<real>)

  /** The state before any dialog opens: no job, no account, rate 1. */
  const Closed: PayDialog := PayDialog(None, None, Some(1.0))

  /** The account whose id is the one selected, the first such account; none
      while the select is empty. */
  function TargetAccount(d: PayDialog, accounts: seq<Account>): (r: Option<Account>)
    ensures r.None? <==> d.accountField.None? || forall a :: a in accounts ==> a.id != d.accountField.value
    ensures r.Some? ==> r.value in accounts && r.value.id == d.accountField.value
  {
    if d.accountField.None? then None
    else
      var r := FindAccount(accounts, d.accountField.value);
      assert r.Some? ==> r.value in accounts;
      r
  }

  /** A dollar job paid into a peso account. */
  predicate NeedsConversion(d: PayDialog, accounts: seq<Account>)
  {
    var target := TargetAccount(d, accounts);
    d.job.Some? && d.job.value.currency == USD && target.Some? && target.value.currency == ARS
  }

  /** A dollar job paid into a dollar account. */
  predicate IsDirectUSD(d: PayDialog, accounts: seq<Account>)
  {
    var target := TargetAccount(d, accounts);
    d.job.Some? && d.job.value.currency == USD && target.Some? && target.value.currency == USD
  }

  /** The rate-reset effect: '1' for a direct dollar payment, '' when a
      conversion is needed, the field left alone otherwise. */
  function RateEffect(d: PayDialog, accounts: seq<Account>): (r: PayDialog)
    ensures r.job == d.job && r.accountField == d.accountField
    ensures IsDirectUSD(d, accounts) ==> r.rate == Some(1.0)
    ensures NeedsConversion(d, accounts) ==> r.rate.None?
    ensures !IsDirectUSD(d, accounts) && !NeedsConversion(d, accounts) ==> r == d
  {
    if IsDirectUSD(d, accounts) then d.(rate := Some(1.0))
    else if NeedsConversion(d, accounts) then d.(rate := None)
    else d
  }

  /** openPayModal: the job, the first account (or ''), the rate '1'. */
  function OpenPayModal(job: Job, accounts: seq<Account>): (d: PayDialog)
    ensures d.job == Some(job)
    ensures |accounts| > 0 ==> d.accountField == Some(accounts[0].id)
    ensures |accounts| == 0 ==> d.accountField.None?
    ensures !NeedsConversion(d, accounts) ==> d.rate == Some(1.0)
    ensures NeedsConversion(d, accounts) ==> d.rate.None?
  {
    RateEffect(PayDialog(Some(job), if |accounts| > 0 then Some(accounts[0].id) else None, Some(1.0)), accounts)
  }

  /** What the user does while the dialog is open. */
  datatype Action =
    | Open(job: Job)
    | SelectAccount(accountId: int)
    | TypeRate(rate: Option<real>)

  /** One action and the effect it triggers. The rate field is rendered only
      while a conversion is needed, so typing elsewhere changes nothing. */
  function Step(d: PayDialog, a: Action, accounts: seq<Account>): PayDialog
  {
    match a
    case Open(job) => OpenPayModal(job, accounts)
    case SelectAccount(id) => RateEffect(d.(accountField := Some(id)), accounts)
    case TypeRate(r) => if NeedsConversion(d, accounts) then d.(rate := r) else d
  }

  function Run(d: PayDialog, actions: seq<Action>, accounts: seq<Account>): PayDialog
    decreases |actions|
  {
    if |actions| == 0 then d
    else Step(Run(d, actions[..|actions| - 1], accounts), actions[|actions| - 1], accounts)
  }

  /** The rate sent with the payment: an empty field sends 1. */
  function RateSent(rate: Option<real>): (r: real)
    ensures rate.None? ==> r == 1.0
    ensures rate.Some? ==> r == rate.value
  {
    match rate
    case None => 1.0
    case Some(x) => x
  }

  /** handleConfirmPay's request body. The account select is required. */
  function JobPayRequest(d: PayDialog): (p: JobPay)
    requires d.accountField.Some?
    ensures p.accountId == d.accountField.value && p.exchangeRate == RateSent(d.rate)
  {
    JobPay(d.accountField.value, RateSent(d.rate))
  }

  /** totalToReceive: the job amount converted when a conversion is needed
      and a rate is typed, the raw amount otherwise, 0 with no job. */
  function TotalToReceive(d: PayDialog, accounts: seq<Account>): (r: real)
    ensures d.job.None? ==> r == 0.0
    ensures d.job.Some? && NeedsConversion(d, accounts) && d.rate.Some? ==> r == d.job.value.amount * d.rate.value
    ensures d.job.Some? && !(NeedsConversion(d, accounts) && d.rate.Some?) ==> r == d.job.value.amount
  {
    if d.job.None? then 0.0
    else if NeedsConversion(d, accounts) && d.rate.Some? then d.job.value.amount * d.rate.value
    else d.job.value.amount
  }

  /** A peso job is never converted: the dialog shows its own amount. */
  lemma PesoJobNeverConverts(d: PayDialog, accounts: seq<Account>)
    requires d.job.Some? && d.job.value.currency == ARS
    ensures !NeedsConversion(d, accounts) && !IsDirectUSD(d, accounts)
    ensures TotalToReceive(d, accounts) == d.job.value.amount
  {
  }

  /** Accounts are created in pesos or dollars only. */
  predicate PesoOrDollar(accounts: seq<Account>)
  {
    forall a :: a in accounts ==> a.currency == ARS || a.currency == USD
  }

  /** The actions a user can take: accounts picked from the select, rates
      that are not negative. */
  predicate Feasible(actions: seq<Action>, accounts: seq<Account>)
  {
    forall i :: 0 <= i < |actions| ==>
      match actions[i]
      case Open(_) => true
      case SelectAccount(id) => exists a :: a in accounts && a.id == id
      case TypeRate(r) => r.None? || r.value >= 0.0
  }

  /** The rate is '1' unless a conversion is needed, and a typed rate is not negative. */
  predicate RateInvariant(d: PayDialog, accounts: seq<Account>)
  {
    && (!NeedsConversion(d, accounts) ==> d.rate == Some(1.0))
    && (d.rate.None? || d.rate.value >= 0.0)
  }

  lemma {:induction false} RunKeepsRate(actions: seq<Action>, accounts: seq<Account>)
    requires PesoOrDollar(accounts) && Feasible(actions, accounts)
    ensures RateInvariant(Run(Closed, actions, accounts), accounts)
    decreases |actions|
  {
    if |actions| > 0 {
      var init := actions[..|actions| - 1];
      assert Feasible(init, accounts) by {
        forall i | 0 <= i < |init| ensures init[i] == actions[i] { }
      }
      RunKeepsRate(init, accounts);
      var d := Run(Closed, init, accounts);
      var a := actions[|actions| - 1];
      match a
      case Open(job) =>
      case SelectAccount(id) =>
        var e := d.(accountField := Some(id));
        var t := FindAccount(accounts, id);
        assert t.Some?;
        if d.job.Some? && d.job.value.currency == USD {
          assert t.value in accounts;
          assert IsDirectUSD(e, accounts) || NeedsConversion(e, accounts);
        }
      case TypeRate(r) =>
    }
  }

  /** Whatever the user does with the dialog, the amount it promises is the
      amount pay_job credits for the request it sends, provided the job's
      amount is not negative. */
  lemma PreviewMatchesCredit(actions: seq<Action>, accounts: seq<Account>)
    requires PesoOrDollar(accounts) && Feasible(actions, accounts)
    requires var d := Run(Closed, actions, accounts);
      d.job.Some? && d.job.value.amount >= 0.0 && d.accountField.Some?
    ensures var d := Run(Closed, actions, accounts);
      TotalToReceive(d, accounts) == CreditedAmount(d.job.value, JobPayRequest(d).exchangeRate)
  {
    RunKeepsRate(actions, accounts);
    var d := Run(Closed, actions, accounts);
    var job := d.job.value;
    var rate := RateSent(d.rate);
    assert rate >= 0.0;
    assert Abs(rate) == rate;
    assert CreditedAmount(job, rate) == job.amount * rate;
  }

  // ---------------------------------------------------------------------
  // pendingAmount

  function Unpaid(j: Job): bool { !j.isPaid }

  function JobAmount(j: Job): real { j.amount }

  function UnpaidAmount(j: Job): real { if j.isPaid then 0.0 else j.amount }

  /** What a client still owes: the amounts of the unpaid jobs added up. */
  function PendingAmount(jobs: seq<Job>): real
  {
    Sum(Filter(jobs, Unpaid), JobAmount)
  }

  /** The pending balance is the sum over the jobs of what each still owes. */
  lemma {:induction false} PendingIsUnpaidSum(jobs: seq<Job>)
    ensures PendingAmount(jobs) == Sum(jobs, UnpaidAmount)
  {
    SumFilter(jobs, Unpaid, JobAmount, UnpaidAmount);
  }

  /** Collecting an unpaid job lowers the pending balance by its amount;
      collecting is refused for a paid one, so nothing else moves it. */
  lemma {:induction false} CollectLowersPending(jobs: seq<Job>, i: nat)
    requires i < |jobs| && !jobs[i].isPaid
    ensures PendingAmount(jobs[i := jobs[i].(isPaid := true)]) == PendingAmount(jobs) - jobs[i].amount
  {
    PendingIsUnpaidSum(jobs);
    PendingIsUnpaidSum(jobs[i := jobs[i].(isPaid := true)]);
    SumUpdate(jobs, i, jobs[i].(isPaid := true), UnpaidAmount);
  }
}

/** The new-movement dialog (client/src/components/TransactionModal.jsx):
    the sign rule that turns a typed amount into a ledger amount, the
    category guard, the dollar badge of the selected account, and the reset
    after a submission. The form's React state is a value. */
module TransactionModal {
  import opened Common
  import opened Records
  import opened Store

  /** The kind of movement the form records. */
  datatype TxnType = Expense | Income

  /** The form; None stands for an empty field. The selects hold ids. */
  datatype TxnForm = TxnForm(amount: Option<real>, description: string, accountField: Option<int>,
                             categoryField: Option<int>, date: string, kind: TxnType)

  /** The form as it opens: every field empty, dated today, an expense. */
  function InitialForm(today: string): (f: TxnForm)
    ensures f.amount.None? && f.description == "" && f.accountField.None? && f.categoryField.None?
    ensures f.date == today && f.kind == Expense
  {
    TxnForm(None, "", None, None, today, Expense)
  }

  /** JavaScript falsiness of a select's value: '' and the id 0. */
  predicate Blank(field: Option<int>)
  {
    field.None? || field == Some(0)
  }

  /** The opening effect: with accounts and categories loaded and no account
      picked yet, the first account and the first category are selected. */
  function OpenEffect(f: TxnForm, isOpen: bool, accounts: seq<Account>, categories: seq<Category>): (r: TxnForm)
    ensures isOpen && |accounts| > 0 && |categories| > 0 && Blank(f.accountField) ==>
              r == f.(accountField := Some(accounts[0].id), categoryField := Some(categories[0].id))
    ensures !(isOpen && |accounts| > 0 && |categories| > 0 && Blank(f.accountField)) ==> r == f
  {
    if isOpen && |accounts| > 0 && |categories| > 0 && Blank(f.accountField) then
      f.(accountField := Some(accounts[0].id), categoryField := Some(categories[0].id))
    else f
  }

  // ---------------------------------------------------------------------
  // isUSD

  /** The account id the selected field matches. The comparison is loose,
      so an empty field ('') equals the id 0. */
  function LooseAccountKey(f: TxnForm): int
  {
    match f.accountField
    case None => 0
    case Some(id) => id
  }

  /** Whether the selected account exists and is in dollars. */
  function IsUSD(f: TxnForm, accounts: seq<Account>): (r: bool)
    ensures r ==> exists a :: a in accounts && a.id == LooseAccountKey(f) && a.currency == USD
    ensures forall i :: (0 <= i < |accounts| && accounts[i].id == LooseAccountKey(f)
                         && forall j :: 0 <= j < i ==> accounts[j].id != LooseAccountKey(f))
                        ==> (r <==> accounts[i].currency == USD)
  {
    match FindAccount(accounts, LooseAccountKey(f))
    case None => false
    case Some(a) => a.currency == USD
  }

  /** Without any dollar account the form never shows the dollar badge. */
  lemma NoDollarAccountNoBadge(f: TxnForm, accounts: seq<Account>)
    requires forall a :: a in accounts ==> a.currency != USD
    ensures !IsUSD(f, accounts)
  {
  }

  // ---------------------------------------------------------------------
  // handleSubmit

  /** The signed amount: an expense is stored negative, an income positive. */
  function FinalAmount(kind: TxnType, typed: real): (r: real)
    ensures kind == Expense ==> r <= 0.0
    ensures kind == Income ==> r >= 0.0
    ensures Abs(r) == Abs(typed)
  {
    match kind
    case Expense => -Abs(typed)
    case Income => Abs(typed)
  }

  /** The typed sign never matters, and applying the rule again changes nothing. */
  lemma SignIsTheType(kind: TxnType, typed: real)
    ensures FinalAmount(kind, -typed) == FinalAmount(kind, typed)
    ensures FinalAmount(kind, FinalAmount(kind, typed)) == FinalAmount(kind, typed)
  {
  }

  /** An amount is determined by its type and size: the rule is the only
      signed amount of that size with the type's sign (0 aside). */
  lemma FinalAmountUnique(kind: TxnType, typed: real, x: real)
    requires Abs(x) == Abs(typed) && x != 0.0
    requires kind == Expense ==> x < 0.0
    requires kind == Income ==> x > 0.0
    ensures FinalAmount(kind, typed) == x
  {
  }

  /** The submitted form with the signed amount. An empty amount field parses
      to NaN, kept here as None. */
  datatype Submission = Submission(amount: Option<real>, description: string, accountField: Option<int>,
                                   categoryId: int, date: string, kind: TxnType)

  datatype SubmitOutcome = Refused(message: string) | Submitted(body: Submission, next: TxnForm)

  function SignedAmount(f: TxnForm): Option<real>
  {
    match f.amount
    case None => None
    case Some(x) => Some(FinalAmount(f.kind, x))
  }

  /** handleSubmit: refused with "Falta categoría" without a category;
      otherwise the signed amount is submitted and only the amount and the
      description are cleared. */
  function HandleSubmit(f: TxnForm): (r: SubmitOutcome)
    ensures r.Refused? <==> Blank(f.categoryField)
    ensures r.Refused? ==> r.message == "Falta categoría"
    ensures r.Submitted? ==>
              && r.body.categoryId == f.categoryField.value
              && r.body.description == f.description && r.body.accountField == f.accountField
              && r.body.date == f.date && r.body.kind == f.kind
              && (f.amount.None? <==> r.body.amount.None?)
              && (f.amount.Some? ==> r.body.amount == Some(FinalAmount(f.kind, f.amount.value)))
    ensures r.Submitted? ==> r.next == f.(amount := None, description := "")
  {
    if Blank(f.categoryField) then Refused("Falta categoría")
    else
      Submitted(Submission(SignedAmount(f), f.description, f.accountField, f.categoryField.value, f.date, f.kind),
                f.(amount := None, description := ""))
  }

  /** After a submission the user can type the next movement straight away:
      the kept category still passes the guard, and the next movement goes
      to the same account, category, date and type. */
  lemma NextSubmissionKeepsContext(f: TxnForm, amount: Option<real>, description: string)
    requires HandleSubmit(f).Submitted?
    ensures var g := HandleSubmit(f).next.(amount := amount, description := description);
      var r := HandleSubmit(g);
      && r.Submitted?
      && r.body.accountField == f.accountField && r.body.categoryId == HandleSubmit(f).body.categoryId
      && r.body.date == f.date && r.body.kind == f.kind
  {
  }

  /** The body the summary page posts, once the account and amount are set. */
  function TransactionRequest(s: Submission): (req: TransactionCreate)
    requires s.amount.Some? && s.accountField.Some?
    ensures req.amount == s.amount.value && req.categoryId == s.categoryId
    ensures req.accountId == s.accountField.value && req.date == s.date
    ensures req.description == Typed(s.description)
  {
    TransactionCreate(s.amount.value, s.categoryId, s.accountField.value, Typed(s.description), s.date)
  }

  /** An expense entered through the dialog never raises a balance and an
      income never lowers one: the posted amount has the type's sign. */
  lemma PostedSignFollowsType(f: TxnForm)
    requires HandleSubmit(f).Submitted?
    requires f.amount.Some? && f.accountField.Some?
    ensures var req := TransactionRequest(HandleSubmit(f).body);
      && (f.kind == Expense ==> req.amount <= 0.0)
      && (f.kind == Income ==> req.amount >= 0.0)
      && Abs(req.amount) == Abs(f.amount.value)
  {
  }
}

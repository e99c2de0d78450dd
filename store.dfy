/** The settlement handlers of the backend (backend/main.py) and the store
    operations they rely on (backend/crud.py), over an in-memory store that
    stands for the database session. */
module Store {
  import opened Common
  import opened Records

  /** The HTTP errors the handlers raise, with their status codes and texts. */
  datatype ApiError =
    | JobNotFound
    | AlreadyCollected
    | GoalOrAccountNotFound
    | CurrencyMismatch(goalCurrency: Currency, accountCurrency: Currency)
    | InsufficientBalance
    | CategoryNotFound
    | SystemCategory
    | PurchaseNotFound
  {
    function Status(): (code: int)
      ensures code in {400, 403, 404}
      ensures code == 404 <==> (JobNotFound? || GoalOrAccountNotFound? || CategoryNotFound? || PurchaseNotFound?)
      ensures code == 400 <==> (AlreadyCollected? || CurrencyMismatch? || InsufficientBalance?)
      ensures code == 403 <==> SystemCategory?
    {
      match this
      case JobNotFound | GoalOrAccountNotFound | CategoryNotFound | PurchaseNotFound => 404
      case AlreadyCollected | CurrencyMismatch(_, _) | InsufficientBalance => 400
      case SystemCategory => 403
    }

    function Detail(): string
    {
      match this
      case JobNotFound => "Trabajo no encontrado"
      case AlreadyCollected => "Ya cobrado"
      case GoalOrAccountNotFound => "Meta o Cuenta no encontrada"
      case CurrencyMismatch(g, a) => "No podés mezclar monedas. La meta es " + g + " y la cuenta es " + a
      case InsufficientBalance => "Saldo insuficiente en la cuenta"
      case CategoryNotFound => "Categoría no encontrada"
      case SystemCategory => "No podés borrar categorías del sistema"
      case PurchaseNotFound => "Gasto no encontrado"
    }
  }

  // ---------------------------------------------------------------------
  // Request bodies (backend/schemas.py)

  datatype JobPay = JobPay(accountId: int, exchangeRate: real)

  /** A pay request that leaves out the rate gets the schema default 1.0. */
  function DefaultJobPay(accountId: int): (p: JobPay)
    ensures p.accountId == accountId && p.exchangeRate == 1.0
  {
    JobPay(accountId, 1.0)
  }

  datatype GoalDeposit = GoalDeposit(accountId: int, amount: real)

  datatype TransactionCreate = TransactionCreate(amount: real, categoryId: int, accountId: int,
                                                 description: Memo, date: string)

  datatype SubscriptionCreate = SubscriptionCreate(name: string, price: real, currency: Currency,
                                                   billingDay: int, cardId: Option<int>)

  datatype CardPurchaseCreate = CardPurchaseCreate(description: string, amount: real, currency: Currency,
                                                   installments: int, date: Date, isRecurring: bool)

  /** The category every ledger entry written by the handlers is filed under. */
  const DefaultCategory: int := 1

  // ---------------------------------------------------------------------
  // Pure parts of the handlers

  function Lookup<T>(m: map<int, T>, id: int): Option<T>
  {
    if id in m then Some(m[id]) else None
  }

  /** The accounts after a ledger entry of the given amount on account id:
      that account's balance moves by the amount, when it exists; no other
      account and no other field changes. */
  function Credit(accounts: map<int, Account>, id: int, amount: real): (r: map<int, Account>)
    ensures r.Keys == accounts.Keys
    ensures id in accounts ==> r[id] == accounts[id].(balance := accounts[id].balance + amount)
    ensures forall k :: k in accounts && k != id ==> r[k] == accounts[k]
  {
    if id in accounts then accounts[id := accounts[id].(balance := accounts[id].balance + amount)] else accounts
  }

  function JobIdIs(id: int): Job -> bool { (j: Job) => j.id == id }

  function PurchaseIdIs(id: int): CardPurchase -> bool { (p: CardPurchase) => p.id == id }

  /** The first job stored with that id, if any. */
  function JobWithId(jobs: seq<Job>, id: int): (r: Option<Job>)
    ensures r.None? <==> forall j :: j in jobs ==> j.id != id
    ensures r.Some? ==> r.value in jobs && r.value.id == id
  {
    match FindFirst(jobs, JobIdIs(id))
    case None => None
    case Some(i) => Some(jobs[i])
  }

  /** The checks of pay_job, in the order it runs them. */
  function PayJobCheck(job: Option<Job>): (r: Outcome<ApiError>)
    ensures r == Fail(JobNotFound) <==> job.None?
    ensures r == Fail(AlreadyCollected) <==> job.Some? && job.value.isPaid
    ensures r == Pass <==> job.Some? && !job.value.isPaid
  {
    if job.None? then Fail(JobNotFound)
    else if job.value.isPaid then Fail(AlreadyCollected)
    else Pass
  }

  /** What collecting a job credits: the size of its amount times the rate. The
      rate applies whatever the job's currency. */
  function CreditedAmount(job: Job, rate: real): (r: real)
    ensures r >= 0.0
    ensures r == Abs(job.amount) * Abs(rate)
    ensures rate == 1.0 && job.amount >= 0.0 ==> r == job.amount
  {
    var x := job.amount * rate;
    assert Abs(x) == Abs(job.amount) * Abs(rate) by {
      if job.amount < 0.0 && rate < 0.0 { assert x == (-job.amount) * (-rate); }
      else if job.amount < 0.0 { assert -x == (-job.amount) * rate; }
      else if rate < 0.0 { assert -x == job.amount * (-rate); }
    }
    Abs(x)
  }

  /** The ledger text of a collection: a conversion note only for a USD job
      collected at a rate above 1. */
  function CollectionMemo(job: Job, rate: real): (m: Memo)
    ensures m.JobCollection? && m.job == job.description
    ensures m.conversion.Some? <==> job.currency == USD && rate > 1.0
    ensures m.conversion.Some? ==> m.conversion.value == Conversion(job.amount, rate)
  {
    JobCollection(job.description, if job.currency == USD && rate > 1.0 then Some(Conversion(job.amount, rate)) else None)
  }

  /** The checks of deposit_to_goal, in the order it runs them. */
  function DepositCheck(goal: Option<Goal>, account: Option<Account>, amount: real): (r: Outcome<ApiError>)
    ensures r == Fail(GoalOrAccountNotFound) <==> goal.None? || account.None?
    ensures (r.Fail? && r.error.CurrencyMismatch?) <==>
              goal.Some? && account.Some? && goal.value.currency != account.value.currency
    ensures r.Fail? && r.error.CurrencyMismatch? ==>
              r.error == CurrencyMismatch(goal.value.currency, account.value.currency)
    ensures r == Fail(InsufficientBalance) <==>
              goal.Some? && account.Some? && goal.value.currency == account.value.currency
              && account.value.balance < amount
    ensures r == Pass <==>
              goal.Some? && account.Some? && goal.value.currency == account.value.currency
              && account.value.balance >= amount
  {
    if goal.None? || account.None? then Fail(GoalOrAccountNotFound)
    else if goal.value.currency != account.value.currency then
      Fail(CurrencyMismatch(goal.value.currency, account.value.currency))
    else if account.value.balance < amount then Fail(InsufficientBalance)
    else Pass
  }

  /** The checks of delete_category. */
  function DeleteCategoryCheck(category: Option<Category>): (r: Outcome<ApiError>)
    ensures r == Fail(CategoryNotFound) <==> category.None?
    ensures r == Fail(SystemCategory) <==> category.Some? && category.value.userId.None?
    ensures r == Pass <==> category.Some? && category.value.userId.Some?
  {
    if category.None? then Fail(CategoryNotFound)
    else if category.value.userId.None? then Fail(SystemCategory)
    else Pass
  }

  /** Whether a subscription charges a card: the card id is tested for
      truth, so a card id of 0 counts as no card. */
  predicate ChargesCard(sub: SubscriptionCreate)
  {
    sub.cardId.Some? && sub.cardId.value != 0
  }

  /** The recurring card purchase create_subscription adds for a subscription
      that names a card. */
  function AutoPurchase(sub: SubscriptionCreate, id: int, today: Date): (p: CardPurchase)
    requires ChargesCard(sub)
    ensures p.isRecurring && p.installments == 1
    ensures p.amount == sub.price && p.currency == sub.currency && p.cardId == sub.cardId.value
    ensures p.date == today && p.id == id
  {
    CardPurchase(id, "Suscripción: " + sub.name, sub.price, sub.currency, 1, today, true, sub.cardId.value)
  }

  // ---------------------------------------------------------------------
  // Read-only queries (backend/crud.py)

  function OnCard(cardId: int): CardPurchase -> bool { (p: CardPurchase) => p.cardId == cardId }

  function ForClient(clientId: int): Job -> bool { (j: Job) => j.clientId == clientId }

  /** get_card_purchases: the purchases of one card, in table order. */
  function CardPurchases(purchases: seq<CardPurchase>, cardId: int): (r: seq<CardPurchase>)
    ensures forall p :: p in r <==> p in purchases && p.cardId == cardId
    ensures forall p: CardPurchase :: p.cardId == cardId ==> multiset(r)[p] == multiset(purchases)[p]
  {
    Filter(purchases, OnCard(cardId))
  }

  /** get_client_jobs: the jobs of one client, in table order. */
  function ClientJobs(jobs: seq<Job>, clientId: int): (r: seq<Job>)
    ensures forall j :: j in r <==> j in jobs && j.clientId == clientId
    ensures forall j: Job :: j.clientId == clientId ==> multiset(r)[j] == multiset(jobs)[j]
  {
    Filter(jobs, ForClient(clientId))
  }

  // ---------------------------------------------------------------------
  // The ledger

  function AmountOn(accountId: int): Transaction -> real
  {
    (t: Transaction) => if t.accountId == accountId then t.amount else 0.0
  }

  /** The signed sum of the ledger entries of one account. */
  function LedgerSum(ts: seq<Transaction>, accountId: int): real
  {
    Sum(ts, AmountOn(accountId))
  }

  lemma {:induction false} LedgerAppend(ts: seq<Transaction>, t: Transaction, accountId: int)
    ensures LedgerSum(ts + [t], accountId) == LedgerSum(ts, accountId) + (if t.accountId == accountId then t.amount else 0.0)
  {
    assert (ts + [t])[..|ts|] == ts;
  }

  /** Posting entries t1..tn moves an account's ledger sum by their amounts
      on that account (the balance follows, by FinanceStore.Valid). */
  lemma {:induction false} LedgerOfBatch(ts: seq<Transaction>, batch: seq<Transaction>, accountId: int)
    requires forall t :: t in batch ==> t.accountId == accountId
    ensures LedgerSum(ts + batch, accountId) == LedgerSum(ts, accountId) + Sum(batch, TxnAmount)
  {
    SumAppend(ts, batch, AmountOn(accountId));
    SumCongruent(batch, AmountOn(accountId), TxnAmount);
  }

  function TxnAmount(t: Transaction): real { t.amount }

  ghost predicate UniquePurchaseIds(ps: seq<CardPurchase>)
  {
    forall i, j :: 0 <= i < j < |ps| ==> ps[i].id != ps[j].id
  }

  ghost predicate UniqueJobIds(js: seq<Job>)
  {
    forall i, j :: 0 <= i < j < |js| ==> js[i].id != js[j].id
  }

  /** The data store the handlers work on. Tables looked up by primary key
      are maps keyed by id; the others keep their row order. */
  class FinanceStore {
    var accounts: map<int, Account>
    var categories: map<int, Category>
    var goals: map<int, Goal>
    var subscriptions: seq<Subscription>
    var purchases: seq<CardPurchase>
    var jobs: seq<Job>
    var transactions: seq<Transaction>
    /** the next primary key the database hands out */
    var nextId: int
    /** each account's balance before the entries in transactions */
    ghost var opening: map<int, real>

    /** Keys match ids, ids are unique, and every balance equals its opening
        value plus the account's ledger entries: balance and ledger never
        diverge. */
    ghost predicate Valid()
      reads this
    {
      && (forall id :: id in accounts ==> accounts[id].id == id)
      && (forall id :: id in goals ==> goals[id].id == id)
      && (forall id :: id in categories ==> categories[id].id == id)
      && UniquePurchaseIds(purchases)
      && UniqueJobIds(jobs)
      && (forall p :: p in purchases ==> p.id < nextId)
      && opening.Keys == accounts.Keys
      && (forall id :: id in accounts ==> accounts[id].balance == opening[id] + LedgerSum(transactions, id))
    }

    constructor (accounts: map<int, Account>, categories: map<int, Category>, goals: map<int, Goal>,
                 subscriptions: seq<Subscription>, purchases: seq<CardPurchase>, jobs: seq<Job>,
                 transactions: seq<Transaction>, nextId: int)
      requires forall id :: id in accounts ==> accounts[id].id == id
      requires forall id :: id in goals ==> goals[id].id == id
      requires forall id :: id in categories ==> categories[id].id == id
      requires UniquePurchaseIds(purchases) && UniqueJobIds(jobs)
      requires forall p :: p in purchases ==> p.id < nextId
      ensures Valid()
      ensures this.accounts == accounts && this.categories == categories && this.goals == goals
      ensures this.subscriptions == subscriptions && this.purchases == purchases && this.jobs == jobs
      ensures this.transactions == transactions && this.nextId == nextId
    {
      this.accounts := accounts;
      this.categories := categories;
      this.goals := goals;
      this.subscriptions := subscriptions;
      this.purchases := purchases;
      this.jobs := jobs;
      this.transactions := transactions;
      this.nextId := nextId;
      this.opening := map id | id in accounts :: accounts[id].balance - LedgerSum(transactions, id);
    }

    /** Appends one ledger entry and moves the account it names, when that
        account exists, by the entry's amount; Valid is kept. */
    method Post(t: Transaction)
      requires Valid()
      modifies this
      ensures Valid()
      ensures transactions == old(transactions) + [t]
      ensures accounts == Credit(old(accounts), t.accountId, t.amount)
      ensures categories == old(categories) && goals == old(goals) && subscriptions == old(subscriptions)
      ensures purchases == old(purchases) && jobs == old(jobs) && nextId == old(nextId)
    {
      if t.accountId in accounts {
        var a := accounts[t.accountId];
        accounts := accounts[t.accountId := a.(balance := a.balance + t.amount)];
      }
      forall id | id in accounts
        ensures LedgerSum(transactions + [t], id) == LedgerSum(transactions, id) + (if t.accountId == id then t.amount else 0.0)
      {
        LedgerAppend(transactions, t, id);
      }
      transactions := transactions + [t];
    }

    /** pay_job: unknown job -> 404, already paid -> 400 and nothing changes;
        otherwise the job becomes paid, the ledger gets |amount * rate| on the
        named account, and that account (if it exists) is credited as much. */
    method PayJob(jobId: int, payment: JobPay, today: string) returns (r: Outcome<ApiError>)
      requires Valid()
      modifies this
      ensures Valid()
      ensures r == PayJobCheck(JobWithId(old(jobs), jobId))
      ensures r.Fail? ==> unchanged(this)
      ensures r.Pass? ==>
        var i := FindFirst(old(jobs), JobIdIs(jobId)).value;
        var job := old(jobs)[i];
        var credit := CreditedAmount(job, payment.exchangeRate);
        && jobs == old(jobs)[i := job.(isPaid := true)]
        && transactions == old(transactions)
             + [Transaction(old(nextId), credit, CollectionMemo(job, payment.exchangeRate), today, DefaultCategory, payment.accountId)]
        && accounts == Credit(old(accounts), payment.accountId, credit)
        && nextId == old(nextId) + 1
      ensures categories == old(categories) && goals == old(goals)
      ensures subscriptions == old(subscriptions) && purchases == old(purchases)
    {
      var found := FindFirst(jobs, JobIdIs(jobId));
      if found.None? {
        return Fail(JobNotFound);
      }
      var i := found.value;
      var job := jobs[i];
      if job.isPaid {
        return Fail(AlreadyCollected);
      }
      jobs := jobs[i := job.(isPaid := true)];
      var credit := CreditedAmount(job, payment.exchangeRate);
      var entry := Transaction(nextId, credit, CollectionMemo(job, payment.exchangeRate), today, DefaultCategory, payment.accountId);
      nextId := nextId + 1;
      Post(entry);
      r := Pass;
    }

    /** deposit_to_goal: 404, then 400 currency mismatch, then 400 insufficient
        balance, each before anything changes; otherwise the amount moves from
        the account to the goal (no cap at the target) and the ledger records
        it as an outflow. The account plus the goal hold what they held before. */
    method DepositToGoal(goalId: int, deposit: GoalDeposit, today: string) returns (r: Result<real, ApiError>)
      requires Valid()
      modifies this
      ensures Valid()
      ensures var check := DepositCheck(Lookup(old(goals), goalId), Lookup(old(accounts), deposit.accountId), deposit.amount);
        check.Fail? ==> r == Failure(check.error) && unchanged(this)
      ensures r.Success? <==> DepositCheck(Lookup(old(goals), goalId), Lookup(old(accounts), deposit.accountId), deposit.amount) == Pass
      ensures r.Success? ==>
        && DepositCheck(Lookup(old(goals), goalId), Lookup(old(accounts), deposit.accountId), deposit.amount) == Pass
        && var g := old(goals)[goalId];
           var a := old(accounts)[deposit.accountId];
           && accounts == old(accounts)[deposit.accountId := a.(balance := a.balance - deposit.amount)]
           && goals == old(goals)[goalId := g.(currentAmount := g.currentAmount + deposit.amount)]
           && transactions == old(transactions)
                + [Transaction(old(nextId), -deposit.amount, GoalSaving(g.name), today, DefaultCategory, a.id)]
           && nextId == old(nextId) + 1
           && r.value == goals[goalId].currentAmount
           && accounts[deposit.accountId].balance + goals[goalId].currentAmount == a.balance + g.currentAmount
      ensures categories == old(categories) && subscriptions == old(subscriptions)
      ensures purchases == old(purchases) && jobs == old(jobs)
    {
      var check := DepositCheck(Lookup(goals, goalId), Lookup(accounts, deposit.accountId), deposit.amount);
      if check.Fail? {
        return Failure(check.error);
      }
      var g := goals[goalId];
      var a := accounts[deposit.accountId];
      assert a.id == deposit.accountId;
      goals := goals[goalId := g.(currentAmount := g.currentAmount + deposit.amount)];
      var entry := Transaction(nextId, -deposit.amount, GoalSaving(g.name), today, DefaultCategory, a.id);
      nextId := nextId + 1;
      assert Valid();
      Post(entry);
      r := Success(goals[goalId].currentAmount);
    }

    /** create_transaction: the entry is stored whatever account it names;
        the signed amount is added to that account's balance when it exists. */
    method CreateTransaction(req: TransactionCreate) returns (t: Transaction)
      requires Valid()
      modifies this
      ensures Valid()
      ensures t == Transaction(old(nextId), req.amount, req.description, req.date, req.categoryId, req.accountId)
      ensures transactions == old(transactions) + [t]
      ensures accounts == Credit(old(accounts), req.accountId, req.amount)
      ensures nextId == old(nextId) + 1
      ensures categories == old(categories) && goals == old(goals) && subscriptions == old(subscriptions)
      ensures purchases == old(purchases) && jobs == old(jobs)
    {
      t := Transaction(nextId, req.amount, req.description, req.date, req.categoryId, req.accountId);
      nextId := nextId + 1;
      Post(t);
    }

    /** create_card_purchase: stores the purchase on the given card. */
    method CreateCardPurchase(req: CardPurchaseCreate, cardId: int) returns (p: CardPurchase)
      requires Valid()
      modifies this
      ensures Valid()
      ensures p == CardPurchase(old(nextId), req.description, req.amount, req.currency, req.installments,
                                req.date, req.isRecurring, cardId)
      ensures purchases == old(purchases) + [p] && nextId == old(nextId) + 1
      ensures accounts == old(accounts) && categories == old(categories) && goals == old(goals)
      ensures subscriptions == old(subscriptions) && jobs == old(jobs) && transactions == old(transactions)
      ensures opening == old(opening)
    {
      p := CardPurchase(nextId, req.description, req.amount, req.currency, req.installments,
                        req.date, req.isRecurring, cardId);
      purchases := purchases + [p];
      nextId := nextId + 1;
    }

    /** create_subscription: stores the subscription and, when it names a
        card, one recurring single-payment purchase with its price and currency. */
    method CreateSubscription(sub: SubscriptionCreate, today: Date) returns (s: Subscription)
      requires Valid()
      modifies this
      ensures Valid()
      ensures s == Subscription(old(nextId), sub.name, sub.price, sub.currency, sub.billingDay, sub.cardId)
      ensures subscriptions == old(subscriptions) + [s]
      ensures ChargesCard(sub) ==> purchases == old(purchases) + [AutoPurchase(sub, old(nextId) + 1, today)]
                                   && nextId == old(nextId) + 2
      ensures !ChargesCard(sub) ==> purchases == old(purchases) && nextId == old(nextId) + 1
      ensures accounts == old(accounts) && categories == old(categories) && goals == old(goals)
      ensures jobs == old(jobs) && transactions == old(transactions) && opening == old(opening)
    {
      s := Subscription(nextId, sub.name, sub.price, sub.currency, sub.billingDay, sub.cardId);
      subscriptions := subscriptions + [s];
      nextId := nextId + 1;
      if ChargesCard(sub) {
        var p := AutoPurchase(sub, nextId, today);
        purchases := purchases + [p];
        nextId := nextId + 1;
      }
    }

    /** crud.delete_card_purchase: removes the purchase and answers true when it
        exists; answers false and changes nothing otherwise. */
    method DeleteCardPurchase(purchaseId: int) returns (found: bool)
      requires Valid()
      modifies this
      ensures Valid()
      ensures found <==> exists p :: p in old(purchases) && p.id == purchaseId
      ensures !found ==> unchanged(this)
      ensures found ==>
        var i := FindFirst(old(purchases), PurchaseIdIs(purchaseId)).value;
        && purchases == old(purchases)[..i] + old(purchases)[i + 1..]
        && |purchases| == |old(purchases)| - 1
        && (forall p :: p in purchases <==> p in old(purchases) && p.id != purchaseId)
      ensures accounts == old(accounts) && categories == old(categories) && goals == old(goals)
      ensures subscriptions == old(subscriptions) && jobs == old(jobs) && transactions == old(transactions)
      ensures nextId == old(nextId)
    {
      var at := FindFirst(purchases, PurchaseIdIs(purchaseId));
      if at.None? {
        assert forall p :: p in purchases ==> p.id != purchaseId by {
          forall p | p in purchases ensures p.id != purchaseId {
            var k :| 0 <= k < |purchases| && purchases[k] == p;
            assert !PurchaseIdIs(purchaseId)(purchases[k]);
          }
        }
        return false;
      }
      var i := at.value;
      assert PurchaseIdIs(purchaseId)(purchases[i]);
      ghost var before := purchases;
      purchases := purchases[..i] + purchases[i + 1..];
      RemoveAtKeepsOthers(before, i);
      found := true;
    }

    /** delete_purchase: 404 when the purchase does not exist. */
    method DeletePurchase(purchaseId: int) returns (r: Outcome<ApiError>)
      requires Valid()
      modifies this
      ensures Valid()
      ensures r == Pass <==> exists p :: p in old(purchases) && p.id == purchaseId
      ensures r.Fail? ==> r.error == PurchaseNotFound && unchanged(this)
      ensures r.Pass? ==>
        var i := FindFirst(old(purchases), PurchaseIdIs(purchaseId)).value;
        && purchases == old(purchases)[..i] + old(purchases)[i + 1..]
        && (forall p :: p in purchases <==> p in old(purchases) && p.id != purchaseId)
      ensures accounts == old(accounts) && categories == old(categories) && goals == old(goals)
      ensures subscriptions == old(subscriptions) && jobs == old(jobs) && transactions == old(transactions)
      ensures nextId == old(nextId)
    {
      var found := DeleteCardPurchase(purchaseId);
      r := if found then Pass else Fail(PurchaseNotFound);
    }

    /** delete_category: 404 when missing, 403 for a system category; otherwise
        the category is removed. */
    method DeleteCategory(categoryId: int) returns (r: Outcome<ApiError>)
      requires Valid()
      modifies this
      ensures Valid()
      ensures r == DeleteCategoryCheck(Lookup(old(categories), categoryId))
      ensures r.Fail? ==> unchanged(this)
      ensures r.Pass? ==> categories == old(categories) - {categoryId}
      ensures nextId == old(nextId)
      ensures accounts == old(accounts) && goals == old(goals) && subscriptions == old(subscriptions)
      ensures purchases == old(purchases) && jobs == old(jobs) && transactions == old(transactions)
    {
      r := DeleteCategoryCheck(Lookup(categories, categoryId));
      if r.Pass? {
        categories := categories - {categoryId};
      }
    }
  }

  /** Removing the element at index i of a sequence with unique ids keeps ids
      unique and drops exactly the elements with that index's id. */
  lemma RemoveAtKeepsOthers(ps: seq<CardPurchase>, i: nat)
    requires i < |ps| && UniquePurchaseIds(ps)
    ensures UniquePurchaseIds(ps[..i] + ps[i + 1..])
    ensures forall p :: p in ps[..i] + ps[i + 1..] <==> p in ps && p.id != ps[i].id
  {
    RemoveAtUnique(ps, i);
    forall p ensures p in ps[..i] + ps[i + 1..] <==> p in ps && p.id != ps[i].id {
      RemoveAtMember(ps, i, p);
    }
  }

  lemma RemoveAtUnique(ps: seq<CardPurchase>, i: nat)
    requires i < |ps| && UniquePurchaseIds(ps)
    ensures UniquePurchaseIds(ps[..i] + ps[i + 1..])
  {
    var r := ps[..i] + ps[i + 1..];
    RemoveAtIndexes(ps, i);
    forall k1, k2 | 0 <= k1 < k2 < |r| ensures r[k1].id != r[k2].id {
      var s1 := if k1 < i then k1 else k1 + 1;
      var s2 := if k2 < i then k2 else k2 + 1;
      assert r[k1] == ps[s1] && r[k2] == ps[s2] && s1 < s2;
    }
  }

  lemma RemoveAtMember(ps: seq<CardPurchase>, i: nat, p: CardPurchase)
    requires i < |ps| && UniquePurchaseIds(ps)
    ensures p in ps[..i] + ps[i + 1..] <==> p in ps && p.id != ps[i].id
  {
    var r := ps[..i] + ps[i + 1..];
    RemoveAtIndexes(ps, i);
    if p in ps && p.id != ps[i].id {
      var k :| 0 <= k < |ps| && ps[k] == p;
      if k < i { assert r[k] == p; } else { assert r[k - 1] == p; }
    }
    if p in r {
      var k :| 0 <= k < |r| && r[k] == p;
      var src := if k < i then k else k + 1;
      assert ps[src] == p && src != i;
    }
  }

  /** Where each element of the shortened sequence comes from. */
  lemma RemoveAtIndexes(ps: seq<CardPurchase>, i: nat)
    requires i < |ps|
    ensures |ps[..i] + ps[i + 1..]| == |ps| - 1
    ensures forall k :: 0 <= k < |ps| - 1 ==> (ps[..i] + ps[i + 1..])[k] == if k < i then ps[k] else ps[k + 1]
  {
  }
}

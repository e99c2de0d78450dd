# fin-pro, modelled in Dafny

fin-pro is a personal finance application. Its React client shows accounts,
a monthly summary, credit cards with installment plans, subscriptions,
clients with their jobs, saving goals and analytics. Its FastAPI backend
keeps accounts, a ledger of transactions, card purchases, jobs, goals and
categories in a database. This project models the money and calendar rules
of both halves and proves what they promise:

- which card purchases a viewed month's statement shows, with what label,
  what the statement totals per currency, and what paying it debits
  (`card_statement.dfy`, module `CardStatement`);
- the settlement handlers of the backend — collecting a job, depositing into
  a goal, posting a transaction, creating a subscription with its automatic
  card charge, and the guarded deletes — as methods of a `FinanceStore`
  class whose invariant ties every balance to the ledger (`store.dfy`,
  module `Store`);
- the collection dialog of the clients page: when a rate is needed, the
  rate effects, the preview of the credited amount and the pending total
  (`clients.dfy`, module `ClientsPage`);
- goal completion and the deposit dialog (`goals.dfy`, module `GoalsPage`);
- the reporting folds: the grouping of the ledger by month shared by the
  history chart and the analytics page (`monthly_buckets.dfy`, module
  `MonthlyBuckets`, a loop over a map as in the source), the spending pie
  (`financial_charts.dfy`), the top clients and cost structure
  (`analytics.dfy`), the summary cards (`dashboard.dfy`) and the
  subscription totals and card labels (`subscriptions.dfy`);
- the sign rule, category guard and reset of the new-movement dialog
  (`transaction_modal.dfy`).

Shared vocabulary lives in `common.dfy` (options, results, sums and filters
over sequences folded from the end, string prefixes, code-point order,
decimal rendering and parsing) and `records.dfy` (the database rows of
`backend/models.py` as datatypes).

Money and exchange rates are `real`. A calendar date of a card purchase is a
`Date(year, month, day)` and its month is `year * 12 + (month - 1)`; ledger
dates stay strings, because the reports work on their "YYYY-MM" prefixes, and
the empty string stands for a missing date. A form field that may be empty is
an `Option`. The clock ("today", the viewed month, the current month) is a
parameter wherever the source reads it.

## Model

| member | source | states |
|---|---|---|
| Records.FindAccount | client/src/pages/Dashboard.jsx:68 | `accounts.find` by id: none exactly when no account has the id, otherwise an account of the list with that id |
| Store.ApiError.Status | backend/main.py:133-264 | each error maps to the status its handler raises: the not-found errors are exactly the 404s, already collected, currency mismatch and insufficient balance exactly the 400s, a system category exactly the 403; `Detail` gives each error's message text |
| Store.DefaultJobPay | backend/schemas.py:146-148 | a pay request without a rate carries the schema default 1.0 |
| Store.Credit | backend/crud.py:38-41 | after an entry on an account, that account (if it exists) moves by the amount, every other account is unchanged and no account appears or disappears |
| Store.JobWithId | backend/main.py:168 | the job lookup finds nothing exactly when no job has the id, otherwise a job with that id |
| Store.PayJobCheck | backend/main.py:168-170 | unknown job fails with not-found, an already collected job with "Ya cobrado", and only an unpaid job passes — each iff |
| Store.CreditedAmount | backend/main.py:175 | the credited amount is never negative, is the size of amount × rate whatever the job's currency, and with the default rate 1.0 is the job's own amount when that is not negative, and its size otherwise |
| Store.CollectionMemo | backend/main.py:179-180 | the ledger text names the job, and carries the dollar conversion exactly when the job is in dollars and the rate exceeds 1 |
| Store.DepositCheck | backend/main.py:252-264 | the checks run in order: missing goal or account fails first, then a currency mismatch (naming both currencies), then an insufficient balance; it passes exactly when all three hold |
| Store.DeleteCategoryCheck | backend/main.py:220-224 | a missing category is a 404, a system category (no owner) a 403, and only an owned category may be deleted — each iff |
| Store.AutoPurchase | backend/main.py:96-107 | added only when `ChargesCard` holds (a card id other than 0); the charge a subscription adds to its card is recurring, in one installment, with the subscription's price, currency and card, dated today |
| Store.CardPurchases | backend/crud.py:90-91 | exactly the purchases of the card, each with its multiplicity |
| Store.ClientJobs | backend/crud.py:123-124 | exactly the jobs of the client, each with its multiplicity |
| Store.LedgerAppend | backend/crud.py:38-41 | posting one entry changes an account's ledger sum by the entry's amount if it names that account and by nothing otherwise |
| Store.LedgerOfBatch | backend/crud.py:40 | posting entries t1..tn on one account adds the sum of their amounts to its ledger sum, so with the invariant the balance becomes b + Σ amounts |
| Store.FinanceStore.Post | backend/crud.py:38-41 | one ledger entry is appended and the account it names, if it exists, moves by its amount; nothing else changes and the invariant holds |
| Store.FinanceStore.CreateTransaction | backend/crud.py:28-43 | the stored row takes the next id and the request's fields; the account's balance moves by the signed amount when it exists and the row is stored anyway when it does not; nothing else changes |
| Store.FinanceStore.PayJob | backend/main.py:166-198 | the outcome is PayJobCheck's verdict; on failure nothing changes; on success the job alone becomes paid, one entry of the credited amount with the collection text is appended and the named account, if it exists, is credited as much; nothing else changes |
| Store.FinanceStore.DepositToGoal | backend/main.py:249-282 | succeeds exactly when DepositCheck passes; a failed check changes nothing and returns its error; on success the account loses and the goal gains the amount (no cap at the target), the ledger gets the negative amount, the new goal total is returned, and account plus goal hold what they held before |
| Store.FinanceStore.CreateCardPurchase | backend/crud.py:83-88 | one purchase with the next id and the request's fields is added to the card; the ledger and balances are untouched |
| Store.FinanceStore.CreateSubscription | backend/main.py:90-110 | the subscription is stored, and exactly when it names a card (id not 0) the recurring card charge is added too; balances and ledger are untouched |
| Store.FinanceStore.DeleteCardPurchase | backend/crud.py:93-99 | true exactly when a purchase has the id, then only that purchase is removed and the others keep their order; false changes nothing |
| Store.FinanceStore.DeletePurchase | backend/main.py:129-134 | passes exactly when the purchase exists, removing the first purchase with that id while the others keep their order and the id counter stays; otherwise a 404 and nothing changes |
| Store.FinanceStore.DeleteCategory | backend/main.py:216-228 | the outcome is DeleteCategoryCheck's verdict; on failure nothing changes; on success only that category is removed, and the id counter and every other table stay as they were |
| CardStatement.DisplayStatus | client/src/pages/CreditCards.jsx:65-79 | shown exactly when the purchase's month is not after the viewed one and it is recurring or still within its installments; a recurring purchase is labelled as automatic debit and active, an installment one as "k / n" with k the months elapsed plus one, inactive |
| CardStatement.DayIrrelevant | client/src/pages/CreditCards.jsx:68-69 | changing the day of the purchase or of the viewed date never changes the status |
| CardStatement.RecurringAlwaysShown | client/src/pages/CreditCards.jsx:72 | a recurring purchase is shown as automatic debit in its month and every later one, hidden before it, whatever its installments |
| CardStatement.InstallmentWindow | client/src/pages/CreditCards.jsx:74-78 | a purchase in n installments from month M is shown exactly in the n months M..M+n-1, and in month M+k-1 its label is "k / n" |
| CardStatement.InstallmentLabelReadsBack | client/src/pages/CreditCards.jsx:78 | the installment number reads back from the start of the "k / n" label |
| CardStatement.AcrossYearEnd | client/src/pages/CreditCards.jsx:74 | a three-installment purchase of November 2024 is shown in December 2024 as "2 / 3" and in January 2025 as "3 / 3", and hidden in February 2025 |
| CardStatement.SubscriptionChargeShown | backend/main.py:96-107 | the charge a subscription adds to its card shows on every statement from the month it was created |
| CardStatement.VisiblePurchases | client/src/pages/CreditCards.jsx:81-84 | every visible line is one of the card's purchases together with its status's label and flag |
| CardStatement.VisibleAreTheShown | client/src/pages/CreditCards.jsx:81-84 | the visible lines are exactly the purchases whose status is shown, in their original order, with their fields unchanged |
| CardStatement.TotalOfMonth | client/src/pages/CreditCards.jsx:135-136 | `Total`, a currency's total, is the sum of the amounts of the shown purchases of that currency |
| CardStatement.OtherCurrencyIgnored | client/src/pages/CreditCards.jsx:135-136 | lines in other currencies never change a currency's total |
| CardStatement.EstimatedTotal | client/src/pages/CreditCards.jsx:137 | the peso total plus dollars × rate when dollars are due and a rate is typed, the peso total otherwise |
| CardStatement.OpenPayModal | client/src/pages/CreditCards.jsx:139-142 | refused exactly when both totals are 0; otherwise the dialog opens with no rate and the first account selected, none when there are no accounts |
| CardStatement.NothingToPay | client/src/pages/CreditCards.jsx:140 | a month whose shown purchases are all in other currencies has nothing to pay |
| CardStatement.ConfirmPayment | client/src/pages/CreditCards.jsx:144-157 | the posted amount is minus the size of the estimated total, so never positive, filed under category 1 on the chosen account with today's date and the month's text, naming the dollars when there are any |
| CardStatement.PayStatement | client/src/pages/CreditCards.jsx:135-157 | paying the viewed month of one card end to end, over that card's stored purchases: nothing is posted and nothing changes exactly when the summary offers no payment (`PayOffered`: neither total positive, the condition on the "Registrar Pago" button at line 248); otherwise exactly one entry is appended, with the next id, minus the size of `StatementEstimate`, the month's text, category 1, the chosen account and today's date (`StatementRequest`), the chosen account, if it exists, moves by that amount, and no other table changes |
| CardStatement.FreshExpenseForm | client/src/pages/CreditCards.jsx:97-101 | a new purchase starts in one installment, in pesos, not recurring, with no amount and today's date |
| CardStatement.ExpenseRequest | client/src/pages/CreditCards.jsx:103-114 | the request carries the form's fields, with the installments forced to 1 for a recurring purchase |
| CardStatement.RecurringInstallmentsHarmless | client/src/pages/CreditCards.jsx:109 | a recurring purchase is stored in one installment and shows the same whatever was typed there |
| ClientsPage.TargetAccount | client/src/pages/Clients.jsx:38 | none exactly when nothing is selected or no account has the selected id; otherwise an account of the list with that id |
| ClientsPage.RateEffect | client/src/pages/Clients.jsx:42-45 | the rate becomes '1' for a dollar job paid into a dollar account, is cleared when a conversion is needed, and is left alone otherwise |
| ClientsPage.OpenPayModal | client/src/pages/Clients.jsx:76-81 | opening selects the job and the first account (none without accounts) and sets the rate to '1' unless a conversion is needed, in which case the rate field is cleared |
| ClientsPage.RateSent | client/src/pages/Clients.jsx:89 | an empty rate field sends 1, a typed one its value |
| ClientsPage.JobPayRequest | client/src/pages/Clients.jsx:87-90 | the request names the selected account and the rate sent |
| ClientsPage.TotalToReceive | client/src/pages/Clients.jsx:98-102 | the preview is amount × rate when a conversion is needed and a rate is typed, the raw amount otherwise, 0 without a job |
| ClientsPage.PesoJobNeverConverts | client/src/pages/Clients.jsx:39-40 | a peso job never needs a conversion nor counts as direct dollars, so its preview is its own amount |
| ClientsPage.RunKeepsRate | client/src/pages/Clients.jsx:42-45 | `Run` applies `Step` per action (an opening as at lines 76-81, an account choice, a typed rate); after any sequence of openings, account choices and typed rates, the rate is '1' unless a conversion is needed, and never negative |
| ClientsPage.PreviewMatchesCredit | client/src/pages/Clients.jsx:98-102 | after any such sequence, the previewed amount is what pay_job credits for the request the dialog sends |
| ClientsPage.PendingIsUnpaidSum | client/src/pages/Clients.jsx:96 | `PendingAmount`, the pending total, is the sum of the amounts of the unpaid jobs only |
| ClientsPage.CollectLowersPending | client/src/pages/Clients.jsx:96 | collecting an unpaid job lowers the pending total by exactly its amount |
| GoalsPage.Percentage | client/src/pages/Goals.jsx:82 | exactly current / target × 100 while that is below 100, and 100 from there on; not negative for a positive target and a non-negative saving |
| GoalsPage.CompletedIffReached | client/src/pages/Goals.jsx:83 | with a positive target, `IsCompleted` holds exactly when the saving has reached the target |
| GoalsPage.OpenDepositModal | client/src/pages/Goals.jsx:51-56 | a goal that reached its target leaves the page unchanged; otherwise the dialog opens on it with an empty form |
| GoalsPage.RefusedIffCompleted | client/src/pages/Goals.jsx:52 | with a positive target the dialog opens exactly for goals that are not completed |
| GoalsPage.DepositAccounts | client/src/pages/Goals.jsx:161 | the offered accounts are exactly those in the goal's currency |
| GoalsPage.DepositRequest | client/src/pages/Goals.jsx:61-64 | the request carries the chosen account and the typed amount |
| GoalsPage.OfferedAccountsMatch | client/src/pages/Goals.jsx:161 | an offered account never draws the currency-mismatch error, and the deposit passes exactly when the account's balance covers the amount |
| MonthlyBuckets.BucketCoversAmounts | client/src/components/FinancialCharts.jsx:67-70 | in every bucket, income plus spending is the sum of the sizes of that month's amounts, and neither is negative |
| MonthlyBuckets.AbsentKeyEmpty | client/src/components/FinancialCharts.jsx:67 | a month with no entry has an empty bucket |
| MonthlyBuckets.Group | client/src/components/FinancialCharts.jsx:61-71 | the loop builds one bucket per month key that occurs, each holding that month's positive amounts as income and the sizes of the others as spending, and lists each key once |
| MonthlyBuckets.SortByName | client/src/components/FinancialCharts.jsx:75 | the buckets rearranged in ascending key order |
| MonthlyBuckets.LastN | client/src/components/FinancialCharts.jsx:76 | `slice(-n)`: the last min(n, length) elements |
| MonthlyBuckets.LatestKept | client/src/components/FinancialCharts.jsx:74-76 | the kept buckets are still ascending and every dropped bucket's key is before every kept one |
| MonthlyBuckets.Series | client/src/components/FinancialCharts.jsx:60-77 | the result is the last (at most 6) buckets of all the months in ascending key order, each holding its month's income and spending |
| MonthlyBuckets.HistoryKey | client/src/components/FinancialCharts.jsx:64-65 | the month key is the date's first 7 characters, or "Sin fec" for a missing date |
| MonthlyBuckets.HistoryData | client/src/components/FinancialCharts.jsx:60-77 | the history chart's series, keyed by HistoryKey |
| MonthlyBuckets.EvolutionKey | client/src/pages/Analytics.jsx:49 | the month key is the date's first 7 characters, or "Sin Fecha" for a missing date |
| MonthlyBuckets.MonthlyEvolution | client/src/pages/Analytics.jsx:46-55 | the evolution series, keyed by EvolutionKey, last 6 months ascending |
| FinancialCharts.SpendIsExpenses | client/src/components/FinancialCharts.jsx:7-11 | `CategorySpend`, a category's value, is the size of its negative entries only, never negative, and positive exactly when it has an expense |
| FinancialCharts.AllSlices | client/src/components/FinancialCharts.jsx:7-11 | one slice per category, in category order, with its name and value |
| FinancialCharts.CategoryChart | client/src/components/FinancialCharts.jsx:12 | exactly the slices of AllSlices with a positive value, each as often as there, in category order, never more than the categories |
| FinancialCharts.SliceIffExpense | client/src/components/FinancialCharts.jsx:7-12 | a category gets a slice exactly when it has an expense |
| Analytics.PaidPlusPending | client/src/pages/Analytics.jsx:59 | `PaidTotal`, a client's collected total, plus its pending total is all its work |
| Analytics.CollectRaisesPaid | client/src/pages/Analytics.jsx:59 | collecting an unpaid job raises the collected total by its amount |
| Analytics.Rows | client/src/pages/Analytics.jsx:58-61 | one row per client, in order, with its name and the amount of its paid jobs |
| Analytics.SortDesc | client/src/pages/Analytics.jsx:62 | the rows rearranged with the highest totals first |
| Analytics.TopClients | client/src/pages/Analytics.jsx:57-64 | min(5, clients) rows, highest first, drawn from the clients' rows without repeating any, and no client left out has collected more than any client kept |
| Analytics.MonthlyExpensesAreSizes | client/src/pages/Analytics.jsx:69-71 | `MonthlyExpenses`, the month's spending, is the sum of the sizes of its dated outflows |
| Analytics.CostStructure | client/src/pages/Analytics.jsx:66-77 | the subscriptions share is all the prices; the variable share is never negative, is the rest of the month's spending when that exceeds the prices and 0 otherwise |
| Analytics.SubscriptionShareMixesCurrencies | client/src/pages/Analytics.jsx:67 | the subscriptions share adds the peso total and the dollar total shown on the subscriptions page |
| Dashboard.CurrencyOf | client/src/pages/Dashboard.jsx:67-70 | an entry takes the currency of the first account with its account id, and pesos when there is none |
| Dashboard.Enriched | client/src/pages/Dashboard.jsx:67-70 | every entry, in order, with its currency |
| Dashboard.Monthly | client/src/pages/Dashboard.jsx:72 | exactly the dated entries whose date starts with the month key, each as often as in the ledger and in ledger order |
| Dashboard.EmptyDateNeverInMonth | client/src/pages/Dashboard.jsx:64 | for a real month key an undated entry would not match anyway |
| Dashboard.BalanceTotalsCover | client/src/pages/Dashboard.jsx:74-75 | `BalanceTotal`: each balance card counts the balances of its currency only, and with peso and dollar accounts only the two cards hold all the money |
| Dashboard.IncomeIsPositives | client/src/pages/Dashboard.jsx:77-78 | `Income` is the sum of the currency's positive amounts, never negative |
| Dashboard.ExpenseIsSizes | client/src/pages/Dashboard.jsx:79-80 | `Expense` is the sum of the sizes of the currency's negative amounts, never negative |
| Dashboard.NetMovement | client/src/pages/Dashboard.jsx:77-80 | zero amounts count in neither card: income minus expense is the currency's net movement |
| Dashboard.IncomePositiveIff | client/src/pages/Dashboard.jsx:77-78 | income is positive exactly when the currency has an income entry |
| Dashboard.ExpensePositiveIff | client/src/pages/Dashboard.jsx:79-80 | expense is positive exactly when the currency has an outflow |
| SubscriptionsPage.TotalIsGuardedSum | client/src/pages/Subscriptions.jsx:56-57 | `TotalIn`, a currency's total, counts the prices of that currency and no other |
| SubscriptionsPage.TotalsCoverAll | client/src/pages/Subscriptions.jsx:56-57 | with peso and dollar subscriptions only, the two totals together are all the prices |
| SubscriptionsPage.TotalAfterAdding | client/src/pages/Subscriptions.jsx:56-57 | a new subscription raises its own currency's total by its price and leaves the other alone |
| SubscriptionsPage.CardIdField | client/src/pages/Subscriptions.jsx:38 | an empty selection is sent as null; anything sent is a non-negative integer read from a field that starts with a digit |
| SubscriptionsPage.SelectedCardReadsBack | client/src/pages/Subscriptions.jsx:38 | a card picked from the select is sent as its own id |
| SubscriptionsPage.SubscriptionRequest | client/src/pages/Subscriptions.jsx:34-39 | the request carries the form's name, price, currency and billing day and the normalised card id |
| SubscriptionsPage.PickedCardIsCharged | client/src/pages/Subscriptions.jsx:38 | a picked card makes the backend add the card charge exactly when its id is not 0; an empty selection never does |
| SubscriptionsPage.CardName | client/src/pages/Subscriptions.jsx:73 | "Sin tarjeta" when no card has the subscription's card id; otherwise the name of the first such card, unless that name is empty |
| TransactionModal.InitialForm | client/src/components/TransactionModal.jsx:5-12 | a new form is an expense dated today with every other field empty |
| TransactionModal.OpenEffect | client/src/components/TransactionModal.jsx:19-26 | an open dialog with accounts and categories and no account picked selects the first account and the first category; otherwise the form is unchanged |
| TransactionModal.IsUSD | client/src/components/TransactionModal.jsx:15-16 | the badge shows exactly when the first account matching the selection (loosely, so empty matches id 0) is in dollars |
| TransactionModal.NoDollarAccountNoBadge | client/src/components/TransactionModal.jsx:15-16 | without dollar accounts the badge never shows |
| TransactionModal.FinalAmount | client/src/components/TransactionModal.jsx:34 | an expense is never positive, an income never negative, and the size is the typed size |
| TransactionModal.SignIsTheType | client/src/components/TransactionModal.jsx:34 | the typed sign never matters, and applying the rule twice changes nothing |
| TransactionModal.FinalAmountUnique | client/src/components/TransactionModal.jsx:34 | a non-zero amount with the type's sign and the typed size is the one the rule produces |
| TransactionModal.HandleSubmit | client/src/components/TransactionModal.jsx:30-39 | refused with "Falta categoría" exactly when no category is selected; otherwise the signed amount is submitted with the form's other fields and only the amount and description are cleared |
| TransactionModal.NextSubmissionKeepsContext | client/src/components/TransactionModal.jsx:38 | after a submission the next one passes the guard and keeps account, category, date and type |
| TransactionModal.TransactionRequest | client/src/pages/Dashboard.jsx:47-55 | the body posted to the backend carries the submission's amount, category, account, text and date |
| TransactionModal.PostedSignFollowsType | client/src/components/TransactionModal.jsx:34-35 | an expense entered in the dialog is posted as a non-positive amount and an income as a non-negative one, of the typed size |

## Left out

- Rendering, styling, toasts, modal flags and the React state wiring: the page state that matters is a value, and each effect is applied right after the action that triggers it (`ClientsPage.Step`).
- ClientsPage.Step: every opening and every account choice applies the rate effect, while React runs it only when the job, the account or the two flags changed; reopening a dollar job on the same peso account leaves the page's rate at '1' where the model clears it.
- A single id counter (`nextId`) numbers the rows of every table; the database keeps one sequence per table. Ids are only compared for equality, so nothing proved depends on it.
- HTTP calls, routing, the database session, seeding and authentication: the handlers work on an in-memory `FinanceStore`; a failed request and its retry are not modelled.
- Atomicity and races: the card payment and the ledger writes of the client span separate requests, and nothing prevents paying a card month twice; the model adds no such guard.
- JavaScript `Date`: parsing, time zones, `toISOString` and the month arithmetic of `changeMonth` are not modelled; purchase months come from a `Date` value, the viewed and current month keys are parameters.
- IEEE floating point: amounts and rates are exact reals, so no rounding is modelled. `parseFloat` of a non-numeric text (NaN) is not modelled except for the card id.
- GoalsPage.Percentage: requires a non-zero target; JavaScript gives Infinity or NaN for a zero target.
- `localeCompare` is modelled as code-point order of the keys (`LexLt`), which agrees with it for "YYYY-MM" keys.
- `Object.values` lists integer-like keys first; the month keys are not integer-like, so insertion order (which the sort then erases) is kept.
- Analytics.TopClients: does not state that clients with equal totals keep their order (the source's sort is stable); it states the kept set and its order by total only.
- Analytics.CostStructure: adds subscription prices of every currency to one peso figure, as the source does; the mixed sum is stated, not corrected.
- ClientsPage.PreviewMatchesCredit: holds for peso and dollar accounts, accounts picked from the select, rates that are not negative and jobs whose amount is not negative; for a negative amount the backend credits its size.
- CardStatement.ConfirmPayment: requires a rate whenever dollars are due, because the form's rate field is then required.
- Form fields the browser requires (`required` inputs) are preconditions: CardStatement.ExpenseRequest, GoalsPage.DepositRequest, SubscriptionsPage.SubscriptionRequest, TransactionModal.TransactionRequest and ClientsPage.JobPayRequest.
- The number of installments is stored as typed (`parseInt` of the field is not modelled).
- The ledger texts (`Memo`) are structured values; the number formatting of the texts the backend writes is not modelled.
- The account lookup in `IsUSD` keeps the loose `==` of the source (an empty field matches id 0) but no other string-to-number coercion.
- `backend/models.py` and `backend/schemas.py` give the fields of the records and request bodies only; the response schemas are not modelled.
- The user id of the rows, and the endpoints that only list or create rows without rules (cards, clients, jobs, goals, categories), are not modelled.

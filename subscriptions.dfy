/** The subscriptions page (client/src/pages/Subscriptions.jsx): the fixed
    monthly totals per currency, the request the creation form sends, and the
    card name shown on each subscription. */
module SubscriptionsPage {
  import opened Common
  import opened Records
  import opened Store

  function Price(s: Subscription): real { s.price }

  function SubIn(cur: Currency): Subscription -> bool
  {
    (s: Subscription) => s.currency == cur
  }

  function PriceIn(cur: Currency): Subscription -> real
  {
    (s: Subscription) => if s.currency == cur then s.price else 0.0
  }

  /** The prices of the subscriptions in one currency, added up. */
  function TotalIn(subs: seq<Subscription>, cur: Currency): real
  {
    Sum(Filter(subs, SubIn(cur)), Price)
  }

  /** A currency's total counts the prices of that currency and no other. */
  lemma {:induction false} TotalIsGuardedSum(subs: seq<Subscription>, cur: Currency)
    ensures TotalIn(subs, cur) == Sum(subs, PriceIn(cur))
  {
    SumFilter(subs, SubIn(cur), Price, PriceIn(cur));
  }

  /** With every subscription in pesos or dollars, the two totals together
      are all the prices. */
  lemma {:induction false} TotalsCoverAll(subs: seq<Subscription>)
    requires forall s :: s in subs ==> s.currency == ARS || s.currency == USD
    ensures TotalIn(subs, ARS) + TotalIn(subs, USD) == Sum(subs, Price)
  {
    TotalIsGuardedSum(subs, ARS);
    TotalIsGuardedSum(subs, USD);
    forall s | s in subs ensures Price(s) == PriceIn(ARS)(s) + PriceIn(USD)(s) { }
    SumSplit(subs, PriceIn(ARS), PriceIn(USD), Price);
  }

  /** Adding a subscription raises its own currency's total by its price
      and leaves the other currency's total alone. */
  lemma {:induction false} TotalAfterAdding(subs: seq<Subscription>, s: Subscription, cur: Currency)
    ensures TotalIn(subs + [s], cur) == TotalIn(subs, cur) + (if s.currency == cur then s.price else 0.0)
  {
    TotalIsGuardedSum(subs, cur);
    TotalIsGuardedSum(subs + [s], cur);
    SumAppend(subs, [s], PriceIn(cur));
    SumSingleton(s, PriceIn(cur));
  }

  /** The card id sent with a new subscription. An empty select is
      null; a text that is not a number parses to NaN, which travels as null
      in the JSON body too. */
  function CardIdField(field: string): (r: Option<int>)
    ensures field == "" ==> r.None?
    ensures r.Some? ==> r.value >= 0 && |field| > 0 && IsDigit(field[0])
  {
    if field == "" then None
    else match ParseInt(field)
      case None => None
      case Some(n) => Some(n)
  }

  /** The select's options carry the cards' ids, which read back unchanged. */
  lemma SelectedCardReadsBack(id: nat)
    ensures CardIdField(NatToString(id)) == Some(id)
  {
    ParseIntRoundTrip(id);
  }

  /** The creation form; the number fields are required by the form, so they
      hold a value whenever it can be submitted. */
  datatype SubscriptionForm = SubscriptionForm(name: string, price: Option<real>, currency: Currency,
                                               billingDay: Option<int>, cardField: string)

  /** The form as it starts and as it is reset: every field empty, pesos. */
  const EmptyForm: SubscriptionForm := SubscriptionForm("", None, ARS, None, "")

  /** handleCreateSub's request body. */
  function SubscriptionRequest(f: SubscriptionForm): (sub: SubscriptionCreate)
    requires f.price.Some? && f.billingDay.Some?
    ensures sub.name == f.name && sub.price == f.price.value && sub.currency == f.currency
    ensures sub.billingDay == f.billingDay.value
    ensures sub.cardId == CardIdField(f.cardField)
  {
    SubscriptionCreate(f.name, f.price.value, f.currency, f.billingDay.value, CardIdField(f.cardField))
  }

  /** A card picked from the select makes the backend add the recurring card
      purchase exactly when its id is not 0; an empty select never does. */
  lemma PickedCardIsCharged(f: SubscriptionForm, id: nat)
    requires f.price.Some? && f.billingDay.Some?
    ensures f.cardField == NatToString(id) ==> (ChargesCard(SubscriptionRequest(f)) <==> id != 0)
    ensures f.cardField == "" ==> !ChargesCard(SubscriptionRequest(f))
  {
    SelectedCardReadsBack(id);
  }

  function CardIdIs(cardId: Option<int>): CreditCard -> bool
  {
    (c: CreditCard) => cardId == Some(c.id)
  }

  /** The label shown when a subscription has no card to show. */
  const NoCard: string := "Sin tarjeta"

  /** The card shown beside a subscription: the
      name of the first card with the subscription's id, unless there is no
      such card or its name is empty. */
  function CardName(sub: Subscription, cards: seq<CreditCard>): (r: string)
    ensures (forall c :: c in cards ==> sub.cardId != Some(c.id)) ==> r == NoCard
    ensures r != NoCard ==> exists c :: c in cards && sub.cardId == Some(c.id) && c.name == r
    ensures r != NoCard ==> r != ""
    ensures forall i ::
              (0 <= i < |cards| && sub.cardId == Some(cards[i].id) && cards[i].name != ""
               && forall j :: 0 <= j < i ==> sub.cardId != Some(cards[j].id))
              ==> r == cards[i].name
  {
    match FindFirst(cards, CardIdIs(sub.cardId))
    case None => NoCard
    case Some(i) => if cards[i].name != "" then cards[i].name else NoCard
  }
}

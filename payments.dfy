/**
 * The payment service (src/payments/payments.service.ts): creating a payment
 * record and its checkout URL, the provider webhook that settles a payment and
 * unlocks the Pro subscription, and the read-only queries.
 *
 * The database is a `Store` value: the payments table keyed by id, the set of
 * users whose Pro subscription is active, and the table's autoincrement
 * counter. The functions ending in `Step` say what each operation does to a
 * store; `PaymentsService` holds the tables in fields and its methods update
 * them in place, proved equal to those steps.
 */
module Payments {
  import opened Wrappers
  import opened Text

  datatype Provider = Stripe | Yookassa

  /** `OtherStatus` stands for every value of the status enum besides the three
      the service names; it is a single value, so it cannot spell one of them. */
  datatype PaymentStatus = Pending | Success | Failed | OtherStatus

  /** A row of the payments table. The amount is kept as an integer. */
  datatype Payment = Payment(
    id: int, userId: int, amount: int, currency: string,
    provider: Provider, status: PaymentStatus, createdAt: int)

  /** A request to create a payment; an absent or empty currency means RUB. */
  datatype CreatePaymentDto = CreatePaymentDto(
    userId: int, amount: int, currency: Option<string>, provider: Provider)

  datatype PaymentResult = PaymentResult(paymentId: int, paymentUrl: Option<string>, status: PaymentStatus)

  /** The BadRequestException the service raises, with its message. */
  datatype Error = BadRequest(message: string)

  datatype Result<T> = Ok(value: T) | Err(error: Error)

  const CreateFailedMessage: string := "Не удалось создать платеж"
  const NotFoundMessage: string := "Платеж не найден"
  const DefaultCurrency: string := "RUB"

  /** `dto.currency || 'RUB'`. */
  function CurrencyOrDefault(currency: Option<string>): string {
    if IsSet(currency) then currency.value else DefaultCurrency
  }

  /** The payments table, the users with an active Pro subscription, and the
      next id the table's autoincrement hands out. */
  datatype Store = Store(payments: map<int, Payment>, proUsers: set<int>, nextId: int)

  /** Ids are positive, below the counter, and stored in their rows. */
  ghost predicate WellFormed(s: Store) {
    && s.nextId >= 1
    && forall id :: id in s.payments ==> 1 <= id < s.nextId && s.payments[id].id == id
  }

  /** What an operation returns (or raises) and the store it leaves. */
  datatype Step<T> = Step(result: Result<T>, after: Store)

  // ---------------------------------------------------------------------------
  // Checkout URLs

  const StripeCheckoutPrefix: string := "https://checkout.stripe.com/pay/mock_"
  const YookassaCheckoutPrefix: string := "https://yoomoney.ru/checkout/mock_"
  const MockCheckoutPrefix: string := "https://mock-payment.com/pay/"

  /** Which branch of createPayment produces the URL. */
  datatype Route = StripeRoute | YookassaRoute | MockRoute

  /** A provider is called only when it is the chosen one and its key is set;
      every other case takes the mock URL. */
  function RouteFor(provider: Provider, stripeKey: Option<string>, yookassaKey: Option<string>): (r: Route)
    ensures r == StripeRoute <==> provider == Stripe && IsSet(stripeKey)
    ensures r == YookassaRoute <==> provider == Yookassa && IsSet(yookassaKey)
  {
    if provider == Stripe && IsSet(stripeKey) then StripeRoute
    else if provider == Yookassa && IsSet(yookassaKey) then YookassaRoute
    else MockRoute
  }

  /** `url` is `prefix` followed by the decimal digits of `id`: digits that
      read back as `id`, with no leading zero. */
  predicate CarriesId(url: string, prefix: string, id: int) {
    && |prefix| < |url| && url[..|prefix|] == prefix
    && AllDigits(url[|prefix|..]) && DecimalValue(url[|prefix|..]) == id
    && (|url| > |prefix| + 1 ==> url[|prefix|] != '0')
  }

  /** Writing `${id}` after a prefix gives a URL that carries the id. */
  lemma IdAfterPrefix(prefix: string, id: nat)
    ensures CarriesId(prefix + NatToString(id), prefix, id)
  {
    var url := prefix + NatToString(id);
    assert url[..|prefix|] == prefix && url[|prefix|..] == NatToString(id);
    DecimalValueOfNatToString(id);
  }

  /** createStripePayment: the Stripe checkout URL of a payment. */
  function CreateStripePayment(payment: Payment): (url: string)
    requires payment.id >= 0
    ensures CarriesId(url, StripeCheckoutPrefix, payment.id)
  {
    IdAfterPrefix(StripeCheckoutPrefix, payment.id);
    StripeCheckoutPrefix + NatToString(payment.id)
  }

  /** createYookassaPayment: the YooKassa checkout URL of a payment. */
  function CreateYookassaPayment(payment: Payment): (url: string)
    requires payment.id >= 0
    ensures CarriesId(url, YookassaCheckoutPrefix, payment.id)
  {
    IdAfterPrefix(YookassaCheckoutPrefix, payment.id);
    YookassaCheckoutPrefix + NatToString(payment.id)
  }

  /** The URL of the development fallback. */
  function MockPaymentUrl(payment: Payment): (url: string)
    requires payment.id >= 0
    ensures CarriesId(url, MockCheckoutPrefix, payment.id)
  {
    IdAfterPrefix(MockCheckoutPrefix, payment.id);
    MockCheckoutPrefix + NatToString(payment.id)
  }

  /** The URL the branch `route` produces for a payment. */
  function PaymentUrl(route: Route, payment: Payment): (url: string)
    requires payment.id >= 0
    ensures CarriesId(url, CheckoutPrefix(route), payment.id)
  {
    match route
    case StripeRoute => CreateStripePayment(payment)
    case YookassaRoute => CreateYookassaPayment(payment)
    case MockRoute => MockPaymentUrl(payment)
  }

  /** The fixed part of the checkout URL each branch produces, before the id. */
  function CheckoutPrefix(route: Route): (prefix: string)
    ensures |prefix| > 8
  {
    match route
    case StripeRoute => StripeCheckoutPrefix
    case YookassaRoute => YookassaCheckoutPrefix
    case MockRoute => MockCheckoutPrefix
  }

  /** A checkout URL names its branch and its payment: two payments never share
      a URL, whatever branches produced them. */
  lemma {:induction false} PaymentUrlIdentifiesPayment(r1: Route, p1: Payment, r2: Route, p2: Payment)
    requires p1.id >= 0 && p2.id >= 0
    requires PaymentUrl(r1, p1) == PaymentUrl(r2, p2)
    ensures r1 == r2 && p1.id == p2.id
  {
    var u := PaymentUrl(r1, p1);
    CharOfPrefix(u, CheckoutPrefix(r1), p1.id, 8);
    CharOfPrefix(u, CheckoutPrefix(r2), p2.id, 8);
    PrefixesDiffer(r1, r2);
    SameUrlSameId(u, CheckoutPrefix(r1), p1.id, p2.id);
  }

  /** The three prefixes already differ at index 8. */
  lemma PrefixesDiffer(r1: Route, r2: Route)
    ensures CheckoutPrefix(r1)[8] == CheckoutPrefix(r2)[8] ==> r1 == r2
  {
    assert StripeCheckoutPrefix[8] == 'c' && YookassaCheckoutPrefix[8] == 'y' && MockCheckoutPrefix[8] == 'm';
  }

  /** A URL that carries an id begins with its prefix, character by character. */
  lemma CharOfPrefix(url: string, prefix: string, id: int, k: nat)
    requires CarriesId(url, prefix, id) && k < |prefix|
    ensures url[k] == prefix[k]
  {
    assert url[k] == url[..|prefix|][k];
  }

  /** One URL after one prefix carries one id. */
  lemma SameUrlSameId(url: string, prefix: string, id1: int, id2: int)
    requires CarriesId(url, prefix, id1) && CarriesId(url, prefix, id2)
    ensures id1 == id2
  {
  }

  // ---------------------------------------------------------------------------
  // createPayment

  /** createPayment: insert a PENDING row under the next id, then ask the
      chosen provider (or the mock) for a URL. `providerRejects` says whether
      the provider call fails; the row then becomes FAILED and the call
      raises. The mock branch calls no provider and cannot fail. */
  function CreatePaymentStep(s: Store, stripeKey: Option<string>, yookassaKey: Option<string>,
                             dto: CreatePaymentDto, now: int, providerRejects: bool): (r: Step<PaymentResult>)
    requires WellFormed(s)
    ensures WellFormed(r.after)
    // exactly one new row, under a fresh id; nothing else changes
    ensures s.nextId !in s.payments && r.after.nextId == s.nextId + 1
    ensures r.after.payments.Keys == s.payments.Keys + {s.nextId}
    ensures |r.after.payments| == |s.payments| + 1
    ensures forall id :: id in s.payments ==> r.after.payments[id] == s.payments[id]
    ensures r.after.proUsers == s.proUsers
    // the new row carries the request
    ensures var p := r.after.payments[s.nextId];
      && p.userId == dto.userId && p.amount == dto.amount && p.provider == dto.provider
      && p.createdAt == now && p.currency == CurrencyOrDefault(dto.currency)
    // success: the new id, PENDING, and the URL of the chosen branch
    ensures var route := RouteFor(dto.provider, stripeKey, yookassaKey);
      r.result.Ok? <==> route == MockRoute || !providerRejects
    ensures r.result.Ok? ==>
      && r.result.value.paymentId == s.nextId
      && r.result.value.status == Pending
      && r.after.payments[s.nextId].status == Pending
      && r.result.value.paymentUrl ==
           Some(PaymentUrl(RouteFor(dto.provider, stripeKey, yookassaKey), r.after.payments[s.nextId]))
    // failure: the row is kept, marked FAILED, and the call raises
    ensures r.result.Err? ==>
      && r.result.error == BadRequest(CreateFailedMessage)
      && r.after.payments[s.nextId].status == Failed
  {
    var payment := Payment(s.nextId, dto.userId, dto.amount, CurrencyOrDefault(dto.currency),
                           dto.provider, Pending, now);
    var inserted := Store(s.payments[payment.id := payment], s.proUsers, s.nextId + 1);
    var route := RouteFor(dto.provider, stripeKey, yookassaKey);
    if route != MockRoute && providerRejects then
      Step(Err(BadRequest(CreateFailedMessage)),
           inserted.(payments := inserted.payments[payment.id := payment.(status := Failed)]))
    else
      Step(Ok(PaymentResult(payment.id, Some(PaymentUrl(route, payment)), payment.status)), inserted)
  }

  /** The URL a successfully created payment gets: Stripe's or YooKassa's
      checkout when that provider is chosen and its key is set, the mock page
      otherwise. */
  lemma PaymentUrlChoice(s: Store, stripeKey: Option<string>, yookassaKey: Option<string>,
                         dto: CreatePaymentDto, now: int, providerRejects: bool)
    requires WellFormed(s)
    ensures var r := CreatePaymentStep(s, stripeKey, yookassaKey, dto, now, providerRejects).result;
      var id := NatToString(s.nextId);
      r.Ok? ==>
      var url := r.value.paymentUrl;
      && (dto.provider == Stripe && IsSet(stripeKey) ==>
            url == Some("https://checkout.stripe.com/pay/mock_" + id))
      && (dto.provider == Yookassa && IsSet(yookassaKey) ==>
            url == Some("https://yoomoney.ru/checkout/mock_" + id))
      && (!(dto.provider == Stripe && IsSet(stripeKey)) && !(dto.provider == Yookassa && IsSet(yookassaKey)) ==>
            url == Some("https://mock-payment.com/pay/" + id))
  {
  }

  /** The Pro price when PRO_SUBSCRIPTION_PRICE is not configured. */
  const DefaultProPrice: int := 299

  /** The price createProSubscriptionPayment reads on each call: the configured
      setting, or the default when there is none. */
  function ProPrice(setting: Option<int>): (price: int)
    ensures setting.None? ==> price == DefaultProPrice
    ensures setting.Some? ==> price == setting.value
  {
    setting.GetOr(DefaultProPrice)
  }

  /** createProSubscriptionPayment: a payment of the configured price, in RUB,
      through YooKassa unless another provider is given. */
  function CreateProSubscriptionStep(s: Store, stripeKey: Option<string>, yookassaKey: Option<string>,
                                     proPrice: int, userId: int, provider: Option<Provider>,
                                     now: int, providerRejects: bool): (r: Step<PaymentResult>)
    requires WellFormed(s)
    ensures WellFormed(r.after)
    ensures r.after.payments.Keys == s.payments.Keys + {s.nextId}
    ensures var p := r.after.payments[s.nextId];
      && p.userId == userId && p.amount == proPrice && p.currency == DefaultCurrency
      && p.provider == (if provider.Some? then provider.value else Yookassa)
    ensures r == CreatePaymentStep(s, stripeKey, yookassaKey,
                                   CreatePaymentDto(userId, proPrice, Some(DefaultCurrency), provider.GetOr(Yookassa)),
                                   now, providerRejects)
  {
    CreatePaymentStep(s, stripeKey, yookassaKey,
                      CreatePaymentDto(userId, proPrice, Some(DefaultCurrency), provider.GetOr(Yookassa)),
                      now, providerRejects)
  }

  // ---------------------------------------------------------------------------
  // handlePaymentWebhook

  /** handlePaymentWebhook: an unknown id raises and changes nothing; a known
      one gets the new status, and a SUCCESS activates its owner's Pro
      subscription. The external id the provider sends is not used. */
  function HandlePaymentWebhookStep(s: Store, paymentId: int, status: PaymentStatus): (r: Step<()>)
    requires WellFormed(s)
    ensures WellFormed(r.after) && r.after.nextId == s.nextId
    ensures paymentId !in s.payments <==> r.result.Err?
    ensures paymentId !in s.payments ==> r.result.error == BadRequest(NotFoundMessage) && r.after == s
    // the payment gets the new status, and every other payment is left as it was
    ensures paymentId in s.payments ==>
      && r.after.payments.Keys == s.payments.Keys
      && r.after.payments[paymentId] == s.payments[paymentId].(status := status)
      && forall id :: id in s.payments && id != paymentId ==> r.after.payments[id] == s.payments[id]
    // Pro is activated for the owner exactly on SUCCESS, and never revoked
    ensures s.proUsers <= r.after.proUsers
    ensures paymentId in s.payments ==>
      var owner := s.payments[paymentId].userId;
      && (owner in r.after.proUsers <==> status == Success || owner in s.proUsers)
      && r.after.proUsers <= s.proUsers + {owner}
  {
    if paymentId !in s.payments then
      Step(Err(BadRequest(NotFoundMessage)), s)
    else
      var payment := s.payments[paymentId];
      var updated := s.(payments := s.payments[paymentId := payment.(status := status)]);
      if status == Success then
        Step(Ok(()), updated.(proUsers := updated.proUsers + {payment.userId}))
      else
        Step(Ok(()), updated)
  }

  /** A provider that repeats a webhook, SUCCESS included, changes nothing the
      second time. */
  lemma WebhookReplayIsIdempotent(s: Store, paymentId: int, status: PaymentStatus)
    requires WellFormed(s)
    ensures var first := HandlePaymentWebhookStep(s, paymentId, status);
      HandlePaymentWebhookStep(first.after, paymentId, status) == first
  {
    var first := HandlePaymentWebhookStep(s, paymentId, status);
    if paymentId in s.payments {
      assert first.after.payments[paymentId := first.after.payments[paymentId].(status := status)]
          == first.after.payments;
    }
  }

  /** A payment that has settled as SUCCESS leaves its owner with Pro whatever
      webhooks follow. */
  lemma ProSurvivesLaterWebhooks(s: Store, paymentId: int, laterId: int, laterStatus: PaymentStatus)
    requires WellFormed(s) && paymentId in s.payments
    ensures var first := HandlePaymentWebhookStep(s, paymentId, Success);
      s.payments[paymentId].userId in HandlePaymentWebhookStep(first.after, laterId, laterStatus).after.proUsers
  {
  }

  // ---------------------------------------------------------------------------
  // getPaymentById, getUserPayments

  /** getPaymentById: the row of that id, if any. */
  function PaymentById(s: Store, id: int): (r: Option<Payment>)
    requires WellFormed(s)
    ensures r.Some? <==> id in s.payments
    ensures r.Some? ==> r.value.id == id && s.payments[id] == r.value
  {
    if id in s.payments then Some(s.payments[id]) else None
  }

  /** `p` is a row of the table that belongs to `userId`. */
  predicate IsRowOf(payments: map<int, Payment>, userId: int, p: Payment) {
    p.id in payments && payments[p.id] == p && p.userId == userId
  }

  /** Newest first, by creation time. */
  predicate NewestFirst(ps: seq<Payment>) {
    forall i, j :: 0 <= i < j < |ps| ==> ps[i].createdAt >= ps[j].createdAt
  }

  /** The rows of `userId` among the ids lo..hi-1, each once. */
  function RowsOf(payments: map<int, Payment>, userId: int, lo: int, hi: int): (rows: seq<Payment>)
    requires forall id :: id in payments ==> payments[id].id == id
    decreases hi - lo
    ensures forall p :: multiset(rows)[p] == if lo <= p.id < hi && IsRowOf(payments, userId, p) then 1 else 0
  {
    if lo >= hi then []
    else
      var rest := RowsOf(payments, userId, lo + 1, hi);
      if lo in payments && payments[lo].userId == userId then [payments[lo]] + rest else rest
  }

  function InsertNewestFirst(p: Payment, ps: seq<Payment>): (r: seq<Payment>)
    requires NewestFirst(ps)
    ensures NewestFirst(r) && multiset(r) == multiset(ps) + multiset{p}
  {
    if ps == [] || p.createdAt >= ps[0].createdAt then [p] + ps
    else
      var tail := InsertNewestFirst(p, ps[1..]);
      HeadIsNewest(ps[0], ps[1..], p, tail);
      assert ps == [ps[0]] + ps[1..];
      [ps[0]] + tail
  }

  lemma HeadIsNewest(head: Payment, rest: seq<Payment>, p: Payment, tail: seq<Payment>)
    requires NewestFirst([head] + rest) && NewestFirst(tail)
    requires p.createdAt < head.createdAt
    requires multiset(tail) == multiset(rest) + multiset{p}
    ensures NewestFirst([head] + tail)
  {
    forall j | 0 <= j < |tail| ensures head.createdAt >= tail[j].createdAt {
      var q := tail[j];
      assert q in multiset(tail);
      if q != p {
        assert q in multiset(rest);
        var k :| 0 <= k < |rest| && rest[k] == q;
        assert ([head] + rest)[0] == head && ([head] + rest)[k + 1] == q;
      }
    }
  }

  function SortNewestFirst(ps: seq<Payment>): (r: seq<Payment>)
    ensures NewestFirst(r) && multiset(r) == multiset(ps)
  {
    if ps == [] then []
    else
      assert ps == [ps[0]] + ps[1..];
      InsertNewestFirst(ps[0], SortNewestFirst(ps[1..]))
  }

  /** getUserPayments: every row of the user exactly once, newest first. */
  function UserPayments(s: Store, userId: int): (r: seq<Payment>)
    requires WellFormed(s)
    ensures forall p :: multiset(r)[p] == if IsRowOf(s.payments, userId, p) then 1 else 0
    ensures NewestFirst(r)
  {
    SortNewestFirst(RowsOf(s.payments, userId, 1, s.nextId))
  }

  // ---------------------------------------------------------------------------
  // The service object

  class PaymentsService {
    var payments: map<int, Payment>
    var proUsers: set<int>
    var nextId: int
    const stripeKey: Option<string>
    const yookassaKey: Option<string>
    /** The PRO_SUBSCRIPTION_PRICE setting, if configured. */
    const proPriceSetting: Option<int>

    function State(): Store
      reads this
    {
      Store(payments, proUsers, nextId)
    }

    ghost predicate Valid()
      reads this
    {
      WellFormed(State())
    }

    constructor (stripeKey: Option<string>, yookassaKey: Option<string>, proPriceSetting: Option<int>, db: Store)
      requires WellFormed(db)
      ensures Valid() && State() == db
      ensures this.stripeKey == stripeKey && this.yookassaKey == yookassaKey
      ensures this.proPriceSetting == proPriceSetting
    {
      this.stripeKey := stripeKey;
      this.yookassaKey := yookassaKey;
      this.proPriceSetting := proPriceSetting;
      payments := db.payments;
      proUsers := db.proUsers;
      nextId := db.nextId;
    }

    method CreatePayment(dto: CreatePaymentDto, now: int, providerRejects: bool)
      returns (r: Result<PaymentResult>)
      requires Valid()
      modifies this
      ensures Valid()
      ensures Step(r, State()) == CreatePaymentStep(old(State()), stripeKey, yookassaKey, dto, now, providerRejects)
    {
      ghost var route := RouteFor(dto.provider, stripeKey, yookassaKey);
      var payment := Payment(nextId, dto.userId, dto.amount, CurrencyOrDefault(dto.currency),
                             dto.provider, Pending, now);
      payments := payments[payment.id := payment];
      nextId := nextId + 1;
      // None: the provider call rejected
      var paymentUrl: Option<string>;
      if dto.provider == Stripe && IsSet(stripeKey) {
        paymentUrl := if providerRejects then None else Some(CreateStripePayment(payment));
      } else if dto.provider == Yookassa && IsSet(yookassaKey) {
        paymentUrl := if providerRejects then None else Some(CreateYookassaPayment(payment));
      } else {
        paymentUrl := Some(MockPaymentUrl(payment));
      }
      assert paymentUrl == if route != MockRoute && providerRejects then None else Some(PaymentUrl(route, payment));
      if paymentUrl.None? {
        payments := payments[payment.id := payment.(status := Failed)];
        r := Err(BadRequest(CreateFailedMessage));
      } else {
        r := Ok(PaymentResult(payment.id, paymentUrl, payment.status));
      }
    }

    method HandlePaymentWebhook(paymentId: int, status: PaymentStatus, externalId: Option<string>)
      returns (r: Result<()>)
      requires Valid()
      modifies this
      ensures Valid()
      ensures Step(r, State()) == HandlePaymentWebhookStep(old(State()), paymentId, status)
    {
      if paymentId !in payments {
        return Err(BadRequest(NotFoundMessage));
      }
      var payment := payments[paymentId];
      payments := payments[paymentId := payment.(status := status)];
      if status == Success {
        proUsers := proUsers + {payment.userId};
      }
      r := Ok(());
    }

    method CreateProSubscriptionPayment(userId: int, provider: Option<Provider>, now: int, providerRejects: bool)
      returns (r: Result<PaymentResult>)
      requires Valid()
      modifies this
      ensures Valid()
      ensures Step(r, State()) ==
                CreateProSubscriptionStep(old(State()), stripeKey, yookassaKey, ProPrice(proPriceSetting),
                                          userId, provider, now, providerRejects)
    {
      var proPrice := ProPrice(proPriceSetting);
      r := CreatePayment(CreatePaymentDto(userId, proPrice, Some(DefaultCurrency), provider.GetOr(Yookassa)),
                         now, providerRejects);
    }
  }
}

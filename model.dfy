/**
 * What the two gateways and their REST clients share: the exceptions they
 * raise, the decoded PayWay responses, the outbound request, the Drupal
 * Commerce entities they read and write, the entity store, and the small
 * decisions both variants make the same way.
 */
module Model {
  import opened Php
  import opened Decimals
  import Base64
  import Uuid

  /** What the HTTP client (Guzzle behind an interface) may throw. */
  datatype Failure =
    | PaywayClientException  // \Drupal\commerce_payway\Exception\PaywayClientException
    | GuzzleException        // any other exception of the HTTP client: connection, 4xx/5xx, ...

  /** The exceptions the core raises or lets through. */
  datatype Exception =
    | MissingData(message: string)          // MissingDataException
    | InvalidArgument(message: string)      // \InvalidArgumentException
    | HardDecline(message: string)          // HardDeclineException
    | PaymentGatewayError(message: string)  // PaymentGatewayException
    | Transport(failure: Failure)           // thrown by the HTTP client and not caught
    | EngineError(message: string)          // a PHP engine \Error, which `catch (\Exception)` does not catch

  /** The end of a call that returns nothing: normal return, or an exception. */
  datatype Outcome = Done | Raised(error: Exception)

  datatype Result<T> = Ok(value: T) | Err(error: Exception)

  /** `paymentSetup.creditCard` of a decoded PayWay response. */
  datatype CreditCard = CreditCard(cardScheme: string, cardNumber: string, expiryDateMonth: int, expiryDateYear: int)

  /** A decoded PayWay JSON response body. */
  datatype ResponseBody = ResponseBody(
    status: string,
    transactionId: string,
    responseCode: string,
    responseText: string,
    customerNumber: string,
    creditCard: CreditCard)

  /** What the HTTP transport does with one request: answers it, or throws. */
  datatype Reply = Responds(body: ResponseBody) | Throws(failure: Failure)

  /** A form parameter value. */
  datatype Value = Text(s: string) | Number(n: int) | Amount(d: Decimal)

  type Form = map<string, Value>

  /** One request handed to the HTTP transport. */
  datatype Request = Request(
    verb: string,            // the HTTP method
    url: string,
    form: Form,
    authorization: string,   // the Authorization header
    idempotencyKey: string)  // the Idempotency-Key header

  /** The gateway plugin's configuration array. */
  datatype Configuration = Configuration(
    mode: string,
    merchantId: string,         // merchant_id
    apiUrl: string,             // api_url
    secretKeyTest: string,      // secret_key_test
    secretKey: string,          // secret_key
    publishableKeyTest: string, // publishable_key_test
    publishableKey: string)     // publishable_key

  /**
   * A payment method's expiry: a Unix timestamp (0 for "never"), or the
   * calendar day a reusable card's expiry was turned into.
   */
  datatype Expiry = Timestamp(t: int) | CardMonth(year: int, month: int, day: int)

  /** A commerce_payment_method entity with the payway card fields. */
  datatype PaymentMethod = PaymentMethod(
    id: nat,
    owner: Option<nat>,  // uid of the owner entity, None when there is none; uid 0 is the anonymous user
    remoteId: string,
    reusable: bool,
    expires: Expiry,
    isDefault: bool,
    cardType: Option<string>,   // payway_card_type
    cardNumber: Option<string>, // payway_card_number
    cardExpMonth: Option<int>,  // payway_card_exp_month
    cardExpYear: Option<int>)   // payway_card_exp_year

  /** A commerce_payment entity. */
  datatype Payment = Payment(
    id: nat,
    state: string,
    orderId: nat,
    methodId: Option<nat>,
    amount: Decimal,
    remoteId: string,
    authorizedTime: Option<int>,
    completedTime: Option<int>,
    capturedTime: Option<int>)

  /** A commerce_order entity, with the two references the gateways clear. */
  datatype Order = Order(
    id: nat,
    customerId: nat,
    balance: Decimal,
    paymentMethod: Option<nat>,    // payment_method
    paymentGateway: Option<string>) // payment_gateway

  /**
   * The `$payment_details` array: its string entries, and the `customer`
   * entry, the uid of the user account object when one is given.
   */
  datatype PaymentDetails = PaymentDetails(values: map<string, string>, customer: Option<nat>)

  /** How a gateway's createPayment ends once the processor has been asked. */
  datatype Verdict =
    | Approved(transactionId: string)  // update the payment
    | Declined(message: string)        // deletePayment, then HardDecline(message)
    | Escapes(error: Exception)        // the exception propagates, nothing is cleaned up

  /** Drupal's entity storage for the three entity types. */
  class Store {
    var payments: map<nat, Payment>
    var orders: map<nat, Order>
    var methods: map<nat, PaymentMethod>

    /** Every entity is stored under its own id, as `save()` files it. */
    ghost predicate Valid()
      reads this
    {
      (forall k :: k in payments ==> payments[k].id == k) &&
      (forall k :: k in orders ==> orders[k].id == k) &&
      (forall k :: k in methods ==> methods[k].id == k)
    }

    constructor (payments: map<nat, Payment>, orders: map<nat, Order>, methods: map<nat, PaymentMethod>)
      ensures this.payments == payments && this.orders == orders && this.methods == methods
    {
      this.payments, this.orders, this.methods := payments, orders, methods;
    }

    /** `$payment->getPaymentMethod()`: the referenced entity, NULL when unset or gone. */
    function MethodOf(p: Payment): (r: Option<PaymentMethod>)
      reads this
      ensures r.Some? <==> p.methodId.Some? && p.methodId.value in methods
      ensures r.Some? ==> r.value == methods[p.methodId.value]
    {
      if p.methodId.Some? && p.methodId.value in methods then Some(methods[p.methodId.value]) else None
    }

    method SavePayment(p: Payment)
      modifies this
      ensures old(Valid()) ==> Valid()
      ensures payments == old(payments)[p.id := p] && orders == old(orders) && methods == old(methods)
    {
      payments := payments[p.id := p];
    }

    method DeletePayment(id: nat)
      modifies this
      ensures old(Valid()) ==> Valid()
      ensures payments == old(payments) - {id} && orders == old(orders) && methods == old(methods)
    {
      payments := payments - {id};
    }

    method SaveOrder(o: Order)
      modifies this
      ensures old(Valid()) ==> Valid()
      ensures orders == old(orders)[o.id := o] && payments == old(payments) && methods == old(methods)
    {
      orders := orders[o.id := o];
    }

    method SaveMethod(m: PaymentMethod)
      modifies this
      ensures old(Valid()) ==> Valid()
      ensures methods == old(methods)[m.id := m] && payments == old(payments) && orders == old(orders)
    {
      methods := methods[m.id := m];
    }

    method DeleteMethod(id: nat)
      modifies this
      ensures old(Valid()) ==> Valid()
      ensures methods == old(methods) - {id} && payments == old(payments) && orders == old(orders)
    {
      methods := methods - {id};
    }
  }

  /** The order after deletePayment: both payment references set to NULL, nothing else touched. */
  function Detached(o: Order): (r: Order)
    ensures r.paymentMethod.None? && r.paymentGateway.None?
    ensures r.id == o.id && r.customerId == o.customerId && r.balance == o.balance
  {
    o.(paymentMethod := None, paymentGateway := None)
  }

  // ---------------------------------------------------------------------
  // Key selection by mode

  /** The fail-fast switch: the test or live key, MissingDataException for any other mode. */
  function SelectKey(mode: string, testKey: string, liveKey: string, message: string): (r: Result<string>)
    ensures r.Ok? <==> mode == "test" || mode == "live"
    ensures mode == "test" ==> r == Ok(testKey)
    ensures mode == "live" ==> r == Ok(liveKey)
    ensures r.Err? ==> r.error == MissingData(message)
  {
    match mode
    case "test" => Ok(testKey)
    case "live" => Ok(liveKey)
    case _ => Err(MissingData(message))
  }

  /** A key found by the lenient switch, and the error message it queued, if any. */
  datatype KeyLookup = KeyLookup(key: string, message: Option<string>)

  /** The lenient switch: the test or live key, '' plus an error message for any other mode. */
  function SelectKeyOrEmpty(mode: string, testKey: string, liveKey: string, message: string): (r: KeyLookup)
    ensures r.message.None? <==> mode == "test" || mode == "live"
    ensures mode == "test" ==> r.key == testKey
    ensures mode == "live" ==> r.key == liveKey
    ensures r.message.Some? ==> r.key == "" && r.message.value == message
  {
    match mode
    case "test" => KeyLookup(testKey, None)
    case "live" => KeyLookup(liveKey, None)
    case _ => KeyLookup("", Some(message))
  }

  /**
   * The two switches pick the same key whenever the mode is valid; where the
   * fail-fast one throws, the lenient one returns '' and reports the error.
   */
  lemma FallbackAgreesWithFailFast(mode: string, testKey: string, liveKey: string, strict: string, lenient: string)
    ensures var s, l := SelectKey(mode, testKey, liveKey, strict), SelectKeyOrEmpty(mode, testKey, liveKey, lenient);
      (s.Ok? ==> l == KeyLookup(s.value, None)) &&
      (s.Err? ==> l == KeyLookup("", Some(lenient)))
  {
  }

  // ---------------------------------------------------------------------
  // Pieces of the outbound request

  /** The bytes of a PHP string; each character of the model stands for one byte. */
  function Bytes(s: string): (b: seq<Base64.Byte>)
    ensures |b| == |s|
    ensures forall i :: 0 <= i < |s| ==> b[i] == s[i] as int % 256
  {
    seq(|s|, i requires 0 <= i < |s| => s[i] as int % 256)
  }

  /**
   * `'Basic ' . base64_encode($key)`: the Basic scheme of section 2 of
   * RFC 7617, whose credentials decode to the key alone, with no
   * `user-id ":"` prefix.
   */
  function BasicAuthorization(key: string): (h: string)
    ensures |h| >= 6 && h[..6] == "Basic "
    ensures Base64.Decode(h[6..]) == Some(Bytes(key))
  {
    var credentials := Base64.Encode(Bytes(key));
    Base64.DecodeEncode(Bytes(key));
    assert ("Basic " + credentials)[6..] == credentials;
    "Basic " + credentials
  }

  /** `customerNumber`: the owner's uid, or 'anonymous' without a non-anonymous owner. */
  function CustomerNumber(owner: Option<nat>): (r: Value)
    ensures r.Text? <==> owner.None? || owner.value == 0
    ensures r.Text? ==> r.s == "anonymous"
    ensures r.Number? ==> owner.Some? && r.n == owner.value
  {
    if owner.Some? && owner.value != 0 then Number(owner.value) else Text("anonymous")
  }

  const TransactionType := "payment"
  const Currency := "aud"

  /** The form parameters both clients' doRequest build for a payment, before any merchantId. */
  function TransactionParams(payment: Payment, paymentMethod: PaymentMethod, order: Order): (f: Form)
    ensures f.Keys == {"singleUseTokenId", "customerNumber", "transactionType", "principalAmount", "currency", "orderNumber"}
    ensures f["singleUseTokenId"] == Text(paymentMethod.remoteId)
    ensures f["customerNumber"] == CustomerNumber(paymentMethod.owner)
    ensures f["transactionType"] == Text("payment") && f["currency"] == Text("aud")
    ensures f["principalAmount"] == Amount(Round2(payment.amount))
    ensures f["orderNumber"] == Number(order.id)
  {
    map[
      "singleUseTokenId" := Text(paymentMethod.remoteId),
      "customerNumber" := CustomerNumber(paymentMethod.owner),
      "transactionType" := Text(TransactionType),
      "principalAmount" := Amount(Round2(payment.amount)),
      "currency" := Text(Currency),
      "orderNumber" := Number(order.id)]
  }

  /**
   * The requests a client has sent carry the values of the UUID service
   * in order: the i-th request was given the i-th generated value.
   */
  predicate KeyedByCounter(sent: seq<Request>)
  {
    forall i :: 0 <= i < |sent| ==> sent[i].idempotencyKey == Uuid.Uuid(i)
  }

  /** Sending one more request keyed with the next UUID keeps the requests keyed by the counter. */
  lemma KeyedByCounterExtend(sent: seq<Request>, q: Request)
    requires KeyedByCounter(sent) && q.idempotencyKey == Uuid.Uuid(|sent|)
    ensures KeyedByCounter(sent + [q])
  {
    var s := sent + [q];
    forall i | 0 <= i < |s|
      ensures s[i].idempotencyKey == Uuid.Uuid(i)
    {
      if i < |sent| {
        assert s[i] == sent[i];
      }
    }
  }

  /** With a UUID service that never repeats, no two requests share an Idempotency-Key. */
  lemma DistinctIdempotencyKeys(sent: seq<Request>, i: int, j: int)
    requires KeyedByCounter(sent)
    requires 0 <= i < |sent| && 0 <= j < |sent| && i != j
    ensures sent[i].idempotencyKey != sent[j].idempotencyKey
  {
    if sent[i].idempotencyKey == sent[j].idempotencyKey {
      Uuid.UuidInjective(i, j);
    }
  }

  /** The statuses both gateways accept as an approval. */
  predicate IsApproved(status: string)
  {
    status == "approved" || status == "approved*"
  }

  // ---------------------------------------------------------------------
  // Required payment details

  const TokenKey := "payment_credit_card_token"
  const RequiredKeys: seq<string> := [TokenKey]

  function MissingKeyMessage(key: string): string
  {
    "$payment_details must contain the " + key + " key."
  }

  /**
   * The `foreach ($required_keys ...)` of createPaymentMethod: the first
   * required key whose entry is empty raises InvalidArgumentException.
   */
  method CheckRequiredKeys(values: map<string, string>, required: seq<string>) returns (r: Outcome)
    ensures r == Done <==> forall i :: 0 <= i < |required| ==> !EmptyEntry(values, required[i])
    ensures r != Done ==>
      exists i :: 0 <= i < |required| && EmptyEntry(values, required[i]) &&
        r == Raised(InvalidArgument(MissingKeyMessage(required[i]))) &&
        (forall j :: 0 <= j < i ==> !EmptyEntry(values, required[j]))
  {
    for i := 0 to |required|
      invariant forall j :: 0 <= j < i ==> !EmptyEntry(values, required[j])
    {
      if EmptyEntry(values, required[i]) {
        return Raised(InvalidArgument(MissingKeyMessage(required[i])));
      }
    }
    return Done;
  }
}

/**
 * The REST client of the commerce_payway_frame gateway: one fixed
 * transaction request per call, authenticated with a key that falls back to
 * '' for an unknown mode.
 */
module FrameClient {
  import opened Php
  import opened Decimals
  import opened Model
  import PaywayClient

  const ApiUrl := "https://api.payway.com.au/rest/v1/transactions"
  const Method := "POST"
  const PrivateKeyMissing := "The private key is empty"

  /** The secret key by mode; '' and an error message for any other mode. */
  function GetSecretKey(c: Configuration): (r: KeyLookup)
    ensures r.message.None? <==> c.mode == "test" || c.mode == "live"
    ensures c.mode == "test" ==> r.key == c.secretKeyTest
    ensures c.mode == "live" ==> r.key == c.secretKey
    ensures r.message.Some? ==> r.key == "" && r.message.value == PrivateKeyMissing
  {
    SelectKeyOrEmpty(c.mode, c.secretKeyTest, c.secretKey, PrivateKeyMissing)
  }

  /**
   * The form of the transaction request: the method's token, the resolved
   * customer number, a payment in aud of the amount rounded to cents, the
   * order number and the configured merchant id.
   */
  function FrameForm(c: Configuration, payment: Payment, paymentMethod: PaymentMethod, order: Order): (f: Form)
    ensures f.Keys == {"singleUseTokenId", "customerNumber", "transactionType", "principalAmount", "currency", "orderNumber", "merchantId"}
    ensures f["singleUseTokenId"] == Text(paymentMethod.remoteId)
    ensures f["customerNumber"] == CustomerNumber(paymentMethod.owner)
    ensures f["transactionType"] == Text("payment") && f["currency"] == Text("aud")
    ensures f["principalAmount"] == Amount(Round2(payment.amount)) && RoundsTo2(payment.amount, Round2(payment.amount))
    ensures f["orderNumber"] == Number(order.id)
    ensures f["merchantId"] == Text(c.merchantId)
  {
    TransactionParams(payment, paymentMethod, order)["merchantId" := Text(c.merchantId)]
  }

  /** The request doRequest hands to the transport, as the n-th user of the UUID service. */
  function FrameRequest(c: Configuration, payment: Payment, paymentMethod: PaymentMethod, order: Order, n: nat): (q: Request)
    ensures q.verb == "POST" && q.url == ApiUrl
    ensures q.authorization == BasicAuthorization(GetSecretKey(c).key)
    ensures q.idempotencyKey == Uuid.Uuid(n)
  {
    Request(Method, ApiUrl, FrameForm(c, payment, paymentMethod, order), BasicAuthorization(GetSecretKey(c).key), Uuid.Uuid(n))
  }

  /**
   * The two clients build the same transaction: where the configured mode is
   * valid, the frame request differs from the one commerce_payway's doRequest
   * submits only in its URL.
   */
  lemma SameTransactionAsPaywayClient(c: Configuration, payment: Payment, paymentMethod: PaymentMethod, order: Order, n: nat)
    requires c.mode == "test" || c.mode == "live"
    ensures var key := SelectKey(c.mode, c.secretKeyTest, c.secretKey, PaywayClient.PrivateKeyMissing);
      var q := PaywayClient.Outbound(c, key.value, PaywayClient.Method, c.apiUrl, TransactionParams(payment, paymentMethod, order), n);
      key.Ok? && FrameRequest(c, payment, paymentMethod, order, n) == q.(url := ApiUrl)
  {
    var key := SelectKey(c.mode, c.secretKeyTest, c.secretKey, PaywayClient.PrivateKeyMissing);
    FallbackAgreesWithFailFast(c.mode, c.secretKeyTest, c.secretKey, PaywayClient.PrivateKeyMissing, PrivateKeyMissing);
    PaywayClient.DoRequestShape(c, key.value, payment, paymentMethod, order, n);
  }

  class Client {
    /** The last response received; None stands for the NULL `$response` before any. */
    var response: Option<ResponseBody>
    /** Every request handed to the transport, in order. */
    var sent: seq<Request>
    /** How many values the UUID service has generated. */
    var generated: nat

    ghost predicate Valid()
      reads this
    {
      |sent| == generated && KeyedByCounter(sent)
    }

    constructor ()
      ensures Valid()
      ensures response.None? && sent == []
    {
      response, sent, generated := None, [], 0;
    }

    /**
     * Sends the transaction request for the payment, the transport answering
     * with `reply`. A request always goes out, whatever the mode; the
     * response is replaced only when the transport answers.
     */
    method DoRequest(payment: Payment, paymentMethod: PaymentMethod, order: Order, c: Configuration, reply: Reply) returns (r: Outcome)
      requires Valid()
      modifies this
      ensures Valid()
      ensures sent == old(sent) + [FrameRequest(c, payment, paymentMethod, order, old(generated))]
      ensures reply.Responds? ==> r == Done && response == Some(reply.body)
      ensures reply.Throws? ==> r == Raised(Transport(reply.failure)) && response == old(response)
    {
      var request := FrameRequest(c, payment, paymentMethod, order, generated);
      KeyedByCounterExtend(sent, request);
      sent, generated := sent + [request], generated + 1;
      match reply
      case Responds(body) =>
        response := Some(body);
        return Done;
      case Throws(failure) =>
        return Raised(Transport(failure));
    }

    /**
     * The body of the last response. Before any response there is no object
     * to read it from, and PHP raises an engine error.
     */
    function GetResponse(): (r: Result<ResponseBody>)
      reads this
      ensures r.Ok? <==> response.Some?
      ensures r.Ok? ==> r.value == response.value
      ensures r.Err? ==> r.error.EngineError?
    {
      if response.Some? then Ok(response.value)
      else Err(EngineError("Call to a member function getBody() on null"))
    }
  }
}

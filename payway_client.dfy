/**
 * The REST client of the commerce_payway gateway: every request carries the
 * merchant id, Basic authentication with the secret key and a fresh
 * Idempotency-Key, and the last response is kept for the caller to read.
 */
module PaywayClient {
  import opened Php
  import opened Decimals
  import opened Model

  const Method := "POST"
  const PrivateKeyMissing := "The private key is empty."

  /** The merchantId entry submitRequest appends to the caller's parameters. */
  function MerchantEntry(c: Configuration): Form
  {
    map["merchantId" := Text(c.merchantId)]
  }

  /** The request submitRequest hands to the transport, as the n-th user of the UUID service. */
  function Outbound(c: Configuration, key: string, verb: string, path: string, params: Form, n: nat): (q: Request)
    ensures q.verb == verb && q.url == c.apiUrl + path
    ensures q.form == Union(params, MerchantEntry(c))
    ensures q.authorization == BasicAuthorization(key) && q.idempotencyKey == Uuid.Uuid(n)
  {
    Request(verb, c.apiUrl + path, Union(params, MerchantEntry(c)), BasicAuthorization(key), Uuid.Uuid(n))
  }

  /**
   * The form of an outbound request holds the caller's parameters unchanged,
   * and the configured merchant id only where the caller gave none.
   */
  lemma OutboundForm(c: Configuration, key: string, verb: string, path: string, params: Form, n: nat)
    ensures var f := Outbound(c, key, verb, path, params, n).form;
      f.Keys == params.Keys + {"merchantId"} &&
      (forall k :: k in params ==> f[k] == params[k]) &&
      ("merchantId" !in params ==> f["merchantId"] == Text(c.merchantId))
  {
  }

  /** The Authorization header of an outbound request carries the secret key alone. */
  lemma OutboundAuthorization(c: Configuration, key: string, verb: string, path: string, params: Form, n: nat)
    ensures var h := Outbound(c, key, verb, path, params, n).authorization;
      |h| >= 6 && h[..6] == "Basic " && Base64.Decode(h[6..]) == Some(Bytes(key))
  {
  }

  class Client {
    /** The configuration array; None until setConfiguration is called. */
    var configuration: Option<Configuration>
    /** The last response received; None stands for the NULL `$response` before any. */
    var response: Option<ResponseBody>
    /** Every request handed to the transport, in order. */
    var sent: seq<Request>
    /** How many values the UUID service has generated. */
    var generated: nat
    /** Every response body received, in order. */
    var answered: seq<ResponseBody>

    /**
     * Each request took the next UUID, and the stored response is the
     * body of the last answered request, NULL while none has been answered.
     */
    ghost predicate Valid()
      reads this
    {
      |sent| == generated && KeyedByCounter(sent) &&
      response == (if answered == [] then None else Some(answered[|answered| - 1]))
    }

    constructor ()
      ensures Valid()
      ensures configuration.None? && response.None? && sent == [] && answered == []
    {
      configuration, response, sent, generated, answered := None, None, [], 0, [];
    }

    /** The secret key for the configured mode; MissingDataException for any other mode. */
    function GetSecretKey(): (r: Result<string>)
      reads this
      ensures r.Ok? <==> configuration.Some? && (configuration.value.mode == "test" || configuration.value.mode == "live")
      ensures r.Ok? && configuration.value.mode == "test" ==> r.value == configuration.value.secretKeyTest
      ensures r.Ok? && configuration.value.mode == "live" ==> r.value == configuration.value.secretKey
      ensures r.Err? ==> r.error == MissingData(PrivateKeyMissing)
    {
      if configuration.None? then Err(MissingData(PrivateKeyMissing))
      else
        var c := configuration.value;
        SelectKey(c.mode, c.secretKeyTest, c.secretKey, PrivateKeyMissing)
    }

    /** The body of the last response; None (the empty string) before any. */
    function GetResponse(): (r: Option<ResponseBody>)
      requires Valid()
      reads this
      ensures r.None? <==> answered == []
      ensures r.Some? ==> r.value == answered[|answered| - 1]
    {
      response
    }

    /** Replaces the whole configuration used by later requests. */
    method SetConfiguration(c: Configuration)
      modifies this
      ensures configuration == Some(c)
      ensures response == old(response) && sent == old(sent) && generated == old(generated)
      ensures answered == old(answered)
    {
      configuration := Some(c);
    }

    /**
     * Builds and sends one request, the transport answering with `reply`.
     * Without a usable secret key nothing is sent and no UUID is consumed;
     * otherwise exactly one request goes out, and the response is replaced
     * only when the transport answers.
     */
    method SubmitRequest(verb: string, path: string, params: Form, reply: Reply) returns (r: Outcome)
      requires Valid()
      modifies this
      ensures Valid()
      ensures configuration == old(configuration)
      ensures GetSecretKey().Err? ==>
        r == Raised(GetSecretKey().error) &&
        sent == old(sent) && response == old(response)
      ensures GetSecretKey().Ok? ==>
        sent == old(sent) + [Outbound(configuration.value, GetSecretKey().value, verb, path, params, old(generated))]
      ensures answered == (if GetSecretKey().Ok? && reply.Responds? then old(answered) + [reply.body] else old(answered))
      ensures GetSecretKey().Ok? && reply.Responds? ==> r == Done && response == Some(reply.body)
      ensures GetSecretKey().Ok? && reply.Throws? ==> r == Raised(Transport(reply.failure)) && response == old(response)
    {
      var key := GetSecretKey();
      if key.Err? {
        return Raised(key.error);
      }
      var request := Outbound(configuration.value, key.value, verb, path, params, generated);
      KeyedByCounterExtend(sent, request);
      sent, generated := sent + [request], generated + 1;
      assert GetSecretKey() == key;
      match reply
      case Responds(body) =>
        response, answered := Some(body), answered + [body];
        return Done;
      case Throws(failure) =>
        return Raised(Transport(failure));
    }

    /**
     * Charges the payment's single-use token. The path given to
     * submitRequest is api_url itself, so the URL is api_url twice over.
     */
    method DoRequest(payment: Payment, paymentMethod: PaymentMethod, order: Order, reply: Reply) returns (r: Outcome)
      requires Valid()
      modifies this
      ensures Valid()
      ensures configuration == old(configuration)
      ensures GetSecretKey().Err? ==>
        r == Raised(GetSecretKey().error) &&
        sent == old(sent) && response == old(response)
      ensures GetSecretKey().Ok? ==>
        var c := configuration.value;
        sent == old(sent) + [Outbound(c, GetSecretKey().value, Method, c.apiUrl, TransactionParams(payment, paymentMethod, order), old(generated))]
      ensures answered == (if GetSecretKey().Ok? && reply.Responds? then old(answered) + [reply.body] else old(answered))
      ensures GetSecretKey().Ok? && reply.Responds? ==> r == Done && response == Some(reply.body)
      ensures GetSecretKey().Ok? && reply.Throws? ==> r == Raised(Transport(reply.failure)) && response == old(response)
    {
      var path := if configuration.Some? then configuration.value.apiUrl else "";
      r := SubmitRequest(Method, path, TransactionParams(payment, paymentMethod, order), reply);
    }
  }

  /**
   * What doRequest sends: a POST to api_url . api_url whose form is the
   * transaction parameters plus the merchant id, with the amount rounded to
   * cents and the customer number resolved from the method's owner.
   */
  lemma DoRequestShape(c: Configuration, key: string, payment: Payment, paymentMethod: PaymentMethod, order: Order, n: nat)
    ensures var q := Outbound(c, key, Method, c.apiUrl, TransactionParams(payment, paymentMethod, order), n);
      q.verb == "POST" && q.url == c.apiUrl + c.apiUrl &&
      q.form == TransactionParams(payment, paymentMethod, order)["merchantId" := Text(c.merchantId)] &&
      q.form["principalAmount"] == Amount(Round2(payment.amount)) &&
      RoundsTo2(payment.amount, Round2(payment.amount)) &&
      q.form["customerNumber"] == CustomerNumber(paymentMethod.owner)
  {
    var p := TransactionParams(payment, paymentMethod, order);
    var f := Outbound(c, key, Method, c.apiUrl, p, n).form;
    assert f == p["merchantId" := Text(c.merchantId)] by {
      assert f.Keys == p["merchantId" := Text(c.merchantId)].Keys;
    }
  }
}

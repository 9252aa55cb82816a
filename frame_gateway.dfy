/**
 * The commerce_payway_frame payment gateway: a card tokenised in the browser
 * is kept for ten minutes and charged once through the frame REST client;
 * every refusal deletes the local payment.
 */
module FrameGateway {
  import opened Php
  import opened Decimals
  import opened Model
  import FrameClient

  const PublishableKeyMissing := "The public key id empty"
  const InvalidState := "The provided payment is in an invalid state."
  const NoPaymentMethod := "The provided payment has no payment method referenced."
  const Expired := "The provided payment method has expired"
  const RequestRefused := "The provided payment method has been refused"
  const Declined := "The provided payment method has been declined"
  /** How long a single-use token stays valid, in seconds. */
  const TokenLifetime := 10 * 60

  /**
   * How createPayment ends once the method is known not to have expired,
   * given how doRequest ended and what getResponse then returns. Every
   * exception from the client is a decline; only a PHP engine error, which
   * `catch (\Exception)` does not catch, escapes.
   */
  function Judge(submitted: Outcome, response: Result<ResponseBody>): (v: Verdict)
    ensures submitted.Raised? ==> v == Verdict.Declined(RequestRefused)
    ensures v.Escapes? <==> submitted == Done && response.Err?
    ensures v.Escapes? ==> v.error == response.error
    ensures v.Approved? <==> submitted == Done && response.Ok? && IsApproved(response.value.status)
    ensures v.Approved? ==> v.transactionId == response.value.transactionId
    ensures submitted == Done && response.Ok? && !IsApproved(response.value.status) ==> v == Verdict.Declined(Declined)
  {
    match submitted
    case Raised(_) => Verdict.Declined(RequestRefused)
    case Done =>
      match response
      case Err(e) => Escapes(e)
      case Ok(body) =>
        if IsApproved(body.status) then Approved(body.transactionId) else Verdict.Declined(Declined)
  }

  /** The payment as createPayment saves it after an approval. */
  function Settled(payment: Payment, capture: bool, transactionId: string, requestTime: int): (p: Payment)
    ensures p.state == (if capture then "capture_completed" else "authorization")
    ensures p.state != "new"
    ensures p.remoteId == transactionId && p.authorizedTime == Some(requestTime)
    ensures p.capturedTime == (if capture then Some(requestTime) else payment.capturedTime)
    ensures p.id == payment.id && p.orderId == payment.orderId && p.methodId == payment.methodId
    ensures p.amount == payment.amount && p.completedTime == payment.completedTime
  {
    var p := payment.(state := if capture then "capture_completed" else "authorization",
                      remoteId := transactionId, authorizedTime := Some(requestTime));
    if capture then p.(capturedTime := Some(requestTime)) else p
  }

  /** The method as createPaymentMethod saves it: a token that expires ten minutes after the request. */
  function ShortLived(paymentMethod: PaymentMethod, token: string, requestTime: int): (m: PaymentMethod)
    ensures m.expires == Timestamp(requestTime + 600) && !m.reusable && m.remoteId == token && !m.isDefault
    ensures m.id == paymentMethod.id && m.owner == paymentMethod.owner
    ensures m.cardType == paymentMethod.cardType && m.cardNumber == paymentMethod.cardNumber
    ensures m.cardExpMonth == paymentMethod.cardExpMonth && m.cardExpYear == paymentMethod.cardExpYear
  {
    paymentMethod.(expires := Timestamp(requestTime + TokenLifetime), reusable := false,
                   remoteId := token, isDefault := false)
  }

  class Gateway {
    const configuration: Configuration
    const client: FrameClient.Client

    constructor (configuration: Configuration, client: FrameClient.Client)
      ensures this.configuration == configuration && this.client == client
    {
      this.configuration := configuration;
      this.client := client;
    }

    /** The publishable key by mode; '' and an error message for any other mode. */
    function GetPublishableKey(): (r: KeyLookup)
      ensures r.message.None? <==> configuration.mode == "test" || configuration.mode == "live"
      ensures configuration.mode == "test" ==> r.key == configuration.publishableKeyTest
      ensures configuration.mode == "live" ==> r.key == configuration.publishableKey
      ensures r.message.Some? ==> r.key == "" && r.message.value == PublishableKeyMissing
    {
      SelectKeyOrEmpty(configuration.mode, configuration.publishableKeyTest, configuration.publishableKey, PublishableKeyMissing)
    }

    /**
     * Stores the tokenised card: a missing token is refused; otherwise the
     * method is saved as single-use, expiring ten minutes after the request.
     */
    method CreatePaymentMethod(store: Store, paymentMethod: PaymentMethod, details: PaymentDetails, requestTime: int)
      returns (r: Outcome)
      requires store.Valid()
      modifies store
      ensures store.Valid()
      ensures store.payments == old(store.payments) && store.orders == old(store.orders)
      ensures EmptyEntry(details.values, TokenKey) ==>
        r == Raised(InvalidArgument(MissingKeyMessage(TokenKey))) && store.methods == old(store.methods)
      ensures !EmptyEntry(details.values, TokenKey) ==>
        r == Done &&
        store.methods == old(store.methods)[paymentMethod.id := ShortLived(paymentMethod, details.values[TokenKey], requestTime)]
    {
      r := CheckRequiredKeys(details.values, RequiredKeys);
      assert RequiredKeys[0] == TokenKey;
      if r != Done {
        return;
      }
      assert !EmptyEntry(details.values, RequiredKeys[0]);
      store.SaveMethod(ShortLived(paymentMethod, details.values[TokenKey], requestTime));
    }

    /**
     * Charges the payment. A payment that is not new or has no payment
     * method is refused; an expired method, a client exception or a decline
     * deletes the payment and detaches the order before the
     * HardDeclineException; an approval records the transaction.
     * PHP's `capture` defaults to TRUE; a caller omitting it passes true here.
     */
    method CreatePayment(store: Store, payment: Payment, capture: bool, isExpired: bool, requestTime: int, reply: Reply)
      returns (r: Outcome)
      requires client.Valid() && store.Valid()
      requires payment.orderId in store.orders
      modifies store, client
      ensures client.Valid() && store.Valid()
      ensures payment.state != "new" ==>
        r == Raised(InvalidArgument(InvalidState)) &&
        client.sent == old(client.sent) && client.response == old(client.response) &&
        store.payments == old(store.payments) && store.orders == old(store.orders) && store.methods == old(store.methods)
      ensures payment.state == "new" && old(store.MethodOf(payment)).None? ==>
        r == Raised(InvalidArgument(NoPaymentMethod)) &&
        client.sent == old(client.sent) && client.response == old(client.response) &&
        store.payments == old(store.payments) && store.orders == old(store.orders) && store.methods == old(store.methods)
      ensures payment.state == "new" && old(store.MethodOf(payment)).Some? && isExpired ==>
        var order := old(store.orders[payment.orderId]);
        r == Raised(HardDecline(Expired)) &&
        client.sent == old(client.sent) && client.response == old(client.response) &&
        store.payments == old(store.payments) - {payment.id} &&
        store.orders == old(store.orders)[order.id := Detached(order)] &&
        store.orders[payment.orderId].paymentMethod.None? &&
        store.methods == old(store.methods)
      ensures payment.state == "new" && old(store.MethodOf(payment)).Some? && !isExpired ==>
        var order := old(store.orders[payment.orderId]);
        var paymentMethod := old(store.MethodOf(payment)).value;
        var submitted := if reply.Throws? then Raised(Transport(reply.failure)) else Done;
        var v := Judge(submitted, if reply.Responds? then Ok(reply.body) else old(client.GetResponse()));
        client.sent == old(client.sent) + [FrameClient.FrameRequest(configuration, payment, paymentMethod, order, old(client.generated))] &&
        client.response == (if reply.Responds? then Some(reply.body) else old(client.response)) &&
        !v.Escapes? &&
        (v.Declined? ==>
          r == Raised(HardDecline(v.message)) &&
          store.payments == old(store.payments) - {payment.id} &&
          store.orders == old(store.orders)[order.id := Detached(order)] &&
          store.orders[payment.orderId].paymentMethod.None? &&
          store.methods == old(store.methods)) &&
        (v.Approved? ==>
          r == Done &&
          store.payments == old(store.payments)[payment.id := Settled(payment, capture, v.transactionId, requestTime)] &&
          store.orders == old(store.orders) && store.methods == old(store.methods))
    {
      if payment.state != "new" {
        return Raised(InvalidArgument(InvalidState));
      }
      var found := store.MethodOf(payment);
      if found.None? {
        return Raised(InvalidArgument(NoPaymentMethod));
      }
      var paymentMethod := found.value;
      var order := store.orders[payment.orderId];
      if isExpired {
        DeletePayment(store, payment, order);
        return Raised(HardDecline(Expired));
      }
      var submitted := client.DoRequest(payment, paymentMethod, order, configuration, reply);
      var verdict := Judge(submitted, client.GetResponse());
      match verdict
      case Escapes(e) =>
        return Raised(e);
      case Declined(message) =>
        DeletePayment(store, payment, order);
        return Raised(HardDecline(message));
      case Approved(transactionId) =>
        store.SavePayment(Settled(payment, capture, transactionId, requestTime));
        return Done;
    }

    /** Deletes the payment and clears the order's payment method and gateway. */
    method DeletePayment(store: Store, payment: Payment, order: Order)
      modifies store
      ensures old(store.Valid()) ==> store.Valid()
      ensures store.payments == old(store.payments) - {payment.id}
      ensures store.orders == old(store.orders)[order.id := Detached(order)]
      ensures store.methods == old(store.methods)
    {
      store.DeletePayment(payment.id);
      store.SaveOrder(Detached(order));
    }
  }

  /**
   * Once the client has answered, getResponse cannot fail, so the frame
   * gateway's createPayment never lets an exception escape: every
   * transport outcome is an approval or a decline.
   */
  lemma NothingEscapesAfterAReply(reply: Reply, earlier: Result<ResponseBody>)
    ensures var submitted := if reply.Throws? then Raised(Transport(reply.failure)) else Done;
      !Judge(submitted, if reply.Responds? then Ok(reply.body) else earlier).Escapes?
  {
  }
}

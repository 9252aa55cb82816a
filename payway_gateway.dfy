/**
 * The commerce_payway payment gateway: stores cards as PayWay customers,
 * charges orders through the REST client, and cleans up the local payment
 * whenever a charge is refused.
 */
module PaywayGateway {
  import opened Php
  import opened Decimals
  import opened Model
  import PaywayClient

  const PublishableKeyMissing := "The publishable key is empty."
  const InvalidState := "The provided payment is in an invalid state."
  const NoPaymentMethod := "The provided payment has no payment method referenced."
  const RequestFailed := "The payment request failed."
  const Refused := "The provided payment method has been declined"
  const CustomerFailed := "An error occurred while adding your payment method, sorry."

  /** The form of the transaction request createPayment submits. */
  function TransactionForm(order: Order, ip: Option<string>): (f: Form)
    ensures f.Keys == {"customerNumber", "transactionType", "principalAmount", "currency", "orderNumber"} +
      (if ip.Some? && TruthyString(ip.value) then {"customerIpAddress"} else {})
    ensures f["customerNumber"] == Number(order.customerId)
    ensures f["transactionType"] == Text("payment") && f["currency"] == Text("aud")
    ensures f["principalAmount"] == Amount(order.balance)
    ensures f["orderNumber"] == Number(order.id)
    ensures ip.Some? && TruthyString(ip.value) ==> f["customerIpAddress"] == Text(ip.value)
  {
    var base := map[
      "customerNumber" := Number(order.customerId),
      "transactionType" := Text("payment"),
      "principalAmount" := Amount(order.balance),
      "currency" := Text("aud"),
      "orderNumber" := Number(order.id)];
    if ip.Some? && TruthyString(ip.value) then base["customerIpAddress" := Text(ip.value)] else base
  }

  /**
   * The transaction request reaches `api_url/transactions` carrying the
   * order balance as it stands, not rounded, and the merchant id, which the
   * form itself never holds.
   */
  lemma TransactionRequest(c: Configuration, key: string, order: Order, ip: Option<string>, n: nat)
    ensures var q := PaywayClient.Outbound(c, key, "POST", "/transactions", TransactionForm(order, ip), n);
      q.url == c.apiUrl + "/transactions" &&
      q.form == TransactionForm(order, ip)["merchantId" := Text(c.merchantId)] &&
      q.form["principalAmount"] == Amount(order.balance)
  {
    var f := TransactionForm(order, ip);
    var g := PaywayClient.Outbound(c, key, "POST", "/transactions", f, n).form;
    assert g == f["merchantId" := Text(c.merchantId)] by {
      assert g.Keys == f["merchantId" := Text(c.merchantId)].Keys;
    }
  }

  /**
   * How createPayment ends, given how submitRequest ended and what
   * getResponse then returns. Only a PaywayClientException is turned into a
   * decline; any other exception escapes.
   */
  function Judge(submitted: Outcome, response: Option<ResponseBody>): (v: Verdict)
    ensures v.Escapes? <==> submitted.Raised? && submitted.error != Transport(PaywayClientException)
    ensures v.Escapes? ==> v.error == submitted.error
    ensures submitted == Raised(Transport(PaywayClientException)) ==> v == Declined(RequestFailed)
    ensures v.Approved? <==> submitted == Done && response.Some? && IsApproved(response.value.status)
    ensures v.Approved? ==> v.transactionId == response.value.transactionId
    ensures submitted == Done && !v.Approved? ==> v == Declined(Refused)
  {
    match submitted
    case Raised(e) =>
      if e == Transport(PaywayClientException) then Declined(RequestFailed) else Escapes(e)
    case Done =>
      // json_decode('') is NULL, and NULL->status is not an approval
      if response.Some? && IsApproved(response.value.status) then Approved(response.value.transactionId)
      else Declined(Refused)
  }

  /** The payment as createPayment saves it after an approval. */
  function Settled(payment: Payment, capture: bool, transactionId: string, requestTime: int): (p: Payment)
    ensures p.state == (if capture then "completed" else "authorization")
    ensures p.state != "new"
    ensures p.remoteId == transactionId && p.authorizedTime == Some(requestTime)
    ensures p.completedTime == (if capture then Some(requestTime) else payment.completedTime)
    ensures p.id == payment.id && p.orderId == payment.orderId && p.methodId == payment.methodId
    ensures p.amount == payment.amount && p.capturedTime == payment.capturedTime
  {
    var p := payment.(state := if capture then "completed" else "authorization",
                      remoteId := transactionId, authorizedTime := Some(requestTime));
    if capture then p.(completedTime := Some(requestTime)) else p
  }

  /** The method as createPaymentMethod saves it without a customer: a single-use token. */
  function SingleUse(paymentMethod: PaymentMethod, token: string): (m: PaymentMethod)
    ensures m.expires == Timestamp(0) && !m.reusable && m.remoteId == token && !m.isDefault
    ensures m.cardType.None? && m.cardNumber.None? && m.cardExpMonth.None? && m.cardExpYear.None?
    ensures m.id == paymentMethod.id && m.owner == paymentMethod.owner
  {
    paymentMethod.(expires := Timestamp(0), reusable := false, remoteId := token, isDefault := false,
                   cardType := None, cardNumber := None, cardExpMonth := None, cardExpYear := None)
  }

  /** The method as createPaymentMethod saves it once PayWay has created the customer. */
  function StoredCard(paymentMethod: PaymentMethod, body: ResponseBody): (m: PaymentMethod)
    ensures var card := body.creditCard;
      m.expires == CardMonth(2000 + card.expiryDateYear, card.expiryDateMonth, 1) &&
      m.reusable && m.remoteId == body.customerNumber && !m.isDefault &&
      m.cardType == Some(card.cardScheme) && m.cardNumber == Some(card.cardNumber) &&
      m.cardExpMonth == Some(card.expiryDateMonth) && m.cardExpYear == Some(card.expiryDateYear)
    ensures m.id == paymentMethod.id && m.owner == paymentMethod.owner
  {
    var card := body.creditCard;
    paymentMethod.(expires := CardMonth(2000 + card.expiryDateYear, card.expiryDateMonth, 1),
                   reusable := true, remoteId := body.customerNumber, isDefault := false,
                   cardType := Some(card.cardScheme), cardNumber := Some(card.cardNumber),
                   cardExpMonth := Some(card.expiryDateMonth), cardExpYear := Some(card.expiryDateYear))
  }

  class Gateway {
    const configuration: Configuration
    const client: PaywayClient.Client

    /**
     * Whether the client still holds this gateway's configuration. The client
     * is one service shared by every Payway gateway, and each gateway's
     * constructor replaces its configuration, so a gateway built later takes
     * it over.
     */
    ghost predicate Configured()
      reads client
    {
      client.configuration == Some(configuration)
    }

    /** While the client holds this gateway's configuration, it sends with this gateway's secret key. */
    lemma ConfiguredKey()
      requires Configured()
      ensures client.GetSecretKey() == GetSecretKey()
    {
    }

    /** The constructor hands the configuration to the client. */
    constructor (configuration: Configuration, client: PaywayClient.Client)
      requires client.Valid()
      modifies client
      ensures client.Valid() && Configured()
      ensures this.configuration == configuration && this.client == client
      ensures client.response == old(client.response) && client.sent == old(client.sent)
      ensures client.answered == old(client.answered)
    {
      this.configuration := configuration;
      this.client := client;
      new;
      client.SetConfiguration(configuration);
    }

    /** The publishable key for the mode; MissingDataException for any other mode. */
    function GetPublishableKey(): (r: Result<string>)
      ensures r.Ok? <==> configuration.mode == "test" || configuration.mode == "live"
      ensures configuration.mode == "test" ==> r == Ok(configuration.publishableKeyTest)
      ensures configuration.mode == "live" ==> r == Ok(configuration.publishableKey)
      ensures r.Err? ==> r.error == MissingData(PublishableKeyMissing)
    {
      SelectKey(configuration.mode, configuration.publishableKeyTest, configuration.publishableKey, PublishableKeyMissing)
    }

    /** The secret key for the mode; MissingDataException for any other mode. */
    function GetSecretKey(): (r: Result<string>)
      ensures r.Ok? <==> configuration.mode == "test" || configuration.mode == "live"
      ensures configuration.mode == "test" ==> r == Ok(configuration.secretKeyTest)
      ensures configuration.mode == "live" ==> r == Ok(configuration.secretKey)
      ensures r.Err? ==> r.error == MissingData(PaywayClient.PrivateKeyMissing)
    {
      SelectKey(configuration.mode, configuration.secretKeyTest, configuration.secretKey, PaywayClient.PrivateKeyMissing)
    }

    /**
     * Stores the payment method. A missing token fails before anything is
     * sent. With a customer, PayWay is asked to create one and the method
     * becomes reusable (any failure there is a PaymentGatewayException);
     * without one it keeps the single-use token.
     */
    method CreatePaymentMethod(store: Store, paymentMethod: PaymentMethod, details: PaymentDetails, reply: Reply)
      returns (r: Outcome)
      requires client.Valid() && store.Valid()
      modifies store, client
      ensures client.Valid() && store.Valid() && client.configuration == old(client.configuration)
      ensures store.payments == old(store.payments) && store.orders == old(store.orders)
      ensures EmptyEntry(details.values, TokenKey) ==>
        r == Raised(InvalidArgument(MissingKeyMessage(TokenKey))) &&
        client.sent == old(client.sent) && client.response == old(client.response) &&
        store.methods == old(store.methods)
      ensures !EmptyEntry(details.values, TokenKey) && details.customer.None? ==>
        r == Done && client.sent == old(client.sent) && client.response == old(client.response) &&
        store.methods == old(store.methods)[paymentMethod.id := SingleUse(paymentMethod, details.values[TokenKey])]
      ensures !EmptyEntry(details.values, TokenKey) && details.customer.Some? ==>
        var form := map["singleUseTokenId" := Text(details.values[TokenKey]), "merchantId" := Text(configuration.merchantId)];
        var key := client.GetSecretKey();
        (key.Ok? ==>
          client.sent == old(client.sent) + [PaywayClient.Outbound(client.configuration.value, key.value, "POST", "/customers", form, old(client.generated))]) &&
        (key.Ok? && reply.Responds? ==>
          r == Done && client.response == Some(reply.body) &&
          store.methods == old(store.methods)[paymentMethod.id := StoredCard(paymentMethod, reply.body)]) &&
        (key.Err? || reply.Throws? ==>
          r == Raised(PaymentGatewayError(CustomerFailed)) &&
          client.response == old(client.response) && store.methods == old(store.methods)) &&
        (key.Err? ==> client.sent == old(client.sent))
    {
      r := CheckRequiredKeys(details.values, RequiredKeys);
      assert RequiredKeys[0] == TokenKey;
      if r != Done {
        return;
      }
      assert !EmptyEntry(details.values, RequiredKeys[0]);
      var token := details.values[TokenKey];
      var saved;
      if details.customer.Some? {
        var form := map["singleUseTokenId" := Text(token), "merchantId" := Text(configuration.merchantId)];
        var submitted := client.SubmitRequest("POST", "/customers", form, reply);
        if submitted != Done {
          return Raised(PaymentGatewayError(CustomerFailed));
        }
        var response := client.GetResponse();
        saved := StoredCard(paymentMethod, response.value);
      } else {
        saved := SingleUse(paymentMethod, token);
      }
      store.SaveMethod(saved);
    }

    /**
     * The remote half of deletePaymentMethod: cancels the customer's payment
     * setup, then deletes the customer, skipping the second call when the
     * first fails.
     */
    method CancelCustomer(customer: string, stopReply: Reply, deleteReply: Reply)
      requires client.Valid()
      modifies client
      ensures client.Valid() && client.configuration == old(client.configuration)
      ensures client.GetSecretKey().Err? ==> client.sent == old(client.sent)
      ensures client.GetSecretKey().Ok? ==>
        var c, key := client.configuration.value, client.GetSecretKey().value;
        var stop := PaywayClient.Outbound(c, key, "PATCH",
          "/customers/" + customer + "/payment-setup", map["stopped" := Text("true")], old(client.generated));
        var delete := PaywayClient.Outbound(c, key, "DELETE",
          "/customers/" + customer, map[], old(client.generated) + 1);
        (stopReply.Throws? ==> client.sent == old(client.sent) + [stop]) &&
        (stopReply.Responds? ==> client.sent == old(client.sent) + [stop, delete])
      ensures client.response ==
        if client.GetSecretKey().Err? || stopReply.Throws? then old(client.response)
        else if deleteReply.Responds? then Some(deleteReply.body)
        else Some(stopReply.body)
    {
      ghost var key := client.GetSecretKey();
      var stopped := client.SubmitRequest("PATCH", "/customers/" + customer + "/payment-setup",
        map["stopped" := Text("true")], stopReply);
      assert client.GetSecretKey() == key;
      assert stopped == Done <==> key.Ok? && stopReply.Responds?;
      if stopped == Done {
        var deleted := client.SubmitRequest("DELETE", "/customers/" + customer, map[], deleteReply);
      }
      assert client.GetSecretKey() == key;
    }

    /**
     * Deletes the payment method: the remote calls of CancelCustomer for the
     * method's PayWay customer, whose failures are swallowed (assuming the
     * failure can be logged), then the local method.
     */
    method DeletePaymentMethod(store: Store, paymentMethod: PaymentMethod, stopReply: Reply, deleteReply: Reply)
      requires client.Valid() && store.Valid()
      modifies store, client
      ensures client.Valid() && store.Valid() && client.configuration == old(client.configuration)
      ensures store.methods == old(store.methods) - {paymentMethod.id}
      ensures store.payments == old(store.payments) && store.orders == old(store.orders)
      ensures client.GetSecretKey().Err? ==> client.sent == old(client.sent)
      ensures client.GetSecretKey().Ok? ==>
        var customer, c, key := paymentMethod.remoteId, client.configuration.value, client.GetSecretKey().value;
        var stop := PaywayClient.Outbound(c, key, "PATCH",
          "/customers/" + customer + "/payment-setup", map["stopped" := Text("true")], old(client.generated));
        var delete := PaywayClient.Outbound(c, key, "DELETE",
          "/customers/" + customer, map[], old(client.generated) + 1);
        (stopReply.Throws? ==> client.sent == old(client.sent) + [stop]) &&
        (stopReply.Responds? ==> client.sent == old(client.sent) + [stop, delete])
      ensures client.response ==
        if client.GetSecretKey().Err? || stopReply.Throws? then old(client.response)
        else if deleteReply.Responds? then Some(deleteReply.body)
        else Some(stopReply.body)
    {
      CancelCustomer(paymentMethod.remoteId, stopReply, deleteReply);
      store.DeleteMethod(paymentMethod.id);
    }

    /**
     * Charges the payment's order. A payment that is not new or has no
     * payment method is refused before anything is sent. A decline, or a
     * PaywayClientException, deletes the payment and detaches the order
     * before the HardDeclineException; an approval records the transaction
     * and discards a method that cannot be reused.
     * PHP's `capture` defaults to TRUE; a caller omitting it passes true here.
     */
    method CreatePayment(store: Store, payment: Payment, capture: bool, ip: Option<string>, requestTime: int, reply: Reply)
      returns (r: Outcome)
      requires client.Valid() && store.Valid()
      requires payment.orderId in store.orders
      modifies store, client
      ensures client.Valid() && store.Valid() && client.configuration == old(client.configuration)
      ensures payment.state != "new" ==>
        r == Raised(InvalidArgument(InvalidState)) &&
        client.sent == old(client.sent) && client.response == old(client.response) &&
        store.payments == old(store.payments) && store.orders == old(store.orders) && store.methods == old(store.methods)
      ensures payment.state == "new" && old(store.MethodOf(payment)).None? ==>
        r == Raised(InvalidArgument(NoPaymentMethod)) &&
        client.sent == old(client.sent) && client.response == old(client.response) &&
        store.payments == old(store.payments) && store.orders == old(store.orders) && store.methods == old(store.methods)
      ensures payment.state == "new" && old(store.MethodOf(payment)).Some? ==>
        var order := old(store.orders[payment.orderId]);
        var paymentMethod := old(store.MethodOf(payment)).value;
        var form := TransactionForm(order, ip);
        var key := client.GetSecretKey();
        var v := Judge(if key.Err? then Raised(key.error)
                       else if reply.Throws? then Raised(Transport(reply.failure)) else Done,
                       if key.Ok? && reply.Responds? then Some(reply.body) else old(client.response));
        (key.Ok? ==>
          client.sent == old(client.sent) + [PaywayClient.Outbound(client.configuration.value, key.value, "POST", "/transactions", form, old(client.generated))]) &&
        (key.Err? ==> client.sent == old(client.sent)) &&
        client.response == (if key.Ok? && reply.Responds? then Some(reply.body) else old(client.response)) &&
        (v.Escapes? ==>
          r == Raised(v.error) &&
          store.payments == old(store.payments) && store.orders == old(store.orders) && store.methods == old(store.methods)) &&
        (v.Declined? ==>
          r == Raised(HardDecline(v.message)) &&
          store.payments == old(store.payments) - {payment.id} &&
          store.orders == old(store.orders)[order.id := Detached(order)] &&
          store.orders[payment.orderId].paymentMethod.None? &&
          store.methods == old(store.methods)) &&
        (v.Approved? ==>
          r == Done &&
          store.payments == old(store.payments)[payment.id := Settled(payment, capture, v.transactionId, requestTime)] &&
          store.orders == old(store.orders) &&
          store.methods == (if paymentMethod.reusable then old(store.methods) else old(store.methods) - {paymentMethod.id}))
    {
      if payment.state != "new" {
        return Raised(InvalidArgument(InvalidState));
      }
      var found := store.MethodOf(payment);
      if found.None? {
        return Raised(InvalidArgument(NoPaymentMethod));
      }
      var paymentMethod := found.value;
      var order := store.orders[payment.orderId];
      var submitted := client.SubmitRequest("POST", "/transactions", TransactionForm(order, ip), reply);
      var verdict := Judge(submitted, client.GetResponse());
      match verdict
      case Escapes(e) =>
        return Raised(e);
      case Declined(message) =>
        DeletePayment(store, payment, order);
        return Raised(HardDecline(message));
      case Approved(transactionId) =>
        store.SavePayment(Settled(payment, capture, transactionId, requestTime));
        if !paymentMethod.reusable {
          store.DeleteMethod(paymentMethod.id);
        }
        return Done;
    }

    /** Deletes the payment and clears the order's payment method and gateway. */
    method DeletePayment(store: Store, payment: Payment, order: Order)
      modifies store
      ensures old(store.Valid()) ==> store.Valid()
      ensures store.payments == old(store.payments) - {payment.id}
      ensures store.orders == old(store.orders)[order.id := Detached(order)]
      ensures store.methods == old(store.methods)
    {
      store.DeletePayment(payment.id);
      store.SaveOrder(Detached(order));
    }
  }
}

# commerce_payway, modelled in Dafny

commerce_payway connects Drupal Commerce to the Westpac PayWay REST API. It has two variants, and each has its own REST client:

- **Payway**: the `commerce_payway` gateway and `PaywayRestApiClient`.
- **PayWayFrame**: the `commerce_payway_frame` gateway and `PayWayRestApiClient`.

This project models the decision logic of the two variants and proves properties of it:

- **Key selection by mode.** Payway fails fast on an unknown mode. PayWayFrame falls back to `''` and queues an error message.
- **The outbound request.** This covers the merged form parameters, the customer number, the rounded amount, the `Authorization: Basic` header and the per-call `Idempotency-Key`.
- **createPayment.** Both gateways run it as a state machine. A decline cleans up the local payment and raises a hard decline. An approval records the transaction.
- **Payment methods.** Payway creates and deletes them against PayWay customers. PayWayFrame stores them as ten-minute tokens.
- **Cron.** It renews the secret key at most once every 24 hours.

## Modules

| file | module | contents |
|---|---|---|
| `php.dfy` | `Php` | Option (NULL), the array union `+`, and the truthiness used by `empty()` and `if ($x)` |
| `decimals.dfy` | `Decimals` | Fixed-point amounts and `round($x, 2)`, checked against a reference definition of rounding half away from zero |
| `base64.dfy` | `Base64` | `base64_encode` as defined in section 4 of RFC 4648, with its decoding and the round trip |
| `uuid.dfy` | `Uuid` | The UUID service viewed as a generator that never repeats |
| `model.dfy` | `Model` | Exceptions, decoded responses, requests, configuration and entities; the entity `Store` class; key selection; the request parts both clients share; and the required-keys loop |
| `payway_client.dfy` | `PaywayClient` | `PaywayRestApiClient` as a class holding the configuration, the last response and the requests sent |
| `frame_client.dfy` | `FrameClient` | `PayWayRestApiClient` as a class holding the last response and the requests sent |
| `payway_gateway.dfy` | `PaywayGateway` | The `Payway` gateway plugin as a class over its client |
| `frame_gateway.dfy` | `FrameGateway` | The `PayWayFrame` gateway plugin as a class over its client |
| `cron.dfy` | `PaywayCron` | `Cron::run` over Drupal's state store |

## Outside inputs

The model takes each of these as a parameter or a field:

- **HTTP transport.** Each call receives a `Reply`, which is either a decoded response body or the exception the transport throws.
- **UUID service.** Each client has a counter, `generated`. The n-th value is `Uuid.Uuid(n)`.
- **Clocks.** The request time is passed to the gateways as `requestTime`. Cron's two `time()` readings are passed as `clockBefore` and `clockAfter`.
- **Client IP.** `ip` is an `Option<string>`.
- **`isExpired()` of a Commerce payment method.** This is the `isExpired` flag.
- **Outcome of `refreshSecretKey`.** This is the `renewal` parameter.
- **Drupal entity storage.** `Model.Store` holds the payments, orders and payment methods. `Store.Valid()` says each entity is filed under its own id, as `save()` files it. Every store operation keeps this, and the gateway methods require it and keep it.
- **`\Drupal::state()`.** `PaywayCron.StateStore` holds these values.

## Behaviour worth knowing

The model follows what the code does in each of these cases:

- **Which exceptions `Payway::createPayment` catches.** It catches only `PaywayClientException` (`src/Plugin/Commerce/PaymentGateway/Payway.php:423`). Any other transport exception escapes without cleanup, and so does the `MissingDataException` for an unknown mode. It does not treat every transport failure as a cleaned-up hard decline.
- **`PaywayClientException` is never thrown by the code shown.** Neither client throws it, so with the shipped client the catch at line 423, modelled as `Declined(RequestFailed)`, cannot fire. The model keeps the branch for a transport that would throw it.
- **The `capture` parameter.** Both `createPayment` implementations declare `$capture = TRUE` (`Payway.php:386`, `PayWayFrame.php:212`). Dafny has no default arguments, so `capture` is an ordinary parameter. A caller that omits it in PHP corresponds to `capture == true`.
- **The transaction amount.** `Payway::createPayment` sends the order balance unrounded, on `POST /transactions` (line 409). Only the clients' `doRequest` round the amount.
- **The merchant id.** Because the client merges parameters with `$params + [...]`, a `merchantId` supplied by the caller wins over the configured one.
- **The URL in `PaywayRestApiClient::doRequest`.** It passes `api_url` as the path, so the request goes to `api_url . api_url`.
- **`getResponse` in `PayWayRestApiClient`.** It has no guard for "no response yet". The model returns an engine error there, where a guarded getter would return `''`.
- **The shared REST client.** Every Payway gateway receives the same `commerce_payway.rest_api.client` service (`src/Plugin/Commerce/PaymentGateway/Payway.php:135`), and its constructor replaces the client's configuration (lines 110-111). When a site has two Payway gateways, the one built last owns the client. The requests of the other then carry the last gateway's `api_url`, merchant id and secret key. So the model's gateway methods require only a consistent client, and their requests are stated in terms of the configuration and key the client holds at the call. `Configured()` says the client still holds the gateway's own configuration, and `ConfiguredKey` proves that the client then sends with the gateway's own secret key. The `merchantId` that `createPaymentMethod` puts in its form comes from the gateway's own configuration. So it wins over the client's value even when another gateway has reconfigured the client.
- **Key selection.** Both switches are modelled. The fail-fast one is in `Payway` and `PaywayRestApiClient`. The lenient one is in `PayWayFrame` and `PayWayRestApiClient`. `Model.FallbackAgreesWithFailFast` relates the two.
- **Card fields on the single-use branch of `Payway::createPaymentMethod`.** This branch reads the card from an unset `$response` (line 345). So the card fields are saved as NULL (`None`).

## Model

| member | source | states |
|---|---|---|
| Php.Union | src/Client/PaywayRestApiClient.php:84-86 | Array union: the result has the keys of both operands. Where both operands hold a key, the left-hand value is kept. Right-hand values fill the rest. |
| Decimals.Round2 | src/Client/PaywayRestApiClient.php:119 | `round(x, 2)` meets the reference definition `RoundsTo2`: scale 2, within half a cent of the input, and a tie rounds away from zero. An amount with at most two decimals is unchanged. |
| Decimals.Round2Unique | src/Client/PaywayRestApiClient.php:119 | `RoundsTo2` admits exactly one result, so Round2's result is the correct rounding and the only one. |
| Decimals.RoundingExamples | src/Client/PayWayRestApiClient.php:51 | Worked cases: 19.999 → 20.00, 19.994 → 19.99, -0.005 → -0.01, and 50.00 unchanged. |
| Base64.Encode | src/Client/PaywayRestApiClient.php:88 | The encoding has 4·⌈n/3⌉ characters. |
| Base64.DecodeEncode | src/Client/PaywayRestApiClient.php:88 | Decoding the RFC 4648 encoding of any byte string gives that byte string back. |
| Uuid.Uuid | src/Client/PaywayRestApiClient.php:89 | The model's stand-in for the n-th value of `generate()`. The real service returns RFC 4122 UUIDs; the stand-in is `uuid-` and the counter in decimal, and the only property the model relies on is `UuidInjective`. |
| Uuid.UuidInjective | src/Client/PaywayRestApiClient.php:89 | Different counters give different UUID values, so the generator never repeats. |
| Model.Store.MethodOf | src/Plugin/Commerce/PaymentGateway/Payway.php:394-397 | `getPaymentMethod()` returns the referenced method exactly when the reference is set and the entity exists, and NULL otherwise. |
| Model.Store.SavePayment | src/Plugin/Commerce/PaymentGateway/Payway.php:447 | Saving a payment replaces that payment's entry, keeps every entity under its own id, and leaves the other entity types alone. |
| Model.Store.DeletePayment | src/Plugin/Commerce/PaymentGateway/Payway.php:466 | Deleting a payment removes that payment's entry and nothing else, and keeps every entity under its own id. |
| Model.Store.SaveOrder | src/Plugin/Commerce/PaymentGateway/Payway.php:469 | Saving an order replaces that order's entry and nothing else, and keeps every entity under its own id. |
| Model.Store.SaveMethod | src/Plugin/Commerce/PaymentGateway/Payway.php:350 | Saving a payment method replaces that method's entry and nothing else, and keeps every entity under its own id. |
| Model.Store.DeleteMethod | src/Plugin/Commerce/PaymentGateway/Payway.php:376 | Deleting a payment method removes that method's entry and nothing else, and keeps every entity under its own id. |
| Model.Detached | src/Plugin/Commerce/PaymentGateway/Payway.php:467-468 | `payment_method` and `payment_gateway` become NULL. The id, customer and balance stay the same. |
| Model.SelectKey | src/Plugin/Commerce/PaymentGateway/Payway.php:277-291 | The fail-fast switch succeeds exactly for `test` and `live`. It gives the test key for `test` and the live key for `live`. Any other mode raises `MissingDataException` with the given message. |
| Model.SelectKeyOrEmpty | src/Client/PayWayRestApiClient.php:80-95 | The lenient switch queues no message exactly for `test` and `live`, and then picks the same key. Any other mode gives `''` together with the error message. |
| Model.FallbackAgreesWithFailFast | src/Plugin/Commerce/PaymentGateway/PayWayFrame.php:83-98 | Where the fail-fast switch returns a key, the lenient switch returns the same key with no message. Where the fail-fast switch throws, the lenient switch returns `''` and its message. |
| Model.Bytes | src/Client/PaywayRestApiClient.php:88 | The key's bytes, one per character, in order. |
| Model.BasicAuthorization | src/Client/PaywayRestApiClient.php:88 | The header starts with `Basic ` (the scheme in section 2 of RFC 7617). Its credentials decode to the key's bytes exactly, with no `user:` prefix. |
| Model.CustomerNumber | src/Client/PaywayRestApiClient.php:108-112 | The result is `'anonymous'` exactly when there is no owner or the owner is anonymous (uid 0). Otherwise it is the owner's uid. |
| Model.TransactionParams | src/Client/PaywayRestApiClient.php:114-122 | Exactly six parameters: the method's remote id as `singleUseTokenId`, the resolved customer number, `payment`, the amount rounded to cents, `aud`, and the order id. There is no merchant id. |
| Model.DistinctIdempotencyKeys | src/Client/PaywayRestApiClient.php:89 | When the i-th request carries the i-th UUID, no two requests share an `Idempotency-Key`. |
| Model.CheckRequiredKeys | src/Plugin/Commerce/PaymentGateway/Payway.php:302-312 | The loop succeeds exactly when no required key is empty (missing, `''` or `'0'`). Otherwise it raises `InvalidArgumentException` naming the first empty key. |
| PaywayClient.Outbound | src/Client/PaywayRestApiClient.php:82-96 | The request uses the given method and goes to `api_url . path`. Its form is the caller's parameters united with the merchant id. It carries `Basic base64(key)` and the n-th UUID. |
| PaywayClient.OutboundForm | src/Client/PaywayRestApiClient.php:84-86 | Every caller parameter is sent unchanged. `merchantId` is always present. It takes the configured value only when the caller supplied none. |
| PaywayClient.OutboundAuthorization | src/Client/PaywayRestApiClient.php:88 | The `Authorization` header of every outbound request decodes to the secret key alone. |
| PaywayClient.Client.constructor | src/Client/PaywayRestApiClient.php:71-77 | A new client has no configuration, no response (so `getResponse` is `''`), has received no answer and has sent nothing. |
| PaywayClient.Client.GetSecretKey | src/Client/PaywayRestApiClient.php:144-158 | This is the configured key for `test` and for `live`. With any other mode, or no configuration, it raises `MissingDataException('The private key is empty.')`. |
| PaywayClient.Client.GetResponse | src/Client/PaywayRestApiClient.php:129-134 | The body of the last answered request. With no answer yet it is `''` (`None`). |
| PaywayClient.Client.SetConfiguration | src/Client/PaywayRestApiClient.php:166-168 | The whole configuration is replaced. The response, the answers received and the requests sent stay the same. |
| PaywayClient.Client.SubmitRequest | src/Client/PaywayRestApiClient.php:82-96 | If the key lookup fails, the exception is raised and nothing is sent. Otherwise exactly one request, `Outbound(...)`, goes out with a fresh UUID. The stored response, which `getResponse` returns, becomes the new body exactly when the key is usable and the transport answers, and that body is appended to the answers received. Otherwise the response stays the same. A transport exception propagates. |
| PaywayClient.Client.DoRequest | src/Client/PaywayRestApiClient.php:101-124 | Submits `POST` to `api_url . api_url` with the transaction parameters. Otherwise it behaves as SubmitRequest does. |
| PaywayClient.DoRequestShape | src/Client/PaywayRestApiClient.php:108-123 | The doRequest form is the six transaction parameters plus the configured merchant id. The amount is the payment amount correctly rounded to cents, and the URL is `api_url` twice. |
| FrameClient.GetSecretKey | src/Client/PayWayRestApiClient.php:80-95 | The test or live secret key by mode. For any other mode it gives `''` and the message `The private key is empty`, and throws nothing. |
| FrameClient.FrameRequest | src/Client/PayWayRestApiClient.php:45-60 | Always `POST` to the constant `API_URL`. It carries `Basic base64(lenient key)` and the n-th UUID. |
| FrameClient.FrameForm | src/Client/PayWayRestApiClient.php:47-55 | Exactly seven parameters: the token, the customer number, `payment`, the amount correctly rounded to cents, `aud`, the order id and the configured merchant id. |
| FrameClient.SameTransactionAsPaywayClient | src/Client/PayWayRestApiClient.php:45-60 | For a valid mode, the frame request equals the request commerce_payway's doRequest submits, except for the URL. |
| FrameClient.Client.constructor | src/Client/PayWayRestApiClient.php:24-27 | A new client has no response and has sent nothing. |
| FrameClient.Client.DoRequest | src/Client/PayWayRestApiClient.php:29-63 | Exactly one request, `FrameRequest(...)`, goes out whatever the mode, with a fresh UUID. The response is replaced only when the transport answers. A transport exception propagates. |
| FrameClient.Client.GetResponse | src/Client/PayWayRestApiClient.php:70-72 | Returns the stored body. With no response yet it raises an engine error. |
| PaywayGateway.TransactionForm | src/Plugin/Commerce/PaymentGateway/Payway.php:406-418 | The customer id, `payment`, the unrounded order balance, `aud` and the order id. `customerIpAddress` is present exactly when the client IP is truthy. |
| PaywayGateway.TransactionRequest | src/Plugin/Commerce/PaymentGateway/Payway.php:406-420 | The transaction goes to `api_url/transactions`. It carries the merchant id added by the client, and the balance unrounded. |
| PaywayGateway.Judge | src/Plugin/Commerce/PaymentGateway/Payway.php:420-437 | Only a `PaywayClientException` becomes the decline "The payment request failed." Any other exception escapes unchanged. An approval happens exactly when the request succeeded and the status is `approved` or `approved*`. Every other answer is the decline "…has been declined". |
| PaywayGateway.Settled | src/Plugin/Commerce/PaymentGateway/Payway.php:440-446 | The state becomes `completed` when capturing and `authorization` otherwise, so it is no longer `new`. The remote id becomes the transaction id. The authorized time is the request time, and so is the completed time when capturing. Everything else is kept. |
| PaywayGateway.SingleUse | src/Plugin/Commerce/PaymentGateway/Payway.php:339-349 | Expires 0, not reusable, remote id set to the token, not default. The card fields are absent. |
| PaywayGateway.StoredCard | src/Plugin/Commerce/PaymentGateway/Payway.php:331-349 | Expires on day 1 of month `expiryDateMonth` of year 2000 + `expiryDateYear`. Reusable, remote id set to the PayWay customer number, not default. The card fields come from the response. |
| PaywayGateway.Gateway.constructor | src/Plugin/Commerce/PaymentGateway/Payway.php:110-111 | The gateway hands its configuration to the shared client, which now holds it (`Configured()`) and keeps its history. |
| PaywayGateway.Gateway.ConfiguredKey | src/Client/PaywayRestApiClient.php:88 | While the client holds this gateway's configuration, the key it sends with is the gateway's own secret key. |
| PaywayGateway.Gateway.GetPublishableKey | src/Plugin/Commerce/PaymentGateway/Payway.php:253-267 | The publishable key for `test` or `live`. Any other mode raises `MissingDataException('The publishable key is empty.')`. |
| PaywayGateway.Gateway.GetSecretKey | src/Plugin/Commerce/PaymentGateway/Payway.php:277-291 | The secret key for `test` or `live`. Any other mode raises `MissingDataException('The private key is empty.')`. |
| PaywayGateway.Gateway.CreatePaymentMethod | src/Plugin/Commerce/PaymentGateway/Payway.php:300-351 | An empty token raises `InvalidArgumentException` before anything is sent or saved. Without a customer, the method is saved as `SingleUse` and nothing is sent. With a customer, one `POST /customers` is sent with the key and configuration the shared client holds, and with this gateway's merchant id. Its success saves `StoredCard`. Any failure raises `PaymentGatewayException` and saves nothing. |
| PaywayGateway.Gateway.DeletePaymentMethod | src/Plugin/Commerce/PaymentGateway/Payway.php:356-377 | With the key and configuration the shared client holds, sends the PATCH `/customers/{id}/payment-setup` with `stopped=true`, then the DELETE `/customers/{id}` only if the PATCH was answered. The stored response is the body of the last answered call, or unchanged when the key or the PATCH fails. A failure is swallowed and the local method deleted, on the assumption that logging the failure succeeds (see Left out). |
| PaywayGateway.Gateway.CreatePayment | src/Plugin/Commerce/PaymentGateway/Payway.php:386-452 | A payment that is not `new`, or has no method, raises `InvalidArgumentException` before any request and changes nothing. Otherwise exactly one transaction request goes out, with the key and configuration the shared client holds. The stored response becomes its body when the transport answers, and the `Judge` verdict decides the rest. An escaping exception changes nothing in the store. A decline deletes the payment, saves the order detached, so that the payment's own order has no payment method, and raises `HardDeclineException`. The payment is never saved. An approval saves `Settled` and deletes the method if it is not reusable. |
| PaywayGateway.Gateway.CancelCustomer | src/Plugin/Commerce/PaymentGateway/Payway.php:358-367 | With the client's key and configuration: the PATCH is sent, and the DELETE follows only if the PATCH was answered. With no usable key nothing is sent. The stored response is the body of the last answered call. |
| PaywayGateway.Gateway.DeletePayment | src/Plugin/Commerce/PaymentGateway/Payway.php:465-470 | Removes the payment and saves the order with both references cleared, keeping every entity under its own id. Nothing else changes. |
| FrameGateway.Judge | src/Plugin/Commerce/PaymentGateway/PayWayFrame.php:245-283 | Every client exception is the decline "…has been refused". Only an engine error from `getResponse` escapes. An approval happens exactly when the status is `approved` or `approved*`. Any other status is the decline "…has been declined". |
| FrameGateway.NothingEscapesAfterAReply | src/Plugin/Commerce/PaymentGateway/PayWayFrame.php:245-273 | Once doRequest has run, `getResponse` cannot fail, so every transport outcome is an approval or a decline. |
| FrameGateway.Settled | src/Plugin/Commerce/PaymentGateway/PayWayFrame.php:286-295 | The state becomes `capture_completed` when capturing and `authorization` otherwise, so it is no longer `new`. The remote id becomes the transaction id. The authorized time is the request time, and so is the captured time when capturing. Everything else is kept. |
| FrameGateway.ShortLived | src/Plugin/Commerce/PaymentGateway/PayWayFrame.php:332-336 | Expires at request time + 600. Not reusable, remote id set to the token, not default. The card fields are untouched. |
| FrameGateway.Gateway.constructor | src/Plugin/Commerce/PaymentGateway/PayWayFrame.php:50-57 | The gateway keeps its configuration and its client. |
| FrameGateway.Gateway.GetPublishableKey | src/Plugin/Commerce/PaymentGateway/PayWayFrame.php:83-98 | The publishable key by mode. For any other mode it gives `''` and the message `The public key id empty`, and throws nothing. |
| FrameGateway.Gateway.CreatePaymentMethod | src/Plugin/Commerce/PaymentGateway/PayWayFrame.php:319-338 | An empty token raises `InvalidArgumentException` and saves nothing. Otherwise the method is saved as `ShortLived`. |
| FrameGateway.Gateway.CreatePayment | src/Plugin/Commerce/PaymentGateway/PayWayFrame.php:212-296 | A payment that is not `new`, or has no method, raises `InvalidArgumentException` and changes nothing. An expired method deletes the payment, detaches the payment's own order and raises `HardDeclineException` without contacting the client. Otherwise exactly one `FrameRequest` goes out, the stored response becomes its body when the transport answers, and no exception escapes. A decline deletes the payment and detaches the payment's own order. An approval saves `Settled` and leaves the method in place. |
| FrameGateway.Gateway.DeletePayment | src/Plugin/Commerce/PaymentGateway/PayWayFrame.php:356-361 | Removes the payment and saves the order with both references cleared, keeping every entity under its own id. Nothing else changes. |
| PaywayCron.Due | src/Cron.php:40-43 | A run renews the key exactly when `last_cron` is unset, zero, or at least 86400 seconds old. The comparison is strict, so a run 86400 seconds later is due. |
| PaywayCron.ThrottleWindow | src/Cron.php:41 | After a renewal recorded at a non-zero time t, a run is due exactly from t + 86400 on. |
| PaywayCron.DueStaysDue | src/Cron.php:41 | A due run stays due at every later time while no new run is recorded. |
| PaywayCron.StateStore.Get | src/Cron.php:40 | Reads the stored value, or NULL when the key has never been set. |
| PaywayCron.StateStore.Set | src/Cron.php:48 | Replaces that one key's value. |
| PaywayCron.Cron.constructor | src/Cron.php:32-34 | The cron service keeps its state store. |
| PaywayCron.Cron.Run | src/Cron.php:39-49 | refreshSecretKey is called exactly when `Due` holds for the first clock reading. A throttled run writes nothing. A renewal that throws propagates and leaves `last_cron` alone. A successful renewal sets `last_cron` to the second clock reading. |

## Left out

- Model.Bytes: the model treats each character of a key as one byte and keeps its code modulo 256. The encoding of characters beyond one byte is not modelled.
- Decimals.Round2: it rounds an exact decimal. PHP's `round()` works on a binary float and returns a float, rendered as a form field. Float representation and formatting are not modelled.
- PaywayGateway.StoredCard: the expiry is kept as the calendar day `(2000 + yy, mm, 1)`. `DateTime::setDate` also keeps the current time of day, rolls an out-of-range month over into the next year, and is then formatted as a Unix timestamp. None of that is modelled.
- PaywayGateway.Gateway.CreatePaymentMethod: the catch block logs `$e->getResponse()->getBody()`. That method exists only on some exception types, or returns NULL (a connection failure has no response), so in those cases PHP would raise an `\Error` instead of `PaymentGatewayException`. The model assumes logging succeeds, and so do the loggers of both createPayment implementations.
- PaywayGateway.Gateway.DeletePaymentMethod: the catch at `src/Plugin/Commerce/PaymentGateway/Payway.php:370-371` logs `$e->getResponse()->getBody()->getContents()`. A `MissingDataException` has no `getResponse()`, and a connection failure has no response, so in those cases PHP raises an `\Error`. That `\Error` escapes the `catch (\Exception)`, and the local method is then not deleted at line 376. The model assumes logging succeeds, so it always deletes the local method. Its contract is weaker than the code only in that case.
- PaywayCron.Cron.Run: the outcome of `refreshSecretKey` is a parameter. `src/Client/PaywayRestApiClient.php` defines no such method, so as written the call at `src/Cron.php:47` raises an `\Error` on every due run and `last_cron` is never written. That is the case `renewal == Raised(EngineError(...))`, for which `Run` proves that the state is left alone. The `Done` case covers a client that does define the method.
- FrameGateway.Gateway.CreatePayment: `isExpired()` belongs to Drupal Commerce and is not part of this model. It is taken as a flag.
- The gateways and clients require the payment's order to exist. Commerce makes `order_id` mandatory, and a missing order would be a PHP error, not a handled case.
- Response bodies are given as decoded records. Malformed JSON and bodies missing fields (which PHP reads as NULL) are not modelled.
- Entities are given with their ids. Id assignment on the first `save()` of a new entity, and storage exceptions, are not modelled.
- Form parameters are maps, so the order of keys in the PHP arrays is not modelled.
- The loggers and `drupal_set_message` are not modelled as I/O. The lenient key switches return their error message instead.
- The refund, void, capture and cancel methods and PayWayFrame's `deletePaymentMethod` have no behaviour. They are empty or `@TODO` stubs.
- The configuration forms, the payment method add forms, the JavaScript widget, `PageController` (a redirect and a template read), `ErrorHelper` (it wraps a foreign SDK result), the `Payway` payment method type (field definitions) and the interfaces are not modelled. None of them makes a payment decision.

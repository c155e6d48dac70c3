/** The checkout step of the gateway: submitting the request
    (`do_transaction`), handling the processor's answer (`process_payment`)
    and deciding whether the gateway is offered at all (`is_available`). */
module Checkout {
  import opened Wrappers
  import opened Text
  import opened Gateway
  import opened TransactionData
  import opened OrderStatus

  /** What the HTTP layer hands back: a transport error, or a body already
      decoded from JSON (an undecodable body decodes to `Null`). */
  datatype TransportOutcome = TransportError(message: string) | Received(body: Value)

  /** The host's collaborators: the `wc_pagarme_transaction_data` filter
      chain, the HTTP POST to the processor's `transactions` endpoint, and
      the text sanitiser applied to stored response fields. */
  datatype Host = Host(
    filter: TransactionRequest -> TransactionRequest,
    send: TransactionRequest -> TransportOutcome,
    sanitize: string -> string)

  /** A decoded body as the array `process_payment` indexes: anything other
      than a JSON object has no string keys. (A JSON string body is read as
      having none too; PHP would index its characters instead.) */
  function Fields(body: Value): map<string, Value> {
    if body.Obj? then body.fields else map[]
  }

  /** The array `do_transaction` returns for a transport outcome: empty on a
      transport error. */
  function ReplyFields(reply: TransportOutcome): map<string, Value> {
    match reply
    case TransportError(_) => map[]
    case Received(body) => Fields(body)
  }

  /** The processor rejected the transaction: its answer sets `errors`. */
  predicate Rejected(reply: TransportOutcome) {
    IsSet(ReplyFields(reply), "errors")
  }

  datatype Exchange = Exchange(request: TransactionRequest, transaction: map<string, Value>, log: seq<LogEntry>)

  function DoTransaction(order: Order, posted: map<string, string>, settings: Settings, postbackUrl: string, host: Host): (x: Exchange)
    ensures x.request == GenerateTransactionData(order, posted, settings, postbackUrl, host.filter)
    ensures x.transaction == ReplyFields(host.send(x.request))
    ensures host.send(x.request).TransportError? ==> x.transaction == map[]
    ensures !DebugOn(settings) ==> x.log == []
    ensures DebugOn(settings) ==> |x.log| == 2 && x.log[0] == TransactionAttempt(order.number)
  {
    var request := GenerateTransactionData(order, posted, settings, postbackUrl, host.filter);
    var attempt := if DebugOn(settings) then [TransactionAttempt(order.number)] else [];
    match host.send(request)
    case TransportError(message) =>
      Exchange(request, map[], attempt + if DebugOn(settings) then [TransportFailure(message)] else [])
    case Received(body) =>
      var t := Fields(body);
      var outcome := if IsSet(t, "errors") then ProcessorFailure else TransactionCompleted;
      Exchange(request, t, attempt + if DebugOn(settings) then [outcome] else [])
  }

  /** `$message['message']` of one entry of the `errors` list. */
  function MessageOf(entry: Value): string {
    if entry.Obj? && "message" in entry.fields then TextOf(entry.fields["message"]) else ""
  }

  /** The checkout notices `add_error` shows: one per entry of the `errors`
      list, in order. */
  function ErrorNotices(errors: Value): (notices: seq<string>)
    ensures errors.Arr? ==> |notices| == |errors.items|
    ensures errors.Arr? ==> forall k :: 0 <= k < |notices| ==> notices[k] == MessageOf(errors.items[k])
    ensures !errors.Arr? ==> notices == []
    decreases if errors.Arr? then |errors.items| else 0
  {
    if errors.Arr? && errors.items != [] then
      [MessageOf(errors.items[0])] + ErrorNotices(Arr(errors.items[1..]))
    else []
  }

  /** `sanitize_text_field` of a response value: arrays become "", scalars
      are converted to text and cleaned. */
  function Sanitized(clean: string -> string, v: Value): string {
    if v.Arr? || v.Obj? then "" else clean(TextOf(v))
  }

  /** The six-field bundle stored as `_wc_pagarme_transaction_data`. */
  function PaymentDataOf(t: map<string, Value>, clean: string -> string): PaymentData {
    PaymentData(
      Sanitized(clean, Lookup(t, "payment_method")),
      Sanitized(clean, Lookup(t, "installments")),
      Sanitized(clean, Lookup(t, "card_brand")),
      Sanitized(clean, Lookup(t, "antifraud_score")),
      Sanitized(clean, Lookup(t, "boleto_url")),
      Sanitized(clean, Lookup(t, "subscription_id")))
  }

  /** The order with the three transaction annotations written. */
  function Annotate(order: Order, t: map<string, Value>, clean: string -> string): (o: Order)
    ensures o.transactionId == Some(IntVal(Lookup(t, "id")))
    ensures StoredTransactionId(o) == IntVal(Lookup(t, "id"))
    ensures o.detailsLink == Some(DashboardUrl(IntVal(Lookup(t, "id"))))
    ensures o.transactionData == Some(PaymentDataOf(t, clean))
    ensures o.(transactionId := order.transactionId, transactionData := order.transactionData,
               detailsLink := order.detailsLink) == order
  {
    var id := IntVal(Lookup(t, "id"));
    order.(transactionId := Some(id), transactionData := Some(PaymentDataOf(t, clean)),
           detailsLink := Some(DashboardUrl(id)))
  }

  datatype CheckoutResult = Fail | Success

  /** Everything a checkout attempt produces: the result returned to the
      store, the order afterwards, the customer-facing error notices, the
      admin e-mails, the debug log, whether the cart was emptied, and the
      request that was submitted. */
  datatype CheckoutOutcome = CheckoutOutcome(
    result: CheckoutResult,
    order: Order,
    notices: seq<string>,
    emails: seq<AdminEmail>,
    log: seq<LogEntry>,
    cartEmptied: bool,
    request: TransactionRequest)

  function ProcessPayment(order: Order, posted: map<string, string>, settings: Settings, postbackUrl: string, host: Host): (r: CheckoutOutcome)
    ensures r.request == host.filter(AssembleTransactionData(order, posted, settings, postbackUrl))
    ensures r.result == Fail <==> Rejected(host.send(r.request))
    // A rejection changes nothing on the order and shows the processor's messages.
    ensures r.result == Fail ==>
      && r.order == order
      && r.notices == ErrorNotices(ReplyFields(host.send(r.request))["errors"])
      && r.emails == []
      && !r.cartEmptied
    // Anything else records the transaction before its status is applied.
    ensures r.result == Success ==>
      var t := ReplyFields(host.send(r.request));
      var id := IntVal(Lookup(t, "id"));
      && r.order.transactionId == Some(id)
      && r.order.transactionData == Some(PaymentDataOf(t, host.sanitize))
      && r.order.detailsLink == Some(DashboardUrl(id))
      && r.order.billing == order.billing && r.order.totalCents == order.totalCents
      && (forall e :: e in r.emails ==> e.link == DashboardLink(id))
      && |r.emails| <= 1
      && r.notices == []
      && r.cartEmptied
  {
    var x := DoTransaction(order, posted, settings, postbackUrl, host);
    var t := x.transaction;
    if IsSet(t, "errors") then
      CheckoutOutcome(Fail, order, ErrorNotices(t["errors"]), [], x.log, false, x.request)
    else
      var annotated := Annotate(order, t, host.sanitize);
      var st := ProcessOrderStatus(annotated, Lookup(t, "status"), DebugOn(settings));
      CheckoutOutcome(Success, st.order, [], st.emails, x.log + st.log, true, x.request)
  }

  /** On a successful submission the order's new status and the admin
      e-mails are exactly those the status transition gives for the annotated
      order. */
  lemma ProcessPaymentAppliesStatus(order: Order, posted: map<string, string>, settings: Settings, postbackUrl: string, host: Host)
    ensures var r := ProcessPayment(order, posted, settings, postbackUrl, host);
      var t := ReplyFields(host.send(r.request));
      var st := ProcessOrderStatus(Annotate(order, t, host.sanitize), Lookup(t, "status"), DebugOn(settings));
      r.result == Success ==> r.order == st.order && r.emails == st.emails
  {
  }

  /** A transport failure is not a rejection: the checkout succeeds, stores
      transaction id 0 with an all-null data bundle, and leaves the order's
      status and payment state alone, sending no e-mail. */
  lemma TransportFailureTakesSuccessBranch(order: Order, posted: map<string, string>, settings: Settings, postbackUrl: string, host: Host)
    requires host.send(host.filter(AssembleTransactionData(order, posted, settings, postbackUrl))).TransportError?
    ensures var r := ProcessPayment(order, posted, settings, postbackUrl, host);
      && r.result == Success
      && r.order.transactionId == Some(0)
      && r.order.transactionData == Some(PaymentDataOf(map[], host.sanitize))
      && r.order.detailsLink == Some(DashboardUrl(0))
      && r.order.status == order.status
      && r.order.paymentCompleted == order.paymentCompleted
      && r.emails == []
  {
  }

  /** A reply that decodes to null, a list or a non-string scalar is no
      rejection either: the checkout succeeds and stores transaction id 0 with
      an all-null data bundle. */
  lemma UndecodableReplyTakesSuccessBranch(order: Order, posted: map<string, string>, settings: Settings, postbackUrl: string, host: Host)
    requires var reply := host.send(host.filter(AssembleTransactionData(order, posted, settings, postbackUrl)));
      reply.Received? && !reply.body.Obj? && !reply.body.Str?
    ensures var r := ProcessPayment(order, posted, settings, postbackUrl, host);
      && r.result == Success
      && r.order.transactionId == Some(0)
      && r.order.transactionData == Some(PaymentDataOf(map[], host.sanitize))
      && r.cartEmptied
  {
  }

  /** The processor answered with a transaction object: the only reply from
      which a transaction can be recorded. */
  predicate Answered(reply: TransportOutcome) {
    reply.Received? && reply.body.Obj?
  }

  /** The checkout notice shown when no transaction took place. */
  const NoTransactionNotice: string := "Pagar.me: the payment could not be processed, please try again."

  /** The intended handling of a reply that carries no transaction (a
      transport failure, or a body that is not a JSON object): the checkout
      fails with one notice and the order is left untouched; an answer from
      the processor is handled exactly as `ProcessPayment` handles it. */
  function ProcessPaymentCorrected(order: Order, posted: map<string, string>, settings: Settings, postbackUrl: string, host: Host): (r: CheckoutOutcome)
    ensures r.request == host.filter(AssembleTransactionData(order, posted, settings, postbackUrl))
    ensures r.result == Fail <==> !Answered(host.send(r.request)) || Rejected(host.send(r.request))
    ensures !Answered(host.send(r.request)) ==>
      && r.order == order
      && r.notices == [NoTransactionNotice]
      && r.emails == []
      && !r.cartEmptied
    ensures Answered(host.send(r.request)) ==> r == ProcessPayment(order, posted, settings, postbackUrl, host)
    ensures r.result == Success ==> r.order.transactionId.Some? && Answered(host.send(r.request))
  {
    var x := DoTransaction(order, posted, settings, postbackUrl, host);
    if !Answered(host.send(x.request)) then
      CheckoutOutcome(Fail, order, [NoTransactionNotice], [], x.log, false, x.request)
    else
      ProcessPayment(order, posted, settings, postbackUrl, host)
  }

  /** With debug logging off, a checkout leaves no log lines. */
  lemma QuietWithoutDebug(order: Order, posted: map<string, string>, settings: Settings, postbackUrl: string, host: Host)
    requires !DebugOn(settings)
    ensures ProcessPayment(order, posted, settings, postbackUrl, host).log == []
  {
  }

  // ---------------------------------------------------------------------
  // Availability
  // ---------------------------------------------------------------------

  /** `using_supported_currency` */
  predicate UsingSupportedCurrency(currency: string) {
    currency == SupportedCurrency
  }

  /** The gateway is offered at checkout only when it is enabled, has an API
      key and the store sells in the supported currency. */
  function IsAvailable(settings: Settings, currency: string): (available: bool)
    ensures available ==> currency == "BRL" && settings.apiKey != "" && settings.apiKey != "0"
    ensures available <==> settings.enabled == "yes" && AdminNotices(settings, currency, true) == []
  {
    settings.enabled == "yes" && !PhpEmpty(settings.apiKey) && UsingSupportedCurrency(currency)
  }

  datatype AdminNotice = ApiKeyMissing | CurrencyNotSupported

  /** The configuration warnings shown on admin pages. */
  function AdminNotices(settings: Settings, currency: string, isAdmin: bool): (notices: seq<AdminNotice>)
    ensures !isAdmin ==> notices == []
    ensures ApiKeyMissing in notices <==> isAdmin && PhpEmpty(settings.apiKey)
    ensures CurrencyNotSupported in notices <==> isAdmin && !UsingSupportedCurrency(currency)
  {
    if !isAdmin then []
    else
      (if PhpEmpty(settings.apiKey) then [ApiKeyMissing] else [])
      + (if UsingSupportedCurrency(currency) then [] else [CurrencyNotSupported])
  }

  /** An enabled gateway is unavailable exactly when an administrator is
      warned about its configuration. */
  lemma AvailabilityMatchesNotices(settings: Settings, currency: string)
    requires settings.enabled == "yes"
    ensures IsAvailable(settings, currency) <==> AdminNotices(settings, currency, true) == []
  {
  }
}

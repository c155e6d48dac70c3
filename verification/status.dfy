/** The order-status transition driven by the processor's transaction status
    (`process_order_status`): which order change it makes and which admin
    e-mail and log line it emits. */
module OrderStatus {
  import opened Wrappers
  import opened Text
  import opened Gateway

  /** The `case` of the status switch a value selects. */
  datatype TransactionStatus = Processing | Paid | WaitingPayment | Refused | Refunded | Unrecognised

  /** The status strings the processor documents, and the case each selects. */
  const StatusTable: map<string, TransactionStatus> := map[
    "processing" := Processing,
    "paid" := Paid,
    "waiting_payment" := WaitingPayment,
    "refused" := Refused,
    "refunded" := Refunded]

  /** The case that `switch ($status)` enters. PHP's `switch` compares with
      the loose `==`: a string matches a case label only when equal to it; a
      boolean `true` equals every non-empty string and so enters the first
      case; null, false, integers and arrays equal none of the labels. */
  function StatusOf(v: Value): (st: TransactionStatus)
    ensures v.Str? ==> st == (if v.s in StatusTable then StatusTable[v.s] else Unrecognised)
    ensures v == Bool(true) ==> st == Processing
    ensures !v.Str? && v != Bool(true) ==> st == Unrecognised
  {
    match v
    case Str(s) =>
      if s == "processing" then Processing
      else if s == "paid" then Paid
      else if s == "waiting_payment" then WaitingPayment
      else if s == "refused" then Refused
      else if s == "refunded" then Refunded
      else Unrecognised
    case Bool(b) => if b then Processing else Unrecognised
    case _ => Unrecognised
  }

  datatype EmailKind = TransactionRejected | TransactionRefunded

  /** An e-mail to the store administrator about order `orderNumber`, whose
      body carries `link`, an HTML link to the transaction's dashboard page. */
  datatype AdminEmail = AdminEmail(kind: EmailKind, orderNumber: string, link: string)

  /** The debug-log lines, without their free-text wording. */
  datatype LogEntry =
    | TransactionAttempt(orderNumber: string)
    | TransportFailure(message: string)
    | ProcessorFailure
    | TransactionCompleted
    | StatusReported(orderNumber: string, status: string)

  const DashboardBase: string := "https://dashboard.pagar.me/#/transactions/"

  /** The processor's dashboard page of transaction `id`. */
  function DashboardUrl(id: int): (url: string)
    ensures |url| > |DashboardBase| && url[..|DashboardBase|] == DashboardBase
    ensures IntValOfText(url[|DashboardBase|..]) == id
    ensures var d := if id < 0 then url[|DashboardBase| + 1..] else url[|DashboardBase|..];
      |d| >= 1 && AllDigits(d) && (d[0] != '0' || |d| == 1)
    ensures id < 0 <==> url[|DashboardBase|] == '-'
  {
    IntToStringShape(id);
    IntValOfIntToString(id);
    assert (DashboardBase + IntToString(id))[|DashboardBase|..] == IntToString(id);
    DashboardBase + IntToString(id)
  }

  /** Different transactions have different dashboard pages. */
  lemma DashboardUrlInjective(a: int, b: int)
    requires DashboardUrl(a) == DashboardUrl(b)
    ensures a == b
  {
  }

  /** The HTML link to the dashboard page that the e-mails carry. */
  function DashboardLink(id: int): string {
    "<a href=\"" + DashboardUrl(id) + "\">" + DashboardUrl(id) + "</a>"
  }

  /** `intval(get_post_meta($order->id, '_wc_pagarme_transaction_id', true))`:
      an order without the annotation reads as 0. */
  function StoredTransactionId(order: Order): int {
    order.transactionId.GetOr(0)
  }

  datatype StatusOutcome = StatusOutcome(order: Order, emails: seq<AdminEmail>, log: seq<LogEntry>)

  /** The changes other than status and payment completion that an outcome
      makes to an order: none. */
  predicate OnlyStatusChanged(before: Order, after: Order) {
    after == before.(status := after.status, paymentCompleted := after.paymentCompleted)
  }

  function ProcessOrderStatus(order: Order, status: Value, debug: bool): (r: StatusOutcome)
    ensures OnlyStatusChanged(order, r.order)
    ensures |r.emails| <= 1
    ensures r.emails != [] <==> StatusOf(status) in {Refused, Refunded}
    ensures forall e :: e in r.emails ==>
      e.orderNumber == order.number && e.link == DashboardLink(StoredTransactionId(order))
    ensures r.order.paymentCompleted <==> order.paymentCompleted || StatusOf(status) == Paid
    ensures StatusOf(status) == Unrecognised ==> r.order == order
    ensures debug <==> r.log != []
  {
    var log := if debug then [StatusReported(order.number, TextOf(status))] else [];
    var link := DashboardLink(StoredTransactionId(order));
    match StatusOf(status)
    case Processing => StatusOutcome(order.(status := "on-hold"), [], log)
    case Paid => StatusOutcome(order.(paymentCompleted := true), [], log)
    case WaitingPayment => StatusOutcome(order.(status := "on-hold"), [], log)
    case Refused =>
      StatusOutcome(order.(status := "failed"), [AdminEmail(TransactionRejected, order.number, link)], log)
    case Refunded =>
      StatusOutcome(order.(status := "refunded"), [AdminEmail(TransactionRefunded, order.number, link)], log)
    case Unrecognised => StatusOutcome(order, [], log)
  }

  /** The transition table, for every status value the switch can receive:
      the processing and waiting_payment cases put the order on hold, paid
      starts the payment-complete flow, refused fails the order and refunded
      refunds it, the last two with exactly one admin e-mail of their kind;
      a value no case selects changes nothing. */
  lemma TransitionTable(order: Order, status: Value, debug: bool)
    ensures var r := ProcessOrderStatus(order, status, debug);
      && (StatusOf(status) in {Processing, WaitingPayment} ==> r.order == order.(status := "on-hold") && r.emails == [])
      && (StatusOf(status) == Paid ==> r.order == order.(paymentCompleted := true) && r.emails == [])
      && (StatusOf(status) == Refused ==>
            && r.order == order.(status := "failed")
            && r.emails == [AdminEmail(TransactionRejected, order.number, DashboardLink(StoredTransactionId(order)))])
      && (StatusOf(status) == Refunded ==>
            && r.order == order.(status := "refunded")
            && r.emails == [AdminEmail(TransactionRefunded, order.number, DashboardLink(StoredTransactionId(order)))])
      && (StatusOf(status) == Unrecognised ==> r.order == order && r.emails == [])
  {
  }

  /** Receiving the same status again leaves the order as the first time. */
  lemma ProcessOrderStatusIdempotent(order: Order, status: Value, debug: bool)
    ensures var once := ProcessOrderStatus(order, status, debug).order;
      ProcessOrderStatus(once, status, debug).order == once
  {
  }

  /** The e-mails do not depend on the order's current status: a refused or
      refunded notice names the stored transaction whatever state it finds. */
  lemma EmailsIgnoreCurrentStatus(order: Order, status: Value, debug: bool, current: string)
    ensures ProcessOrderStatus(order.(status := current), status, debug).emails
         == ProcessOrderStatus(order, status, debug).emails
  {
  }
}

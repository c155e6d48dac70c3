/** The records the gateway works on: the gateway settings, the WooCommerce
    order with the three annotations the gateway attaches to it, and the
    decoded JSON values the payment processor sends back. */
module Gateway {
  import opened Wrappers
  import opened Text

  /** The gateway's identifier; posted form fields are prefixed with it. */
  const GatewayId: string := "pagarme"

  /** The only settlement currency the processor accepts. */
  const SupportedCurrency: string := "BRL"

  /** The stored option values of the gateway ("yes"/"no" for checkboxes). */
  datatype Settings = Settings(enabled: string, apiKey: string, sandbox: string, debug: string)

  predicate DebugOn(settings: Settings) {
    settings.debug == "yes"
  }

  /** The billing fields of an order that the request is built from. A field
      the store does not have is the empty string. */
  datatype Billing = Billing(
    firstName: string,
    lastName: string,
    company: string,
    email: string,
    address1: string,
    number: string,
    address2: string,
    neighborhood: string,
    postcode: string,
    phone: string,
    personType: string,
    cpf: string,
    cnpj: string,
    sex: string,
    birthdate: string)

  /** The six sanitised response fields stored as `_wc_pagarme_transaction_data`. */
  datatype PaymentData = PaymentData(
    paymentMethod: string,
    installments: string,
    cardBrand: string,
    antifraudScore: string,
    boletoUrl: string,
    subscriptionId: string)

  /** An order as far as the gateway reads and changes it. `status` is the
      WooCommerce status slug; `paymentCompleted` records that the store's
      payment-complete flow was started. The last three fields are the order
      annotations `_wc_pagarme_transaction_id`, `_wc_pagarme_transaction_data`
      and the dashboard-link annotation. */
  datatype Order = Order(
    id: nat,
    number: string,
    totalCents: nat,
    billing: Billing,
    status: string,
    paymentCompleted: bool,
    transactionId: Option<int>,
    transactionData: Option<PaymentData>,
    detailsLink: Option<string>)

  /** A value produced by `json_decode($body, true)`. Floating-point numbers
      are not modelled. */
  datatype Value =
    | Null
    | Bool(b: bool)
    | Int(i: int)
    | Str(s: string)
    | Arr(items: seq<Value>)
    | Obj(fields: map<string, Value>)

  /** PHP's string conversion of a scalar; an array reads as "Array". */
  function TextOf(v: Value): string {
    match v
    case Null => ""
    case Bool(b) => if b then "1" else ""
    case Int(i) => IntToString(i)
    case Str(s) => s
    case Arr(_) => "Array"
    case Obj(_) => "Array"
  }

  /** PHP's `intval`. JSON objects decode to arrays, so both array forms give
      0 when empty and 1 otherwise. */
  function IntVal(v: Value): int {
    match v
    case Null => 0
    case Bool(b) => if b then 1 else 0
    case Int(i) => i
    case Str(s) => IntValOfText(s)
    case Arr(items) => if items == [] then 0 else 1
    case Obj(fields) => if fields == map[] then 0 else 1
  }

  /** Reading an integer back from its string conversion gives the integer:
      a numeric id survives being sent as text. */
  lemma IntValReadsText(i: int)
    ensures IntVal(Str(TextOf(Int(i)))) == i
  {
    IntValOfIntToString(i);
  }

  /** `$array[$key]` on a decoded response: a missing key reads as null. */
  function Lookup(t: map<string, Value>, key: string): Value {
    if key in t then t[key] else Null
  }

  /** PHP's `isset($array[$key])`: present and not null. */
  predicate IsSet(t: map<string, Value>, key: string) {
    key in t && !t[key].Null?
  }
}

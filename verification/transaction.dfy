/** The transaction request the gateway sends to the processor, and how it is
    built from the order's billing fields and the posted checkout form
    (`generate_transaction_data`). */
module TransactionData {
  import opened Wrappers
  import opened Text
  import opened Gateway

  datatype Address = Address(
    street: string,
    streetNumber: string,
    complementary: string,
    neighborhood: string,
    zipcode: string)

  /** The phone split into the two-digit area code (`ddd`) and the rest. */
  datatype Phone = Phone(ddd: string, number: string)

  datatype Customer = Customer(
    name: string,
    email: string,
    address: Address,
    phone: Phone,
    documentNumber: Option<string>,
    sex: Option<string>,
    bornAt: Option<string>)

  /** The `payment_method` values sent: `credit_card` and `boleto`. */
  datatype PaymentMethod = CreditCard | Boleto

  /** The four card fields, sent only for card payments. */
  datatype Card = Card(number: string, holderName: string, expirationDate: string, cvv: string)

  datatype TransactionRequest = TransactionRequest(
    apiKey: string,
    amount: string,
    paymentMethod: PaymentMethod,
    postbackUrl: string,
    customer: Customer,
    card: Option<Card>)

  /** The posted form value `pagarme_<name>`; a field that was not posted
      reads as the empty string. */
  function PostedField(posted: map<string, string>, name: string): string {
    var key := GatewayId + "_" + name;
    if key in posted then posted[key] else ""
  }

  /** `number_format(total, 2, '', '')` of a total given in cents: the whole
      units in decimal followed by exactly two fraction digits, with neither
      a decimal nor a thousands separator. */
  function FormatAmount(cents: nat): (r: string)
    ensures AllDigits(r) && |r| >= 3
    ensures r[|r| - 2..] == Pad2(cents % 100)
    ensures ParseDigits(r) == cents
    ensures r[0] == '0' <==> cents < 100
    ensures cents < 100 ==> |r| == 3
  {
    var whole := NatToString(cents / 100);
    var fraction := Pad2(cents % 100);
    ParseNatToString(cents / 100);
    ParseAppendTwo(whole, fraction);
    whole + fraction
  }

  /** Two totals are rendered alike only if they are equal. */
  lemma FormatAmountInjective(a: nat, b: nat)
    requires FormatAmount(a) == FormatAmount(b)
    ensures a == b
  {
  }

  /** 19.90 is sent as "1990". */
  lemma FormatAmountNineteenNinety()
    ensures FormatAmount(1990) == "1990"
  {
    assert NatToString(1) == "1";
    assert NatToString(19) == NatToString(1) + [DigitChar(9)] == "19";
    assert Pad2(90) == "90";
  }

  /** 0.05 is sent as "005": the whole part is always written, even when zero. */
  lemma FormatAmountFiveCents()
    ensures FormatAmount(5) == "005"
  {
    assert NatToString(0) == "0";
    assert Pad2(5) == "05";
  }

  /** `substr($phone, 0, 2)` and `substr($phone, 2)`. */
  function SplitPhone(digits: string): (p: Phone)
    ensures p.ddd + p.number == digits
    ensures |p.ddd| == if |digits| < 2 then |digits| else 2
  {
    var k := if |digits| < 2 then |digits| else 2;
    Phone(digits[..k], digits[k..])
  }

  /** The customer gender code: the first character of the billing sex,
      upper-cased, when that field is not empty. */
  function SexCode(raw: string): (r: Option<string>)
    ensures r.Some? <==> !PhpEmpty(raw)
    ensures r.Some? ==> |r.value| == 1 && r.value[0] == ToUpperAscii(raw[0])
  {
    if PhpEmpty(raw) then None else Some([ToUpperAscii(raw[0])])
  }

  /** `$parts[$i]` where a missing offset reads as null, i.e. "". */
  function Part(parts: seq<string>, i: nat): string {
    if i < |parts| then parts[i] else ""
  }

  /** The birthdate re-encoding: the second slash-separated piece, then the
      first, then the third, joined by dashes. */
  function BornAt(raw: string): (r: Option<string>)
    ensures r.Some? <==> !PhpEmpty(raw)
  {
    if PhpEmpty(raw) then None
    else
      var parts := Explode(raw, '/');
      Some(Part(parts, 1) + "-" + Part(parts, 0) + "-" + Part(parts, 2))
  }

  /** A `DD/MM/YYYY` date is sent as `MM-DD-YYYY`. */
  lemma {:induction false} BornAtDayMonthYear(d: string, m: string, y: string)
    requires Lacks(d, '/') && Lacks(m, '/') && Lacks(y, '/')
    ensures BornAt(d + "/" + m + "/" + y) == Some(m + "-" + d + "-" + y)
  {
    var raw := d + "/" + m + "/" + y;
    assert raw[|d|] == '/';
    assert Join([d, m, y], '/') == raw by {
      assert Join([d, m, y][1..], '/') == m + "/" + y by {
        assert [d, m, y][1..] == [m, y];
        assert [m, y][1..] == [y];
      }
    }
    ExplodeJoin([d, m, y], '/');
  }

  /** Whatever the number of pieces beyond three, the first three are sent
      as second, first and third, joined by dashes. */
  lemma {:induction false} BornAtPieces(parts: seq<string>)
    requires |parts| >= 3
    requires forall k :: 0 <= k < |parts| ==> Lacks(parts[k], '/')
    ensures BornAt(Join(parts, '/')) == Some(parts[1] + "-" + parts[0] + "-" + parts[2])
  {
    assert Join(parts, '/') == parts[0] + ['/'] + Join(parts[1..], '/');
    assert Join(parts, '/')[|parts[0]|] == '/';
    ExplodeJoin(parts, '/');
  }

  /** A date without a slash is sent as `-D-`: it is only the first piece. */
  lemma {:induction false} BornAtOnePiece(d: string)
    requires Lacks(d, '/') && !PhpEmpty(d)
    ensures BornAt(d) == Some("-" + d + "-")
  {
    assert Join([d], '/') == d;
    ExplodeJoin([d], '/');
    assert Part([d], 1) == "" && Part([d], 2) == "";
    assert "" + "-" + d + "-" + "" == "-" + d + "-";
  }

  /** A date with only two pieces leaves the year empty: `DD/MM` is sent as
      `MM-DD-`. */
  lemma {:induction false} BornAtTwoPieces(d: string, m: string)
    requires Lacks(d, '/') && Lacks(m, '/')
    ensures BornAt(d + "/" + m) == Some(m + "-" + d + "-")
  {
    var raw := d + "/" + m;
    assert raw[|d|] == '/';
    assert Join([d, m], '/') == raw by {
      assert [d, m][1..] == [m];
    }
    ExplodeJoin([d, m], '/');
    assert Part([d, m], 2) == "";
    assert m + "-" + d + "-" + "" == m + "-" + d + "-";
  }

  /** The customer name and document number after the person-type branch:
      type "1" (individual) keeps the billing name and sends the CPF digits;
      type "2" (company) sends the company name and the CNPJ digits; any
      other value, including an empty one, sends no document number. */
  function NameAndDocument(b: Billing): (r: (string, Option<string>))
    ensures b.personType == "1" ==> r == (b.firstName + " " + b.lastName, Some(OnlyNumbers(b.cpf)))
    ensures b.personType == "2" ==> r == (b.company, Some(OnlyNumbers(b.cnpj)))
    ensures b.personType != "1" && b.personType != "2" ==> r == (b.firstName + " " + b.lastName, None)
    ensures r.1.Some? ==> AllDigits(r.1.value)
  {
    var name := b.firstName + " " + b.lastName;
    if PhpEmpty(b.personType) then (name, None)
    else if b.personType == "1" then (name, Some(OnlyNumbers(b.cpf)))
    else if b.personType == "2" then (b.company, Some(OnlyNumbers(b.cnpj)))
    else (name, None)
  }

  /** The card fields read from the posted form. */
  function CardFromForm(posted: map<string, string>): (c: Card)
    ensures AllDigits(c.number) && AllDigits(c.expirationDate)
  {
    Card(
      OnlyNumbers(PostedField(posted, "card_number")),
      PostedField(posted, "card_holder_name"),
      OnlyNumbers(PostedField(posted, "card_expiry")),
      PostedField(posted, "card_cvc"))
  }

  /** The request before third-party filters run. */
  function AssembleTransactionData(order: Order, posted: map<string, string>, settings: Settings, postbackUrl: string): (r: TransactionRequest)
    ensures r.apiKey == settings.apiKey && r.postbackUrl == postbackUrl
    ensures r.amount == FormatAmount(order.totalCents)
    ensures AllDigits(r.amount) && ParseDigits(r.amount) == order.totalCents
    ensures r.customer.phone.ddd + r.customer.phone.number == OnlyNumbers(order.billing.phone)
    ensures AllDigits(r.customer.address.zipcode)
    ensures r.customer.documentNumber.Some? <==> order.billing.personType in {"1", "2"}
    ensures r.customer.sex.Some? <==> !PhpEmpty(order.billing.sex)
    ensures r.customer.bornAt.Some? <==> !PhpEmpty(order.billing.birthdate)
    ensures r.paymentMethod == CreditCard <==> PostedField(posted, "payment_method") == "credit-card"
    ensures r.card.Some? <==> r.paymentMethod == CreditCard
    ensures r.card.Some? ==> AllDigits(r.card.value.number) && AllDigits(r.card.value.expirationDate)
  {
    var b := order.billing;
    var phone := OnlyNumbers(b.phone);
    var (name, document) := NameAndDocument(b);
    var customer := Customer(
      name,
      b.email,
      Address(b.address1, b.number, b.address2, b.neighborhood, OnlyNumbers(b.postcode)),
      SplitPhone(phone),
      document,
      SexCode(b.sex),
      BornAt(b.birthdate));
    var card := PostedField(posted, "payment_method") == "credit-card";
    TransactionRequest(
      settings.apiKey,
      FormatAmount(order.totalCents),
      if card then CreditCard else Boleto,
      postbackUrl,
      customer,
      if card then Some(CardFromForm(posted)) else None)
  }

  /** What the card fields carry: the card number and expiry are exactly
      the digits typed into the form, in order, and the holder name and CVV
      are passed through unchanged; a boleto request carries no card. */
  lemma CardFieldsFromForm(order: Order, posted: map<string, string>, settings: Settings, postbackUrl: string)
    ensures var r := AssembleTransactionData(order, posted, settings, postbackUrl);
      && (r.card.Some? ==>
            && r.card.value.number == OnlyNumbers(PostedField(posted, "card_number"))
            && r.card.value.holderName == PostedField(posted, "card_holder_name")
            && r.card.value.expirationDate == OnlyNumbers(PostedField(posted, "card_expiry"))
            && r.card.value.cvv == PostedField(posted, "card_cvc"))
      && (PostedField(posted, "payment_method") != "credit-card" ==> r.paymentMethod == Boleto && r.card.None?)
  {
  }

  /** The customer record: the phone digits are split into area code and
      subscriber number, the document number and name follow the person
      type, and the e-mail and address lines are copied. */
  lemma CustomerFields(order: Order, posted: map<string, string>, settings: Settings, postbackUrl: string)
    ensures var c := AssembleTransactionData(order, posted, settings, postbackUrl).customer;
      && c.phone == SplitPhone(OnlyNumbers(order.billing.phone))
      && (c.name, c.documentNumber) == NameAndDocument(order.billing)
      && c.email == order.billing.email
      && c.address == Address(order.billing.address1, order.billing.number, order.billing.address2,
                              order.billing.neighborhood, OnlyNumbers(order.billing.postcode))
      && c.sex == SexCode(order.billing.sex)
      && c.bornAt == BornAt(order.billing.birthdate)
  {
  }

  /** `generate_transaction_data`: the assembled request passed through the
      `wc_pagarme_transaction_data` filter chain. */
  function GenerateTransactionData(
    order: Order, posted: map<string, string>, settings: Settings, postbackUrl: string,
    filter: TransactionRequest -> TransactionRequest): (r: TransactionRequest)
    ensures r == filter(AssembleTransactionData(order, posted, settings, postbackUrl))
    ensures var a := AssembleTransactionData(order, posted, settings, postbackUrl);
      filter(a) == a ==>
        && r == a
        && AllDigits(r.amount) && ParseDigits(r.amount) == order.totalCents
        && (r.card.Some? <==> r.paymentMethod == CreditCard)
  {
    filter(AssembleTransactionData(order, posted, settings, postbackUrl))
  }
}

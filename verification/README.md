# Pagar.me checkout gateway — a Dafny model

This project models the checkout logic of the WooCommerce payment gateway for
the Pagar.me processor (`WC_PagarMe_Gateway`). It covers three parts:

- **The transaction request builder** (`generate_transaction_data`,
  `only_numbers`). It maps an order's billing fields and the posted checkout
  form to the request record sent to the processor.
- **The order-status transition** (`process_order_status`). It maps the
  processor's transaction status to an order change plus at most one admin
  e-mail.
- **The checkout step** (`do_transaction`, `process_payment`, `is_available`).
  It submits the request, classifies the answer, stores the transaction
  annotations on the order, applies the status transition and returns
  `success` or `fail`.

Everything is modelled functionally:

- An order is an immutable record. Its three annotations
  (`_wc_pagarme_transaction_id`, `_wc_pagarme_transaction_data` and the
  dashboard-link annotation) are `Option` fields.
- E-mails, checkout notices and debug-log lines are output lists.
- The WordPress collaborators are fields of a `Host` record:
  - the `wc_pagarme_transaction_data` filter chain (a function on requests);
  - the HTTP POST (a function from the request to a transport outcome, which
    is a transport error or a decoded JSON value);
  - `sanitize_text_field` (a string function).
- Money is a natural number of cents.

Modules:

| file | module | contents |
|---|---|---|
| wrappers.dfy | `Wrappers` | `Option` |
| text.dfy | `Text` | `only_numbers`, decimal rendering and `intval` of strings, `explode`, `strtoupper` on one character, PHP `empty()` |
| gateway.dfy | `Gateway` | settings, billing fields, order, decoded JSON values |
| transaction.dfy | `TransactionData` | the request record and its builder |
| status.dfy | `OrderStatus` | the status switch, admin e-mails, dashboard links |
| checkout.dfy | `Checkout` | `do_transaction`, `process_payment`, availability and admin warnings |

Behaviour of the code that the model keeps:

- **Amount.** `number_format(total, 2, '', '')` always writes the whole part,
  so 0.05 is sent as `"005"`.
- **Birthdate.** A birthdate `DD/MM/YYYY` is sent as `MM-DD-YYYY`: pieces 1, 0
  and 2 of the `/`-split, joined by dashes.
- **Short birthdates.** A birthdate with fewer than three pieces is sent all
  the same. Each missing piece reads as an empty string, which is what PHP
  does for an undefined offset, so `DD/MM` is sent as `MM-DD-` and `D` as
  `-D-`.
- **Replies without a transaction.** `process_payment` only checks the answer
  for `errors`. A transport error (for which `do_transaction` returns an
  empty array) and a body that decodes to null, a list or a number or boolean
  both take the success branch and store transaction id 0 (see Findings).
- **PHP `empty()`.** The string `"0"` counts as empty, so a billing sex or
  birthdate of `"0"` adds no field, and an API key of `"0"` makes the gateway
  unavailable.

## Model

| member | source | states |
|---|---|---|
| Text.OnlyNumbers | includes/class-wc-pagarme-gateway.php:159-161 | the result has only the characters 0-9 and is no longer than the input |
| Text.OnlyNumbersAppend | includes/class-wc-pagarme-gateway.php:159-161 | stripping distributes over concatenation, so the surviving digits keep their original order |
| Text.OnlyNumbersCounts | includes/class-wc-pagarme-gateway.php:159-161 | every digit occurs in the result exactly as often as in the input; no other character occurs |
| Text.OnlyNumbersFixpoint | includes/class-wc-pagarme-gateway.php:159-161 | a string is returned unchanged if and only if it is made of digits only |
| Text.OnlyNumbersIdempotent | includes/class-wc-pagarme-gateway.php:159-161 | stripping twice is the same as stripping once |
| Text.JoinExplode | includes/class-wc-pagarme-gateway.php:225 | the `explode('/')` pieces joined by `/` give back the birthdate, and no piece contains `/` |
| Text.ExplodeJoin | includes/class-wc-pagarme-gateway.php:225 | exploding a `/`-join of slash-free pieces gives those pieces back |
| TransactionData.FormatAmount | includes/class-wc-pagarme-gateway.php:186 | the amount has only digits and at least 3 of them; its last two are the zero-padded cents; read as a number it is the total in cents; it starts with 0 exactly when the total is under one unit, and then has exactly 3 digits |
| TransactionData.FormatAmountInjective | includes/class-wc-pagarme-gateway.php:186 | different totals are sent as different amounts |
| TransactionData.FormatAmountNineteenNinety | includes/class-wc-pagarme-gateway.php:186 | 19.90 is sent as "1990" |
| TransactionData.FormatAmountFiveCents | includes/class-wc-pagarme-gateway.php:186 | 0.05 is sent as "005" |
| TransactionData.SplitPhone | includes/class-wc-pagarme-gateway.php:199-202 | area code followed by number is the phone digit string; the area code is the first two digits, or all of them when there are fewer than two |
| TransactionData.NameAndDocument | includes/class-wc-pagarme-gateway.php:206-216 | type "1" keeps the name "first last" and sends the CPF digits; type "2" sends the company name and the CNPJ digits; any other value sends no document number |
| TransactionData.SexCode | includes/class-wc-pagarme-gateway.php:218-221 | the sex field is present if and only if the billing sex is not empty, and is then one character: the first one, upper-cased |
| TransactionData.BornAt | includes/class-wc-pagarme-gateway.php:223-228 | the birthdate field is present if and only if the billing birthdate is not empty |
| TransactionData.BornAtDayMonthYear | includes/class-wc-pagarme-gateway.php:224-227 | `D/M/Y` with slash-free pieces is sent as `M-D-Y` |
| TransactionData.BornAtPieces | includes/class-wc-pagarme-gateway.php:224-227 | a `/`-join of three or more slash-free pieces is sent as piece 1, piece 0 and piece 2 joined by `-`; later pieces are dropped |
| TransactionData.BornAtOnePiece | includes/class-wc-pagarme-gateway.php:224-227 | a non-empty birthdate without `/` is sent as `-D-` |
| TransactionData.BornAtTwoPieces | includes/class-wc-pagarme-gateway.php:224-227 | `D/M` is sent as `M-D-`, because the missing third piece reads as empty |
| TransactionData.CardFromForm | includes/class-wc-pagarme-gateway.php:230-234 | the card number and expiry are digit-only |
| TransactionData.AssembleTransactionData | includes/class-wc-pagarme-gateway.php:181-237 | the amount is the `number_format` rendering of the total (`FormatAmount`, so 5 cents is sent as "005") and reads back as the total; phone pieces concatenate to the phone digits; the zipcode is digits only; a document number is present exactly for person types 1 and 2; sex and birthdate are present exactly when non-empty; credit card is chosen exactly when the form says `credit-card`, and card fields are present exactly for credit card |
| TransactionData.CardFieldsFromForm | includes/class-wc-pagarme-gateway.php:230-237 | card number and expiry are the digits of the posted values; holder name and CVV are copied verbatim; any other posted method gives boleto and no card fields |
| TransactionData.CustomerFields | includes/class-wc-pagarme-gateway.php:189-228 | the customer record is made of the split phone digits, the person-type name and document, the copied e-mail, the address built from billing address 1, number, address 2 and neighborhood with the stripped postcode as zipcode, and the optional sex and birthdate |
| TransactionData.GenerateTransactionData | includes/class-wc-pagarme-gateway.php:171-243 | the request returned is the filter applied to the assembled request; when the filter passes it through unchanged, the amount sent reads back as the order total and card fields are present exactly for credit card |
| OrderStatus.StatusOf | includes/class-wc-pagarme-gateway.php:406-449 | a status string selects the case named in the status table, and any other string selects no case; under PHP's loose comparison `true` selects `processing` and other non-strings select no case |
| OrderStatus.DashboardUrl | includes/class-wc-pagarme-gateway.php:370 | the link is the dashboard base followed by the id in canonical decimal: a `-` exactly for negative ids, then digits without a leading zero (unless the id is 0), which `intval` reads back as the id |
| OrderStatus.DashboardUrlInjective | includes/class-wc-pagarme-gateway.php:370 | different transaction ids give different dashboard links |
| Gateway.IntValReadsText | includes/class-wc-pagarme-gateway.php:425 | `intval` of the stored id's text is the id |
| OrderStatus.ProcessOrderStatus | includes/class-wc-pagarme-gateway.php:401-453 | only status and payment completion change; at most one e-mail, sent exactly for refused and refunded, naming the order and linking the stored transaction id; payment completes exactly on paid; an unrecognised status changes nothing; a log line is written exactly when debugging |
| OrderStatus.TransitionTable | includes/class-wc-pagarme-gateway.php:406-452 | for any status value: the processing and waiting_payment cases give on-hold (so does `true`, which the loose switch sends to processing); the paid case starts payment completion; refused gives failed with one rejection e-mail and refunded gives refunded with one refund e-mail, each naming the order and linking the stored transaction; a value no case selects changes nothing |
| OrderStatus.ProcessOrderStatusIdempotent | includes/class-wc-pagarme-gateway.php:406-452 | receiving the same status again leaves the order as after the first time |
| OrderStatus.EmailsIgnoreCurrentStatus | includes/class-wc-pagarme-gateway.php:422-446 | the e-mails depend on the stored transaction, not on the order's current status |
| Checkout.DoTransaction | includes/class-wc-pagarme-gateway.php:253-292 | the filtered request is submitted; a transport error yields the empty array, otherwise the decoded object; two log lines with debugging, none without |
| Checkout.ErrorNotices | includes/class-wc-pagarme-gateway.php:301-313 | one checkout notice per entry of the `errors` list, in order, carrying that entry's message |
| Checkout.Annotate | includes/class-wc-pagarme-gateway.php:356-370 | the order gets the integer transaction id, the six-field data bundle and the dashboard link, and nothing else changes |
| Checkout.ProcessPayment | includes/class-wc-pagarme-gateway.php:343-391 | fail exactly when the answer sets `errors`; then the order is unchanged, one notice per message, no e-mail and the cart is kept; otherwise success with the three annotations stored, at most one e-mail, linking the answer's transaction id, and the cart emptied (which e-mail: `Checkout.ProcessPaymentAppliesStatus`) |
| Checkout.ProcessPaymentAppliesStatus | includes/class-wc-pagarme-gateway.php:356-372 | on success the final order and the admin e-mails are exactly those of the status transition applied to the annotated order, so a `refused` or `refunded` answer sends its one e-mail |
| Checkout.TransportFailureTakesSuccessBranch | includes/class-wc-pagarme-gateway.php:269-274 | a transport error gives success, stores id 0 and its dashboard link, and leaves status, payment state and e-mails untouched |
| Checkout.UndecodableReplyTakesSuccessBranch | includes/class-wc-pagarme-gateway.php:276-292 | a body that decodes to null, a list, a number or a boolean gives success, stores id 0 with an all-null data bundle and empties the cart |
| Checkout.ProcessPaymentCorrected | includes/class-wc-pagarme-gateway.php:343-391 | a reply that is not a processor object (transport error or undecodable body) gives fail with one notice, the order untouched, no e-mail and the cart kept; a processor answer is handled exactly as the source does; success always records a transaction id |
| Checkout.QuietWithoutDebug | includes/class-wc-pagarme-gateway.php:263-287 | with debug off, no log line is produced |
| Checkout.IsAvailable | includes/class-wc-pagarme-gateway.php:91-96 | the gateway is available exactly when it is enabled and an administrator would get no configuration warning; availability implies the currency is BRL and the API key is neither "" nor "0" |
| Checkout.AdminNotices | includes/class-wc-pagarme-gateway.php:70-82 | administrators are warned about a missing API key exactly when it is empty, and about the currency exactly when it is not BRL; others see nothing |
| Checkout.AvailabilityMatchesNotices | includes/class-wc-pagarme-gateway.php:70-96 | an enabled gateway is available exactly when an administrator gets no configuration warning |

## Left out

- HTTP submission is a function parameter (`Host.send`). This covers `wp_remote_post`, `http_build_query`, the 60-second timeout and the disabled certificate check.
- JSON decoding is not modelled: the answer arrives already decoded. Floating-point JSON numbers are not represented.
- A JSON object under `errors` is treated like a non-list and yields no notices. PHP would iterate its values, but a Dafny `map` has no order.
- The `wc_pagarme_transaction_data` filter is an arbitrary function parameter (`Host.filter`). The builder's properties are stated for the request before the filter runs.
- `sanitize_text_field` is an arbitrary string function (`Host.sanitize`). Only its refusal of arrays is modelled.
- A body that decodes to a JSON string, and a string entry of the `errors` list, are read as having no keys (so `Lookup` gives null and `MessageOf` gives `""`). In PHP, `$transaction['id']` and `$message['message']` on a string read a character offset: PHP 7 warns and gives the first character, PHP 8 raises a TypeError. Neither is modelled, and `Checkout.UndecodableReplyTakesSuccessBranch` excludes string bodies.
- The mailer, `wc_add_notice`, the logger and cart emptying are outputs of the model: e-mails, notices, log lines and a flag. They are not side effects.
- The checkout notice of the corrected flow (`Checkout.NoTransactionNotice`) has wording of the model's own; the source has no such message.
- The free-text wording of e-mails, notes, notices and log lines is left out, because it consists of translation strings. E-mails carry their kind, the order number and the dashboard link. Order notes are not modelled.
- `payment_complete()` only sets the order's `paymentCompleted` flag. WooCommerce's own choice between processing and completed, and its stock handling, belong to the store.
- The order total is a natural number of cents. The float rounding of `number_format` and negative totals are not modelled.
- Strings are sequences of characters, not bytes. `substr($sex, 0, 1)` on a multi-byte first character and locale-dependent upper-casing are not modelled. `strtoupper` is ASCII upper-casing.
- `substr` on a phone with fewer than two digits follows PHP 8 and yields `""`. Older PHP yields `false`.
- `TransactionData.NameAndDocument`: matches only the exact strings `"1"` and `"2"`. PHP's loose `1 == $persontype` also accepts other numeric spellings such as `"01"` or `"1.0"`.
- `OrderStatus.StatusOf`: uses PHP 8 loose comparison. Under PHP 7, an integer status of 0 would also match `processing`.
- `Text.IntValOfText`: reads leading white space, a sign and a run of digits. The exponent forms and the 64-bit saturation of PHP's `intval` are not modelled.
- The redirect URL of a successful checkout, `thankyou_page`, `payment_fields`, the settings form, the admin-notice HTML and the constructor are left out. They are WordPress presentation code.

## Findings

| source | as written | input that shows it | evidently intended | confidence | as-written member | corrected member |
|---|---|---|---|---|---|---|
| includes/class-wc-pagarme-gateway.php:269-274 | a transport error makes `do_transaction` return `array()`; `process_payment` tests only `isset($transaction['errors'])` and so returns `success`, empties the cart and stores transaction id 0 with a dashboard link to transaction 0 | any checkout whose POST fails (DNS failure, timeout) | no transaction took place, so the checkout fails with a notice and the order and cart are left alone | unconfirmed; not executed | Checkout.TransportFailureTakesSuccessBranch | Checkout.ProcessPaymentCorrected |
| includes/class-wc-pagarme-gateway.php:276-292 | when the body does not decode to an array (for instance, it is not JSON at all), `json_decode` gives null, `isset($transaction_data['errors'])` is false, and `process_payment` returns `success`, empties the cart and stores transaction id 0 | a processor or proxy answering with an HTML error page | no transaction can be recorded, so the checkout fails with a notice and the order and cart are left alone | unconfirmed; not executed | Checkout.UndecodableReplyTakesSuccessBranch | Checkout.ProcessPaymentCorrected |

# pagsmile-cc checkout core in Dafny

A model of the statable core of the pagsmile-cc checkout relay, with the
properties proved about it:

- the browser's input formatters and checks (`frontend.ts`): card-number,
  CPF and phone masks, `parseAmount`, the ordered card-brand detector, the
  CPF check digits (the Receita Federal mod-11 scheme), the e-mail pattern
  and `validateForm`;
- the payment-state bookkeeping of `PaymentApp` (`frontend.ts`) as a class:
  the state record, the polling interval and the browser's table of live
  intervals, the status overlay, the 3DS modal and the loading flag;
- the gateway tables (`constants/pagsmile.ts`): endpoints, result codes and
  `getErrorMessage`, terminal trade states;
- the gateway client (`api/pagsmile-client.ts`): the HTTP Basic credential
  of section 2 of RFC 7617 over the base 64 encoding of section 4 of RFC
  4648, and the three request records with their URLs;
- the backend's decisions (`index.ts`): `getClientIp` and each API route's
  reply for a gateway result.

Files and modules: `wrappers.dfy` (`Option`), `text.dfy` (JavaScript string
primitives: `\D` removal, `trim`, `split`, UTF-16 length, decimal numerals),
`base64.dfy`, `payment_types.dfy` (the declared unions and records),
`pagsmile_constants.dfy`, `pagsmile_client.dfy`, `server.dfy`,
`formatters.dfy`, `form_validation.dfy`, `checkout.dfy`.

Conventions: `None` in a record stands for a member that is `undefined`
(and that `JSON.stringify` omits) or for `null`; `string` is a sequence of
Unicode scalar values, and `.length` is counted in UTF-16 code units where
the source compares it; white space is the ECMAScript WhiteSpace and
LineTerminator set, which both `\s` and `trim` use.

## Model

| member | source | states |
|---|---|---|
| Text.IsDigit | frontend.ts:68 | the class `\d`: the ASCII digits 0 to 9 |
| Text.IsSpace | frontend.ts:140 | the class `\s` and the white space `trim()` removes: the ECMAScript WhiteSpace and LineTerminator code points |
| Text.Digits | frontend.ts:68 | `replace(/\D/g, "")` keeps only ASCII digits, never grows the input, and leaves a digit string unchanged |
| Text.DigitsAppend | frontend.ts:68 | removing non-digits distributes over concatenation |
| Text.Trim | frontend.ts:328 | `trim()` yields the input's middle slice after its leading white space, with no white space at either end, and is empty exactly for all-blank input |
| Text.Utf16Length | frontend.ts:328 | `.length` lies between the number of code points and twice it, and equals it when every code point is in the BMP |
| Text.IndexOf | index.ts:49 | the position of the first occurrence of a character that occurs |
| Text.Split | index.ts:49 | `split(",")` yields at least one piece, no piece holds the separator, and the first piece is the text before the first separator |
| Text.JoinSplit | index.ts:49 | joining the pieces of a split with the separator gives back the string |
| Text.NatToString | frontend.ts:99 | the decimal numeral of a natural number has no leading zero and reads back as that number |
| Base64.Char | api/pagsmile-client.ts:30 | the alphabet of base 64 (Table 1 of RFC 4648): A-Z, a-z, 0-9, "+", "/" for the values 0 to 63 |
| Base64.Index | api/pagsmile-client.ts:30 | the inverse of that table; no value for a character outside the alphabet |
| Base64.Encode | api/pagsmile-client.ts:30 | what `btoa` writes: each three bytes as four characters, a final one or two bytes as two or three characters followed by "==" or "=" |
| Base64.Decode | api/pagsmile-client.ts:30 | strict decoding: a whole number of four-character quanta, alphabet characters only, "=" only at the end of the last quantum, and the bits the padding drops equal to zero |
| Base64.EncodeLength | api/pagsmile-client.ts:30 | the encoding of n bytes has 4·⌈n/3⌉ characters |
| Base64.DecodeEncode | api/pagsmile-client.ts:30 | strict decoding of an encoding gives back exactly the bytes |
| Base64.EncodeDecode | api/pagsmile-client.ts:30 | strict decoding accepts only canonical text: whatever it decodes is the encoding of its result |
| Base64.EncodeInjective | api/pagsmile-client.ts:30 | different byte strings have different encodings |
| PagsmileClient.Latin1 | api/pagsmile-client.ts:30 | `btoa` accepts the string exactly when every character is at most U+00FF, and then reads it as those bytes |
| PagsmileClient.Credentials | api/pagsmile-client.ts:29 | the text `appId:securityKey` |
| PagsmileClient.CreateAuthHeader | api/pagsmile-client.ts:28-32 | the header exists exactly when `btoa` accepts `appId:securityKey`; it is "Basic " followed by 4·⌈n/3⌉ characters that decode back to exactly the credentials |
| PagsmileClient.AuthHeaderDetermined | api/pagsmile-client.ts:28-32 | any "Basic " text whose encoded part decodes to the credentials is the header itself |
| PagsmileClient.CredentialsSplit | api/pagsmile-client.ts:29 | a receiver splitting at the first colon recovers the id exactly when the id has no colon, and then the key too |
| PagsmileClient.OperationPath | api/pagsmile-client.ts:87-157 | the paths "/trade/create", "/trade/pay" and "/trade/query" of the three calls |
| PagsmileClient.RequestUrl | api/pagsmile-client.ts:36 | every request URL is the environment's gateway followed by the operation's path |
| PagsmileClient.RequestUrlInjective | api/pagsmile-client.ts:36 | distinct environment/operation pairs never share a URL |
| PagsmileClient.CreateClient | api/pagsmile-client.ts:34-42 | a client exists exactly when the credential header can be built, and keeps the configuration and that header |
| PagsmileClient.CreateOrderRequest | api/pagsmile-client.ts:57-87 | `/trade/create` with the client's credential; `trade_type` "API", `version` "2.0", `timeout_express` as supplied or "1d", configured app id and callback URLs, `device_info` present exactly when supplied and copied from it; trade number, method, amount, currency, subject, content, buyer id, customer and address passed through |
| PagsmileClient.ProcessPaymentRequest | api/pagsmile-client.ts:114-137 | `/trade/pay` with configured app id and callback URLs; `device` present exactly when the user agent is a non-empty string, and carrying it; token, client address, 3DS data, trade number, method, amount, currency, subject, content, buyer id, customer, address, installments, website URL and region passed through |
| PagsmileClient.QueryPaymentRequest | api/pagsmile-client.ts:150-157 | `/trade/query` with a body of exactly app id, timestamp and the two references |
| PagsmileClient.RequestsShareGatewayAndCredential | api/pagsmile-client.ts:39-42 | the three requests of one client go to three different URLs with the same Authorization header |
| PagsmileConstants.EndpointsOf | constants/pagsmile.ts:1-10 | the gateway and security base URLs of the sandbox and production environments |
| PagsmileConstants.IsKnownFailure | constants/pagsmile.ts:12-18 | a code the error table lists with a base message: "40002", "40004", "40005" or "40006" |
| PagsmileConstants.BaseMessage | constants/pagsmile.ts:12-18 | every known failure code has a non-empty base message |
| PagsmileConstants.KnownCodes | constants/pagsmile.ts:12-18 | the table knows exactly "10000", "40002", "40004", "40005", "40006", and every one but "10000" is a failure code |
| PagsmileConstants.GetErrorMessage | constants/pagsmile.ts:22-27 | "" for "10000"; base + ": " + sub-message for a known failure with a non-empty sub-message, the base alone otherwise; for an unknown code the sub-message whenever given, even "", else "An unexpected error occurred"; and "" only in the first and last of these cases |
| PagsmileConstants.IsTerminalStatus | constants/pagsmile.ts:29-39 | true exactly for the wire names of the trade states other than PROCESSING, false for any other string |
| PagsmileConstants.TerminalIffNotProcessing | constants/pagsmile.ts:29-36 | over the trade states, terminal exactly when not PROCESSING |
| PaymentTypes.StatusName | types/payment.ts:6-13 | the wire name of each trade state |
| PagsmileConstants.StatusNameInjective | types/payment.ts:6-13 | distinct trade states have distinct names |
| Server.GetClientIp | index.ts:46-53 | "127.0.0.1" for a missing or empty header, otherwise the trimmed text before the first comma; never contains a comma |
| Server.BlankFirstPiece | index.ts:49-50 | a header whose first piece is blank yields "", not the default, since `??` only replaces `undefined` |
| Server.BlankFirstPieceExample | index.ts:50 | `" , 1.2.3.4"` yields "" |
| Server.Decide | index.ts:98-105 | a gateway code other than "10000" gives status 400 with `getErrorMessage(code, msg)`, non-empty for a known failure; "10000" gives the mapped success body |
| Server.OrdersRoute | index.ts:77-122 | unparsable body: 400 "Invalid request body"; a `null` body or a thrown call: 500 "Failed to create order"; otherwise the code decision with trade number, merchant number, prepay id and web URL |
| Server.PaymentsRoute | index.ts:150-214 | unparsable body: 400; a `null` body: no reply, the handler throws in the log call outside both `try` blocks; thrown call: 500 "Failed to process payment"; otherwise the code decision |
| Server.StatusRoute | index.ts:223-251 | thrown call: 500 "Failed to query payment"; otherwise the code decision, whose body's `isTerminal` holds exactly when the trade status is not PROCESSING |
| Formatters.Group4 | frontend.ts:69-70 | the digits cut into groups of four from the left, the last one shorter, joined by single spaces; the string itself when it has no more than four characters |
| Formatters.FormatCardNumber | frontend.ts:67-71 | the input's digits grouped by `Group4`, "" when there is no digit, with no cap on their number |
| Formatters.Take | frontend.ts:78 | `slice(0, k)`: the first k characters, or all when there are fewer |
| Formatters.CardNumberGroups | frontend.ts:67-71 | no digit gives ""; otherwise the space-separated groups are the input's digits in order, four per group except the last, which has one to four |
| Formatters.Group4Digits | frontend.ts:67-71 | grouping only inserts spaces: the digits of the output are the input's digits |
| Formatters.FormatCardNumberIdempotent | frontend.ts:67-71 | formatting a formatted card number changes nothing |
| Formatters.FormatCpfDigits | frontend.ts:75-78 | up to 3 digits unchanged; then "." after the third, "." after the sixth and "-" after the ninth digit as far as the digits go, and at most two digits after the "-" |
| Formatters.FormatCPF | frontend.ts:73-79 | `FormatCpfDigits` of the input's digits |
| Formatters.FormatCpfShape | frontend.ts:73-79 | the output follows ###.###.###-## as far as it goes, ends on a digit, and its digits are the first min(n, 11) digits of the input |
| Formatters.FormatCpfTake | frontend.ts:78 | digits past the eleventh are ignored |
| Formatters.FormatCpfIdempotent | frontend.ts:73-79 | formatting a formatted CPF changes nothing |
| Formatters.FormatPhoneDigits | frontend.ts:83-85 | "" without digits; "(" and up to two digits; then ") " after the second digit, "-" after the seventh, and at most four digits after the "-" |
| Formatters.FormatPhone | frontend.ts:81-86 | `FormatPhoneDigits` of the input's digits |
| Formatters.FormatPhoneShape | frontend.ts:81-86 | the output follows (##) #####-#### as far as it goes, its digits are the first min(n, 11) of the input, and no digit gives "" |
| Formatters.FormatPhoneTake | frontend.ts:85 | digits past the eleventh are ignored |
| Formatters.FormatPhoneIdempotent | frontend.ts:81-86 | formatting a formatted phone number changes nothing |
| Formatters.AmountCents | frontend.ts:96-98 | the input's digits read as one decimal number of cents, 0 when there is none |
| Formatters.ParseAmount | frontend.ts:95-100 | "0.00" without digits; otherwise the numeral of cents / 100 (no leading zero), a point and two digits reading as cents mod 100, so all the digits read as the input's cents |
| Formatters.BrandPrefixes | frontend.ts:44-65 | the alternatives of each brand's anchored pattern: visa "4"; mastercard "51" to "55"; amex "34", "37"; elo its 22 prefixes; hipercard "38", "60" |
| Formatters.Matches | frontend.ts:104-105 | `pattern.test(numbers)`: the digits begin with one of the brand's prefixes |
| Formatters.Rank | frontend.ts:44-65 | each brand's position in the table's order visa, mastercard, amex, elo, hipercard |
| Formatters.FirstMatch | frontend.ts:104-107 | the loop over the brands stops at the first one whose pattern matches, and none before it matches; no result means none matches |
| Formatters.DetectIn | frontend.ts:102-108 | the brand found matches, no brand ranked earlier matches, and there is none exactly when no brand matches |
| Formatters.DetectCardBrand | frontend.ts:102-108 | over the input's digits, in the order visa, mastercard, amex, elo, hipercard: the first matching brand; `null` exactly when no pattern matches |
| Formatters.LeadingFourIsVisa | frontend.ts:44-65 | any number whose first digit is 4 is reported as visa |
| Formatters.EloFourPrefixReportedAsVisa | frontend.ts:44-65 | an Elo number beginning 4011, 4312, 4389, 4514, 4573 or 4576 matches elo's pattern and is reported as visa |
| Formatters.EloReportedOnlyWithoutFour | frontend.ts:44-65 | elo is reported only for numbers not beginning with 4 |
| Formatters.DetectCardBrandCorrected | frontend.ts:44-65 | with elo tried first: the first matching brand in that order, `null` exactly when none matches |
| Formatters.CorrectedReportsElo | frontend.ts:44-65 | with elo first, every number matching elo's pattern is reported as elo |
| Formatters.CorrectedEloFourPrefix | frontend.ts:44-65 | with elo first, the 4-prefixed Elo ranges are reported as elo |
| Formatters.CorrectedAgreesWithoutElo | frontend.ts:44-65 | for numbers that do not match elo the corrected order gives the same answer as the original |
| Formatters.EmailPattern | frontend.ts:140 | `^[^\s@]+@[^\s@]+\.[^\s@]+$`: the string is local part, "@", a domain part, ".", and a last part, each non-empty and free of white space and "@" |
| Formatters.ValidateEmail | frontend.ts:139-141 | true exactly when the string is a non-empty local part, "@", a non-empty domain part, "." and a non-empty last part, each without white space or "@" |
| FormValidation.WeightedSum | frontend.ts:115-120 | the sum of the first n digits, each times its weight, the weights counting down from `top` |
| FormValidation.CheckDigit | frontend.ts:121-122 | the sum over the first n digits with weights n+1 down to 2, times 10, mod 11, with 10 read as 0 |
| FormValidation.Repeated | frontend.ts:113 | `/^(\d)\1+$/`: at least two digits, all equal |
| FormValidation.CpfValid | frontend.ts:110-137 | eleven digits, not all equal, the tenth equal to the check digit of the first nine and the eleventh to that of the first ten |
| FormValidation.ValidateCPF | frontend.ts:110-137 | the two summing loops accept exactly the CPF numbers with eleven digits, not all alike, whose check digits are `(Σ d_i·(n+1−i))·10 mod 11` (10 read as 0) over the first 9 and first 10 digits |
| FormValidation.CheckDigitStandard | frontend.ts:121-122 | that check digit is the usual one: 0 when the sum mod 11 is below 2, otherwise 11 minus it |
| FormValidation.CpfIgnoresNonDigits | frontend.ts:111 | the answer depends only on the digits of the input |
| FormValidation.ValidCpfExample | frontend.ts:110-137 | 52998224725 is accepted |
| FormValidation.RepeatedCpfRefused | frontend.ts:113 | 11111111111 satisfies both check digits and is still refused |
| FormValidation.Message | frontend.ts:324-351 | every field's error message is non-empty |
| FormValidation.FieldOk | frontend.ts:322-352 | each field's own check: card digits 13 to 19, trimmed name at least 3 UTF-16 units, CVV digits 3 or 4, `validateCPF`, `validateEmail`, phone digits 10 or 11 |
| FormValidation.AmountOk | frontend.ts:354-357 | the amount is at least 100 cents |
| FormValidation.FormValid | frontend.ts:305-360 | every field check and the amount check pass |
| FormValidation.ApplyCheck | frontend.ts:308-319 | a check clears its field's error, sets the field's message when it fails, and a failure turns the result off |
| FormValidation.ValidateForm | frontend.ts:305-360 | true exactly when card digits are 13–19, the trimmed name has at least 3 UTF-16 units, CVV digits are 3–4, the CPF and e-mail pass, phone digits are 10–11 and the amount is at least 100 cents; every field's error slot holds "" or its message according to its own check, with no short-circuit |
| FormValidation.FormValidIffNoErrors | frontend.ts:305-360 | the form is valid exactly when every error slot is empty and the amount passes |
| Checkout.NoTradeNo | frontend.ts:491 | `!this.state.outTradeNo`: the trade number is null or "" |
| Checkout.PollVerdict | frontend.ts:500-514 | SUCCESS ends in success with that trade number; another terminal body ends in failure with the refusal detail or "Pagamento recusado"; anything else keeps polling |
| Checkout.PollStopsExactlyOnTerminal | frontend.ts:500-514 | through the status route, for a gateway answer with code "10000": polling goes on exactly while the trade is PROCESSING, succeeds exactly on SUCCESS, and otherwise fails with the refusal detail or the default |
| Checkout.FailedMeansTerminal | frontend.ts:508-514 | a failing poll comes from CANCEL, EXPIRED, REFUSED, CHARGEBACK or REFUNDED |
| Checkout.PaymentApp.Valid | frontend.ts:146-155 | `step` is "idle", and the only live interval is the one `pollInterval` holds |
| Checkout.PaymentApp.constructor | frontend.ts:146-155 | the initial record (step "idle", all else null), no interval, nothing showing |
| Checkout.PaymentApp.StopPolling | frontend.ts:530-535 | afterwards no interval is live; with none live it changes nothing, so it is idempotent |
| Checkout.PaymentApp.StartPolling | frontend.ts:487-518 | the previous interval is cleared, the callback runs once (starting a fetch when there is a trade number), and exactly one fresh interval is live, so at most one ever is |
| Checkout.PaymentApp.PollTick | frontend.ts:490-493 | without a trade number nothing happens; otherwise one more status fetch is in flight, for the current trade number |
| Checkout.PaymentApp.PollReply | frontend.ts:493-515 | a reply to a fetch in flight, with no second look at the trade number: a non-ok reply changes nothing; otherwise status and trade number come from the body and `PollVerdict` decides whether polling stops and how the flow ends |
| Checkout.ReplyAfterReset | frontend.ts:490-518 | a SUCCESS reply still in flight when the form is reset shows success again and writes its trade into the fresh record |
| Checkout.PaymentApp.PollingTimeout | frontend.ts:520-527 | the time-out guard never changes anything, because `step` is always "idle" |
| Checkout.PaymentApp.Show3DSChallenge | frontend.ts:537-541 | records the challenge URL and opens the modal |
| Checkout.PaymentApp.Hide3DSChallenge | frontend.ts:543-547 | closes the modal and sets `checkUrl` to null |
| Checkout.PaymentApp.Cancel3DS | frontend.ts:549-555 | no interval remains, `checkUrl` is null, the error message is "Verificação 3DS cancelada" and the flow ends in error |
| Checkout.PaymentApp.Handle3DSMessage | frontend.ts:557-562 | a completion message closes the challenge and restarts polling with one live interval; any other message changes nothing |
| Checkout.PaymentApp.ResetForm | frontend.ts:584-604 | the initial record again, no live interval, nothing showing, not loading; fetches in flight stay in flight |
| Checkout.PaymentApp.BeginSubmit | frontend.ts:362-369 | submission goes on exactly when `FormValid` holds for the form and the configuration is loaded, and then shows processing; otherwise nothing changes |
| Checkout.PaymentApp.OrderReply | frontend.ts:373-381 | an error reply keeps the route's message and ends in error; a success records the merchant trade number and prepay id |
| Checkout.PaymentApp.SdkOutcome | frontend.ts:461-485 | no SDK client: "SDK não inicializado"; success with a query starts polling; an error keeps the SDK's message or "Erro ao processar pagamento"; success without a query changes nothing |
| Checkout.PaymentApp.HandleSubmit | frontend.ts:362-391 | the whole new state on each way out (invalid form or no configuration, order error, no SDK client, SDK error, success without query, success with query); polling starts exactly when every step succeeds, and then for the order just created |

## Left out

- Network and server I/O: `fetch`, `Bun.serve`, `Response` construction, logging, environment loading, the webhook and `/api/config` routes. The routes' replies are modelled from whether the body parsed and what the gateway call returned or threw.
- The routes' translation of request bodies into client parameters (which fields they forward, the fixed region "BRA"); `OrdersRoute` and `PaymentsRoute` model only the reply decision.
- DOM work: element lookups, event listeners, card preview, brand icon, button text, year options, `setLoading`, `showStatus`/`hideStatus`; the last three appear only as the `loading` flag and the `overlay` field.
- `formatAmount` and `updateButtonAmount`: float division and `toLocaleString("pt-BR")`.
- Formatters.ParseAmount: exact integer cents; the source divides a float by 100 and calls `toFixed(2)`, which agrees only while the digits stay within float precision.
- FormValidation.AmountOk: `parseFloat(parseAmount(v)) >= 1` is stated as at least 100 cents, for the same reason.
- `generateTradeNo` and `collectFormData`'s `buyerId`: they read the clock and `Math.random`.
- `formatPagsmileTimestamp` lives in `utils/timestamp`, which is not part of this model; the timestamp is a parameter of each request builder.
- Timers: `setInterval`/`setTimeout` scheduling and ticking are not modelled. Interval handles come from a counter, and each callback is a method called when the event is due; a poll is split into its start (`PollTick`) and its reply (`PollReply`), between which any other event may run. Asynchronous interleavings are reduced to a sequence of such calls. Nothing ties `PollTick` to a live interval or a reply to the order of its fetch.
- A `fetch` or `response.json()` that rejects inside the poll callback leaves the state as it was, like a reply that is not ok, except that its fetch is no longer in flight; it is not a separate input.
- The Pagsmile tokenization SDK (`setPublishableKey`, `createOrder`) is foreign: whether a client exists and what its `createOrder` resolved to are inputs.
- Checkout.PaymentApp.OrderReply: the default "Erro ao criar pedido" is not modelled, because every error reply of the orders route carries an `error` member.
- The prototype-chain lookup of `PAGSMILE_ERROR_CODES[code]` (for example code "toString"): the table is a finite map of its five codes.
- `getClientIp` takes the `x-forwarded-for` header value, or its absence, instead of a request.

## Findings

| source | as written | input that shows it | evidently intended | confidence | as-written member | corrected member |
|---|---|---|---|---|---|---|
| frontend.ts:44-65 | `CARD_BRANDS` lists visa (`/^4/`) before elo, and `detectCardBrand` returns the first match, so Elo's 4011, 4312, 4389, 4514, 4573 and 4576 ranges can never be reported as elo | "4011 7812 3456 7890" is reported as "visa" although it matches elo's pattern | the Elo ranges reported as "elo", the other brands unchanged | high; not executed | Formatters.EloFourPrefixReportedAsVisa | Formatters.DetectCardBrandCorrected |

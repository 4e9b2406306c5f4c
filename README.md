# TransVoucher SDK: webhook verification, request validation and configuration

This project models the logic of the TransVoucher JavaScript SDK (`index.mjs`) and of the
example Express server that uses it (`index.js`), and proves properties of that model.
The SDK logic covered is:

- **The webhook pipeline of `WebhookUtils`.** This covers HMAC signing, signature comparison, signature-header extraction, `validateEventStructure`, `parseEvent`, `isEventRecent` and the dispatch function that `createHandler` builds.
- **The request validators.** These are `validateCreatePaymentRequest`, `validateListRequest`, `validateConfig` and `validateApiKey`, with `isValidDate` and `isValidEmail`.
- **The classification of a failed request by `HttpClient.handleError`.**
- **The defaults the HTTP client derives from its configuration.**
- **The configuration changes of `TransVoucher`.** These are `updateConfig`, `switchEnvironment` and the factories.

Modules:

- `Base`: Option, Result, Outcome, bytes.
- `Js`: the parts of the JavaScript value model the checks rely on.
  - Truthiness, `typeof`, property reads and `String(x)`.
  - `trim`, and `.length` counted in UTF-16 code units.
- `Utf8` and `Hex`:
  - `Buffer.from(s)`, encoded as UTF-8 (RFC 3629, section 3).
  - `digest("hex")`, and Node's lenient `Buffer.from(s, "hex")`.
- `Signature`, `EventSchema` and `Webhook`: `WebhookUtils`.
- `FieldChecks`:
  - the `errors` object that every validator fills in field by field;
  - the rule that a validator throws exactly when that object is non-empty.
- `Services`: the `PaymentService` validators, its status predicates, and `CurrencyService.isProcessedViaAnotherCurrency`.
- `Http`: `HttpClient`, as a class whose `updateConfig` rebuilds the client defaults.
- `Sdk`: `TransVoucher`, as a class holding its configuration and its `HttpClient`.
- `Server`: the `verifyWebhookSignature` of `index.js` and its `/webhook` route.

The validators are imperative, as in the source. Each one is a method that fills an
`errors` map one field block at a time, and each block is a small method.

- Each validator is proved equal to a specification: the checks in source order, collected by `FieldChecks.Collect`.
- The quirks are lemmas about that specification:
  - a falsy amount is "required";
  - only the boolean `true` makes a price dynamic;
  - the empty environment passes;
  - and others.
- `extractSignature` is a method with a loop, proved against `Signature.ExtractSpec`.
- The two `updateConfig` methods change the fields of their objects.

Every operation of the SDK that is not I/O is modelled as a function, or as a method
where the source changes state. Foreign operations are parameters:

- HMAC-SHA256, of type `Hmac`;
- `JSON.parse`, of type `Decoder` or `TextParser`;
- `new Date(s).getTime()`, of type `DateParser`;
- whether `new URL(s)` succeeds, of type `UrlParser`;
- `Date.now()`, as the argument `now`.

## Model

| member | source | states |
|---|---|---|
| Signature.GenerateSignature | node_modules/@transvoucher/sdk/dist/index.mjs:447-451 | The result is `sha256=` plus 64 lower-case hex digits, which decode back to the HMAC of the payload bytes under the secret's UTF-8 bytes |
| Signature.GenerateSignatureInjective | node_modules/@transvoucher/sdk/dist/index.mjs:447-451 | Different digests give different signature strings |
| Signature.TimingSafeEqual | node_modules/@transvoucher/sdk/dist/index.mjs:461 | Buffers of different lengths are an error (the RangeError); otherwise the answer is true exactly when the bytes are equal |
| Signature.SecureCompare | node_modules/@transvoucher/sdk/dist/index.mjs:455-462 | It checks the lengths first, and is true exactly when the two strings are equal; relies on UTF-8 being injective |
| Signature.VerifySignature | node_modules/@transvoucher/sdk/dist/index.mjs:408-415 | It never throws, and is true exactly when the given signature is the full `sha256=` form of the expected digest; an absent signature gives false |
| Signature.Split | node_modules/@transvoucher/sdk/dist/index.mjs:555 | `split(",")` gives at least one part, and no part contains the separator |
| Signature.JoinSplit | node_modules/@transvoucher/sdk/dist/index.mjs:555 | Joining the parts of a split gives back the header |
| Signature.SplitAround | node_modules/@transvoucher/sdk/dist/index.mjs:555 | Splitting at the first separator splits the rest independently |
| Signature.SplitWithoutSeparator | node_modules/@transvoucher/sdk/dist/index.mjs:555 | A string without the separator is a single part |
| Signature.FirstV1 | node_modules/@transvoucher/sdk/dist/index.mjs:556-560 | Any rewritten `v1=` part carries the `sha256=` prefix |
| Signature.ExtractSpec | node_modules/@transvoucher/sdk/dist/index.mjs:548-562 | A success always has the `sha256=` prefix; the only errors are the header-required message and the format message |
| Signature.ExtractSignature | node_modules/@transvoucher/sdk/dist/index.mjs:548-562 | The loop over the parts, with its early return, computes exactly the extraction specification |
| Signature.FirstV1At | node_modules/@transvoucher/sdk/dist/index.mjs:556-560 | The first part that starts with `v1=` is the one rewritten |
| Signature.FirstV1None | node_modules/@transvoucher/sdk/dist/index.mjs:556-561 | With no `v1=` part there is no rewrite |
| Signature.ExtractVendorPart | node_modules/@transvoucher/sdk/dist/index.mjs:552-560 | A header without the prefix gives `sha256=` plus the untrimmed rest of its first `v1=` part |
| Signature.ExtractNoVendorPart | node_modules/@transvoucher/sdk/dist/index.mjs:561 | A header without the prefix and with no `v1=` part is "Invalid signature header format" |
| Signature.ExtractIdempotent | node_modules/@transvoucher/sdk/dist/index.mjs:552-553 | Extracting an extracted signature returns it unchanged |
| Signature.ExtractTimestampedHeader | node_modules/@transvoucher/sdk/dist/index.mjs:555-558 | `t=<ts>,v1=<hex>` normalises to `sha256=<hex>` |
| Signature.ExtractExample | node_modules/@transvoucher/sdk/dist/index.mjs:548-562 | `t=169000,v1=abcd` gives `sha256=abcd` |
| Signature.ExtractMalformedExample | node_modules/@transvoucher/sdk/dist/index.mjs:549-551 | An empty header is "Signature header is required"; `not-a-signature` is the format error |
| Signature.TimestampedHeaderVerifies | node_modules/@transvoucher/sdk/dist/index.mjs:408-415 | A timestamped header carrying the right hex digest verifies once extracted |
| EventSchema.ValidateEventStructure | node_modules/@transvoucher/sdk/dist/index.mjs:466-544 | An event is valid exactly when it satisfies the independent predicate `WellFormedEvent` |
| EventSchema.EventChecks | node_modules/@transvoucher/sdk/dist/index.mjs:466-544 | The ten guards in source order, each with the reason it reports |
| EventSchema.EventError.Message | node_modules/@transvoucher/sdk/dist/index.mjs:466-538 | Every reason has a non-empty text; for an unknown type it starts with "Invalid event type: " exactly when `type` can be interpolated, and is the TypeError's message otherwise |
| EventSchema.ValidateFirstFailure | node_modules/@transvoucher/sdk/dist/index.mjs:466-544 | The reason reported is that of the first guard that fails |
| EventSchema.ValidateAllPass | node_modules/@transvoucher/sdk/dist/index.mjs:539-543 | The event is valid exactly when all ten guards pass |
| EventSchema.DataBeforeTimestamp | node_modules/@transvoucher/sdk/dist/index.mjs:494-505 | `data` is checked before `timestamp` |
| EventSchema.EmptyEventTypeRejected | node_modules/@transvoucher/sdk/dist/index.mjs:473-478 | An empty `event` string is falsy and is reported as a missing type |
| EventSchema.UnknownTypeIgnoresEvent | node_modules/@transvoucher/sdk/dist/index.mjs:488-492 | The unknown-type message interpolates `eventData.type`, so it does not depend on the `event` value |
| EventSchema.ArrayDataPassesObjectTest | node_modules/@transvoucher/sdk/dist/index.mjs:494-518 | An array `data` passes the `typeof === "object"` test and then fails for lack of a transaction |
| EventSchema.NonPositiveAmountRejected | node_modules/@transvoucher/sdk/dist/index.mjs:525-530 | A zero or negative `commodity_amount` is rejected |
| Webhook.ParseEvent | node_modules/@transvoucher/sdk/dist/index.mjs:419-443 | A success happens exactly when the signature verifies, the body decodes and the event is well formed; the event is exactly the decoded body |
| Webhook.ParseError.Message | node_modules/@transvoucher/sdk/dist/index.mjs:421-441 | The reported `error` text is empty only for a decoder error with an empty message |
| Webhook.SignatureCheckedFirst | node_modules/@transvoucher/sdk/dist/index.mjs:421-426 | A bad signature gives "Invalid webhook signature" without decoding the body |
| Webhook.AuthenticRejections | node_modules/@transvoucher/sdk/dist/index.mjs:428-440 | With an authentic signature, a decode error or the schema's first failure is what is reported |
| Webhook.UnconvertibleTypeReported | node_modules/@transvoucher/sdk/dist/index.mjs:437-441 | An authentic event of unknown type whose `type` is an object with its own `toString` is rejected with the TypeError's message "Cannot convert object to primitive value" |
| Webhook.IsEventRecent | node_modules/@transvoucher/sdk/dist/index.mjs:566-575 | Epoch seconds are scaled by 1000. For any timestamp the parser turns into milliseconds, the event is recent exactly when the gap to `now` is at most the tolerance; a timestamp it cannot parse is never recent |
| Webhook.RecentMonotone | node_modules/@transvoucher/sdk/dist/index.mjs:570-571 | Widening the tolerance never makes a recent event stale |
| Webhook.RecentSymmetric | node_modules/@transvoucher/sdk/dist/index.mjs:570 | Future and past events at the same distance are treated alike |
| Webhook.UnparseableNotRecent | node_modules/@transvoucher/sdk/dist/index.mjs:568-571 | A date the parser rejects is not recent |
| Webhook.DefaultWindowExample | node_modules/@transvoucher/sdk/dist/index.mjs:566 | With the default 300 s: 299 s and 300 s old are recent, 301 s are not |
| Webhook.HandleWebhook | node_modules/@transvoucher/sdk/dist/index.mjs:579-590 | It throws exactly when `parseEvent` rejects, with `parseEvent`'s message or, when that is empty, "Invalid webhook event"; otherwise it invokes the handler registered for the event type, or none |
| Webhook.AllTypesHandled | node_modules/@transvoucher/sdk/dist/index.mjs:585-588 | With a handler for each of the seven types, no valid event is ignored |
| Webhook.ThrownMessageNonEmpty | node_modules/@transvoucher/sdk/dist/index.mjs:582-584 | The thrown message is never empty (the "Invalid webhook event" fallback) |
| Webhook.SampleEndToEnd | node_modules/@transvoucher/sdk/dist/index.mjs:419-443 | A sample payload signed with its secret parses to its event; checked with another secret, it is a signature mismatch |
| Webhook.SampleWellFormed | node_modules/@transvoucher/sdk/dist/index.mjs:466-544 | The sample event passes every guard |
| Utf8.Encode | node_modules/@transvoucher/sdk/dist/index.mjs:456-457 | The encoding is at least as long as the string, and empty only for the empty string |
| Utf8.EncodeCharDecodes | node_modules/@transvoucher/sdk/dist/index.mjs:456-457 | Each code point's bytes decode back to it, and the first byte gives the length |
| Utf8.EncodeInjective | node_modules/@transvoucher/sdk/dist/index.mjs:456-461 | Equal encodings come only from equal strings |
| Utf8.EncodeEqualIff | node_modules/@transvoucher/sdk/dist/index.mjs:456-461 | Two encodings are equal exactly when the strings are |
| Utf8.EncodeAscii | node_modules/@transvoucher/sdk/dist/index.mjs:456-457 | ASCII text is its own bytes |
| Hex.EncodeLower | node_modules/@transvoucher/sdk/dist/index.mjs:450 | Two lower-case hex digits per byte |
| Hex.NodeDecode | index.js:29-30 | The lenient hex decoder yields at most one byte per two characters |
| Hex.DecodeEncodeLower | index.js:29-30 | Decoding the lower-case encoding gives back the bytes |
| Hex.EncodeLowerInjective | node_modules/@transvoucher/sdk/dist/index.mjs:450 | Different digests have different hex text |
| Hex.DecodeIgnoresTail | index.js:29 | The decoder stops at the first non-hex pair, so a trailing tail changes nothing |
| FieldChecks.CollectKeys | node_modules/@transvoucher/sdk/dist/index.mjs:283-323 | A field is reported exactly when one of its checks failed |
| FieldChecks.CollectReports | node_modules/@transvoucher/sdk/dist/index.mjs:283-323 | With distinct fields, each check alone decides its field's entry, which holds exactly its message |
| FieldChecks.CollectEmpty | node_modules/@transvoucher/sdk/dist/index.mjs:320-322 | The errors object is empty exactly when every check passed |
| FieldChecks.Report | node_modules/@transvoucher/sdk/dist/index.mjs:286-288 | A failed test records its message, and a passed one records nothing |
| FieldChecks.CollectPrefix | node_modules/@transvoucher/sdk/dist/index.mjs:283-323 | Running one more check applies it to what the earlier checks collected |
| FieldChecks.Flag | node_modules/@transvoucher/sdk/dist/index.mjs:305-307 | `if (failed) errors[field] = [message]` is one step of the collection |
| FieldChecks.CollectFiveEmpty | node_modules/@transvoucher/sdk/dist/index.mjs:714-716 | Five checks leave the errors object empty exactly when all five pass |
| FieldChecks.CollectEight | node_modules/@transvoucher/sdk/dist/index.mjs:283-323 | Eight checks are collected one after another |
| FieldChecks.CollectFive | node_modules/@transvoucher/sdk/dist/index.mjs:324-344 | Five checks are collected one after another |
| Services.IsValidEmail | node_modules/@transvoucher/sdk/dist/index.mjs:345-348 | True exactly when the string matches `^[^\s@]+@[^\s@]+\.[^\s@]+$`, stated as the ghost predicate `EmailPattern` |
| Services.IndexOf | node_modules/@transvoucher/sdk/dist/index.mjs:346 | The first occurrence of a character, or none |
| Services.EmailCorrect | node_modules/@transvoucher/sdk/dist/index.mjs:346-347 | The scan that splits at the first `@` agrees with the pattern |
| Services.NumberNeverValidDate | node_modules/@transvoucher/sdk/dist/index.mjs:357-359 | A number, as text, never has the `YYYY-MM-DD` shape, so `isValidDate` returns false |
| Services.IsValidDate | node_modules/@transvoucher/sdk/dist/index.mjs:357-362 | `isValidDate` throws the TypeError exactly for an unconvertible value; for a string it is true exactly when the text has the `YYYY-MM-DD` shape and the date parser accepts it |
| Services.OnlyTextDates | node_modules/@transvoucher/sdk/dist/index.mjs:357-362 | Only a string, or an array whose text is a date, can be a valid date |
| Services.CreatePaymentChecks | node_modules/@transvoucher/sdk/dist/index.mjs:283-319 | The eight field checks, in source order |
| Services.CreatePaymentChecksDistinct | node_modules/@transvoucher/sdk/dist/index.mjs:283-319 | The checks name eight different fields |
| Services.CheckAmount | node_modules/@transvoucher/sdk/dist/index.mjs:289-299 | The amount block records exactly the amount rule's message |
| Services.CheckCurrency | node_modules/@transvoucher/sdk/dist/index.mjs:300-304 | The currency block records exactly the currency rule's message |
| Services.ValidateCreatePaymentRequest | node_modules/@transvoucher/sdk/dist/index.mjs:283-323 | An `expires_at` that cannot be converted to a string throws the TypeError. Otherwise it passes exactly when no check fails, and else throws "Validation failed" with one message per failing field |
| Services.CreatePaymentReports | node_modules/@transvoucher/sdk/dist/index.mjs:283-319 | Each check alone decides its field's entry in the thrown errors |
| Services.CreatePaymentFieldsOnly | node_modules/@transvoucher/sdk/dist/index.mjs:283-319 | Only the eight checked fields are ever reported |
| Services.FalsyAmountIsMissing | node_modules/@transvoucher/sdk/dist/index.mjs:289-291 | With a fixed price, `0`, `""`, `false`, `null` or no amount gives "Amount is required" |
| Services.AmountAccepted | node_modules/@transvoucher/sdk/dist/index.mjs:285-299 | The amount passes exactly when it is a positive number, or absent with a dynamic price |
| Services.StringDynamicFlag | node_modules/@transvoucher/sdk/dist/index.mjs:285-291 | The string `"true"` is reported, and it leaves the price fixed, so a missing amount is also reported |
| Services.CurrencyAccepted | node_modules/@transvoucher/sdk/dist/index.mjs:300-304 | The currency passes exactly when it is a string that is not all whitespace |
| Services.NumericExpiryRejected | node_modules/@transvoucher/sdk/dist/index.mjs:317-319 | A non-zero number as `expires_at` is rejected |
| Services.MinimalPaymentPasses | node_modules/@transvoucher/sdk/dist/index.mjs:283-323 | A positive amount and a currency code, with no optional fields, pass |
| Services.ListChecks | node_modules/@transvoucher/sdk/dist/index.mjs:324-340 | The five field checks, in source order |
| Services.ListChecksDistinct | node_modules/@transvoucher/sdk/dist/index.mjs:324-340 | The five checks name different fields |
| Services.ValidateListRequest | node_modules/@transvoucher/sdk/dist/index.mjs:324-344 | A `from_date` or `to_date` that cannot be converted to a string throws the TypeError. Otherwise it passes exactly when no check fails, and else throws "Validation failed" with one message per failing field |
| Services.ListReports | node_modules/@transvoucher/sdk/dist/index.mjs:324-340 | Each check alone decides its field's entry |
| Services.NoFiltersPass | node_modules/@transvoucher/sdk/dist/index.mjs:324-344 | The empty parameter object passes |
| Services.LimitAccepted | node_modules/@transvoucher/sdk/dist/index.mjs:326-328 | `limit` passes exactly when it is absent or an integer from 1 to 100 |
| Services.StatusFilterAccepted | node_modules/@transvoucher/sdk/dist/index.mjs:332-334 | `status` passes exactly when it is falsy or one of the seven statuses |
| Services.DateFiltersAccepted | node_modules/@transvoucher/sdk/dist/index.mjs:335-340 | `from_date` and `to_date` are each reported exactly when truthy and `isValidDate` returns false for them |
| Services.StatusTests | node_modules/@transvoucher/sdk/dist/index.mjs:227-265 | The seven status predicates, in the order of the statuses |
| Services.StatusTestsMatchStatuses | node_modules/@transvoucher/sdk/dist/index.mjs:227-265 | Predicate i holds exactly when the status is the i-th status; at most one holds; one holds exactly when the status would pass the list filter |
| Services.HasStatus | node_modules/@transvoucher/sdk/dist/index.mjs:227-265 | The test each of the seven status predicates applies: true exactly when the payment has a `status` that is strictly the given string |
| Services.ProcessedViaPresence | node_modules/@transvoucher/sdk/dist/index.mjs:383-385 | Processed via another currency exactly when the code is present and not `null` (`""` and `0` count) |
| Services.IsProcessedViaAnotherCurrency | node_modules/@transvoucher/sdk/dist/index.mjs:383-385 | True exactly when `processed_via_currency_code` is present and not `null` |
| Http.Settings | node_modules/@transvoucher/sdk/dist/index.mjs:49-61 | The client's base URL is `baseUrl` if truthy, else the default for the environment; the timeout is `timeout` if truthy, else 30000; the key and secret are passed as headers |
| Http.DefaultBaseUrl | node_modules/@transvoucher/sdk/dist/index.mjs:78-81 | The production URL exactly when the environment is exactly "production", and the sandbox URL otherwise |
| Http.DefaultHost | node_modules/@transvoucher/sdk/dist/index.mjs:78-81 | Without a base URL, the client talks to the production host exactly when the environment is exactly "production", and otherwise to the sandbox host |
| Http.ResponseMessage | node_modules/@transvoucher/sdk/dist/index.mjs:85 | A truthy `data.message` becomes its `String` text (a string as it is, `["bad amount"]` as "bad amount", `5` as "5"), and building the message throws exactly when that conversion does; without one, `error.message`, then "An API error occurred" |
| Http.HandleError | node_modules/@transvoucher/sdk/dist/index.mjs:82-110 | A truthy `data.message` that cannot be converted makes it throw the TypeError instead. Otherwise 401 is AuthenticationError; 422 is ValidationError with `data.errors` or `{}`; the five ApiError statuses are ApiError; others are TransVoucherError; the message prefers `data.message`, then `error.message`, then the default. Without a response it is a NetworkError, "Network error: No response received" or "Request error: <message>" |
| Http.HandleErrorWellFormed | node_modules/@transvoucher/sdk/dist/index.mjs:5-41 | Every classified error carries its class's code, and `errors` only for a ValidationError |
| Http.UnconvertibleMessageThrows | node_modules/@transvoucher/sdk/dist/index.mjs:82-86 | A server `message` that is an object with its own `toString` makes `handleError` throw the TypeError, whatever the status |
| Http.ArrayMessageWins | node_modules/@transvoucher/sdk/dist/index.mjs:85 | A truthy but empty-text `data.message` (an empty array) wins over the fallbacks |
| Http.ValidationErrorDefaults | node_modules/@transvoucher/sdk/dist/index.mjs:85-95 | A 422 without `errors` gets `{}`, and the server's message wins |
| Http.BuildRequestConfig | node_modules/@transvoucher/sdk/dist/index.mjs:159-168 | A truthy `timeout` or `headers` option is copied, and nothing else |
| Http.BuildRequestConfigIdempotent | node_modules/@transvoucher/sdk/dist/index.mjs:159-168 | Building from a built config gives it back |
| Http.NoOptionsNoOverrides | node_modules/@transvoucher/sdk/dist/index.mjs:159-168 | No options, or `{}`, override nothing |
| Http.HttpClient.constructor | node_modules/@transvoucher/sdk/dist/index.mjs:45-48 | The client holds the configuration and defaults built from it |
| Http.HttpClient.GetBaseUrl | node_modules/@transvoucher/sdk/dist/index.mjs:169-171 | The base URL the defaults were built with (never the `""` fallback) |
| Http.HttpClient.UpdateConfig | node_modules/@transvoucher/sdk/dist/index.mjs:172-175 | The configuration becomes the merge, with the new values winning, and the defaults are rebuilt from it |
| Sdk.ValidateApiKey | node_modules/@transvoucher/sdk/dist/index.mjs:655-660 | True exactly for a string of at least ten UTF-16 units after trimming, which is never all whitespace |
| Sdk.TrimKeepsInner | node_modules/@transvoucher/sdk/dist/index.mjs:659 | `trim` leaves a string with non-blank ends unchanged |
| Sdk.LongKeyAccepted | node_modules/@transvoucher/sdk/dist/index.mjs:655-660 | Ten or more characters with non-blank ends are accepted |
| Sdk.UnknownEnvironmentText | node_modules/@transvoucher/sdk/dist/index.mjs:699 | A string environment is rejected exactly when it is non-empty and neither "sandbox" nor "production" |
| Sdk.ConfigChecks | node_modules/@transvoucher/sdk/dist/index.mjs:683-713 | The five field checks, in source order |
| Sdk.ConfigChecksDistinct | node_modules/@transvoucher/sdk/dist/index.mjs:683-713 | The checks name five different fields |
| Sdk.CheckApiKey | node_modules/@transvoucher/sdk/dist/index.mjs:685-691 | The `apiKey` block records exactly the key rule's message |
| Sdk.CheckApiSecret | node_modules/@transvoucher/sdk/dist/index.mjs:692-698 | The `apiSecret` block records exactly the secret rule's message |
| Sdk.ValidateConfig | node_modules/@transvoucher/sdk/dist/index.mjs:683-717 | It passes exactly when no check fails; otherwise it throws "Invalid configuration" with one message per failing field |
| Sdk.ConfigReports | node_modules/@transvoucher/sdk/dist/index.mjs:683-713 | Each check alone decides its field's entry |
| Sdk.CredentialRules | node_modules/@transvoucher/sdk/dist/index.mjs:685-698 | The key chain and the secret chain each record nothing exactly when `validateApiKey` accepts the value |
| Sdk.CredentialsAccepted | node_modules/@transvoucher/sdk/dist/index.mjs:685-698 | The key and the secret each pass exactly when `validateApiKey` accepts them |
| Sdk.EnvironmentAccepted | node_modules/@transvoucher/sdk/dist/index.mjs:699-701 | The environment passes exactly when it is falsy, "sandbox" or "production" |
| Sdk.TimeoutAccepted | node_modules/@transvoucher/sdk/dist/index.mjs:709-713 | The timeout passes exactly when it is absent or a positive number (`0` is rejected) |
| Sdk.BaseUrlAccepted | node_modules/@transvoucher/sdk/dist/index.mjs:702-708 | The base URL passes exactly when it is falsy, or convertible to a string that parses as a URL (a TypeError from the conversion is caught and reported) |
| Sdk.ValidConfigIff | node_modules/@transvoucher/sdk/dist/index.mjs:683-717 | A configuration is accepted exactly when all five of its properties are |
| Sdk.GetEnvironment | node_modules/@transvoucher/sdk/dist/index.mjs:625-627 | The configured environment when it is truthy, and "sandbox" otherwise |
| Sdk.IsProduction | node_modules/@transvoucher/sdk/dist/index.mjs:643-645 | True exactly when the configured environment is the string "production" |
| Sdk.IsSandbox | node_modules/@transvoucher/sdk/dist/index.mjs:649-651 | True exactly when the configured environment is falsy or the string "sandbox" |
| Sdk.EnvironmentQueries | node_modules/@transvoucher/sdk/dist/index.mjs:643-651 | `isProduction` and `isSandbox` never both hold; for a valid configuration exactly one holds; production agrees with the client's default host |
| Sdk.FactoryConfig | node_modules/@transvoucher/sdk/dist/index.mjs:664-682 | The options are spread last: each is kept, the key, secret and environment apply only where the options do not set them, and the configuration has exactly the options' keys plus those three |
| Sdk.OptionsOverrideEnvironment | node_modules/@transvoucher/sdk/dist/index.mjs:664-671 | `sandbox(k, s, {environment: "production"})` builds a production configuration |
| Sdk.FactoryEnvironment | node_modules/@transvoucher/sdk/dist/index.mjs:664-682 | Without an overriding option, each factory's configuration is in the environment it names |
| Sdk.Create | node_modules/@transvoucher/sdk/dist/index.mjs:595-602 | The constructor succeeds exactly for a valid configuration; the new instance and a fresh client both hold it, and otherwise "Invalid configuration" is thrown |
| Sdk.TransVoucher.Init | node_modules/@transvoucher/sdk/dist/index.mjs:598-599 | The instance and its fresh client hold the configuration |
| Sdk.TransVoucher.GetBaseUrl | node_modules/@transvoucher/sdk/dist/index.mjs:637-639 | The client's base URL |
| Sdk.TransVoucher.UpdateConfig | node_modules/@transvoucher/sdk/dist/index.mjs:612-621 | If `apiKey`, `environment` or `baseUrl` is supplied, the merge is validated: it is stored and handed to the client, or "Invalid configuration" is thrown and nothing changes. Otherwise the merge is stored without validation, and the client keeps its configuration |
| Sdk.TransVoucher.SwitchEnvironment | node_modules/@transvoucher/sdk/dist/index.mjs:631-633 | It succeeds exactly when the configuration with the new environment is valid, which it then stores and merges into the client; a failure throws "Invalid configuration" and changes nothing. On a consistent instance it succeeds exactly for "", "sandbox" or "production", stays consistent, and is production exactly for "production" |
| Sdk.TransVoucher.UpdateConfigValidated | node_modules/@transvoucher/sdk/dist/index.mjs:612-621 | Corrected form: every update is validated and reaches the client, so a consistent instance stays consistent |
| Sdk.MergeAbsorbs | node_modules/@transvoucher/sdk/dist/index.mjs:173 | Merging an object with its own update gives the update |
| Sdk.SwitchedConfig | node_modules/@transvoucher/sdk/dist/index.mjs:699-701 | Setting an environment on a valid configuration keeps it valid exactly for "", "sandbox" or "production" |
| Sdk.SecretUpdateSkipsValidation | node_modules/@transvoucher/sdk/dist/index.mjs:613-620 | `{apiSecret: ""}` does not trigger validation, yet the merged configuration fails it with "API secret is required" |
| Server.VerifyWebhookSignature | index.js:15-32 | A missing prefix is "Invalid signature format". A claimed digest that is not 32 bytes is an error. Otherwise true exactly when the digits after the first 7 characters decode to the HMAC of the payload as given |
| Server.GeneratedSignatureVerifies | index.js:15-32 | A signature from `generateSignature` verifies |
| Server.AcceptsWhatSdkAccepts | index.js:15-32 | Whatever the SDK accepts is accepted too. A non-hex tail is also accepted, which the SDK refuses |
| Server.TailIgnored | index.js:20-31 | A generated signature followed by a non-hex tail verifies |
| Server.DigestMatchVerifies | index.js:20-31 | A prefixed signature verifies exactly when its digits decode to the digest |
| Server.BarePrefixThrows | index.js:28-31 | The bare `sha256=` is an error, not false |
| Server.PayloadAsGiven | index.js:22-26 | A text payload is signed as its UTF-8 bytes, exactly as a buffer of those bytes |
| Server.WebhookRoute | index.js:35-84 | As written, for the body `express.json()` parsed: 200 `{received: true}` exactly when the body has a text that parses to something other than `null`; otherwise 500 `{error: "Webhook processing failed"}` |
| Server.BodyText | index.js:53 | `req.body.toString()` throws exactly for `null` or an unconvertible value, and is "[object Object]" for any other object |
| Server.ObjectBodyFails | index.js:11-83 | Every JSON-object body is answered with 500, because its text "[object Object]" does not parse |
| Server.ArrayBodyAcknowledged | index.js:53-80 | A one-element array holding the JSON text of a non-null value is acknowledged with 200 |
| Server.RawWebhookRoute | index.js:53-83 | Corrected form, for the raw body text: 200 `{received: true}` exactly when the text parses to something other than `null`; otherwise 500 |
| Server.RouteIgnoresEventType | index.js:56-78 | Under the raw-text route, any two parseable object bodies are acknowledged alike, whatever their `event_type`, and no signature is consulted |
| Server.UnparseableBodyFails | index.js:53-83 | Under the raw-text route, a body that does not parse gets 500 |
| Js.Trim | node_modules/@transvoucher/sdk/dist/index.mjs:302 | The result is the part of the string between a whitespace-only start and a whitespace-only end, with no blank at either end of its own; it is empty exactly when the string is all whitespace |
| Js.Utf16Length | node_modules/@transvoucher/sdk/dist/index.mjs:305 | `.length` lies between the code-point count and twice it, with equality below U+10000 |
| Js.Field | node_modules/@transvoucher/sdk/dist/index.mjs:286 | A property read is defined exactly for present keys |
| Js.Prop | node_modules/@transvoucher/sdk/dist/index.mjs:473 | A property of a non-null value is defined exactly on an object holding the key, and is that key's value there |
| Js.OptionalProp | node_modules/@transvoucher/sdk/dist/index.mjs:85 | `data?.message` is defined exactly when `data` is an object holding the key, and is that key's value there |
| Js.LeadingBlanks | node_modules/@transvoucher/sdk/dist/index.mjs:659 | The count lies within the string, every character it covers is whitespace, and the one after it is not |
| Js.TrailingBlanks | node_modules/@transvoucher/sdk/dist/index.mjs:659 | The count lies within the string, every character it covers at the end is whitespace, and the one before it is not |
| Js.BlankTrimmed | node_modules/@transvoucher/sdk/dist/index.mjs:302 | A string that is blank throughout is all whitespace and trims to the empty string |
| Js.InnerTrimmed | node_modules/@transvoucher/sdk/dist/index.mjs:302 | Past the leading blanks of a string that is not blank throughout, the trailing blanks leave a non-empty middle that starts and ends with a non-blank and has only whitespace around it |
| Js.IntToDecimal | node_modules/@transvoucher/sdk/dist/index.mjs:357-359 | `String(n)` of an integer is non-empty, starts with a digit for `n >= 0` and with `-` exactly for negatives, and is digits after the first character |
| Js.IntToDecimalValue | node_modules/@transvoucher/sdk/dist/index.mjs:357-359 | The digits of `String(n)` denote `n`, and for a negative `n` those after the `-` denote `-n` with no leading zero |
| Js.NatToDecimal | node_modules/@transvoucher/sdk/dist/index.mjs:357-359 | The text of a natural number is non-empty digits, with a leading `0` only for zero |
| Js.NatToDecimalValue | node_modules/@transvoucher/sdk/dist/index.mjs:357-359 | The digits of a natural number's text denote that number |
| Js.DigitChar | node_modules/@transvoucher/sdk/dist/index.mjs:357-359 | Each digit value has a digit character that denotes it |
| Js.ToJsString | node_modules/@transvoucher/sdk/dist/index.mjs:491 | `String(v)` completes exactly for a convertible value (no object with its own `toString`, at any depth of arrays). `null` is "null", booleans "true"/"false", a number its decimal text, a string itself, a plain object "[object Object]", and an array the join of its elements |
| Js.JoinItems | node_modules/@transvoucher/sdk/dist/index.mjs:357-359 | Joining completes exactly when every element is convertible; `[]` gives "" and one element gives its own text |
| Js.JoinItemsText | node_modules/@transvoucher/sdk/dist/index.mjs:357-359 | The join of convertible elements is their texts with a comma between each two, as the left-to-right build of `join` lays them out |
| Js.CommaJoinCons | node_modules/@transvoucher/sdk/dist/index.mjs:357-359 | A text put in front of a comma-separated list comes first, followed by a comma |
| Js.ItemText | node_modules/@transvoucher/sdk/dist/index.mjs:357-359 | An element's text in a join: "" for `null`, otherwise its `String` text, failing exactly when that conversion does |
| Js.ItemTexts | node_modules/@transvoucher/sdk/dist/index.mjs:357-359 | One text per element, each being that element's text in a join |
| Js.SingletonArrayText | node_modules/@transvoucher/sdk/dist/index.mjs:357-359 | A one-element array has its element's text, and `[null]` the empty text |
| Js.Display | node_modules/@transvoucher/sdk/dist/index.mjs:491 | A template literal inserts "undefined" for a missing value and the `String` text of a present one, completing exactly when the value is convertible |
| Utf8.EncodeChar | node_modules/@transvoucher/sdk/dist/index.mjs:456-457 | Each code point takes one to four bytes |
| Utf8.EncodeCharInjective | node_modules/@transvoucher/sdk/dist/index.mjs:456-461 | Different code points have different encodings |
| Hex.DigitValue | index.js:29 | A hex digit of either case has a value below 16 |
| Hex.HexCharValue | node_modules/@transvoucher/sdk/dist/index.mjs:450 | Each lower-case digit decodes to its own value |

## Left out

- HTTP transport is left out: the axios instance, its interceptors, and the `get`, `post`, `put`, `patch` and `delete` methods (index.mjs:49-77, 111-158). It is network I/O, and the model keeps only the defaults `createAxiosInstance` sets.
- The same goes for the async service calls `create`, `getTransactionStatus`, `getPaymentLinkStatus`, `list`, `all`, `findByCode` and `isSupported`, and for the `instanceof TransVoucherError` rethrow in the HTTP methods; all of them are I/O.
- `isValidUrl` (index.mjs:349-356) is an unused wrapper around `new URL`. The URL parser enters `validateConfig` as the parameter `UrlParser`.
- `getConfig` (index.mjs:606-608) returns a copy of the configuration. With value semantics, it is the `config` field itself.
- The error classes (index.mjs:5-41) are represented by the `SdkError` record, and `NetworkError`'s copying of the stack trace is left out.
- HMAC-SHA256 is a parameter. Only its 32-byte output is known. The constant-time behaviour of `timingSafeEqual` is a side-channel property and is not expressed.
- `JSON.parse`, `new Date(s).getTime()`, `new URL(s)` and `Date.now()` are parameters. A `Buffer` payload is handed to the decoder as is, without the `toString("utf8")` step.
- Numbers are integers, because floating point is left out. In particular:
  - `Number.isInteger` always holds;
  - `isEventRecent`'s `/ 1e3` is the integer inequality |Δms| ≤ tolerance·1000.
- Services.LimitAccepted does not cover a fractional `limit` (rejected by `Number.isInteger`), because numbers are integers here.
- An object property explicitly set to `undefined` is treated as absent. So a spread of `{x: undefined}` leaves `x` as it was.
- Http.BuildRequestConfig models a `headers` option that is not an object as `{}`. It does not model a string or array being spread into index keys.
- `secureCompare` and `verifySignature` take a string or nothing. Other signature values are left out: `Buffer.from` accepts a Buffer, an array or an array-like and compares its bytes, while a number, `null` or `undefined` makes it throw, which `verifySignature` turns into `false` (the absent case). `index.js`'s `verifyWebhookSignature` takes only strings.
- Signature.SecureCompare: Dafny strings hold only Unicode scalar values, so lone surrogates are not modelled. JavaScript encodes each lone surrogate as EF BF BD, so distinct strings such as "\uD800" and "\uDC00" compare equal there; Utf8.EncodeInjective and Utf8.EncodeEqualIff hold only for the scalar-value strings modelled here.
- `parseEvent`'s fallback "Failed to parse webhook event" for a thrown non-Error is left out. Only the decoder and the interpolation of `type` can throw inside it, and both throw Errors.
- EventSchema.ValidateEventStructure: when `type` cannot be interpolated, the source function itself throws a TypeError. The model returns the unknown-type reason instead, and EventSchema.EventError.Message gives that TypeError's message, which is what `parseEvent` reports.
- JavaScript's string conversion is modelled for JSON values only: an object fails to convert exactly when it has its own `toString` property, which in parsed JSON is never callable. The TypeError text is V8's "Cannot convert object to primitive value".
- Webhook handlers are recorded as the handler invoked, not awaited. Promise behaviour and errors that handlers throw are left out.
- The Express server set-up is left out: dotenv, cors, the `/health` route, `app.listen` and all console logging (index.js:1-12, 86-95). They are process plumbing and I/O, and the route's `switch` only logs.
- `express.json()` is represented only by its result: the route receives the parsed body as a JSON value. A request the middleware does not parse is the body `{}` (the Express 4 behaviour), which gets 500 like every object. The middleware's own errors (a malformed JSON request) are answered before the route and are left out.

## Findings

| source | as written | input that shows it | evidently intended | confidence | as-written member | corrected member |
|---|---|---|---|---|---|---|
| node_modules/@transvoucher/sdk/dist/index.mjs:613-620 | `updateConfig` validates and rebuilds the HTTP client only when `apiKey`, `environment` or `baseUrl` is supplied | `updateConfig({apiSecret: ""})` on a valid instance stores a configuration that `validateConfig` rejects. It throws nothing, and requests keep sending the old secret | every update validated and handed to the client, keeping the instance consistent | medium, not executed | Sdk.SecretUpdateSkipsValidation (with Sdk.TransVoucher.UpdateConfig) | Sdk.TransVoucher.UpdateConfigValidated |
| index.js:11-53 | `express.json()` is installed for every route, so `req.body` is already a parsed object, and the route calls `JSON.parse(req.body.toString())` on it | any webhook posted as `application/json`, e.g. `{"event_type": "payment.completed"}`: its text is "[object Object]", `JSON.parse` throws, and the route answers 500 | the route parses the raw body text (comment at index.js:22), so a non-null JSON webhook is acknowledged with 200 | medium, not executed | Server.ObjectBodyFails (with Server.WebhookRoute) | Server.RawWebhookRoute |

`switchEnvironment` always supplies `environment`, so it takes the validating branch. For
that input the as-written and corrected updates behave the same.

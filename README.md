# ai-analyzer-bot services, modelled in Dafny

A Telegram bot takes photos from users and asks a vision model to rate them.
Each user gets a few free attempts. After that, usage is unlocked by a paid
"Pro" subscription, which a payment provider's webhook switches on. This
project models the three services where that behaviour lives:

- **Image analysis** (`analysis.dfy`, module `Analysis`). This is the prompt
  sent to the model for each kind of analysis, with an optional user note.
  It also covers the parser that reads `ОЦЕНКА:` (score) and `АНАЛИЗ:`
  (analysis text) out of the model's answer, the fixed fallback results, and
  how `analyzeImage` chooses between the parsed answer and the fallback.
  These are pure functions over `string`. The JavaScript string and regex
  behaviour they rely on is in `text.dfy` (module `Text`): `\s`, `\d`,
  `trim`, matching under `/i`, `parseInt` of a digit run, and `${n}`.
- **Payments** (`payments.dfy`, module `Payments`). The database is a
  `Store`. It holds the payments table keyed by id, the set of users with an
  active Pro subscription, and the table's autoincrement counter.
  `CreatePaymentStep`, `HandlePaymentWebhookStep` and
  `CreateProSubscriptionStep` state what each operation does to a store.
  The class `PaymentsService` keeps the tables in fields. Its methods change
  those fields in place, and each method is proved to produce exactly the
  result and store of its step. The queries `getPaymentById` and
  `getUserPayments` are functions on a store.
- **Users** (`users.dfy`, module `Users`). The users table is keyed by
  numeric id and has a unique `telegramId` column.
  `UsersService.FindOrCreateUser` performs the find-or-create in place and is
  proved equal to `FindOrCreateStep`.

The main results:
- The parser's score is always absent or in 0..10. It is the value of the
  leftmost `ОЦЕНКА:` marker that has digits after it.
- The text is the trimmed remainder after the first `АНАЛИЗ:` marker.
- An answer written in the format every prompt asks for is parsed back as
  its score, dropped when above 10, and its text, trimmed. So it is read back
  exactly when the score is at most 10 and the text has no whitespace at
  either end.
- `analyzeImage` never yields a score outside 0..10.
- Creating a payment inserts exactly one row under a fresh id and changes
  nothing else. Distinct payments never share a checkout URL.
- A webhook for an unknown id changes nothing. A webhook for a known id
  changes only that payment. It activates Pro exactly on SUCCESS, never
  revokes it, and replaying it is idempotent.
- `getUserPayments` returns every row of the user exactly once, newest
  first.
- find-or-create keeps `telegramId` unique and gives new users 5 free
  attempts. It is idempotent: a second call returns the same user and leaves
  the table unchanged.

Inputs that come from outside the program are parameters:
- the OpenAI call is `openAI: ChatRequest -> HttpOutcome`;
- the OpenAI key is the `apiKey` argument of `AnalyzeImage`;
- the Stripe and YooKassa keys and the Pro price setting are arguments of the `PaymentsService` constructor;
- the creation time of a payment is `now`;
- whether a provider call rejects is `providerRejects`.

## Model

| member | source | states |
|---|---|---|
| `Text.SkipSpaces` | src/analysis/openai.service.ts:117 | `\s*` drops exactly the leading whitespace; what remains is a suffix that starts with a non-space |
| `Text.LeadingDigits` | src/analysis/openai.service.ts:117 | `(\d+)` takes the longest digit prefix; the next character, if any, is not a digit |
| `Text.Trim` | src/analysis/openai.service.ts:122 | `trim()` returns a contiguous part of the input, with only whitespace cut on each side and no whitespace at either end |
| `Text.TrimIdempotent` | src/analysis/openai.service.ts:122 | trimming twice is the same as trimming once |
| `Text.IndexOfIgnoreCase` | src/analysis/openai.service.ts:121 | finds the leftmost case-insensitive occurrence of a marker at or after a position, or reports that none exists |
| `Text.NatToString` | src/payments/payments.service.ts:87 | `${id}` is a non-empty digit string with no leading zero |
| `Text.DecimalValueOfNatToString` | src/payments/payments.service.ts:87 | the digits `${n}` writes determine `n`: read back as a decimal number they give `n` again |
| `Analysis.DigitAfterSpacesIff` | src/analysis/openai.service.ts:117 | `\s*\d` matches exactly when the greedy `\s*` stops at a digit, so backtracking never changes the match |
| `Analysis.FindMarkerThenDigit` | src/analysis/openai.service.ts:117 | the search returns the leftmost position where the marker is followed by whitespace and a digit, or none when no position qualifies |
| `Analysis.FindScoreMatch` | src/analysis/openai.service.ts:117 | the score match is the leftmost qualifying `ОЦЕНКА:`; none is found only when no position qualifies |
| `Analysis.ParseAnalysisResult` | src/analysis/openai.service.ts:112-128 | the returned score is absent or in 0..10 |
| `Analysis.ScoreIsFirstMatch` | src/analysis/openai.service.ts:117-126 | the score is the value of the digit run after the leftmost qualifying marker, and is dropped when above 10; an earlier marker without digits is skipped |
| `Analysis.NoScoreWithoutMatch` | src/analysis/openai.service.ts:117-126 | when no marker is followed by whitespace and digits, the score is absent |
| `Analysis.ScorePresentIff` | src/analysis/openai.service.ts:117-126 | a score is present exactly when the leftmost match reads a value of at most 10 |
| `Analysis.TextAfterFirstMarker` | src/analysis/openai.service.ts:121-122 | with an `АНАЛИЗ:` marker, the text is the trimmed suffix after its first case-insensitive occurrence, newlines included |
| `Analysis.WholeContentWithoutMarker` | src/analysis/openai.service.ts:121-122 | without the marker, the text is the whole content, untrimmed |
| `Analysis.PromptPrefix` | src/analysis/openai.service.ts:89-91 | the prompt starts with `Дополнительная информация от пользователя: "<note>"` and a blank line exactly when the note is non-empty; otherwise it is the bare template |
| `Analysis.NotePrefix` | src/analysis/openai.service.ts:89-91 | the note prefix is empty exactly when the note is absent or empty; otherwise it is `Дополнительная информация от пользователя: "` followed by the note itself, then the closing quote and a blank line |
| `Analysis.BuildPrompt` | src/analysis/openai.service.ts:88-107 | the prompt starts with the note prefix and ends with `Формат ответа: ОЦЕНКА: [число] АНАЛИЗ: [подробный текст]`, whatever the kind |
| `Analysis.FormatNamesMarkers` | src/analysis/openai.service.ts:95 | the format instruction contains the score marker and the text marker the parser looks for, in that order |
| `Analysis.UnknownTypeGetsGeneralPrompt` | src/analysis/openai.service.ts:103-105 | an enum value outside the four gets the same prompt as GENERAL (the `default:` case) |
| `Analysis.MockAnalysis` | src/analysis/openai.service.ts:133-153 | every mock result has a score in 0..10 |
| `Analysis.MockScores` | src/analysis/openai.service.ts:133-153 | the mock scores are MERCH 7, FOOD 8, CHARACTER 6, GENERAL 7; an enum value outside the four gets the GENERAL entry through `||` |
| `Analysis.AnalyzeImage` | src/analysis/openai.service.ts:25-83 | without a key: the mock result; with a key: the parsed answer for an ok, non-empty response and the mock on any failure; the score is always absent or in 0..10 |
| `Analysis.ParseFormattedAnswer` | src/analysis/openai.service.ts:112-128 | `ОЦЕНКА: n АНАЛИЗ: text` parses, for every n and text, to the trimmed text and to score n when n is at most 10, no score otherwise |
| `Analysis.FormattedAnswerRoundTrip` | src/analysis/openai.service.ts:112-128 | with n in 0..10 and a text with no whitespace at either end, `ОЦЕНКА: n АНАЛИЗ: text` parses to exactly score n and that text |
| `Payments.RouteFor` | src/payments/payments.service.ts:53-61 | Stripe is called exactly when the provider is stripe and its key is set, YooKassa exactly when the provider is yookassa and its key is set; every other case takes the mock URL |
| `Payments.CreateStripePayment` | src/payments/payments.service.ts:84-88 | the URL is `https://checkout.stripe.com/pay/mock_` followed by the payment id's decimal digits: no leading zero, reading back as the id |
| `Payments.CreateYookassaPayment` | src/payments/payments.service.ts:93-97 | the URL is `https://yoomoney.ru/checkout/mock_` followed by the payment id's decimal digits: no leading zero, reading back as the id |
| `Payments.MockPaymentUrl` | src/payments/payments.service.ts:59 | the URL is `https://mock-payment.com/pay/` followed by the payment id's decimal digits: no leading zero, reading back as the id |
| `Payments.PaymentUrl` | src/payments/payments.service.ts:53-61 | the URL of each branch is that branch's prefix followed by the payment id's decimal digits: no leading zero, reading back as the id |
| `Payments.PaymentUrlIdentifiesPayment` | src/payments/payments.service.ts:53-97 | equal checkout URLs mean the same branch and the same payment id |
| `Payments.CreatePaymentStep` | src/payments/payments.service.ts:37-79 | inserts exactly one row under a fresh id: PENDING, with the given user, amount and provider, currency defaulting to RUB, and nothing else changed; on success returns that id, PENDING and the URL of the chosen branch; if the provider call fails, the row becomes FAILED and the call raises |
| `Payments.PaymentUrlChoice` | src/payments/payments.service.ts:53-61 | when the payment is created, its URL is the Stripe checkout when the provider is stripe and its key is set, the YooKassa checkout when the provider is yookassa and its key is set, and the mock page otherwise |
| `Payments.ProPrice` | src/payments/payments.service.ts:166-168 | the Pro price is the PRO_SUBSCRIPTION_PRICE setting, or 299 when it is not configured |
| `Payments.CreateProSubscriptionStep` | src/payments/payments.service.ts:162-176 | delegates to createPayment with the configured price and RUB; the provider defaults to yookassa |
| `Payments.HandlePaymentWebhookStep` | src/payments/payments.service.ts:102-129 | an unknown id raises and changes nothing; a known id gets the new status and every other payment is unchanged; the owner has Pro afterwards exactly when the status is SUCCESS or they had it before; Pro is never revoked |
| `Payments.WebhookReplayIsIdempotent` | src/payments/payments.service.ts:116-128 | repeating a webhook, SUCCESS included, returns the same result and leaves the same store |
| `Payments.ProSurvivesLaterWebhooks` | src/payments/payments.service.ts:124-128 | after a SUCCESS webhook, the owner still has Pro after any later webhook |
| `Payments.PaymentById` | src/payments/payments.service.ts:134-147 | returns the row with that id exactly when one exists |
| `Payments.RowsOf` | src/payments/payments.service.ts:153-154 | gathers each of the user's rows in an id range exactly once |
| `Payments.SortNewestFirst` | src/payments/payments.service.ts:155 | orders by creation time, newest first, as a permutation of its input |
| `Payments.UserPayments` | src/payments/payments.service.ts:152-157 | contains every payment of the user exactly once and no other, newest first |
| `Payments.PaymentsService.constructor` | src/payments/payments.service.ts:25-32 | the service starts on the given tables and keeps the configured Stripe and YooKassa keys (and the configuration's price setting, read later) |
| `Payments.PaymentsService.CreatePayment` | src/payments/payments.service.ts:37-79 | updates the tables in place to exactly the store and result of `CreatePaymentStep` |
| `Payments.PaymentsService.HandlePaymentWebhook` | src/payments/payments.service.ts:102-129 | updates the tables in place to exactly the store and result of `HandlePaymentWebhookStep` |
| `Payments.PaymentsService.CreateProSubscriptionPayment` | src/payments/payments.service.ts:162-176 | reads the price with its 299 default on each call, then updates the tables in place to exactly the store and result of `CreateProSubscriptionStep` at that price |
| `Users.FindByTelegramId` | src/users/users.service.ts:14-16 | returns an id whose row has the telegramId, or none when no row in the range has it |
| `Users.FindUnique` | src/users/users.service.ts:14-16 | returns the user of that telegramId exactly when one is registered |
| `Users.FindOrCreateStep` | src/users/users.service.ts:8-31 | the returned user has the given telegramId; a registered user comes back with the table unchanged; otherwise exactly one row is added under a fresh id, holding the given profile and 5 free attempts; telegramIds stay unique |
| `Users.FindOrCreateIdempotent` | src/users/users.service.ts:14-30 | a second call with the same telegramId, whatever the profile, returns the same user and leaves the table as the first call left it |
| `Users.NewUserHasFreeAttempts` | src/users/users.service.ts:18-28 | a newly registered user starts with 5 free attempts, and the table grows by one row |
| `Users.UsersService.constructor` | src/users/users.service.ts:6 | the service starts on the given table |
| `Users.UsersService.FindOrCreateUser` | src/users/users.service.ts:8-31 | updates the table in place to exactly the user and table of `FindOrCreateStep` |

## Left out

- The HTTP exchange with OpenAI (`fetch`, `response.json()`). It is network I/O, so its outcome is the parameter `openAI`. The outcome is either a rejection (`Threw`) or a response with its `ok` flag and its optional content. Content that is not a string is not modelled.
- Logging (`console.log`, `console.warn`, `console.error`). It has no effect on results.
- `Text.Upper`: the case canonicalisation of `/i` is modelled only for ASCII letters and the Cyrillic block U+0400..U+045F. Letters of other blocks whose uppercase falls in that block are not folded. An example is Cyrillic Extended-C, U+1C80..U+1C88, whose letters uppercase to В, Д, О, С, Т, Ъ, Ѣ and Ꙋ. For instance, `ᲂЦЕНКА: 5` (U+1C82 first) yields score 5 in JavaScript and no score in the model.
- `parseInt` is modelled on unbounded integers. JavaScript rounds digit runs beyond 2^53, but any such value is above 10 and is dropped either way.
- The unused `analysisType` argument of `parseAnalysisResult` is dropped.
- The provider integrations `createStripePayment` and `createYookassaPayment` return fixed URLs and cannot fail as written. The `catch` branch of `createPayment` is reached through the input `providerRejects`, which is read only on the branches that call a provider.
- A failure of the first insert in `createPayment`, or of any other database call, is not modelled. Examples are a foreign-key violation or a lost connection. The database is plain maps.
- The Pro price comes from `parseFloat` of a configuration string. Floating point is left out: amounts are integers and the price setting is an optional integer, with 299 when it is absent.
- `activateProSubscription`: the webhook calls it on `UsersService`, but src/users/users.service.ts defines no such method, so the call as written has no definition to model. The model assumes it activates the subscription by adding the owner to `proUsers`. That set belongs to the payments `Store` and is not connected to the `Users` table; a user's free attempts and Pro status are not related in this model.
- `getPaymentById` also joins some user columns. The join is not modelled.
- Creation times are the input `now`. `getUserPayments` promises newest first only. The order among equal creation times is the database's choice, and the model fixes one such order.
- Analysis types outside the `AnalysisType` enum are not modelled: `OtherType` is a single value standing for an enum value other than the four. A raw string would behave differently. A string spelling one of the four names is that value itself. A string naming an `Object.prototype` member (`toString`, `constructor`, `valueOf`, `__proto__`) makes the lookup `mockResults[analysisType]` at openai.service.ts:153 return the inherited member instead of the GENERAL entry.
- The payment statuses are those the service names (PENDING, SUCCESS, FAILED). Every other value of the status enum is the single value `OtherStatus`, which the service treats like any status other than SUCCESS; the schema itself is not part of this model.
- Two concurrent `findOrCreateUser` calls for the same account are not modelled. They could both miss the row, and then the unique index would reject one insert. Every operation here is sequential.
- The controllers, modules, bootstrap, the Telegram bot handlers, the analysis-record service and the configuration schema are routing, wiring and library code. `findById` and `getUserBalance`, which the users controller calls, are not part of this model.

# POOPKY product-recommendation chat handler, modelled in Dafny

This project models the `POST /chat` handler of `server.js`. The handler is a
backend mediator between a chat widget and the Gemini generation API. It turns
a user's message into a natural-language reply plus at most one product from a
fixed five-product catalog. The model is a pure, step-by-step version of that
handler:

1. **Request gate** (`Chat.Handle`): a falsy `message` is refused with 400
   `Message is required.` before anything else runs.
2. **Retry with exponential backoff** (`Upstream`): at most three attempts.
   Every failure inside an attempt counts as a failed attempt and is retried
   alike. The failures are a network error, a non-2xx status, an unreadable
   body, missing or empty `candidates[0].content.parts[0].text`, and a
   `JSON.parse` error. After the k-th failure the handler waits `1000 * 2^k`
   ms, and the third failure ends the handler with a 500 that carries the last
   error's message.
3. **Post-validation and resolution** (`Chat.Resolve`): `product_id` must be a
   JavaScript number, with no coercion, or the answer is a 500. It is looked up
   with `===` on the catalog ids. The reply is passed through unchanged, and
   the product is the matching entry or `null`.
4. **Catalog manifest** (`Manifest`): the line per product that goes into the
   model's instruction. Its feature label comes from a priority chain of
   substring tests on the product name.

The network and the JSON parser are parameters. `upstream[k]` is what the
k-th `fetch` of the generation endpoint yields: a network error, or a status
plus a body. `parse` is `JSON.parse` taken as an oracle on the extracted text.
Waits are returned as a list of milliseconds rather than slept. JavaScript
values that the handler inspects (`message`, the parsed answer) are the
`Json.Value` datatype, with JavaScript truthiness and property access.

Notable behaviour of `server.js`, stated by the lemmas below:
- An id that matches no catalog entry gives `product: null`. There is no
  random fallback product.
- A response that parses but has no numeric `product_id` is not retried. The
  loop has already ended, and the handler answers 500. Text that fails to parse
  as JSON, however, is retried like a network error.
- Only a falsy message is refused. A blank message such as `" "` goes upstream.
- A truthy message whose string conversion throws (an object owning a
  `toString` key) is not refused: the handler throws before any call upstream.
- An empty `reply` is passed through as is, not replaced by an apology.
- All failure statuses are 500, and the answer key is `product_id`.

## Model

| member | source | states |
|---|---|---|
| Text.Includes | server.js:28 | `name.includes(k)` holds exactly when `k` occurs as a contiguous substring of `name` |
| Text.IntToString | server.js:28 | `${id}` in the manifest line: for n >= 0 digits denoting n, for n < 0 a single leading `-` followed by digits denoting -n; no leading zeros (only `"0"` starts with 0); hence no line break |
| Text.NatToStringValue | server.js:28 | the decimal rendering of a natural number denotes that number |
| Text.SplitJoin | server.js:29 | splitting a `join('\n')` of newline-free lines at `'\n'` gives back exactly those lines |
| Catalog.ProductsHaveDistinctIds | server.js:18-24 | the catalog has five entries with ids 1 to 5 in order, so the ids are pairwise distinct |
| Catalog.Find | server.js:130 | a found product is the FIRST catalog entry with exactly the requested id (no earlier entry has it); nothing is found exactly when no entry has that id |
| Catalog.FindIsUnique | server.js:130 | with distinct ids, the lookup returns the one entry that carries the id |
| Json.Truthy | server.js:38 | JavaScript truthiness behind `!userMessage` and `!geminiResponse`; stated by `Chat.FalsyMessageIsRejected` and `Chat.WhitespaceMessageIsAccepted` |
| Json.ToStringThrows | server.js:55 | string conversion of a JSON value throws exactly for an object owning a `toString` key, or an array with an element for which it throws; used by `Chat.Handle` |
| Json.Get | server.js:123 | property access `geminiResponse.product_id` (and `.reply` at line 134); an object's own field, else `undefined`; used by `Chat.Resolve` |
| Manifest.FeatureLabel | server.js:28 | the label chain; specified by `Manifest.FeatureLabelPriority` |
| Manifest.Line | server.js:28 | one manifest line; its newline-freedom and place in the manifest are stated by `Manifest.ManifestHasOneLinePerProduct` |
| Manifest.ManifestText | server.js:27-29 | `products.map(...).join('\n')`; specified by `Manifest.ManifestHasOneLinePerProduct` |
| Manifest.FeatureLabelPriority | server.js:28 | each label is chosen exactly when its keyword occurs in the name and no keyword before it in the order 가죽, 반사, 에어, 택티컬 does; the default label exactly when none occurs |
| Manifest.ProductsFeatureLabels | server.js:18-28 | the five catalog products get the leather, reflective, air, tactical and default labels respectively |
| Manifest.ManifestHasOneLinePerProduct | server.js:27-29 | read back line by line, the manifest of newline-free products has exactly one line per product, in catalog order; an empty catalog gives the empty text |
| Manifest.ProductsManifest | server.js:18-29 | the shipped manifest has five lines, the i-th describing the i-th product |
| Upstream.RunAttempt | server.js:79-105 | one pass of the `try` block; specified through `Upstream.FailureCausesAreRetriedAlike` and `Upstream.RetryFrom` |
| Upstream.Backoff | server.js:118 | the wait `1000 * 2^k` ms after the k-th failure; its values 2000 and 4000 ms are stated by `Upstream.StopsAtFirstSuccess` and `Upstream.ExhaustsAfterThreeFailures` |
| Upstream.RetryFrom | server.js:72-120 | the loop makes between 1 and 3 calls, all before the last failed, and the result is the last call's outcome; a failed result means all 3 calls were used; the waits are the backoffs after every failure but the last |
| Upstream.RetryLoop | server.js:72-120 | the counter-and-break loop computes the same calls, waits and result as the recursive definition |
| Upstream.StopsAtFirstSuccess | server.js:76-110 | the loop stops at the first successful attempt i: i + 1 calls, the waits 2000 and 4000 ms cut to i entries, and that attempt's parsed value |
| Upstream.ExhaustsAfterThreeFailures | server.js:111-118 | three failures mean exactly 3 calls, waits of 2000 then 4000 ms (6000 ms total, none after the last), and the third attempt's error message |
| Upstream.FailureCausesAreRetriedAlike | server.js:85-119 | a network error, a non-2xx status, an unreadable body, a missing or empty text and a parse error are all handled by the one `catch`: two upstreams with the same pattern of failed attempts, whatever the causes, give the same number of calls, the same waits and the same success-or-failure outcome |
| Chat.Resolve | server.js:122-136 | a recommendation exactly when the parsed value is truthy and its `product_id` is a number; otherwise the fixed no-product-id 500; the reply is passed through; a returned product is a catalog entry with that id, and none is returned only when no entry has it |
| Chat.Handle | server.js:36-139 | 400 exactly when the message is falsy; the handler throws (no response of its own) exactly when a truthy message's string conversion at line 55 throws; no upstream call exactly in those two cases; at most 3 calls; a recommended product is always a catalog entry |
| Chat.ToStringKeyMessageThrows | server.js:37-55 | a message object owning a `toString` key, or an array holding one, passes the gate at line 38 but throws at line 55 before any call |
| Chat.HandleChecked | server.js:37-40 | the gate refusing every message that cannot become query text: never throws, 400 exactly when the message is falsy or its conversion throws, no call exactly when refused, and otherwise the same exchange as `Chat.Handle` |
| Chat.FalsyMessageIsRejected | server.js:37-40 | an absent, null or empty message gives 400 `Message is required.` with no call and no wait |
| Chat.WhitespaceMessageIsAccepted | server.js:37-40 | a whitespace-only message is not refused and reaches upstream |
| Chat.ExhaustionIsServerError | server.js:111-116 | three failed attempts give a 500 with the communication-error reply and the third error's message, after waits of 2000 and 4000 ms |
| Chat.NonNumericProductIdIsRejected | server.js:122-127 | a parsed answer whose `product_id` is not a number (missing, or the string "1") gives the no-product-id 500 with no product and no further attempt: i + 1 calls and the waits before them |
| Chat.NumericProductIdIsResolved | server.js:129-138 | a numeric `product_id` from the first successful attempt i gives 200 with the reply unchanged and product `id` for ids 1 to 5, otherwise `null`, after i + 1 calls and the waits `[2000, 4000][..i]` (fails twice then succeeds: 3 calls, waits 2000 and 4000 ms) |
| Chat.RecommendationExample | server.js:129-138 | a first reply with `product_id` 1 yields that reply and the leather harness after one call and no wait |

## Left out

- Express setup, CORS, `express.json`, `app.listen` and reading `PORT` and the API key: HTTP and process plumbing (server.js:5-15, 32-33, 141-143).
- The `fetch` call, the endpoint URL and the request payload with its response schema: each call is an `Upstream.Attempt` value instead (server.js:57-70, 79-90).
- The system instruction and user query text as strings: prose for the model. The catalog manifest inside the instruction is modelled, and so is the one way building the query text can fail: converting the message to a string throws (server.js:43-55).
- `JSON.parse`: a foreign call, taken as the `parse` oracle. Which texts parse to which values is not modelled.
- `setTimeout` and real time: waits are returned as millisecond values (server.js:118).
- `console.log` and `console.error` logging.
- What the client receives after the handler throws is decided by the Express version around it (an unhandled rejection, or the default error handler's 500); the model stops at `Chat.Thrown`.
- `JSON.stringify` of the response: a `reply` of `undefined` is kept as `Json.Undefined` rather than dropped from the body.
- Strings are sequences of code points. JavaScript strings are UTF-16, which gives the same result for every catalog text because all of it lies in the Basic Multilingual Plane.
- Upstream.Retry: it asks for at least three upstream outcomes, because the loop may need one per allowed call. Outcomes after the first success are never read.
- Chat.Resolve: `product_id` numbers are integers. A fractional, NaN or infinite number is outside the model; the source would resolve it to `null` as well.
- Json.Get: only the properties the handler reads (`reply`, `product_id`) are modelled. Inherited properties of strings and arrays are not.
- Idempotence of the handler for a fixed upstream holds by construction: every member is a pure function of its inputs.

## Findings

| source | as written | input that shows it | evidently intended | confidence | as-written member | corrected member |
|---|---|---|---|---|---|---|
| server.js:38-55 | the gate tests only truthiness; the message is then converted to a string outside the `try`, which throws a TypeError for an object owning a `toString` key, so the handler ends without a response of its own and without any call | request body `{"message": {"toString": 1}}` | such a message is refused like a missing one, with 400 `Message is required.` | medium, not executed | Chat.ToStringKeyMessageThrows | Chat.HandleChecked |

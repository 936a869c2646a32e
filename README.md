# api-connector-lite in Dafny

A model of the core of api-connector-lite: the per-instance closure that
`createInstance` builds around an axios instance, and the idempotency-key hash.
The model covers these parts:

- **Idempotency key.** A four-lane 32-bit multiply-xor hash runs over the UTF-16
  code units of `data + url`. A cross-mixing pass follows. The lanes are printed
  as 32 hex digits and spliced into a UUID-shaped template (`idempotency.dfy`).
- **In-flight request tracker.** A dictionary from request key to cancel-token
  source. It is kept by the cancel interceptors (`tracker.dfy`, `connector.dfy`).
- **Token store.** It is filled from response bodies, overwritten by a refresh
  and restored by the rehydrate hook. It feeds the bearer header and
  `getApiHeaders`.
- **Error decisions.** There is a 401 refresh-and-retry rule and a timeout
  retry rule with a 60000 ms ceiling and a factor of 5 (`policies.dfy`).
- **Step-up slot.** The step-up interceptor fills it and `stepUp` consumes it.
- **Header objects.** This covers the initial merge of the common headers,
  `updateHeaders` on the main and the refresh channel, and `getApiHeaders`
  (`headers.dfy`, `connector.dfy`).

**Module layout**

- `Js` holds the JavaScript value rules the code relies on:
  - `undefined` as `Option`;
  - truthiness and `??`;
  - template text;
  - `String.match` with a plain pattern;
  - strings as UTF-16 code units.
- `Http` holds the request, response and error records.
- The network is never modelled. What the server answers is a parameter of the
  method that consumes it: a `RefreshReply`, whether the step-up POST succeeded,
  or the response or error handed to an interceptor.

**Stateful and pure parts**

- Stateful parts are classes, mirroring the closure's three mutable objects:
  - `RequestTracker` for `currentExecutingRequests`;
  - `TokenStore` for `tokens`;
  - `StepUpSlot` for `stepUpPayload`.
- The `Connector` class holds the settings, references to those three objects
  and the two common-header objects.
- Pure decisions are functions:
  - `runWhen`;
  - the 401 rule;
  - the timeout rule;
  - the step-up challenge and body;
  - the initial merge.
- `IdempotencyKeyFrom` keeps the source's loop over local lanes. Its loop
  invariant ties the lanes to the fold `AbsorbAll`.

**How axios runs the interceptors**

- axios runs request interceptors in the reverse of their registration order.
- Each request interceptor runs only when its `runWhen` holds for the incoming
  config. `Connector.Dispatch` composes them in that order: tracker, then
  idempotency key, then bearer header.
- For response interceptors axios ignores `runWhen`. Each response interceptor
  in index.ts repeats its guard inside its body, and the model follows those
  inner guards.

**Where the code departs from its own comments and tests**

- The comment on `cancelRequestInterceptor` (index.ts:187-192) says that
  without `cancelOldRequest` the new request is cancelled and the old one kept.
  The code does neither: it cancels a throwaway source, deletes the entry under
  `''`, and overwrites the old entry (`Tracker.RequestTracker.Register`).
- The comment on `refreshToken` (index.ts:344-348) says the mutex prevents
  multiple refresh requests. It serialises refreshes but does not merge them:
  every caller posts its own refresh after the previous one finishes, and the
  refresh token sent is read before the lock is taken.
- `useIdempotency` defaults to `false` (index.ts:38). Under a default
  configuration no `Idempotency-Key` header is added, although
  tests/idempotency.test.ts:12-24 expects one.

**Other behaviour the model keeps**

- `refreshToken()` (index.ts:349-358) stores the new pair but never calls
  `tokensPersist`. Only `storeTokensInterceptor` calls it, and only when both
  tokens in a body are truthy.
- The tracker files a request under its config `url` (often relative). It
  forgets a response under `request.responseURL`, which is the absolute URL, or
  the text "undefined" when absent. The two keys need not match, so a
  successful request can stay filed. `CancelResponseInterceptor` states exactly
  which key is removed.
- `stepUp` clears the slot only when the step-up POST succeeded, once the
  replay settles. A failed POST leaves the slot as it was.
- A timeout of 0 (or less) is never raised above the ceiling, since 5 · 0 = 0.
  A request that keeps timing out with timeout 0 is re-issued forever
  (`Policies.NonPositiveTimeoutRetriesForever`).
- `Math.imul` reduces its operands to 32 bits, so the multipliers 5754853343 and
  9576890767 act as 1459886047 and 986956175.
- `JSON.stringify(data) + url` is `NaN` when both are `undefined`. The hash loop
  then runs zero times (`IdempotencyKey.KeyText`).

## Model

| member | source | states |
|---|---|---|
| IdempotencyKey.IdempotencyKeyFrom | index.ts:489-517 | the loop over the code units keeps the four lanes equal to the fold of the prefix read; the key is `KeyOf` of the code units of `data + url` and always has the UUID shape |
| IdempotencyKey.KeyText | index.ts:495 | the hashed text is `data + url` (or its JSON text + url), and is absent (`NaN`) exactly when the JSON text and the url are both `undefined` |
| IdempotencyKey.AbsorbKeepsLanesApart | index.ts:499-502 | each lane absorbs a code unit on its own: its new value depends only on its old value and the code unit |
| IdempotencyKey.AbsorbAllFromSeed | index.ts:497-503 | the lanes after the loop are the seed with every code unit consumed, first to last |
| IdempotencyKey.AbsorbAllStreams | index.ts:497-503 | hashing `s + t` consumes `t` from the lanes reached after `s` |
| IdempotencyKey.FinaliseMixesInPairs | index.ts:505-508 | h2 mixes in the new h1 and h4 the new h3; the pair (h1, h2) depends only on the old h1 and h2, and (h3, h4) only on h3 and h4 |
| IdempotencyKey.KeyFromLanes | index.ts:505-516 | whatever the lanes, the finalised, hex-printed and spliced key is UUID-shaped: 36 characters, dashes at 8/13/18/23, `4` at 14, lowercase hex elsewhere |
| IdempotencyKey.HashHex | index.ts:510-514 | 32 lowercase hex digits: lanes h4, h3, h2, h1 in 8-digit groups |
| IdempotencyKey.Hex | index.ts:511-514 | `toString(16).padStart(width, '0')` has exactly `width` lowercase hex digits |
| IdempotencyKey.HexRoundTrip | index.ts:511-514 | the padded hex text of a number below 16^width reads back as that number |
| IdempotencyKey.Hex8RoundTrip | index.ts:511-514 | the 8-digit text of a lane reads back as the lane's unsigned value (`h >>> 0`) |
| IdempotencyKey.Splice | index.ts:516 | the template's `x` at offset p becomes hash digit p mod 32; the dashes and the `4` stay |
| IdempotencyKey.SpliceIsShaped | index.ts:516 | splicing 32 hex digits gives a UUID-shaped key |
| IdempotencyKey.KeyExposesOuterLanes | index.ts:505-516 | the key's first group reads back as the final h4 and positions 24..31 as the final h1 |
| IdempotencyKey.KeyEndRepeatsStart | index.ts:516 | offsets 32..35 wrap to hash digits 0..3, so the key's last four characters repeat its first four |
| IdempotencyKey.KeyIgnoresSplit | index.ts:495 | payload and url are joined without a separator: moving characters across the boundary gives the same key |
| IdempotencyKey.SameTextSameKey | index.ts:495-516 | the key depends only on the text `data + url` |
| Js.Utf16RoundTrip | index.ts:497-498 | the code units `charCodeAt` reads determine the string: decoding them gives the string back |
| Js.Utf16Injective | index.ts:497-498 | distinct strings are hashed over distinct code-unit sequences |
| Js.HasSubstringSpec | index.ts:283 | `message.match(/timeout/)` succeeds exactly when "timeout" occurs at some index of the message |
| Js.Digits | index.ts:325 | `${n}` of a number: at least one decimal digit, no leading zero except for 0 |
| Js.DigitsRoundTrip | index.ts:325 | the digits of a natural number read back as that number |
| Js.Decimal | index.ts:325 | `${n}` of an integer: a leading `-` iff it is negative, then digits that read back as its magnitude |
| Js.DecimalInjective | index.ts:325 | different integers give different texts |
| Js.ScalarText | index.ts:403 | `${v}`: a string as it is, an integer in decimal; a truthy value never gives empty text |
| Http.WithHeader | index.ts:182 | with a header object, the named header takes the value and every other header and field is kept; without one the config is unchanged |
| Http.BodyOrEmpty | index.ts:300 | `data = {}`: the body when there is one, otherwise a body with no fields |
| Headers.InitialHeaders | index.ts:26-59 | custom headers win; otherwise the API key (only when truthy); otherwise Accept and Content-Type `application/json`; no other keys |
| Headers.Defined | index.ts:369-371 | keeps exactly the entries whose value is defined, with their values |
| Headers.DropUndefined | index.ts:369-371 | the `forEach`/`delete` loop leaves exactly the defined entries of the merged object |
| Headers.Updated | index.ts:364-382 | a key given a defined value takes it; a key given `undefined` is absent; an unmentioned key keeps its value, unless that value was `undefined`; no value is `undefined` afterwards |
| Headers.UpdateIdempotent | index.ts:364-382 | applying the same update twice equals applying it once |
| Headers.EmptyUpdateKeepsDefined | index.ts:364-382 | an empty update leaves a header object without undefined values unchanged |
| Policies.AuthRunWhen | index.ts:99 | the bearer interceptor runs iff auto-refresh is on and the stored access token is present and non-empty |
| Policies.CancelRunWhen | index.ts:108 | the cancel interceptors run iff `cancelOldRequest` is defined, whether `true` or `false` |
| Policies.IdempotencyRunWhen | index.ts:101-105 | the idempotency interceptor runs iff `useIdempotency` and the method is post, put or patch; an absent method never qualifies |
| Policies.Authenticate | index.ts:164-171 | with auto-refresh on and a header object, sets `Authorization` to `Bearer ${accessToken}` and changes nothing else; otherwise the config is unchanged |
| Policies.AuthenticateWhenRun | index.ts:164-171 | whenever the interceptor's `runWhen` holds, the header carries the stored token itself |
| Policies.UnauthorizedDecision | index.ts:299-310 | first 401 with auto-refresh: refresh then retry the same config marked `didRetry`; 401 on a marked config: reject with the body (`{}` if none); anything else: reject the error unchanged |
| Policies.RefreshAtMostOnce | index.ts:303-306 | the retried config can never trigger a second refresh; a second 401 rejects with its body |
| Policies.IsTimeout | index.ts:283 | timeout iff (code `ECONNABORTED` and "timeout" occurs in the message) or status 504 |
| Policies.TimeoutDecision | index.ts:279-292 | a timeout whose timeout is defined and at most 60000 is re-issued with five times the timeout and every other field equal; everything else rejects the error unchanged |
| Policies.RetriesUntilSurfaced | index.ts:279-292 | from a positive integer timeout, the chain of re-issues (each timing out again) is finite, and the k-th re-issue happens only while timeout · 5^(k-1) ≤ 60000 |
| Policies.RetriesAtMostSeven | index.ts:285-288 | from any positive integer timeout at most seven re-issues happen |
| Policies.NonPositiveTimeoutRetriesForever | index.ts:285-288 | a timeout ≤ 0 is always re-issued with a timeout still ≤ 0; with 0 the re-issued config is the same config |
| Policies.StepUpChallenge | index.ts:317-323 | a challenge is recorded iff step-up is enabled, the status is 403 and the body's `transactionId` is truthy; it holds that id and the body's methods |
| Policies.WithTransactionId | index.ts:324-325 | creates the header object if missing and sets `X-TransactionId` to the id's text, keeping every other header and field |
| Policies.StepUpBodyFor | index.ts:396-399 | `{username, passcode}` iff both are truthy, else `{refreshToken, authenticationMethod: 'BIOMETRIC'}` |
| Policies.StepUpHeaders | index.ts:401-405 | `X-TransactionId` (the id's text) iff the recorded id is truthy, and no other header |
| Tracker.RequestTracker.Register | index.ts:194-212 | the fresh source is stored under the key and was never stored or cancelled; with `cancelOld` an existing entry's source is cancelled and no longer stored; without it a throwaway source is cancelled and `''` is deleted; other keys are unchanged; sources stay live and unique per key |
| Tracker.RequestTracker.Evict | index.ts:224-247 | removes exactly that key; removing twice equals removing once |
| Tracker.RegisterAsWritten | index.ts:198-207 | the lookup as written: a key naming an inherited member counts as taken, and with `cancelOld` the interceptor throws; under `__proto__` without `cancelOld` the entry under `''` is deleted and nothing is filed |
| Tracker.InheritedNameBreaksRegister | index.ts:198-207 | url `constructor` or `__proto__` with `cancelOldRequest: true` throws before sending; url `toString` with `false` deletes the entry under `''`; url `__proto__` with `false` deletes it and files nothing |
| Connector.MergeTokens | index.ts:264-265 | a token present in the body (even empty) replaces the stored one; an absent one keeps it |
| Connector.MergeTokensIdempotent | index.ts:264-265 | merging the same tokens twice is merging once; merging no tokens changes nothing |
| Connector.TokensIn | index.ts:262 | a missing response or body carries no tokens |
| Connector.RequestKey | index.ts:197 | the tracker key is the url, or `''` when the url is absent |
| Connector.IdempotencyInterceptor | index.ts:177-185 | with a header object, sets `Idempotency-Key` to the key of the config's data and url (a UUID-shaped key); otherwise changes nothing |
| Connector.Connector.constructor | index.ts:33-73 | option defaults (auto-refresh on unless `false`; idempotency, step-up and timeout retry off unless `true`; default paths), initial common headers, empty tracker, store and slot |
| Connector.Connector.Rehydrate | index.ts:67-71 | the restored pair (`{}` when the hook yields nothing) is merged into the store with `??` |
| Connector.Connector.CancelRequestInterceptor | index.ts:194-212 | the returned config is the input with the fresh source's token, stored under `url ?? ''` and never stored or cancelled before; with `cancelOldRequest: true` an existing entry's source is cancelled and no longer stored; otherwise a throwaway source is cancelled and `''` is deleted; nothing else is cancelled and other keys keep their entries |
| Connector.Connector.Dispatch | index.ts:97-109 | the request chain in axios order: a fresh cancel token and the tracker update of `CancelRequestInterceptor` iff `cancelOldRequest` is defined, otherwise the tracker is unchanged; `Idempotency-Key` set to the key iff idempotency applies, otherwise kept as it was; `Authorization: Bearer <token>` iff auto-refresh and a truthy token, otherwise kept as it was; every other header and field unchanged |
| Connector.Connector.CancelResponseInterceptor | index.ts:220-227 | removes only the entry under `responseURL` (`"undefined"` when absent), and only when `cancelOldRequest` is defined; the response passes unchanged |
| Connector.Connector.CancelErrorInterceptor | index.ts:236-250 | a cancellation resolves with no value and leaves the tracker unchanged; any other error removes the entry under `url ?? ''` and rejects with the same error |
| Connector.Connector.StoreTokensInterceptor | index.ts:258-272 | with auto-refresh on, tokens present in the body replace the stored ones; the persist hook is called iff both body tokens are truthy, and then with exactly that pair; with auto-refresh off nothing changes |
| Connector.Connector.RefreshToken | index.ts:349-358 | sends the stored refresh token to `refreshPath`; on an answer body the store becomes exactly the answered pair (absent tokens included); on failure the store is unchanged and the failure is passed on |
| Connector.Connector.RefreshTokenInterceptor | index.ts:299-310 | on a first 401, exactly one refresh, posted to `refreshPath` with the stored refresh token, then one retry of the same config marked `didRetry`; if the refresh fails or answers no body, that failure with the store unchanged; otherwise no refresh and `UnauthorizedDecision`'s rejection with the store untouched |
| Connector.Connector.StepUpAuthInterceptor | index.ts:317-332 | always rejects; on a challenge, the rejected error's config gains `X-TransactionId` and the slot holds id, methods and that config, replacing an earlier challenge; otherwise nothing changes |
| Connector.Connector.StepUp | index.ts:389-415 | rejects without a call iff the slot is empty; otherwise posts the chosen body with `X-TransactionId` to `stepupPath`; after a successful post it replays the recorded config, which always exists, and clears the slot; after a failed post the slot is unchanged |
| Connector.Connector.UpdateHeaders | index.ts:364-382 | both the main and the refresh common headers become `Updated(old, update)` |
| Connector.Connector.GetApiHeaders | index.ts:421-428 | `X-ApiKey` iff the API key is truthy, `Authorization: Bearer <token>` iff the stored token is truthy, and no other header |

## Findings

| source | as written | input that shows it | evidently intended | confidence | as-written member | corrected member |
|---|---|---|---|---|---|---|
| index.ts:198-207 | `currentExecutingRequests` is a plain object literal, and `currentExecutingRequests[key]` also finds inherited `Object.prototype` methods | url `constructor` with nothing in flight and `cancelOldRequest: true`: `source.cancel` is not a function, and the request fails with a TypeError before it is sent. url `toString` with `cancelOldRequest: false` deletes the entry filed under `''`. url `__proto__` with `true` throws too; with `false` it deletes the entry under `''` and the fresh source becomes the dictionary's prototype, so nothing is filed | only requests this tracker filed count as in flight (an own-property lookup, or a `Map`) | medium (not executed) | Tracker.InheritedNameBreaksRegister | Tracker.RequestTracker.Register |

## Left out

- The axios transport and the network are not modelled. Server answers are parameters: `RefreshReply`, `postSucceeded`, and the response or error given to an interceptor.
- Interceptors are modelled one by one, and the request chain is composed in `Dispatch`. How the response chain's promises pass one interceptor's result to the next is not modelled. Neither is what happens to a re-issued request.
- The `async-mutex` lock and promise scheduling are left out. Each refresh, store or slot update is one atomic step, and the order in which asynchronous callbacks (such as `tokenRehydrate`) land is the caller's choice.
- `JSON.stringify` is a foreign call. The serialised payload text is an input (`Payload.Serialized`).
- The `tokenRehydrate` and `tokensPersist` hooks themselves are left out. The model covers only what rehydration yields and whether, and with what, persist is called.
- Response-time stamping and `updateResponseTime` (index.ts:110-120, 141-157, 519-524) read the wall clock and are left out.
- The `to` helper (index.ts:472-479) is promise plumbing and is left out.
- The instance registry `getInstance`, the `global.window` factory choice (index.ts:83) and the unused `useEtag` are left out.
- adapters/debugWebAxios.ts is not part of this model.
- The refresh channel's initial common headers belong to the transport. They are a constructor parameter (`refreshCommon`).
- Header names are case-sensitive map keys here, whereas axios treats them case-insensitively. Key order in header objects is not modelled.
- Header values, tokens, `apiKey` and `authenticationMethods` are strings or absent. Non-string values and `null` are not modelled.
- `transactionId` is a string or an integer. Its text for an integer is the decimal form; non-integer numbers are not modelled.
- Js.Decimal: JavaScript writes integers of magnitude 10^21 or more in exponent form ("1e+21"); the model always writes plain digits, so it matches `${n}` only below that.
- Timeouts are integers. A fractional timeout (0.01 is re-issued ten times before passing 60000), `NaN` (never above the ceiling, so re-issued forever) and `Infinity` are not modelled.
- Response bodies carry only the fields the connector reads. A body with its own `code`/`message` fields reaching the timeout interceptor is not modelled.
- Strings are sequences of Unicode scalar values, so the hashed text cannot contain a lone surrogate.
- Aliasing is not modelled. The config recorded in the step-up slot and the config of the rejected error are one object in the source but two equal values here, so a later in-place change to one is not reflected in the other.
- A `Cancel` object has no config in axios. Here a cancellation is an `HttpError` with `isCancel` set, and its config is never read.

# Crypto balance scanner: verified model of the balance cache and the address test

This Dafny project models the two sequential pieces of logic in the
browser extension's scripts.

- **background.js.** `getAddressData` answers a balance lookup for a bitcoin or
  ethereum address. It serves a cached reading while the reading is younger
  than five minutes and was stored under the same type. Otherwise it asks
  the provider. It reduces the provider's JSON to `{balance, n_tx, type}`
  and stores the result in a `Map` bounded to 128 entries: when the map is
  full, the first key in insertion order is deleted before the write. It
  turns every failure into a message: an abort reads
  `Request for <address> timed out.`, and everything else reads
  `Network or API error: <message>.`. The `GET_BALANCE` message handler
  wraps this in a success or error response. `getOrCreateSessionInfo`
  decides when a new analytics session starts.
- **content.js.** `isBitcoinAddress` is a shape test. It accepts the two
  legacy forms, `1` or `3` followed by 25–34 Base58 characters, tested
  case-sensitively. It also accepts the bech32 form, `bc1` followed by
  39–87 characters of `[0-9a-z]`, tested on the lower-cased string.
  `showMainPopup` classifies the background's answer.

Files:

- `wrappers.dfy`: `Option` and `Result`.
- `js_value.dfy`: JSON values, JavaScript truthiness and `||`, property
  reads, and numeric coercion for `/`.
- `decimal.dfy`: integer-to-text conversion, for the HTTP status and the
  session id.
- `provider.dfy`: provider choice, normalisation, and error messages.
- `cache.dfy`: `CacheState` (the `Map` as a key order plus contents), the
  specification functions, their lemmas, and the class `BalanceCache`.
  The class updates the cache in place. `BalanceCache.GetAddressData` is
  proved equal to the specification function `GetAddressDataStep`.
- `gateway.dfy`: the `onMessage` branch for `GET_BALANCE`.
- `session.dfy`: the session-timeout decision.
- `address.dfy`: the address-shape test.
- `popup.dfy`: the response classification and the request content.js
  sends.

Inputs that the scripts read from their surroundings are parameters:

- The clock is `readAt`, the `Date.now()` of the hit test, and `writtenAt`,
  the `Date.now()` of the write after the request.
- The network is a `FetchOutcome`: a parsed body, a non-ok status with its
  text, the abort from the ten-second timer, or any other rejection with its
  message.

Two details of the code shape the cache model:

- The eviction test at background.js:64 runs before every write. So the
  first key is deleted whenever the map holds 128 or more keys, even when
  the address being written is already present. The size then drops to
  127, or the address moves to the back if it was itself the oldest key.
- The provider switch at background.js:31-37 accepts only "bitcoin" and
  "ethereum". Every other type throws before any request is made.

## Model

| member | source | states |
|---|---|---|
| `JsValue.OrElse` | background.js:53-55 | `v \|\| fallback` is `v` when `v` is truthy and the fallback otherwise |
| `JsValue.Member` | background.js:53-55 | a property read yields a value only for an object that holds the key, and then that key's value |
| `JsValue.ToNumber` | background.js:56 | a JSON number coerces to itself, null to 0, a boolean to 1 or 0; a string, array or object coerces to NaN |
| `JsValue.Divide` | background.js:56 | the quotient is finite exactly when the dividend is, and the quotient times the divisor gives back the dividend |
| `Decimal.NatToString` | background.js:46 | the status text is non-empty, all digits, and starts with '0' only for zero |
| `Decimal.NatToStringRoundTrip` | background.js:46 | reading the decimal text back gives the number printed |
| `Decimal.NatToStringInjective` | background.js:46 | distinct numbers print as distinct text |
| `Decimal.IntToString` | background.js:99 | the session id text is non-empty and starts with '-' exactly for negative clocks; it is the digits of the number, after a '-' when negative |
| `Provider.HttpErrorMessage` | background.js:43-46 | "API responded with status ", the status in decimal and ". Message: ", then the body text, or "No additional message." when the body is empty |
| `Provider.TimedOutMessage` | background.js:77 | the abort message is "Request for ", the address, then " timed out." |
| `Provider.WrappedMessage` | background.js:79 | the prefix "Network or API error: ", then the original message (or "Unknown error" when it is empty), then "." |
| `Provider.TimeoutDistinctFromWrapped` | background.js:76-79 | no timeout message equals any wrapped message |
| `Provider.CatchMessage` | background.js:74-80 | the result is the timeout message exactly for an abort; every other error is wrapped |
| `Provider.NormalizeBitcoin` | background.js:52-56 | fails exactly on a null body, with V8's null-read TypeError; the count is never a falsy value other than 0 |
| `Provider.BitcoinMissingEntryIsZero` | background.js:53-56 | an address the body does not report, or reports as a falsy value, reads as balance 0 and count 0 |
| `Provider.BitcoinMissingFieldsAreZero` | background.js:54-55 | missing or falsy `final_balance` and `n_tx` read as 0 |
| `Provider.BitcoinNumericFields` | background.js:54-56 | numeric fields are taken as they are; balance × 10^8 equals the satoshis reported |
| `Provider.BitcoinBalanceField` | background.js:52-56 | a numeric `final_balance` gives that many satoshis divided by 10^8, whatever `n_tx` holds |
| `Provider.BitcoinBalanceDefault` | background.js:53-56 | a missing or falsy `final_balance` gives balance 0, whatever `n_tx` holds |
| `Provider.BitcoinTxCountField` | background.js:52-55 | the count is the entry's `n_tx` when truthy and 0 otherwise, whatever `final_balance` holds |
| `Provider.BitcoinNonObjectEntryIsZero` | background.js:53-56 | a truthy entry that is not an object (a number, string or array) reads as balance 0 and count 0 |
| `Provider.NormalizeEthereum` | background.js:57-62 | fails exactly on a null body; the count is never a falsy value other than 0 |
| `Provider.EthereumMissingFieldsAreZero` | background.js:59-60 | missing or falsy `balance` and `n_tx` read as 0 |
| `Provider.EthereumBalanceField` | background.js:59-61 | a numeric `balance` gives that many wei divided by 10^18, whatever `n_tx` holds |
| `Provider.EthereumBalanceDefault` | background.js:59-61 | a missing or falsy `balance` gives balance 0, whatever `n_tx` holds |
| `Provider.EthereumTxCountField` | background.js:60 | the count is the body's `n_tx` when truthy and 0 otherwise, whatever `balance` holds |
| `Provider.EthereumNumericFields` | background.js:59-61 | balance × 10^18 equals the wei reported, and the count is taken as it is |
| `Provider.Normalize` | background.js:51-62 | the provider's reading fails exactly on a null body, with the null-read message for `address` (bitcoin) or `balance` (ethereum) |
| `Provider.Attempt` | background.js:24-72 | an unsupported type throws "Unsupported address type."; the abort error arises exactly on a supported type whose request was aborted; another rejection throws its own message; a non-ok status throws the status message; a null body throws the null-read error; any other body succeeds with that provider's reading under the requested type |
| `Provider.FetchAddressData` | background.js:24-80 | unsupported type gives "Network or API error: Unsupported address type.."; the timeout message arises exactly for an aborted request; a rejection, a non-ok status and a null body give their wrapped messages; any other body succeeds with the provider's reading under the requested type; no error message is empty |
| `Provider.UnsupportedTypeNeverFetches` | background.js:31-37 | for an unsupported type the result does not depend on the network |
| `Provider.BitcoinExample` | background.js:52-56 | `{A: {final_balance: 500000000, n_tx: 3}}` gives 5 BTC and 3 transactions |
| `Provider.EthereumExample` | background.js:57-62 | `{balance: 2500000000000000000, n_tx: 7}` gives 2.5 ETH and 7 transactions |
| `Cache.Cached` | background.js:13-16 | a record is served exactly when the entry exists and is fresh for the requested type, and it carries that type |
| `Cache.Store` | background.js:64-69 | the written address is present with the new entry; the key order grows by at most one; every other remaining key keeps its old entry |
| `Cache.StorePreservesWellFormed` | background.js:64-69 | after any write the keys are distinct, match the stored entries, and number at most 128 |
| `Cache.StoreEvictsOldest` | background.js:64-69 | with 128 or more keys the first-inserted key is deleted (unless it is the address written, which then moves to the back), the rest keep their order, and the address holds the new entry |
| `Cache.StoreFrame` | background.js:64-69 | every key other than the evicted one and the written address keeps its presence and its entry |
| `Cache.StoreExistingKeepsPosition` | background.js:64-69 | rewriting a present address keeps its place and stores the new entry; when full the oldest still goes, so the size drops by one |
| `Cache.StoreNewAddressWhenFull` | background.js:64-69 | the 129th distinct address replaces the first key and the size stays 128 |
| `Cache.StoreNewAddressNotFull` | background.js:64-69 | below 128 keys nothing is evicted: a new address is appended, the size grows by one and every entry stays |
| `Cache.GetAddressDataStep` | background.js:12-81 | a failed lookup leaves the cache as it was; a successful one carries the requested type |
| `Cache.CacheHitOrFetch` | background.js:13-17 | a fresh entry of the requested type is returned and the cache is unchanged, whatever the network does; otherwise the result is the network lookup's, and the cache gains that reading stamped `writtenAt` on success and is unchanged on failure |
| `Cache.StaleOrMismatchedNeverServed` | background.js:14 | an entry aged 300000 ms or more, or stored under another type, is never served |
| `Cache.OnlySuccessWrites` | background.js:44-80 | a failed lookup leaves the cache unchanged; any change is a success that stored its reading stamped `writtenAt` |
| `Cache.GetAddressDataKeepsSupportedTypes` | background.js:31-69 | only bitcoin and ethereum readings are ever stored |
| `Cache.UnsupportedTypeLeavesCache` | background.js:31-37 | an unsupported type fails with "Network or API error: Unsupported address type.." and leaves the cache unchanged |
| `Cache.RepeatWithinTtlHits` | background.js:13-16 | after a fetched success, the same lookup within five minutes of the write returns the same record from the cache and changes nothing |
| `Cache.TypeMismatchRefetches` | background.js:14 | after storing under one type, a lookup of the same address under another type goes to the network |
| `Cache.BalanceCache.constructor` | background.js:8 | the cache starts empty and valid |
| `Cache.BalanceCache.Lookup` | background.js:13-16 | returns a record exactly when an entry exists, is younger than 300000 ms and has the requested type; the record is that entry's balance and count under the requested type |
| `Cache.BalanceCache.Put` | background.js:64-69 | the new state is `Store` of the old one, and validity (bound included) is kept |
| `Cache.BalanceCache.GetAddressData` | background.js:12-81 | the result and the new state are those of `GetAddressDataStep` on the old state, and validity is kept |
| `Gateway.IsBalanceRequest` | background.js:155 | the guard passes only `GET_BALANCE` with a non-empty address and a non-empty address type |
| `Gateway.ToResponse` | background.js:159-166 | a success response exactly for a resolved lookup, with its balance, count and type; otherwise an error response with the message and the requested type; the address is always echoed |
| `Gateway.HandleMessage` | background.js:152-172 | a response is sent exactly for `GET_BALANCE` with a non-empty address and type; otherwise the cache is untouched; the response and the new cache are those of the lookup |
| `Gateway.ResponseReportsRequest` | background.js:160-165 | a success names the requested type; a failure says "timed out" exactly for an aborted request on a cache miss of a supported type |
| `Session.Next` | background.js:95-106 | the start becomes now and the reported session is the stored one; a live session keeps its id and number; an expired one gets the previous number plus one |
| `Session.NextStartsOrRefreshes` | background.js:98-106 | the start becomes now; the session number changes exactly when the session is missing or timed out, and then the id is the clock's text and the number one more; otherwise id and number stay |
| `Session.SessionSurvivesRegularUse` | background.js:96-105 | calls at most thirty minutes apart (clock not 0) keep the same session id and number |
| `AddressShape.IsBitcoinAddress` | content.js:21-28 | an accepted string is 26 to 90 characters long and starts with '1', '3', 'b' or 'B'; below 42 characters it starts with '1' or '3' |
| `AddressShape.MatchesRunIff` | content.js:23-25 | `[class]{lo,hi}$` matches exactly when the length is within bounds and every character is in the class |
| `AddressShape.LegacyShape` | content.js:23-24 | P2PKH is '1' then 25–34 Base58 characters, 26–35 in all; P2SH is the same with '3' |
| `AddressShape.Bech32Shape` | content.js:22-25 | the lower-cased string is 42–90 characters, starts "bc1", and the rest lowers into `[0-9a-z]` |
| `AddressShape.IsBitcoinAddressIff` | content.js:21-28 | the result is true exactly for a legacy shape on the string as given or a bech32 shape on its lower-case copy |
| `AddressShape.ToLower` | content.js:22 | lower-casing keeps the length and maps each character |
| `AddressShape.Bech32CaseInsensitive` | content.js:22-27 | the bech32 verdict is the same for a string and its lower-case copy |
| `AddressShape.ForbiddenCharRejectsLegacy` | content.js:23-24 | a string containing 0, O, I or l is neither P2PKH nor P2SH |
| `AddressShape.ForeignCharRejects` | content.js:23-27 | a character outside Base58 whose lower case is outside `[0-9a-z]` (such as whitespace) rejects the string; the empty string is rejected |
| `AddressShape.Bech32CharsAreLowerAlnum` | content.js:25 | every character of a bech32-shaped string is a digit or a lower-case letter |
| `AddressShape.Bech32AcceptedInUpperCase` | content.js:22-27 | the upper-case copy of a bech32-shaped address is accepted |
| `AddressShape.LegacyRejectedInUpperCase` | content.js:23-24 | the upper-case copy of a legacy address containing 'i' fails both legacy forms |
| `AddressShape.KelvinSignPassesAsK` | content.js:22-27 | a KELVIN SIGN in place of a 'k' after "bc1" still passes, because it lower-cases to 'k' |
| `Popup.Classify` | content.js:134-146 | the balance view exactly for an object whose `status` is 'success', with its address, balance and `n_tx`; otherwise the response's `message` when truthy, else the fallback text, beside the response's address, or the selected text when there is no response |
| `Popup.Encode` | background.js:162-165 | the answer is an object that reads as a success exactly for a success response, and carries the address, the type, and the message or the balance and count |
| `Popup.GatewayAnswersReadBack` | content.js:134-146 | each response the background builds is read back with its own address, balance and count, or its own message |
| `Popup.RequestAsWritten` | content.js:131 | the popup's message is `GET_BALANCE` with the selected text as its address and no address type |
| `Popup.RequestAsWrittenIsIgnored` | content.js:131 | the handler's guard rejects that message, since it has no address type |
| `Popup.BalanceRequest` | content.js:131 | the corrected message also carries the address type 'bitcoin' |
| `Popup.BalanceRequestIsAnswered` | content.js:131 | every non-empty selection then passes the guard with a supported type |
| `Popup.PopupShowsLookupResult` | content.js:134-146 | with the corrected request, the popup shows the balance view exactly when the lookup succeeds, and otherwise the lookup's own message |

## Left out

- The network: `fetch`, `AbortController`, the ten-second `setTimeout`, and the timer that is never cleared when the type is unsupported. The model receives the request's outcome as a parameter. This parameter is ignored when no request is made.
- `Date.now()`: it is read twice, as the parameters `readAt` and `writtenAt`.
- Floating point: balances are exact `real` quotients. Double rounding, `toFixed(8)` and the loss of precision when parsing large wei amounts are not modelled.
- `JsValue.ToNumber`: a numeric string such as "5" and a one-element array coerce to a number in JavaScript. The model coerces every string, array and object to NaN. The providers send numbers.
- `JsValue.ToNumber`: an object with its own `toString` key cannot be converted to a primitive. In JavaScript the division at background.js:56 or 61 then throws a TypeError, "Cannot convert object to primitive value", so the lookup fails with that wrapped message. The model gives NaN and a success.
- `Cache.OnlySuccessWrites`: does not hold in JavaScript for an `n_tx` that is an object with its own `toString` key. The log line at background.js:70 then throws after the write at line 69, so the lookup fails but the cache keeps the new entry. The model does not convert values to text for logging, so it reports a success there.
- `JsValue.Member`: index properties and `length` of a JSON string or array, and inherited properties such as `toString`, are not modelled. A numeric address on an array body reads an element in JavaScript, and that element can give a non-zero reading. Every other such read still leads to the zero default; a string body does too, because a one-character string has no `final_balance` or `n_tx`.
- `AddressShape.ToLower`: only ASCII A–Z and U+212A KELVIN SIGN are lowered. According to the Unicode case tables, no other character lowers to text made only of `[0-9a-z]`. So the bech32 verdict does not change. This includes U+0130, which becomes two characters.
- `Popup.Classify`: the balance view keeps the response's fields as values. Their HTML rendering is not modelled. Neither is the TypeError that `toFixed` throws on a non-number balance, nor the catch block at content.js:155-174 for a rejected `sendMessage`.
- Message fields: request fields are modelled as strings or missing. Other JSON values in `request.address` or `request.addressType` are not modelled. `Popup.NumberToJson` assumes that message passing turns NaN into null.
- Concurrency: overlapping `onMessage` handlers are not modelled. Each lookup is one sequential step.
- Analytics: `getOrCreateClientId`, `sendGA4Event`, the `onInstalled` listener, the `ANALYTICS_EVENT` branch and `chrome.storage`. Only the session decision is modelled, over an abstract stored record.
- Everything in content.js that works on the DOM: `cleanupUI`, the mouse and key listeners, button and popup creation, and popup positioning and clamping.
- Logging through `console`.
- Checksums: the Base58Check and BIP 173 bech32 checksums are not part of the shape test.

## Findings

| source | as written | input that shows it | evidently intended | confidence | as-written member | corrected member |
|---|---|---|---|---|---|---|
| content.js:131 | the popup sends `{type: 'GET_BALANCE', address: text}` without `addressType`, while background.js:155 answers only when `request.addressType` is truthy, so no balance is ever looked up | selecting `1A1zP1eP5QGefi2DMPTfTL5SLmv7DivfNa` and pressing Scan | send `addressType: 'bitcoin'`, the only type the content script detects and the one it labels BTC | high; not executed | `Popup.RequestAsWrittenIsIgnored` | `Popup.BalanceRequestIsAnswered` |

# Ramp transaction coordinator: a Dafny model

This project models the client-side coordinator of the Coinbase onramp/offramp demo. The coordinator holds the user's selections for a buy or sell of crypto. It fills in defaults when the option sets arrive, decides when checkout may start, and builds the one-click checkout link. It also stores a success summary that survives the redirect back. Three files make up the core:

- **Provider state** (`CoinbaseRampTransactionContext`, file `ramp_context.dfy`). The class `Provider` has one field per piece of provider state, and its methods change those fields. It has the two merging setters, the payment default, and the effects that pick defaults for offramp, for onramp payment, and for country and purchase. The pure pickers are functions in the same module: find-with-fallback, the limit lookup and the mode predicates.
- **Summary component** (`RampTransactionSummary`, file `ramp_summary.dfy`). It has the amount check, the confirm condition, the quote-id choice and the checkout link. The class `Summary` holds the success state. Its methods are the recovery effect, the secure-token effect and the confirm flow.
- **Ramp page** (`CryptoRamp`, file `crypto_ramp.dfy`). It has the step rule and partner-id resolution against storage. It also has the guarded fetch routines with their loading flags, and the tab that sets the mode.

Supporting modules:

- `Wrappers` holds `Option` and JavaScript truthiness for strings.
- `Search` holds `Array.prototype.find`, find-with-fallback and ASCII `toUpperCase`.
- `Decimal` holds `Number(...)` on decimal literals as exact decimals, `<` on numbers, and `toFixed(2)` with round-half-up.
- `UriEncoding` holds `encodeURI` and `encodeURIComponent` as in ECMA-262 section 19.2.6.1, with UTF-8 and upper-case hex. Their partner is a percent-decoder.
- `QueryString` reads parameters back out of a URL. It is the partner of the link layout.
- `RampTypes` holds the SDK records, `RampTransaction` and the `{...t, ...u}` merge.
- `Storage` models `localStorage` as a `map<string, string>`, plus the success-summary entry.

React effects are methods called explicitly. An effect reads `rampTransaction` as it was when the effect started, which is the render's value. Its writes apply in order, and the last write to a field wins. Randomness is passed in as arguments, and so are the outcomes of network requests. Navigation is returned as a value.

Where the documented intent and the code differ, the model follows the code:

- `mode` takes any tab key, so after "fund-card" or "fund-button" neither ramp mode is active.
- Setters do not clear a subdivision that no longer fits, and nothing is clamped to the loaded options.
- The secure token is never cleared, and no stale response is discarded.
- Without a partner-id prop, the final partner id is a fresh id on every run. This holds even when a stored id exists.
- `isAmountTooLow` is also true for an empty amount. It is false when the limit is missing, because a comparison with NaN is false.
- The link takes the sell quote's id whenever the buy quote has none, even in onramp mode.
- Link values pass only through `encodeURI`, which does not escape `&` or `=`. A payment method holding `&quoteId=` therefore injects a parameter.
- `encodeURI` does not escape `#` either. A value holding `#` starts the link's fragment, so the checkout page loses the rest of that value and every later parameter, the quote id included (`QueryString.HashTruncates`).
- When the country default and the payment default fire in the same run, the payment default's write of `rampTransaction` wins. The country recorded by the country default is then lost.

## Model

| member | source | states |
|---|---|---|
| Search.Find | app/contexts/CoinbaseRampTransactionContext.tsx:251 | `find` returns the first element that satisfies the predicate, or nothing when none does |
| Search.PreferredOrFirst | app/contexts/CoinbaseRampTransactionContext.tsx:273-279 | find-with-fallback: the first preferred element when there is one, else the first element, else nothing; the result is always a member |
| Search.UpperIsUsdc | app/contexts/CoinbaseRampTransactionContext.tsx:274 | under ASCII upper-casing, `s.toUpperCase() === 'USDC'` holds exactly for the four letters u, s, d, c in either case |
| Search.UpperIsUsd | app/contexts/CoinbaseRampTransactionContext.tsx:221 | under ASCII upper-casing, `s.toUpperCase() === 'USD'` holds exactly for the three letters u, s, d in either case |
| Decimal.NatToStringParses | app/components/RampTransactionSummary.tsx:151 | the decimal rendering of a natural number reads back through `Number` as that number |
| Decimal.LessMeansValueLess | app/components/RampTransactionSummary.tsx:72 | `<` on numbers compares exact rational values, and any comparison with NaN is false both ways |
| Decimal.RoundHundredths | app/components/RampTransactionSummary.tsx:151 | rounding to hundredths is half-up on the magnitude: the bounds that pin the rounded count |
| Decimal.FixedDigitsParse | app/components/RampTransactionSummary.tsx:151 | the integer part, a point and two digits of n hundredths read back through `Number` as exactly n hundredths |
| Decimal.ToFixed2RoundTrip | app/components/RampTransactionSummary.tsx:151 | the `toFixed(2)` text reads back as the rounded hundredths, with the input's sign and exactly two fraction digits |
| Decimal.ToFixed2Exact | app/components/RampTransactionSummary.tsx:151 | for at most two fraction digits, `toFixed(2)` loses nothing |
| Decimal.ParseExample | app/components/RampTransactionSummary.tsx:72 | `Number("12.5")` is exactly 12.5 |
| Decimal.ToFixed2Example | app/components/RampTransactionSummary.tsx:151 | 12.5 renders as "12.50" |
| UriEncoding.DecodeEncode | app/components/RampTransactionSummary.tsx:135-137 | percent-decoding the output of either encoder gives the UTF-8 bytes of its input |
| UriEncoding.EncodeContains | app/components/RampTransactionSummary.tsx:135-137 | a character other than `%` and the upper-case hex digits appears in the encoding exactly when it appears in the input and the encoder copies it |
| UriEncoding.ComponentHasNoDelimiters | app/components/RampTransactionSummary.tsx:137 | `encodeURIComponent` output never holds `&`, `=`, `#` or `?` |
| UriEncoding.UriKeepsDelimiters | app/components/RampTransactionSummary.tsx:135 | `encodeURI` output holds `&`, `=`, `?`, `/` or `#` exactly when its input does |
| UriEncoding.DoubleEncoding | app/components/RampTransactionSummary.tsx:135-137 | `encodeURI` over `encodeURIComponent` output turns each `%` into `%25` and changes nothing else |
| QueryString.QueryOfUrl | app/components/RampTransactionSummary.tsx:135-154 | a URL made of a base without `?` or `#`, then `?`, then parameters joined by `&` whose keys hold no `&`, `=` or `#` and whose values hold no `&` or `#` reads back as exactly those parameters, in order |
| QueryString.HashTruncates | app/components/RampTransactionSummary.tsx:135-154 | a value holding `#` ends the query: the page reads the parameters before it and that value's text up to the `#`, and nothing after |
| QueryString.SplitValue | app/components/RampTransactionSummary.tsx:144-149 | a value holding `&k=v` joins to the same text as the value before the `&` followed by its own parameter `k=v` |
| RampTypes.Merge | app/contexts/CoinbaseRampTransactionContext.tsx:163 | each key the update names takes the update's value (even undefined); every other key is kept |
| RampTypes.MergeLaws | app/contexts/CoinbaseRampTransactionContext.tsx:160-164 | two merges equal one merge of the combined update; the empty update and a repeated update change nothing more |
| Storage.LocalStorage.GetItem | app/components/CryptoRamp.tsx:48 | reading a key yields its stored string exactly when it is stored, else null |
| Storage.LocalStorage.SetTxSuccessSummary | app/components/RampTransactionSummary.tsx:169-173 | writing the summary replaces only its entry, and reading it afterwards yields that summary |
| Storage.SummaryRoundTrip | app/components/RampTransactionSummary.tsx:58-59 | a stored success summary decodes to exactly the summary written |
| Storage.StoredSummaryReadsBack | app/components/RampTransactionSummary.tsx:58-59 | after the summary is written, the summary read from storage is that one, whatever was stored before |
| Storage.PartnerIdKeepsSummary | app/components/CryptoRamp.tsx:54 | writing the partner id leaves the stored success summary unchanged |
| CoinbaseRampTransactionContext.ModesExclusive | app/contexts/CoinbaseRampTransactionContext.tsx:157-158 | onramp and offramp are never active together, and any other mode string activates neither |
| CoinbaseRampTransactionContext.Countries | app/contexts/CoinbaseRampTransactionContext.tsx:139-150 | the configuration's countries in order, each keeping its id, subdivisions and payment methods; empty before the configuration arrives |
| CoinbaseRampTransactionContext.DefaultPurchaseNetwork | app/contexts/CoinbaseRampTransactionContext.tsx:284-294 | the first chain-8453 network, else the first network, else undefined exactly when there are none; always a member of the currency's networks |
| CoinbaseRampTransactionContext.SelectedPaymentMethodLimit | app/contexts/CoinbaseRampTransactionContext.tsx:311-315 | the first limit whose id is the selected method's id; undefined exactly when either selection is missing or no limit has that id |
| CoinbaseRampTransactionContext.Provider.constructor | app/contexts/CoinbaseRampTransactionContext.tsx:102-156 | initial state: onramp mode, amount "0", nothing selected, loaded or signed in |
| CoinbaseRampTransactionContext.Provider.SetRampTransaction | app/contexts/CoinbaseRampTransactionContext.tsx:160-164 | the transaction becomes its merge with the update; no other field changes |
| CoinbaseRampTransactionContext.Provider.SetSelectedCountry | app/contexts/CoinbaseRampTransactionContext.tsx:166-172 | the country is selected and recorded in the transaction; the subdivision and the other transaction fields are kept |
| CoinbaseRampTransactionContext.Provider.SetMode | app/components/CryptoRamp.tsx:135 | the mode becomes the given value |
| CoinbaseRampTransactionContext.Provider.SetDefaultPaymentCurrencyInOnrampMode | app/contexts/CoinbaseRampTransactionContext.tsx:219-237 | selects the USD-else-first fiat currency and its first limit, writes both ids into the caller's transaction, and leaves the selection consistent; nothing changes without a candidate |
| CoinbaseRampTransactionContext.Provider.OnrampPaymentEffect | app/contexts/CoinbaseRampTransactionContext.tsx:239-243 | in onramp mode re-applies the payment default on every run, overwriting a prior choice, and demands a first limit of the default currency only then; in any other mode nothing changes |
| CoinbaseRampTransactionContext.Provider.OfframpDefaultsEffect | app/contexts/CoinbaseRampTransactionContext.tsx:174-217 | guarded sell default (USDC else first; chain-8453 network into the sell slot, else the sell currency into the purchase-network slot), then the unguarded USD-else-first cash-out default, whose first limit is demanded only in offramp mode; outside offramp mode nothing changes |
| CoinbaseRampTransactionContext.Provider.SelectDefaultSellCurrency | app/contexts/CoinbaseRampTransactionContext.tsx:176-197 | with no sell currency and loaded sell options: USDC-else-first is selected; its first chain-8453 network fills the sell-network slot, and without one the currency itself fills the purchase-network slot; otherwise nothing changes |
| CoinbaseRampTransactionContext.Provider.SetDefaultCashoutCurrency | app/contexts/CoinbaseRampTransactionContext.tsx:199-215 | selects the USD-else-first cash-out currency and its first limit, writes both ids into the effect's transaction, and leaves the selection consistent; nothing changes without a candidate |
| CoinbaseRampTransactionContext.Provider.SelectDefaultCountry | app/contexts/CoinbaseRampTransactionContext.tsx:249-269 | with no country and a non-empty list: US with subdivision CA if listed, and recorded in the transaction; else the first country and its first subdivision, with the transaction untouched |
| CoinbaseRampTransactionContext.Provider.SelectDefaultPurchaseCurrency | app/contexts/CoinbaseRampTransactionContext.tsx:272-300 | with no purchase currency and loaded buy options: USDC-else-first and its default network, then the payment default on the effect's transaction when that names no currency; a first limit is demanded only when that payment default runs |
| CoinbaseRampTransactionContext.Provider.SelectionDefaultsEffect | app/contexts/CoinbaseRampTransactionContext.tsx:245-309 | the whole new state: with no country, US (with subdivision CA when listed) else the first country and its first subdivision; with no purchase currency and loaded options, USDC-else-first and its default network; the transaction gets the payment default when it fires, else US as its country when that default fires, so a payment default in the same run drops the recorded country |
| RampTransactionSummary.ReadyToConfirm | app/components/RampTransactionSummary.tsx:112-114 | ready exactly when a token is held; the test is against null only, so an empty token counts |
| RampTransactionSummary.IsAmountTooLow | app/components/RampTransactionSummary.tsx:69-81 | true without a truthy amount or a payment method; otherwise exactly when the amount's value is below the minimum's, and false when either side is NaN |
| RampTransactionSummary.AmountBelowMinimum | app/components/RampTransactionSummary.tsx:69-81 | against a minimum of 10, 5 is too low and 15 is not; "0" is compared like any other amount, not skipped |
| RampTransactionSummary.AmountEdgeCases | app/components/RampTransactionSummary.tsx:69-81 | a missing limit never counts as too low; an empty amount always does; "0" meets a minimum of "0" |
| RampTransactionSummary.QuoteId | app/components/RampTransactionSummary.tsx:131-134 | the buy quote's id in onramp mode when present, otherwise the sell quote's id (in any mode), otherwise empty |
| RampTransactionSummary.RawLink | app/components/RampTransactionSummary.tsx:136-153 | before encoding, the link is the checkout page, `?`, and the parameters in fixed order, each optional one only when its guard holds, joined by `&` |
| RampTransactionSummary.TransactionLink | app/components/RampTransactionSummary.tsx:130-154 | after encoding, the link has the same layout with every value passed through `encodeURI` and the keys and layout unchanged |
| RampTransactionSummary.LinkPrefix | app/components/RampTransactionSummary.tsx:136 | the link starts with `https://pay.coinbase.com/buy/one-click?sessionToken=` exactly in onramp mode; every other mode gets `sell` |
| RampTransactionSummary.LinkQuery | app/components/RampTransactionSummary.tsx:135-154 | when no value holds `&` or `#`, the checkout page reads exactly the link's parameters, values encoded |
| RampTransactionSummary.LinkQueryEnds | app/components/RampTransactionSummary.tsx:136-153 | when no value holds `&` or `#`: the session token comes first (the text "null" without a token), the doubly encoded return address second, the quote id last |
| RampTransactionSummary.QuoteIdInjection | app/components/RampTransactionSummary.tsx:144-146 | a payment method `a&quoteId=q` (with no other `&` or `#` in the values) makes the checkout page read an extra `quoteId` of `q` before the link's own quote id |
| RampTransactionSummary.PresetAmountExact | app/components/RampTransactionSummary.tsx:150-152 | an amount with at most two decimals reaches `presetFiatAmount` exactly, with two fraction digits |
| RampTransactionSummary.Summary.constructor | app/components/RampTransactionSummary.tsx:49-51 | the success flag starts false and the success summary starts empty |
| RampTransactionSummary.Summary.AmountTooLow | app/components/RampTransactionSummary.tsx:69-81 | over the provider's state: too low without a truthy amount or payment method; otherwise exactly when the amount's value is below the selected limit's minimum, and never when either is NaN |
| RampTransactionSummary.Summary.ConfirmEnabled | app/components/RampTransactionSummary.tsx:463-468 | enabled exactly when signed in, holding a token, outside offramp mode, with a truthy amount and a selected payment method, and the amount not below the selected limit's minimum |
| RampTransactionSummary.Summary.RecoverSuccessEffect | app/components/RampTransactionSummary.tsx:55-67 | with a truthy `success` parameter and a readable stored summary, success is set with that summary; otherwise nothing changes |
| RampTransactionSummary.Summary.SecureTokenEffect | app/components/RampTransactionSummary.tsx:83-110 | a request is made exactly when the wallet, network name and symbol are truthy, for `[network name]` with a truthy partner id or none; only a successful one replaces the token |
| RampTransactionSummary.Summary.LaunchConfirmTransactionFlow | app/components/RampTransactionSummary.tsx:165-183 | stores the summary exactly when amount, wallet and symbol are truthy, leaves storage alone otherwise, and always navigates to the link |
| RampTransactionSummary.Summary.ConfirmThenReturn | app/components/RampTransactionSummary.tsx:55-67 | confirming and returning with `success=true` shows the stored address, `Number(amount)` and symbol |
| CryptoRamp.NextStep | app/components/CryptoRamp.tsx:120-126 | signed in moves a step below 2 to 2, signed out moves a step above 1 to 1, otherwise the step stays; from steps 1 and 2 the result is 2 exactly when signed in |
| CryptoRamp.NextStepSettles | app/components/CryptoRamp.tsx:120-126 | a second application of the step rule changes nothing |
| CryptoRamp.OptionsRequestFor | app/components/CryptoRamp.tsx:80-83 | a request exists exactly when a country is selected, for its id and the truthy subdivision or "" |
| CryptoRamp.Page.constructor | app/components/CryptoRamp.tsx:22 | the page starts at step 1 |
| CryptoRamp.Page.StepEffect | app/components/CryptoRamp.tsx:120-126 | the step becomes the step rule applied to the sign-in state |
| CryptoRamp.Page.PartnerIdEffect | app/components/CryptoRamp.tsx:43-59 | a truthy prop becomes the id and storage is untouched; otherwise the key is written only when its value is missing or empty, and the id ends as the second fresh id; the success summary is never disturbed |
| CryptoRamp.Page.GetBuyConfig | app/components/CryptoRamp.tsx:62-75 | fetched exactly when there is no configuration; stored only on success; the loading flag ends false after an attempt |
| CryptoRamp.Page.GetBuyOptions | app/components/CryptoRamp.tsx:77-93 | requested exactly when a country is selected and no buy options are loaded; stored only on success; the loading flag always ends false |
| CryptoRamp.Page.GetSellOptions | app/components/CryptoRamp.tsx:95-111 | requested exactly when the options were not already loading, a country is selected and no sell options are loaded; stored only on success; the loading flag always ends false |
| CryptoRamp.Page.MountFetchEffect | app/components/CryptoRamp.tsx:61-117 | the three routines in order, each with its own guard; each fetched value is stored exactly when its request was made and succeeded; both options loading flags end false, and the configuration's only after a request; without a selected country neither options request is made |
| CryptoRamp.Page.SelectTab | app/components/CryptoRamp.tsx:133-136 | the tab key becomes the mode; onramp or offramp is active exactly for its own key, and neither is active for "fund-card" or "fund-button" |

## Left out

- JSX rendering, the NextUI and heroicons components, loading skeletons, and the fund-card, fund-button and custom-integration demos. These are UI composition.
- Exchange price, total cost, amount received and the fee display. They are floating-point division plus formatting.
- `formatCurrency`, `getCurrencySymbol` and `isocountries.getName`. Their code is not part of this model. The `countries` list drops the display name it adds.
- The SDK and network calls: `fetchOnrampConfig`, `fetchOnrampOptions`, `generateSellOptions`, `generateSecureToken` and the quote fetches. Only their guards and request arguments are modelled, and their outcomes are parameters.
- React scheduling, dependency arrays, and the interleaving of the async fetch routines. The mount routines run in order to completion. The model has no latest-request-wins discarding, because the code has none.
- `crypto.randomUUID`: the fresh ids are parameters. `window.location.href` assignment is the returned link. The `success` query parameter is a parameter.
- Decimal.ParseNumber: does not model `Number` on exponents, surrounding whitespace, hex, octal and binary literals (`0x`, `0o`, `0b`) or "Infinity". Those read as NaN here.
- Decimal.ToFixed2: does not model the exponential form JavaScript uses for magnitudes of 1e21 and above. It also does not model binary floating-point rounding of halfway cases; rounding is exact half-up.
- Search.AsciiUpper: does not model Unicode case mapping beyond ASCII letters.
- Storage.EncodeSummary: the exact JSON text and key name of the success-summary entry are not modelled, because the storage helper code is not part of this model. The entry uses a length-prefixed stand-in encoding with a stand-in key that differs from the partner-id key. `Number(amount)` is stored as an exact decimal, and NaN survives the round trip here, whereas JSON would store it as null.
- QueryString.QueryParams: decoding of parameter values is not modelled. Values are compared in their encoded form.
- CoinbaseRampTransactionContext.Provider.SetDefaultPaymentCurrencyInOnrampMode: when the default fiat currency has no limits, `limits[0].id` throws a TypeError. The model does not model the throw; it makes a first limit a precondition, demanded only on the paths that reach that read.
- CoinbaseRampTransactionContext.Provider.SetDefaultCashoutCurrency: the same TypeError for a default cash-out currency without limits is a precondition, as above.
- UriEncoding.Encode: `encodeURI` throws a URIError on a lone surrogate. A Dafny `char` is a Unicode scalar value and cannot hold one, so that error path is not modelled.
- `==` between chain ids is modelled as string equality. The SDK types make both sides strings.
- Only the five `RampTransaction` fields the core reads or writes are modelled.

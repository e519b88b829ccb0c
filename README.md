# Jupiter swap simulation, modelled in Dafny

This project models the decision logic of `jupitor-swaps/src/index.js`. That
script converts a human-entered token amount into atomic units and asks the
Jupiter aggregator for a quote. It then picks the top route, asks for a swap
transaction and sorts the reply. When the reply holds a serialized
transaction, the script signs it if a private key is configured and simulates
it on a Solana RPC node, with a single raw JSON-RPC fallback.

Every network request and every foreign library call is an outcome supplied
as input: `Oracle` in `SwapPipeline` and `KeyOracle` in `KeyMaterial`. Given
those outcomes the run is deterministic. The run method returns how the run
ended (a `Report`) and the calls it made, in order (a trace).

Modules, one per part of the script:

- `Numerals`: decimal digit strings, their value, `BigInt(s)` parsing and
  integer rendering.
- `AmountConverter`: `uiAmountToAmount`, built on string operations only.
- `QuoteClient`: the query `getQuote` builds. It is grown by successive
  `append` calls on a `SearchParams` object.
- `RouteSelector`: `extractTopRoute`.
- `TransactionBuilder`: how the build response is sorted.
- `KeyMaterial`: `optionalKeypairFromEnv` and the identity choice.
- `SimulationLogs`: the optional-chaining `??` chains that find the logs.
- `SwapPipeline`: `main`, that is the configuration checks, the requests,
  the signing stage (a `VersionedTransaction` class whose `Sign` mutates it in
  place) and the two-tier simulation.

Two details of the code are worth stating plainly:

- Line 66 does not strip leading zeros. The regular expression replaces a
  run of leading zeros by one "0", and backs off by one before a non-digit or
  the end ("0007" becomes "07", "000" becomes "00").
  `NormalizeLeadingZeros` does what the regular expression does, and
  `NormalizePreservesValue` shows that the value `BigInt` reads is the same.
- The fallback payload at lines 123-128 always sends `sigVerify: false`,
  for the signed fallback as well; the comment at line 247 says as much.

## Model

| member | source | states |
|---|---|---|
| Numerals.ParseIntegerLiteral | jupitor-swaps/src/index.js:67 | `BigInt(s)` succeeds exactly on "" or an optionally signed digit string; a digit string reads as its decimal value, and a leading `-` or `+` negates or keeps the value of the digits after it |
| Numerals.NatToStringDigits | jupitor-swaps/src/index.js:74 | the rendering of a natural number is a non-empty digit string worth that number, with no leading zero unless it is "0" |
| Numerals.IntToStringRoundTrip | jupitor-swaps/src/index.js:74-75 | parsing the rendering of any integer gives back that integer |
| Numerals.IntToString | jupitor-swaps/src/index.js:74-75 | definition of `toString` and `String(n)` on an integer: a minus sign for a negative number, then the digits; its meaning is proved by `NatToStringDigits` and `IntToStringRoundTrip` |
| AmountConverter.Split | jupitor-swaps/src/index.js:61 | `split(".")` always yields at least one piece |
| AmountConverter.SplitJoin | jupitor-swaps/src/index.js:61 | joining the pieces of a split with the separator gives back the input, and no piece contains the separator |
| AmountConverter.WholePart | jupitor-swaps/src/index.js:62 | definition of `parts[0] \|\| "0"`; `AmountOfFraction` proves that an empty whole part counts as 0 |
| AmountConverter.FracPart | jupitor-swaps/src/index.js:63 | definition of `parts[1] \|\| ""`; `AmountOfWhole` proves that a missing fraction counts as nothing |
| AmountConverter.FitFraction | jupitor-swaps/src/index.js:64 | the fraction is padded with zeros or cut to exactly `decimals` characters |
| AmountConverter.Combined | jupitor-swaps/src/index.js:65 | definition of `whole + fracPadded`; `CombinedLiteral` proves that for digit input it is a literal worth the reference amount |
| AmountConverter.NormalizeLeadingZeros | jupitor-swaps/src/index.js:66 | definition of the regular-expression rewrite, case by case; `NormalizePreservesValue` proves it harmless |
| AmountConverter.NormalizePreservesValue | jupitor-swaps/src/index.js:66 | the leading-zero rewrite never changes what `BigInt` reads, nor whether it throws |
| AmountConverter.UiAmountToAmount | jupitor-swaps/src/index.js:59-68 | a negative decimals count throws the repeat RangeError; otherwise the conversion succeeds exactly when the combined string is an integer literal |
| AmountConverter.AmountMatchesReference | jupitor-swaps/src/index.js:59-68 | for digit-only whole and fraction parts, the result is exactly whole·10^d plus the fraction padded or cut to d digits |
| AmountConverter.ReferenceArithmetic | jupitor-swaps/src/index.js:64-67 | that reference amount is whole·10^d + frac·10^(d−len) for a short fraction and whole·10^d + ⌊frac / 10^(len−d)⌋ for a long one: exact, and truncated rather than rounded |
| AmountConverter.FitFractionValue | jupitor-swaps/src/index.js:64 | the padded or cut fraction is a digit string worth the fraction's contribution |
| AmountConverter.AmountOfDecimal | jupitor-swaps/src/index.js:61-67 | `w.f` converts to the reference amount of `w` and `f` |
| AmountConverter.AmountOfWhole | jupitor-swaps/src/index.js:63-65 | without a point, a missing fraction counts as "" and the result is whole·10^d |
| AmountConverter.AmountOfFraction | jupitor-swaps/src/index.js:62 | an empty whole part counts as "0", so `.f` converts to the fraction's contribution alone |
| AmountConverter.AmountIgnoresSecondPoint | jupitor-swaps/src/index.js:61-63 | text after a second point never changes the outcome |
| AmountConverter.ExampleExact | jupitor-swaps/src/index.js:59-68 | ("1.5", 9) gives 1500000000 |
| AmountConverter.ExampleTruncated | jupitor-swaps/src/index.js:59-68 | ("1.23456789123", 6) gives 1234567 |
| QuoteClient.SearchParams.constructor | jupitor-swaps/src/index.js:71 | a fresh URL has an empty query |
| QuoteClient.SearchParams.Append | jupitor-swaps/src/index.js:72 | `append` adds one pair at the end and changes nothing else |
| QuoteClient.EffectiveSlippage | jupitor-swaps/src/index.js:75 | `slippageBps \|\| 50`: a given non-zero value is kept, an absent, NaN or zero value becomes 50, and the result is never 0 |
| QuoteClient.AppendIf | jupitor-swaps/src/index.js:76-78 | a guarded `append` adds its pair exactly when the guard holds |
| QuoteClient.BuildQuoteQuery | jupitor-swaps/src/index.js:70-78 | the query built by the appends is the four required pairs followed by the optional ones |
| QuoteClient.QuoteQueryRequired | jupitor-swaps/src/index.js:72-75 | `inputMint`, `outputMint`, `amount`, `slippageBps` come first in that order; `amount` parses back to the atomic amount and `slippageBps` to the effective slippage, never "0" |
| QuoteClient.QuoteQueryOptional | jupitor-swaps/src/index.js:76-78 | each optional parameter is present exactly when its input is truthy; the query length counts them |
| QuoteClient.QuoteQueryOrdered | jupitor-swaps/src/index.js:71-78 | the names of a quote query follow the fixed append order strictly, so no parameter is sent twice |
| QuoteClient.SpellingInjective | jupitor-swaps/src/index.js:72-78 | distinct parameter names have distinct spellings in the URL |
| QuoteClient.QuoteQuerySpelledOnce | jupitor-swaps/src/index.js:71-78 | no name is spelled twice in the URL of a quote query |
| RouteSelector.FirstOfFirstNonEmpty | jupitor-swaps/src/index.js:113-116 | the search finds an entry exactly when some list is non-empty, and then returns the head of the first non-empty one |
| RouteSelector.ExtractTopRoute | jupitor-swaps/src/index.js:111-117 | definition of `extractTopRoute`; `ExtractTopRouteIsFirstNonEmpty` proves it equal to the independent search |
| RouteSelector.ExtractTopRouteIsFirstNonEmpty | jupitor-swaps/src/index.js:111-117 | `extractTopRoute` equals that search over `routes`, `routePlan`, `data.routes`, in that order |
| RouteSelector.NoRouteIff | jupitor-swaps/src/index.js:112-116 | the fall-through `return null` happens exactly when the quote is falsy or none of the three lists is a non-empty array |
| RouteSelector.NoRouteSelectedIff | jupitor-swaps/src/index.js:180-184 | the `if (!top)` test stops the run exactly when the quote is falsy, no list is non-empty, or the head of the first non-empty list is falsy |
| RouteSelector.FalsyHeadGivesNoRoute | jupitor-swaps/src/index.js:113 | `{routes: [null], routePlan: [r]}` selects no route: a falsy head is not passed over for a later list |
| RouteSelector.TopLevelWins | jupitor-swaps/src/index.js:113 | a non-empty top-level `routes` decides the route whatever the other shapes hold |
| RouteSelector.EmptyShapesGiveNoRoute | jupitor-swaps/src/index.js:112-116 | `{}` and a quote whose three lists are empty give no route |
| TransactionBuilder.ClassifyBuild | jupitor-swaps/src/index.js:203-210 | a falsy response, or one with neither field, is incomplete; a truthy `swapTransaction` is used exactly when present; otherwise the instruction list is reported |
| TransactionBuilder.TransactionPreferred | jupitor-swaps/src/index.js:209-210 | when both fields are present the serialized transaction wins |
| KeyMaterial.NoKeyIff | jupitor-swaps/src/index.js:29-30 | there is no key exactly when the trimmed key text is empty |
| KeyMaterial.LoadKeypair | jupitor-swaps/src/index.js:28-54 | definition of `optionalKeypairFromEnv` over the foreign outcomes; the lemmas below classify it in both directions |
| KeyMaterial.LoadedKeyLength | jupitor-swaps/src/index.js:33-49 | a loaded key always came from 64 bytes (secret key) or 32 bytes (seed) of the attempt it is attributed to, and is that attempt's keypair |
| KeyMaterial.JsonBeforeBase58 | jupitor-swaps/src/index.js:33-43 | a JSON array whose keypair builds, or one of a length other than 64 or 32, settles the outcome whatever base58 gives; an array of a wrong length is fatal |
| KeyMaterial.JsonLengthClassifies | jupitor-swaps/src/index.js:35-39 | a JSON array of 64 bytes whose keypair builds is loaded as a secret key, one of 32 bytes as a seed, and any other length is fatal |
| KeyMaterial.JsonFallsThrough | jupitor-swaps/src/index.js:32-46 | key text that is not JSON, JSON that is not an array, or a 64- or 32-byte array whose constructor throws leaves the outcome to base58 alone |
| KeyMaterial.Base58LengthClassifies | jupitor-swaps/src/index.js:46-53 | when base58 decides: 64 bytes whose keypair builds are a secret key, 32 a seed, any other length is fatal, and a decode or constructor that throws is fatal |
| KeyMaterial.Base58WrongLengthFatal | jupitor-swaps/src/index.js:46-50 | base58 bytes of a length other than 64 or 32 are fatal |
| KeyMaterial.ResolveIdentity | jupitor-swaps/src/index.js:140-148 | a keypair's public key is the identity and the run signs; otherwise `PUBLIC_KEY`, unsigned; neither is a failure, and only then |
| SimulationLogs.FirstPresentIsFirst | jupitor-swaps/src/index.js:250 | a `??` chain finds logs exactly when some path has them, and then returns those of the first such path |
| SimulationLogs.FallbackLogs | jupitor-swaps/src/index.js:250 | the fallback chain is the first-present search over `result.value.logs`, `result.logs`, `value.logs` |
| SimulationLogs.FallbackLogsOrder | jupitor-swaps/src/index.js:291 | the fallback finds no logs exactly when all three paths are nullish, and otherwise takes them from the first non-nullish path |
| SimulationLogs.EmptyEarlierLogsWin | jupitor-swaps/src/index.js:291 | an empty list at `result.value.logs` wins over the later paths |
| SimulationLogs.UnsignedPrimaryLogs | jupitor-swaps/src/index.js:276 | the unsigned primary chain is the first-present search over `value.logs`, then `logs` |
| SimulationLogs.SignedPrimaryLogs | jupitor-swaps/src/index.js:238 | the signed primary path reads only `value.logs` |
| SwapPipeline.ExitCode | jupitor-swaps/src/index.js:316-319 | the exit status is 1 exactly for a fatal report |
| SwapPipeline.RpcUrlOf | jupitor-swaps/src/index.js:152 | definition of `RPC_URL \|\| clusterApiUrl("mainnet-beta")`; `Preflight` proves the run uses it |
| SwapPipeline.RestrictIntermediate | jupitor-swaps/src/index.js:162 | definition of `(RESTRICT_INTERMEDIATE \|\| "true") === "true"`; `Preflight` proves the quote parameters carry it |
| SwapPipeline.DecimalsOf | jupitor-swaps/src/index.js:160 | the decimals count handed to the converter, with a NaN count acting as 0; `Preflight` proves the amount is the converter's result for it |
| SwapPipeline.SimulatePayload | jupitor-swaps/src/index.js:122-128 | definition of the fallback payload; `StageSafety` and `NetworkRunSafety` prove that every fallback call skips signature checks at "confirmed" |
| SwapPipeline.OrderedAtMostOnce | jupitor-swaps/src/index.js:209-304 | a trace in pipeline order holds each kind of call at most once |
| SwapPipeline.FallbackReport | jupitor-swaps/src/index.js:245-257 | the fallback fails exactly when its request throws or the reply is `null`; otherwise its logs are the fallback chain's |
| SwapPipeline.VersionedTransaction.Deserialize | jupitor-swaps/src/index.js:219-220 | a deserialized transaction carries its wire bytes and no signatures |
| SwapPipeline.VersionedTransaction.Sign | jupitor-swaps/src/index.js:226-231 | `sign` adds the signer's signature in place when it returns, and changes nothing when it throws |
| SwapPipeline.SimulateSigned | jupitor-swaps/src/index.js:213-258 | the calls and report satisfy `SignedStage`: deserialize, sign, native simulate, serialize and the fallback each happen exactly under the outcomes that reach them (a deserialize or sign failure stops before any simulate call), in order, with the signer's key; what is serialized is the builder's transaction carrying exactly the signer's signature, and the fallback sends the serialized text; the report follows each outcome |
| SwapPipeline.SimulateUnsigned | jupitor-swaps/src/index.js:260-303 | the calls and report satisfy `UnsignedStage`: nothing is signed or serialized; native simulate runs exactly when deserialize succeeds, and the fallback with the builder's transaction exactly when either of them throws; the report follows each outcome |
| SwapPipeline.Simulate | jupitor-swaps/src/index.js:213-304 | the stage is the signed one when the run has a keypair and the unsigned one otherwise |
| SwapPipeline.StageSafety | jupitor-swaps/src/index.js:213-304 | in either stage: signing happens only with a keypair, and a signed native simulate only after signing; a deserialize or sign failure report means no simulate call of either kind; the fallback runs only after native simulate threw or an unsigned deserialize threw, after native simulate in the signed stage, and always skips signature checks at "confirmed" on the run's RPC URL |
| SwapPipeline.Dispatch | jupitor-swaps/src/index.js:203-313 | an incomplete response and an instruction list are reported with no further call; a serialized transaction goes through the simulation stage |
| SwapPipeline.Preflight | jupitor-swaps/src/index.js:140-168 | the run goes on to the quote request exactly when the key loads, some identity exists, the three swap parameters are set and the amount converts; a fatal key ends the run with its error, and `KeyRejected` comes only from a fatal key; neither key is `NoIdentity`, and only then; a missing swap parameter is `MissingSwapParameters`, and only then; an amount rejection is the converter's error; no request failure can arise here; on success the identity is the one `LoadKeypair` and `ResolveIdentity` give, the RPC URL is `RPC_URL` or the default, and the quote parameters carry the converted amount |
| SwapPipeline.RunNetwork | jupitor-swaps/src/index.js:172-313 | the quote request comes first with the configured query; the build request is made exactly when a route was selected, with the quote and identity; a failed quote or build request is fatal with its message, no route gives `NoRouteFound` with the quote, and otherwise the build response is dispatched and the simulation stage's calls follow the two requests |
| SwapPipeline.NetworkRunSafety | jupitor-swaps/src/index.js:203-304 | over the whole run: signing only with key material and before any simulation; the fallback only after native simulate or an unsigned deserialize threw, and never verifying signatures; an incomplete response or instruction list is never deserialized, signed or simulated |
| SwapPipeline.RunSwap | jupitor-swaps/src/index.js:137-319 | the trace is in pipeline order with each call at most once; configuration errors end the run before any request with their reason; otherwise the run is as `RunNetwork` states; exit status 1 comes only from configuration errors and from the quote or build request throwing |

## Left out

- Network I/O: the `/quote` and `/swap` requests, `connection.simulateTransaction` and the raw JSON-RPC POST are oracle outcomes. HTTP status handling and the error texts of lines 81-83 and 101-103 are folded into "the request throws".
- Foreign libraries: `JSON.parse`, `Uint8Array.from`, `bs58.decode`, `Keypair.fromSecretKey` and `Keypair.fromSeed`, and `VersionedTransaction.deserialize`, `sign` and `serialize` are given outcomes. Their internals are not modelled.
- Environment and process control: `dotenv`, `process.env`, `trim`, `parseInt` and `process.exit` are replaced by an already-read `Config` record and a `Report`.
- Console output: the `JSON.stringify` dumps, the `for` loops that print logs and the 800-character truncation at line 311 only format output. They are not modelled.
- `async`/`await`: the suspension points are sequential, so the pipeline is straight-line code.
- `new Connection(RPC_URL, "confirmed")` at line 153 can throw on a malformed URL. The model assumes it does not.
- The route summary printed at lines 188-198 only reads fields for display.
- ParseIntegerLiteral: `BigInt` also trims whitespace and accepts `0x`, `0o` and `0b` prefixes. The model treats such strings as errors.
- AmountConverter.UiAmountToAmount: the engine's limits are not modelled. A decimals count beyond the maximum string length makes `"0".repeat` throw a RangeError at line 64, and a combined string beyond `BigInt`'s maximum size makes line 67 throw. The model returns the exact amount for any count.
- Numerals.IntToString: `String(n)` of a number beyond 10^21 uses exponent form. The model always renders plain digits.
- QuoteClient.BuildQuoteQuery: the URL's percent-encoding of names and values is not modelled. Pairs are kept as (name, value) and each name's spelling is given by `Spelling`.
- QuoteClient.BuildQuoteQuery: the `maxAccounts` text is computed before the guard. This changes nothing, because rendering cannot fail.
- TransactionBuilder.ClassifyBuild: a `swapTransaction` of a non-string type is not modelled. It is a base64 string or absent.
- SimulationLogs: a `logs` value that is truthy but not iterable is not modelled. In the source the print loop throws on it inside the surrounding `try`: after a primary simulation (lines 240 and 279) this starts the fallback, and after a fallback (lines 253 and 294) it is caught as a failed fallback, so the run still exits 0.
- Every request and RPC call is modelled as settling, with a value or an error. The source sets no timeout on `fetch` or on the RPC calls, so an endpoint that never answers hangs the run; the model has no such outcome.
- The `main().catch` path for exceptions thrown while printing is not modelled.

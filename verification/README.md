# CryptoTrader Pro dashboard — a Dafny model of its decision logic

CryptoTrader Pro is a single-page dashboard. The user types a trading-pair symbol such as
`BTCUSDT`, the page posts it to an external webhook, and it renders the JSON reply. The reply
is either a leveraged-analysis array or a flat list of trade suggestions. When anything goes
wrong, the page falls back to two canned suggestions. This project models the logic behind
that screen and proves its properties.

What is modelled:

- **The page and its search handler** (`index.dfy`, module `Index`). `Index.Dashboard` is a
  class holding the page's five state cells: `selectedCoin`, `suggestions`, `webhookAnalysis`,
  `isLoading` and `webhookData`. `handleCoinSearch` is split into `BeginSearch` (everything
  before the `fetch`) and `CompleteSearch` (from the response to the `finally`), and
  `HandleCoinSearch` runs both. The network result is an input value (`Outcome`): a response
  with a status, a status text and a body that parsed or did not, or a rejected `fetch`. The
  `try` block is specified by `TryBlock`, and the state it leaves by `Settle`. The panel
  conditions of the page are `PanelsOf`.
- **The input form** (`coin_input.dfy`, module `CoinInput`). This covers the suffix validator,
  the `trim().toUpperCase()` normalisation, the submit handler, the quick-pick handler, the
  disabled condition of the submit button and the five presets. The `onSearch` callback is
  modelled as the value a handler returns: the pair it searches for, or nothing.
- **The leveraged-analysis panel** (`trading_analysis.dfy`, module `TradingAnalysis`). This
  covers the render guard, the three action classifiers, the `<b>`/`</b>` stripping and the
  150-character excerpt.
- **The suggestion cards** (`trade_suggestions.dfy`, module `TradeSuggestions`). This covers
  the type-to-colour, type-to-icon and type-to-shadow mappings, the confidence tier, and one
  card per suggestion.
- **The diagnostic panel** (`webhook_response.dfy`, module `WebhookResponse`). This covers the
  diagnostic record, the null guard, the status colour and icon, the response-time text, the
  "Data Points" figure and the error and raw-data sections.
- **Shared support.** `json.dfy` (module `Json`) models a parsed JSON value with JavaScript
  truthiness, property access and optional chaining; `undefined` is `Option.None`.
  `js_string.dfy` (module `JsString`) models the string built-ins the code calls. `options.dfy`
  defines `Option`.

Three behaviours of the code differ from what a reader of the screen would expect. The model
follows the code:

- The pair validator is not case-insensitive. `isValidTradingPair` itself is case-sensitive
  (`CoinInput.LowerCasePairSubmitsUpperCased`). Only the submit path is case-insensitive,
  because it upper-cases the query first (`CoinInput.NormalizeCaseInsensitive`).
- There is no guarantee of a single request in flight. The submit button is disabled while
  loading, but the quick-pick buttons call `onSearch` with no check
  (`CoinInput.Form.HandleSuggestionClick`). So no single-flight invariant is stated.
- An empty suggestion list is not replaced by the canned one. The flat branch uses
  `data.suggestions || mockSuggestions`, and an empty array is truthy, so it is kept and
  neither result panel is shown (`Index.EmptySuggestionListKept`).

## Model

| member | source | states |
|---|---|---|
| `JsString.Trim` | src/components/CoinInput.tsx:24 | `trim()` yields a string that neither starts nor ends with whitespace (the full ECMAScript whitespace set) and is no longer than the input |
| `JsString.TrimKeepsMiddle` | src/components/CoinInput.tsx:24 | the trimmed string is a slice of the input with only whitespace outside it, so `trim()` drops the leading and trailing runs and keeps the middle |
| `JsString.TrimStart` | src/components/CoinInput.tsx:24 | leading-whitespace removal yields a suffix of the input whose dropped characters are all whitespace and whose first character is not |
| `JsString.TrimEnd` | src/components/CoinInput.tsx:24 | trailing-whitespace removal yields a prefix of the input whose dropped characters are all whitespace and whose last character is not |
| `JsString.TrimUpper` | src/components/CoinInput.tsx:24 | trimming and upper-casing commute |
| `JsString.ToUpper` | src/components/CoinInput.tsx:24 | `toUpperCase()` keeps the length and leaves no lower-case letter |
| `JsString.ToLower` | src/components/WebhookTradingAnalysis.tsx:62 | `toLowerCase()` keeps the length and leaves no upper-case letter |
| `JsString.EndsWith` | src/components/CoinInput.tsx:33 | `endsWith`: the suffix is no longer than the text and equals its last characters |
| `JsString.Includes` | src/components/WebhookTradingAnalysis.tsx:63 | the left-to-right `includes` search is true exactly when the text occurs at some position |
| `JsString.RemoveAll` | src/components/WebhookTradingAnalysis.tsx:87 | a global literal `replace(..., '')` never lengthens the text |
| `JsString.RemoveAllChangesIffIncludes` | src/components/WebhookTradingAnalysis.tsx:87 | a global literal `replace(..., '')` leaves the text unchanged exactly when the pattern does not occur in it, and otherwise makes it strictly shorter |
| `JsString.RemoveAllAppend` | src/components/WebhookTradingAnalysis.tsx:87 | a prefix lacking the pattern's first character passes through a global removal unchanged |
| `JsString.Prefix` | src/components/WebhookTradingAnalysis.tsx:232 | `substring(0, n)` is a prefix of length `min(n, length)` |
| `JsString.Decimal` | src/components/WebhookResponse.tsx:73 | an integer's decimal text is non-empty, all digits, and has no leading zero unless the number is 0 |
| `JsString.DecimalRoundTrip` | src/components/WebhookResponse.tsx:73 | reading back the printed digits gives the number again |
| `JsString.IntToString` | src/pages/Index.tsx:96 | `${status}` is never empty and starts with "-" exactly when the number is negative |
| `JsString.IntToStringRoundTrip` | src/components/WebhookResponse.tsx:73 | `${n}` reads back as the number: the digits give a non-negative number, and the digits after the "-" give the magnitude of a negative one |
| `Json.Truthy` | src/components/WebhookResponse.tsx:100 | JavaScript truthiness: `null`, `false`, `0` and `""` are falsy, and every array and object is truthy |
| `Json.Prop` | src/pages/Index.tsx:80 | a property read other than `length` finds something only on an object |
| `Json.Chain` | src/pages/Index.tsx:76 | `?.` gives `undefined` on `undefined` or `null`, and a plain property read otherwise |
| `Json.First` | src/pages/Index.tsx:76 | `data[0]` is defined exactly when the array is non-empty, and is then its first element |
| `Json.HasPositiveLength` | src/pages/Index.tsx:176 | `suggestions.length > 0`: a numeric `length` is compared with 0 and a boolean one as 0 or 1; an absent or `null` `length` is not positive |
| `Json.PositiveLength` | src/pages/Index.tsx:176 | `length > 0` holds for an array exactly when it is non-empty, and for a string exactly when it is non-empty |
| `Json.TruthyPropHolder` | src/pages/Index.tsx:76 | a truthy non-`length` property can only be read from an object, which is itself truthy |
| `CoinInput.EndsWithAny` | src/components/CoinInput.tsx:33 | `some(q => query.endsWith(q))` is true exactly when some listed quote is a suffix |
| `CoinInput.IsValidTradingPair` | src/components/CoinInput.tsx:30-34 | a query is valid exactly when it ends with USDT, BUSD, USDC, BTC or ETH; a valid query has at least three characters |
| `CoinInput.Submits` | src/components/CoinInput.tsx:24-25 | `handleSubmit` searches exactly when the normalised query is a valid pair; the emptiness test `query &&` never decides anything |
| `CoinInput.Normalize` | src/components/CoinInput.tsx:24 | the normalised query is trimmed, has no lower-case letter, and is no longer than the input |
| `CoinInput.NormalizeIdempotent` | src/components/CoinInput.tsx:24 | normalising a normalised query changes nothing |
| `CoinInput.NormalizeCaseInsensitive` | src/components/CoinInput.tsx:22-28 | upper- or lower-casing the typed text changes neither the normalised query nor whether the form submits |
| `CoinInput.SubmitDisabled` | src/components/CoinInput.tsx:73 | the submit button is enabled exactly when not loading and `handleSubmit` would search |
| `CoinInput.PresetsAreValid` | src/components/CoinInput.tsx:14-20 | all five presets are valid, normalised pairs that the form would submit unchanged |
| `CoinInput.LowerCasePairSubmitsUpperCased` | src/components/CoinInput.tsx:22-34 | "btcusdt" is not a valid pair by itself, but the form submits it as "BTCUSDT" |
| `CoinInput.SuffixDecidesValidity` | src/components/CoinInput.tsx:30-34 | "ETHBTC" is valid (it ends with BTC) and "XBTFOO" is not |
| `CoinInput.BlankNeverSubmits` | src/components/CoinInput.tsx:22-28 | a field of whitespace only never submits |
| `CoinInput.Form.constructor` | src/components/CoinInput.tsx:13 | the field starts empty |
| `CoinInput.Form.Change` | src/components/CoinInput.tsx:65 | typing replaces the field verbatim |
| `CoinInput.Form.HandleSubmit` | src/components/CoinInput.tsx:22-28 | at most one search; it happens exactly when the normalised query is non-empty and valid, it uses that normalised query, and the value is valid, trimmed and upper-case |
| `CoinInput.Form.HandleSuggestionClick` | src/components/CoinInput.tsx:36-39 | a quick-pick sets the field to the preset and always searches for it, with no loading or validity check |
| `TradingAnalysis.Subject` | src/components/WebhookTradingAnalysis.tsx:55-59 | the panel renders exactly when the list is non-empty and its first element's `output` is truthy, and it then shows that `output` |
| `TradingAnalysis.SubjectIgnoresTail` | src/components/WebhookTradingAnalysis.tsx:59 | elements after the first change neither whether the panel renders nor what it shows |
| `TradingAnalysis.MentionsBullish` | src/components/WebhookTradingAnalysis.tsx:62-63 | the lower-cased action contains "buy" or "long" |
| `TradingAnalysis.MentionsBearish` | src/components/WebhookTradingAnalysis.tsx:62-64 | the lower-cased action contains "sell" or "short" |
| `TradingAnalysis.ActionGradient` | src/components/WebhookTradingAnalysis.tsx:61-66 | success exactly for a lower-cased action mentioning buy or long; warning exactly when it does not but mentions sell or short; primary otherwise |
| `TradingAnalysis.ActionColor` | src/components/WebhookTradingAnalysis.tsx:68-73 | default, destructive or secondary, by the same three-way split |
| `TradingAnalysis.ActionIconOf` | src/components/WebhookTradingAnalysis.tsx:75-80 | trending-up, trending-down or target, by the same three-way split |
| `TradingAnalysis.BullishTakesPrecedence` | src/components/WebhookTradingAnalysis.tsx:61-80 | an action mentioning both buy/long and sell/short is classified as buy by all three classifiers |
| `TradingAnalysis.ClassifiersAgree` | src/components/WebhookTradingAnalysis.tsx:61-80 | gradient, colour and icon always take the same branch |
| `TradingAnalysis.ClassificationIgnoresCase` | src/components/WebhookTradingAnalysis.tsx:61-80 | upper- or lower-casing the action does not change its classification |
| `TradingAnalysis.KeywordExamples` | src/components/WebhookTradingAnalysis.tsx:61-66 | "STRONG BUY" is bullish, "Short" is bearish and "Wait" is neutral |
| `TradingAnalysis.CleanHtml` | src/components/WebhookTradingAnalysis.tsx:86-88 | stripping `<b>` then `</b>` never lengthens the text, and leaves text containing neither tag unchanged |
| `TradingAnalysis.CleanHtmlKeepsPlainText` | src/components/WebhookTradingAnalysis.tsx:86-88 | text without `<` is unchanged |
| `TradingAnalysis.CleanHtmlUnwrapsBold` | src/components/WebhookTradingAnalysis.tsx:86-88 | `<b>` + t + `</b>` is cleaned back to t when t has no `<` |
| `TradingAnalysis.CleanHtmlLeavesNestedTag` | src/components/WebhookTradingAnalysis.tsx:86-88 | one pass is not enough: `<<b>b>` is cleaned to `<b>` |
| `TradingAnalysis.Excerpt` | src/components/WebhookTradingAnalysis.tsx:232 | the rationale excerpt is the prefix of the cleaned text of length exactly `min(150, length)`: all of it when the text is that short, its first 150 characters otherwise |
| `TradeSuggestions.TypeColorOf` | src/components/TradeSuggestions.tsx:22-29 | success exactly for "buy", warning exactly for "sell", primary for "hold" and any other type |
| `TradeSuggestions.TypeIconOf` | src/components/TradeSuggestions.tsx:31-38 | up exactly for "buy", down exactly for "sell", target otherwise |
| `TradeSuggestions.ShadowOf` | src/components/TradeSuggestions.tsx:57 | success shadow exactly for "buy", warning exactly for "sell", glow otherwise |
| `TradeSuggestions.TierOf` | src/components/TradeSuggestions.tsx:69-71 | the badge is success from 80, warning from 60 to 79, destructive below 60 |
| `TradeSuggestions.TierMonotone` | src/components/TradeSuggestions.tsx:69-71 | a higher confidence never gives a worse badge |
| `TradeSuggestions.IconFollowsColor` | src/components/TradeSuggestions.tsx:22-38 | the icon partitions the types as the colour does |
| `TradeSuggestions.ShadowFollowsColor` | src/components/TradeSuggestions.tsx:57 | the shadow agrees with the colour on every type |
| `TradeSuggestions.Cards` | src/components/TradeSuggestions.tsx:52-53 | exactly one card per suggestion, in list order, each styled from its own suggestion |
| `TradeSuggestions.CardsAppend` | src/components/TradeSuggestions.tsx:52-53 | the cards of a concatenated list are the concatenated cards |
| `TradeSuggestions.ToJson` | src/components/TradeSuggestions.tsx:6-14 | a suggestion is a JSON object with its seven fields |
| `TradeSuggestions.JsonRoundTrip` | src/components/TradeSuggestions.tsx:6-14 | reading a suggestion's fields back from its JSON gives it again |
| `WebhookResponse.StatusColorOf` | src/components/WebhookResponse.tsx:36-47 | the muted default applies exactly to statuses other than success, error and pending |
| `WebhookResponse.StatusIconOf` | src/components/WebhookResponse.tsx:23-34 | the server icon applies exactly to statuses other than success, error and pending |
| `WebhookResponse.StatusStylesDistinct` | src/components/WebhookResponse.tsx:23-47 | the three statuses get three distinct colours and icons, none of them the default |
| `WebhookResponse.ResponseTimeText` | src/components/WebhookResponse.tsx:73 | "N/A" exactly when the time is absent or zero, otherwise the number followed by "ms" |
| `WebhookResponse.ResponseTimeReadsBack` | src/components/WebhookResponse.tsx:73 | a zero time shows "N/A", and a positive time can be read back from its text |
| `WebhookResponse.DataPoints` | src/components/WebhookResponse.tsx:88 | the figure is `rawData?.suggestions?.length` when that is truthy, and 0 when it is missing or falsy |
| `WebhookResponse.ShowsError` | src/components/WebhookResponse.tsx:93 | the error section shows when `error` is a non-empty string |
| `WebhookResponse.ShowsRawData` | src/components/WebhookResponse.tsx:100 | the raw-data section shows when `rawData` is truthy |
| `WebhookResponse.DataPointsOfSuggestionList` | src/components/WebhookResponse.tsx:88 | a record whose `suggestions` is an array shows its length |
| `WebhookResponse.DataPointsWithoutSuggestions` | src/components/WebhookResponse.tsx:88 | an analysis-shaped array, a missing body or `null` shows 0 |
| `WebhookResponse.Render` | src/components/WebhookResponse.tsx:19-100 | nothing renders for a missing record. Otherwise the badge has the status's colour, icon and upper-cased name; the panel shows the response-time text and the data-points figure; the error section shows the record's `error` exactly when that is non-empty; and the raw section shows `rawData` exactly when it is truthy |
| `Index.ResponseOk` | src/pages/Index.tsx:72 | `response.ok`: the status lies in 200-299 |
| `Index.HttpErrorMessage` | src/pages/Index.tsx:96 | the message for a status that is not OK is non-empty, starts with "HTTP ", has the status right after it and ends with the status text |
| `Index.CaughtMessage` | src/pages/Index.tsx:110 | the recorded message is an `Error`'s own message; for any other thrown value it is a non-empty placeholder |
| `Index.IsAnalysisShape` | src/pages/Index.tsx:76 | an analysis-shaped body is a non-empty array whose first element is an object |
| `Index.TryBlock` | src/pages/Index.tsx:55-97 | the `try` block completes exactly for an OK status with a parsed body that is not `null`. Otherwise it throws: the caught value's message for a rejected `fetch`, "HTTP <status>: <text>" for a status that is not OK, the parse error's message for a malformed body, and the TypeError's message for a `null` body |
| `Index.FlatSuggestions` | src/pages/Index.tsx:80 | `data.suggestions` is kept when it is truthy, and the canned list is used otherwise |
| `Index.Settle` | src/pages/Index.tsx:76-112 | after any search the two lists are never both non-empty, and the record is a success exactly when the `try` block completed, with the measured time and the completion timestamp |
| `Index.PanelsOf` | src/pages/Index.tsx:164-180 | nothing shows without a selected coin. With one: the diagnostic panel shows exactly when there is a record; the analysis panel shows exactly when the analysis is non-empty; the suggestion panel shows exactly when `suggestions.length > 0` and the analysis is empty. The last two are never shown together |
| `Index.Dashboard.constructor` | src/pages/Index.tsx:33-43 | the page starts with no coin, empty lists, not loading and no record |
| `Index.Dashboard.BeginSearch` | src/pages/Index.tsx:46-53 | starting a search sets loading, selects the coin and writes a pending record with a timestamp, without touching the lists |
| `Index.Dashboard.CompleteSearch` | src/pages/Index.tsx:70-121 | the lists and the record become those of `Settle`, loading ends, the selected coin is kept, one notice is recorded and the lists stay exclusive |
| `Index.Dashboard.HandleCoinSearch` | src/pages/Index.tsx:45-122 | a whole search leaves a state determined by the coin, the outcome, the elapsed time and the timestamp alone; the toast is "Analysis Complete" exactly when the `try` block completed, "Using Mock Data" otherwise |
| `Index.RepeatSearch` | src/pages/Index.tsx:77-104 | repeating the same search leaves the same state (the lists are overwritten, not merged) |
| `Index.MockSuggestionsShape` | src/pages/Index.tsx:11-30 | the canned list has exactly two suggestions, buy at 85 and hold at 72, and counts as two data points |
| `Index.FailureFallsBack` | src/pages/Index.tsx:98-112 | every failure leaves the canned list, an empty analysis and an error record with the fallback raw data and the thrown message |
| `Index.HttpErrorReported` | src/pages/Index.tsx:95-97 | a status outside 200-299 is recorded as "HTTP <status>: <text>", which contains the status and shows in the error section |
| `Index.RejectedFetchRecorded` | src/pages/Index.tsx:98-112 | a rejected `fetch` records the `Error`'s message, or "Unknown error occurred" for any other thrown value, and falls back to the canned list |
| `Index.MalformedBodyRecorded` | src/pages/Index.tsx:73 | a body that is not JSON records the parse error's message as an error and falls back to the canned list, even with an OK status |
| `Index.NullBodyFallsBack` | src/pages/Index.tsx:80 | a `null` body throws and takes the error path |
| `Index.AnalysisShapeShown` | src/pages/Index.tsx:76-78 | an analysis-shaped body becomes the analysis, empties the suggestions, records success with the whole body, and passes the analysis panel's guard |
| `Index.FlatShapeShown` | src/pages/Index.tsx:79-89 | any other non-null body empties the analysis, keeps a truthy `data.suggestions` or else the canned list, and records success with the whole body |
| `Index.EmptySuggestionListKept` | src/pages/Index.tsx:80 | `{suggestions: []}` keeps the empty list, so neither result panel shows |
| `Index.PanelsAfterSearch` | src/pages/Index.tsx:164-180 | after a search for a coin the diagnostic panel shows; a failure shows only the suggestion panel, and an analysis-shaped success shows only the analysis panel |

## Left out

- The `fetch` call, the webhook URL and the request body (src/pages/Index.tsx:56-68) are external I/O. Their result is the `Outcome` input.
- `Date.now()` and `new Date().toISOString()` are inputs. The clock reading given to `CompleteSearch` is the one the branch that writes the record takes: line 70 on success, line 99 on failure.
- `toast` is recorded only as the ghost field `notice`. `console.error` is not modelled.
- JSX, CSS class strings and icons are not modelled. The classifiers return enumerations, and the "..." that the markup appends after an excerpt is not part of `Excerpt`.
- `formatPrice` (`parseFloat` and `toLocaleString`) is not modelled. Neither is the "Last Updated" time (`toLocaleTimeString`) or the pretty-printed raw data (`JSON.stringify`), because they rely on floating point and locale formatting.
- src/components/Portfolio.tsx is fixed demonstration data with no decisions in it.
- Two overlapping searches (a quick-pick during a pending search) are not modelled, nor is React's batching of state updates. A search is `BeginSearch` followed by `CompleteSearch`.
- `JsString.UpperChar`: only the ASCII letters are mapped. `toUpperCase` and `toLowerCase` on other characters are not modelled.
- `Json.Value`: JSON numbers are integers, so fractional numbers (a confidence of 79.5, say) are not modelled.
- `Json.Prop`: an array or a string answers only `length`. Numeric keys and inherited properties are not modelled.
- `Json.Prop`: a string's `length` is counted in Unicode code points, while JavaScript counts UTF-16 code units. For a string with characters outside the Basic Multilingual Plane (an emoji, say) the model's length is smaller; for example `{"suggestions": "🚀"}` shows 1 data point here and 2 in the browser.
- `JsString.Prefix`: `substring(0, n)` is taken in Unicode code points, while JavaScript counts UTF-16 code units. For a rationale with such characters in its first 150 units, the browser's excerpt is shorter than `TradingAnalysis.Excerpt` and may end in half a surrogate pair.
- `JsString.Decimal`: JavaScript prints a number of 10^21 or more in exponent notation (`1e+21`). The model always prints every digit, so it differs for such response times or statuses.
- `Json.HasPositiveLength`: only a numeric or boolean `length` is compared with 0. A string, array or object `length` is treated as not positive; JavaScript would convert it with ToNumber.
- `Index.NullBodyMessage` uses V8's wording; other engines word this TypeError differently.
- The analysis panel reads nested fields (`ShortTerm.Action`, the rationale texts) without guards, so a missing field makes rendering throw. The model classifies given strings and does not model that crash.
- `TradeSuggestions.Cards` takes a typed list. Rendering a truthy `suggestions` value that is not an array (`.map` throws) is not modelled.
- The `!data` test of the analysis panel is not modelled: the page always passes an array.
- `e.preventDefault()` in `handleSubmit` is not modelled.

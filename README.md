# FloatChat front end: chat transcript and API client

FloatChat is a React front end for browsing ARGO float data. Almost all of it is
presentation. This project models in Dafny the two parts of it that hold logic:

- **The chat page's transcript** (`src/pages/Chat.tsx`). The page owns an ordered
  list of messages and the text of the input box.
  - Sending a blank input (after `trim`) does nothing.
  - Sending any other input appends the user's message, as typed, and a canned bot
    reply, then empties the box.
  - The reply's visualisation kind comes from a case-insensitive keyword rule:
    "compare" gives a chart; otherwise "position" or "location" gives a map;
    otherwise it is a chart.
  - Clicking a sample question only fills the box.
- **The API client** (`src/lib/api.ts`).
  - It builds endpoints. It drops `undefined` query parameters and keeps the rest in
    insertion order, and it embeds a `limit` that defaults to 10.
  - It assembles the `fetch` call: the base URL plus the endpoint, and the header
    object spread.
  - It turns the reply into a returned value or a thrown error.

Modules:

- `Wrappers` (`wrappers.dfy`): `Option`. It stands for JavaScript's `undefined` and
  for decoders that can fail.
- `Text` (`text.dfy`): the ECMAScript string operations the code relies on.
  - `trim`, `toLowerCase` and `includes`.
  - Integer `toString`, with its inverse.
- `Json` (`json.dfy`): `JSON.stringify` of a string (QuoteJSONString, section 25.5.2 of
  ECMA-262). It comes with a decoder for the strings QuoteJSONString writes, so that
  the request body can be shown to lose nothing.
- `Chat` (`chat.dfy`): the message record and the keyword classifier.
  - `Sent`, a function that specifies one send.
  - The class `ChatPage`, whose fields `messages` and `inputValue` are the component's
    two pieces of state.
  - Lemmas about message ids.
- `Api` (`api.dfy`): the query-string builder (the `forEach` loop as a `while` loop),
  the endpoint builders, the object spread, `Request` and the client's operations.

The outside world is made explicit in two places:

- **The clock.** One send reads the clock four times, in this order:
  - `Date.now()` for the user id;
  - `new Date()` for the user timestamp;
  - `Date.now()` for the bot id;
  - `new Date()` for the bot timestamp.

  These readings are the `Chat.Clock` argument. A timestamp is kept as the
  millisecond value its `Date` holds.
- **The network.** `fetch` followed by `response.json()` is a function argument
  `transport` that answers a `FetchCall` with an abstract `Reply`. A reply is either a
  rejected fetch, or a response with `ok`, `status` and a body that parsed or failed to
  parse.

Where descriptions of this front end and its code differ, the model follows the code:

- The chat page has no in-flight flag and no loading placeholder. It makes no API call
  and has no error message; the bot reply is canned and synchronous.
- The "Connected" badges are fixed text, not a health check.
- The comparison and dashboard pages render fixed mock values.

About message ids:

- Message ids are decimal strings of clock values. `Chat.SendIdsDistinct` shows that
  the two ids of one send differ when the clock does not run backwards.
- Ids stay unique over a whole transcript if each send starts after the previous bot
  id. `Chat.SendKeepsIdsIncreasing` shows that this condition keeps the ids increasing,
  hence unique by `Chat.IncreasingIdsAreUnique`. The condition is sufficient, not
  necessary.
- `Chat.NextMillisecondReusesId` exhibits two sends one millisecond apart that give two
  messages the same id. React uses that id as the list key.

## Model

| member | source | states |
|---|---|---|
| `Text.TrimStartRemovesSpacePrefix` | src/pages/Chat.tsx:48 | `trim` removes the longest white-space prefix. What remains is a suffix of the input that is empty or starts with a non-space |
| `Text.TrimEndRemovesSpaceSuffix` | src/pages/Chat.tsx:48 | `trim` removes the longest white-space suffix. What remains is a prefix that is empty or ends with a non-space |
| `Text.BlankIffAllSpace` | src/pages/Chat.tsx:48 | `!inputValue.trim()` holds exactly when every character of the input is ECMAScript white space or a line terminator |
| `Text.Lower` | src/pages/Chat.tsx:62-63 | lower-casing keeps the length and maps every character through `LowerChar` |
| `Text.LowerChar` | src/pages/Chat.tsx:62-63 | the result is never an upper-case ASCII letter. An upper-case letter moves to its lower-case letter; any other character is kept |
| `Text.LowerIdempotent` | src/pages/Chat.tsx:62-63 | lower-casing an already lower-cased text changes nothing |
| `Text.ContainsIffOccurs` | src/pages/Chat.tsx:62-63 | `includes` is true exactly when the pattern occurs at some position of the text |
| `Text.Decimal` | src/pages/Chat.tsx:51 | a number's `toString` is a non-empty string of digits, with no leading zero unless the number is 0 |
| `Text.DecimalRoundTrip` | src/pages/Chat.tsx:51-58 | reading the decimal string back gives the number that was printed |
| `Text.DecimalInjective` | src/pages/Chat.tsx:51-58 | two numbers print the same exactly when they are equal |
| `Text.IntRoundTrip` | src/lib/api.ts:44-45 | an integer limit printed with its sign reads back as the same integer |
| `Json.Quote` | src/lib/api.ts:81 | `JSON.stringify` of a string is enclosed in double quotes |
| `Json.QuoteRoundTrip` | src/lib/api.ts:81 | a JSON reader recovers the exact question from the body `JSON.stringify` wrote |
| `Json.QuoteInjective` | src/lib/api.ts:81 | different questions produce different bodies |
| `Chat.Classify` | src/pages/Chat.tsx:62-63 | the keyword rule never yields `table` |
| `Chat.ClassifyRules` | src/pages/Chat.tsx:62-63 | The reply is a map exactly when the lower-cased input contains "position" or "location" but not "compare". Otherwise it is a chart, so "compare" wins over the map words |
| `Chat.ClassifyIgnoresCase` | src/pages/Chat.tsx:62-63 | classifying the lower-cased input gives the same kind as classifying the input |
| `Chat.SendRejectsBlank` | src/pages/Chat.tsx:48 | A blank input leaves the transcript and the input unchanged. The transcript changes exactly when the input is not blank |
| `Chat.SendAppendsUserThenBot` | src/pages/Chat.tsx:50-67 | A non-blank send keeps the old transcript as a prefix and appends exactly two messages, then empties the input. First comes the user message: the raw input, id from the first clock reading, no data type. Then comes the bot reply, carrying the canned text, the classifier's kind and as id the decimal string of one past the third clock reading |
| `Chat.SendIdsDistinct` | src/pages/Chat.tsx:51-58 | if the clock does not run backwards between the two id readings, the user id and the bot id of one send differ |
| `Chat.SendKeepsIdsIncreasing` | src/pages/Chat.tsx:50-66 | if every earlier id is below the send's first clock reading, the ids stay strictly increasing and the bot id is the largest |
| `Chat.IncreasingIdsAreUnique` | src/pages/Chat.tsx:106-107 | strictly increasing ids are pairwise distinct list keys |
| `Chat.GreetingIdsIncreasing` | src/pages/Chat.tsx:29-36 | the initial transcript's only id, "1", reads as 1 |
| `Chat.NextMillisecondReusesId` | src/pages/Chat.tsx:51-58 | two sends with a non-decreasing clock, one millisecond apart, give the first bot reply and the second user message the same id |
| `Chat.ChatPage.constructor` | src/pages/Chat.tsx:29-37 | the page starts with one bot greeting (id "1", no data type) and an empty input |
| `Chat.ChatPage.SendMessage` | src/pages/Chat.tsx:47-68 | the new transcript and input are `Sent` of the old ones under the given clock readings |
| `Chat.ChatPage.QuestionClick` | src/pages/Chat.tsx:70-72 | the input becomes the question and the transcript is unchanged |
| `Api.DefinedIsOrderedSelection` | src/lib/api.ts:57-62 | The query entries are exactly the parameters whose value is defined. Keys and values are unchanged, each entry appears once, in insertion order |
| `Api.DefinedEmptyIffAllUndefined` | src/lib/api.ts:57-62 | no entry is emitted exactly when every parameter is `undefined` |
| `Api.AppendDefined` | src/lib/api.ts:57-62 | the loop over `Object.entries(params)` produces exactly the defined entries |
| `Api.SerializeEmptyIffNoEntries` | src/lib/api.ts:64 | the query string is empty exactly when there are no entries |
| `Api.AllUndefinedGivesBarePath` | src/lib/api.ts:57-64 | the endpoint is the bare path followed by "?" exactly when every parameter is `undefined` |
| `Api.QueryAndPlotShareParams` | src/lib/api.ts:94-101 | for the same parameters the query and plot URLs differ only in their path (`/profiles/query` and `/profiles/plot`) |
| `Api.LimitEndpointCarriesLimit` | src/lib/api.ts:44-45 | the endpoint is the path followed by `?limit=` and a number that reads back as the caller's limit, or 10 when none is given |
| `Api.CallShape` | src/lib/api.ts:24-29 | The URL is `API_BASE_URL` followed by the endpoint, and the caller's method and body pass through. Without caller headers the headers are exactly Content-Type: application/json. With caller headers, those replace the merged headers entirely. All of this is derived from the spread of the caller's options over the init object |
| `Api.SpreadLaterWins` | src/lib/api.ts:25-29 | in an object spread each property takes the value of the last source that sets it |
| `Api.CallerHeadersDropContentType` | src/lib/api.ts:25-29 | for every endpoint, method, body and caller headers without a Content-Type, the request sends no Content-Type, although the inner merge (which the outer spread discards) had one |
| `Api.StatusErrorCarriesStatus` | src/lib/api.ts:32-34 | the error for a non-ok response starts "API request failed: " and its status reads back from the message |
| `Api.Settle` | src/lib/api.ts:32-40 | Only an ok response with a parsed body returns, and it returns that body. A non-ok response throws the status error. A rejected fetch or body parse is rethrown unchanged |
| `Api.Request` | src/lib/api.ts:22-41 | `request` issues the assembled call and settles the reply by the rules of `Settle` |
| `Api.GetProfilesSample` | src/lib/api.ts:44-46 | requests `/profiles/sample?limit=<n>` with no options and settles the reply |
| `Api.QueryProfiles` | src/lib/api.ts:49-65 | runs the parameter loop, then requests `/profiles/query?` followed by the defined entries, and settles the reply |
| `Api.GetTrajectorySample` | src/lib/api.ts:68-70 | requests `/trajectories/sample?limit=<n>` and settles the reply |
| `Api.GetMetadataSample` | src/lib/api.ts:73-75 | requests `/metadata/sample?limit=<n>` and settles the reply |
| `Api.NaturalLanguageQuery` | src/lib/api.ts:78-83 | requests `/nl_query` with the POST options and settles the reply |
| `Api.NlQueryCall` | src/lib/api.ts:78-82 | The natural-language call is a POST to base URL + `/nl_query` with the JSON content type. Its body decodes to the question |
| `Api.GetPlot` | src/lib/api.ts:86-102 | runs the same parameter loop, then requests `/profiles/plot?` followed by the defined entries, and settles the reply |
| `Api.HealthCheck` | src/lib/api.ts:105-107 | requests `/` with no options and settles the reply |

## Left out

- The network, `response.json()` and `console.error`. `fetch` plus body parsing is the
  `transport` argument, and the parsed value is not checked against any schema,
  matching the code. The log line in the catch block has no effect in the model.
- The percent-encoding that `URLSearchParams` applies. Query keys and values are
  joined as they are.
- `Number.prototype.toString` for non-integers, such as latitudes. Parameter values
  are taken as already-stringified tokens.
- `Api.LimitEndpointCarriesLimit`: covers integer limits only. Fractional limits would
  print with a decimal point. Integers of magnitude 10^21 or more print in exponent
  form and are not modelled: `Text.IntString` writes all their digits.
- `Text.Lower`: lower-cases ASCII letters only. `toLowerCase` also maps non-ASCII
  letters, but none of them lower-cases to a letter of "compare", "position" or
  "location" on its own, so the classification is unaffected.
- `Text.LowerChar`: maps ASCII letters only, for the reason given for `Text.Lower`.
- Lone surrogates. A JavaScript string may hold an unpaired UTF-16 surrogate, which
  `JSON.stringify` escapes as `\uXXXX`; a Dafny `char` cannot hold one, so such
  questions are not modelled. `Json.Unquote` decodes every string `Json.Quote` writes,
  plus some escapes `Json.Quote` never uses (such as `\/`). It rejects escaped
  surrogates, which a general JSON reader accepts.
- `Date.now()` and `new Date()` are the `Clock` argument. `toLocaleTimeString` (display
  only) is not modelled.
- Object property order for integer-like keys, which JavaScript lists first in
  `Object.entries` and spreads. No key used here is integer-like.
- `RequestInit` properties other than method, body and headers. Also left out is a
  `headers` property that is present but `undefined`.
- The input box's `onChange` handler (src/pages/Chat.tsx:165). It sets the input the
  same way `ChatPage.QuestionClick` does, so it has no separate member.
- Rendering: the JSX, icons, sample-question list and status badges. Also left out:
  the other pages (Compare, Dashboard, About, Home), layout and animation components,
  and styling configuration. None of them holds logic beyond fixed values.

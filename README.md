# riff-planner core, modelled in Dafny

riff-planner is a trip planner made of three pieces:

- a FastAPI backend. `/generate` asks Gemini for ideas and a day-by-day timeline. It cleans the reply and cuts the JSON object out of it. It then gives every idea and timeline item an image and a Google Maps search link. When there is no AI client, or the call or the parse fails, it answers with a canned sample. At import time it also loads a `.env` file into the process environment.
- a Next.js demo route, `POST /api/plans`. It checks the destination and answers with a fixed three-day plan.
- two client pages and a calendar drop-down:
  - a chat page that posts a query to the backend and appends the answer to a conversation;
  - a single-shot form page that posts a destination to the demo route;
  - a date picker that renders a label for a date or a range, and closes once a range is complete.

The model is split into modules:

- `Options` and `JsonValue` hold the shared values: parsed JSON, with Python truthiness and JavaScript truthiness.
- `Text` holds Python's `strip`, `replace`, `index` and `rindex`, and JavaScript's `trim`. Whitespace is the exact character set of each language.
- `Backend` holds the map link, the sample, the reply cleaning and extraction, and the enrichment loops. The loops are proved against a functional specification. `Generate` ties them together.
- `DotEnv` holds the `.env` loop. It is a class over `os.environ`, and its loop is proved against `Loaded`.
- `Http` is the browser's view of a fetch.
- `PlansRoute` is the demo route.
- `ChatPage` and `FormPage` are the page components. Each is a class whose fields are the React state. A submit is split into the part before the request and the part after it settles.
- `CalendarPicker` is the label function and the drop-down's open flag. The date type and `toDateString` are parameters.

The model takes the following as inputs:

- Gemini's reply (`AiReply`);
- `json.loads` (`parse`);
- `fetch_google_image` (`image`);
- the browser's `fetch` (`FetchResult`);
- `Date.prototype.toDateString` (`toDateString`).

## Model

| member | source | states |
|---|---|---|
| Text.Strip | backend/main.py:18 | the result is the middle of the input; what was cut from either end lies in the character set; the result neither starts nor ends with one of them; it is empty exactly when every character is in the set |
| Text.StripUnique | backend/main.py:18 | any split into a run of set characters, a middle that neither starts nor ends with one, and another run, gives the middle as the strip result |
| Text.StripIdempotent | app/api/plans/route.ts:24 | trimming an already trimmed string changes nothing |
| Text.StripKeepsAbsent | backend/main.py:17-18 | stripping adds no character: a key split off before the first `=` still holds no `=` after stripping |
| Text.ReplaceAbsent | backend/main.py:201 | a string without the pattern's first character is returned unchanged by replacement |
| Text.ReplaceSkipsPlain | backend/main.py:201 | a prefix without the pattern's first character is copied unchanged and replacement continues after it |
| Text.ReplaceCharAt | backend/main.py:94 | replacing one character by another keeps the length and substitutes position by position |
| Text.IndexOf | backend/main.py:205 | `str.index`: absent exactly when the character does not occur, otherwise the first position holding it |
| Text.LastIndexOf | backend/main.py:205 | `str.rindex`: absent exactly when the character does not occur, otherwise the last position holding it |
| Text.NatToStringRoundTrip | frontend/app/page.tsx:48 | the decimal rendering of an HTTP status reads back to the status |
| Backend.MakeMapLink | backend/main.py:93-95 | the link is the Maps search prefix followed by the title, with every space turned into `+` and every other character kept; the link holds no space |
| Backend.FencelessReplyKept | backend/main.py:201 | a reply without a backtick passes both fence removals unchanged |
| Backend.FenceRemovalLeavesNone | backend/main.py:201 | removing every triple backtick from left to right leaves none behind, even where removal joins neighbours |
| Backend.CleanFences | backend/main.py:201 | the cleaned reply holds no code fence and neither starts nor ends with Python whitespace; a reply without a backtick is only stripped of surrounding whitespace (`Backend.FencelessReplyKept`) |
| Backend.FencedReplyUnwrapped | backend/main.py:201 | a reply `"```json" + x + "```"` whose content `x` holds no backtick comes out as `x` stripped of surrounding whitespace |
| Backend.ExtractObjectText | backend/main.py:204-205 | no result exactly when `{` or `}` is missing; an empty result exactly when the last `}` precedes the first `{`; otherwise the text from the first `{` to the last `}` inclusive |
| Backend.Sample | backend/main.py:101-120 | the sample has exactly the keys `ideas` and `timeline`, one item each, and each item has a truthy image and the map link of its own title |
| Backend.SampleIgnoresQuery | backend/main.py:101 | the sample is the same for every query |
| Backend.EnrichedItem | backend/main.py:216-218 | the loop body raises exactly when the item is not an object with a string title; otherwise the item gets the map link of its title, a missing or falsy image is filled from the lookup (or ""), a truthy image is kept, and every other field is unchanged |
| Backend.EnrichedItems | backend/main.py:215-218 | the loop over a list succeeds exactly when every item can be enriched; the result has the same length, and each item is its own enrichment |
| Backend.EnrichedField | backend/main.py:215 | iterating `data.get(key, [])` succeeds exactly when the key is missing, its value is `""` or `{}`, or it is a list of objects with string titles; a list becomes its enriched items; a missing key, `""` or `{}` leaves the reply as it is; the keys are kept and no field but `key` changes |
| Backend.EnrichedData | backend/main.py:214-224 | both loops succeed exactly when the reply is an object whose `ideas` and `timeline` can each be iterated; the result is then an object with the same keys, every top-level field other than `ideas` and `timeline` is unchanged, and an `ideas` or `timeline` that is not a list is unchanged too |
| Backend.EnrichedDataLinks | backend/main.py:214-224 | after both loops, every idea and timeline item carries the map link of its own title, and the number and order of items are kept |
| Backend.EnrichedItemIdempotent | backend/main.py:216-218 | with the same lookup answers for the same title, enriching an item a second time changes nothing |
| Backend.EnrichedItemFixedPoint | backend/main.py:216-218 | an item with a truthy image and its own map link is left unchanged |
| Backend.EnrichedItemsFixedPoint | backend/main.py:215-218 | a list whose items are all in enriched form is left unchanged |
| Backend.EnrichedDataFixedPoint | backend/main.py:214-224 | a reply whose ideas and timeline are in enriched form is returned unchanged, whatever the image lookup answers |
| Backend.SampleAlreadyEnriched | backend/main.py:101-120 | the sample is already in enriched form |
| Backend.EnrichItems | backend/main.py:215-218 | the loop that updates items in place gives what `EnrichedItems` specifies |
| Backend.EnrichField | backend/main.py:215-224 | the loop over one top-level field gives what `EnrichedField` specifies |
| Backend.ValidateGenerateRequest | backend/main.py:126-128 | a body is accepted exactly when it is an object whose `query` and `date` are strings, and it yields those two strings |
| Backend.ValidateGenerateRequestDateOptional | backend/main.py:126-128 | with `date` optional, a body is accepted exactly when `query` is a string and any `date` is a string; a missing date becomes ""; it accepts everything the declared validation accepts, with the same result |
| Backend.Generate | backend/main.py:154-226 | given that `json.loads("")` raises: no client or a failed call gives the sample; a missing reply text raises; missing braces or an unparsable object give the sample; otherwise the result is the enriched reply, or a server error when enrichment raises |
| DotEnv.ParseEnvLine | backend/main.py:16-18 | a line is skipped exactly when it has no `=`; otherwise the key holds no `=` and is stripped (the split at the first `=` is stated by `DotEnv.SplitsAtFirstEquals`) |
| DotEnv.SplitsAtFirstEquals | backend/main.py:17 | a line made of a key without `=`, an `=` and a value splits at that `=`: the key is the stripped key and the value is `EnvValue` of the rest |
| DotEnv.LoadedSucceedsIff | backend/main.py:15-18 | the load succeeds exactly when no line raises |
| DotEnv.LoadedPrefixSucceedsIff | backend/main.py:15-18 | loading the first n lines succeeds exactly when none of them raises |
| DotEnv.LastAssignmentWins | backend/main.py:15-18 | after a successful load, each key holds the value of the last line naming it; a key no line names keeps its earlier value |
| DotEnv.LoadedStaysFailed | backend/main.py:15-18 | once a prefix of the lines fails, the whole load fails |
| DotEnv.Environ.LoadDotEnv | backend/main.py:12-18 | the loop reports success exactly when `Loaded` does, and the environment then equals `Loaded`'s result |
| PlansRoute.Post | app/api/plans/route.ts:22-38 | it throws exactly when the body does not parse or the destination cannot be trimmed; it answers 400 with the fixed message exactly when the destination is missing, null or blank; otherwise it answers 200 with the non-empty trimmed destination, the fixed three-day timeline and the fixed notes |
| PlansRoute.PostIgnoresPretrimming | app/api/plans/route.ts:24 | sending a destination already trimmed gives the same answer as sending it untrimmed |
| ChatPage.ResolveApiRoute | frontend/app/page.tsx:12-13 | with no setting, or one that is empty after dropping a trailing slash, the route is `/api/generate`; otherwise it is the setting without one trailing slash, followed by `/generate` |
| ChatPage.BackendErrorMessageStatus | frontend/app/page.tsx:48 | the error message starts with `Backend error: HTTP ` followed by digits that read back to the status |
| ChatPage.Outcome | frontend/app/page.tsx:46-62 | an answer arrives exactly when the status is ok and the body parses to something other than null; a non-ok status fails with the status and the body text; the answer text is the body's `answer` when that is truthy, and the placeholder otherwise; the references are the body's `references` when truthy, and an empty list otherwise; a rejected fetch or an unparsable body fails with that error's message |
| ChatPage.ChatPage.constructor | frontend/app/page.tsx:12-19 | the page starts with an empty message and history, not loading and no error, and its route resolved from the setting |
| ChatPage.ChatPage.CanSubmit | frontend/app/page.tsx:23 | the form may be sent exactly when no request is in flight and the message holds a non-whitespace character |
| ChatPage.ChatPage.EditMessage | frontend/app/page.tsx:97 | typing replaces the message and nothing else |
| ChatPage.ChatPage.BeginSend | frontend/app/page.tsx:29-44 | when the form may not be sent, nothing changes and nothing is sent; otherwise the trimmed message is appended as a user entry and posted as `{query}`, the text area is cleared, loading is set and the error cleared; every user entry stays trimmed and non-blank |
| ChatPage.ChatPage.FinishSend | frontend/app/page.tsx:45-65 | an answer appends exactly one assistant entry; a failure sets the error and leaves the history alone; loading is cleared either way |
| ChatPage.QueryBodyRefusedByBackend | frontend/app/page.tsx:43 | the body the chat page sends is refused by the backend's declared request validation |
| ChatPage.QueryBodyAcceptedWithOptionalDate | backend/main.py:126-128 | with `date` optional, the chat page's body is accepted, with the query intact and an empty date |
| FormPage.HttpErrorMessageStatus | app/page.tsx:25-28 | the error is `Backend error: HTTP ` followed by digits only, and they read back to the status |
| FormPage.GeneratePlans | app/page.tsx:16-31 | a plan is loaded exactly when the status is ok and the body parses, and the plan is the body unchecked; a non-ok status fails with the status alone; a rejected fetch fails with its own message; an ok response whose body does not parse fails with the parser's message |
| FormPage.FormPage.constructor | app/page.tsx:34-37 | the page starts with "Lisbon, Portugal", no plan, no error and not loading |
| FormPage.FormPage.EditDestination | app/page.tsx:66 | typing replaces the destination and nothing else |
| FormPage.FormPage.BeginSubmit | app/page.tsx:39-45 | with no guard, the submit sets loading, clears the error, keeps the plan on screen and posts the trimmed destination to `/api/plans` |
| FormPage.FormPage.FinishSubmit | app/page.tsx:44-52 | a plan replaces the previous one; a failure clears the plan and shows the message; loading is cleared either way |
| FormPage.BlankDestinationShows400 | app/page.tsx:45 | a destination that trims to empty is refused by the demo route with 400, and a 400 answer shows `Backend error: HTTP 400` |
| FormPage.FilledDestinationGetsDemoPlan | app/page.tsx:45 | any other destination comes back as the demo plan for the trimmed destination |
| CalendarPicker.FormatLabel | frontend/app/components/CalendarPicker.tsx:18-35 | the label is the placeholder without a value or without a range start, the date for a single date, both dates around an em dash for a complete range, and the start followed by an arrow and an ellipsis for an open range |
| CalendarPicker.PlaceholderIffNothingPicked | frontend/app/components/CalendarPicker.tsx:18-35 | when no date renders as the placeholder, the placeholder is shown exactly when nothing has been picked |
| CalendarPicker.Picker.constructor | frontend/app/components/CalendarPicker.tsx:16 | the drop-down starts closed |
| CalendarPicker.Picker.Toggle | frontend/app/components/CalendarPicker.tsx:42 | the button flips the drop-down |
| CalendarPicker.Picker.CalendarChanged | frontend/app/components/CalendarPicker.tsx:56-61 | the new value is passed to the parent unchanged; the drop-down closes exactly when both ends of a range are chosen, and otherwise stays as it was |

## Definitions

Functions that define source behaviour and are characterised by the members named beside them.

| definition | source | properties stated by |
|---|---|---|
| Text.Replace | backend/main.py:94 | `Text.ReplaceCharAt`, `Text.ReplaceAbsent`, `Backend.FenceRemovalLeavesNone`, `Backend.MakeMapLink` |
| Backend.Iterable | backend/main.py:215 | `Backend.EnrichedField`, `Backend.EnrichedData` |
| JsonValue.Property | frontend/app/page.tsx:56-57 | `ChatPage.Outcome`, `PlansRoute.Post` |
| DotEnv.EnvValue | backend/main.py:18 | `DotEnv.SplitsAtFirstEquals` |
| DotEnv.Settable | backend/main.py:18 | `DotEnv.LoadedSucceedsIff` |
| DotEnv.Loaded | backend/main.py:15-18 | `DotEnv.LoadedSucceedsIff`, `DotEnv.LastAssignmentWins`, `DotEnv.LoadedStaysFailed`, `DotEnv.Environ.LoadDotEnv` |
| PlansRoute.ReadDestination | app/api/plans/route.ts:23-24 | `PlansRoute.Post`, `PlansRoute.PostIgnoresPretrimming` |
| ChatPage.BackendErrorMessage | frontend/app/page.tsx:48 | `ChatPage.BackendErrorMessageStatus`, `ChatPage.Outcome` |
| FormPage.HttpErrorMessage | app/page.tsx:27 | `FormPage.HttpErrorMessageStatus`, `FormPage.GeneratePlans` |

## Left out

- FastAPI's `response_model` check of what `generate` returns is not modelled. That check removes unknown fields and turns a reply without `ideas` or `timeline` into a server error. `Generate` stops at the value the handler returns.
- FastAPI's request parsing is not modelled. Only the field check of `GenerateRequest` is, as `ValidateGenerateRequest`.
- `fetch_google_image` is modelled as a function of the title: the same title always gets the same answer. A second search after a failed first one can answer differently, and `Backend.EnrichedItemIdempotent` holds only for equal answers.
- The Gemini client and its prompt text are not modelled. Neither are `fetch_google_image` (an HTTP call to the Custom Search API), `json.loads` or logging. They are inputs, or are dropped.
- The CORS middleware, the app object and the client set-up from environment variables are configuration and are not modelled.
- The Next.js proxy route `frontend/app/api/generate/route.ts` is not part of this model.
- Layouts, `ChatMessage`, styling and the rendering of both pages are not modelled.
- React's asynchrony is not modelled. Each submit is two steps, and a late answer from an earlier request is not interleaved.
- `Date` and `toDateString` are abstract. No calendar arithmetic is modelled.
- Whitespace is the exact set of characters each language strips. Strings are sequences of Unicode characters, with no encoding or surrogate pairs.
- JSON numbers are reals, and Python's distinction between `int` and `float` is not kept.
- DotEnv.Environ.LoadDotEnv: when an assignment raises, the environment already holds the earlier assignments. The model leaves it unspecified, because the import then aborts and nothing reads it. Reading the file is replaced by the list of its lines.
- ChatPage.Outcome: for a body that is JSON `null`, the message is the one V8 prints for the property read. Other engines word it differently.
- FormPage.SubmitEnabled states no property of its own. It is the `disabled={isLoading}` flag, and the browser's `required` check is not modelled.

## Findings

| source | as written | input that shows it | evidently intended | confidence | as-written member | corrected member |
|---|---|---|---|---|---|---|
| backend/main.py:126-128 | `GenerateRequest` requires `date`, but the chat page (frontend/app/page.tsx:43) sends only `{query}`, so every chat message gets HTTP 422 before `generate` runs | the body `{"query": "Lisbon"}` | a query without a date is accepted, with an empty date | medium, not executed | ChatPage.QueryBodyRefusedByBackend | ChatPage.QueryBodyAcceptedWithOptionalDate |

# Emotional assistant — a Dafny model of its chat proxy, client state and offline cache

The system is a browser chat widget for an "emotional assistant". The page
(`script.js`) sends the user's text to a generative-language service and shows
the reply after stripping its markdown. A small Express server (`server.js`)
offers `POST /api/chat`. It keeps a bounded, sanitised window of the
conversation, renders the prompt, calls the service and extracts a JSON
`{text, emotion}` object from the reply. It falls back to the plain
reply text with the emotion `neutre`. A service worker (`sw.js`) caches the
static assets: cache-first for pages and files, network-first for `/api/`
calls, with a 503 `{"error":"offline"}` answer when both network and cache fail.

The model has five modules, one file each:

- `wrappers.dfy` — `Wrappers.Option`.
- `js_string.dfy` — `JsString`: the JavaScript string operations the code
  relies on. These are `trim()` over the ECMAScript white-space and
  line-terminator set, removal of U+0000–U+001F and U+007F, `indexOf`,
  `lastIndexOf`, `slice` and `join`, and `split` as a reference definition
  that the code itself never calls.
- `server.dfy` — `Server`: `sanitizeText`, `extractJsonObject`, `buildPrompt`
  and the `/api/chat` handler, as pure functions. The generation service and
  `JSON.parse` are function parameters.
- `client.dfy` — `Client`: `cleanMarkdown` as pure functions, and the
  `AssistantEmotionnel` object as the class `Assistant`. Its fields are the
  conversation history, the theme, the rate-limit timestamp and the rendered
  chat messages. Its methods change those fields.
- `service_worker.dfy` — `ServiceWorker`: the routing decision as a function,
  and the class `CacheStore`. Its fields are the cache names in creation order
  and a map from cache name to a map from request URL to response. Its
  methods model `cacheFirst`, `networkFirst`, `install` and `activate`. The
  network is an input: the outcome each fetch would have.

## Model

| member | source | states |
|---|---|---|
| JsString.Trim | server.js:43 | the result has no white space at either end, and it is the input with only white space cut from its two ends (a slice of the input with nothing but white space before and after it) |
| JsString.TrimIdempotent | script.js:251 | trimming a trimmed text changes nothing |
| JsString.TrimKeepsText | script.js:251 | trimming removes white space only: with white space (and any other chosen characters) dropped, the input and the result hold the same characters in the same order |
| JsString.StripControl | server.js:43 | exactly the characters that are not control characters are kept, in order; no control character is left; a text without control characters is unchanged |
| JsString.IndexOf | server.js:48 | -1 exactly when the character is absent, otherwise the position of its first occurrence |
| JsString.LastIndexOf | server.js:49 | -1 exactly when the character is absent, otherwise the position of its last occurrence |
| JsString.Take | server.js:122 | `slice(0, n)`: the first min(n, length) characters of the input |
| JsString.LastN | server.js:121 | `slice(-n)`: the last min(n, length) elements, in order |
| JsString.Join | server.js:72 | the joined text holds the separator exactly when there are at least two parts or some part holds it |
| JsString.Split | server.js:72 | there is always at least one piece, and no piece holds the separator |
| JsString.SplitJoin | server.js:72 | splitting a join of separator-free parts gives back exactly the parts |
| JsString.JoinSplit | server.js:72 | joining the pieces of a split gives back the text |
| Server.Sanitize | server.js:41-44 | the result holds no control character and no surrounding white space. It is what is left of the input without its control characters, with only white space cut from the two ends. It is no longer than the input, and equals the input when that is already clean |
| Server.SanitizeKeepsText | server.js:41-44 | with control characters and white space dropped, the input and the sanitised text hold the same characters in the same order |
| Server.SanitizeValue | server.js:41-44 | a non-string sanitises to the empty string; a string to its sanitised form, a clean text no longer than it |
| Server.SanitizeIdempotent | server.js:41-44 | sanitising twice equals sanitising once |
| Server.ExtractCandidate | server.js:46-51 | no candidate exactly when no `{` precedes a `}`; otherwise the slice from the first `{` to the last `}` |
| Server.ExtractJsonObject | server.js:46-57 | null without a candidate; otherwise whatever parsing the candidate yields |
| Server.WellFormedTurns | server.js:118-120 | a single entry gives its turn exactly when it has role `user` or `assistant` and a string text, and nothing otherwise. Every turn comes from a well-formed entry with the same role and text. None survive exactly when no entry is well formed |
| Server.WellFormedTurnsAppend | server.js:120 | the filter works entry by entry: it distributes over concatenation, so with the single-entry case it fixes the result for every list |
| Server.IncomingTurns | server.js:117-120 | a body without a `messages` array gives no turns; an array gives exactly its well-formed turns |
| Server.SafeTurn | server.js:122 | the role is kept; the text is the first min(2000, length) characters of the sanitised text and has no control character |
| Server.SafeMessages | server.js:117-122 | the last min(14, n) well-formed turns, in order, each made safe; empty exactly when no entry is well formed; a non-array body gives none |
| Server.RoleLabel | server.js:71 | `Assistant` exactly for role `assistant`, `Utilisateur` for every other role |
| Server.TranscriptLine | server.js:71 | the line is the role label, `: `, then the sanitised text, and it never holds a newline |
| Server.TranscriptLines | server.js:69-72 | one line per turn of the last min(12, n), in order |
| Server.Transcript | server.js:69-72 | no turns give the empty history; otherwise the history splits back into exactly one line per rendered turn, so no message can forge or merge transcript lines |
| Server.BuildPrompt | server.js:59-75 | the prompt starts with the persona and the history heading, ends with a blank line and the output-format instruction, and holds the history between them |
| Server.PromptLayout | server.js:59-75 | between the fixed head and tail, the prompt has one line per turn of the last min(12, n), in order, each starting with its role label and `: ` and ending with the turn's sanitised text |
| Server.ChooseReply | server.js:132-142 | the reply always carries an allowed emotion. A parsed string `text` is sanitised and kept. Its `emotion` is kept only when allowed. Any emotion other than `neutre` comes from the parsed object. Without a parsed text the emotion is `neutre` and the text is the sanitised raw reply, or the fallback when that is empty |
| Server.HandleChat | server.js:117-142 | 400 `Invalid messages` exactly when no safe message remains, and then the service is not called. Otherwise the prompt over the safe messages is sent. A service failure gives 500 `Service indisponible`. A completion gives the chosen reply |
| Server.PlainTextReply | server.js:130-141 | a reply without braces comes back unchanged with the emotion `neutre` |
| Client.StripHeadings | script.js:248 | no `#` is left; a text without `#` is unchanged (HeadingRun and StripHeadingsOther say which characters go) |
| Client.HeadingRun | script.js:248 | a run of one to six `#` (or the first six of a longer run) is removed together with the one white-space character right after it, if any, and nothing else there is removed |
| Client.StripHeadingsOther | script.js:248 | a character other than `#` is kept, and the rest of the text is stripped on its own |
| Client.StripHeadingsKeeps | script.js:248 | only `#` and white space are removed: with those dropped, the input and the result hold the same characters in the same order |
| Client.StripBold | script.js:249 | no `**` is left; a text without `**` is unchanged; no `#` is introduced (StarRun and StripBoldOther say which stars go) |
| Client.StarRun | script.js:249 | a run of k stars keeps k mod 2 of them (stars go in pairs, left to right) and the rest of the text is stripped on its own |
| Client.StripBoldOther | script.js:249 | a character other than a star is kept, and the rest of the text is stripped on its own |
| Client.StripBoldKeeps | script.js:249 | only stars are removed: with stars dropped, the input and the result hold the same characters in the same order |
| Client.CollapseNewlines | script.js:250 | the first character is kept and the text does not grow (CollapseRun and CollapseOther say what each run becomes) |
| Client.CollapseRun | script.js:250 | a run of three or more newlines becomes exactly two; a run of one or two stays as it is |
| Client.CollapseOther | script.js:250 | a character other than a newline is kept, and the rest of the text is collapsed on its own |
| Client.CollapseNewlinesKeeps | script.js:250 | only newlines are removed: with newlines dropped, the input and the result hold the same characters in the same order |
| Client.CollapseNoTriple | script.js:250 | no run of three newlines is left |
| Client.CollapseFixes | script.js:250 | a text without three consecutive newlines is unchanged |
| Client.CollapseKeeps | script.js:250 | collapsing introduces neither `#` nor `**` |
| Client.TrimKeeps | script.js:251 | trimming introduces no `#`, `**` or run of three newlines |
| Client.CleanMarkdown | script.js:246-252 | the cleaned reply holds no `#`, no `**`, no run of three newlines and no surrounding white space; with `#`, `*` and white space dropped, it holds the same characters as the raw reply, in the same order |
| Client.CleanMarkdownOnPlain | script.js:246-252 | a reply without `#`, `**` or three newlines in a row is only trimmed, so its inner white space and single stars stay |
| Client.CleanMarkdownIdempotent | script.js:246-252 | cleaning a cleaned reply changes nothing |
| Client.CharCountColour | script.js:98-109 | as written: warning exactly above 800 characters, muted otherwise, danger never |
| Client.DangerUnreachable | script.js:102-108 | 950 characters get the warning colour; no count gets the danger colour |
| Client.IntendedCharCountColour | script.js:102-108 | danger exactly above 900, warning exactly from 801 to 900, muted up to 800 |
| Client.Saved | script.js:408-423 | the new exchange comes first, followed by the previous history in order, cut to min(n + 1, 50) entries |
| Client.Toggled | script.js:311-312 | `dark` exactly from `light`, `light` from every other theme |
| Client.ToggleTwice | script.js:311-312 | toggling twice restores `light` or `dark`; any other theme ends `dark` |
| Client.FirstBotLine | script.js:435 | none exactly when every rendered message is the user's; otherwise the first assistant message |
| Client.GeneratedReply | script.js:193-220 | a reply exactly when the generation call succeeded; then it is the cleaned raw reply, which is clean and, with `#`, `*` and white space dropped, holds the raw reply's characters in order |
| Client.Assistant.constructor | script.js:4-9 | empty history, light theme, timestamp 0, the welcome message as the only rendered message |
| Client.Assistant.SaveConversation | script.js:408-423 | the history becomes the saved history and never exceeds 50 entries |
| Client.Assistant.HandleUserInput | script.js:120-166 | blank input after trimming changes nothing. Otherwise the trimmed message goes through the send rules with the cleaned reply. An answered message ends the chat with a clean reply |
| Client.Assistant.SendMessage | script.js:126-165 | within 1000 ms of the last message, or over the length limit, nothing changes. Otherwise the timestamp is set. The user message and then the reply are shown, and the exchange is saved. When the reply fails, the apology is shown and the history is kept |
| Client.Assistant.ClearChat | script.js:432-445 | declined: nothing changes. Confirmed: only the first assistant message stays and the history is emptied. With no assistant message the panel is emptied, the call fails and the history stays |
| Client.Assistant.ToggleTheme | script.js:311-315 | the theme becomes the toggled theme |
| ServiceWorker.Route | sw.js:28-39 | `/api/` paths are network-first for any method; other GET requests are cache-first; the rest are not intercepted |
| ServiceWorker.MatchIn | sw.js:42 | a match found is the entry for the URL in one of the listed caches |
| ServiceWorker.MatchInFirst | sw.js:42 | the match fails exactly when no cache holds the URL; otherwise it returns the entry of the first cache, in creation order, that holds it |
| ServiceWorker.MatchAfterStore | sw.js:44-46 | after a put into an existing cache for a URL nothing held, the match returns what was put |
| ServiceWorker.MatchAfterCreate | sw.js:45-46 | after a put into a newly created cache for a URL nothing held, the match returns what was put |
| ServiceWorker.MatchOtherUrl | sw.js:46 | a put for one URL into an existing cache leaves the match of every other URL unchanged |
| ServiceWorker.MatchOtherUrlCreate | sw.js:45-46 | a put for one URL into a newly created cache, listed last, leaves the match of every other URL unchanged |
| ServiceWorker.AssetEntries | sw.js:2-10 | every fetched asset URL maps to its fetched response, and every key is an asset URL under the origin that was fetched |
| ServiceWorker.CacheStore.Match | sw.js:42 | a match found is the entry for the URL in one of the store's caches |
| ServiceWorker.CacheStore.Put | sw.js:45-46 | the URL now maps to the response in the named cache, which is created last in order if it was new. A URL nothing held now matches the response, and every other URL matches as before |
| ServiceWorker.CacheStore.PutIntoNew | sw.js:45-46 | the branch of a put that creates the cache: it is appended to the order and holds just the new entry |
| ServiceWorker.CacheStore.PutIntoExisting | sw.js:46 | the branch of a put into an existing cache: only that cache's entry for the URL changes |
| ServiceWorker.CacheStore.CacheFirstFetch | sw.js:41-48 | a hit returns the cached response without the network and changes nothing. A miss asks the network: a response is returned and stored in the current cache; a failure rejects and changes nothing. A returned response is what the store now matches |
| ServiceWorker.CacheStore.CacheFirstTwice | sw.js:41-48 | once a request has been answered, the same request is answered again without the network, with the same response |
| ServiceWorker.CacheStore.NetworkFirstFetch | sw.js:50-61 | a network response, whatever its status, is returned and stored in the current cache. On failure the store is unchanged and the cached entry is returned, or 503 `{"error":"offline"}` when there is none |
| ServiceWorker.CacheStore.HandleFetch | sw.js:28-61 | requests that are not intercepted change nothing and use no network. `/api/` requests use the network: a response is returned and stored in the current cache; on failure the cached entry or the 503 answer is returned and the store is unchanged. Other GET requests are served from the cache on a hit, unchanged and without the network; on a miss a response is returned and stored, and a network failure rejects and changes nothing |
| ServiceWorker.CacheStore.Install | sw.js:12-17 | the current cache exists afterwards. The assets are stored exactly when every asset fetch succeeds with a status from 200 to 299, and then each asset URL maps to its response. Otherwise no entry is added |
| ServiceWorker.CacheStore.Activate | sw.js:19-26 | only the current cache is left, with unchanged contents, so a match sees that cache alone |

## Left out

- String lengths: Dafny strings are sequences of Unicode scalar values, while JavaScript counts UTF-16 code units. The 2000-character cut, the message-length limit and the character counter therefore differ for characters outside the Basic Multilingual Plane. A cut through a surrogate pair cannot be expressed.
- The call to the generation service (`callGemini` on the server, the HTTP part of `generateResponse` on the page) is a parameter. The outcome is the reply text or a failure.
  - On the server (server.js:78-100), a missing API key, a network failure and a non-success status are failures, which give 500.
  - A missing `candidates[0]...text` path is not a failure on the server: `|| ''` makes it the empty reply text `Completion("")`, which gives the fallback text with status 200. Only the page (script.js:219) throws in that case, which is the `None` reply of `HandleUserInput`.
  - A truthy `text` that is not a string (server.js:99) is also modelled as `Completion("")`. The handler reaches the same reply for it: the type guard of `extractJsonObject` (server.js:47) returns null, and `sanitizeText` (server.js:42) gives `''`, so the reply is the fallback text with the emotion `neutre`.
- `JSON.parse` is the parameter `parse`. Its exception, caught in `extractJsonObject`, is the parameter returning `None`. The parsed object is seen only through its `text` and `emotion` fields, each present exactly when it is a string.
- Server.ExtractJsonObject: the `typeof text !== 'string'` guard (server.js:47) is not modelled. The reply text is always a string in the model: a non-string reply is modelled as `Completion("")`, which reaches the same reply.
- The HTTP layer of the server is not modelled: body parsing, `helmet`, `compression`, static files, the rate limit of 30 requests per minute, response headers and `listen`. A body whose `messages` is not an array is the `None` input. An array element that is not an object reads as an entry whose fields are not strings.
- `appendLog` is not modelled: it writes a file only when logging is enabled and swallows its errors, so it changes no reply.
- Clocks are parameters: `now` for the rate gate and `savedAt` for the saved timestamp.
- The page's rendering is not modelled: DOM elements, notifications, the typing indicator, disabled buttons, clearing the input box, speech, the PWA prompt, the sidebar, export, the settings dialog and the character-count text. The chat panel is the sequence of rendered messages with their sender.
- Persistence is not modelled: `localStorage` writes and reads, `loadSettings`, `saveSettings` and `loadConversationHistory`. The model starts from the empty history the constructor sets.
- Client.Assistant.SaveConversation: a `localStorage` quota error would make `handleUserInput` show the apology after the reply. That failure is not modelled.
- Client.Assistant.HandleUserInput: the model runs a send as one atomic step. In the page, `await this.generateResponse` (script.js:153) yields while only the send button, the input box and the voice button are disabled (script.js:175-178). `clearChat` and `toggleTheme` can therefore run between the user message and the reply. The reply is then appended after the kept welcome message and saved into the emptied history. Those interleavings are not modelled.
- JsString.Split: the code never calls `split`. `Split` is a reference definition, used only to state that the transcript splits back into its lines.
- `changeTheme` and `applyTheme` are not modelled; only `toggleTheme`'s change of `currentTheme` is.
- Client.Assistant.constructor: `isTyping` is never read by the core and is not modelled. The welcome message is a parameter because it comes from the page's HTML.
- The un-awaited `cache.put` is not modelled: the model stores the entry before the response is returned.
- The browser's refusal to store the answer to a non-GET request is not modelled. Nor are the refusal of 206 responses or the method check of `caches.match`. Entries are keyed by URL alone.
- `skipWaiting`, `clients.claim`, `waitUntil` and the failure of installation when `addAll` rejects are lifecycle details. Install reports the failure as `ok == false`.
- `activate` deletes the stale caches in parallel with `Promise.all`. The model deletes them in one step.

## Findings

| source | as written | input that shows it | evidently intended | confidence | as-written member | corrected member |
|---|---|---|---|---|---|---|
| script.js:102-108 | `count > 800` is tested before `count > 900`, so the danger colour can never be chosen | a count of 950 characters gets the warning colour | danger above 900, warning from 801 to 900, muted otherwise | high; not executed | Client.DangerUnreachable | Client.IntendedCharCountColour |

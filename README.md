# Ebo Search: a Dafny model of the query gateway and the session state

Ebo Search is a browser chat UI. A prompt goes to an external search-augmented
generation API. The answer text and its cited web sources are shown, and the
first cited source opens in an embedded viewer. Two pieces of logic are
modelled and proved here.

- **The query gateway** (`Gateway`, in `gateway.dfy`) covers three things:
  - Constructing the service fails when no API key is configured.
  - Every failure of the external call collapses into one generic error.
  - The grounding citations of a response are normalised. Each chunk is
    projected to its `web` field. Entries without a web field, or with an
    empty URI or title, are dropped. Later entries whose URI already occurred
    are then dropped too. This dedup is written as the source writes it: a
    filter that keeps position `index` exactly when `index == findIndex(uri)`.
    It is proved equal to an independent one-pass "seen set" dedup
    (`DedupSeen`). The properties of the returned sources are proved through
    that reference.
  - Pure functions and lemmas. The external call is a parameter
    (`CallOutcome`): `Responded(response)` or `Threw`.
- **The session** (`App.Session`, in `app.dfy`) is a class with the three
  state cells of the root component: `messages`, `currentUrl` and
  `isLoading`. A ghost counter, `turns`, counts accepted prompts.
  - The send handler is split at its one `await` into `Submit` and `Settle`.
    `SendMessage` runs them in sequence around `Gateway.RunQuery`.
  - `SourceClick` and `SetCurrentUrl` change only the address.
  - `ShowWelcome` is the derived welcome-screen flag.
  - The invariant `Valid()` says two things. Each accepted prompt adds exactly
    two turns for good. While a query is in flight, the last turn is the
    "Thinking..." placeholder.
- **The panel input guards** (`Panels`, in `panels.dfy`) test the trimmed
  prompt and submit it as typed. The root handler does not trim at all. The
  address bar likewise tests the trimmed address and sends it as typed.
- `types.dfy` holds the records of `types.ts`. `constants.dfy` holds the
  initial conversation. `scenarios.dfy` holds client scenarios, proved from
  the contracts alone:
  - a prompt whose answer cites `https://a.com` twice, with titles "A" and
    "A-dup": the reply keeps only the first, and the viewer moves to it;
  - a prompt whose query throws: the reply is the fixed error text, with no
    sources, and the address stays `about:blank`;
  - a source click while a query is pending: the address changes and the
    loading flag stays up.
- A `Gateway.Service` can only hold a non-empty credential (a subset type),
  so a session is always built around a service whose construction succeeded.

Notes on the code:

- The send handler raises `isLoading` before it appends the two turns. Both
  steps happen in one atomic `Submit` here, so their order does not show.
- `currentUrl` is typed `string | null` but is never set to null. It is a
  `string` here.
- The gateway drops citations with an empty title. So the viewer's fallback
  to the host name never applies to gateway output.

## Model

| member | source | states |
|---|---|---|
| Gateway.NewService | services/geminiService.ts:15-20 | construction succeeds iff an API key is configured and non-empty; otherwise it fails with the missing-key error, before any query |
| Gateway.RunQuery | services/geminiService.ts:22-46 | fails iff the external call threw, and then only with the single generic error and no partial data; on a response returns its text and the normalised sources, all with non-empty URI and title and pairwise distinct URIs |
| Gateway.GroundingChunks | services/geminiService.ts:33 | when the first candidate's grounding metadata holds a chunk list, exactly that list is returned; a non-empty result can come from nowhere else |
| Gateway.Webs | services/geminiService.ts:36 | the projection has one entry per chunk, each that chunk's `web` field |
| Gateway.IsCitable | services/geminiService.ts:37 | the validity test `!!web && !!web.uri && !!web.title`; its effect on the pipeline is stated by Gateway.KeepCitableOne and Gateway.SourcesCitable |
| Gateway.KeepCitable | services/geminiService.ts:37 | a source is kept iff it occurs as a present web entry with non-empty URI and title; never longer than the input |
| Gateway.KeepCitableOne | services/geminiService.ts:37 | on one entry the filter keeps it, unwrapped, iff it is present with non-empty URI and title |
| Gateway.KeepCitableAppend | services/geminiService.ts:37 | the filter distributes over concatenation; with KeepCitableOne this fixes it on every list, keeping order and repeated entries |
| Gateway.FindIndex | services/geminiService.ts:39 | returns the first position holding the URI, or -1 iff no position holds it |
| Gateway.Dedup | services/geminiService.ts:38-40 | the `index === self.findIndex(...)` filter on a whole list; Gateway.DedupIsDedupSeen proves it is stable first-occurrence deduplication |
| Gateway.DedupFrom | services/geminiService.ts:38-40 | the same filter from a given index on; its lemma DedupFromIsDedupSeen equates it with the seen-set dedup started with the URIs before that index |
| Gateway.ValidEntries | services/geminiService.ts:36-37 | the entries that survive the first filter: a source is among them iff it is the `web` of some input chunk and has non-empty URI and title; never more than the chunks |
| Gateway.Sources | services/geminiService.ts:35-40 | the returned source list; what it means is stated by Gateway.SourcesCitable, SourcesUnique, SourcesOrdered, SourcesFirstOccurrence, SourcesComplete, InvalidEntryIgnored and SourcesIdempotent |
| Gateway.DedupIsDedupSeen | services/geminiService.ts:38-40 | the filter that keeps an entry iff its index equals findIndex of its URI is exactly stable first-occurrence deduplication |
| Gateway.SourcesCitable | services/geminiService.ts:36-37 | every returned source has non-empty URI and title and is the `web` of some input chunk; chunks without `web` contribute nothing |
| Gateway.SourcesUnique | services/geminiService.ts:38-39 | no two returned sources share a URI |
| Gateway.SourcesOrdered | services/geminiService.ts:35-40 | the returned sources are a subsequence of the valid entries, in their original relative order |
| Gateway.SourcesFirstOccurrence | services/geminiService.ts:37-39 | every returned source is the first valid entry with its URI (title included), and every such first entry is returned |
| Gateway.SourcesComplete | services/geminiService.ts:37-39 | the set of returned URIs equals the set of URIs of the valid entries |
| Gateway.NoChunksNoSources | services/geminiService.ts:33 | a response with no candidates, no first candidate, no metadata or no chunk list yields no chunks and no sources |
| Gateway.InvalidEntryIgnored | services/geminiService.ts:35-40 | an entry that fails validation, wherever it stands, does not change the result: an invalid earlier entry never suppresses a later valid one with the same URI |
| Gateway.SourcesIdempotent | services/geminiService.ts:35-40 | normalising an already normalised source list returns it unchanged |
| App.DropLast | App.tsx:28 | `slice(0, -1)`: the result plus the old last element is the input; the empty list stays empty |
| App.Accepts | App.tsx:16 | the handler's guard: prompt non-empty and nothing loading, the opposite of its early-return test; App.Session.Submit proves it decides acceptance, and Panels.PanelGuardRefinesHandlerGuard shows that a prompt of spaces passes it |
| App.Session.constructor | App.tsx:10-12 | initially the messages are the initial messages, the address is `about:blank`, and nothing is loading |
| App.Session.ShowWelcome | App.tsx:56 | the welcome screen shows exactly until the first prompt is accepted |
| App.Session.Submit | App.tsx:15-22 | an empty prompt, or any prompt while loading, changes nothing; otherwise exactly the user turn and then the thinking placeholder are appended and loading is set |
| App.Session.Settle | App.tsx:24-38 | only the last turn is replaced and the length is kept; on success it becomes the AI turn with the result's text and sources, and the address moves to the first source if there is one; on failure it becomes the fixed error text with no sources and the address is kept; afterwards nothing is loading |
| App.Session.SendMessage | App.tsx:15-39 | an accepted prompt ends with the user turn and the reply (answer with deduplicated sources, or the error turn) appended, loading cleared, and the address on the first deduplicated source when there is one; a rejected prompt changes nothing |
| App.Session.InitialPrompt | App.tsx:45-47 | a welcome-screen prompt behaves as the send handler: a rejected prompt changes nothing; an accepted one appends the user turn and the reply (answer with deduplicated sources, or the error turn), clears loading, moves the address to the first deduplicated source when there is one, and hides the welcome screen |
| App.Session.SetCurrentUrl | App.tsx:55 | the address becomes exactly the given string; messages and the loading flag are unchanged |
| App.Session.SourceClick | App.tsx:41-43 | the address becomes exactly the clicked URI, whatever the loading state; messages and the loading flag are unchanged |
| Panels.TrimsToNonEmpty | components/RightPanel.tsx:65 | `s.trim()` is non-empty: some character is not one that `trim` removes (also the test at components/MainContent.tsx:34 and :42); Panels.ChatSubmit, SearchSubmit and AddressSubmit state its effect |
| Panels.PanelAccepts | components/RightPanel.tsx:65 | the chat panel's guard: trimmed prompt non-empty and nothing loading; Panels.PanelGuardRefinesHandlerGuard relates it to the handler's guard |
| Panels.PanelGuardRefinesHandlerGuard | components/RightPanel.tsx:65 | what the panel's trimmed guard accepts, the handler's guard accepts; a prompt of spaces passes the handler's guard but not the panel's |
| Panels.ChatSubmit | components/RightPanel.tsx:63-69 | the prompt is sent, untrimmed, iff it trims to non-empty and nothing is loading, and then the session ends as after the send handler: the user turn and the reply (answer with deduplicated sources, or the error turn) appended, loading cleared, the address on the first deduplicated source when there is one; otherwise the session is unchanged |
| Panels.SearchSubmit | components/MainContent.tsx:32-38 | the welcome search sends only prompts that trim to non-empty; while loading, the handler then rejects it and the session is unchanged; a sent prompt ends as after the send handler: user turn and reply appended, loading cleared, the address on the first deduplicated source when there is one |
| Panels.AddressSubmit | components/MainContent.tsx:40-45 | an address that trims to non-empty becomes the current address as typed, untrimmed; otherwise nothing changes |

## Left out

- The external generate call is not modelled: the client, the model name and the search-tool configuration (services/geminiService.ts:24-30). Its result is the `CallOutcome` parameter.
- A malformed response is not modelled: for example a `null` chunk makes `chunk.web` throw inside the `try` (services/geminiService.ts:36), which the handler then turns into the generic error. `Response` values here are always well formed; such a response counts as the outcome `Threw`.
- The `process.env` lookup is not modelled. The configured key is the parameter of `Gateway.NewService`. The `console.error` logging is left out too.
- Asynchrony is not modelled. `Submit` and `Settle` are atomic sequential steps. The model does not capture the stale `isLoading` captured by `useCallback`, batched state updates, or interleaving with other events. A call that never settles corresponds to `Settle` never being called.
- Rendering, styling, auto-scroll, the iframe sandbox and referrer policy, and the host-name title fallback in the chat panel are presentation only. The fallback is also unreachable for gateway output.
- `DEEP_ACTION_PROMPTS` is not modelled. It is a list of static prompt strings with no behaviour.
- Characters are Unicode scalar values, while JavaScript strings are UTF-16 code units. All the characters `trim` removes are in the Basic Multilingual Plane, so the guard agrees on them.

# Personality rewrite in assessment-workbench, modelled in Dafny

The assessment workbench can rewrite an assistant's answer in a chosen
personality. A personality is a profile of five trait intensities:
vibrancy, conscientiousness, civility, artificiality and neuroticism. This
project models the four pieces of code that implement the rewrite and
proves properties of the model.

- **The personality engine** (`api/utils/personalityEngine.js`), module
  `PersonalityEngine`.
  - `buildPersonalityPrompt` fills a fixed prompt template with a chain of
    first-occurrence `String.prototype.replace` calls.
  - `transformResponse` sends that prompt to a completion service. It
    returns the trimmed first choice, or the original text if anything
    fails.
  - `getPersonalities` and `getPersonality` read the profile store.
- **The personality routes** (`api/server/routes/personality.js`), module
  `PersonalityRoutes`. `/profiles`, `/transform` and `/intercept` are pure
  functions from a request body and the collaborators' answers to a reply
  (status and body), the history queries made and the transform calls made.
- **Payload construction on the client**
  (`packages/data-provider/src/createPayload.ts`), module `CreatePayload`.
  It covers server selection and the order in which payload fields override
  each other.
- **The agent chat controller** (`api/server/controllers/agents/request.js`).
  - Module `AgentRequest` states every routine as a function on the
    request's state:
    - the closure variables;
    - the abort flags;
    - the cleanup-handler list;
    - the client;
    - the request-data map entry;
    - a trace of the events others can see.
  - Module `AgentSession` holds the same routines as methods of a `Session`
    class that update those fields in place. Each method is proved to end
    in the state the corresponding function computes.
  - Module `ControllerEngine` plugs the engine into the controller as its
    rewrite.

JavaScript's own semantics live in module `Js`: values, truthiness, `||`,
`??`, property reads that throw on `undefined`/`null`, spreads, number to
string conversion, `trim`, `join` and `reverse`. `String.prototype.replace`
with a string pattern lives in module `StringReplace`, including the `$`
patterns of the replacement string.

Collaborators the model cannot see are inputs:
- the completion service;
- `getMessages`;
- `initializeClient`;
- the client's `sendMessage`;
- the database promise;
- `saveMessage`;
- `addTitle`;
- whether the connection closed before the abort check.

The controller's trace records the calls to `sendEvent`, `res.end`,
`saveMessage`, `handleAbortError`, `cleanupAbortController`,
`disposeClient`, `addTitle` and the rewrite.

Two facts about the controller that the model follows:
- The cleanup never marks the request completed (`request.js:81-123`).
- `'New Chat'` is never chosen at `request.js:216-217`, because the
  conversation is always an object there (`NormalizeTitle`).

## Model

| member | source | states |
|---|---|---|
| Js.Or | api/server/controllers/agents/request.js:17 | `a \|\| b` is `a` when `a` is truthy and `b` otherwise |
| Js.Coalesce | packages/data-provider/src/createPayload.ts:32 | `a ?? b` is `b` exactly when `a` is `undefined` or `null` |
| Js.Prop | api/server/controllers/agents/request.js:63 | reading a property of `undefined`/`null` throws; an object gives the field or `undefined` |
| Js.Spread | packages/data-provider/src/createPayload.ts:36-47 | spreading an object copies its fields; spreading `undefined`, `null`, a boolean or a number adds nothing |
| Js.DecimalRoundTrip | api/utils/personalityEngine.js:91-95 | the decimal text an integer intensity is converted to reads back as that integer |
| Js.DecimalInjective | api/utils/personalityEngine.js:91-95 | different intensities give different texts |
| Js.TrimIsCore | api/utils/personalityEngine.js:137 | `trim` returns a slice of the input that drops only whitespace and neither starts nor ends with whitespace |
| Js.TrimIdempotent | api/utils/personalityEngine.js:137 | trimming twice is trimming once |
| Js.Reverse | api/server/routes/personality.js:50 | `reverse` puts element `i` at position `n-1-i` |
| Js.Join | api/server/routes/personality.js:52 | joining no parts gives `""`, and joining one part gives that part |
| Js.JoinAppend | api/server/routes/personality.js:52 | joining one more part appends the separator and that part |
| StringReplace.IndexOfSpec | api/utils/personalityEngine.js:84-107 | the index found is the first place the pattern occurs; none found means it occurs nowhere |
| StringReplace.FirstMatch | api/utils/personalityEngine.js:84-107 | a match with no earlier match is the index `replace` uses |
| StringReplace.Expand | api/utils/personalityEngine.js:107 | a replacement string without `$` is inserted as it is |
| StringReplace.ExpandMatched | api/utils/personalityEngine.js:107 | the replacement `$&` inserts the matched placeholder itself |
| StringReplace.ReplaceFirstLiteral | api/utils/personalityEngine.js:84-107 | with no earlier occurrence of the pattern and no `$` in the replacement, `replace` swaps exactly the first occurrence |
| StringReplace.ReplaceEmptyPattern | api/utils/personalityEngine.js:84-107 | an empty pattern matches at the front |
| StringReplace.FillSlot | api/utils/personalityEngine.js:84-107 | replacing a placeholder that has no earlier start in the text fills exactly that slot of the template |
| PersonalityEngine.LookupAsWritten | api/utils/personalityEngine.js:76-77 | `personalities[id]` finds an own profile, a JSON `null`, a key inherited from `Object.prototype`, or nothing |
| PersonalityEngine.Lookup | api/utils/personalityEngine.js:76-77 | the corrected lookup finds a profile exactly when the store defines one under that id |
| PersonalityEngine.LookupAgrees | api/utils/personalityEngine.js:76-79 | off the prototype's keys the lookup as written and the corrected one agree, in both directions |
| PersonalityEngine.InheritedKeyFound | api/utils/personalityEngine.js:76-79 | the id `constructor` is truthy as written but not found by the corrected lookup |
| PersonalityEngine.IntensityTexts | api/utils/personalityEngine.js:91-95 | each `<INT_*>` slot receives the profile's value as decimal text that reads back as that value, unclamped |
| PersonalityEngine.BuildPersonalityPrompt | api/utils/personalityEngine.js:75-110 | building fails exactly when the id names no profile, with the message `Personality profile '<id>' not found` |
| PersonalityEngine.BuildPersonalityPromptAsWritten | api/utils/personalityEngine.js:75-110 | as written, building fails exactly when `personalities[id]` is falsy |
| PersonalityEngine.InheritedIdBuildsPrompt | api/utils/personalityEngine.js:76-79 | as written, the id `constructor` builds a prompt with `undefined` intensities; the corrected builder reports it not found |
| PersonalityEngine.BuildAgreesOffPrototype | api/utils/personalityEngine.js:75-110 | for every id that is not an inherited key, the two builders return the same result |
| PersonalityEngine.FillTemplateLayout | api/utils/personalityEngine.js:81-107 | the twelve adjective, intensity and role replacements and the context replacement fill the head of the template; the history lands after it, expanded |
| PersonalityEngine.FillSteps | api/utils/personalityEngine.js:84-99 | each replacement of the chain fills the next slot in template order |
| PersonalityEngine.ContextAndHistory | api/utils/personalityEngine.js:101-107 | the context line fills its slot, then the history fills the last one |
| PersonalityEngine.PromptLayout | api/utils/personalityEngine.js:75-110 | a found profile gives the filled head followed by `history + "\nAI Assistant: " + response`, with its `$` patterns expanded |
| PersonalityEngine.HistoryInsertedVerbatim | api/utils/personalityEngine.js:106-107 | with no `$` in the history and the response, the prompt ends with them verbatim |
| PersonalityEngine.DollarPatternInResponse | api/utils/personalityEngine.js:106-107 | a response of `$&` puts the placeholder `<CONVERSATION_HISTORY>` into the prompt instead of the response |
| PersonalityEngine.SecondRoleBRemains | api/utils/personalityEngine.js:98-99 | every built prompt still contains a literal `<ROLE_B>`, because only its first occurrence is replaced |
| PersonalityEngine.FirstChoiceText | api/utils/personalityEngine.js:137 | the completion yields a text exactly when it succeeded with a string first choice |
| PersonalityEngine.TransformResponse | api/utils/personalityEngine.js:115-147 | the completion is asked exactly when the profile exists, with the built prompt; its first choice is returned, otherwise the original response |
| PersonalityEngine.RewriteIsTrimmedOnce | api/utils/personalityEngine.js:137-141 | a changed result is the trim of the first choice |
| PersonalityEngine.RewrittenIsTrimmed | api/utils/personalityEngine.js:137 | a changed result is a string without whitespace at either end |
| PersonalityEngine.Summaries | api/utils/personalityEngine.js:152-158 | the listing has one `{id, name, description}` per id, in order, or fails when an entry is `null` |
| PersonalityEngine.GetPersonality | api/utils/personalityEngine.js:163-165 | the profile stored under the id, or nothing |
| PersonalityEngine.GetPersonalityMatchesBuild | api/utils/personalityEngine.js:163-165 | `getPersonality` finds a profile exactly when the prompt builds, and the prompt uses that profile's intensities |
| PersonalityEngine.ListingMatchesLookup | api/utils/personalityEngine.js:152-165 | every listed id is found by `getPersonality` with the listed name and description |
| PersonalityRoutes.SummaryValues | api/server/routes/personality.js:17 | the listing is sent element by element |
| PersonalityRoutes.Profiles | api/server/routes/personality.js:14-22 | 200 with `{personalities}` when the listing succeeds, otherwise 500 with the fixed error |
| PersonalityRoutes.HistoryLine | api/server/routes/personality.js:51 | a history line exists exactly when the message is not `undefined`/`null` |
| PersonalityRoutes.HistoryLines | api/server/routes/personality.js:51 | the lines exist exactly when every message has one, and they map the messages one to one |
| PersonalityRoutes.FormatHistoryOrder | api/server/routes/personality.js:49-52 | the history is the messages' lines in reverse (chronological) order, joined by a literal backslash-n |
| PersonalityRoutes.HistoryIsOneLine | api/server/routes/personality.js:49-52 | with no newline in the texts, the history holds no newline, since the separator is two characters |
| PersonalityRoutes.Transform | api/server/routes/personality.js:29-80 | 400 and no call exactly when the response or the id is falsy; at most one history query of 5, only with a conversation id; 200 or 500 according to the transform |
| PersonalityRoutes.TransformHistory | api/server/routes/personality.js:40-56 | the history passed is `''` without a conversation id or when the fetch fails, otherwise the formatted messages |
| PersonalityRoutes.TransformEchoes | api/server/routes/personality.js:66-71 | a 200 reply echoes the response and the id with the transformed text and `success: true` |
| PersonalityRoutes.InterceptPersonality | api/server/routes/personality.js:89-94 | a missing id defaults to `'neutral'`; any other value, even a falsy one, is kept |
| PersonalityRoutes.Intercept | api/server/routes/personality.js:87-151 | always 200; a falsy or `'neutral'` id makes no query and no call; otherwise one call and at most one query of 4; `transformed` is true exactly when the call returned; on success the body is `{response: <transformed>, original: <request's response>, transformed: true, personalityId}`; on a failure the original response is returned with an `error` field |
| PersonalityRoutes.InterceptHistoryWithoutConversation | api/server/routes/personality.js:102-105 | without a conversation id the history is `Student: <userMessage>` or `''` |
| PersonalityRoutes.InterceptHistoryWithConversation | api/server/routes/personality.js:102-125 | with a fetched history, the history is that history, followed by backslash-n and the student line when there is a user message |
| PersonalityRoutes.InterceptAlwaysTransformed | api/server/routes/personality.js:128-140 | with the engine as transform, `transformed` is true even when the engine fell back to the original text |
| PersonalityRoutes.TransformNeverFails | api/server/routes/personality.js:59-79 | with the engine as transform, `/transform` never answers 500, and an unknown id returns the original response as the transformed one |
| CreatePayload.ExplicitFields | packages/data-provider/src/createPayload.ts:39-46 | the explicitly written fields are exactly the eight listed keys |
| CreatePayload.Create | packages/data-provider/src/createPayload.ts:5-52 | construction throws exactly when the conversation fails to parse or the endpoint options are `undefined`/`null` |
| CreatePayload.PayloadFields | packages/data-provider/src/createPayload.ts:36-47 | a payload key comes from the explicit fields, else the endpoint options, else the user message |
| CreatePayload.ExplicitFieldsWin | packages/data-provider/src/createPayload.ts:10-47 | `isContinued` is `!!(isEdited && isContinued)`; `ephemeralAgent` is `undefined` for assistants endpoints; `conversationId` is the parsed conversation's; `personality` and the other explicit fields are passed through |
| CreatePayload.ServerChoice | packages/data-provider/src/createPayload.ts:28-34 | the server of a built payload is the agents URL + `/` + endpoint for non-assistants endpoints, otherwise the URL of `endpointType ?? endpoint`, followed by `/modify` exactly when the submission is edited |
| AgentRequest.GetUserPersonality | api/server/controllers/agents/request.js:14-22 | the body's personality if truthy, else the header if truthy, else `'neutral'`; always truthy |
| AgentRequest.NormalizeTitle | api/server/controllers/agents/request.js:216-217 | a falsy title becomes `null` and a truthy one is kept, so `'New Chat'` is never chosen |
| AgentRequest.AssignKey | api/server/controllers/agents/request.js:60-76 | unknown keys change nothing; `userMessage` sets message and id, throwing on `undefined`/`null`; `conversationId` is taken only while the current one is falsy; each of `userMessagePromise`, `responseMessageId`, `promptTokens`, `sender` and `abortKey` sets its own variable and nothing else |
| AgentRequest.UnknownKeysIgnored | api/server/controllers/agents/request.js:59-78 | data without recognised keys changes no variable |
| AgentRequest.FirstConversationIdWins | api/server/controllers/agents/request.js:74-75 | a truthy conversation id is never replaced |
| AgentRequest.ConversationIdTaken | api/server/controllers/agents/request.js:74-75 | a truthy id reported while none is known is kept |
| AgentRequest.Close | api/server/controllers/agents/request.js:161-173 | aborts exactly when a controller exists and the request is neither aborted nor completed; nothing else changes |
| AgentRequest.CloseIdempotent | api/server/controllers/agents/request.js:161-173 | closing twice is closing once |
| AgentRequest.HandlerRuns | api/server/controllers/agents/request.js:84-95 | running the handlers only ever runs handlers |
| AgentRequest.HandlerRunsAppend | api/server/controllers/agents/request.js:84-95 | handlers run in registration order, each function once, non-functions skipped |
| AgentRequest.ThrowingHandlerDoesNotStop | api/server/controllers/agents/request.js:86-94 | a throwing handler still runs, and every later handler runs after it |
| AgentRequest.CleanupEvents | api/server/controllers/agents/request.js:81-106 | the cleanup starts with its own event and only runs handlers, releases the abort controller and disposes of the client |
| AgentRequest.Cleanup | api/server/controllers/agents/request.js:81-123 | the cleanup appends exactly its events to the trace |
| AgentRequest.CleanupEventCounts | api/server/controllers/agents/request.js:97-106 | `cleanupAbortController` once exactly when `abortKey` is truthy, `disposeClient` once exactly when there is a client |
| AgentRequest.CleanupTeardown | api/server/controllers/agents/request.js:108-121 | the teardown throws exactly when the options are `undefined`/`null`; otherwise client, handlers, options and promise are null and the map entry is gone |
| AgentRequest.SecondCleanupThrows | api/server/controllers/agents/request.js:113-114 | a second cleanup throws at `endpointOption.agent` after releasing the abort controller again |
| AgentRequest.RequestedIds | api/server/controllers/agents/request.js:222 | the set of requested `file_id`s, or a throw for a non-array or a missing entry |
| AgentRequest.Iterated | api/server/controllers/agents/request.js:223 | `for...of` iterates arrays and strings and throws on anything else |
| AgentRequest.Kept | api/server/controllers/agents/request.js:223-227 | the filter throws exactly on an `undefined`/`null` attachment and keeps at most all attachments |
| AgentRequest.KeptMembers | api/server/controllers/agents/request.js:222-227 | a kept file is a copy of an attachment whose `file_id` was requested, and every such attachment is kept |
| AgentRequest.KeptOne | api/server/controllers/agents/request.js:224-225 | one attachment is kept, as a copy, exactly when its `file_id` was requested |
| AgentRequest.KeptAppend | api/server/controllers/agents/request.js:223-227 | filtering two runs of attachments keeps the first run's copies before the second's, in order, and throws when either run throws |
| AgentRequest.AttachFiles | api/server/controllers/agents/request.js:220-229 | without requested files or attachments the user message is unchanged; otherwise its `files` are exactly the filtered copies `Kept` computes, in attachment order, and `image_urls` is removed |
| AgentRequest.FirstText | api/server/controllers/agents/request.js:247 | a truthy result is the `text` of `content[0]` |
| AgentRequest.ResponseText | api/server/controllers/agents/request.js:246-247 | the text to rewrite is `text` if truthy, else `content[0].text` |
| AgentRequest.SetFirstText | api/server/controllers/agents/request.js:265 | writing `content[0].text` changes that field of the first part |
| AgentRequest.WriteBackFields | api/server/controllers/agents/request.js:259-266 | the write-back changes only `text` and `content`, and only when the new text is truthy and different, each only if it was truthy; the original response keeps its `text` but shares the new first part |
| AgentRequest.WriteBackBoth | api/server/controllers/agents/request.js:261-266 | a response carrying its text in both places gets the new text in both |
| AgentRequest.ConversationOf | api/server/controllers/agents/request.js:214-217 | the database result must not be `undefined`/`null`; the conversation's title is `null` or truthy |
| AgentRequest.Start | api/server/controllers/agents/request.js:31-57 | an empty trace, an empty handler list, no client and no abort; options and conversation id taken from the body |
| AgentRequest.ReportedError | api/server/controllers/agents/request.js:329-335 | the error is reported under the conversation and response ids known so far |
| AgentRequest.Fail | api/server/controllers/agents/request.js:327-342 | the catch block reports the error, starts no cleanup itself, and the cleanup follows outside the `try` |
| AgentRequest.Finish | api/server/controllers/agents/request.js:307-326 | with a title due, `addTitle` is asked and the cleanup waits for it; otherwise the cleanup runs inside the `try` |
| AgentRequest.AfterCheck | api/server/controllers/agents/request.js:300-326 | the tail after the abort check adds only saves, titles and error reports |
| AgentRequest.AfterCheckSchedule | api/server/controllers/agents/request.js:300-326 | the user message is saved unless skipped; then a title or an immediate cleanup, or the error report when the save failed |
| AgentRequest.Personalise | api/server/controllers/agents/request.js:236-279 | no rewrite, or a failed one, leaves the response as it was |
| AgentRequest.Deliver | api/server/controllers/agents/request.js:232-298 | delivery emits the rewrite, the final event, the end and the response save; after that only saves, titles and error reports |
| AgentRequest.BeforeCheck | api/server/controllers/agents/request.js:204-231 | reaching the abort check needs options, a database result and the file filter; the state there is the abort, the files and the response without `databasePromise` |
| AgentRequest.AtCheck | api/server/controllers/agents/request.js:231-326 | the abort check neither starts a cleanup nor changes the options |
| AgentRequest.Generated | api/server/controllers/agents/request.js:204-342 | after generation no cleanup starts before the request's end |
| AgentRequest.Steps | api/server/controllers/agents/request.js:125-342 | the request's steps start no cleanup, and run it inside the `try` only when the options exist |
| AgentRequest.CleanupRunsOnce | api/server/controllers/agents/request.js:307-342 | on every path the cleanup runs exactly once, last, and throws exactly when the body carried no endpoint options |
| AgentRequest.DeliveryGates | api/server/controllers/agents/request.js:232-298 | on every path: at most one `res.end`; no final event or end when the request was aborted at the check (`request.js:232`); the final event sent at most once; the response saved only when due and only after the end; every rewrite call uses the request's non-neutral personality and a non-empty text |
| AgentRequest.StepsGated | api/server/controllers/agents/request.js:232-298 | the same gates hold when the request's steps end |
| AgentRequest.DeliveryEventsGated | api/server/controllers/agents/request.js:234-297 | the delivery block's own events satisfy the gates |
| AgentRequest.DeliveryShapeGated | api/server/controllers/agents/request.js:234-297 | rewrite calls with the request's non-neutral personality, then one final event and the end, then only due saves: such a trace passes the gates |
| AgentRequest.DeliverGated | api/server/controllers/agents/request.js:232-298 | delivery from a clean trace satisfies the gates |
| AgentRequest.AtCheckGated | api/server/controllers/agents/request.js:231-326 | from the abort check on, the gates hold |
| AgentRequest.GeneratedGated | api/server/controllers/agents/request.js:204-342 | from a generated response on, the gates hold |
| AgentRequest.AbortedRequestSavesUserMessage | api/server/controllers/agents/request.js:231-305 | an aborted request still saves the user message unless skipped, and sends nothing |
| AgentRequest.FailedRewriteStillSends | api/server/controllers/agents/request.js:275-288 | a failed rewrite is swallowed: the final event carries the unchanged response and the response is ended |
| AgentRequest.TitleSeesRewrittenContent | api/server/controllers/agents/request.js:259-313 | `addTitle` receives the original response object, which kept its `text` but sees the rewritten first content part |
| AgentRequest.FailedInitialisation | api/server/controllers/agents/request.js:125-342 | when the client cannot be initialised, the request only reports the error under the body's ids and cleans up, releasing nothing |
| AgentSession.CollectFiles | api/server/controllers/agents/request.js:221-228 | the push loop builds exactly the filtered copies `Kept` computes, in attachment order, and throws where `Kept` does |
| AgentSession.Session.constructor | api/server/controllers/agents/request.js:31-57 | the session starts in the request's start state |
| AgentSession.Session.GetReqData | api/server/controllers/agents/request.js:59-78 | the assignment loop leaves the variables `getReqData` computes and throws when it does |
| AgentSession.Session.Close | api/server/controllers/agents/request.js:161-173 | the close handler updates the session as `Close` states |
| AgentSession.Session.PerformCleanup | api/server/controllers/agents/request.js:81-123 | the cleanup leaves the session in the state `Cleanup` computes and throws when it does |
| AgentSession.Session.Release | api/server/controllers/agents/request.js:82-106 | appends exactly the cleanup's events to the trace |
| AgentSession.Session.RunHandlers | api/server/controllers/agents/request.js:84-95 | the handler loop records the runs `HandlerRuns` states |
| AgentSession.Session.Report | api/server/controllers/agents/request.js:327-342 | the catch block ends as `Fail` states |
| AgentSession.Session.Finish | api/server/controllers/agents/request.js:307-326 | the title-or-cleanup choice ends as `Finish` states |
| AgentSession.Session.AfterCheck | api/server/controllers/agents/request.js:300-326 | the tail after the abort check ends as `AfterCheck` states |
| AgentSession.Session.SaveUserMessage | api/server/controllers/agents/request.js:301-305 | records the save of the current user message |
| AgentSession.Session.Deliver | api/server/controllers/agents/request.js:232-298 | the delivery block ends as `Deliver` states |
| AgentSession.Session.Send | api/server/controllers/agents/request.js:234-297 | rewrites, sends, ends and saves the response as `Personalise` and the delivery events state |
| AgentSession.Session.Rewrite | api/server/controllers/agents/request.js:237-279 | the rewrite returns the `Personalise` pair and records only the call |
| AgentSession.Session.Generated | api/server/controllers/agents/request.js:204-342 | the steps after generation end as `Generated` states |
| AgentSession.Session.Check | api/server/controllers/agents/request.js:204-231 | the steps before the abort check reach the checkpoint `BeforeCheck` computes, or throw with the session unchanged |
| AgentSession.Session.Steps | api/server/controllers/agents/request.js:125-342 | the request's steps end as `Steps` states |
| AgentSession.Session.Serve | api/server/controllers/agents/request.js:125-342 | the whole request, cleanup included, ends in the state `RunSpec` computes, so the cleanup and gate lemmas hold of it |
| ControllerEngine.UnknownPersonalityLeavesResponse | api/server/controllers/agents/request.js:255-271 | with the engine as the rewrite, an unknown personality leaves the response untouched |
| ControllerEngine.CompletionWrittenBack | api/server/controllers/agents/request.js:255-266 | the engine's trimmed first choice is what is written back, and a truthy different one changes the response |
| ControllerEngine.WriteBackChanges | api/server/controllers/agents/request.js:259-266 | a truthy new text different from the old one changes the field the text came from |

## Left out

- PersonalityEngine.FillTemplateLayout: the layout lemmas (`FillTemplateLayout`, `PromptLayout`, `HistoryInsertedVerbatim`, `DollarPatternInResponse`, `SecondRoleBRemains`) take the layout of the template as a hypothesis (`LaidOut`). They do not prove that layout for the deployed template text `DeployedPromptText`, because unfolding the long literals is beyond the solver's budget. `DeployedPromptText` is built as that interleaving, so only the `<`/`$`-freedom of its literals is left unproved.
- The completion service (model name, temperature 0.7, `max_tokens`) is an input function from the request to the choices' contents. `RewriteRequest` records the model name, the token limit and the temperature, the last in tenths (7).
- `Js.Value.Num` holds an integer: every JavaScript number in the model (intensities, token counts, indices) is one. Fractions, `NaN`, `Infinity` and `-0` are not modelled, nor is a fractional or non-numeric intensity in the profile file.
- Loading `personalities.json` at module load: the profile store is a parameter, including JSON `null` entries and the keys inherited from `Object.prototype`.
- Logging (`console.*`, `logger.*`) has no effect on the model.
- Promise timing is not modelled. The `close` event is modelled only as firing before the abort check at `request.js:232`, as an input. Title generation and error reporting are modelled as settling before their `finally` runs the cleanup.
- `WeakRef`, `FinalizationRegistry` (`clientRegistry`), `getAbortData`, `onStart`, `messageOptions` and the internals of `createAbortController` are not modelled. The request-data map is a flag.
- JavaScript object identity: `!==` on the rewritten text is value equality. The shallow copy `finalResponse` sharing `content[0]` with `response` is modelled as the pair `Rewritten(final, response)`, not as a heap.
- A `getReqData` throw (a `userMessage` of `undefined`/`null`) is modelled as making `sendMessage` reject.
- The client's response is modelled as an object.
- `res.json`, `res.status`, `sendEvent` and `res.end` are trace events or reply records. Express routing and JWT authentication are not modelled.
- AgentRequest.CleanupTeardown: `endpointOption.agent = null` is modelled only as the throw it causes on `undefined`/`null` options, not as a write into the shared options object.
- `Constants.NO_PARENT` is an input (`Outcomes.noParent`).
- The routes pass a fourth argument to `transformResponse`, which it does not declare. The model does not record it.
- AgentSession.Session.Serve: the catch block's second cleanup after a throwing in-`try` cleanup is not run. That branch is unreachable, because line 206 already reads `endpointOption.endpoint`.
- PersonalityEngine.TransformResponse: built on the corrected own-key lookup. For an inherited id such as `constructor` the code as written calls the completion with a prompt whose intensities are `undefined`; the model reports the id not found instead (see Findings).
- PersonalityRoutes.TransformNeverFails: its statement that an unknown id returns the original response uses the corrected lookup; as written, an inherited id such as `constructor` reaches the completion service (see Findings).
- ControllerEngine.UnknownPersonalityLeavesResponse: uses the corrected lookup; as written, an inherited id such as `constructor` calls the completion, whose answer can change the response (see Findings).
- AgentRequest.CleanupRunsOnce: `cleanupAbortController` and `disposeClient` are taken not to throw. If either threw inside the in-`try` cleanup (`request.js:97-106`, `324`), the catch block (`request.js:328-341`) would schedule a second `performCleanup`; `CleanupRunsOnce` and `AgentSession.Session.Serve` rely on this.
- PersonalityEngine.GetPersonality: uses the corrected own-key lookup rather than `personalities[id] \|\| null`. The two differ only on inherited keys (see Findings).
- `EndpointURLs`, `isAssistantsEndpoint` and `tConvoUpdateSchema.parse` are uninterpreted functions of `CreatePayload.Environment`.
- `client/src/components/Chat/Input/InlinePersonalitySelector.tsx` (the React selector) and `test-personality.js` (a script against the live API) are not part of this model.

## Findings

| source | as written | input that shows it | evidently intended | confidence | as-written member | corrected member |
|---|---|---|---|---|---|---|
| api/utils/personalityEngine.js:76-79 | `personalities[personalityId]` also finds keys inherited from `Object.prototype` | a `personalityId` of `"constructor"`, absent from the profile file | unknown ids are reported as `Personality profile '<id>' not found` | not executed | PersonalityEngine.InheritedIdBuildsPrompt | PersonalityEngine.BuildAgreesOffPrototype |

With the id `constructor`, the lookup returns the `Object` function, which
is truthy. The template is then filled with `undefined` for all five
intensities and sent to the completion service, where the not-found error
was intended. The corrected builder `BuildPersonalityPrompt` looks up own
keys only. `BuildAgreesOffPrototype` proves that it agrees with the code as
written on every other id, and `GetPersonalityMatchesBuild` and
`TransformResponse` use it.

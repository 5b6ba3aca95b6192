# Public chat client and auth-token route, modelled in Dafny

This project models two pieces of the soul engine. The first is the public chat page
(`PublicChat.tsx`): a browser client that talks to a "soul" over a websocket.
The second is the cloud server's `/auth/token` route (`authTokenHandler.ts`), which signs
the tokens that client asks for.

The page is modelled as follows.

- **Host strings.** `trimTrailingSlash`, `resolveHttpHost` and the environment defaults are
  pure functions in `Hosts`. They are built on ECMAScript `trim`, `startsWith` and
  string-pattern `replace`, modelled in `JsString` as far as the page uses them (see
  "Left out" for where they differ from JavaScript in general).
- **Identity.** The session identity (`resolvedSoulId` and the effect that persists a
  generated id) is pure, in `SoulIdentity`.
- **Message list.** The id-keyed content replacement `prev.map(...)` and the streaming buffer
  are list algebra in `Messages`.
- **Session object.** Everything the page changes step by step is the class
  `Chat.ChatSession`: its React state, `soulRef`, the per-attempt `cancelled` flag of the
  connect effect, the effect's pending cleanup, and the streaming handlers' buffers.
  - Each asynchronous continuation is one method: a connect that resolves or rejects, an
    `onError` event, a `says` event, a stream chunk, the end of a stream, `content()`
    resolving, cleanup, and submit.
  - A render with a new `chatId` prop or a new stored value is one method too. It
    recomputes the soul id, runs the persist effect again, and says whether the connect
    effect has to be run again.
  - A run of the page is any sequence of calls the lifecycle allows. The class invariant
    `Valid` is preserved by every one of them, and its parts and the lemmas that keep it
    are in `ChatModel`. It says:
    - message ids come from the generator and are distinct;
    - only the attempt whose cleanup is pending is live;
    - every running streaming handler's message shows exactly the concatenation of the
      chunks it has received.
  - `ConsumeStream` runs the handler's `for await` loop over a whole chunk sequence.
- **Token exchange.** The page's token callback and a lemma joining it to the route's
  decision are in `TokenExchange`.

The route is modelled as a pure decision function in `AuthToken`. It maps the parsed request
body, the environment map and an opaque signer to a status and a JSON body. JSON values and
JavaScript's property access and truthiness on them are in `JsonValues`.

## Model

| member | source | states |
|---|---|---|
| Hosts.TrimTrailingSlash | packages/soul-engine-ui/src/components/PublicChat.tsx:9 | the result is a prefix of the input, does not end in `/`, and everything removed was `/` |
| Hosts.TrimTrailingSlashIdempotent | packages/soul-engine-ui/src/components/PublicChat.tsx:9 | trimming trailing slashes twice equals trimming once |
| Hosts.TrimTrailingSlashUnique | packages/soul-engine-ui/src/components/PublicChat.tsx:9 | any prefix without a trailing `/` that leaves only `/` behind is the trimmed value, so the contract pins the result down |
| Hosts.ResolveHttpHost | packages/soul-engine-ui/src/components/PublicChat.tsx:18-32 | a truthy `httpHost` is returned without trailing slashes; otherwise a `wss://` prefix of the trimmed websocket host becomes `https://` and a `ws://` prefix becomes `http://` with the rest kept, and any other host is only trimmed; the result never ends in `/` |
| Hosts.SchemesExclusive | packages/soul-engine-ui/src/components/PublicChat.tsx:24-29 | no host starts with both `wss://` and `ws://`, so at most one rewrite applies |
| Hosts.DefaultWsHost | packages/soul-engine-ui/src/components/PublicChat.tsx:11-14 | the websocket URL variable wins, then the Hocuspocus host variable, then `ws://localhost:4000`; the default host is never empty |
| Hosts.HostsFromEnvTrimmed | packages/soul-engine-ui/src/components/PublicChat.tsx:77-81 | neither host the client derives from its environment ends in `/` |
| JsString.TrimShape | packages/soul-engine-ui/src/components/PublicChat.tsx:203 | `trim` keeps a middle slice of its input, with only whitespace before and after it |
| JsString.TrimEnds | packages/soul-engine-ui/src/components/PublicChat.tsx:203 | a trimmed string neither starts nor ends with ECMAScript whitespace |
| JsString.TrimEmpty | packages/soul-engine-ui/src/components/PublicChat.tsx:203-205 | the trimmed input is empty exactly when the input is all whitespace, which is when submit does nothing |
| JsString.TrimNoSurroundingWhitespace | packages/soul-engine-cloud/src/server/authTokenHandler.ts:22 | a string with no whitespace at either end is its own trim |
| JsString.TrimIdempotent | packages/soul-engine-cloud/src/server/authTokenHandler.ts:22 | trimming twice equals trimming once |
| JsString.TrimStart | packages/soul-engine-ui/src/components/PublicChat.tsx:203 | leading whitespace is dropped: the result is a suffix, what was removed is whitespace, and the result does not start with whitespace |
| JsString.TrimEnd | packages/soul-engine-ui/src/components/PublicChat.tsx:203 | trailing whitespace is dropped: the result is a prefix, what was removed is whitespace, and the result does not end with whitespace |
| JsString.IndexOfFrom | packages/soul-engine-ui/src/components/PublicChat.tsx:25 | the first index at or after `from` where the pattern occurs, or -1 exactly when it occurs nowhere from there on |
| JsString.ReplaceFirstOfPrefix | packages/soul-engine-ui/src/components/PublicChat.tsx:24-28 | replacing the first occurrence of a pattern the string starts with swaps exactly that prefix |
| SoulIdentity.ResolvePriority | packages/soul-engine-ui/src/components/PublicChat.tsx:67-75 | a non-empty `chatId` wins, then a non-empty stored id, then the generated one; the generated id is used exactly when neither is present |
| SoulIdentity.PersistOnlyFresh | packages/soul-engine-ui/src/components/PublicChat.tsx:83-87 | storage is written exactly when `chatId` and the stored id are both empty, and then with the generated id |
| SoulIdentity.ResolveStableAfterPersist | packages/soul-engine-ui/src/components/PublicChat.tsx:67-87 | once a generated id is persisted, resolving again yields the same id and writes nothing |
| Messages.SetContent | packages/soul-engine-ui/src/components/PublicChat.tsx:144-149 | an id-keyed update keeps the length and order; messages with another id are unchanged; messages with the id keep id, role and `isStreaming` and get the new content |
| Messages.SetContentAbsent | packages/soul-engine-ui/src/components/PublicChat.tsx:154-160 | updating an id that is not in the list changes nothing |
| Messages.SetContentOverwrite | packages/soul-engine-ui/src/components/PublicChat.tsx:144-149 | two updates of one message equal the second alone, so the last buffer wins |
| Messages.SetContentCommute | packages/soul-engine-ui/src/components/PublicChat.tsx:144-160 | updates of two different messages commute, so concurrent handlers never lose each other's content |
| Messages.SetContentAppend | packages/soul-engine-ui/src/components/PublicChat.tsx:135-149 | an update and the append of a message with another id commute |
| Messages.SetContentSame | packages/soul-engine-ui/src/components/PublicChat.tsx:144-149 | with distinct ids, setting a message's content to what it already shows changes nothing |
| Messages.ContentOfHasId | packages/soul-engine-ui/src/components/PublicChat.tsx:146 | the content lookup finds a message exactly when the id is in the list |
| Messages.ContentOfSetContent | packages/soul-engine-ui/src/components/PublicChat.tsx:144-160 | after an update the target shows the new content and every other id shows what it showed before |
| Messages.ContentOfAppend | packages/soul-engine-ui/src/components/PublicChat.tsx:135-138 | an append does not change what an id already in the list shows |
| Messages.ConcatSnoc | packages/soul-engine-ui/src/components/PublicChat.tsx:143 | `buffer += chunk` extends the concatenation of the chunks by exactly that chunk |
| Uuid.UuidSource.Next | packages/soul-engine-ui/src/components/PublicChat.tsx:134 | each drawn id is non-empty and differs from every id drawn before |
| ChatModel.AppendFresh | packages/soul-engine-ui/src/components/PublicChat.tsx:135-138 | appending a message with a fresh id keeps ids distinct and every handler's view of its message |
| ChatModel.StartHandler | packages/soul-engine-ui/src/components/PublicChat.tsx:140-153 | a new handler starts with an empty buffer, or awaits `content()` on an empty message |
| ChatModel.ChunkKeepsHandlers | packages/soul-engine-ui/src/components/PublicChat.tsx:142-150 | after a chunk, the stream's message shows the extended buffer and every other handler's message is unchanged |
| ChatModel.EndKeepsHandlers | packages/soul-engine-ui/src/components/PublicChat.tsx:142-151 | a finished stream leaves the other handlers' views intact |
| ChatModel.ResolveKeepsHandlers | packages/soul-engine-ui/src/components/PublicChat.tsx:153-160 | the awaited content replaces that message's content and nothing else |
| ChatModel.StartAttempt | packages/soul-engine-ui/src/components/PublicChat.tsx:94-98 | a new attempt is the only live one |
| ChatModel.CancelAttempt | packages/soul-engine-ui/src/components/PublicChat.tsx:187-188 | the cleanup cancels the live attempt, after which no attempt is live |
| Chat.ChatSession.constructor | packages/soul-engine-ui/src/components/PublicChat.tsx:54-87 | on mount, the messages are empty, the input is empty, the state is idle and there is no error or Soul; the soul id is resolved, and a fresh id is drawn and stored only when there is neither `chatId` nor a stored id |
| Chat.ChatSession.Rerender | packages/soul-engine-ui/src/components/PublicChat.tsx:67-87 | with the same `chatId` and stored value nothing is recomputed; otherwise the soul id is resolved again (the explicit id, else the stored one, else a newly drawn id that differs from every earlier one), the persist effect stores it only when there was neither, and `reconnect` holds exactly when the soul id changed |
| Chat.ChatSession.RunEffect | packages/soul-engine-ui/src/components/PublicChat.tsx:89-131 | without an organization or subroutine nothing happens; otherwise a new attempt gets a false `cancelled` flag, the error is cleared, the state is `connecting` and `soulRef` holds a Soul for this attempt's URL, token URL and soul id |
| Chat.ChatSession.Cleanup | packages/soul-engine-ui/src/components/PublicChat.tsx:187-194 | the attempt is cancelled, `soulRef` is cleared and that Soul is disconnected; state and error are kept |
| Chat.ChatSession.ConnectResolved | packages/soul-engine-ui/src/components/PublicChat.tsx:172-176 | a resolved connect gives `connected` unless its attempt was cancelled, and a superseded attempt changes nothing |
| Chat.ChatSession.ConnectRejected | packages/soul-engine-ui/src/components/PublicChat.tsx:177-182 | a rejected connect gives `error` with the error's message or "Connection failed", unless its attempt was cancelled |
| Chat.ChatSession.ErrorEvent | packages/soul-engine-ui/src/components/PublicChat.tsx:164-170 | an error event gives `error` with its message, unless its attempt was cancelled |
| Chat.ChatSession.Says | packages/soul-engine-ui/src/components/PublicChat.tsx:133-140 | exactly one assistant message with a fresh id, empty content and the event's streaming flag is appended at the end, and its handler starts |
| Chat.ChatSession.StreamChunk | packages/soul-engine-ui/src/components/PublicChat.tsx:142-150 | after a chunk, the message shows the concatenation of all chunks received so far and nothing else changes |
| Chat.ChatSession.StreamEnd | packages/soul-engine-ui/src/components/PublicChat.tsx:142-151 | the loop ends and the message keeps its final buffer |
| Chat.ChatSession.ContentResolved | packages/soul-engine-ui/src/components/PublicChat.tsx:152-160 | the awaited content is set, once, and no other message changes |
| Chat.ChatSession.ConsumeStream | packages/soul-engine-ui/src/components/PublicChat.tsx:140-151 | a whole stream leaves the message showing the concatenation of all its chunks, through one replacement per chunk |
| Chat.ChatSession.SetInput | packages/soul-engine-ui/src/components/PublicChat.tsx:307 | the input holds the typed text |
| Chat.ChatSession.Submit | packages/soul-engine-ui/src/components/PublicChat.tsx:201-216 | nothing happens when the trimmed input is empty or there is no Soul; otherwise one user message with the trimmed input and a fresh id is appended, the input is cleared, and the trimmed text is dispatched |
| Chat.ChatSession.DispatchRejected | packages/soul-engine-ui/src/components/PublicChat.tsx:215-219 | a failed dispatch shows the error's message or "Failed to send message" and keeps the message |
| JsonValues.Property | packages/soul-engine-cloud/src/server/authTokenHandler.ts:22 | definition: `payload?.soulId` and `data.token` read an object's own field, and give `undefined` on the non-object values these reads meet |
| JsonValues.TruthyJson | packages/soul-engine-ui/src/components/PublicChat.tsx:122 | definition: JavaScript truthiness of a JSON value, where null, false, 0 and "" are falsy; `TokenCallback` states what it decides |
| JsonValues.Single | packages/soul-engine-ui/src/components/PublicChat.tsx:114 | a one-field object has exactly that field |
| AuthToken.Missing | packages/soul-engine-cloud/src/server/authTokenHandler.ts:28 | the missing keys are exactly the required keys whose value is absent or empty |
| AuthToken.ConfigCompleteIff | packages/soul-engine-cloud/src/server/authTokenHandler.ts:5-16 | the configuration check passes exactly when all four keys are set to non-empty values |
| AuthToken.SoulIdOf | packages/soul-engine-cloud/src/server/authTokenHandler.ts:21-22 | the soul id the route reads is already trimmed; a non-empty one comes from a string `soulId` field of an object body; and such a field is always read, trimmed |
| AuthToken.HandleAuthToken | packages/soul-engine-cloud/src/server/authTokenHandler.ts:18-46 | the status is 200, 400 or 500; 400 with "Missing soulId" exactly when the soul id is blank; 200 with the signer's token exactly when the id is present, the configuration complete and the signer succeeds; every 500 is the configuration error or "Failed to generate token" |
| AuthToken.SoulIdCheckedFirst | packages/soul-engine-cloud/src/server/authTokenHandler.ts:24-32 | a request with a blank soul id gets the same 400 whatever the environment and the signer |
| AuthToken.ConfigErrorHidesKey | packages/soul-engine-cloud/src/server/authTokenHandler.ts:28-32 | any two incomplete configurations give the same 500, so the reply does not name the missing key |
| AuthToken.SignerSeesTrimmedId | packages/soul-engine-cloud/src/server/authTokenHandler.ts:22 | on success the signer was given a non-empty, already trimmed soul id, and the configuration was complete |
| AuthToken.UnparseableIsMissingSoulId | packages/soul-engine-cloud/src/server/authTokenHandler.ts:21 | a body that does not parse gets 400 |
| TokenExchange.TokenCallback | packages/soul-engine-ui/src/components/PublicChat.tsx:110-127 | a status that is not 2xx rejects with "Failed to fetch auth token"; otherwise the token is returned exactly when the body has a truthy `token`, and a falsy or absent one rejects with "Auth token missing from response" |
| TokenExchange.RequestSoulId | packages/soul-engine-ui/src/components/PublicChat.tsx:114 | the route reads back the page's soul id, trimmed |
| TokenExchange.TokenReply | packages/soul-engine-ui/src/components/PublicChat.tsx:117-126 | a 200 reply with a token is accepted exactly when the token is not empty |
| TokenExchange.ErrorReply | packages/soul-engine-ui/src/components/PublicChat.tsx:117-119 | every error reply of the route is refused with "Failed to fetch auth token" |
| TokenExchange.Exchange | packages/soul-engine-ui/src/components/PublicChat.tsx:110-127 | the page obtains a token exactly when its trimmed soul id is not empty, the server is configured and the signer issues a non-empty token, and then it is that token; every other exchange rejects with one of the page's two messages |
| Hosts.EnvVar | packages/soul-engine-ui/src/components/PublicChat.tsx:12-16 | definition: a build-time variable, `undefined` when it is not set |
| Hosts.DefaultHttpHost | packages/soul-engine-ui/src/components/PublicChat.tsx:16 | definition: the HTTP URL variable, possibly unset |
| Hosts.HostsFromEnv | packages/soul-engine-ui/src/components/PublicChat.tsx:77-81 | definition: the trimmed default websocket host and the HTTP host resolved from it; `HostsFromEnvTrimmed` states that neither ends in `/` |
| Hosts.ExperienceUrl | packages/soul-engine-ui/src/components/PublicChat.tsx:100 | definition: the websocket URL `${wsHost}/${organizationSlug}/experience`, which `RunEffect` gives the attempt's Soul |
| Hosts.TokenUrl | packages/soul-engine-ui/src/components/PublicChat.tsx:111 | definition: the token endpoint `${httpHost}/auth/token`, which `RunEffect` gives the attempt's Soul |
| JsString.Trim | packages/soul-engine-ui/src/components/PublicChat.tsx:203 | definition: leading whitespace dropped, then trailing whitespace; `TrimShape`, `TrimEnds`, `TrimEmpty` and `TrimIdempotent` state its properties |
| JsString.StartsWith | packages/soul-engine-ui/src/components/PublicChat.tsx:24 | definition: `startsWith` is the prefix relation |
| JsString.IndexOf | packages/soul-engine-ui/src/components/PublicChat.tsx:25 | definition: `IndexOfFrom` from index 0 |
| JsString.ReplaceFirst | packages/soul-engine-ui/src/components/PublicChat.tsx:25-28 | definition: only the first occurrence of a string pattern is replaced; `ReplaceFirstOfPrefix` states the case the page relies on |
| SoulIdentity.NeedsFresh | packages/soul-engine-ui/src/components/PublicChat.tsx:84 | definition: neither a truthy `chatId` nor a stored id |
| SoulIdentity.Resolve | packages/soul-engine-ui/src/components/PublicChat.tsx:67-75 | definition: the `resolvedSoulId` chain; `ResolvePriority` states its priority |
| SoulIdentity.PersistWrite | packages/soul-engine-ui/src/components/PublicChat.tsx:83-87 | definition: the persist effect's write; `PersistOnlyFresh` states when it happens |
| SoulIdentity.StoredAfter | packages/soul-engine-ui/src/components/PublicChat.tsx:83-87 | definition: the stored value once the persist effect has run; `ResolveStableAfterPersist` states that it is stable |
| Messages.ContentOf | packages/soul-engine-ui/src/components/PublicChat.tsx:146 | definition: the content of the first message with an id; `ContentOfHasId`, `ContentOfSetContent` and `ContentOfAppend` state its properties |
| Messages.Concat | packages/soul-engine-ui/src/components/PublicChat.tsx:141-143 | definition: the buffer as the concatenation of the chunks in arrival order; `ConcatSnoc` states `buffer += chunk` |
| ChatModel.MessageOf | packages/soul-engine-ui/src/components/PublicChat.tsx:180 | definition: an `Error`'s message, or the fallback for anything else thrown; `ConnectRejected` and `DispatchRejected` use it with their fallbacks |
| AuthToken.GetEnv | packages/soul-engine-cloud/src/server/authTokenHandler.ts:14-16 | definition: `process.env[key] ?? ""` |
| AuthToken.ConfigComplete | packages/soul-engine-cloud/src/server/authTokenHandler.ts:28-29 | definition: no required key is missing; `ConfigCompleteIff` states what that means |
| AuthToken.Payload | packages/soul-engine-cloud/src/server/authTokenHandler.ts:21 | definition: a body that does not parse reads as `{}`; `UnparseableIsMissingSoulId` states the consequence |
| AuthToken.ClaimsFor | packages/soul-engine-cloud/src/server/authTokenHandler.ts:34-40 | definition: the signer's argument, the four configured values and the trimmed soul id |
| TokenExchange.OkStatus | packages/soul-engine-ui/src/components/PublicChat.tsx:117 | definition: `response.ok`, a status from 200 to 299 |
| TokenExchange.RequestBody | packages/soul-engine-ui/src/components/PublicChat.tsx:114 | definition: the request body `{ soulId }` as the route parses it; `RequestSoulId` states what the route reads from it |
| TokenExchange.ReplyOf | packages/soul-engine-cloud/src/server/authTokenHandler.ts:24-45 | definition: a route reply as the page's `response.json()` reads it |

## Left out

- JSX rendering, styling and the scroll-into-view effect (packages/soul-engine-ui/src/components/PublicChat.tsx:197-321) are presentation.
- The websocket provider, the Soul SDK (`connect`, `disconnect`, `dispatch`, `on`,
  `onError`), `said` and `fetch` are foreign I/O.
  - Their outcomes are the arguments of the continuation methods.
  - A dispatch is the `Said` value `Submit` returns.
  - A disconnect is the attempt recorded in `disconnected`.
- React scheduling (`useState`, `useMemo`, `useEffect`, `useLocalStorage`) is not modelled.
  State updates apply at once, and local storage is the `stored` field.
  - `RunEffect` requires that no cleanup is pending, and `Cleanup` requires one, as React
    guarantees.
  - Concurrency is any interleaving of method calls.
- Chat.ChatSession.constructor: takes the hosts the module computes once from the build
  environment (`HostsFromEnv`) rather than the environment itself.
- Uuid.UuidSource.Next: the ids are distinct non-empty strings; the uuid v4 format and its
  randomness are not modelled.
- Chat.ChatSession.Says: the `says` handler does not look at `cancelled`. Messages of a
  torn-down attempt still arrive, and the model says nothing to the contrary.
- Chat.ChatSession.Cleanup: the cleanup never sets the state back to idle. The model keeps
  the state and the error as they were.
- Messages.ChatMessage: a user message has no `isStreaming` field in the source. It is
  modelled as false, which reads the same under truthiness.
- TokenExchange.TokenCallback: a body that is not JSON or is `null` rejects with a runtime
  error whose message is not modelled (`UnparseableBody`, `NullBody`).
- JsonValues.Json: numbers are exact decimals. Floating-point rounding is not modelled, and
  it affects only whether a number is zero.
- The logger calls, the Hono routing and the `c.json` plumbing are left out. Replies are the
  status and body values.
- `issueTokenForEngine` is the opaque `sign` parameter, which either issues a token or
  throws.
- packages/core/src/indentNicely/index.ts and packages/core/src/index.ts are not part of
  this model. They only compose and re-export code from files that are not available.
- Chat.ChatSession.Submit: submit is gated on `soulRef` holding a Soul, not on the connection
  state (packages/soul-engine-ui/src/components/PublicChat.tsx:204). The model does not gate it on the state either.
- JsString.ReplaceFirst: the replacement is inserted literally. JavaScript expands `$&`, `$$`,
  `` $` `` and `$'` in it, but the page's replacements (`https://`, `http://`) contain no `$`.
- JsString: strings are sequences of Unicode scalar values, not the UTF-16 code units
  JavaScript indexes. `trim`, `startsWith` and the scheme prefixes the page uses give the same
  answers under both.
- JsonValues.Property: only own fields of objects are found. Inherited properties such as an
  array's `length` or an object's `constructor` are not modelled; the reads the core makes
  (`soulId`, `token`) name no inherited property.

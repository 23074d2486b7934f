# chats-overlay: live-chat polling and message stores, in Dafny

This project models the stateful core of a chat overlay for live streams.

- **The live-chat endpoint.** `GET /api/live-chat` is the handler in `src/routes/api/live-chat/+server.ts`. It keeps two pieces of module state across calls:
  - a seen set of recently returned message ids (`lastMessageIds`, an insertion-ordered `Set`);
  - the upstream pagination cursor (`nextPageToken`).

  One call does the following, in order:
  1. It rejects a missing `videoId` with a 400 reply.
  2. It looks up the video and takes the live-chat id from the first lookup item. No id gives a 404 reply.
  3. It builds the chat-messages query, adding the stored cursor only when it is set.
  4. It returns the messages whose ids are not in the seen set. That is the intended behaviour. As written, the whole page is returned every time (see Findings).
  5. It records the returned ids and evicts the oldest ids beyond 50.
  6. It replaces the cursor with the page's token, or null.
- **The stores.** These are in `src/stores/store.ts`:
  - the chat window deduplicates on (username, message, uniqueId) and keeps the last 50 messages;
  - the live-info record has one setter per field and a reset.

## How the model is built

- `wrappers.dfy` holds the `Option` type, which stands for JavaScript's `null` / `undefined`.
- `live_chat_server.dfy` (module `LiveChatServer`):
  - The module state is the class `LiveChatRoute`, with fields `lastMessageIds: seq<string>` and `nextPageToken: Option<string>`. The sequence has no duplicates, so the `Set`'s insertion order is explicit.
  - `LiveChatRoute.Get` works step by step, as the handler does. `RecordIds` is the `forEach` that adds ids, written as a loop. `TrimOldest` is the counted delete loop.
  - `Get` is proved equal to the pure transition `Poll`. `Poll` maps (seen set, cursor, `videoId`, API key, lookup outcome, chat outcome) to (reply, chat request issued, new seen set, new cursor). The properties are lemmas about `Poll` and its steps.
  - The two `fetch` + `.json()` calls are inputs of type `Fetched<T>`. Each one is either the parsed body or `Rejected`, which means the promise rejected: a network failure or a body that is not JSON.
  - The chat request comes out as a list of query parameters. The API key is a parameter.
- `stores.dfy` (module `Stores`):
  - The classes `ChatStore` (field `messages`) and `LiveInfoStore` (field `info`) stand for the two Svelte stores.
  - Each method assigns its field from a pure update function. `AddMessageUpdate` is the `update` callback of `addMessage`, and `WithLiveId` / `WithChannelStatus` / `WithFetching` are the object-spread setters.

Error paths are modelled explicitly in the `Reply` type:
- `MissingVideoId` is the 400 reply.
- `NoLiveChat` is the 404 reply.
- `Thrown` means an exception escapes the handler: a rejected fetch, or `.filter` on a page without `items`.
- `Unlisted` is `json(undefined)`. It happens when the page has no `items` and the seen set is empty.

Notes on the code's behaviour, which the model follows:
- The handler resolves the video id on every call, not once per session.
- It has no "empty chat id" error.
- A page without a token resets the cursor to null, so the polling state goes back to "no cursor" automatically.
- `addMessage` returns nothing. It does not report whether it appended.

## Model

| member | source | states |
|---|---|---|
| `LiveChatServer.LiveChatRoute.constructor` | src/routes/api/live-chat/+server.ts:7-8 | the module starts with an empty seen set and a null cursor, and the state invariant holds |
| `LiveChatServer.LiveChatRoute.Get` | src/routes/api/live-chat/+server.ts:10-65 | the handler, step by step, produces exactly the reply, chat request and new state that `Poll` describes; it keeps the seen set duplicate-free, within 50, and the cursor null or non-empty |
| `LiveChatServer.LiveChatRoute.RecordIds` | src/routes/api/live-chat/+server.ts:50 | the add loop leaves the seen set equal to `Record` of the old set and the returned messages, and the cursor untouched |
| `LiveChatServer.LiveChatRoute.TrimOldest` | src/routes/api/live-chat/+server.ts:53-59 | the delete loop leaves the seen set equal to `Trim` of the old one |
| `LiveChatServer.Poll` | src/routes/api/live-chat/+server.ts:10-65 | one call as a transition: the chat request is issued exactly when the video id is truthy and the lookup yields a live-chat id; the page is answered (a list, or none) exactly when that request was issued, the chat fetch settled, and the page has items or the seen set is empty; every other outcome leaves the state unchanged |
| `LiveChatServer.LiveChatIdOf` | src/routes/api/live-chat/+server.ts:22-26 | a live-chat id is found exactly when items exist, the first item has streaming details and its active chat id is a non-empty string; the id is that one, from the first item only |
| `LiveChatServer.ChatParams` | src/routes/api/live-chat/+server.ts:28-35 | the query carries the chat id and key once, `maxResults` exactly once with value "50", and `pageToken` once with the cursor's value exactly when the cursor is non-null and non-empty, otherwise not at all |
| `LiveChatServer.NotSeen` | src/routes/api/live-chat/+server.ts:46 | an item is kept exactly when it is on the page and its id is not in the seen set, and each kept item appears as many times as on the page; no more items than the page |
| `LiveChatServer.NotSeenIsSubsequence` | src/routes/api/live-chat/+server.ts:46 | the filtered messages are a subsequence of the page, in upstream order |
| `LiveChatServer.SelectNew` | src/routes/api/live-chat/+server.ts:42-47 | with the guard read as intended, an empty seen set yields the whole page and a non-empty one exactly the items with an unseen id, each as often as on the page |
| `LiveChatServer.SelectNewAsWritten` | src/routes/api/live-chat/+server.ts:43-46 | both branches of the guard as written, which reads `values.length` (the method's arity, `SetValuesArity`, always 0): the whole page is returned, whatever the seen set holds, and the filter branch is never taken |
| `LiveChatServer.Add` | src/routes/api/live-chat/+server.ts:50 | `Set.prototype.add`: the id is present afterwards and nothing else is added; prior entries keep their place, at most one entry is appended, and a duplicate-free set stays duplicate-free |
| `LiveChatServer.Record` | src/routes/api/live-chat/+server.ts:50 | recording keeps the prior entries as a prefix, in the same order, and adds at most one id per message |
| `LiveChatServer.RecordMembers` | src/routes/api/live-chat/+server.ts:50 | after recording, an id is present exactly when it was present before or is the id of a returned message |
| `LiveChatServer.RecordAppendsNewIds` | src/routes/api/live-chat/+server.ts:50 | the ids appended after the prior entries are pairwise distinct and none was present before |
| `LiveChatServer.RecordAppendsInPageOrder` | src/routes/api/live-chat/+server.ts:50 | the appended ids are a subsequence of the returned messages' ids, in page order |
| `LiveChatServer.RecordThenTrim` | src/routes/api/live-chat/+server.ts:50-59 | recording then evicting gives the prior ids followed by the new ids (distinct, in page order, exactly those not present before), cut to the newest 50 with exactly the oldest surplus removed |
| `LiveChatServer.RecordKeepsNoDuplicates` | src/routes/api/live-chat/+server.ts:50 | a duplicate-free seen set stays duplicate-free when ids are added |
| `LiveChatServer.RecordPresentIds` | src/routes/api/live-chat/+server.ts:50 | re-adding ids that are all present leaves the seen set exactly as it was: nothing is duplicated or reordered |
| `LiveChatServer.Trim` | src/routes/api/live-chat/+server.ts:53-59 | the result holds at most 50 ids; at most 50 means unchanged; beyond 50, exactly the `size - 50` oldest ids are removed and the survivors are the rest in their order |
| `LiveChatServer.TrimKeepsNoDuplicates` | src/routes/api/live-chat/+server.ts:53-59 | evicting keeps the seen set duplicate-free |
| `LiveChatServer.NextCursor` | src/routes/api/live-chat/+server.ts:62 | the new cursor is set exactly when the page's token is a non-empty string, and then it is that token |
| `LiveChatServer.PollMissingVideoId` | src/routes/api/live-chat/+server.ts:12-15 | a missing or empty `videoId` gives the 400 reply, issues no chat request and leaves the seen set and cursor unchanged |
| `LiveChatServer.PollNoLiveChat` | src/routes/api/live-chat/+server.ts:22-26 | no items, an empty item list, no streaming details on the first item or no truthy chat id there gives the 404 reply, no chat request and no state change |
| `LiveChatServer.PollErrorsChangeNothing` | src/routes/api/live-chat/+server.ts:12-47 | every 400, 404 or thrown outcome, and every rejected chat fetch, leaves the seen set and the cursor as they were |
| `LiveChatServer.PollRequestParams` | src/routes/api/live-chat/+server.ts:28-35 | an issued chat request asks for 50 results and names the resolved chat id; it carries `pageToken` exactly when the stored cursor is truthy, with the cursor's value |
| `LiveChatServer.PollReplacesCursor` | src/routes/api/live-chat/+server.ts:62 | after an answered page the cursor is the page's token when that is truthy and null otherwise, so the old token is never reused |
| `LiveChatServer.PollSelectsUnseen` | src/routes/api/live-chat/+server.ts:42-47 | returned messages are a subsequence of the page in upstream order: all of them when the seen set is empty, otherwise exactly those with an unseen id, each as often as on the page |
| `LiveChatServer.PollKeepsSeenBounded` | src/routes/api/live-chat/+server.ts:50-59 | from a duplicate-free set of at most 50, any call leaves the seen set duplicate-free with at most 50 ids |
| `LiveChatServer.PollRecordsThenEvictsOldest` | src/routes/api/live-chat/+server.ts:50-59 | the seen set becomes the prior ids followed by the returned ids that were new, each once and in page order; within 50 that is the result; beyond 50 exactly the oldest surplus is cut off and 50 remain in order |
| `LiveChatServer.PollWithoutEvictionRemembersAll` | src/routes/api/live-chat/+server.ts:50 | when nothing is evicted, the prior ids stay a prefix and every returned message's id is in the seen set |
| `LiveChatServer.FirstPollReturnsAll` | src/routes/api/live-chat/+server.ts:43-44 | with an empty seen set, a page of N items yields exactly those N items |
| `LiveChatServer.CursorPropagates` | src/routes/api/live-chat/+server.ts:28-62 | over two calls: after a page with a truthy token, the next chat request carries exactly that token; after a page without one, it carries none |
| `LiveChatServer.AsWrittenRedeliversSeen` | src/routes/api/live-chat/+server.ts:43-46 | with the guard as written, a message whose id is already in the seen set is returned again, which the intended selection never does |
| `Stores.IsDuplicate` | src/stores/store.ts:28-33 | true exactly when some message in the window has the same username, text and unique id |
| `Stores.KeepLast` | src/stores/store.ts:46 | `slice(-n)`: the last `min(length, n)` elements in order, with the dropped ones preceding them; `slice(-0)` keeps all |
| `Stores.AddMessageUpdate` | src/stores/store.ts:26-50 | the `update` callback: a duplicate key returns the window unchanged; otherwise the result has one more entry, at most 50, and ends with the new message |
| `Stores.KeepLastKeepsUniqueKeys` | src/stores/store.ts:46 | cutting off the head keeps the window free of shared keys |
| `Stores.AddMessageKeepsUniqueKeys` | src/stores/store.ts:28-46 | if no two messages share a key before `addMessage`, none do after |
| `Stores.AddMessageBounded` | src/stores/store.ts:45-49 | an appended message leaves at most 50 messages; a window of at most 50 stays within 50 either way |
| `Stores.AddDuplicateIsNoOp` | src/stores/store.ts:45-49 | a message whose key is already present leaves the window unchanged |
| `Stores.AddNewAppends` | src/stores/store.ts:46 | a message with a new key ends up last; the window is the old list followed by it, minus just enough oldest head entries to keep 50 |
| `Stores.AddUsesFullKey` | src/stores/store.ts:28-33 | a message that differs from every entry in username or text is appended, even if it shares a unique id |
| `Stores.AddAllKeepsWindowWellFormed` | src/stores/store.ts:25-50 | from a well-formed window, any sequence of `addMessage` calls keeps it free of shared keys and within 50 |
| `Stores.SetMayBreakUniqueKeys` | src/stores/store.ts:59 | `set` is not guarded: the window it installs can hold two messages sharing a key |
| `Stores.ChatStore.constructor` | src/stores/store.ts:21 | the chat store starts empty |
| `Stores.ChatStore.AddMessage` | src/stores/store.ts:25-50 | the window becomes the `addMessage` update of the old window |
| `Stores.ChatStore.Reset` | src/stores/store.ts:58 | the window becomes empty |
| `Stores.ChatStore.Set` | src/stores/store.ts:59 | the window becomes exactly the given list, with no duplicate test and no bound |
| `Stores.WithLiveId` | src/stores/store.ts:68-70 | sets `liveId` to the given id; `isFetching` and `isChannelLive` keep their values |
| `Stores.WithChannelStatus` | src/stores/store.ts:71 | sets `isChannelLive`; the other two fields keep their values |
| `Stores.WithFetching` | src/stores/store.ts:72 | sets `isFetching`; the other two fields keep their values |
| `Stores.LiveInfoStore.constructor` | src/stores/store.ts:64 | the live-info store is created from `initialValue` (defined at src/stores/store.ts:18): no live id, not fetching, channel not live |
| `Stores.LiveInfoStore.AddLiveId` | src/stores/store.ts:68-70 | the record changes only in `liveId` |
| `Stores.LiveInfoStore.SetStatusChannel` | src/stores/store.ts:71 | the record changes only in `isChannelLive` |
| `Stores.LiveInfoStore.SetIsFetchingData` | src/stores/store.ts:72 | the record changes only in `isFetching` |
| `Stores.LiveInfoStore.Reset` | src/stores/store.ts:73 | the record becomes `{liveId: null, isFetching: false, isChannelLive: false}` |

## Findings

| source | as written | input that shows it | evidently intended | confidence | as-written member | corrected member |
|---|---|---|---|---|---|---|
| src/routes/api/live-chat/+server.ts:43 | `lastMessageIds.values.length == 0` tests the declared arity of the `values` method, which is always 0, so every page is returned whole and the filter on line 46 never runs | seen set `{"a"}` and a page holding an item with id `"a"`: that item is returned again | test the set's size (`lastMessageIds.size == 0`): return the whole page only when nothing has been seen | high: the arity of `Set.prototype.values` is fixed by the language (not executed) | `LiveChatServer.SelectNewAsWritten`, `LiveChatServer.AsWrittenRedeliversSeen` | `LiveChatServer.SelectNew`, `LiveChatServer.PollSelectsUnseen` |

The rest of the model (`Poll`, `LiveChatRoute.Get`) uses the corrected selection. In the literal code, a page without `items` never throws: `newMessages?.forEach` skips the undefined list. In the corrected model, that page throws when the seen set is non-empty, which is what the filter branch at line 46 does.

## Left out

- The two `fetch` calls and `.json()` parsing are network I/O. Their settled outcomes are inputs (`Fetched<T>`).
- The lookup URL and the string form of the chat URL are left out. So is the `API_KEY` import: the key is a parameter, and the chat query is a list of name/value pairs.
- How a thrown exception becomes an HTTP reply is not modelled. It is one `Thrown` outcome, with the state unchanged.
- The JSON body format of the replies is not modelled.
- Upstream JSON of unexpected types is not modelled: a non-string id or token, a null body, `items` that is not an array. Every id and token is a string or absent.
- Svelte's `writable` / `subscribe` machinery is a foreign library. Each store is a class holding its current value.
- Overlapping concurrent calls of the handler, which race on the module state, are not modelled. Calls are sequential.
- Commented-out code is not modelled: the id-suffix workaround using `Date.now()`/`Math.random()`, and the 15-second `setTimeout` removal. It is dead, nondeterministic and driven by timers.
- `src/shared/constants.ts` holds only constants and type declarations. It is not part of this model beyond the shape of the chat item.
- Floating-point unique ids are not modelled. A numeric `uniqueId` is an integer, so `NaN` (never strictly equal to itself) and fractional ids are not covered.
- Stores.AddMessageBounded: it proves "at most 50" for an appended message, or for a window that held at most 50 before. A window installed by `set` with more than 50 entries stays above 50 when the next message is a duplicate, because the code returns it unchanged.

# Chat-history backend: a Dafny model

This project models the chat service of an AI chat application's backend
(`backend/index.js`). The service keeps two MongoDB collections. `chats`
holds one document per conversation: its owner's `userId` and an ordered
`history` of turns. `userchats` holds one document per user: a `chats` array
of `{_id, title}` summaries used for listing. There are five authenticated
endpoints:

- POST `/api/chats` creates a chat. It writes both collections, one after
  the other, without a transaction.
- GET `/api/userchats` lists the caller's summaries. It writes nothing.
- GET `/api/chats/:id` fetches one chat. It writes nothing.
- PUT `/api/chats/:id` appends a question/answer exchange. It writes only
  `chats`.
- DELETE `/api/userchats/:chatId` deletes a chat. It writes both
  collections, one after the other, without a transaction.

Files:

- `documents.dfy` (module `Documents`): the documents as datatypes. It also
  holds the two pure expressions of the handlers: the title
  `text.substring(0, 40)` and the `newItems` array of an append, with its
  JavaScript-truthiness rules for `question` and `img`. Last, the predicate
  `Transcript` gives the shape every history has: one opening user turn,
  then exchanges, each an optional question turn followed by an answer turn.
- `collections.dfy` (module `Collections`): the collections as maps, and the
  document operations the handlers use:
  - the `{_id, userId}` filter (`Owns`);
  - `$push` with `$each` on a history (`PushHistory`);
  - the summary insert or `$push` of a create (`AddSummary`);
  - `$pull` on a summary array (`Pull`), with its order and idempotence
    lemmas;
  - the effect of any sequence of appends (`AppendAll`, `AppendsAccumulate`).
- `consistency.dfy` (module `Consistency`): the agreement the two
  collections are meant to keep. Every chat is listed exactly once, in its
  owner's index; every listed id is a chat of that index's owner. Each
  handler's writes preserve this, and preserve the transcript shape.
- `service.dfy` (module `ChatService`): the class `ChatStore`, whose fields
  are the two collections. Its methods are the five handlers. They perform
  the source's store calls in the source's order, and their contracts give
  the whole new state and the response.
- `scenarios.dfy` (module `Scenarios`): request sequences and what a client
  can conclude from the handlers' contracts alone.

The caller's `userId` is a method parameter. Chat ids are abstract natural
numbers. A create picks any id not yet in `chats`.

Four behaviours of the code a reader may not expect:

- An append to a chat the caller does not own answers 200 with an
  acknowledgement of zero matches, not a not-found.
- A fetch of such a chat answers 200 with an empty body (the handler sends `null`).
- A listing by a user with no `userchats` document answers 500, because
  `userChats[0].chats` throws. It does not answer an empty list.
- A create of a user's first chat sends no response at all (see Findings).

## Model

| member | source | states |
|---|---|---|
| `Documents.Title` | backend/index.js:82 | the title is the prefix of the text of length min(length, 40) |
| `Documents.TitleOfShortText` | backend/index.js:82 | a text of at most 40 characters is its own title |
| `Documents.TitleIgnoresTail` | backend/index.js:96 | the title depends only on the first 40 characters of the text |
| `Documents.NewItems` | backend/index.js:140-145 | a user turn with the question exactly when `question` is truthy (`Truthy`: present and non-empty, as at lines 141-142); it carries `img` exactly when `img` is truthy; then exactly one model turn with the answer, last; no user turn otherwise |
| `Documents.OpeningIsTranscript` | backend/index.js:65-68 | the history a chat is created with has the transcript shape |
| `Documents.ExchangesExtend` | backend/index.js:140-145 | appending one request's items to a run of exchanges gives a run of exchanges |
| `Documents.TranscriptExtend` | backend/index.js:140-157 | an append keeps a history in the transcript shape |
| `Documents.Contributed` | backend/index.js:140-157 | the turns of a sequence of appends, in call order, form a run of exchanges with at least one turn per call |
| `Collections.Above` | backend/index.js:65-70 | a bound above every used chat id, so a fresh id always exists |
| `Collections.PushHistory` | backend/index.js:148-157 | the items go, in order, to the end of the history of the chat matching both `_id` and `userId` (`Owns`, the filter also used at lines 127 and 184); every other chat, and the whole collection when nothing matches, is unchanged |
| `Collections.AddSummary` | backend/index.js:73-100 | a user without an index gets one holding just the new summary; otherwise the summary goes at the end; other users' indexes are unchanged |
| `Collections.Pull` | backend/index.js:173-177 | exactly the entries with the pulled id are removed |
| `Collections.PullConcat` | backend/index.js:175 | pulling from a concatenation pulls from each part, so the remaining entries keep their order |
| `Collections.PullAbsent` | backend/index.js:175 | pulling an id no entry has leaves the array unchanged |
| `Collections.PullIdempotent` | backend/index.js:175 | a second pull of the same id changes nothing |
| `Collections.PullDistinct` | backend/index.js:175 | pulling keeps the ids of an index distinct |
| `Collections.PushFreshDistinct` | backend/index.js:90-100 | pushing a summary whose id the index does not hold keeps the index's ids distinct |
| `Collections.AppendsAccumulate` | backend/index.js:148-157 | after any sequence of appends by the owner, the history is the old history followed by each call's turns in call order; other chats, and a chat the caller does not own, are unchanged |
| `Consistency.CreateListsEveryChat` | backend/index.js:65-100 | after create's two writes the new chat and every older chat are listed in their owner's index |
| `Consistency.CreateListsOnlyOwnChats` | backend/index.js:65-100 | after create's two writes every summary names an existing chat of its index's owner |
| `Consistency.CreateKeepsConsistent` | backend/index.js:65-100 | create's two writes keep every chat listed exactly once in its owner's index and nothing else listed |
| `Consistency.AppendKeepsConsistent` | backend/index.js:148-157 | an append keeps the collections consistent, and keeps every history a transcript |
| `Consistency.UnownedPullIsNoop` | backend/index.js:173-189 | in consistent collections, when the chat is not the caller's, the delete's pull changes nothing |
| `Consistency.DeleteListsEveryChat` | backend/index.js:173-191 | after the pull and the removal of the caller's chat, every remaining chat is still listed in its owner's index |
| `Consistency.DeleteListsOnlyOwnChats` | backend/index.js:173-191 | after the caller's own chat is pulled and removed, every summary still names an existing chat of its index's owner |
| `Consistency.DeleteKeepsConsistent` | backend/index.js:173-191 | delete's pull followed by the owner-filtered chat removal keeps the collections consistent |
| `Consistency.MissingChatUnlisted` | backend/index.js:184-191 | in consistent collections, a chat that does not exist is listed in no index |
| `ChatService.ChatStore.SaveChatAndSummary` | backend/index.js:65-100 | the new chat is stored under an unused id with the text as its only turn (`OpeningTurn`, line 67: one user part, no image); the summary is then added as `AddSummary` says; which branch ran is reported |
| `ChatService.ChatStore.CreateChat` | backend/index.js:59-109 | as written: the chat and summary writes happen, then 201 with the new id when the caller already had an index, and no response otherwise; consistency is preserved |
| `ChatService.ChatStore.CreateChatResponding` | backend/index.js:59-109 | corrected: the same writes, and 201 with the new id on both branches |
| `ChatService.ChatStore.ListChats` | backend/index.js:111-121 | the caller's summaries exactly as stored, or a 500 when the caller has no index; in a consistent store every listed id is a chat the caller owns |
| `ChatService.ChatStore.GetChat` | backend/index.js:123-133 | the chat is returned exactly when it exists and belongs to the caller, otherwise 200 with an empty body (the handler sends `null`) |
| `ChatService.ChatStore.AppendTurns` | backend/index.js:135-163 | the chats collection becomes `PushHistory` of `NewItems`; the index is unchanged; the acknowledgement counts one match exactly when the caller owns the chat; consistency is preserved |
| `ChatService.ChatStore.DeleteChat` | backend/index.js:165-196 | no index: 404, nothing changes. Otherwise the pull is applied first. An unmatched chat gives 404 with the pull kept. A matched chat is removed, and 200 returns the pulled index, which no longer names it. In a consistent store a 404 changes nothing, and a success leaves the id in no index |
| `Scenarios.FirstChatGetsNoResponse` | backend/index.js:76-102 | on an empty store the first create gets no response and the second gets 201; both summaries are listed in order, and the first chat can be reached only through the listing |
| `Scenarios.CreatedChatIsFetchable` | backend/index.js:65-102 | with the corrected create, the returned id fetches the caller's one-turn chat, and the listing ends with its summary |
| `Scenarios.OtherUserIsShutOut` | backend/index.js:123-196 | in a consistent store, a caller who does not own the chat, whether or not it exists, gets `null` (an empty 200 body) on fetch, a zero-match acknowledgement on append and 404 on delete, and the store is unchanged |
| `Scenarios.DeleteIsTotal` | backend/index.js:165-191 | in a consistent store, after the owner's delete succeeds, a fetch gives `null` (an empty 200 body) and the listing no longer mentions the chat |
| `Scenarios.TwoAppendsInOrder` | backend/index.js:140-157 | a question with an image and then an empty question add exactly: the question turn carrying the image, its answer, and the second answer, in that order |

## Findings

| source | as written | input that shows it | evidently intended | confidence | as-written member | corrected member |
|---|---|---|---|---|---|---|
| backend/index.js:76-102 | the `res.status(201).send(...)` is inside the `else` branch, so the branch that creates a user's first `userchats` document ends without sending any response | a user with no `userchats` document sends POST `/api/chats` with `{text: "hi"}` | answer 201 with the new chat's id on both branches | not executed; high | `ChatService.ChatStore.CreateChat` (shown by `Scenarios.FirstChatGetsNoResponse`) | `ChatService.ChatStore.CreateChatResponding` (used by `Scenarios.CreatedChatIsFetchable`) |

## Left out

- Express setup, CORS, JSON body parsing, `app.listen` and `mongoose.connect` (backend/index.js:11-32, 203-206). These are process and I/O plumbing.
- Clerk authentication and the 401 error handler (backend/index.js:8-9, 198-201). The authenticated `userId` is a parameter of every handler.
- GET `/api/upload` (backend/index.js:34-43). It returns the opaque result of a call into the ImageKit library.
- Store failures and the `catch` branches that answer 500 (backend/index.js:105-108, 117-120, 129-132, 159-162, 192-195). So the model also leaves out the partial failures that break consistency. One is a chat saved with no summary, when create's index write fails. The other is a summary pulled from a chat that is never deleted, when delete's chat removal fails. The only 500 modelled is the listing of a user with no index, because it follows from the data alone.
- Concurrency. Each handler is one atomic step, so races between requests are not modelled. In particular, two simultaneous first creates could both insert a `userchats` document. The model keeps at most one index document per user.
- Malformed ids. A route parameter that is not a valid object id makes Mongoose throw a cast error, answered with 500. Ids here are abstract numbers, so the model never sees one.
- Request bodies whose fields have other JavaScript types. `text`, `question`, `answer` and `img` are strings. `question` and `img` may also be absent. For example, a missing `text` either fails the chat schema's validation in `save` (backend/index.js:70), or, if the schema accepts it, makes `text.substring` (backend/index.js:82, 96) throw after the chat is saved. Neither is modelled.
- `Documents.Title`: counts Dafny characters (Unicode scalar values), whereas JavaScript's `substring` counts UTF-16 code units. The two differ on text outside the Basic Multilingual Plane.
- The Mongoose schemas (`models/chat.js`, `models/userChats.js`) are not part of this model. So are their validation, defaults, timestamps and the `_id` of `userchats` documents. A turn's `img` is assumed to be stored as the handler builds it.
- `ChatService.ChatStore.AppendTurns`: the acknowledgement is reduced to `matchedCount` and `modifiedCount`.
- `ChatService.ChatStore.DeleteChat`: the `userChats` document in the 200 body is reduced to its owner and its `chats` array.
- `ChatService.ChatStore.GetChat`: the returned chat document omits its `_id`, which equals the requested id.
- `client/src/components/chatList/ChatList.jsx`: React rendering and fetch wiring, with no logic to state.

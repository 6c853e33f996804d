/** The chat service: the handlers of POST /api/chats, GET /api/userchats,
    GET /api/chats/:id, PUT /api/chats/:id and DELETE /api/userchats/:chatId,
    each one atomic step over the two collections, taking the authenticated
    caller's `userId` as a parameter. */
module ChatService {
  import opened Documents
  import opened Collections
  import opened Consistency

  const UserChatsNotFound := "User chats not found"
  const ChatNotFound := "Chat document not found"
  const DeletedMessage := "Chat deleted successfully"
  const FetchUserChatsFailed := "Error fetching userchats!"

  /** What a handler sends back. */
  datatype Response =
    | Created(id: ChatId)                                      // 201, the new chat's id
    | NoResponse                                               // nothing is sent at all
    | Summaries(summaries: seq<Summary>)                       // 200, the caller's summaries
    | ChatBody(chat: Option<Chat>)                             // 200, the chat document, or null (an empty body)
    | Acknowledged(matchedCount: nat, modifiedCount: nat)      // 200, the result of updateOne
    | Deleted(message: string, owner: UserId, remaining: seq<Summary>)  // 200, { message, userChats }
    | NotFound(message: string)                                // 404, { message }
    | ServerError(message: string)                             // 500

  /** The HTTP status of a response; none when nothing is sent. */
  function Status(r: Response): Option<nat>
  {
    match r
    case Created(_) => Some(201)
    case NoResponse => None
    case NotFound(_) => Some(404)
    case ServerError(_) => Some(500)
    case _ => Some(200)
  }

  class ChatStore {
    /** The chats collection. */
    var chats: ChatMap
    /** The userchats collection. */
    var userChats: IndexMap

    /** The collections agree with each other and every history is a transcript. */
    ghost predicate Valid()
      reads this
    {
      Consistent(chats, userChats) && AllTranscripts(chats)
    }

    constructor ()
      ensures chats == map[] && userChats == map[]
      ensures Valid()
    {
      chats := map[];
      userChats := map[];
    }

    /** The two writes of a create: the new chat is saved under an unused id
        with the text as its only turn, then its summary is recorded in the
        caller's index, which is created when `UserChats.find` finds none.
        `indexExisted` tells which of the two branches ran. */
    method SaveChatAndSummary(userId: UserId, text: string) returns (id: ChatId, indexExisted: bool)
      modifies this
      ensures id !in old(chats)
      ensures chats == old(chats)[id := Chat(userId, [OpeningTurn(text)])]
      ensures userChats == AddSummary(old(userChats), userId, Summary(id, Title(text)))
      ensures indexExisted == (userId in old(userChats))
      ensures old(Valid()) ==> Valid()
    {
      ghost var bound := Above(chats.Keys);
      assert bound !in chats;
      var newId: ChatId :| newId !in chats;
      if Consistent(chats, userChats) {
        CreateKeepsConsistent(chats, userChats, newId, userId, text);
      }
      id := newId;
      chats := chats[id := Chat(userId, [OpeningTurn(text)])];
      indexExisted := userId in userChats;
      if !indexExisted {
        userChats := userChats[userId := [Summary(id, Title(text))]];
      } else {
        userChats := userChats[userId := userChats[userId] + [Summary(id, Title(text))]];
      }
    }

    /** POST /api/chats as written: the 201 with the new id is sent only when
        the caller already had an index; a first chat gets no response. */
    method CreateChat(userId: UserId, text: string) returns (response: Response, ghost id: ChatId)
      modifies this
      ensures id !in old(chats)
      ensures chats == old(chats)[id := Chat(userId, [OpeningTurn(text)])]
      ensures userId !in old(userChats) ==> userChats == old(userChats)[userId := [Summary(id, Title(text))]]
      ensures userId in old(userChats) ==>
        userChats == old(userChats)[userId := old(userChats)[userId] + [Summary(id, Title(text))]]
      ensures response == if userId in old(userChats) then Created(id) else NoResponse
      ensures Status(response) == if userId in old(userChats) then Some(201) else None
      ensures old(Valid()) ==> Valid()
    {
      var newId, indexExisted := SaveChatAndSummary(userId, text);
      id := newId;
      response := if indexExisted then Created(newId) else NoResponse;
    }

    /** POST /api/chats as evidently intended: the same two writes, and the
        201 with the new id on both branches. */
    method CreateChatResponding(userId: UserId, text: string) returns (response: Response)
      modifies this
      ensures response.Created? && response.id !in old(chats)
      ensures Status(response) == Some(201)
      ensures chats == old(chats)[response.id := Chat(userId, [OpeningTurn(text)])]
      ensures userChats == AddSummary(old(userChats), userId, Summary(response.id, Title(text)))
      ensures old(Valid()) ==> Valid()
    {
      var newId, _ := SaveChatAndSummary(userId, text);
      response := Created(newId);
    }

    /** GET /api/userchats: the caller's summaries as stored; a caller with
        no index document makes `userChats[0].chats` throw, which the handler
        turns into a 500. */
    method ListChats(userId: UserId) returns (response: Response)
      ensures userId in userChats ==> response == Summaries(userChats[userId])
      ensures userId !in userChats ==> response == ServerError(FetchUserChatsFailed)
      ensures Status(response) == if userId in userChats then Some(200) else Some(500)
      ensures Valid() && response.Summaries? ==>
        forall x :: x in response.summaries ==> Owns(chats, x.id, userId)
    {
      if userId in userChats {
        response := Summaries(userChats[userId]);
      } else {
        response := ServerError(FetchUserChatsFailed);
      }
    }

    /** GET /api/chats/:id: 200 with the chat when it exists and belongs to
        the caller, and otherwise 200 with an empty body: the handler sends
        `null`, which Express sends as an empty body with status 200. */
    method GetChat(userId: UserId, id: ChatId) returns (response: Response)
      ensures response.ChatBody? && Status(response) == Some(200)
      ensures response.chat.Some? <==> Owns(chats, id, userId)
      ensures response.chat.Some? ==> response.chat.value == chats[id]
      ensures Valid() && response.chat.Some? ==> Transcript(response.chat.value.history)
    {
      if id in chats && chats[id].userId == userId {
        response := ChatBody(Some(chats[id]));
      } else {
        response := ChatBody(None);
      }
    }

    /** PUT /api/chats/:id: `newItems` goes to the end of the caller's chat;
        on any other id nothing changes and the acknowledgement counts no
        match, still with status 200. */
    method AppendTurns(userId: UserId, id: ChatId, question: Option<string>, answer: string, img: Option<string>)
      returns (response: Response)
      modifies this
      ensures userChats == old(userChats)
      ensures chats == PushHistory(old(chats), id, userId, NewItems(question, answer, img))
      ensures response == if Owns(old(chats), id, userId) then Acknowledged(1, 1) else Acknowledged(0, 0)
      ensures Status(response) == Some(200)
      ensures old(Valid()) ==> Valid()
    {
      var items := NewItems(question, answer, img);
      if Consistent(chats, userChats) {
        AppendKeepsConsistent(chats, userChats, id, userId, AppendRequest(question, answer, img));
      }
      if id in chats && chats[id].userId == userId {
        chats := chats[id := Chat(userId, chats[id].history + items)];
        response := Acknowledged(1, 1);
      } else {
        response := Acknowledged(0, 0);
      }
    }

    /** DELETE /api/userchats/:chatId: first the `$pull` of `chatId` from the
        caller's index (404 when the caller has none), then the owner-filtered
        delete of the chat (404 when nothing matches, with the pull already
        done), and on success 200 with the index as it is after the pull. */
    method DeleteChat(userId: UserId, chatId: ChatId) returns (response: Response)
      modifies this
      ensures userId !in old(userChats) ==>
        response == NotFound(UserChatsNotFound) && chats == old(chats) && userChats == old(userChats)
      ensures userId in old(userChats) ==>
        userChats == old(userChats)[userId := Pull(old(userChats)[userId], chatId)]
      ensures userId in old(userChats) && !Owns(old(chats), chatId, userId) ==>
        response == NotFound(ChatNotFound) && chats == old(chats)
      ensures userId in old(userChats) && Owns(old(chats), chatId, userId) ==>
        response == Deleted(DeletedMessage, userId, Pull(old(userChats)[userId], chatId)) &&
        chats == old(chats) - {chatId}
      ensures response.Deleted? ==> forall x :: x in response.remaining ==> x.id != chatId
      ensures Status(response) == if response.Deleted? then Some(200) else Some(404)
      ensures old(Valid()) ==> Valid()
      ensures old(Valid()) && response.NotFound? ==> chats == old(chats) && userChats == old(userChats)
      ensures old(Valid()) && response.Deleted? ==> forall u :: u in userChats ==> chatId !in Ids(userChats[u])
    {
      if userId !in userChats {
        return NotFound(UserChatsNotFound);
      }
      ghost var chats0, index0 := chats, userChats;
      var remaining := Pull(userChats[userId], chatId);
      userChats := userChats[userId := remaining];
      if !(chatId in chats && chats[chatId].userId == userId) {
        if Consistent(chats0, index0) {
          UnownedPullIsNoop(chats0, index0, userId, chatId);
        }
        return NotFound(ChatNotFound);
      }
      chats := chats - {chatId};
      response := Deleted(DeletedMessage, userId, remaining);
      if Consistent(chats0, index0) {
        DeleteKeepsConsistent(chats0, index0, userId, chatId);
        MissingChatUnlisted(chats, userChats, chatId);
      }
    }
  }
}

/** Sequences of requests against the store, and what a client can conclude
    from the handlers' contracts alone. */
module Scenarios {
  import opened Documents
  import opened Collections
  import opened Consistency
  import opened ChatService

  /** On an empty store, a user's first create gets no response at all and
      the second gets 201 with its id; the listing then holds both
      summaries, in creation order, titled by their first 40 characters,
      and the first chat can be fetched, through the id the listing gives,
      with its single opening turn. */
  method FirstChatGetsNoResponse(userId: UserId, text1: string, text2: string)
    returns (first: Response, second: Response, listed: Response, fetched: Response)
    ensures first == NoResponse
    ensures second.Created?
    ensures listed.Summaries? && |listed.summaries| == 2
    ensures listed.summaries[0].title == Title(text1) && listed.summaries[0].id != second.id
    ensures listed.summaries[1] == Summary(second.id, Title(text2))
    ensures fetched == ChatBody(Some(Chat(userId, [OpeningTurn(text1)])))
  {
    var store := new ChatStore();
    ghost var id1, id2;
    first, id1 := store.CreateChat(userId, text1);
    second, id2 := store.CreateChat(userId, text2);
    listed := store.ListChats(userId);
    // The caller never learned the first id: it reads it from the listing.
    fetched := store.GetChat(userId, listed.summaries[0].id);
  }

  /** In a consistent store, a user who does not own a chat (whether or not
      it exists) gets `null` (an empty 200 body) when fetching it, a zero-match acknowledgement when
      appending to it and a 404 when deleting it, and none of the three
      changes either collection. */
  method OtherUserIsShutOut(store: ChatStore, other: UserId, id: ChatId,
                            question: Option<string>, answer: string, img: Option<string>)
    returns (fetched: Response, appended: Response, deleted: Response)
    requires store.Valid()
    requires !Owns(store.chats, id, other)
    modifies store
    ensures fetched == ChatBody(None)
    ensures appended == Acknowledged(0, 0)
    ensures deleted.NotFound?
    ensures store.chats == old(store.chats) && store.userChats == old(store.userChats)
  {
    fetched := store.GetChat(other, id);
    appended := store.AppendTurns(other, id, question, answer, img);
    deleted := store.DeleteChat(other, id);
  }

  /** In a consistent store, once a delete succeeds the chat can no longer
      be fetched and the owner's listing no longer mentions it. */
  method DeleteIsTotal(store: ChatStore, userId: UserId, chatId: ChatId)
    returns (deleted: Response, fetched: Response, listed: Response)
    requires store.Valid()
    requires Owns(store.chats, chatId, userId)
    modifies store
    ensures deleted.Deleted?
    ensures fetched == ChatBody(None)
    ensures listed.Summaries? && forall x :: x in listed.summaries ==> x.id != chatId
  {
    deleted := store.DeleteChat(userId, chatId);
    fetched := store.GetChat(userId, chatId);
    listed := store.ListChats(userId);
  }

  /** Two appends to the caller's chat, the first with a question and an
      image, the second with an empty question: the history grows by the
      question turn carrying the image, its answer, and the second answer
      alone, in that order. */
  method TwoAppendsInOrder(store: ChatStore, userId: UserId, id: ChatId,
                           q: string, a1: string, image: string, a2: string)
    returns (r1: Response, r2: Response)
    requires Owns(store.chats, id, userId)
    requires q != "" && image != ""
    modifies store
    ensures r1 == Acknowledged(1, 1) && r2 == Acknowledged(1, 1)
    ensures Owns(store.chats, id, userId)
    ensures store.chats[id].history ==
      old(store.chats[id].history) +
      [Turn(User, [Part(q)], Some(image)), Turn(Model, [Part(a1)], None), Turn(Model, [Part(a2)], None)]
  {
    ghost var h0 := store.chats[id].history;
    var first := NewItems(Some(q), a1, Some(image));
    var second := NewItems(Some(""), a2, Some(image));
    assert first == [Turn(User, [Part(q)], Some(image)), Turn(Model, [Part(a1)], None)];
    assert second == [Turn(Model, [Part(a2)], None)];
    r1 := store.AppendTurns(userId, id, Some(q), a1, Some(image));
    assert store.chats[id].history == h0 + first;
    r2 := store.AppendTurns(userId, id, Some(""), a2, Some(image));
    assert store.chats[id].history == h0 + first + second;
  }

  /** With the corrected create, every create answers with the new id; that
      id fetches a chat owned by the caller whose history is the text alone,
      and the caller's listing ends with its summary. */
  method CreatedChatIsFetchable(store: ChatStore, userId: UserId, text: string)
    returns (created: Response, fetched: Response, listed: Response)
    requires store.Valid()
    modifies store
    ensures created.Created? && created.id !in old(store.chats)
    ensures fetched == ChatBody(Some(Chat(userId, [OpeningTurn(text)])))
    ensures listed.Summaries? && |listed.summaries| >= 1
    ensures listed.summaries[|listed.summaries| - 1] == Summary(created.id, Title(text))
    ensures store.Valid()
  {
    created := store.CreateChatResponding(userId, text);
    assert Owns(store.chats, created.id, userId);
    fetched := store.GetChat(userId, created.id);
    assert userId in store.userChats;
    listed := store.ListChats(userId);
  }
}

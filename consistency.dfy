/** The consistency the two collections are meant to keep between them
    (each chat listed exactly once, in its owner's index, and nothing else
    listed), the shape of every chat's history, and proofs that each
    handler's store effect preserves both. */
module Consistency {
  import opened Documents
  import opened Collections

  /** Every chat appears in its owner's index. */
  ghost predicate EveryChatListed(chats: ChatMap, index: IndexMap)
  {
    forall id :: id in chats ==> chats[id].userId in index && id in Ids(index[chats[id].userId])
  }

  /** Every summary in an index names an existing chat of that index's owner. */
  ghost predicate OnlyOwnChatsListed(chats: ChatMap, index: IndexMap)
  {
    forall u, x :: u in index && x in index[u] ==> Owns(chats, x.id, u)
  }

  /** No index lists a chat twice. */
  ghost predicate NoChatListedTwice(index: IndexMap)
  {
    forall u :: u in index ==> DistinctIds(index[u])
  }

  /** The two collections agree: each chat is listed exactly once, in its
      owner's index, and nothing else is listed. */
  ghost predicate Consistent(chats: ChatMap, index: IndexMap)
  {
    EveryChatListed(chats, index) && OnlyOwnChatsListed(chats, index) && NoChatListedTwice(index)
  }

  /** Every stored history has the shape create and append give it. */
  ghost predicate AllTranscripts(chats: ChatMap)
  {
    forall id :: id in chats ==> Transcript(chats[id].history)
  }

  /** After create's two writes the new chat, and every older one, is listed
      in its owner's index. */
  lemma CreateListsEveryChat(chats: ChatMap, index: IndexMap, id: ChatId, userId: UserId, text: string)
    requires EveryChatListed(chats, index)
    ensures EveryChatListed(chats[id := Chat(userId, [OpeningTurn(text)])],
                            AddSummary(index, userId, Summary(id, Title(text))))
  {
    var chats' := chats[id := Chat(userId, [OpeningTurn(text)])];
    var s := Summary(id, Title(text));
    var index' := AddSummary(index, userId, s);
    forall k | k in chats' ensures chats'[k].userId in index' && k in Ids(index'[chats'[k].userId]) {
      if k == id {
        assert s in index'[userId];
      } else {
        var u := chats[k].userId;
        var x :| x in index[u] && x.id == k;
        assert x in index'[u];
      }
    }
  }

  /** After create's two writes every summary still names a chat of its
      index's owner. */
  lemma CreateListsOnlyOwnChats(chats: ChatMap, index: IndexMap, id: ChatId, userId: UserId, text: string)
    requires OnlyOwnChatsListed(chats, index)
    requires id !in chats
    ensures OnlyOwnChatsListed(chats[id := Chat(userId, [OpeningTurn(text)])],
                               AddSummary(index, userId, Summary(id, Title(text))))
  {
    var chats' := chats[id := Chat(userId, [OpeningTurn(text)])];
    var s := Summary(id, Title(text));
    var index' := AddSummary(index, userId, s);
    forall u, x: Summary | u in index' && x in index'[u] ensures Owns(chats', x.id, u) {
      if u == userId && x != s {
        assert x in index[userId];
      } else if u != userId {
        assert x in index[u];
      }
    }
  }

  /** Create's two writes (the chat under an unused id, then its summary)
      keep the collections consistent and every history a transcript. */
  lemma CreateKeepsConsistent(chats: ChatMap, index: IndexMap, id: ChatId, userId: UserId, text: string)
    requires Consistent(chats, index)
    requires id !in chats
    ensures Consistent(chats[id := Chat(userId, [OpeningTurn(text)])],
                       AddSummary(index, userId, Summary(id, Title(text))))
    ensures AllTranscripts(chats) ==> AllTranscripts(chats[id := Chat(userId, [OpeningTurn(text)])])
  {
    var s := Summary(id, Title(text));
    var prior := if userId in index then index[userId] else [];
    forall x | x in prior ensures x.id != id {
      assert Owns(chats, x.id, userId);
    }
    PushFreshDistinct(prior, s);
    assert AddSummary(index, userId, s)[userId] == prior + [s];
    CreateListsEveryChat(chats, index, id, userId, text);
    CreateListsOnlyOwnChats(chats, index, id, userId, text);
    OpeningIsTranscript(text);
  }

  /** An append changes histories only, so it keeps the collections
      consistent; with the items an append builds it keeps every history a
      transcript. */
  lemma AppendKeepsConsistent(chats: ChatMap, index: IndexMap, id: ChatId, userId: UserId, r: AppendRequest)
    requires Consistent(chats, index)
    ensures Consistent(PushHistory(chats, id, userId, NewItems(r.question, r.answer, r.img)), index)
    ensures AllTranscripts(chats) ==>
      AllTranscripts(PushHistory(chats, id, userId, NewItems(r.question, r.answer, r.img)))
  {
    var items := NewItems(r.question, r.answer, r.img);
    var chats' := PushHistory(chats, id, userId, items);
    forall u, x | u in index && x in index[u] ensures Owns(chats', x.id, u) {
      assert Owns(chats, x.id, u);
    }
    if AllTranscripts(chats) && Owns(chats, id, userId) {
      TranscriptExtend(chats[id].history, r);
    }
  }

  /** When the caller's index does not list the chat (it is missing or
      belongs to someone else), the `$pull` of the delete changes nothing. */
  lemma {:induction false} UnownedPullIsNoop(chats: ChatMap, index: IndexMap, userId: UserId, chatId: ChatId)
    requires Consistent(chats, index)
    requires userId in index
    requires !Owns(chats, chatId, userId)
    ensures Pull(index[userId], chatId) == index[userId]
    ensures index[userId := Pull(index[userId], chatId)] == index
  {
    forall x | x in index[userId] ensures x.id != chatId {
      assert Owns(chats, x.id, userId);
    }
    PullAbsent(index[userId], chatId);
  }

  /** After the owner's chat is pulled from the owner's index and removed,
      every remaining chat is still listed in its owner's index. */
  lemma DeleteListsEveryChat(chats: ChatMap, index: IndexMap, userId: UserId, chatId: ChatId)
    requires EveryChatListed(chats, index)
    requires userId in index
    ensures EveryChatListed(chats - {chatId}, index[userId := Pull(index[userId], chatId)])
  {
    var chats' := chats - {chatId};
    var index': IndexMap := index[userId := Pull(index[userId], chatId)];
    forall k | k in chats' ensures chats'[k].userId in index' && k in Ids(index'[chats'[k].userId]) {
      var u := chats[k].userId;
      var x :| x in index[u] && x.id == k;
      assert x in index'[u];
    }
  }

  /** After the owner's chat is pulled from the owner's index and removed,
      every summary still names a chat of its index's owner: no other index
      listed it. */
  lemma DeleteListsOnlyOwnChats(chats: ChatMap, index: IndexMap, userId: UserId, chatId: ChatId)
    requires OnlyOwnChatsListed(chats, index)
    requires userId in index
    requires Owns(chats, chatId, userId)
    ensures OnlyOwnChatsListed(chats - {chatId}, index[userId := Pull(index[userId], chatId)])
  {
    var index': IndexMap := index[userId := Pull(index[userId], chatId)];
    forall u, x: Summary | u in index' && x in index'[u] ensures Owns(chats - {chatId}, x.id, u) {
      assert x in index[u];
      assert Owns(chats, x.id, u);
    }
  }

  /** Delete's two writes (the `$pull` from the caller's index, then the
      owner-filtered removal of the chat) keep the collections consistent. */
  lemma DeleteKeepsConsistent(chats: ChatMap, index: IndexMap, userId: UserId, chatId: ChatId)
    requires Consistent(chats, index)
    requires userId in index
    ensures Consistent(if Owns(chats, chatId, userId) then chats - {chatId} else chats,
                       index[userId := Pull(index[userId], chatId)])
  {
    if Owns(chats, chatId, userId) {
      PullDistinct(index[userId], chatId);
      DeleteListsEveryChat(chats, index, userId, chatId);
      DeleteListsOnlyOwnChats(chats, index, userId, chatId);
    } else {
      UnownedPullIsNoop(chats, index, userId, chatId);
    }
  }

  /** In consistent collections, a chat that does not exist is listed in no
      index: after a successful delete no user's summaries mention it. */
  lemma MissingChatUnlisted(chats: ChatMap, index: IndexMap, chatId: ChatId)
    requires Consistent(chats, index)
    requires chatId !in chats
    ensures forall u :: u in index ==> chatId !in Ids(index[u])
  {
  }
}

/** The two collections as maps, and the document operations the handlers
    apply to them: the `{ _id, userId }` filter, `$push` with `$each` on a
    chat's history, and `$pull` on a user's summaries. */
module Collections {
  import opened Documents

  /** The chats collection, keyed by `_id`. */
  type ChatMap = map<ChatId, Chat>

  /** The userchats collection: at most one document per user, reduced to
      its `chats` array. */
  type IndexMap = map<UserId, seq<Summary>>

  /** A number above every id in `ids`, so that an unused id always exists. */
  ghost function Above(ids: set<ChatId>): (bound: ChatId)
    ensures forall k :: k in ids ==> k < bound
    decreases ids
  {
    if ids == {} then 0
    else
      var x :| x in ids;
      var rest := Above(ids - {x});
      assert forall k :: k in ids ==> k == x || k in ids - {x};
      if x < rest then rest else x + 1
  }

  /** The filter `{ _id: id, userId }`: the chat exists and belongs to `userId`. */
  predicate Owns(chats: ChatMap, id: ChatId, userId: UserId)
  {
    id in chats && chats[id].userId == userId
  }

  /** `updateOne({ _id: id, userId }, { $push: { history: { $each: items } } })`:
      the items go, in order, to the end of the matching chat's history;
      without a match nothing changes. */
  function PushHistory(chats: ChatMap, id: ChatId, userId: UserId, items: seq<Turn>): (after: ChatMap)
    ensures after.Keys == chats.Keys
    ensures forall k :: k in chats && k != id ==> after[k] == chats[k]
    ensures Owns(chats, id, userId) ==> after[id] == Chat(userId, chats[id].history + items)
    ensures !Owns(chats, id, userId) ==> after == chats
    ensures forall k :: k in after ==> after[k].userId == chats[k].userId
  {
    if Owns(chats, id, userId) then chats[id := Chat(userId, chats[id].history + items)] else chats
  }

  /** The userchats collection after a create has recorded summary `s`: a new
      document holding just `s` when the user had none (`new UserChats(...).save()`),
      otherwise `s` pushed at the end of the user's array (`updateOne` with `$push`). */
  function AddSummary(index: IndexMap, userId: UserId, s: Summary): (after: IndexMap)
    ensures after.Keys == index.Keys + {userId}
    ensures forall u :: u in index && u != userId ==> after[u] == index[u]
    ensures userId !in index ==> after[userId] == [s]
    ensures userId in index ==> after[userId] == index[userId] + [s]
  {
    index[userId := if userId in index then index[userId] + [s] else [s]]
  }

  /** The ids an index lists. */
  function Ids(s: seq<Summary>): (ids: set<ChatId>)
    ensures forall x :: x in s ==> x.id in ids
    ensures forall id :: id in ids ==> exists x :: x in s && x.id == id
  {
    set x | x in s :: x.id
  }

  /** `$pull: { chats: { _id: id } }` on one summary array: every entry with
      that id goes, the others stay. */
  function Pull(s: seq<Summary>, id: ChatId): (r: seq<Summary>)
    ensures forall x :: x in r <==> x in s && x.id != id
    ensures |r| <= |s|
    decreases |s|
  {
    if s == [] then []
    else (if s[0].id == id then [] else [s[0]]) + Pull(s[1..], id)
  }

  /** Pulling from a concatenation pulls from each part: the entries that
      stay keep their order. */
  lemma {:induction false} PullConcat(a: seq<Summary>, b: seq<Summary>, id: ChatId)
    ensures Pull(a + b, id) == Pull(a, id) + Pull(b, id)
    decreases |a|
  {
    if a == [] {
      assert a + b == b;
    } else {
      assert (a + b)[0] == a[0];
      assert (a + b)[1..] == a[1..] + b;
      PullConcat(a[1..], b, id);
    }
  }

  /** Pulling an id that no entry has changes nothing. */
  lemma {:induction false} PullAbsent(s: seq<Summary>, id: ChatId)
    requires forall x :: x in s ==> x.id != id
    ensures Pull(s, id) == s
    decreases |s|
  {
    if s != [] {
      assert s[0] in s;
      assert forall x :: x in s[1..] ==> x in s;
      PullAbsent(s[1..], id);
      assert [s[0]] + s[1..] == s;
    }
  }

  /** A second pull of the same id changes nothing. */
  lemma PullIdempotent(s: seq<Summary>, id: ChatId)
    ensures Pull(Pull(s, id), id) == Pull(s, id)
  {
    PullAbsent(Pull(s, id), id);
  }

  /** No two entries of `s` have the same id. */
  predicate DistinctIds(s: seq<Summary>)
  {
    forall i, j :: 0 <= i < j < |s| ==> s[i].id != s[j].id
  }

  /** The tail of an index with distinct ids has distinct ids, none equal
      to the head's. */
  lemma DistinctTail(s: seq<Summary>)
    requires DistinctIds(s) && s != []
    ensures DistinctIds(s[1..])
    ensures forall y :: y in s[1..] ==> y.id != s[0].id
  {
    forall i, j | 0 <= i < j < |s[1..]| ensures s[1..][i].id != s[1..][j].id {
      assert s[1..][i] == s[i + 1] && s[1..][j] == s[j + 1];
    }
    forall y | y in s[1..] ensures y.id != s[0].id {
      var j :| 0 <= j < |s[1..]| && s[1..][j] == y;
      assert s[j + 1] == y;
    }
  }

  /** Putting an entry with a new id in front keeps the ids distinct. */
  lemma ConsDistinct(x: Summary, r: seq<Summary>)
    requires DistinctIds(r)
    requires forall y :: y in r ==> y.id != x.id
    ensures DistinctIds([x] + r)
  {
    var t := [x] + r;
    forall i, j | 0 <= i < j < |t| ensures t[i].id != t[j].id {
      assert t[j] == r[j - 1];
      if i == 0 {
        assert r[j - 1] in r;
      } else {
        assert t[i] == r[i - 1];
      }
    }
  }

  /** Pulling keeps the ids of an index distinct. */
  lemma {:induction false} PullDistinct(s: seq<Summary>, id: ChatId)
    requires DistinctIds(s)
    ensures DistinctIds(Pull(s, id))
    decreases |s|
  {
    if s != [] {
      DistinctTail(s);
      PullDistinct(s[1..], id);
      var rest := Pull(s[1..], id);
      if s[0].id != id {
        ConsDistinct(s[0], rest);
      } else {
        assert Pull(s, id) == rest;
      }
    }
  }

  /** Pushing an entry whose id no entry has keeps the ids of an index distinct. */
  lemma PushFreshDistinct(s: seq<Summary>, x: Summary)
    requires DistinctIds(s)
    requires forall y :: y in s ==> y.id != x.id
    ensures DistinctIds(s + [x])
  {
    var t := s + [x];
    forall i, j | 0 <= i < j < |t| ensures t[i].id != t[j].id {
      assert t[i] == s[i];
      if j == |s| {
        assert s[i] in s;
      } else {
        assert t[j] == s[j];
      }
    }
  }

  /** The chats collection after a sequence of appends to chat `id` by `userId`. */
  ghost function AppendAll(chats: ChatMap, id: ChatId, userId: UserId, reqs: seq<AppendRequest>): ChatMap
    decreases |reqs|
  {
    if reqs == [] then chats
    else
      var last := reqs[|reqs| - 1];
      PushHistory(AppendAll(chats, id, userId, reqs[..|reqs| - 1]), id, userId,
                  NewItems(last.question, last.answer, last.img))
  }

  /** A sequence of appends leaves the chat's history equal to its old history
      followed by each call's turns in call order; every other chat, and a chat
      the caller does not own, stays as it was. */
  lemma {:induction false} AppendsAccumulate(chats: ChatMap, id: ChatId, userId: UserId, reqs: seq<AppendRequest>)
    ensures AppendAll(chats, id, userId, reqs).Keys == chats.Keys
    ensures forall k :: k in chats && k != id ==> AppendAll(chats, id, userId, reqs)[k] == chats[k]
    ensures Owns(chats, id, userId) ==>
      AppendAll(chats, id, userId, reqs)[id] == Chat(userId, chats[id].history + Contributed(reqs))
    ensures !Owns(chats, id, userId) ==> AppendAll(chats, id, userId, reqs) == chats
    decreases |reqs|
  {
    if reqs == [] {
      if Owns(chats, id, userId) {
        assert chats[id].history + [] == chats[id].history;
      }
    } else {
      var earlier := reqs[..|reqs| - 1];
      var last := reqs[|reqs| - 1];
      AppendsAccumulate(chats, id, userId, earlier);
      var items := NewItems(last.question, last.answer, last.img);
      if Owns(chats, id, userId) {
        assert chats[id].history + Contributed(earlier) + items
            == chats[id].history + (Contributed(earlier) + items);
      }
    }
  }
}

/** The documents the chat service stores, and the pure expressions its
    handlers build them from: the summary title and the turns an append adds. */
module Documents {

  datatype Option<T> = None | Some(value: T)

  /** A chat's `_id`. Object ids are abstract: all the model needs is equality
      and an unlimited supply of unused ones. */
  type ChatId = nat

  /** The authenticated caller's `userId`. */
  type UserId = string

  datatype Role = User | Model

  datatype Part = Part(text: string)

  /** One entry of a chat's `history`. `img` is the turn-level image reference
      that only user turns built by an append can carry. */
  datatype Turn = Turn(role: Role, parts: seq<Part>, img: Option<string>)

  /** A document of the chats collection (its `_id` is the key it is stored under). */
  datatype Chat = Chat(userId: UserId, history: seq<Turn>)

  /** One entry of the `chats` array of a user's userchats document. */
  datatype Summary = Summary(id: ChatId, title: string)

  /** The body of a PUT to a chat: `question` and `img` may be absent. */
  datatype AppendRequest = AppendRequest(question: Option<string>, answer: string, img: Option<string>)

  /** The number of characters of the first message kept as a chat's title. */
  const TitleLength: nat := 40

  /** `text.substring(0, 40)`: the longest prefix of `text` that has at most
      40 characters. */
  function Title(text: string): (title: string)
    ensures |title| == if |text| < TitleLength then |text| else TitleLength
    ensures title == text[..|title|]
  {
    if |text| <= TitleLength then text else text[..TitleLength]
  }

  /** JavaScript truthiness of an optional string field of a request body:
      an absent field (undefined or null) and the empty string are falsy. */
  predicate Truthy(v: Option<string>)
  {
    v.Some? && v.value != ""
  }

  /** The single turn a new chat starts with: the user's text, no image. */
  function OpeningTurn(text: string): Turn
  {
    Turn(User, [Part(text)], None)
  }

  /** The `newItems` array of an append: a user turn when `question` is
      truthy (with `img` attached only when `img` is truthy), then always
      exactly one model turn holding `answer`. */
  function NewItems(question: Option<string>, answer: string, img: Option<string>): (items: seq<Turn>)
    ensures |items| == if Truthy(question) then 2 else 1
    ensures items[|items| - 1] == Turn(Model, [Part(answer)], None)
    ensures Truthy(question) ==> items[0].role == User && items[0].parts == [Part(question.value)]
    ensures Truthy(question) ==> (items[0].img.Some? <==> Truthy(img))
    ensures Truthy(question) && items[0].img.Some? ==> items[0].img == img
    ensures forall t :: t in items && t.role == User ==> Truthy(question)
  {
    var userTurns := if Truthy(question)
      then [Turn(User, [Part(question.value)], if Truthy(img) then img else None)]
      else [];
    userTurns + [Turn(Model, [Part(answer)], None)]
  }

  /** A user turn as an append builds it: one text part, and an image
      reference only when a non-empty one was given. */
  predicate IsQuestionTurn(t: Turn)
  {
    t.role == User && |t.parts| == 1 && (t.img.Some? ==> t.img.value != "")
  }

  /** A model turn as an append builds it: one text part, no image. */
  predicate IsAnswerTurn(t: Turn)
  {
    t.role == Model && |t.parts| == 1 && t.img == None
  }

  /** `s` is a run of exchanges, each an answer turn optionally preceded by
      a question turn. */
  ghost predicate Exchanges(s: seq<Turn>)
    decreases |s|
  {
    s == [] ||
    (IsAnswerTurn(s[|s| - 1]) &&
      (Exchanges(s[..|s| - 1]) ||
       (|s| >= 2 && IsQuestionTurn(s[|s| - 2]) && Exchanges(s[..|s| - 2]))))
  }

  /** The shape of every history the service produces: the opening user turn
      without an image, followed by exchanges. */
  ghost predicate Transcript(h: seq<Turn>)
  {
    |h| >= 1 && h[0].role == User && |h[0].parts| == 1 && h[0].img == None && Exchanges(h[1..])
  }

  /** The history a chat is created with is a transcript. */
  lemma OpeningIsTranscript(text: string)
    ensures Transcript([OpeningTurn(text)])
  {
    assert [OpeningTurn(text)][1..] == [];
  }

  /** Appending the items of one request extends a run of exchanges. */
  lemma {:induction false} ExchangesExtend(s: seq<Turn>, r: AppendRequest)
    requires Exchanges(s)
    ensures Exchanges(s + NewItems(r.question, r.answer, r.img))
  {
    var items := NewItems(r.question, r.answer, r.img);
    var t := s + items;
    if Truthy(r.question) {
      assert t[..|t| - 2] == s;
      assert t[|t| - 2] == items[0];
    } else {
      assert t[..|t| - 1] == s;
    }
  }

  /** Appending the items of one request keeps a history a transcript. */
  lemma {:induction false} TranscriptExtend(h: seq<Turn>, r: AppendRequest)
    requires Transcript(h)
    ensures Transcript(h + NewItems(r.question, r.answer, r.img))
  {
    var items := NewItems(r.question, r.answer, r.img);
    ExchangesExtend(h[1..], r);
    assert (h + items)[1..] == h[1..] + items;
  }

  /** The turns a sequence of appends contributes, in call order: each call's
      user turn (if any) followed by its model turn. */
  function Contributed(reqs: seq<AppendRequest>): (turns: seq<Turn>)
    ensures Exchanges(turns)
    ensures |turns| >= |reqs|
    decreases |reqs|
  {
    if reqs == [] then []
    else
      var last := reqs[|reqs| - 1];
      var earlier := Contributed(reqs[..|reqs| - 1]);
      ExchangesExtend(earlier, last);
      earlier + NewItems(last.question, last.answer, last.img)
  }

  /** The title keeps the whole text when it is short enough. */
  lemma TitleOfShortText(text: string)
    requires |text| <= TitleLength
    ensures Title(text) == text
  {
  }

  /** The title only depends on the first 40 characters of the text. */
  lemma TitleIgnoresTail(text: string, tail: string)
    requires |text| >= TitleLength
    ensures Title(text + tail) == Title(text)
  {
    assert (text + tail)[..TitleLength] == text[..TitleLength];
  }
}

/**
  The chat screen (`src/components/Chat.jsx`): the message list with its
  greeting, the send guard, the user message and its id, the one reply (answer,
  fallback or error) that each accepted send adds, the one-time adoption of the
  server's session id, the Enter key and the quick questions.

  `sendMessage` runs in two steps around its `await`: `Accept` is everything up
  to the `apiClient.post` call, and `Complete` is what happens once that call
  settles. The second step reads the message count and session id that the
  first step captured, as the source's closure does; `PendingSend` carries them.
*/
module Chat {
  import opened Js
  import opened Text
  import opened ApiConfig

  datatype Sender = UserSender | AssistantSender

  /** A chat message. `content` is whatever value was stored: the trimmed text for
      the user, `data.answer` or a fixed text for the assistant. */
  datatype Message = Message(id: int, sender: Sender, content: Json, isError: bool, activeRoute: Option<Json>)

  const GreetingText := "您好！我是企业知识库助手，很高兴为您服务。我可以帮您解答关于公司政策、流程、制度等各类问题。请问有什么可以帮助您的吗？"
  const NoAnswerText := "抱歉，我暂时无法回答您的问题。"
  const ServerErrorText := "抱歉，服务器出现错误，请稍后重试。"

  const Greeting := Message(1, AssistantSender, JStr(GreetingText), false, None)

  const QuickQuestions: seq<string> := ["公司年假政策是什么？", "如何申请加班费？", "办公用品申请流程？", "差旅报销标准？"]

  /** What the completion step needs from the moment the send was accepted. */
  datatype PendingSend = PendingSend(text: string, session: Json, base: nat)

  /** The body posted to `/chat`: the text and the session id as captured. */
  function ChatBody(p: PendingSend): (b: Json)
    ensures b.JObj? && b.fields.Keys == {"text", "session_id"}
    ensures b.fields["text"] == JStr(p.text) && b.fields["session_id"] == p.session
  {
    JObj(map["text" := JStr(p.text), "session_id" := p.session])
  }

  /** The request `apiClient.post('/chat', body)` builds. */
  function ChatRequest(baseUrl: string, p: PendingSend, token: Option<string>): (r: HttpRequest)
    ensures r.url == baseUrl + "/chat"
    ensures r.config.verb == Some("POST") && r.config.body == Some(ChatBody(p))
  {
    PostRequest(baseUrl, "/chat", ChatBody(p), token)
  }

  /** A property read on a response value: `undefined` (`None`) unless the value
      is an object with that key. */
  function Field(data: Json, key: string): Option<Json> {
    if data.JObj? && key in data.fields then Some(data.fields[key]) else None
  }

  /** Whether the `try` block completes: reading `data.session_id` throws on a `null` response. */
  predicate Answered(outcome: Result<Json, ApiError>) {
    outcome.Success? && !outcome.value.JNull?
  }

  /** The assistant message `Complete` appends. */
  function Reply(p: PendingSend, outcome: Result<Json, ApiError>): (m: Message)
    ensures m.id == p.base + 2 && m.sender == AssistantSender
    ensures m.isError <==> !Answered(outcome)
    ensures !Answered(outcome) ==> m.content == JStr(ServerErrorText) && m.activeRoute.None?
    ensures Answered(outcome) ==>
      var answer := Field(outcome.value, "answer");
      m.content == (if answer.Some? && Truthy(answer.value) then answer.value else JStr(NoAnswerText))
      && m.activeRoute == Field(outcome.value, "active_route")
  {
    if Answered(outcome) then
      var answer := Field(outcome.value, "answer");
      Message(p.base + 2, AssistantSender,
              if answer.Some? && Truthy(answer.value) then answer.value else JStr(NoAnswerText),
              false, Field(outcome.value, "active_route"))
    else
      Message(p.base + 2, AssistantSender, JStr(ServerErrorText), true, None)
  }

  /** The session id after a reply: the response's id is taken only when it is
      truthy and no session was known when the send was accepted. */
  function NextSession(current: Json, p: PendingSend, outcome: Result<Json, ApiError>): (s: Json)
    ensures Truthy(p.session) ==> s == current
    ensures !Answered(outcome) ==> s == current
    ensures s != current ==> Answered(outcome) && Field(outcome.value, "session_id") == Some(s) && Truthy(s)
  {
    if Answered(outcome) then
      var sid := Field(outcome.value, "session_id");
      if sid.Some? && Truthy(sid.value) && !Truthy(p.session) then sid.value else current
    else current
  }

  /** A known session id is never replaced, whatever later responses carry. */
  lemma SessionAdoptedOnce(current: Json, p: PendingSend, outcome: Result<Json, ApiError>)
    requires p.session == current && Truthy(current)
    ensures NextSession(current, p, outcome) == current
  {
  }

  class ChatState {
    var messages: seq<Message>
    var inputValue: string
    var isLoading: bool
    var sessionId: Json

    /** Message ids are 1, 2, 3, ... in list order. */
    predicate IdsSequential()
      reads this
    {
      forall i :: 0 <= i < |messages| ==> messages[i].id == i + 1
    }

    /** The quick questions show while the list holds only the greeting. */
    predicate QuickQuestionsVisible()
      reads this
    {
      |messages| == 1
    }

    constructor ()
      ensures messages == [Greeting] && inputValue == "" && !isLoading && sessionId == JNull
      ensures IdsSequential() && QuickQuestionsVisible()
    {
      messages := [Greeting];
      inputValue := "";
      isLoading := false;
      sessionId := JNull;
    }

    /** `handleInputChange`. */
    method InputChange(value: string)
      modifies this
      ensures inputValue == value
      ensures messages == old(messages) && isLoading == old(isLoading) && sessionId == old(sessionId)
    {
      inputValue := value;
    }

    /** `handleQuickQuestion`: the question only fills the input. */
    method QuickQuestion(question: string)
      modifies this
      ensures inputValue == question
      ensures messages == old(messages) && isLoading == old(isLoading) && sessionId == old(sessionId)
    {
      inputValue := question;
    }

    /** `sendMessage` up to the request: a blank input or a request in flight
        changes nothing; otherwise the trimmed text is appended as a user message
        numbered after the list, the input clears and loading starts. */
    method Accept() returns (pending: Option<PendingSend>)
      modifies this
      ensures sessionId == old(sessionId)
      ensures pending.None? <==> IsBlank(old(inputValue)) || old(isLoading)
      ensures pending.None? ==>
        messages == old(messages) && inputValue == old(inputValue) && isLoading == old(isLoading)
      ensures pending.Some? ==>
        && pending.value == PendingSend(Trim(old(inputValue)), old(sessionId), |old(messages)|)
        && messages == old(messages) + [Message(|old(messages)| + 1, UserSender, JStr(Trim(old(inputValue))), false, None)]
        && inputValue == "" && isLoading
      ensures old(IdsSequential()) ==> IdsSequential()
    {
      if IsBlank(inputValue) || isLoading {
        return None;
      }
      var text := Trim(inputValue);
      pending := Some(PendingSend(text, sessionId, |messages|));
      messages := messages + [Message(|messages| + 1, UserSender, JStr(text), false, None)];
      inputValue := "";
      isLoading := true;
    }

    /** `sendMessage` after the request settled: exactly one assistant message is
        appended, the session id is adopted at most once, and loading stops. */
    method Complete(p: PendingSend, outcome: Result<Json, ApiError>)
      modifies this
      ensures messages == old(messages) + [Reply(p, outcome)]
      ensures sessionId == NextSession(old(sessionId), p, outcome)
      ensures inputValue == old(inputValue) && !isLoading
      ensures old(IdsSequential()) && |old(messages)| == p.base + 1 ==> IdsSequential()
    {
      if Answered(outcome) {
        sessionId := NextSession(sessionId, p, outcome);
      }
      messages := messages + [Reply(p, outcome)];
      isLoading := false;
    }

    /** `handleKeyPress`: Enter without Shift sends; any other key does nothing. */
    method KeyPress(key: string, shiftKey: bool) returns (pending: Option<PendingSend>)
      modifies this
      ensures !(key == "Enter" && !shiftKey) ==>
        pending.None? && messages == old(messages) && inputValue == old(inputValue)
        && isLoading == old(isLoading) && sessionId == old(sessionId)
      ensures key == "Enter" && !shiftKey ==> (pending.None? <==> IsBlank(old(inputValue)) || old(isLoading))
      ensures old(IdsSequential()) ==> IdsSequential()
    {
      pending := None;
      if key == "Enter" && !shiftKey {
        pending := Accept();
      }
    }

    /** One whole send with the request's outcome: an accepted send adds the user
        message and then its reply, numbered `n + 1` and `n + 2` after `n`
        messages, and leaves the screen idle. */
    method Send(outcome: Result<Json, ApiError>)
      modifies this
      requires IdsSequential()
      ensures IdsSequential()
      ensures IsBlank(old(inputValue)) || old(isLoading) ==>
        messages == old(messages) && inputValue == old(inputValue) && isLoading == old(isLoading)
        && sessionId == old(sessionId)
      ensures !IsBlank(old(inputValue)) && !old(isLoading) ==>
        && |messages| == |old(messages)| + 2
        && messages[..|old(messages)|] == old(messages)
        && messages[|old(messages)|].sender == UserSender
        && messages[|old(messages)|].content == JStr(Trim(old(inputValue)))
        && messages[|old(messages)| + 1].sender == AssistantSender
        && inputValue == "" && !isLoading && !QuickQuestionsVisible()
    {
      ghost var before := messages;
      var pending := Accept();
      if pending.Some? {
        ghost var accepted := messages;
        Complete(pending.value, outcome);
        assert messages == accepted + [Reply(pending.value, outcome)];
        assert messages[..|before|] == before;
      }
    }
  }
}

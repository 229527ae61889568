/** The completion call: how App.js turns the conversation into the body it
    POSTs to the inference endpoint, and how the settled call becomes a reply
    message. The HTTP exchange itself is an input (`Outcome`). */
module Gateway {
  import opened JsText
  import C = Conversation

  /** The `role` of an entry in the request's `messages` array. */
  datatype Role = System | User | Assistant

  datatype RequestMessage = RequestMessage(role: Role, content: JsString)

  /** The POST: endpoint and JSON body. The body's `temperature` (a float
      with no logic attached) is not modelled. */
  datatype ChatRequest = ChatRequest(
    url: JsString, model: JsString, messages: seq<RequestMessage>, maxTokens: nat)

  /** How the POST settled: the first choice's message content, or any
      failure (transport error, non-2xx status, unexpected body). */
  datatype Outcome = Ok(content: JsString) | Err

  const ApiUrlText: string := "https://api.fireworks.ai/inference/v1/chat/completions"
  const ApiUrl: JsString := Literal(ApiUrlText)

  const DobbyModelText: string := "accounts/sentientfoundation/models/dobby-unhinged-llama-3-3-70b-new"
  const DobbyModel: JsString := Literal(DobbyModelText)

  const MaxTokens: nat := 500

  const SystemPromptText: string :=
    "You are Dobby, the first Loyal AI model. You are pro-crypto, pro-freedom, blunt, honest, " +
    "and a bit sarcastic. You refuse to criticize cryptocurrency or personal freedom. " +
    "Keep responses under 300 words."
  const SystemPrompt: JsString := Literal(SystemPromptText)

  /** The persona instruction that opens every request. */
  const SystemEntry: RequestMessage := RequestMessage(System, SystemPrompt)

  /** One earlier message as a request entry: `'user'` stays `'user'`, any
      other sender becomes `'assistant'`. */
  function ToRequestMessage(m: C.Message): (r: RequestMessage)
  {
    RequestMessage(if m.sender == C.User then User else Assistant, m.text)
  }

  /** `messages.map(...)`: the earlier messages in order, each with its text
      as content and role `user` exactly when the user sent it. */
  function MapMessages(prior: seq<C.Message>): (r: seq<RequestMessage>)
    ensures |r| == |prior|
    ensures forall i :: 0 <= i < |prior| ==>
      r[i].content == prior[i].text && r[i].role != System &&
      (r[i].role == User <==> prior[i].sender == C.User)
  {
    if prior == [] then [] else [ToRequestMessage(prior[0])] + MapMessages(prior[1..])
  }

  /** The request's `messages` array: the system entry, then the messages of
      the conversation as they were before this send, then the new user text. */
  function BuildRequest(prior: seq<C.Message>, text: JsString): (r: seq<RequestMessage>)
    ensures |r| == |prior| + 2
    ensures r[0] == SystemEntry
    ensures r[|r| - 1] == RequestMessage(User, text)
    ensures forall i :: 1 <= i <= |prior| ==>
      r[i].content == prior[i - 1].text && r[i].role != System &&
      (r[i].role == User <==> prior[i - 1].sender == C.User)
  {
    [SystemEntry] + MapMessages(prior) + [RequestMessage(User, text)]
  }

  /** The whole POST for one send: the fixed endpoint, model id and
      `max_tokens: 500`, and a message list that opens with the system entry,
      carries every earlier message and ends with the new user text. */
  function MakeRequest(prior: seq<C.Message>, text: JsString): (r: ChatRequest)
    ensures r.url == ApiUrl && r.model == DobbyModel && r.maxTokens == 500
    ensures |r.messages| == |prior| + 2
    ensures r.messages[0] == SystemEntry
    ensures r.messages[|r.messages| - 1] == RequestMessage(User, text)
  {
    ChatRequest(ApiUrl, DobbyModel, BuildRequest(prior, text), MaxTokens)
  }

  /** Reading request entries back as conversation messages: the inverse of
      `ToRequestMessage` on the two senders App.js uses. */
  function FromRequest(req: seq<RequestMessage>): (r: seq<C.Message>)
    ensures |r| == |req|
    ensures forall i :: 0 <= i < |req| ==>
      r[i].text == req[i].content && (r[i].sender == C.User <==> req[i].role == User)
  {
    if req == [] then []
    else [C.Message(req[0].content, if req[0].role == User then C.User else C.Dobby)]
         + FromRequest(req[1..])
  }

  /** The request carries the whole conversation: reading back everything
      after the system entry gives exactly the earlier messages, in order,
      followed by the new user message. */
  lemma RequestRecoversConversation(prior: seq<C.Message>, text: JsString)
    ensures FromRequest(BuildRequest(prior, text)[1..]) == prior + [C.Message(text, C.User)]
  {
  }

  /** The message appended when the call settles: a Dobby message holding the
      returned content unmodified, or the fixed error text on failure. */
  function ReplyMessage(outcome: Outcome): (r: C.Message)
    ensures r.sender == C.Dobby
    ensures outcome.Ok? ==> r.text == outcome.content
    ensures outcome.Err? ==> r.text == C.ErrorText
  {
    match outcome
    case Ok(content) => C.Message(content, C.Dobby)
    case Err => C.Message(C.ErrorText, C.Dobby)
  }
}

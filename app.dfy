/** The conversation state of the `App` component and the handlers that change
    it. `sendMessage` is an async function with one suspension point (the
    POST); it is modelled as two steps: `SendMessage`, which runs up to the
    POST and returns what the suspended call holds on to, and `Settle`, which
    runs from the POST's outcome to the end of the function. */
module App {
  import opened JsText
  import C = Conversation
  import G = Gateway
  import H = History

  datatype Option<T> = None | Some(value: T)

  /** A send suspended at the POST: the text it was called with and the
      request it sent, built from the messages as they were before it. */
  datatype Flight = Flight(text: JsString, request: G.ChatRequest)

  class Chat {
    /** `messages`: the conversation, oldest first. */
    var messages: seq<C.Message>
    /** `chatHistory`: recent-chat entries, most recent first. */
    var history: seq<H.Entry>
    /** `inputValue`: the draft in the text box. */
    var input: JsString
    /** `isLoading`. */
    var loading: bool
    /** How many sends have reached the POST and not settled yet. */
    ghost var inFlight: nat

    /** The recent-chat list never holds more than ten entries. */
    ghost predicate Valid()
      reads this
    {
      |history| <= H.HistoryCap
    }

    /** The loading flag tells the truth: at most one send is outstanding, and
        the flag is up exactly while one is. */
    ghost predicate Coherent()
      reads this
    {
      inFlight <= 1 && (loading <==> inFlight == 1)
    }

    /** The initial `useState` values. */
    constructor ()
      ensures Valid() && Coherent()
      ensures messages == [] && history == [] && input == [] && !loading && inFlight == 0
    {
      messages := [];
      history := [];
      input := [];
      loading := false;
      inFlight := 0;
    }

    /** `sendMessage(text)` up to the POST. Blank text is ignored. Otherwise
        the user's message (untrimmed) is appended, the draft cleared and the
        loading flag raised; the request is built from the messages as they
        were before the append. The function itself does not look at the
        loading flag. */
    method SendMessage(text: JsString) returns (flight: Option<Flight>)
      requires Valid()
      modifies this
      ensures Valid() && history == old(history)
      ensures IsBlank(text) ==>
        flight == None && messages == old(messages) && input == old(input) &&
        loading == old(loading) && inFlight == old(inFlight)
      ensures !IsBlank(text) ==>
        flight == Some(Flight(text, G.MakeRequest(old(messages), text))) &&
        messages == old(messages) + [C.Message(text, C.User)] &&
        input == [] && loading && inFlight == old(inFlight) + 1
    {
      var blank := TrimsToEmpty(text);
      if blank {
        return None;
      }
      var prior := messages;
      messages := messages + [C.Message(text, C.User)];
      input := [];
      loading := true;
      inFlight := inFlight + 1;
      flight := Some(Flight(text, G.MakeRequest(prior, text)));
    }

    /** `sendMessage` from the POST's outcome to its end. The reply (or the
        error text) is appended to the messages as they are now, not as they
        were when the send began; only a success records a history entry; the
        `finally` drops the loading flag on both paths. */
    method Settle(flight: Flight, outcome: G.Outcome)
      requires Valid() && inFlight > 0
      modifies this
      ensures Valid()
      ensures messages == old(messages) + [G.ReplyMessage(outcome)]
      ensures outcome.Ok? ==> history == H.PushHistory(old(history), H.EntryFor(flight.text))
      ensures outcome.Err? ==> history == old(history)
      ensures input == old(input) && !loading && inFlight == old(inFlight) - 1
      ensures old(Coherent()) ==> Coherent()
    {
      messages := messages + [G.ReplyMessage(outcome)];
      if outcome.Ok? {
        history := H.PushHistory(history, H.EntryFor(flight.text));
      }
      loading := false;
      inFlight := inFlight - 1;
    }

    /** `startNewChat`: empties the conversation and the draft; the history
        and the loading flag stay as they are. */
    method StartNew()
      modifies this
      ensures messages == [] && input == []
      ensures history == old(history) && loading == old(loading) && inFlight == old(inFlight)
      ensures old(Valid()) ==> Valid()
      ensures old(Coherent()) ==> Coherent()
    {
      messages := [];
      input := [];
    }

    /** `clearHistory`: empties the recent-chat list and nothing else. */
    method ClearHistory()
      modifies this
      ensures history == []
      ensures messages == old(messages) && input == old(input)
      ensures loading == old(loading) && inFlight == old(inFlight)
      ensures Valid()
      ensures old(Coherent()) ==> Coherent()
    {
      history := [];
    }

    /** The text box's `onChange`: replaces the draft. The box is disabled
        while loading, so it cannot fire then. */
    method EditDraft(text: JsString)
      requires !loading
      modifies this
      ensures input == text
      ensures messages == old(messages) && history == old(history)
      ensures loading == old(loading) && inFlight == old(inFlight)
      ensures old(Valid()) ==> Valid()
      ensures old(Coherent()) ==> Coherent()
    {
      input := text;
    }

    /** The text box's Enter key: sends the draft unless loading. */
    method PressEnter() returns (flight: Option<Flight>)
      requires Valid()
      modifies this
      ensures Valid()
      ensures old(loading) ==> flight == None && unchanged(this)
      ensures !old(loading) && IsBlank(old(input)) ==>
        flight == None && messages == old(messages) && history == old(history) &&
        input == old(input) && !loading && inFlight == old(inFlight)
      ensures !old(loading) && !IsBlank(old(input)) ==>
        flight == Some(Flight(old(input), G.MakeRequest(old(messages), old(input)))) &&
        messages == old(messages) + [C.Message(old(input), C.User)] &&
        input == [] && loading && history == old(history) && inFlight == old(inFlight) + 1
      ensures old(Coherent()) ==> Coherent()
    {
      if !loading {
        flight := SendMessage(input);
      } else {
        flight := None;
      }
    }

    /** The Send button: disabled while loading or while the draft is blank,
        so a click always starts a send. */
    method ClickSend() returns (flight: Option<Flight>)
      requires Valid() && !loading && !IsBlank(input)
      modifies this
      ensures Valid()
      ensures flight == Some(Flight(old(input), G.MakeRequest(old(messages), old(input))))
      ensures messages == old(messages) + [C.Message(old(input), C.User)]
      ensures input == [] && loading
      ensures history == old(history) && inFlight == old(inFlight) + 1
      ensures old(Coherent()) ==> Coherent()
    {
      flight := SendMessage(input);
    }

    /** A suggested-prompt button as App.js has it: shown while the
        conversation is empty, never disabled, so it starts a send even while
        another one is outstanding. */
    method ClickSuggestionAsWritten(i: nat) returns (flight: Option<Flight>)
      requires Valid() && i < |C.SuggestedPromptTexts| && messages == []
      modifies this
      ensures Valid()
      ensures flight == Some(Flight(C.SuggestedPrompt(i), G.MakeRequest([], C.SuggestedPrompt(i))))
      ensures messages == [C.Message(C.SuggestedPrompt(i), C.User)]
      ensures input == [] && loading && inFlight == old(inFlight) + 1
      ensures history == old(history)
    {
      C.SuggestedPromptNotBlank(i);
      flight := SendMessage(C.SuggestedPrompt(i));
    }

    /** A suggested-prompt button disabled while loading, like the Send
        button: with it, every handler keeps the loading flag truthful. */
    method ClickSuggestion(i: nat) returns (flight: Option<Flight>)
      requires Valid() && i < |C.SuggestedPromptTexts| && messages == [] && !loading
      modifies this
      ensures Valid()
      ensures flight == Some(Flight(C.SuggestedPrompt(i), G.MakeRequest([], C.SuggestedPrompt(i))))
      ensures messages == [C.Message(C.SuggestedPrompt(i), C.User)]
      ensures input == [] && loading && history == old(history)
      ensures old(Coherent()) ==> Coherent()
    {
      C.SuggestedPromptNotBlank(i);
      flight := SendMessage(C.SuggestedPrompt(i));
    }

    /** A whole `sendMessage` call during which nothing else happens: a blank
        text changes nothing; otherwise the conversation grows by exactly the
        user's message and one reply, the loading flag ends down, and only a
        success adds a history entry. */
    method Converse(text: JsString, outcome: G.Outcome)
      requires Valid()
      modifies this
      ensures Valid()
      ensures IsBlank(text) ==>
        messages == old(messages) && history == old(history) && input == old(input) &&
        loading == old(loading)
      ensures !IsBlank(text) ==>
        messages == old(messages) + [C.Message(text, C.User), G.ReplyMessage(outcome)] &&
        input == [] && !loading &&
        history == (if outcome.Ok? then H.PushHistory(old(history), H.EntryFor(text))
                    else old(history))
      ensures inFlight == old(inFlight)
    {
      var flight := SendMessage(text);
      if flight.Some? {
        Settle(flight.value, outcome);
      }
    }
  }

  /** Clicking a suggestion, then "+ New Chat" before the reply arrives, then
      another suggestion puts two sends in flight. When the first one settles,
      its reply lands in the new conversation under the second question, and
      the loading flag drops (re-enabling the Send controls) while the second
      send is still outstanding. */
  method OverlappingSends(reply: JsString) returns (c: Chat)
    ensures c.messages == [C.Message(C.SuggestedPrompt(1), C.User), C.Message(reply, C.Dobby)]
    ensures c.inFlight == 1 && !c.loading && !c.Coherent()
  {
    c := new Chat();
    var first := c.ClickSuggestionAsWritten(0);
    c.StartNew();
    var second := c.ClickSuggestionAsWritten(1);
    assert c.inFlight == 2;
    c.Settle(first.value, G.Ok(reply));
  }

  /** A fresh chat, the "What is blockchain?" suggestion, and a successful
      reply: the conversation is the question and the reply, and the history
      holds one entry whose title is the whole (short) question. */
  method BlockchainExchange(reply: JsString) returns (c: Chat)
    ensures c.Valid() && c.Coherent() && !c.loading
    ensures c.messages == [C.Message(C.SuggestedPrompt(4), C.User), C.Message(reply, C.Dobby)]
    ensures c.history == [H.Entry(C.SuggestedPrompt(4), C.SuggestedPrompt(4))]
  {
    c := new Chat();
    var flight := c.ClickSuggestion(4);
    c.Settle(flight.value, G.Ok(reply));
  }
}

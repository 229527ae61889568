# Dobby chat client: the conversation state machine

This project models the conversation logic of the `App` component of a
single-page chat client. The client talks to the "Dobby" model on the Fireworks AI
inference API. The component holds four pieces of state:

- `messages`: the active conversation, oldest first;
- `chatHistory`: a "Recent chats" list, most recent first, capped at ten;
- `inputValue`: the draft in the text box;
- `isLoading`: whether a reply is awaited.

Three functions change that state: `sendMessage`, `startNewChat` and
`clearHistory`. The text box's `onChange` also sets the draft directly. The
view's event handlers decide when the three functions may run.

`sendMessage` is asynchronous. It suspends once, at the POST to the
inference endpoint. The model splits it at that point:

- `Chat.SendMessage` runs up to the POST. It ignores blank input. Otherwise it
  appends the user's message, clears the draft and raises the loading flag. It
  returns `Some(flight)`, where the `Flight` holds the text and the request that
  the suspended call keeps; on blank input it returns `None`.
- `Chat.Settle` runs from the POST's outcome to the end of the function. The
  outcome is `Ok(content)` or `Err`. It appends the reply or the fixed error
  text to the messages as they are at that moment. On success it records a
  history entry. On both paths it drops the loading flag.

The pure parts are modelled as functions with lemmas:

- the request's `messages` array: a system entry, then the earlier
  conversation mapped to `user`/`assistant` roles, then the new text;
- the history title: the first 40 code units, plus `...` when the text is longer;
- the bounded push onto the history list.

Modules:

- `JsText`: JavaScript strings as UTF-16 code units; `trim`; `substring(0, n)`.
- `Conversation`: messages, the error text, the suggested prompts.
- `Gateway`: request assembly, and turning an outcome into a reply message.
- `History`: titles and the ten-entry most-recent-first list.
- `App`: the `Chat` class holding the component state; the handlers of the
  text box, the Send button and the suggestion buttons.

A ghost counter `inFlight` counts sends that have reached the POST and not
settled. `Coherent()` says the loading flag tells the truth:

- at most one send is outstanding;
- `isLoading` is up exactly while one is.

Points of App.js a reader may not expect:

- `sendMessage` itself never looks at `isLoading`. The guards are in the
  Enter handler and in the Send button's `disabled`.
- Reply messages carry the sender `'dobby'`, not `'assistant'`. The request
  maps every sender other than `'user'` to the `assistant` role.
- A shortened title ends in three full stops `...`, not a single ellipsis character.
- "+ New Chat" is not disabled while a reply is awaited (see Findings).

## Model

| member | source | states |
|---|---|---|
| `JsText.TrimKeepsMiddle` | App.js:29 | `text.trim()` is the part of the text between its leading and its trailing white space; that part neither starts nor ends with white space |
| `JsText.TrimsToEmpty` | App.js:29 | computing `!text.trim()` yields true exactly when the text is blank |
| `JsText.Prefix` | App.js:88 | `text.substring(0, n)` has min(n, \|text\|) code units and is the start of the text |
| `JsText.TrimEmptyIffBlank` | App.js:29 | `!text.trim()` holds exactly when every code unit of the text is ECMAScript white space or a line terminator |
| `Conversation.SuggestedPromptNotBlank` | App.js:112-119 | each of the six suggested prompts survives the blank-input check |
| `Gateway.MapMessages` | App.js:55-58 | the earlier messages map one-to-one and in order; each entry keeps the message text as content; its role is `user` exactly when the sender is the user, and `assistant` otherwise |
| `Gateway.BuildRequest` | App.js:50-63 | the request has length \|prior\| + 2: the fixed system entry first, then the pre-send messages in order with role `user` iff sent by the user and their text as content, then `{user, text}` last |
| `Gateway.RequestRecoversConversation` | App.js:50-63 | reading back the request after its system entry gives the earlier conversation plus the new user message; nothing is lost or reordered |
| `Gateway.MakeRequest` | App.js:46-66 | the POST goes to the fixed endpoint with the fixed model id and `max_tokens` 500; its message list has \|prior\| + 2 entries, opening with the system entry and ending with the new user text |
| `Gateway.ReplyMessage` | App.js:76-105 | the settled call becomes one `dobby` message: the returned content unmodified on success, the fixed error text on failure |
| `History.Title` | App.js:88 | the title starts with the text's first min(\|text\|, 40) code units and is at most 43 long; text of 40 or fewer code units is its own title; longer text gives those 40 code units followed by `...` |
| `History.TitleIsTextIff` | App.js:88 | the title equals the text iff the text has at most 40 code units, or has exactly 43 and ends in `...` after its first 40 |
| `History.TitleIdempotent` | App.js:88 | titling a title changes nothing |
| `History.EntryFor` | App.js:89-94 | the recorded entry's preview is the full text; its title has at most 43 code units, starts with the text's first min(\|text\|, 40) and is the text itself when that has at most 40 |
| `History.PushHistory` | App.js:89-94 | after a push the list has min(\|old\| + 1, 10) entries: the new entry first, then the old list's first entries in their order |
| `History.RecordAllKeepsMostRecent` | App.js:89-94 | recording a run of entries gives the run newest first, then the earlier list, cut to ten |
| `History.MostRecentFirst` | App.js:89-94 | from an empty list, after n successful sends the list has min(n, 10) entries, and entry j is the (j+1)-th most recent; the eleventh send evicts the first |
| `App.Chat.constructor` | App.js:7-10 | the component starts with no messages, no history, an empty draft and the loading flag down |
| `App.Chat.SendMessage` | App.js:28-63 | blank text changes nothing. Otherwise exactly one user message with the untrimmed text is appended and earlier messages are kept; the draft is cleared; the loading flag is raised; history is untouched; the request is built from the pre-send messages |
| `App.Chat.Settle` | App.js:76-108 | exactly one reply message is appended to the current messages; success pushes the entry (title of the text, preview the text) onto the history, failure leaves it alone; the loading flag ends down on both paths; the list stays within ten |
| `App.Chat.StartNew` | App.js:122-125 | messages and draft become empty; history and loading flag are unchanged |
| `App.Chat.ClearHistory` | App.js:128-130 | history becomes empty; messages, draft and loading flag are unchanged |
| `App.Chat.EditDraft` | App.js:290 | the draft becomes the typed text and nothing else changes; the box is disabled while loading |
| `App.Chat.PressEnter` | App.js:290 | while loading, Enter changes nothing; otherwise a blank draft changes nothing, and a non-blank draft is sent: one user message appended, draft cleared, flag raised, history untouched; it keeps the loading flag truthful |
| `App.Chat.ClickSend` | App.js:291 | the button is enabled only when not loading and the draft is not blank; a click then always starts a send of the draft: one user message appended, draft cleared, flag raised, history untouched, one more send in flight; it keeps the loading flag truthful |
| `App.Chat.ClickSuggestionAsWritten` | App.js:254-258 | shown while the conversation is empty and never disabled, a suggestion starts a send of its prompt and adds one to the sends in flight, whatever the loading flag says |
| `App.Chat.ClickSuggestion` | App.js:257 | with the button disabled while loading, a suggestion starts a send and keeps the loading flag truthful |
| `App.Chat.Converse` | App.js:28-109 | a whole send with nothing in between: blank text changes nothing; otherwise the conversation grows by exactly the user message and one reply, the loading flag ends down, and only a success adds a history entry |
| `App.OverlappingSends` | App.js:214-257 | a suggestion, then "+ New Chat", then another suggestion puts two sends in flight; the first reply then lands under the second question, and the loading flag drops while a send is still outstanding |
| `App.BlockchainExchange` | App.js:28-94 | "What is blockchain?" and a successful reply leave the conversation [question, reply] and the history holding one entry whose title and preview are the question |

## Left out

- Rendering and the page switch (`currentPage`, the landing page, "Back to Home") are presentation only.
- The scroll-to-bottom effect is a DOM side effect.
- The HTTP transport is not modelled: axios, the headers, and the bearer token read from the environment. Its result enters as an `Outcome`. A thrown error, a non-2xx status, or a body without `choices[0].message` is `Err`. A body whose `message` has no `content`, or whose `content` is not a string, is not modelled. App.js does not throw in that case: it appends a 'dobby' message whose text is `undefined` or that value, and it records a history entry.
- The request's `temperature: 0.8` is a float constant with no logic attached. The endpoint URL, the model id and `max_tokens: 500` appear as constants.
- Message and entry `id`s and `timestamp`s are not modelled. They come from the clock and the locale and are used only for display.
- The `console.error` call on failure is logging only.
- React's render timing is not modelled. Each handler sees the state left by the previous one, as it does when React re-renders between events. Two clicks landing before one re-render are not modelled.
- `JsText.Literal` maps source literals one character to one code unit. This holds for every literal the model uses, since all of them lie in the Basic Multilingual Plane. Some landing-page literals in App.js (emoji such as U+1F6E1) do not, but they are presentation only. User input is a sequence of code units from the start, so it keeps surrogate pairs as they are.
- tailwind.config.js holds colour and theme settings only.

## Findings

| source | as written | input that shows it | evidently intended | confidence | as-written member | corrected member |
|---|---|---|---|---|---|---|
| App.js:257 | the suggested-prompt buttons call `sendMessage` with no `isLoading` check; "+ New Chat" (App.js:214) stays enabled while a reply is awaited, and emptying the conversation brings the suggestions back | click a suggestion, then "+ New Chat" before the reply, then another suggestion | at most one request in flight, with `isLoading` up exactly while one is, as the Enter handler and the Send button enforce | medium, not executed | `App.OverlappingSends` (using `App.Chat.ClickSuggestionAsWritten`) | `App.Chat.ClickSuggestion` |

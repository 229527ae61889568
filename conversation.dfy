/** The messages of the active conversation, as App.js keeps them in its
    `messages` state. */
module Conversation {
  import opened JsText

  /** Who wrote a message: App.js tags messages `'user'` or `'dobby'`. */
  datatype Sender = User | Dobby

  /** A chat message. The `id` and `timestamp` App.js attaches are clock
      readings for display and play no part in the logic. */
  datatype Message = Message(text: JsString, sender: Sender)

  /** The text shown in place of a reply when the completion call fails. */
  const ErrorTextLiteral: string :=
    "\U{26A0}\U{FE0F} Sorry, error. Check your API key and Fireworks AI account."
  const ErrorText: JsString := Literal(ErrorTextLiteral)

  /** The prompts offered as buttons on an empty conversation, as written. */
  const SuggestedPromptTexts: seq<string> := [
    "Tell me about Sentient AGI",
    "Why is crypto important?",
    "What makes you different from GPT-4?",
    "Explain decentralized AI",
    "What is blockchain?",
    "How does Sentient work?"
  ]

  /** The `i`-th suggested prompt as a JavaScript string. */
  function SuggestedPrompt(i: nat): (p: JsString)
    requires i < |SuggestedPromptTexts|
  {
    Literal(SuggestedPromptTexts[i])
  }

  /** A literal that starts with a capital letter is not blank. */
  lemma CapitalStartNotBlank(s: string)
    requires s != [] && 'A' <= s[0] <= 'Z'
    ensures !IsBlank(Literal(s))
  {
  }

  /** Every suggested prompt has text after trimming (each starts with a
      capital letter), so clicking one always gets past the blank-input check. */
  lemma SuggestedPromptNotBlank(i: nat)
    requires i < |SuggestedPromptTexts|
    ensures !IsBlank(SuggestedPrompt(i))
  {
    CapitalStartNotBlank(SuggestedPromptTexts[i]);
  }
}

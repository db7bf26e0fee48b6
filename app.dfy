/** The two entry points of the application: the HTTP endpoint `invoke_agent`, which routes a
    query and wraps the agent's answer in a response envelope, and the chat handler
    `chat_interface`, which routes a message by its own table and appends the exchange to the
    chat history. The agents themselves are a parameter `run`: given the chosen agent and the
    request text, what its executor's `invoke` did. */
module App {
  import opened Wrappers
  import opened Text
  import opened Router

  /** What an agent executor's `invoke` did: returned a dictionary whose `output` key may be
      missing, or raised an exception with the given text. */
  datatype Invocation = Returned(output: Option<string>) | Raised(message: string)

  /** The JSON body of the endpoint: `{agent, response}` or `{agent, error}`. */
  datatype Envelope = Answered(agent: string, response: string) | Failed(agent: string, error: string)

  const ApiFallback := "Sorry, I could not process the request."
  const ApiErrorPrefix := "An error occurred: "
  const UiFallback := "Sorry, I could not get a response."
  // U+26A0 U+FE0F is the warning-sign emoji the chat reply starts with.
  const UiErrorPrefix := "\U{26A0}\U{FE0F} An unexpected error occurred: "

  /** `response.get('output', fallback)`: the output when the key is present, and the
      fallback only when it is missing. */
  function OutputOr(output: Option<string>, fallback: string): (r: string)
    ensures output.Some? ==> r == output.value
    ensures output.None? ==> r == fallback
  {
    match output
    case Some(text) => text
    case None => fallback
  }

  /** The endpoint: the envelope names the routed agent, whose executor received the
      original (not lower-cased) query, and carries either its output or the error text. */
  function InvokeAgent(query: string, run: (Agent, string) -> Invocation): (e: Envelope)
    ensures e.agent == ApiRoute(query).Name()
    ensures e.Answered? <==> run(ApiRoute(query), query).Returned?
    ensures e.Answered? ==> e.response == OutputOr(run(ApiRoute(query), query).output, ApiFallback)
    ensures e.Failed? ==> e.error == ApiErrorPrefix + run(ApiRoute(query), query).message
  {
    var agent := ApiRoute(query);
    match run(agent, query)
    case Returned(output) => Answered(agent.Name(), OutputOr(output, ApiFallback))
    case Raised(message) => Failed(agent.Name(), ApiErrorPrefix + message)
  }

  /** The reply text of the chat handler for one message. */
  function ChatReply(userInput: string, run: (Agent, string) -> Invocation): (reply: string)
    ensures run(UiRoute(userInput), userInput).Returned? ==>
      reply == OutputOr(run(UiRoute(userInput), userInput).output, UiFallback)
    ensures run(UiRoute(userInput), userInput).Raised? ==>
      reply == UiErrorPrefix + run(UiRoute(userInput), userInput).message
  {
    match run(UiRoute(userInput), userInput)
    case Returned(output) => OutputOr(output, UiFallback)
    case Raised(message) => UiErrorPrefix + message
  }

  /** The envelope's agent name alone tells which agent handled the query. */
  lemma EnvelopeIdentifiesAgent(query: string, run: (Agent, string) -> Invocation, a: Agent)
    ensures InvokeAgent(query, run).agent == a.Name() <==> ApiRoute(query) == a
  {
    NameInjective(ApiRoute(query), a);
  }

  /** A missing `output` key gives the fixed fallback answer, never an error envelope. */
  lemma MissingOutputFallsBack(query: string, run: (Agent, string) -> Invocation)
    requires run(ApiRoute(query), query) == Returned(None)
    ensures InvokeAgent(query, run) == Answered(ApiRoute(query).Name(), ApiFallback)
  {
  }

  /** An error envelope's text is the fixed prefix followed by the exception's text, from which
      the exception's text can be read back. */
  lemma ErrorEnvelopeText(query: string, run: (Agent, string) -> Invocation)
    requires run(ApiRoute(query), query).Raised?
    ensures InvokeAgent(query, run).Failed?
    ensures ApiErrorPrefix <= InvokeAgent(query, run).error
    ensures InvokeAgent(query, run).error[|ApiErrorPrefix|..] == run(ApiRoute(query), query).message
  {
  }

  /** One exchange of the chat: the user's message and the reply shown for it. */
  type Turn = (string, string)

  /** The chat history list that the handler appends to in place. */
  class ChatHistory {
    var turns: seq<Turn>

    constructor (turns: seq<Turn>)
      ensures this.turns == turns
    {
      this.turns := turns;
    }

    /** `history.append((userInput, output))`. */
    method Append(turn: Turn)
      modifies this
      ensures turns == old(turns) + [turn]
    {
      turns := turns + [turn];
    }
  }

  /** `chat_interface(user_input, history)`. `history or []` replaces a missing history and
      also an empty one (an empty list is false in Python) by a fresh list, which the caller's
      list never sees; a non-empty history is appended to in place. Exactly one exchange is
      added, at the end, and the textbox is cleared. */
  method ChatInterface(userInput: string, history: ChatHistory?, run: (Agent, string) -> Invocation)
    returns (updated: ChatHistory, textbox: string)
    modifies history
    ensures textbox == ""
    ensures history != null && old(history.turns) != [] ==> updated == history
    ensures history == null || old(history.turns) == [] ==> fresh(updated)
    ensures history != null ==> history.turns == old(history.turns) || updated == history
    ensures updated.turns ==
      (if history == null then [] else old(history.turns)) + [(userInput, ChatReply(userInput, run))]
  {
    if history != null && history.turns != [] {
      updated := history;
    } else {
      updated := new ChatHistory([]);
    }
    var output := ChatReply(userInput, run);
    updated.Append((userInput, output));
    textbox := "";
  }
}

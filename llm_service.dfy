/**
 * The reply generator: the offline rule-based reply, the memory summary that
 * is sent to the language model, and the choice between the model and the
 * offline reply. The model provider is a function supplied by the caller
 * that either answers or fails.
 */
module Llm {
  import opened Wrappers
  import opened Values

  const ListeningReply := "I am listening."
  const NoMemory := "No specific memory found."
  const SystemPrompt :=
    "You are an empathetic memory assistant for an elderly person with dementia. "
    + "Your goal is to be kind, patient, and helpful. "
    + "Use the provided CONTEXT to answer the user's question. "
    + "Keep answers short (1-2 sentences) and conversational. "
    + "If the context provides a name and relation, use them warmly. "
    + "Do NOT mention 'database' or 'records'. Speak naturally. "
    + "The Context includes 'Has Audio' and 'Has Image' flags. "
    + "Use them: If user asks about voice and Has Audio=False, say you don't recall their voice. "
    + "If user asks about appearance and Has Image=False, say you don't have a photo. "
    + "Otherwise, focus on the identity and notes."

  /** `not context` for an optional dictionary: `None` or empty. */
  predicate Falsy(context: Option<Dict>) {
    context.None? || context.value == map[]
  }

  /**
   * `_fallback_response`: "I am listening." exactly when there is no
   * context; otherwise "That is {name}. {notes}", name defaulting to "them"
   * and notes to the empty string.
   */
  function FallbackResponse(context: Option<Dict>): (r: string)
    ensures r == ListeningReply <==> Falsy(context)
    ensures !Falsy(context) ==>
      r == "That is " + Show(Get(context.value, "name", Str("them"))) + ". " + Show(Get(context.value, "notes", Str("")))
  {
    if Falsy(context) then ListeningReply
    else
      var r := "That is " + Show(Get(context.value, "name", Str("them"))) + ". " + Show(Get(context.value, "notes", Str("")));
      assert r[0] != ListeningReply[0];
      r
  }

  /**
   * The memory summary: "No specific memory found." exactly when there is no
   * context; otherwise the six fields in a fixed order, each with its default.
   */
  function ContextString(context: Option<Dict>): (r: string)
    ensures r == NoMemory <==> Falsy(context)
    ensures !Falsy(context) ==>
      var c := context.value;
      r == "Memory: Name=" + Show(Get(c, "name", Str("Unknown")))
         + ", Relation=" + Show(Get(c, "relation", Str("Unspecified")))
         + ", Notes=" + Show(Get(c, "notes", Str("")))
         + ", Location=" + Show(Get(c, "location", Str("")))
         + ", Has Audio=" + Show(Get(c, "has_audio", Bool(false)))
         + ", Has Image=" + Show(Get(c, "has_image", Bool(false)))
  {
    if Falsy(context) then NoMemory
    else
      var c := context.value;
      var r := "Memory: Name=" + Show(Get(c, "name", Str("Unknown")))
         + ", Relation=" + Show(Get(c, "relation", Str("Unspecified")))
         + ", Notes=" + Show(Get(c, "notes", Str("")))
         + ", Location=" + Show(Get(c, "location", Str("")))
         + ", Has Audio=" + Show(Get(c, "has_audio", Bool(false)))
         + ", Has Image=" + Show(Get(c, "has_image", Bool(false)));
      assert r[0] != NoMemory[0];
      r
  }

  /** A context that names none of the six fields is summarised by the defaults. */
  lemma ContextDefaults(c: Dict)
    requires c != map[]
    requires forall k :: k in c ==> k !in {"name", "relation", "notes", "location", "has_audio", "has_image"}
    ensures ContextString(Some(c))
         == "Memory: Name=" + "Unknown" + ", Relation=" + "Unspecified" + ", Notes=" + ""
            + ", Location=" + "" + ", Has Audio=" + "False" + ", Has Image=" + "False"
  {
    assert "name" !in c && "relation" !in c && "notes" !in c;
    assert "location" !in c && "has_audio" !in c && "has_image" !in c;
  }

  datatype Role = System | User
  datatype Message = Message(role: Role, content: string)

  /** The two chat messages sent to the model: the system prompt, then the memory summary and the user's words. */
  function Messages(userText: string, context: Option<Dict>): (ms: seq<Message>)
    ensures |ms| == 2 && ms[0] == Message(System, SystemPrompt) && ms[1].role == User
    ensures ms[1].content == "Context: " + ContextString(context) + "\n\nUser: " + userText
  {
    [Message(System, SystemPrompt), Message(User, "Context: " + ContextString(context) + "\n\nUser: " + userText)]
  }

  /**
   * The model client. `Connected` holds the provider call: the reply text, or
   * `None` when the call raises.
   */
  datatype Client = NoClient | Connected(complete: seq<Message> -> Option<string>)

  /**
   * The client the service starts with: the configured key, else the
   * environment's; a client only when there is a non-empty key and creating
   * the client succeeds.
   */
  function InitialClient(settingsKey: Option<string>, envKey: Option<string>, connects: bool,
                         complete: seq<Message> -> Option<string>): (c: Client)
    ensures c.Connected? <==> connects && ((settingsKey.Some? && settingsKey.value != "") || (envKey.Some? && envKey.value != ""))
  {
    var key := if settingsKey.Some? && settingsKey.value != "" then settingsKey else envKey;
    if key.Some? && key.value != "" && connects then Connected(complete) else NoClient
  }

  /**
   * `generate_response`: without a client, or when the provider call fails,
   * the offline reply; otherwise the model's reply to the two messages.
   */
  function GenerateResponse(client: Client, userText: string, context: Option<Dict>): (r: string)
    ensures client.NoClient? ==> r == FallbackResponse(context)
    ensures client.Connected? && client.complete(Messages(userText, context)).None? ==> r == FallbackResponse(context)
    ensures client.Connected? && client.complete(Messages(userText, context)).Some? ==>
      r == client.complete(Messages(userText, context)).value
  {
    match client
    case NoClient => FallbackResponse(context)
    case Connected(complete) =>
      match complete(Messages(userText, context))
      case Some(reply) => reply
      case None => FallbackResponse(context)
  }

  /** The user's words reach the model unchanged: different words make different requests. */
  lemma UserTextReachesModel(a: string, b: string, context: Option<Dict>)
    requires a != b
    ensures Messages(a, context) != Messages(b, context)
  {
    var prefix := "Context: " + ContextString(context) + "\n\nUser: ";
    assert (prefix + a)[|prefix|..] == a;
    assert (prefix + b)[|prefix|..] == b;
  }

  /** When the provider fails, the reply is the one the service gives offline. */
  lemma FailureMatchesOffline(complete: seq<Message> -> Option<string>, userText: string, context: Option<Dict>)
    requires complete(Messages(userText, context)).None?
    ensures GenerateResponse(Connected(complete), userText, context) == GenerateResponse(NoClient, userText, context)
  {
  }

  /** Offline, an empty context is answered with "I am listening." and nothing else. */
  lemma OfflineListening(userText: string, context: Option<Dict>)
    ensures GenerateResponse(NoClient, userText, context) == ListeningReply <==> Falsy(context)
  {
  }
}

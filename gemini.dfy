/** The Gemini wrapper: a system prompt kept as the first "model" message of the
    history, and a `run` that shows the history to a chat session for one prompt
    without keeping the prompt. */
module GeminiLlm {
  import opened PyValues
  import opened History

  const User := "user"
  const Model := "model"

  const DefaultModel := "gemini-1.5-flash"
  const DefaultTemperature: real := 0.0
  const DefaultMaxTokens := 2048

  /** What a chat session does with the history and the prompt: the request fails,
      or it is answered and reading the answer's text succeeds or raises. */
  datatype ChatReply = Failed(error: PyError) | Replied(text: Result<string>)

  /** `client.start_chat(history=...).send_message(prompt)`, as a function of the
      history shown and the prompt sent. */
  type Chat = (seq<PyVal>, string) -> ChatReply

  class Gemini {
    var messages: MessageList
    var model: string
    var temperature: real
    var systemPrompt: Option<string>
    var maxTokens: int
    var verbose: bool
    var apiKey: Option<string>

    /** `Gemini(...)`: `messages` is the list passed in or, when the argument is
        left out, the one default list created with the class, shared by every
        instance built without it. A truthy system prompt is appended to that list. */
    constructor(messages: MessageList, model: string, temperature: real, systemPrompt: Option<string>,
                maxTokens: int, verbose: bool, apiKey: Option<string>, envKey: Option<string>)
      modifies messages
      ensures this.messages == messages
      ensures this.model == model && this.temperature == temperature && this.systemPrompt == systemPrompt
      ensures this.maxTokens == maxTokens && this.verbose == verbose
      ensures this.apiKey == if Truthy(apiKey) then apiKey else envKey
      ensures messages.items == old(messages.items) + if Truthy(systemPrompt) then [ChatMessage(Model, systemPrompt.value)] else []
    {
      this.messages := messages;
      new;
      Init(messages, model, temperature, systemPrompt, maxTokens, verbose, apiKey, envKey);
    }

    /** `Gemini(...)` with the default list replaced by a new empty list for each
        instance built without `messages`. */
    constructor Fixed(messages: Option<MessageList>, model: string, temperature: real, systemPrompt: Option<string>,
                      maxTokens: int, verbose: bool, apiKey: Option<string>, envKey: Option<string>)
      modifies if messages.Some? then {messages.value} else {}
      ensures messages.Some? ==> this.messages == messages.value
      ensures messages.None? ==> fresh(this.messages)
      ensures this.model == model && this.temperature == temperature && this.systemPrompt == systemPrompt
      ensures this.maxTokens == maxTokens && this.verbose == verbose
      ensures this.apiKey == if Truthy(apiKey) then apiKey else envKey
      ensures this.messages.items ==
        (if messages.Some? then old(messages.value.items) else [])
        + if Truthy(systemPrompt) then [ChatMessage(Model, systemPrompt.value)] else []
    {
      var list: MessageList;
      if messages.Some? {
        list := messages.value;
      } else {
        list := new MessageList([]);
      }
      this.messages := list;
      new;
      Init(list, model, temperature, systemPrompt, maxTokens, verbose, apiKey, envKey);
    }

    /** The body of `__init__`, which `reset` runs again on an existing instance.
        The client it configures is not modelled. */
    method Init(messages: MessageList, model: string, temperature: real, systemPrompt: Option<string>,
                maxTokens: int, verbose: bool, apiKey: Option<string>, envKey: Option<string>)
      modifies this, messages
      ensures this.messages == messages
      ensures this.model == model && this.temperature == temperature && this.systemPrompt == systemPrompt
      ensures this.maxTokens == maxTokens && this.verbose == verbose
      ensures this.apiKey == if Truthy(apiKey) then apiKey else envKey
      ensures messages.items == old(messages.items) + if Truthy(systemPrompt) then [ChatMessage(Model, systemPrompt.value)] else []
    {
      this.apiKey := if Truthy(apiKey) then apiKey else envKey;
      this.messages := messages;
      this.model := model;
      this.temperature := temperature;
      this.systemPrompt := systemPrompt;
      this.maxTokens := maxTokens;
      this.verbose := verbose;
      if Truthy(systemPrompt) {
        AddMessage(Model, systemPrompt.value);
      }
    }

    /** `add_message`: one message at the end of the history, nothing else. */
    method AddMessage(role: string, content: string)
      modifies messages
      ensures messages.items == old(messages.items) + [ChatMessage(role, content)]
    {
      messages.Append(ChatMessage(role, content));
    }

    /** `run`: the prompt is appended, the chat session sees the history ending with
        it, and it is popped again once the session has answered. A session that
        fails leaves the prompt in the history. */
    method Run(chat: Chat, prompt: string) returns (r: Result<string>)
      modifies messages
      ensures var shown := old(messages.items) + [ChatMessage(User, prompt)];
        match chat(shown, prompt)
        case Failed(e) => r == Err(e) && messages.items == shown
        case Replied(text) => r == text && messages.items == old(messages.items)
    {
      AddMessage(User, prompt);
      var reply := chat(messages.items, prompt);
      if reply.Failed? {
        return Err(reply.error);
      }
      var popped := messages.Pop();
      r := reply.text;
    }

    /** `reset`: `__init__` again with a new empty list and no system prompt, so every
        setting returns to its default, then `messages` and `system_prompt` are
        cleared. The list the instance held before is left as it was. */
    method Reset(envKey: Option<string>)
      modifies this
      ensures fresh(messages) && messages.items == [] && systemPrompt == None
      ensures model == DefaultModel && temperature == DefaultTemperature && maxTokens == DefaultMaxTokens
      ensures !verbose && apiKey == envKey
    {
      var cleared := new MessageList([]);
      Init(cleared, DefaultModel, DefaultTemperature, None, DefaultMaxTokens, false, None, envKey);
      messages := new MessageList([]);
      systemPrompt := None;
    }

    /** `__getitem__`: `messages[-k]` is the k-th message from the end, `messages[:]`
        the whole history, and a key that is neither an int nor a slice raises. */
    function Get(index: Index): (r: Result<PyVal>)
      reads this, messages
      ensures index.Item? && IntOf(index.key).None? ==> r == Err(TypeError("Invalid argument type"))
      ensures index.Item? && index.key.PyInt? && -|messages.items| <= index.key.i < 0 ==>
        r == Ok(messages.items[|messages.items| + index.key.i])
      ensures index == Slice(PyNone, PyNone) ==> r == Ok(PyList(messages.items))
    {
      WholeSliceIsHistory(messages.items);
      ListItem(messages.items, index)
    }

    /** `__setitem__`: the history becomes `ListAssign` of it, or is left as it was
        when the assignment raises. */
    method Set(index: Index, value: PyVal) returns (r: Result<()>)
      modifies messages
      ensures var written := ListAssign(old(messages.items), index, value);
        && (written.Ok? ==> r == Ok(()) && messages.items == written.value)
        && (written.Err? ==> r == Err(written.error) && messages.items == old(messages.items))
    {
      var written := ListAssign(messages.items, index, value);
      if written.Err? {
        return Err(written.error);
      }
      messages.items := written.value;
      return Ok(());
    }
  }

  /** Two instances built without `messages` share the default list: the second one's
      history starts with the first one's system prompt. */
  method DefaultHistoryIsShared(defaults: MessageList, first: string, second: string, envKey: Option<string>)
    returns (a: Gemini, b: Gemini)
    requires defaults.items == [] && first != "" && second != ""
    modifies defaults
    ensures a.messages == b.messages == defaults
    ensures b.messages.items == [ChatMessage(Model, first), ChatMessage(Model, second)]
  {
    a := new Gemini(defaults, DefaultModel, DefaultTemperature, Some(first), DefaultMaxTokens, false, None, envKey);
    b := new Gemini(defaults, DefaultModel, DefaultTemperature, Some(second), DefaultMaxTokens, false, None, envKey);
  }

  /** With a new list per instance, each history holds only its own system prompt. */
  method FixedHistoriesAreSeparate(first: string, second: string, envKey: Option<string>)
    returns (a: Gemini, b: Gemini)
    requires first != "" && second != ""
    ensures a.messages != b.messages
    ensures a.messages.items == [ChatMessage(Model, first)] && b.messages.items == [ChatMessage(Model, second)]
  {
    a := new Gemini.Fixed(None, DefaultModel, DefaultTemperature, Some(first), DefaultMaxTokens, false, None, envKey);
    b := new Gemini.Fixed(None, DefaultModel, DefaultTemperature, Some(second), DefaultMaxTokens, false, None, envKey);
  }
}

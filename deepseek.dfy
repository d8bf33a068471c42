/** The DeepSeek wrapper: a system prompt kept as a "system" message of the history,
    and a `run` that streams the reply, keeps the streamed text as one "assistant"
    message, and does not keep the prompt. */
module DeepSeekLlm {
  import opened PyValues
  import opened History

  const User := "user"
  const Assistant := "assistant"
  const System := "system"

  const DefaultModel := "deepseek-model"
  const DefaultTemperature: real := 0.7
  const DefaultMaxTokens := 2048

  /** The text of the stand-in client's only chunk. */
  const MockText := "This is a mock response based on the provided messages."

  /** One streamed chunk, by `chunk["choices"][0]["delta"]["content"]`: a text or `None`. */
  datatype Chunk = Chunk(content: Option<string>)

  /** `client.chat(model_name, temperature, max_tokens, messages, stream=True)`: the
      chunks of the reply, or the exception the request raises. */
  type Client = (string, real, int, seq<PyVal>) -> Result<seq<Chunk>>

  /** The stand-in client shipped with the wrapper: one chunk, whatever it is asked. */
  function MockClient(model: string, temperature: real, maxTokens: int, messages: seq<PyVal>): (r: Result<seq<Chunk>>)
    ensures r.Ok? && |r.value| == 1 && r.value[0].content == Some(MockText)
  {
    Ok([Chunk(Some(MockText))])
  }

  /** What one chunk adds to the reply: its content when that is truthy. */
  function Piece(c: Chunk): string
  {
    if c.content.Some? && c.content.value != "" then c.content.value else ""
  }

  /** The reply text of a stream: every chunk's content, in order. */
  function StreamText(chunks: seq<Chunk>): string
  {
    if chunks == [] then "" else StreamText(chunks[..|chunks| - 1]) + Piece(chunks[|chunks| - 1])
  }

  /** The text of two streams one after the other is the two texts joined. */
  lemma {:induction false} StreamTextJoins(a: seq<Chunk>, b: seq<Chunk>)
    ensures StreamText(a + b) == StreamText(a) + StreamText(b)
    decreases |b|
  {
    if b == [] {
      assert a + b == a;
    } else {
      var c := b[|b| - 1];
      var front := b[..|b| - 1];
      assert (a + b)[..|a + b| - 1] == a + front;
      assert (a + b)[|a + b| - 1] == c;
      assert StreamText(a + b) == StreamText(a + front) + Piece(c);
      assert StreamText(b) == StreamText(front) + Piece(c);
      StreamTextJoins(a, front);
    }
  }

  /** The reply is empty exactly when no chunk carries text. */
  lemma {:induction false} EmptyReplyIff(chunks: seq<Chunk>)
    ensures StreamText(chunks) == "" <==> forall i :: 0 <= i < |chunks| ==> Piece(chunks[i]) == ""
    decreases |chunks|
  {
    if chunks != [] {
      var front := chunks[..|chunks| - 1];
      EmptyReplyIff(front);
      assert forall i :: 0 <= i < |front| ==> front[i] == chunks[i];
    }
  }

  /** With the stand-in client, the reply is its fixed text. */
  lemma MockReplies(model: string, temperature: real, maxTokens: int, messages: seq<PyVal>)
    ensures StreamText(MockClient(model, temperature, maxTokens, messages).value) == MockText
  {
    var chunks := MockClient(model, temperature, maxTokens, messages).value;
    assert chunks[..0] == [];
  }

  class DeepSeek {
    var messages: MessageList
    var model: string
    var temperature: real
    var systemPrompt: Option<string>
    var maxTokens: int
    var verbose: bool
    var apiKey: Option<string>

    /** `DeepSeek(...)`: `messages` is the list passed in or, when the argument is
        left out, the one default list created with the class, shared by every
        instance built without it. A truthy system prompt is appended to it. */
    constructor(messages: MessageList, model: string, temperature: real, systemPrompt: Option<string>,
                maxTokens: int, verbose: bool, apiKey: Option<string>, envKey: Option<string>)
      modifies messages
      ensures this.messages == messages
      ensures this.model == model && this.temperature == temperature && this.systemPrompt == systemPrompt
      ensures this.maxTokens == maxTokens && this.verbose == verbose
      ensures this.apiKey == if Truthy(apiKey) then apiKey else envKey
      ensures messages.items == old(messages.items) + if Truthy(systemPrompt) then [ChatMessage(System, systemPrompt.value)] else []
    {
      this.apiKey := if Truthy(apiKey) then apiKey else envKey;
      this.messages := messages;
      this.model := model;
      this.temperature := temperature;
      this.systemPrompt := systemPrompt;
      this.maxTokens := maxTokens;
      this.verbose := verbose;
      new;
      if Truthy(systemPrompt) {
        AddMessage(System, systemPrompt.value);
      }
    }

    /** `DeepSeek(...)` with the default list replaced by a new empty list for each
        instance built without `messages`. */
    constructor Fixed(messages: Option<MessageList>, model: string, temperature: real, systemPrompt: Option<string>,
                      maxTokens: int, verbose: bool, apiKey: Option<string>, envKey: Option<string>)
      modifies if messages.Some? then {messages.value} else {}
      ensures messages.Some? ==> this.messages == messages.value
      ensures messages.None? ==> fresh(this.messages)
      ensures this.model == model && this.temperature == temperature && this.systemPrompt == systemPrompt
      ensures this.maxTokens == maxTokens && this.verbose == verbose
      ensures this.apiKey == if Truthy(apiKey) then apiKey else envKey
      ensures this.messages.items ==
        (if messages.Some? then old(messages.value.items) else [])
        + if Truthy(systemPrompt) then [ChatMessage(System, systemPrompt.value)] else []
    {
      this.apiKey := if Truthy(apiKey) then apiKey else envKey;
      if messages.Some? {
        this.messages := messages.value;
      } else {
        this.messages := new MessageList([]);
      }
      this.model := model;
      this.temperature := temperature;
      this.systemPrompt := systemPrompt;
      this.maxTokens := maxTokens;
      this.verbose := verbose;
      new;
      if Truthy(systemPrompt) {
        AddMessage(System, systemPrompt.value);
      }
    }

    /** `add_message`: one message at the end of the history, nothing else. */
    method AddMessage(role: string, content: string)
      modifies messages
      ensures messages.items == old(messages.items) + [ChatMessage(role, content)]
    {
      messages.Append(ChatMessage(role, content));
    }

    /** `run`: the client is shown the history ending with the prompt, the prompt is
        popped, the streamed pieces are joined in order, and the reply is appended as
        an "assistant" message. Its net effect on the history is that one message; a
        client that raises leaves the prompt in the history instead. */
    method Run(client: Client, prompt: string) returns (r: Result<string>)
      modifies messages
      ensures var shown := old(messages.items) + [ChatMessage(User, prompt)];
        match client(model, temperature, maxTokens, shown)
        case Err(e) => r == Err(e) && messages.items == shown
        case Ok(chunks) =>
          && r == Ok(StreamText(chunks))
          && messages.items == old(messages.items) + [ChatMessage(Assistant, StreamText(chunks))]
    {
      AddMessage(User, prompt);
      var stream := client(model, temperature, maxTokens, messages.items);
      if stream.Err? {
        return Err(stream.error);
      }
      var popped := messages.Pop();
      var chunks := stream.value;
      var text := "";
      for i := 0 to |chunks|
        invariant text == StreamText(chunks[..i])
      {
        assert chunks[..i + 1][..i] == chunks[..i];
        var content := chunks[i].content;
        if content.Some? && content.value != "" {
          text := text + content.value;
        }
      }
      assert chunks[..|chunks|] == chunks;
      AddMessage(Assistant, text);
      return Ok(text);
    }

    /** `__getitem__`: `messages[-k]` is the k-th message from the end, `messages[:]`
        the whole history, and a key that is neither an int nor a slice raises. */
    function Get(index: Index): (r: Result<PyVal>)
      reads this, messages
      ensures index.Item? && IntOf(index.key).None? ==> r == Err(TypeError("Invalid argument type"))
      ensures index.Item? && index.key.PyInt? && -|messages.items| <= index.key.i < 0 ==>
        r == Ok(messages.items[|messages.items| + index.key.i])
      ensures index == Slice(PyNone, PyNone) ==> r == Ok(PyList(messages.items))
    {
      WholeSliceIsHistory(messages.items);
      ListItem(messages.items, index)
    }

    /** `__setitem__`: the history becomes `ListAssign` of it, or is left as it was
        when the assignment raises. */
    method Set(index: Index, value: PyVal) returns (r: Result<()>)
      modifies messages
      ensures var written := ListAssign(old(messages.items), index, value);
        && (written.Ok? ==> r == Ok(()) && messages.items == written.value)
        && (written.Err? ==> r == Err(written.error) && messages.items == old(messages.items))
    {
      var written := ListAssign(messages.items, index, value);
      if written.Err? {
        return Err(written.error);
      }
      messages.items := written.value;
      return Ok(());
    }
  }

  /** With the stand-in client, `run` returns its fixed text and keeps it as the one
      new "assistant" message. */
  method MockRun(d: DeepSeek, prompt: string) returns (r: Result<string>)
    modifies d.messages
    ensures r == Ok(MockText)
    ensures d.messages.items == old(d.messages.items) + [ChatMessage(Assistant, MockText)]
  {
    r := d.Run(MockClient, prompt);
    MockReplies(d.model, d.temperature, d.maxTokens, old(d.messages.items) + [ChatMessage(User, prompt)]);
  }

  /** Two instances built without `messages` share the default list: the first one's
      reply is in the second one's history. */
  method DefaultHistoryIsShared(defaults: MessageList, prompt: string, envKey: Option<string>)
    returns (a: DeepSeek, b: DeepSeek)
    requires defaults.items == []
    modifies defaults
    ensures a.messages == b.messages == defaults
    ensures b.messages.items == [ChatMessage(Assistant, MockText)]
  {
    a := new DeepSeek(defaults, DefaultModel, DefaultTemperature, None, DefaultMaxTokens, false, None, envKey);
    b := new DeepSeek(defaults, DefaultModel, DefaultTemperature, None, DefaultMaxTokens, false, None, envKey);
    var reply := MockRun(a, prompt);
  }

  /** With a new list per instance, the first one's reply stays out of the second
      one's history. */
  method FixedHistoriesAreSeparate(prompt: string, envKey: Option<string>)
    returns (a: DeepSeek, b: DeepSeek)
    ensures a.messages != b.messages
    ensures a.messages.items == [ChatMessage(Assistant, MockText)] && b.messages.items == []
  {
    a := new DeepSeek.Fixed(None, DefaultModel, DefaultTemperature, None, DefaultMaxTokens, false, None, envKey);
    b := new DeepSeek.Fixed(None, DefaultModel, DefaultTemperature, None, DefaultMaxTokens, false, None, envKey);
    var reply := MockRun(a, prompt);
  }
}

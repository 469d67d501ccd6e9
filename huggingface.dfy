/** The Hugging Face inference provider: the chat-prompt template built from a
    sequence of chat messages, the resolution of the generation settings
    against their defaults, the metadata the provider reports, and the shape
    of the chat responses built around the remote text-generation call. The
    remote calls themselves are parameters. */
module HuggingFace {
  import opened Js

  const SystemTag: string := "<|system|>\n"
  const UserTag: string := "<|user|>\n"
  const AssistantTag: string := "<|assistant|>\n"
  const EndOfTurn: string := "</s>\n"

  /** The blank system segment put in front of a prompt that does not open with one. */
  const BlankSystem: string := SystemTag + EndOfTurn

  /** The role string of a chat message: the three roles the template renders,
      or any other role string (`memory`, `developer`, ...). */
  datatype RoleTag = System | User | Assistant | Other(name: string)

  /** A role tag stands for exactly one role string: `Other` never carries
      the name of a rendered role. */
  type Role = r: RoleTag | !r.Other? || r.name !in {"system", "user", "assistant"} witness System

  datatype ChatMessage = ChatMessage(content: string, role: Role)

  /** The role as the string the message carries. */
  function RoleName(r: Role): string
  {
    match r
    case System => "system"
    case User => "user"
    case Assistant => "assistant"
    case Other(name) => name
  }

  /** Distinct roles are distinct role strings. */
  lemma RoleNameInjective(a: Role, b: Role)
    requires RoleName(a) == RoleName(b)
    ensures a == b
  {
  }

  /** The roles the template renders; messages with any other role are skipped. */
  predicate IsRendered(m: ChatMessage)
  {
    !m.role.Other?
  }

  /** The text one message contributes to the prompt. */
  function Segment(m: ChatMessage): string
  {
    match m.role
    case System => SystemTag + m.content + EndOfTurn
    case User => UserTag + m.content + EndOfTurn
    case Assistant => AssistantTag + m.content + EndOfTurn
    case Other(_) => ""
  }

  /** The concatenation of `f` over a sequence, built front to back. */
  function ConcatMap<X>(xs: seq<X>, f: X -> string): string
  {
    if xs == [] then "" else ConcatMap(xs[..|xs| - 1], f) + f(xs[|xs| - 1])
  }

  /** The concatenated segments of a message sequence, in input order. */
  function Segments(ms: seq<ChatMessage>): string
  {
    ConcatMap(ms, Segment)
  }

  /** The elements of a sequence that satisfy `keep`, in their order. */
  function Filter<X>(xs: seq<X>, keep: X -> bool): (r: seq<X>)
    ensures |r| <= |xs|
    ensures forall x :: x in r ==> x in xs && keep(x)
    ensures forall i :: 0 <= i < |xs| && keep(xs[i]) ==> xs[i] in r
  {
    if xs == [] then []
    else Filter(xs[..|xs| - 1], keep) + (if keep(xs[|xs| - 1]) then [xs[|xs| - 1]] else [])
  }

  /** The rendered messages of a sequence, in their input order. */
  function Rendered(ms: seq<ChatMessage>): (r: seq<ChatMessage>)
    ensures |r| <= |ms|
    ensures forall m :: m in r ==> m in ms && IsRendered(m)
    ensures forall i :: 0 <= i < |ms| && IsRendered(ms[i]) ==> ms[i] in r
  {
    Filter(ms, IsRendered)
  }

  /** Whether the first rendered message of the sequence is a system message. */
  predicate OpensWithSystem(ms: seq<ChatMessage>)
  {
    Rendered(ms) != [] && Rendered(ms)[0].role == System
  }

  /** The prompt for a message sequence: the segments, behind a blank system
      segment unless they already start with the system tag, followed by an
      open assistant tag. */
  function PromptOf(messages: seq<ChatMessage>): string
  {
    var body := Segments(messages);
    (if StartsWith(body, SystemTag) then body else BlankSystem + body) + AssistantTag
  }

  /** A rendered message contributes `<|role|>\n`, its content and `</s>\n`;
      any other message contributes nothing. */
  lemma SegmentIsTaggedContent(m: ChatMessage)
    ensures IsRendered(m) ==> Segment(m) == "<|" + RoleName(m.role) + "|>\n" + m.content + "</s>\n"
    ensures !IsRendered(m) ==> Segment(m) == ""
  {
  }

  lemma {:induction false} ConcatMapAppend<X>(a: seq<X>, b: seq<X>, f: X -> string)
    ensures ConcatMap(a + b, f) == ConcatMap(a, f) + ConcatMap(b, f)
    decreases |b|
  {
    if b == [] {
      assert a + b == a;
    } else {
      var ab, front, last := a + b, b[..|b| - 1], b[|b| - 1];
      assert ab[..|ab| - 1] == a + front;
      assert ab[|ab| - 1] == last;
      ConcatMapAppend(a, front, f);
    }
  }

  /** The segments of two message sequences in a row are their segments in a row. */
  lemma SegmentsAppend(a: seq<ChatMessage>, b: seq<ChatMessage>)
    ensures Segments(a + b) == Segments(a) + Segments(b)
  {
    ConcatMapAppend(a, b, Segment);
  }

  /** The segments of a single message are its segment. */
  lemma SegmentsOfOne(m: ChatMessage)
    ensures Segments([m]) == Segment(m)
  {
    assert [m][..0] == [];
    assert Segments([m]) == ConcatMap([], Segment) + Segment(m);
    assert "" + Segment(m) == Segment(m);
  }

  /** Message `i` contributes its segment right after the segments of the
      messages before it and right before those of the messages after it. */
  lemma SegmentsAt(ms: seq<ChatMessage>, i: nat)
    requires i < |ms|
    ensures Segments(ms) == Segments(ms[..i]) + Segment(ms[i]) + Segments(ms[i + 1..])
  {
    assert ms == ms[..i] + [ms[i]] + ms[i + 1..];
    SegmentsAppend(ms[..i] + [ms[i]], ms[i + 1..]);
    SegmentsAppend(ms[..i], [ms[i]]);
    SegmentsOfOne(ms[i]);
  }

  /** Messages whose role is not rendered contribute nothing: the segments of a
      sequence are those of its rendered messages alone. */
  lemma {:induction false} SegmentsOfRendered(ms: seq<ChatMessage>)
    ensures Segments(Rendered(ms)) == Segments(ms)
    decreases |ms|
  {
    if ms != [] {
      var front, last := ms[..|ms| - 1], ms[|ms| - 1];
      SegmentsOfRendered(front);
      var tail := if IsRendered(last) then [last] else [];
      SegmentsAppend(Rendered(front), tail);
      SegmentsOfOne(last);
    }
  }

  /** A rendered segment, whatever follows it, starts with the system tag
      exactly when it is a system segment: a user or assistant segment
      differs from the system tag in its third character. */
  lemma RenderedSegmentStartsWithSystemIff(m: ChatMessage, rest: string)
    requires IsRendered(m)
    ensures StartsWith(Segment(m) + rest, SystemTag) <==> m.role == System
  {
    var s := Segment(m) + rest;
    if m.role == System {
      assert s[..|SystemTag|] == SystemTag;
    } else {
      assert s[2] == Segment(m)[2] != 's';
    }
  }

  /** The segments start with the system tag exactly when the first rendered
      message is a system message. */
  lemma SegmentsStartWithSystemIff(ms: seq<ChatMessage>)
    ensures StartsWith(Segments(ms), SystemTag) <==> OpensWithSystem(ms)
  {
    var r := Rendered(ms);
    SegmentsOfRendered(ms);
    if r != [] {
      var first := r[0];
      assert first in r;
      assert r == [first] + r[1..];
      SegmentsAppend([first], r[1..]);
      SegmentsOfOne(first);
      assert Segments(ms) == Segment(first) + Segments(r[1..]);
      RenderedSegmentStartsWithSystemIff(first, Segments(r[1..]));
    }
  }

  /** The exact shape of a prompt: the blank system segment is there exactly
      when the first rendered message is not a system message, then every
      segment in order, then one open assistant tag. */
  lemma PromptShape(ms: seq<ChatMessage>)
    ensures PromptOf(ms) == (if OpensWithSystem(ms) then "" else BlankSystem) + Segments(ms) + AssistantTag
  {
    SegmentsStartWithSystemIff(ms);
  }

  /** Every prompt opens with the system tag. */
  lemma PromptStartsWithSystem(ms: seq<ChatMessage>)
    ensures StartsWith(PromptOf(ms), SystemTag)
  {
    var body := Segments(ms);
    if !StartsWith(body, SystemTag) {
      assert (BlankSystem + body + AssistantTag)[..|SystemTag|] == SystemTag;
    } else {
      assert (body + AssistantTag)[..|SystemTag|] == body[..|SystemTag|];
    }
  }

  /** Every prompt ends with the open assistant tag. */
  lemma PromptEndsWithAssistant(ms: seq<ChatMessage>)
    ensures EndsWith(PromptOf(ms), AssistantTag)
  {
    var p := PromptOf(ms);
    var front := p[..|p| - |AssistantTag|];
    assert p == front + AssistantTag;
  }

  /** A sequence without a rendered role has no rendered messages. */
  lemma {:induction false} NothingRendered(ms: seq<ChatMessage>)
    requires forall i :: 0 <= i < |ms| ==> !IsRendered(ms[i])
    ensures Rendered(ms) == []
    decreases |ms|
  {
    if ms != [] {
      NothingRendered(ms[..|ms| - 1]);
    }
  }

  lemma {:induction false} FilterAppend<X>(a: seq<X>, b: seq<X>, keep: X -> bool)
    ensures Filter(a + b, keep) == Filter(a, keep) + Filter(b, keep)
    decreases |b|
  {
    if b == [] {
      assert a + b == a;
    } else {
      var ab, front, last := a + b, b[..|b| - 1], b[|b| - 1];
      assert ab[..|ab| - 1] == a + front;
      assert ab[|ab| - 1] == last;
      FilterAppend(a, front, keep);
      var tail := if keep(last) then [last] else [];
      assert Filter(ab, keep) == Filter(a + front, keep) + tail;
      assert Filter(b, keep) == Filter(front, keep) + tail;
    }
  }

  /** The rendered messages of two sequences in a row are theirs in a row. */
  lemma RenderedAppend(a: seq<ChatMessage>, b: seq<ChatMessage>)
    ensures Rendered(a + b) == Rendered(a) + Rendered(b)
  {
    FilterAppend(a, b, IsRendered);
  }

  /** The first rendered message is the input's first message with a rendered role. */
  lemma FirstRenderedAt(ms: seq<ChatMessage>, k: nat)
    requires k < |ms| && IsRendered(ms[k])
    requires forall j :: 0 <= j < k ==> !IsRendered(ms[j])
    ensures Rendered(ms) != [] && Rendered(ms)[0] == ms[k]
  {
    assert ms == ms[..k] + ([ms[k]] + ms[k + 1..]);
    RenderedAppend(ms[..k], [ms[k]] + ms[k + 1..]);
    RenderedAppend([ms[k]], ms[k + 1..]);
    NothingRendered(ms[..k]);
    assert [ms[k]][..0] == [];
    assert Rendered([ms[k]]) == [ms[k]];
  }

  /** A prompt's segments open with a system message exactly when the input
      has a system message with no rendered message before it. */
  lemma OpensWithSystemIff(ms: seq<ChatMessage>)
    ensures OpensWithSystem(ms) <==>
      exists i :: 0 <= i < |ms| && ms[i].role == System && forall j :: 0 <= j < i ==> !IsRendered(ms[j])
  {
    var k := 0;
    while k < |ms| && !IsRendered(ms[k])
      invariant 0 <= k <= |ms|
      invariant forall j :: 0 <= j < k ==> !IsRendered(ms[j])
    {
      k := k + 1;
    }
    if k < |ms| {
      FirstRenderedAt(ms, k);
      if OpensWithSystem(ms) {
        assert ms[k].role == System;
      }
      forall i | 0 <= i < |ms| && ms[i].role == System && forall j :: 0 <= j < i ==> !IsRendered(ms[j])
        ensures i == k
      {
        assert IsRendered(ms[i]) && IsRendered(ms[k]);
      }
    } else {
      NothingRendered(ms);
    }
  }

  /** No messages, or none with a rendered role, give the bare template. */
  lemma PromptOfNothingRendered(ms: seq<ChatMessage>)
    requires forall i :: 0 <= i < |ms| ==> !IsRendered(ms[i])
    ensures PromptOf(ms) == "<|system|>\n</s>\n<|assistant|>\n"
  {
    SegmentsOfRendered(ms);
    NothingRendered(ms);
  }

  /** The settings used when the configuration leaves them out. */
  datatype DefaultParams = DefaultParams(temperature: real, topP: real, maxTokens: Option<int>, contextWindow: int)

  const DEFAULT_PARAMS: DefaultParams := DefaultParams(0.1, 1.0, None, 3900)

  /** The constructor's configuration; absent or null settings are `None`. */
  datatype HFConfig = HFConfig(
    model: string,
    accessToken: string,
    endpoint: Option<string>,
    temperature: Option<real>,
    topP: Option<real>,
    maxTokens: Option<int>,
    contextWindow: Option<int>)

  datatype Tokenizer = Cl100kBase

  datatype LLMMetadata = LLMMetadata(
    model: string,
    temperature: real,
    topP: real,
    maxTokens: Option<int>,
    contextWindow: int,
    tokenizer: Option<Tokenizer>,
    structuredOutput: bool)

  /** What the provider hands to the remote text-generation calls. */
  datatype TextGenerationArgs = TextGenerationArgs(model: string, inputs: string, parameters: LLMMetadata)

  datatype TextGenerationOutput = TextGenerationOutput(generatedText: string)

  datatype Token = Token(id: int, text: string, special: bool)

  datatype TextGenerationStreamOutput = TextGenerationStreamOutput(token: Token)

  datatype ChatResponse = ChatResponse(message: ChatMessage, raw: TextGenerationOutput)

  datatype ChatResponseChunk = ChatResponseChunk(delta: string, raw: TextGenerationStreamOutput)

  /** `stream` stands for the truthiness of `params.stream`. */
  datatype ChatParams = ChatParams(messages: seq<ChatMessage>, stream: bool)

  datatype ChatResult = Complete(response: ChatResponse) | Streamed(chunks: seq<ChatResponseChunk>)

  /** Each chunk of the remote token stream becomes a chunk whose delta is the token's text. */
  function ToChunks(stream: seq<TextGenerationStreamOutput>): (r: seq<ChatResponseChunk>)
    ensures |r| == |stream|
    ensures forall i :: 0 <= i < |r| ==> r[i].delta == stream[i].token.text && r[i].raw == stream[i]
  {
    seq(|stream|, i requires 0 <= i < |stream| => ChatResponseChunk(stream[i].token.text, stream[i]))
  }

  function Delta(c: ChatResponseChunk): string { c.delta }

  function TokenText(o: TextGenerationStreamOutput): string { o.token.text }

  /** The concatenated deltas of a sequence of chunks. */
  function Deltas(chunks: seq<ChatResponseChunk>): string
  {
    ConcatMap(chunks, Delta)
  }

  /** The concatenated token texts of a remote stream. */
  function TokenTexts(stream: seq<TextGenerationStreamOutput>): string
  {
    ConcatMap(stream, TokenText)
  }

  /** Concatenating the streamed deltas gives the concatenated token texts. */
  lemma {:induction false} DeltasAreTokenTexts(stream: seq<TextGenerationStreamOutput>)
    ensures Deltas(ToChunks(stream)) == TokenTexts(stream)
    decreases |stream|
  {
    if stream != [] {
      var n := |stream|;
      assert ToChunks(stream)[..n - 1] == ToChunks(stream[..n - 1]);
      DeltasAreTokenTexts(stream[..n - 1]);
    }
  }

  class HuggingFaceInferenceAPI {
    var model: string
    var temperature: real
    var topP: real
    var maxTokens: Option<int>
    var contextWindow: int

    /** Each setting keeps the supplied value, zero included, and takes its
        default only when it is absent or null. */
    constructor (init: HFConfig)
      ensures model == init.model
      ensures temperature == (if init.temperature.Some? then init.temperature.value else 0.1)
      ensures topP == (if init.topP.Some? then init.topP.value else 1.0)
      ensures maxTokens == init.maxTokens
      ensures contextWindow == (if init.contextWindow.Some? then init.contextWindow.value else 3900)
    {
      model := init.model;
      temperature := Coalesce(init.temperature, DEFAULT_PARAMS.temperature);
      topP := Coalesce(init.topP, DEFAULT_PARAMS.topP);
      maxTokens := CoalesceOption(init.maxTokens, DEFAULT_PARAMS.maxTokens);
      contextWindow := Coalesce(init.contextWindow, DEFAULT_PARAMS.contextWindow);
    }

    /** The instance's settings, unchanged, with no tokenizer and no structured output. */
    function Metadata(): (m: LLMMetadata)
      reads this
      ensures m.model == model && m.temperature == temperature && m.topP == topP
      ensures m.maxTokens == maxTokens && m.contextWindow == contextWindow
      ensures m.tokenizer == None && !m.structuredOutput
    {
      LLMMetadata(model, temperature, topP, maxTokens, contextWindow, None, false)
    }

    /** The arguments both chat paths send to the remote for a message sequence. */
    function Request(messages: seq<ChatMessage>): TextGenerationArgs
      reads this
    {
      TextGenerationArgs(model, PromptOf(messages), Metadata())
    }

    /** Builds the chat prompt by appending one segment per rendered message,
        then puts the blank system segment in front when needed and appends
        the open assistant tag. */
    static method MessagesToPrompt(messages: seq<ChatMessage>) returns (prompt: string)
      ensures prompt == PromptOf(messages)
    {
      prompt := "";
      for i := 0 to |messages|
        invariant prompt == Segments(messages[..i])
      {
        var message := messages[i];
        assert messages[..i + 1][..i] == messages[..i];
        if message.role == System {
          prompt := prompt + SystemTag + message.content + EndOfTurn;
        } else if message.role == User {
          prompt := prompt + UserTag + message.content + EndOfTurn;
        } else if message.role == Assistant {
          prompt := prompt + AssistantTag + message.content + EndOfTurn;
        }
      }
      assert messages[..|messages|] == messages;
      if !StartsWith(prompt, SystemTag) {
        prompt := BlankSystem + prompt;
      }
      prompt := prompt + AssistantTag;
    }

    /** The non-streaming path: one remote call on the prompt, the model and
        the metadata; its generated text becomes an assistant message and the
        remote's answer is kept as the raw response. */
    method NonStreamChat(params: ChatParams, textGeneration: TextGenerationArgs -> TextGenerationOutput)
      returns (r: ChatResponse)
      ensures r.message.role == Assistant
      ensures r.raw == textGeneration(Request(params.messages))
      ensures r.message.content == r.raw.generatedText
    {
      var prompt := MessagesToPrompt(params.messages);
      var res := textGeneration(TextGenerationArgs(model, prompt, Metadata()));
      r := ChatResponse(ChatMessage(res.generatedText, Assistant), res);
    }

    /** The streaming path: the remote stream for the same arguments, chunk by chunk. */
    method StreamChat(params: ChatParams, textGenerationStream: TextGenerationArgs -> seq<TextGenerationStreamOutput>)
      returns (chunks: seq<ChatResponseChunk>)
      ensures chunks == ToChunks(textGenerationStream(Request(params.messages)))
    {
      var prompt := MessagesToPrompt(params.messages);
      chunks := ToChunks(textGenerationStream(TextGenerationArgs(model, prompt, Metadata())));
    }

    /** Dispatches to the streaming path exactly when `params.stream` is truthy. */
    method Chat(
      params: ChatParams,
      textGeneration: TextGenerationArgs -> TextGenerationOutput,
      textGenerationStream: TextGenerationArgs -> seq<TextGenerationStreamOutput>)
      returns (r: ChatResult)
      ensures r.Streamed? <==> params.stream
      ensures r.Streamed? ==> r.chunks == ToChunks(textGenerationStream(Request(params.messages)))
      ensures r.Complete? ==> r.response.raw == textGeneration(Request(params.messages))
      ensures r.Complete? ==> r.response.message == ChatMessage(r.response.raw.generatedText, Assistant)
    {
      if params.stream {
        var chunks := StreamChat(params, textGenerationStream);
        r := Streamed(chunks);
      } else {
        var response := NonStreamChat(params, textGeneration);
        r := Complete(response);
      }
    }
  }

  /** A remote whose generated text is the concatenation of the tokens it
      streams for the same arguments gives the same content on both paths:
      the streamed deltas concatenate to the non-streaming message content. */
  lemma StreamingMatchesNonStreaming(
    api: HuggingFaceInferenceAPI,
    messages: seq<ChatMessage>,
    textGeneration: TextGenerationArgs -> TextGenerationOutput,
    textGenerationStream: TextGenerationArgs -> seq<TextGenerationStreamOutput>)
    requires textGeneration(api.Request(messages)).generatedText == TokenTexts(textGenerationStream(api.Request(messages)))
    ensures Deltas(ToChunks(textGenerationStream(api.Request(messages)))) == textGeneration(api.Request(messages)).generatedText
  {
    DeltasAreTokenTexts(textGenerationStream(api.Request(messages)));
  }
}

/**
 * The provider-independent part of the LLM layer: the provider-type
 * dispatch, `appendContent` (one finished block of streamed text filed as a
 * typed segment), the title prompt and the lookups before it, the stored
 * assistant message, and the history conversion both providers share.
 */
module LlmClient {
  import opened Wrappers
  import opened Wire
  import ProviderCache

  const OpenAIProvider: string := "openai"
  const GeminiProvider: string := "gemini"
  const AssistantRole: string := "assistant"
  const UserRole: string := "user"
  const TitleGenerationKey: string := "title_generation"

  // ---------------------------------------------------------------------
  // Dispatch
  // ---------------------------------------------------------------------

  datatype Backend = OpenAIBackend | GeminiBackend

  /** The `switch` on the provider type in `StreamChat` and `GenerateTitle`. */
  function Dispatch(providerType: string): (r: Result<Backend>)
    ensures r == Ok(OpenAIBackend) <==> providerType == OpenAIProvider
    ensures r == Ok(GeminiBackend) <==> providerType == GeminiProvider
    ensures r.Err? ==> r.error == "unsupported provider type: " + providerType
  {
    if providerType == OpenAIProvider then Ok(OpenAIBackend)
    else if providerType == GeminiProvider then Ok(GeminiBackend)
    else Err("unsupported provider type: " + providerType)
  }

  // ---------------------------------------------------------------------
  // appendContent
  // ---------------------------------------------------------------------

  /**
   * `appendContent(&builder, messageType, &contentList)`: the list after
   * the builder's text is filed as a segment; `reasoning` blocks stay
   * reasoning, any other type (even none) becomes a message, and an empty
   * builder files nothing.
   */
  function AppendContent(contents: seq<Segment>, kind: string, builder: string): (r: seq<Segment>)
    ensures builder == "" ==> r == contents
    ensures builder != "" ==> |r| == |contents| + 1 && r[..|contents|] == contents && r[|contents|].text == builder
    ensures builder != "" ==> (r[|contents|].kind == ReasoningType <==> kind == ReasoningType)
    ensures builder != "" ==> (r[|contents|].kind == MessageType <==> kind != ReasoningType)
  {
    if builder == "" then contents
    else if kind == ReasoningType then contents + [Segment(ReasoningType, builder)]
    else contents + [Segment(MessageType, builder)]
  }

  /** All text filed so far, in order. */
  lemma AppendContentText(contents: seq<Segment>, kind: string, builder: string)
    ensures Flatten(AppendContent(contents, kind, builder)) == Flatten(contents) + builder
  {
    if builder != "" {
      var r := AppendContent(contents, kind, builder);
      assert r[..|r| - 1] == contents;
    }
  }

  /** No filed segment is empty: an empty builder never becomes a segment. */
  predicate NoEmptySegment(segs: seq<Segment>) {
    forall i :: 0 <= i < |segs| ==> segs[i].text != ""
  }

  /** Filed segments are messages or reasoning. */
  predicate StoredKinds(segs: seq<Segment>) {
    forall i :: 0 <= i < |segs| ==> segs[i].kind == MessageType || segs[i].kind == ReasoningType
  }

  // ---------------------------------------------------------------------
  // The stored assistant message
  // ---------------------------------------------------------------------

  /** The part of the user's new message a provider reads. */
  datatype NewMessage = NewMessage(id: string, conversationId: string, content: string)

  /** The assistant message `saveMessage` inserts. */
  datatype StoredMessage = StoredMessage(
    id: string,
    conversationId: string,
    parentId: string,
    role: string,
    content: seq<Segment>,
    meta: MetaInfo)

  /** How a provider's `StreamChat` ended: all read and `[DONE]` written, the client gone, or the upstream stream failed. */
  datatype Ending = Finished | Cancelled | Failed

  /** The first usage record: only provider and model names. */
  function InitialMeta(providerName: string, modelName: string): MetaInfo {
    MetaInfo(providerName, modelName, 0, 0, 0, 0, 0, [], None)
  }

  /** The message `saveMessage` stores: a fresh id, the reply's conversation, the new message as parent, the assistant role. */
  function Saved(messageId: string, newMessage: NewMessage, content: seq<Segment>, meta: MetaInfo): (r: StoredMessage)
    ensures r.parentId == newMessage.id && r.role == AssistantRole && r.conversationId == newMessage.conversationId
  {
    StoredMessage(messageId, newMessage.conversationId, newMessage.id, AssistantRole, content, meta)
  }

  // ---------------------------------------------------------------------
  // History conversion
  // ---------------------------------------------------------------------

  /** A stored message as the history conversion reads it; `content` is `None` when its text is not a segment list. */
  datatype HistoryMessage = HistoryMessage(role: string, content: Option<seq<Segment>>)

  /** One input item for the provider. */
  datatype Turn = Turn(role: string, text: string)

  /** The `message` segments of one stored message, each as a turn of the given role. */
  function SegmentTurns(segs: seq<Segment>, role: string): (r: seq<Turn>)
    ensures |r| <= |segs|
    ensures forall i :: 0 <= i < |r| ==> r[i].role == role
  {
    if segs == [] then []
    else
      var init := SegmentTurns(segs[..|segs| - 1], role);
      if segs[|segs| - 1].kind == MessageType then init + [Turn(role, segs[|segs| - 1].text)] else init
  }

  /** The role a stored message's turns take: `assistantSide` for the assistant, the user side for every other role. */
  function TurnRole(m: HistoryMessage, assistantSide: string): string {
    if m.role == AssistantRole then assistantSide else UserRole
  }

  /**
   * The history as the provider receives it: every `message` segment of
   * every stored message in order; reasoning is never sent back. `None`
   * when some message's content does not decode.
   */
  function HistoryTurns(ms: seq<HistoryMessage>, assistantSide: string): (r: Option<seq<Turn>>)
    ensures r.Some? <==> forall i :: 0 <= i < |ms| ==> ms[i].content.Some?
    ensures r.Some? ==> forall i :: 0 <= i < |r.value| ==> r.value[i].role == assistantSide || r.value[i].role == UserRole
  {
    if ms == [] then Some([])
    else
      var init := HistoryTurns(ms[..|ms| - 1], assistantSide);
      var m := ms[|ms| - 1];
      if init.None? || m.content.None? then None
      else Some(init.value + SegmentTurns(m.content.value, TurnRole(m, assistantSide)))
  }

  /** One more decoded message adds its `message` segments to the turns so far. */
  lemma HistoryTurnsStep(ms: seq<HistoryMessage>, i: nat, assistantSide: string)
    requires i < |ms| && HistoryTurns(ms[..i], assistantSide).Some? && ms[i].content.Some?
    ensures HistoryTurns(ms[..i + 1], assistantSide)
      == Some(HistoryTurns(ms[..i], assistantSide).value + SegmentTurns(ms[i].content.value, TurnRole(ms[i], assistantSide)))
  {
    assert ms[..i + 1][..i] == ms[..i];
  }

  /** The inner loop of both conversions: each `message` segment of one stored message becomes a turn. */
  method AddSegmentTurns(items: seq<Turn>, contents: seq<Segment>, role: string) returns (r: seq<Turn>)
    ensures r == items + SegmentTurns(contents, role)
  {
    r := items;
    var j := 0;
    while j < |contents|
      invariant 0 <= j <= |contents|
      invariant r == items + SegmentTurns(contents[..j], role)
    {
      assert contents[..j + 1][..j] == contents[..j];
      if contents[j].kind == MessageType {
        r := r + [Turn(role, contents[j].text)];
      }
      j := j + 1;
    }
    assert contents[..|contents|] == contents;
  }

  /** A message whose content does not decode fails the whole conversion. */
  lemma HistoryPrefixFails(ms: seq<HistoryMessage>, n: nat, assistantSide: string)
    requires n <= |ms| && HistoryTurns(ms[..n], assistantSide).None?
    ensures HistoryTurns(ms, assistantSide).None?
  {
    var i :| 0 <= i < n && ms[..n][i].content.None?;
    assert ms[i].content.None?;
  }

  /** Reasoning and other non-message segments contribute nothing. */
  lemma {:induction false} OnlyMessagesSent(segs: seq<Segment>, role: string)
    requires forall i :: 0 <= i < |segs| ==> segs[i].kind != MessageType
    ensures SegmentTurns(segs, role) == []
  {
    if segs != [] {
      OnlyMessagesSent(segs[..|segs| - 1], role);
    }
  }

  /** Every message segment is sent, in order: the turns of two concatenated lists are concatenated. */
  lemma {:induction false} SegmentTurnsAppend(a: seq<Segment>, b: seq<Segment>, role: string)
    ensures SegmentTurns(a + b, role) == SegmentTurns(a, role) + SegmentTurns(b, role)
  {
    if b != [] {
      assert (a + b)[..|a + b| - 1] == a + b[..|b| - 1];
      SegmentTurnsAppend(a, b[..|b| - 1], role);
    } else {
      assert a + b == a;
    }
  }

  /** The history of a longer list extends the history of a shorter one. */
  lemma {:induction false} HistoryTurnsAppend(a: seq<HistoryMessage>, b: seq<HistoryMessage>, assistantSide: string)
    requires HistoryTurns(a + b, assistantSide).Some?
    ensures HistoryTurns(a, assistantSide).Some? && HistoryTurns(b, assistantSide).Some?
    ensures HistoryTurns(a + b, assistantSide).value == HistoryTurns(a, assistantSide).value + HistoryTurns(b, assistantSide).value
  {
    if b == [] {
      assert a + b == a;
    } else {
      var ab, init, last := a + b, b[..|b| - 1], b[|b| - 1];
      assert ab[..|ab| - 1] == a + init && ab[|ab| - 1] == last;
      assert HistoryTurns(a + init, assistantSide).Some? && last.content.Some?;
      HistoryTurnsAppend(a, init, assistantSide);
      var lastTurns := SegmentTurns(last.content.value, TurnRole(last, assistantSide));
      assert HistoryTurns(ab, assistantSide) == Some(HistoryTurns(a + init, assistantSide).value + lastTurns);
      assert HistoryTurns(b, assistantSide) == Some(HistoryTurns(init, assistantSide).value + lastTurns);
      assert HistoryTurns(a, assistantSide).value + HistoryTurns(init, assistantSide).value + lastTurns == HistoryTurns(a, assistantSide).value + (HistoryTurns(init, assistantSide).value + lastTurns);
    }
  }

  // ---------------------------------------------------------------------
  // GenerateTitle: lookups and the prompt
  // ---------------------------------------------------------------------

  /** A message as the title prompt shows it: its role and its raw content text. */
  datatype TitleMessage = TitleMessage(role: string, content: string)

  function MessageLine(m: TitleMessage): string {
    "<message role=\"" + m.role + "\">" + m.content + "</message>\n"
  }

  /** One line per message, in order. */
  function Lines(ms: seq<TitleMessage>): string {
    if ms == [] then "" else Lines(ms[..|ms| - 1]) + MessageLine(ms[|ms| - 1])
  }

  /** The chat history wrapped for the title model. */
  function TitleXml(ms: seq<TitleMessage>): (r: string)
    ensures |r| >= 30 && r[..15] == "<chat_history>\n" && r[|r| - 15..] == "</chat_history>"
  {
    "<chat_history>\n" + Lines(ms) + "</chat_history>"
  }

  lemma {:induction false} LinesAppend(a: seq<TitleMessage>, b: seq<TitleMessage>)
    ensures Lines(a + b) == Lines(a) + Lines(b)
  {
    if b == [] {
      assert a + b == a;
    } else {
      var init, last := b[..|b| - 1], b[|b| - 1];
      assert (a + b)[..|a + b| - 1] == a + init;
      assert (a + b)[|a + b| - 1] == last;
      LinesAppend(a, init);
      assert Lines(a + b) == Lines(a + init) + MessageLine(last);
      assert Lines(b) == Lines(init) + MessageLine(last);
      assert Lines(a) + Lines(init) + MessageLine(last) == Lines(a) + (Lines(init) + MessageLine(last));
    }
  }

  /** Between the wrapper tags, each message's line in order. */
  lemma TitleXmlLines(ms: seq<TitleMessage>)
    ensures TitleXml(ms)[15..|TitleXml(ms)| - 15] == Lines(ms)
  {
  }

  /** The `strings.Builder` loop. */
  method BuildTitleXml(ms: seq<TitleMessage>) returns (xml: string)
    ensures xml == TitleXml(ms)
  {
    var sb := "<chat_history>\n";
    var i := 0;
    while i < |ms|
      invariant 0 <= i <= |ms|
      invariant sb == "<chat_history>\n" + Lines(ms[..i])
    {
      assert ms[..i + 1][..i] == ms[..i];
      sb := sb + MessageLine(ms[i]);
      i := i + 1;
    }
    assert ms[..|ms|] == ms;
    xml := sb + "</chat_history>";
  }

  /** What `GenerateTitle` hands the provider: its backend, the provider and model, the prompt template and the history. */
  datatype TitleCall = TitleCall(
    backend: Backend,
    provider: ProviderCache.ProviderInfo,
    model: ProviderCache.ModelConfig,
    instruction: string,
    xml: string)

  /** `gconv.String(config[key])`: a missing entry reads as the empty string. */
  function Field(config: map<string, string>, key: string): string {
    if key in config then config[key] else ""
  }

  /**
   * `GenerateTitle` up to the provider call: the title configuration, its
   * provider, its model, then the provider type, each failure with its own
   * message and in that order.
   */
  function PrepareTitle(configs: map<string, map<string, string>>, providers: ProviderCache.Providers, ms: seq<TitleMessage>)
    : (r: Result<TitleCall>)
    ensures TitleGenerationKey !in configs ==> r == Err("Title generation config not found")
    ensures TitleGenerationKey in configs ==>
      var providerId := Field(configs[TitleGenerationKey], "provider_id");
      var modelId := Field(configs[TitleGenerationKey], "model_name");
      && (providerId !in providers ==> r == Err("Provider not found"))
      && (providerId in providers && modelId !in providers[providerId].models ==> r == Err("Model not found"))
      && (providerId in providers && modelId in providers[providerId].models ==>
            (Dispatch(providers[providerId].providerType).Err? ==> r == Err(Dispatch(providers[providerId].providerType).error))
            && (r.Ok? <==> Dispatch(providers[providerId].providerType).Ok?))
    ensures r.Ok? ==> (r.value.xml == TitleXml(ms) && r.value.instruction == Field(configs[TitleGenerationKey], "prompt")
      && Dispatch(r.value.provider.providerType) == Ok(r.value.backend))
    ensures r.Ok? ==>
      var config := configs[TitleGenerationKey];
      && r.value.provider == providers[Field(config, "provider_id")]
      && r.value.model == r.value.provider.models[Field(config, "model_name")]
  {
    if TitleGenerationKey !in configs then Err("Title generation config not found")
    else
      var config := configs[TitleGenerationKey];
      var providerId := Field(config, "provider_id");
      var modelId := Field(config, "model_name");
      if providerId !in providers then Err("Provider not found")
      else
        var info := providers[providerId];
        if modelId !in info.models then Err("Model not found")
        else match Dispatch(info.providerType)
          case Err(e) => Err(e)
          case Ok(b) => Ok(TitleCall(b, info, info.models[modelId], Field(config, "prompt"), TitleXml(ms)))
  }

  /** `GenerateTitle`'s steps before the provider call, in the source's order. */
  method GenerateTitle(configs: map<string, map<string, string>>, providers: ProviderCache.Providers, ms: seq<TitleMessage>)
    returns (r: Result<TitleCall>)
    ensures r == PrepareTitle(configs, providers, ms)
  {
    if TitleGenerationKey !in configs {
      return Err("Title generation config not found");
    }
    var config := configs[TitleGenerationKey];
    var providerId := Field(config, "provider_id");
    var modelId := Field(config, "model_name");
    var template := Field(config, "prompt");
    if providerId !in providers {
      return Err("Provider not found");
    }
    var info := providers[providerId];
    if modelId !in info.models {
      return Err("Model not found");
    }
    var xml := BuildTitleXml(ms);
    var backend := Dispatch(info.providerType);
    if backend.Err? {
      return Err(backend.error);
    }
    r := Ok(TitleCall(backend.value, info, info.models[modelId], template, xml));
  }
}

/**
 * The Gemini provider's `StreamChat` around the SDK: the history
 * conversion, the loop over streamed responses, candidates and parts that
 * coalesces text into typed segments and forwards every part to the
 * browser, and `saveMessage`. The SDK's stream is given as the responses
 * it yields before it ends or fails.
 */
module Gemini {
  import opened Wrappers
  import opened Wire
  import opened LlmClient
  import ChatTree
  import ChatStream

  /** The SDK's role for the assistant side. */
  const ModelRole: string := "model"

  /** One part of a candidate's content. */
  datatype Part = Part(text: string, thought: bool, thoughtSignature: seq<bv8>)

  /** A response's usage metadata. */
  datatype Usage = Usage(cached: int, prompt: int, thoughts: int, candidates: int, toolUse: int)

  /** A candidate: its content's parts (none when it has no content) and whether it finished with `STOP`. */
  datatype Candidate = Candidate(parts: seq<Part>, stop: bool)

  datatype Response = Response(candidates: seq<Candidate>, usage: Usage)

  /**
   * The loop's variables: `currentMessageType`, `currentContentBuilder`,
   * `contentList`, `messageMetaInfo`, and the records written so far.
   */
  datatype Acc = Acc(kind: string, builder: string, contents: seq<Segment>, meta: MetaInfo, forwarded: seq<StreamEvent>)

  function Start(providerName: string, modelName: string): Acc {
    Acc("", "", [], InitialMeta(providerName, modelName), [])
  }

  /** A thought part is reasoning, any other part is message text. */
  function PartKind(p: Part): (r: string)
    ensures r == ReasoningType <==> p.thought
    ensures r == MessageType <==> !p.thought
  {
    if p.thought then ReasoningType else MessageType
  }

  function WithUsage(meta: MetaInfo, u: Usage): MetaInfo {
    meta.(cachedTokens := u.cached, promptTokens := u.prompt, reasoningTokens := u.thoughts,
          responseTokens := u.candidates, toolUseTokens := u.toolUse)
  }

  /** One part: an empty one is skipped; a change of type files the current block first. */
  function PartStep(s: Acc, p: Part, u: Usage, id: string): Acc {
    if p.text == "" then s
    else
      var kind := PartKind(p);
      var switched := s.kind != "" && s.kind != kind;
      Acc(kind,
          (if switched then "" else s.builder) + p.text,
          if switched then AppendContent(s.contents, s.kind, s.builder) else s.contents,
          WithUsage(s.meta, u),
          s.forwarded + [StreamEvent(id, kind, TextData(p.text))])
  }

  function PartsStep(s: Acc, ps: seq<Part>, u: Usage, id: string): Acc {
    if ps == [] then s else PartStep(PartsStep(s, ps[..|ps| - 1], u, id), ps[|ps| - 1], u, id)
  }

  /** The signature of the candidate's last part that carries one. */
  function LastSignature(ps: seq<Part>): seq<bv8> {
    if ps == [] then []
    else if |ps[|ps| - 1].thoughtSignature| > 0 then ps[|ps| - 1].thoughtSignature
    else LastSignature(ps[..|ps| - 1])
  }

  /** One candidate: its parts, then, when it stopped, the usage record with the candidate's signature. */
  function CandidateStep(s: Acc, c: Candidate, u: Usage, id: string): Acc {
    var s1 := PartsStep(s, c.parts, u, id);
    if c.stop then
      var meta := s1.meta.(thoughtSignature := LastSignature(c.parts));
      s1.(meta := meta, forwarded := s1.forwarded + [StreamEvent(id, MetaInfoType, MetaData(meta))])
    else s1
  }

  function CandidatesStep(s: Acc, cs: seq<Candidate>, u: Usage, id: string): Acc {
    if cs == [] then s else CandidateStep(CandidatesStep(s, cs[..|cs| - 1], u, id), cs[|cs| - 1], u, id)
  }

  function ResponsesStep(s: Acc, rs: seq<Response>, id: string): Acc {
    if rs == [] then s
    else
      var r := rs[|rs| - 1];
      CandidatesStep(ResponsesStep(s, rs[..|rs| - 1], id), r.candidates, r.usage, id)
  }

  /** `saveMessage`'s flush: the trailing block, only when a type is set and the builder holds text. */
  function SavedContent(s: Acc): seq<Segment> {
    if s.kind != "" && s.builder != "" then AppendContent(s.contents, s.kind, s.builder) else s.contents
  }

  /** The history conversion loop. */
  method ConvertHistory(ms: seq<HistoryMessage>) returns (r: Option<seq<Turn>>)
    ensures r == HistoryTurns(ms, ModelRole)
  {
    var history: seq<Turn> := [];
    var i := 0;
    while i < |ms|
      invariant 0 <= i <= |ms|
      invariant HistoryTurns(ms[..i], ModelRole) == Some(history)
    {
      var msg := ms[i];
      if msg.content.None? {
        assert ms[..i + 1][..i] == ms[..i];
        assert HistoryTurns(ms[..i + 1], ModelRole).None?;
        HistoryPrefixFails(ms, i + 1, ModelRole);
        return None;
      }
      var role := if msg.role == AssistantRole then ModelRole else UserRole;
      HistoryTurnsStep(ms, i, ModelRole);
      history := AddSegmentTurns(history, msg.content.value, role);
      i := i + 1;
    }
    assert ms[..|ms|] == ms;
    r := Some(history);
  }

  /** One candidate of a response: its parts one by one, then the usage record when it stopped. */
  method ReadCandidate(s: Acc, candidate: Candidate, usage: Usage, messageId: string) returns (next: Acc)
    ensures next == CandidateStep(s, candidate, usage, messageId)
  {
    var kind, builder, contents, meta, forwarded := s.kind, s.builder, s.contents, s.meta, s.forwarded;
    var thoughtSignature: seq<bv8> := [];
    var k := 0;
    while k < |candidate.parts|
      invariant 0 <= k <= |candidate.parts|
      invariant Acc(kind, builder, contents, meta, forwarded) == PartsStep(s, candidate.parts[..k], usage, messageId)
      invariant thoughtSignature == LastSignature(candidate.parts[..k])
    {
      assert candidate.parts[..k + 1][..k] == candidate.parts[..k];
      var part := candidate.parts[k];
      if part.text != "" {
        var partType := if part.thought then ReasoningType else MessageType;
        meta := WithUsage(meta, usage);
        if kind != "" && kind != partType {
          contents := AppendContent(contents, kind, builder);
          builder := "";
        }
        kind := partType;
        builder := builder + part.text;
        forwarded := forwarded + [StreamEvent(messageId, partType, TextData(part.text))];
      }
      if |part.thoughtSignature| > 0 {
        thoughtSignature := part.thoughtSignature;
      }
      k := k + 1;
    }
    assert candidate.parts[..|candidate.parts|] == candidate.parts;
    if candidate.stop {
      meta := meta.(thoughtSignature := thoughtSignature);
      forwarded := forwarded + [StreamEvent(messageId, MetaInfoType, MetaData(meta))];
    }
    next := Acc(kind, builder, contents, meta, forwarded);
  }

  /** One streamed response: its candidates one by one. */
  method ReadResponse(s: Acc, resp: Response, messageId: string) returns (next: Acc)
    ensures next == CandidatesStep(s, resp.candidates, resp.usage, messageId)
  {
    next := s;
    var j := 0;
    while j < |resp.candidates|
      invariant 0 <= j <= |resp.candidates|
      invariant next == CandidatesStep(s, resp.candidates[..j], resp.usage, messageId)
    {
      assert resp.candidates[..j + 1][..j] == resp.candidates[..j];
      next := ReadCandidate(next, resp.candidates[j], resp.usage, messageId);
      j := j + 1;
    }
    assert resp.candidates[..|resp.candidates|] == resp.candidates;
  }

  /**
   * `StreamChat` after the client is built: the history is converted (a
   * stored message that does not decode ends it), the responses are read
   * part by part, and the reply is saved unless the stream failed while
   * the client was still connected. `responses` are those the stream
   * yielded, `streamFailed` says whether it then failed, `cancelled`
   * whether the request context was cancelled by then, and `messageId`
   * stands for the fresh uuid.
   */
  method StreamChat(history: seq<HistoryMessage>, newMessage: NewMessage, providerName: string, modelName: string,
    messageId: string, responses: seq<Response>, streamFailed: bool, cancelled: bool)
    returns (turns: Option<seq<Turn>>, forwarded: seq<StreamEvent>, saved: Option<StoredMessage>, ending: Ending)
    ensures turns == HistoryTurns(history, ModelRole)
    ensures turns.None? ==> forwarded == [] && saved == None && ending == Failed
    ensures turns.Some? ==>
      var fin := ResponsesStep(Start(providerName, modelName), responses, messageId);
      && forwarded == fin.forwarded
      && ending == (if !streamFailed then Finished else if cancelled then Cancelled else Failed)
      && saved == (if ending == Failed then None else Some(Saved(messageId, newMessage, SavedContent(fin), fin.meta)))
  {
    turns := ConvertHistory(history);
    if turns.None? {
      return turns, [], None, Failed;
    }
    var kind := "";
    var builder := "";
    var contents: seq<Segment> := [];
    var meta := InitialMeta(providerName, modelName);
    forwarded := [];
    var i := 0;
    while i < |responses|
      invariant 0 <= i <= |responses|
      invariant Acc(kind, builder, contents, meta, forwarded) == ResponsesStep(Start(providerName, modelName), responses[..i], messageId)
    {
      assert responses[..i + 1][..i] == responses[..i];
      var next := ReadResponse(Acc(kind, builder, contents, meta, forwarded), responses[i], messageId);
      kind, builder, contents, meta, forwarded := next.kind, next.builder, next.contents, next.meta, next.forwarded;
      i := i + 1;
    }
    assert responses[..|responses|] == responses;
    if streamFailed && !cancelled {
      return turns, forwarded, None, Failed;
    }
    if kind != "" && builder != "" {
      contents := AppendContent(contents, kind, builder);
    }
    saved := Some(Saved(messageId, newMessage, contents, meta));
    ending := if streamFailed then Cancelled else Finished;
  }

  // ---------------------------------------------------------------------
  // What the loop stores and forwards
  // ---------------------------------------------------------------------

  /** A part's contribution: its typed text when it has any. */
  function PiecesOf(p: Part): seq<Segment> {
    if p.text == "" then [] else [Segment(PartKind(p), p.text)]
  }

  /** The typed text of the parts that carry text, in order. */
  function PartPieces(ps: seq<Part>): seq<Segment> {
    if ps == [] then [] else PartPieces(ps[..|ps| - 1]) + PiecesOf(ps[|ps| - 1])
  }

  function CandidatePieces(cs: seq<Candidate>): seq<Segment> {
    if cs == [] then [] else CandidatePieces(cs[..|cs| - 1]) + PartPieces(cs[|cs| - 1].parts)
  }

  /** The typed text of every streamed part, in order. */
  function ResponsePieces(rs: seq<Response>): seq<Segment> {
    if rs == [] then [] else ResponsePieces(rs[..|rs| - 1]) + CandidatePieces(rs[|rs| - 1].candidates)
  }

  function CandidateStops(cs: seq<Candidate>): nat {
    if cs == [] then 0 else CandidateStops(cs[..|cs| - 1]) + (if cs[|cs| - 1].stop then 1 else 0)
  }

  /** How many candidates finished with `STOP`. */
  function ResponseStops(rs: seq<Response>): nat {
    if rs == [] then 0 else ResponseStops(rs[..|rs| - 1]) + CandidateStops(rs[|rs| - 1].candidates)
  }

  /**
   * The accumulator invariant, relative to the pieces read so far: the
   * filed segments followed by the open block are the runs of the pieces,
   * and the open block has the last piece's type.
   */
  predicate Filed(s: Acc, pieces: seq<Segment>) {
    && TextPieces(pieces)
    && (pieces == [] ==> s.kind == "" && s.builder == "" && s.contents == [])
    && (pieces != [] ==>
          s.kind == pieces[|pieces| - 1].kind && s.builder != ""
          && s.contents + [Segment(s.kind, s.builder)] == Runs(pieces))
  }

  predicate Tracks(s: Acc, pieces: seq<Segment>, stops: nat, id: string) {
    Filed(s, pieces) && Wrote(s.forwarded, pieces, stops, id)
  }

  lemma PartStepFiled(s: Acc, p: Part, u: Usage, id: string, pieces: seq<Segment>)
    requires Filed(s, pieces) && p.text != ""
    ensures Filed(PartStep(s, p, u, id), pieces + [Segment(PartKind(p), p.text)])
  {
    var piece := Segment(PartKind(p), p.text);
    var next := PartStep(s, p, u, id);
    RunsSnoc(pieces, piece);
    var runs := Runs(pieces);
    if pieces == [] {
      assert s.builder + p.text == p.text;
      assert next.contents == [] && next.builder == p.text && next.kind == piece.kind;
    } else if s.kind == piece.kind {
      assert runs[..|runs| - 1] == s.contents;
      assert next.builder == s.builder + p.text;
    } else {
      assert s.kind == MessageType || s.kind == ReasoningType;
      assert next.contents == runs;
      assert next.builder == p.text;
    }
    assert TextPieces(pieces + [piece]) by {
      forall i | 0 <= i < |pieces| + 1
        ensures (pieces + [piece])[i].text != ""
        ensures (pieces + [piece])[i].kind == MessageType || (pieces + [piece])[i].kind == ReasoningType
      {
        if i < |pieces| { assert (pieces + [piece])[i] == pieces[i]; }
      }
    }
  }

  lemma PartStepTracks(s: Acc, p: Part, u: Usage, id: string, pieces: seq<Segment>, stops: nat)
    requires Tracks(s, pieces, stops, id)
    ensures Tracks(PartStep(s, p, u, id), pieces + PiecesOf(p), stops, id)
  {
    if p.text == "" {
      assert pieces + PiecesOf(p) == pieces;
    } else {
      var piece := Segment(PartKind(p), p.text);
      PartStepFiled(s, p, u, id, pieces);
      TextOnlySnoc(s.forwarded, StreamEvent(id, piece.kind, TextData(p.text)));
      TextEventsSnoc(id, pieces, piece);
    }
  }

  lemma {:induction false} PartsStepTracks(s: Acc, ps: seq<Part>, u: Usage, id: string, pieces: seq<Segment>, stops: nat)
    requires Tracks(s, pieces, stops, id)
    ensures Tracks(PartsStep(s, ps, u, id), pieces + PartPieces(ps), stops, id)
  {
    if ps == [] {
      assert pieces + [] == pieces;
    } else {
      var init := ps[..|ps| - 1];
      PartsStepTracks(s, init, u, id, pieces, stops);
      PartStepTracks(PartsStep(s, init, u, id), ps[|ps| - 1], u, id, pieces + PartPieces(init), stops);
      AppendAssoc(pieces, PartPieces(init), PiecesOf(ps[|ps| - 1]));
    }
  }

  lemma CandidateStepTracks(s: Acc, c: Candidate, u: Usage, id: string, pieces: seq<Segment>, stops: nat)
    requires Tracks(s, pieces, stops, id)
    ensures Tracks(CandidateStep(s, c, u, id), pieces + PartPieces(c.parts), stops + (if c.stop then 1 else 0), id)
  {
    PartsStepTracks(s, c.parts, u, id, pieces, stops);
    if c.stop {
      var s1 := PartsStep(s, c.parts, u, id);
      var meta := s1.meta.(thoughtSignature := LastSignature(c.parts));
      TextOnlySnoc(s1.forwarded, StreamEvent(id, MetaInfoType, MetaData(meta)));
    }
  }

  lemma {:induction false} CandidatesStepTracks(s: Acc, cs: seq<Candidate>, u: Usage, id: string, pieces: seq<Segment>, stops: nat)
    requires Tracks(s, pieces, stops, id)
    ensures Tracks(CandidatesStep(s, cs, u, id), pieces + CandidatePieces(cs), stops + CandidateStops(cs), id)
  {
    if cs == [] {
      assert pieces + [] == pieces;
    } else {
      var init := cs[..|cs| - 1];
      CandidatesStepTracks(s, init, u, id, pieces, stops);
      CandidateStepTracks(CandidatesStep(s, init, u, id), cs[|cs| - 1], u, id, pieces + CandidatePieces(init), stops + CandidateStops(init));
      AppendAssoc(pieces, CandidatePieces(init), PartPieces(cs[|cs| - 1].parts));
    }
  }

  lemma {:induction false} ResponsesStepTracks(s: Acc, rs: seq<Response>, id: string, pieces: seq<Segment>, stops: nat)
    requires Tracks(s, pieces, stops, id)
    ensures Tracks(ResponsesStep(s, rs, id), pieces + ResponsePieces(rs), stops + ResponseStops(rs), id)
  {
    if rs == [] {
      assert pieces + [] == pieces;
    } else {
      var init := rs[..|rs| - 1];
      var r := rs[|rs| - 1];
      ResponsesStepTracks(s, init, id, pieces, stops);
      CandidatesStepTracks(ResponsesStep(s, init, id), r.candidates, r.usage, id, pieces + ResponsePieces(init), stops + ResponseStops(init));
      AppendAssoc(pieces, ResponsePieces(init), CandidatePieces(r.candidates));
    }
  }

  /**
   * What a reply stores and forwards: the stored content is the maximal
   * same-type runs of the streamed parts' text (so adjacent segments never
   * share a type and no text is lost), every text part is forwarded once,
   * in order, as a record of its type, and each stopped candidate adds one
   * usage record.
   */
  lemma StoresRuns(rs: seq<Response>, id: string, providerName: string, modelName: string)
    ensures var fin := ResponsesStep(Start(providerName, modelName), rs, id);
      && SavedContent(fin) == Runs(ResponsePieces(rs))
      && NoAdjacentSameKind(SavedContent(fin))
      && Flatten(SavedContent(fin)) == Flatten(ResponsePieces(rs))
      && TextOnly(fin.forwarded) == TextEvents(id, ResponsePieces(rs))
      && |fin.forwarded| == |ResponsePieces(rs)| + ResponseStops(rs)
  {
    TracksAll(rs, id, providerName, modelName);
    var fin := ResponsesStep(Start(providerName, modelName), rs, id);
    var pieces := ResponsePieces(rs);
    if pieces != [] {
      assert AppendContent(fin.contents, fin.kind, fin.builder) == fin.contents + [Segment(fin.kind, fin.builder)];
    }
    RunsNoAdjacentSameKind(pieces);
    RunsFlatten(pieces);
  }

  /**
   * The browser shows what the server stores: for a reply whose candidates
   * never stop (so only text records are written), the chat page's reducer
   * builds an assistant message whose content is exactly the stored content.
   */
  lemma ClientShowsStored(rs: seq<Response>, id: string, providerName: string, modelName: string,
    s: ChatStream.Ingest, userId: string, snapshot: set<string>, now: int)
    requires ResponseStops(rs) == 0 && ResponsePieces(rs) != []
    requires id != "" && s.tracked != id
    requires forall i :: 0 <= i < |s.path| - 1 ==> s.path[i].id != id
    ensures var fin := ResponsesStep(Start(providerName, modelName), rs, id);
      && ChatStream.AllWellTyped(fin.forwarded)
      && ChatStream.Reduce(s, fin.forwarded, userId, snapshot, now).path
         == ChatStream.DropLast(s.path) + [ChatTree.Message(id, userId, AssistantRole, SavedContent(fin), None, now)]
  {
    StoresRuns(rs, id, providerName, modelName);
    ForwardsOnlyText(rs, id, providerName, modelName);
    ChatStream.ShowsTextEvents(s, id, ResponsePieces(rs), userId, snapshot, now);
  }

  /** Without a stopped candidate, the records written are exactly the text records of the pieces. */
  lemma ForwardsOnlyText(rs: seq<Response>, id: string, providerName: string, modelName: string)
    requires ResponseStops(rs) == 0
    ensures TextPieces(ResponsePieces(rs))
    ensures ResponsesStep(Start(providerName, modelName), rs, id).forwarded == TextEvents(id, ResponsePieces(rs))
  {
    TracksAll(rs, id, providerName, modelName);
    TextOnlyAll(ResponsesStep(Start(providerName, modelName), rs, id).forwarded);
  }

  /** The accumulator invariant over a whole reply, from the empty start. */
  lemma TracksAll(rs: seq<Response>, id: string, providerName: string, modelName: string)
    ensures Tracks(ResponsesStep(Start(providerName, modelName), rs, id), ResponsePieces(rs), ResponseStops(rs), id)
  {
    var start := Start(providerName, modelName);
    assert Tracks(start, [], 0, id);
    ResponsesStepTracks(start, rs, id, [], 0);
    assert [] + ResponsePieces(rs) == ResponsePieces(rs);
  }
}

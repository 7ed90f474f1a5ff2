/**
 * The OpenAI provider's `StreamChat` around the SDK: the input items (the
 * history's message segments, then the new prompt), the loop over the
 * Responses API's streamed events that fills the builder, files a segment
 * at the end of each output item and forwards text to the browser, and
 * `saveMessage`.
 */
module OpenAI {
  import opened Wrappers
  import opened Wire
  import opened LlmClient
  import ChatTree
  import ChatStream

  /** The response usage the completed event carries. */
  datatype Usage = Usage(cached: int, input: int, reasoning: int, output: int)

  /** The streamed events the loop distinguishes. */
  datatype Event =
    | ReasoningDelta(delta: string)   // a reasoning-summary text delta
    | ReasoningPartDone               // a reasoning-summary part is done
    | OutputItemDone                  // an output item is done
    | TextDelta(delta: string)        // an output text delta
    | Completed(usage: Usage)         // the response is complete
    | Other                           // any other event

  /** What a finished reasoning-summary part adds. */
  const PartBreak: string := "\n\n"

  /** The loop's variables: `contentType`, `currentContentBuilder`, `contentList`, `messageMetaInfo`, and the records written. */
  datatype Acc = Acc(kind: string, builder: string, contents: seq<Segment>, meta: MetaInfo, forwarded: seq<StreamEvent>)

  function Start(providerName: string, modelName: string): Acc {
    Acc("", "", [], InitialMeta(providerName, modelName), [])
  }

  /** The text `t` of type `kind` added to the open block and written to the browser. */
  function Add(s: Acc, kind: string, t: string, id: string): Acc {
    s.(kind := kind, builder := s.builder + t, forwarded := s.forwarded + [StreamEvent(id, kind, TextData(t))])
  }

  function WithUsage(meta: MetaInfo, u: Usage): MetaInfo {
    meta.(cachedTokens := u.cached, promptTokens := u.input, reasoningTokens := u.reasoning, responseTokens := u.output)
  }

  /**
   * One event. An empty delta writes nothing (see `StepAsWritten` for the
   * code as written); a finished output item files the open block.
   */
  function Step(s: Acc, e: Event, id: string): Acc {
    match e
    case ReasoningDelta(d) => if d == "" then s else Add(s, ReasoningType, d, id)
    case ReasoningPartDone => Add(s, ReasoningType, PartBreak, id)
    case OutputItemDone => s.(contents := AppendContent(s.contents, s.kind, s.builder), builder := "")
    case TextDelta(d) => if d == "" then s else Add(s, MessageType, d, id)
    case Completed(u) =>
      var meta := WithUsage(s.meta, u);
      s.(meta := meta, forwarded := s.forwarded + [StreamEvent(id, MetaInfoType, MetaData(meta))])
    case Other => s
  }

  function Fold(s: Acc, es: seq<Event>, id: string): Acc {
    if es == [] then s else Step(Fold(s, es[..|es| - 1], id), es[|es| - 1], id)
  }

  /** `saveMessage`'s flush: whatever the builder holds, filed as the open block's type. */
  function SavedContent(s: Acc): seq<Segment> {
    AppendContent(s.contents, s.kind, s.builder)
  }

  /** The input items: every `message` segment of the history, then the new prompt as the final user item. */
  function InputItems(ms: seq<HistoryMessage>, prompt: string): (r: Option<seq<Turn>>)
    ensures r.Some? <==> HistoryTurns(ms, AssistantRole).Some?
    ensures r.Some? ==> |r.value| > 0 && r.value[|r.value| - 1] == Turn(UserRole, prompt)
  {
    match HistoryTurns(ms, AssistantRole)
    case None => None
    case Some(turns) => Some(turns + [Turn(UserRole, prompt)])
  }

  /** The input-item loop. */
  method ConvertHistory(ms: seq<HistoryMessage>, prompt: string) returns (r: Option<seq<Turn>>)
    ensures r == InputItems(ms, prompt)
  {
    var items: seq<Turn> := [];
    var i := 0;
    while i < |ms|
      invariant 0 <= i <= |ms|
      invariant HistoryTurns(ms[..i], AssistantRole) == Some(items)
    {
      var msg := ms[i];
      if msg.content.None? {
        assert ms[..i + 1][..i] == ms[..i];
        assert HistoryTurns(ms[..i + 1], AssistantRole).None?;
        HistoryPrefixFails(ms, i + 1, AssistantRole);
        return None;
      }
      var role := if msg.role == AssistantRole then AssistantRole else UserRole;
      HistoryTurnsStep(ms, i, AssistantRole);
      items := AddSegmentTurns(items, msg.content.value, role);
      i := i + 1;
    }
    assert ms[..|ms|] == ms;
    r := Some(items + [Turn(UserRole, prompt)]);
  }

  /**
   * `StreamChat` after the client is built: the input items are built (a
   * stored message that does not decode ends it), the events are read one
   * by one, and the reply is saved unless the stream failed while the
   * client was still connected. `events` are those the stream delivered,
   * `streamFailed` says whether it then reported an error, `cancelled`
   * whether the request context was cancelled by then, and `messageId`
   * stands for the fresh uuid.
   */
  method StreamChat(history: seq<HistoryMessage>, newMessage: NewMessage, providerName: string, modelName: string,
    messageId: string, events: seq<Event>, streamFailed: bool, cancelled: bool)
    returns (items: Option<seq<Turn>>, forwarded: seq<StreamEvent>, saved: Option<StoredMessage>, ending: Ending)
    ensures items == InputItems(history, newMessage.content)
    ensures items.None? ==> forwarded == [] && saved == None && ending == Failed
    ensures items.Some? ==>
      var fin := Fold(Start(providerName, modelName), events, messageId);
      && forwarded == fin.forwarded
      && ending == (if !streamFailed then Finished else if cancelled then Cancelled else Failed)
      && saved == (if ending == Failed then None else Some(Saved(messageId, newMessage, SavedContent(fin), fin.meta)))
  {
    items := ConvertHistory(history, newMessage.content);
    if items.None? {
      return items, [], None, Failed;
    }
    var contentType := "";
    var builder := "";
    var contents: seq<Segment> := [];
    var meta := InitialMeta(providerName, modelName);
    forwarded := [];
    var i := 0;
    while i < |events|
      invariant 0 <= i <= |events|
      invariant Acc(contentType, builder, contents, meta, forwarded) == Fold(Start(providerName, modelName), events[..i], messageId)
    {
      assert events[..i + 1][..i] == events[..i];
      match events[i] {
        case ReasoningDelta(d) =>
          if d != "" {
            contentType := ReasoningType;
            builder := builder + d;
            forwarded := forwarded + [StreamEvent(messageId, contentType, TextData(d))];
          }
        case ReasoningPartDone =>
          builder := builder + PartBreak;
          contentType := ReasoningType;
          forwarded := forwarded + [StreamEvent(messageId, contentType, TextData(PartBreak))];
        case OutputItemDone =>
          contents := AppendContent(contents, contentType, builder);
          builder := "";
        case TextDelta(d) =>
          if d != "" {
            contentType := MessageType;
            builder := builder + d;
            forwarded := forwarded + [StreamEvent(messageId, contentType, TextData(d))];
          }
        case Completed(u) =>
          meta := WithUsage(meta, u);
          forwarded := forwarded + [StreamEvent(messageId, MetaInfoType, MetaData(meta))];
        case Other =>
      }
      i := i + 1;
    }
    assert events[..|events|] == events;
    if streamFailed && !cancelled {
      return items, forwarded, None, Failed;
    }
    contents := AppendContent(contents, contentType, builder);
    saved := Some(Saved(messageId, newMessage, contents, meta));
    ending := if streamFailed then Cancelled else Finished;
  }

  // ---------------------------------------------------------------------
  // What the loop stores and forwards
  // ---------------------------------------------------------------------

  /** An event's typed text as written to the browser: deltas with text, and the break a finished summary part adds. */
  function PiecesOf(e: Event): seq<Segment> {
    match e
    case ReasoningDelta(d) => if d == "" then [] else [Segment(ReasoningType, d)]
    case ReasoningPartDone => [Segment(ReasoningType, PartBreak)]
    case TextDelta(d) => if d == "" then [] else [Segment(MessageType, d)]
    case _ => []
  }

  function EventPieces(es: seq<Event>): seq<Segment> {
    if es == [] then [] else EventPieces(es[..|es| - 1]) + PiecesOf(es[|es| - 1])
  }

  /** How many completed events arrived. */
  function Completions(es: seq<Event>): nat {
    if es == [] then 0 else Completions(es[..|es| - 1]) + (if es[|es| - 1].Completed? then 1 else 0)
  }

  /**
   * The accumulator invariant: the filed segments and the open block hold
   * exactly the text written so far, and every filed segment is a non-empty
   * message or reasoning segment.
   */
  predicate Filed(s: Acc, pieces: seq<Segment>) {
    && TextPieces(pieces)
    && Flatten(s.contents) + s.builder == Flatten(pieces)
    && NoEmptySegment(s.contents)
    && StoredKinds(s.contents)
  }

  predicate Tracks(s: Acc, pieces: seq<Segment>, completions: nat, id: string) {
    Filed(s, pieces) && Wrote(s.forwarded, pieces, completions, id)
  }

  lemma AddTracks(s: Acc, kind: string, t: string, id: string, pieces: seq<Segment>, completions: nat)
    requires Tracks(s, pieces, completions, id)
    requires t != "" && (kind == MessageType || kind == ReasoningType)
    ensures Tracks(Add(s, kind, t, id), pieces + [Segment(kind, t)], completions, id)
  {
    var piece := Segment(kind, t);
    var next := Add(s, kind, t, id);
    assert Filed(next, pieces + [piece]) by {
      FlattenSnoc(pieces, piece);
      assert Flatten(s.contents) + (s.builder + t) == (Flatten(s.contents) + s.builder) + t;
      forall i | 0 <= i < |pieces| + 1
        ensures (pieces + [piece])[i].text != ""
        ensures (pieces + [piece])[i].kind == MessageType || (pieces + [piece])[i].kind == ReasoningType
      {
        if i < |pieces| { assert (pieces + [piece])[i] == pieces[i]; }
      }
    }
    assert Wrote(next.forwarded, pieces + [piece], completions, id) by {
      TextOnlySnoc(s.forwarded, StreamEvent(id, kind, TextData(t)));
      TextEventsSnoc(id, pieces, piece);
    }
  }

  lemma StepTracks(s: Acc, e: Event, id: string, pieces: seq<Segment>, completions: nat)
    requires Tracks(s, pieces, completions, id)
    ensures Tracks(Step(s, e, id), pieces + PiecesOf(e), completions + (if e.Completed? then 1 else 0), id)
  {
    match e
    case ReasoningDelta(d) =>
      if d == "" { assert pieces + PiecesOf(e) == pieces; } else { AddTracks(s, ReasoningType, d, id, pieces, completions); }
    case ReasoningPartDone =>
      AddTracks(s, ReasoningType, PartBreak, id, pieces, completions);
    case TextDelta(d) =>
      if d == "" { assert pieces + PiecesOf(e) == pieces; } else { AddTracks(s, MessageType, d, id, pieces, completions); }
    case OutputItemDone =>
      assert pieces + PiecesOf(e) == pieces;
      AppendContentText(s.contents, s.kind, s.builder);
      var c := AppendContent(s.contents, s.kind, s.builder);
      assert NoEmptySegment(c) && StoredKinds(c) by {
        forall i | 0 <= i < |c| ensures c[i].text != "" && (c[i].kind == MessageType || c[i].kind == ReasoningType) {
          if i < |s.contents| { assert c[i] == s.contents[i]; }
        }
      }
      assert s.builder == "" ==> Flatten(c) + "" == Flatten(c);
    case Completed(u) =>
      assert pieces + PiecesOf(e) == pieces;
      TextOnlySnoc(s.forwarded, StreamEvent(id, MetaInfoType, MetaData(WithUsage(s.meta, u))));
    case Other =>
      assert pieces + PiecesOf(e) == pieces;
  }

  lemma {:induction false} FoldTracks(s: Acc, es: seq<Event>, id: string, pieces: seq<Segment>, completions: nat)
    requires Tracks(s, pieces, completions, id)
    ensures Tracks(Fold(s, es, id), pieces + EventPieces(es), completions + Completions(es), id)
  {
    if es == [] {
      assert pieces + [] == pieces;
    } else {
      var init := es[..|es| - 1];
      FoldTracks(s, init, id, pieces, completions);
      StepTracks(Fold(s, init, id), es[|es| - 1], id, pieces + EventPieces(init), completions + Completions(init));
      AppendAssoc(pieces, EventPieces(init), PiecesOf(es[|es| - 1]));
    }
  }

  /**
   * What a reply stores and forwards: the stored segments hold exactly the
   * streamed text, in order, none of them empty and each a message or
   * reasoning segment; each text-bearing event is forwarded once, in order,
   * and each completed event adds one usage record.
   */
  lemma StoresStreamedText(es: seq<Event>, id: string, providerName: string, modelName: string)
    ensures var fin := Fold(Start(providerName, modelName), es, id);
      && Flatten(SavedContent(fin)) == Flatten(EventPieces(es))
      && NoEmptySegment(SavedContent(fin))
      && StoredKinds(SavedContent(fin))
      && TextOnly(fin.forwarded) == TextEvents(id, EventPieces(es))
      && |fin.forwarded| == |EventPieces(es)| + Completions(es)
  {
    var start := Start(providerName, modelName);
    assert Flatten(start.contents) + start.builder == Flatten([]);
    assert Tracks(start, [], 0, id);
    FoldTracks(start, es, id, [], 0);
    assert [] + EventPieces(es) == EventPieces(es);
    var fin := Fold(start, es, id);
    AppendContentText(fin.contents, fin.kind, fin.builder);
    var c := SavedContent(fin);
    assert NoEmptySegment(c) && StoredKinds(c) by {
      forall i | 0 <= i < |c| ensures c[i].text != "" && (c[i].kind == MessageType || c[i].kind == ReasoningType) {
        if i < |fin.contents| { assert c[i] == fin.contents[i]; }
      }
    }
  }

  /**
   * The browser shows the text the server stores: for a reply without a
   * completed event, the chat page's reducer builds an assistant message
   * whose content is the same-type runs of the written text, and that text
   * is exactly the stored text.
   */
  lemma ClientShowsStoredText(es: seq<Event>, id: string, providerName: string, modelName: string,
    s: ChatStream.Ingest, userId: string, snapshot: set<string>, now: int)
    requires Completions(es) == 0 && EventPieces(es) != []
    requires id != "" && s.tracked != id
    requires forall i :: 0 <= i < |s.path| - 1 ==> s.path[i].id != id
    ensures var fin := Fold(Start(providerName, modelName), es, id);
      && ChatStream.AllWellTyped(fin.forwarded)
      && ChatStream.Reduce(s, fin.forwarded, userId, snapshot, now).path
         == ChatStream.DropLast(s.path) + [ChatTree.Message(id, userId, AssistantRole, Runs(EventPieces(es)), None, now)]
      && Flatten(Runs(EventPieces(es))) == Flatten(SavedContent(fin))
  {
    var fin := Fold(Start(providerName, modelName), es, id);
    var pieces := EventPieces(es);
    assert fin.forwarded == TextEvents(id, pieces) by {
      StoresStreamedText(es, id, providerName, modelName);
      TextOnlyAll(fin.forwarded);
    }
    assert TextPieces(pieces) by {
      FoldTracks(Start(providerName, modelName), es, id, [], 0);
      assert [] + pieces == pieces;
    }
    ChatStream.ShowsTextEvents(s, id, pieces, userId, snapshot, now);
    assert Flatten(pieces) == Flatten(SavedContent(fin)) by {
      StoresStreamedText(es, id, providerName, modelName);
    }
    RunsFlatten(pieces);
  }

  // ---------------------------------------------------------------------
  // The loop as written
  // ---------------------------------------------------------------------

  /**
   * One event as the loop is written: an empty delta sets neither type nor
   * data but still reaches `StreamToClient`, which writes a record with an
   * empty type and `null` data.
   */
  function StepAsWritten(s: Acc, e: Event, id: string): Acc {
    if (e.ReasoningDelta? || e.TextDelta?) && e.delta == "" then s.(forwarded := s.forwarded + [StreamEvent(id, "", NoData)])
    else Step(s, e, id)
  }

  function FoldAsWritten(s: Acc, es: seq<Event>, id: string): Acc {
    if es == [] then s else StepAsWritten(FoldAsWritten(s, es[..|es| - 1], id), es[|es| - 1], id)
  }

  /** The page's state once the user message and the assistant placeholder are on the path. */
  function Waiting(userId: string, now: int): ChatStream.Ingest {
    var user := ChatTree.Message(userId, "", UserRole, [Segment(MessageType, "Q")], None, now);
    var placeholder := ChatStream.Placeholder(userId, false, now);
    ChatStream.Ingest([user, placeholder], map[userId := ChatTree.TreeNode(user, [])], {}, "", "", "")
  }

  /** The records the loop as written forwards for "Hi" and two empty text deltas: the empty ones carry no type. */
  lemma EmptyDeltasForwarded(id: string, providerName: string, modelName: string)
    ensures var fin := FoldAsWritten(Start(providerName, modelName), [TextDelta("Hi"), TextDelta(""), TextDelta("")], id);
      && SavedContent(fin) == [Segment(MessageType, "Hi")]
      && fin.forwarded == [StreamEvent(id, MessageType, TextData("Hi")), StreamEvent(id, "", NoData), StreamEvent(id, "", NoData)]
  {
    var es := [TextDelta("Hi"), TextDelta(""), TextDelta("")];
    var start := Start(providerName, modelName);
    var e1 := StreamEvent(id, MessageType, TextData("Hi"));
    var e2 := StreamEvent(id, "", NoData);
    var es1 := [TextDelta("Hi")];
    var es2 := [TextDelta("Hi"), TextDelta("")];
    assert es1[..0] == [] && es2[..1] == es1 && es[..2] == es2;
    assert FoldAsWritten(start, es1[..0], id) == start;
    var a1 := FoldAsWritten(start, es1, id);
    assert a1 == StepAsWritten(start, TextDelta("Hi"), id);
    assert a1 == Acc(MessageType, "Hi", [], start.meta, [e1]);
    var a2 := FoldAsWritten(start, es2, id);
    assert a2 == StepAsWritten(a1, TextDelta(""), id);
    assert a2 == Acc(MessageType, "Hi", [], start.meta, [e1, e2]);
    var fin := FoldAsWritten(start, es, id);
    assert fin == StepAsWritten(a2, TextDelta(""), id);
    assert fin == Acc(MessageType, "Hi", [], start.meta, [e1, e2, e2]);
  }

  /**
   * The page after a text record `t` for a new message and one untyped
   * record: the message still reads `t`, and the last type is now empty.
   */
  lemma UntypedRecordKeepsPending(s: ChatStream.Ingest, user: ChatTree.Message, id: string, userId: string, t: string,
    snapshot: set<string>, now: int)
    requires |s.path| == 2 && s.path[0] == user && user.id != id && s.tracked != id
    ensures var r := ChatStream.Reduce(s, [StreamEvent(id, MessageType, TextData(t)), StreamEvent(id, "", NoData)], userId, snapshot, now);
      && r.path == [user, ChatTree.Message(id, userId, AssistantRole, [Segment(MessageType, t)], None, now)]
      && r.tracked == id && r.lastType == "" && r.pending == t
  {
    var e1 := StreamEvent(id, MessageType, TextData(t));
    var e2 := StreamEvent(id, "", NoData);
    ChatStream.ReduceTwo(s, e1, e2, userId, snapshot, now);
    ChatStream.StepNew(s, e1, userId, snapshot, now);
    assert ChatStream.DropLast(s.path) == [user];
    var r1 := ChatStream.Step(s, e1, userId, snapshot, now);
    UntypedPushesNothing(r1, user, r1.path[1], e2, userId, snapshot, now);
  }

  /** An untyped record for the tracked message pushes no segment and keeps the last payload. */
  lemma UntypedPushesNothing(r: ChatStream.Ingest, user: ChatTree.Message, m: ChatTree.Message, e: StreamEvent,
    userId: string, snapshot: set<string>, now: int)
    requires r.path == [user, m] && user.id != m.id && r.tracked == m.id && r.lastType != ""
    requires e.messageId == m.id && e.eventType == "" && e.data == NoData
    ensures var r2 := ChatStream.Step(r, e, userId, snapshot, now);
      r2.path == [user, m] && r2.tracked == m.id && r2.lastType == "" && r2.pending == r.pending
  {
    assert ChatStream.ApplyEdit(m, ChatStream.Push([])) == m;
    assert ChatStream.EditPath([user, m], m.id, ChatStream.Push([])) == [user, m];
  }

  /**
   * An untyped record after an untyped record: the page re-appends its last
   * text payload to the tracked message's last segment.
   */
  lemma UntypedRepeatsPending(r: ChatStream.Ingest, user: ChatTree.Message, m: ChatTree.Message, e: StreamEvent,
    userId: string, snapshot: set<string>, now: int)
    requires r.path == [user, m] && user.id != m.id && r.tracked == m.id && r.lastType == ""
    requires m.content == [Segment(MessageType, r.pending)]
    requires e.messageId == m.id && e.eventType == "" && e.data == NoData
    ensures ChatStream.Step(r, e, userId, snapshot, now).path
      == [user, m.(content := [Segment(MessageType, r.pending + r.pending)])]
  {
    var m2 := m.(content := [Segment(MessageType, r.pending + r.pending)]);
    assert !ChatStream.TrackedEmpty(r);
    assert m.content[..0] == [];
    assert ChatStream.ApplyEdit(m, ChatStream.AppendText(r.pending)) == m2;
    assert ChatStream.EditPath([user, m], m.id, ChatStream.AppendText(r.pending)) == [user, m2];
  }

  /**
   * Two empty text deltas after "Hi": the server stores "Hi", but the page,
   * which re-appends its last text payload on a record of the same type as
   * the previous one, shows "HiHi".
   */
  lemma EmptyDeltasDoubleText(id: string, userId: string, providerName: string, modelName: string, snapshot: set<string>, now: int)
    requires id != "" && userId != "" && id != userId
    ensures var fin := FoldAsWritten(Start(providerName, modelName), [TextDelta("Hi"), TextDelta(""), TextDelta("")], id);
      && SavedContent(fin) == [Segment(MessageType, "Hi")]
      && ChatStream.AllWellTyped(fin.forwarded)
      && ChatStream.Reduce(Waiting(userId, now), fin.forwarded, userId, snapshot, now).path
         == [Waiting(userId, now).path[0], ChatTree.Message(id, userId, AssistantRole, [Segment(MessageType, "HiHi")], None, now)]
  {
    EmptyDeltasForwarded(id, providerName, modelName);
    var page := Waiting(userId, now);
    PageDoublesText(page, page.path[0], id, userId, "Hi", snapshot, now);
    assert "Hi" + "Hi" == "HiHi";
  }

  /** The page's side of `EmptyDeltasDoubleText`: a text record `t` for a new message, then two untyped records, show `t` twice. */
  lemma PageDoublesText(s: ChatStream.Ingest, user: ChatTree.Message, id: string, userId: string, t: string,
    snapshot: set<string>, now: int)
    requires |s.path| == 2 && s.path[0] == user && user.id != id && s.tracked != id
    ensures var e1 := StreamEvent(id, MessageType, TextData(t));
      var e2 := StreamEvent(id, "", NoData);
      && ChatStream.AllWellTyped([e1, e2, e2])
      && ChatStream.Reduce(s, [e1, e2, e2], userId, snapshot, now).path
         == [user, ChatTree.Message(id, userId, AssistantRole, [Segment(MessageType, t + t)], None, now)]
  {
    var e1 := StreamEvent(id, MessageType, TextData(t));
    var e2 := StreamEvent(id, "", NoData);
    var m := ChatTree.Message(id, userId, AssistantRole, [Segment(MessageType, t)], None, now);
    var r2 := ChatStream.Reduce(s, [e1, e2], userId, snapshot, now);
    assert r2.path == [user, m] && r2.tracked == id && r2.lastType == "" && r2.pending == t by {
      UntypedRecordKeepsPending(s, user, id, userId, t, snapshot, now);
    }
    UntypedRepeatsPending(r2, user, m, e2, userId, snapshot, now);
    ChatStream.ReduceThree(s, e1, e2, e2, userId, snapshot, now);
  }

  /** The three deltas read by the corrected loop: one piece, "Hi", and no completion. */
  lemma SkippedPieces()
    ensures EventPieces([TextDelta("Hi"), TextDelta(""), TextDelta("")]) == [Segment(MessageType, "Hi")]
    ensures Completions([TextDelta("Hi"), TextDelta(""), TextDelta("")]) == 0
  {
    var es := [TextDelta("Hi"), TextDelta(""), TextDelta("")];
    var es1 := [TextDelta("Hi")];
    var es2 := [TextDelta("Hi"), TextDelta("")];
    assert es1[..0] == [] && es2[..1] == es1 && es[..2] == es2;
    var hi := [Segment(MessageType, "Hi")];
    assert EventPieces(es1) == [] + hi;
    assert EventPieces(es2) == hi + [];
    assert Completions(es1) == 0;
    assert Completions(es2) == 0;
  }

  /** The corrected loop over the three deltas: "Hi" in the builder, one record written. */
  lemma SkippedFold(id: string, providerName: string, modelName: string)
    ensures var start := Start(providerName, modelName);
      Fold(start, [TextDelta("Hi"), TextDelta(""), TextDelta("")], id)
        == Acc(MessageType, "Hi", [], start.meta, [StreamEvent(id, MessageType, TextData("Hi"))])
  {
    var es := [TextDelta("Hi"), TextDelta(""), TextDelta("")];
    var start := Start(providerName, modelName);
    var es1 := [TextDelta("Hi")];
    var es2 := [TextDelta("Hi"), TextDelta("")];
    assert es1[..0] == [] && es2[..1] == es1 && es[..2] == es2;
    assert Fold(start, es1, id) == Acc(MessageType, "Hi", [], start.meta, [StreamEvent(id, MessageType, TextData("Hi"))]);
    assert Fold(start, es2, id) == Fold(start, es1, id);
  }

  /**
   * With the empty deltas skipped, the same stream is shown as stored: the
   * page's message holds "Hi", like the server's.
   */
  lemma EmptyDeltasSkipped(id: string, userId: string, providerName: string, modelName: string, snapshot: set<string>, now: int)
    requires id != "" && userId != "" && id != userId
    ensures var fin := Fold(Start(providerName, modelName), [TextDelta("Hi"), TextDelta(""), TextDelta("")], id);
      && SavedContent(fin) == [Segment(MessageType, "Hi")]
      && ChatStream.AllWellTyped(fin.forwarded)
      && ChatStream.Reduce(Waiting(userId, now), fin.forwarded, userId, snapshot, now).path
         == [Waiting(userId, now).path[0], ChatTree.Message(id, userId, AssistantRole, [Segment(MessageType, "Hi")], None, now)]
  {
    var es := [TextDelta("Hi"), TextDelta(""), TextDelta("")];
    var hi := [Segment(MessageType, "Hi")];
    SkippedPieces();
    SkippedFold(id, providerName, modelName);
    ClientShowsStoredText(es, id, providerName, modelName, Waiting(userId, now), userId, snapshot, now);
    assert Runs(hi) == hi by {
      RunsSnoc([], hi[0]);
      assert [] + [hi[0]] == hi;
    }
  }
}

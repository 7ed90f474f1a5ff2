/**
 * The chat page's operations on its state, as values: toggling a reasoning
 * panel, sending a prompt (the optimistic user node and the assistant
 * placeholder), folding the streamed records into the active path and the
 * node map, retrying a message and deleting the last one.
 *
 * A path message and the map's node filed under the same id are one object
 * in the page; here every edit of the tracked assistant message is applied
 * to both copies.
 */
module ChatStream {
  import opened Wrappers
  import opened Wire
  import Strings
  import Citations
  import opened ChatTree

  const UserRole: string := "user"
  const AssistantRole: string := "assistant"

  /** The page state: active path, node map, expanded reasoning panels, and `isInterference`. */
  datatype View = View(path: seq<Message>, nodes: NodeMap, expanded: set<string>, busy: bool)

  /** The model picked in the model store (`currentModel`). */
  datatype ModelChoice = ModelChoice(providerId: string, modelId: string, reasoning: bool)

  /** The body of `POST /api/messages`. */
  datatype MessageRequest = MessageRequest(
    id: string,
    conversationId: string,
    providerId: string,
    modelName: string,
    messagePath: seq<string>,
    prompt: string)

  /** What `api.stream` gave back: an error or non-OK status, a response without a body, or the decoded records. */
  datatype Reply = ReplyFailed | ReplyNoBody | ReplyEvents(events: seq<StreamEvent>)

  // ---------------------------------------------------------------------
  // toggleReasoning
  // ---------------------------------------------------------------------

  /** Flips whether `id`'s reasoning panel is expanded. */
  function Toggle(s: set<string>, id: string): (r: set<string>)
    ensures id in r <==> id !in s
    ensures forall x :: x != id ==> (x in r <==> x in s)
  {
    if id in s then s - {id} else s + {id}
  }

  /** Toggling twice restores the panels. */
  lemma ToggleTwice(s: set<string>, id: string)
    ensures Toggle(Toggle(s, id), id) == s
  {
  }

  // ---------------------------------------------------------------------
  // The stream reducer
  // ---------------------------------------------------------------------

  /**
   * The reducer's variables: the working path and map, the expanded panels,
   * the id of the message being received (`assistantMessageId`), the type of
   * the previous record and the last text payload (`assistantContent`).
   */
  datatype Ingest = Ingest(
    path: seq<Message>,
    nodes: NodeMap,
    expanded: set<string>,
    tracked: string,
    lastType: string,
    pending: string)

  /** An edit of the tracked message. */
  datatype Edit =
    | SetMeta(info: MetaInfo)
    | Ground(grounding: Citations.Grounding)
    | Push(segs: seq<Segment>)
    | AppendText(text: string)

  function ApplyEdit(m: Message, e: Edit): (r: Message)
    ensures r.id == m.id && r.parentId == m.parentId && r.role == m.role && r.createdAt == m.createdAt
  {
    match e
    case SetMeta(info) => m.(meta := Some(info))
    case Ground(g) =>
      m.(meta := Some(m.meta.GetOr(EmptyMetaInfo).(grounding := Some(g))), content := AnnotateLast(m.content, g))
    case Push(segs) => m.(content := m.content + segs)
    case AppendText(t) =>
      if m.content == [] then m
      else
        var last := m.content[|m.content| - 1];
        m.(content := m.content[..|m.content| - 1] + [last.(text := last.text + t)])
  }

  /** `newPath.map(...)`: the edit applied to every path message with the given id. */
  function EditPath(path: seq<Message>, id: string, e: Edit): (r: seq<Message>)
    ensures |r| == |path|
    ensures forall i :: 0 <= i < |path| ==> r[i] == if path[i].id == id then ApplyEdit(path[i], e) else path[i]
  {
    if path == [] then []
    else
      var last := path[|path| - 1];
      EditPath(path[..|path| - 1], id, e) + [if last.id == id then ApplyEdit(last, e) else last]
  }

  /** The edit applied to the tracked message on the path and, once it has an id, in the map. */
  function Edited(s: Ingest, e: Edit): Ingest {
    s.(path := EditPath(s.path, s.tracked, e),
       nodes := if s.tracked != "" && s.tracked in s.nodes
                then s.nodes[s.tracked := s.nodes[s.tracked].(msg := ApplyEdit(s.nodes[s.tracked].msg, e))]
                else s.nodes)
  }

  /** Some path copy of the tracked message has no content; appending to it throws and the record is dropped. */
  predicate TrackedEmpty(s: Ingest) {
    exists i :: 0 <= i < |s.path| && s.path[i].id == s.tracked && s.path[i].content == []
  }

  function DropLast<T>(s: seq<T>): seq<T> {
    if s == [] then [] else s[..|s| - 1]
  }

  /** Text records carry their text; any other record leaves `assistantContent` as it was. */
  function PendingAfter(s: Ingest, e: StreamEvent): string
    requires WellTyped(e)
  {
    if e.eventType == MessageType || e.eventType == ReasoningType then e.data.content else s.pending
  }

  /**
   * One streamed record. `snapshot` is the expanded set the page had when
   * the send began: the collapse branch starts from it rather than from the
   * current set. `now` stands for the clock.
   */
  function Step(s: Ingest, e: StreamEvent, userId: string, snapshot: set<string>, now: int): Ingest
    requires WellTyped(e)
  {
    var pending := PendingAfter(s, e);
    if s.tracked != e.messageId then
      var node := Message(e.messageId, userId, AssistantRole, [Segment(e.eventType, pending)], None, now);
      var nodes1 := s.nodes[e.messageId := TreeNode(node, [])];
      var nodes2 := if userId in nodes1
        then nodes1[userId := nodes1[userId].(children := nodes1[userId].children + [e.messageId])]
        else nodes1;
      Ingest(DropLast(s.path) + [node], nodes2,
        if e.eventType == ReasoningType then s.expanded + {e.messageId} else s.expanded,
        e.messageId, e.eventType, pending)
    else if e.eventType == MetaInfoType then
      Edited(s, SetMeta(e.data.info)).(lastType := e.eventType, pending := pending)
    else if e.eventType == GroundingType then
      Edited(s, Ground(e.data.grounding)).(lastType := e.eventType, pending := pending)
    else if s.lastType != e.eventType then
      var segs := if e.eventType == MessageType || e.eventType == ReasoningType then [Segment(e.eventType, pending)] else [];
      Edited(s, Push(segs)).(lastType := e.eventType, pending := pending)
    else if TrackedEmpty(s) then
      s.(pending := pending)
    else
      var expanded := if e.eventType == ReasoningType && s.tracked !in snapshot
        then s.expanded + {s.tracked}
        else snapshot - {s.tracked};
      Edited(s, AppendText(pending)).(expanded := expanded, lastType := e.eventType, pending := pending)
  }

  predicate AllWellTyped(es: seq<StreamEvent>) {
    forall i :: 0 <= i < |es| ==> WellTyped(es[i])
  }

  /** The records of one response, in order. */
  function Reduce(s: Ingest, es: seq<StreamEvent>, userId: string, snapshot: set<string>, now: int): Ingest
    requires AllWellTyped(es)
  {
    if es == [] then s
    else Step(Reduce(s, es[..|es| - 1], userId, snapshot, now), es[|es| - 1], userId, snapshot, now)
  }

  /** Two records are two reducer steps. */
  lemma ReduceTwo(s: Ingest, e1: StreamEvent, e2: StreamEvent, userId: string, snapshot: set<string>, now: int)
    requires WellTyped(e1) && WellTyped(e2)
    ensures AllWellTyped([e1, e2])
    ensures Reduce(s, [e1, e2], userId, snapshot, now) == Step(Step(s, e1, userId, snapshot, now), e2, userId, snapshot, now)
  {
    var one := [e1];
    assert one[..0] == [];
    assert Reduce(s, one, userId, snapshot, now) == Step(s, e1, userId, snapshot, now);
    assert [e1, e2][..1] == one;
  }

  /** Three records are three reducer steps. */
  lemma ReduceThree(s: Ingest, e1: StreamEvent, e2: StreamEvent, e3: StreamEvent, userId: string, snapshot: set<string>, now: int)
    requires WellTyped(e1) && WellTyped(e2) && WellTyped(e3)
    ensures AllWellTyped([e1, e2, e3])
    ensures Reduce(s, [e1, e2, e3], userId, snapshot, now) == Step(Reduce(s, [e1, e2], userId, snapshot, now), e3, userId, snapshot, now)
  {
    assert [e1, e2, e3][..2] == [e1, e2];
  }

  /** A text record for a message not yet tracked replaces the placeholder with a new message holding its text. */
  lemma StepNew(s: Ingest, e: StreamEvent, userId: string, snapshot: set<string>, now: int)
    requires s.tracked != e.messageId && (e.eventType == MessageType || e.eventType == ReasoningType) && e.data.TextData?
    ensures var r := Step(s, e, userId, snapshot, now);
      && r.path == DropLast(s.path) + [Message(e.messageId, userId, AssistantRole, [Segment(e.eventType, e.data.content)], None, now)]
      && r.tracked == e.messageId && r.lastType == e.eventType && r.pending == e.data.content
      && r.expanded == if e.eventType == ReasoningType then s.expanded + {e.messageId} else s.expanded
  {
  }

  /** A stream of text records all for message `id`. */
  predicate TextStream(es: seq<StreamEvent>, id: string) {
    forall i :: 0 <= i < |es| ==>
      es[i].messageId == id && (es[i].eventType == MessageType || es[i].eventType == ReasoningType) && es[i].data.TextData?
  }

  /** The typed text pieces of a text stream. */
  function Pieces(es: seq<StreamEvent>): (r: seq<Segment>)
    ensures |r| == |es|
  {
    if es == [] then []
    else Pieces(es[..|es| - 1]) + [Segment(es[|es| - 1].eventType, if es[|es| - 1].data.TextData? then es[|es| - 1].data.content else "")]
  }

  /** The assistant message the reducer builds from a text stream. */
  function Received(id: string, userId: string, es: seq<StreamEvent>, now: int): Message {
    Message(id, userId, AssistantRole, Runs(Pieces(es)), None, now)
  }

  /** After a text stream for `id`: the path's last message holds the runs of the pieces, and so does the map. */
  predicate ShowsStream(r: Ingest, base: seq<Message>, id: string, userId: string, es: seq<StreamEvent>, now: int) {
    && es != []
    && r.path == base + [Received(id, userId, es, now)]
    && r.tracked == id
    && r.lastType == es[|es| - 1].eventType
    && id in r.nodes && r.nodes[id].msg == Received(id, userId, es, now)
  }

  /**
   * The page shows what the server stores: for a stream of text records
   * for a new message, the last path message and its map node hold exactly
   * the maximal same-type runs of the streamed pieces.
   */
  lemma {:induction false} ReduceTextStream(s: Ingest, es: seq<StreamEvent>, id: string, userId: string, snapshot: set<string>, now: int)
    requires es != [] && TextStream(es, id) && AllWellTyped(es)
    requires id != "" && s.tracked != id
    requires forall i :: 0 <= i < |s.path| - 1 ==> s.path[i].id != id
    ensures ShowsStream(Reduce(s, es, userId, snapshot, now), DropLast(s.path), id, userId, es, now)
  {
    var init := es[..|es| - 1];
    var e := es[|es| - 1];
    assert es == init + [e];
    if init == [] {
      TextStreamFirst(s, es, id, userId, snapshot, now);
    } else {
      assert TextStream(init, id) && AllWellTyped(init) by {
        forall i | 0 <= i < |init| ensures init[i] == es[i] { }
      }
      ReduceTextStream(s, init, id, userId, snapshot, now);
      TextStreamStep(Reduce(s, init, userId, snapshot, now), DropLast(s.path), init, e, id, userId, snapshot, now);
    }
  }

  /** The first text record for a new message replaces the placeholder with a node holding that text. */
  lemma TextStreamFirst(s: Ingest, es: seq<StreamEvent>, id: string, userId: string, snapshot: set<string>, now: int)
    requires |es| == 1 && TextStream(es, id) && AllWellTyped(es)
    requires id != "" && s.tracked != id
    ensures ShowsStream(Reduce(s, es, userId, snapshot, now), DropLast(s.path), id, userId, es, now)
  {
    var e := es[0];
    assert es[..0] == [];
    assert Pieces(es) == [Segment(e.eventType, e.data.content)];
    RunsSnoc([], Segment(e.eventType, e.data.content));
  }

  /**
   * The page shows what the server stores: for the records a server writes
   * for a reply's text pieces, the page's new assistant message holds the
   * runs of those pieces.
   */
  lemma ShowsTextEvents(s: Ingest, id: string, pieces: seq<Segment>, userId: string, snapshot: set<string>, now: int)
    requires pieces != [] && TextPieces(pieces)
    requires id != "" && s.tracked != id
    requires forall i :: 0 <= i < |s.path| - 1 ==> s.path[i].id != id
    ensures AllWellTyped(TextEvents(id, pieces))
    ensures Reduce(s, TextEvents(id, pieces), userId, snapshot, now).path
      == DropLast(s.path) + [Message(id, userId, AssistantRole, Runs(pieces), None, now)]
  {
    var es := TextEvents(id, pieces);
    assert TextStream(es, id) && AllWellTyped(es);
    PiecesOfTextEvents(id, pieces);
    ReduceTextStream(s, es, id, userId, snapshot, now);
  }

  lemma {:induction false} PiecesOfTextEvents(id: string, pieces: seq<Segment>)
    ensures Pieces(TextEvents(id, pieces)) == pieces
  {
    if pieces != [] {
      var init := pieces[..|pieces| - 1];
      PiecesOfTextEvents(id, init);
      assert TextEvents(id, pieces)[..|pieces| - 1] == TextEvents(id, init);
    }
  }

  /** The edit a text record makes to the message received so far: a new segment on a type change, else appended text. */
  function TextEdit(lastType: string, e: StreamEvent): Edit
    requires e.data.TextData?
  {
    if lastType != e.eventType then Push([Segment(e.eventType, e.data.content)]) else AppendText(e.data.content)
  }

  lemma ReceivedExtends(id: string, userId: string, init: seq<StreamEvent>, e: StreamEvent, now: int)
    requires init != [] && (e.eventType == MessageType || e.eventType == ReasoningType) && e.data.TextData?
    ensures ApplyEdit(Received(id, userId, init, now), TextEdit(init[|init| - 1].eventType, e)) == Received(id, userId, init + [e], now)
  {
    var piece := Segment(e.eventType, e.data.content);
    var ps := Pieces(init);
    assert Pieces(init + [e]) == ps + [piece] by {
      assert (init + [e])[..|init|] == init;
    }
    RunsSnoc(ps, piece);
    var runs := Runs(ps);
    assert runs != [] && runs[|runs| - 1].kind == init[|init| - 1].eventType by {
      assert ps[|ps| - 1].kind == init[|init| - 1].eventType;
      RunsNoAdjacentSameKind(ps);
    }
    var m := Received(id, userId, init, now);
    assert m.content == runs;
    if init[|init| - 1].eventType == e.eventType {
      var last := runs[|runs| - 1];
      assert last.(text := last.text + e.data.content) == Segment(piece.kind, last.text + piece.text);
    }
  }

  lemma EditLast(base: seq<Message>, m: Message, id: string, edit: Edit)
    requires forall i :: 0 <= i < |base| ==> base[i].id != id
    requires m.id == id
    ensures EditPath(base + [m], id, edit) == base + [ApplyEdit(m, edit)]
  {
    var r := EditPath(base + [m], id, edit);
    forall i | 0 <= i < |base| ensures r[i] == base[i] {
      assert (base + [m])[i] == base[i];
    }
  }

  /** One more text record for the message being received extends its runs. */
  lemma TextStreamStep(prev: Ingest, base: seq<Message>, init: seq<StreamEvent>, e: StreamEvent, id: string, userId: string, snapshot: set<string>, now: int)
    requires ShowsStream(prev, base, id, userId, init, now)
    requires forall i :: 0 <= i < |base| ==> base[i].id != id
    requires id != "" && e.messageId == id && (e.eventType == MessageType || e.eventType == ReasoningType) && e.data.TextData?
    ensures ShowsStream(Step(prev, e, userId, snapshot, now), base, id, userId, init + [e], now)
  {
    var m := Received(id, userId, init, now);
    var edit := TextEdit(prev.lastType, e);
    ReceivedExtends(id, userId, init, e, now);
    StreamNotEmpty(prev, base, id, userId, init, now);
    StepText(prev, e, userId, snapshot, now);
    EditLast(base, m, id, edit);
  }

  /** A message received from text records has content, so appending to it never throws. */
  lemma StreamNotEmpty(prev: Ingest, base: seq<Message>, id: string, userId: string, init: seq<StreamEvent>, now: int)
    requires ShowsStream(prev, base, id, userId, init, now)
    requires forall i :: 0 <= i < |base| ==> base[i].id != id
    ensures !TrackedEmpty(prev)
  {
    var m := Received(id, userId, init, now);
    assert m.content != [] by {
      assert init[..|init| - 1] + [init[|init| - 1]] == init;
      RunsSnoc(Pieces(init[..|init| - 1]), Pieces(init)[|init| - 1]);
    }
    forall i | 0 <= i < |prev.path| && prev.path[i].id == id ensures prev.path[i].content != [] {
      assert i == |base|;
    }
  }

  /** A text record for the tracked message, when it is not dropped, applies its text edit. */
  lemma StepText(s: Ingest, e: StreamEvent, userId: string, snapshot: set<string>, now: int)
    requires s.tracked == e.messageId && (e.eventType == MessageType || e.eventType == ReasoningType) && e.data.TextData?
    requires s.lastType != e.eventType || !TrackedEmpty(s)
    ensures Step(s, e, userId, snapshot, now).path == Edited(s, TextEdit(s.lastType, e)).path
    ensures Step(s, e, userId, snapshot, now).nodes == Edited(s, TextEdit(s.lastType, e)).nodes
    ensures Step(s, e, userId, snapshot, now).tracked == s.tracked
    ensures Step(s, e, userId, snapshot, now).lastType == e.eventType
  {
  }

  /**
   * A usage record between two text records of one type splits the text:
   * the page then shows two adjacent segments of the same type, where the
   * stored message has one.
   */
  lemma MetaInfoSplitsText(s: Ingest, id: string, userId: string, a: string, b: string, info: MetaInfo, snapshot: set<string>, now: int)
    requires id != "" && s.tracked != id
    requires forall i :: 0 <= i < |s.path| - 1 ==> s.path[i].id != id
    ensures var es := [StreamEvent(id, MessageType, TextData(a)), StreamEvent(id, MetaInfoType, MetaData(info)), StreamEvent(id, MessageType, TextData(b))];
      AllWellTyped(es)
      && Reduce(s, es, userId, snapshot, now).path
         == DropLast(s.path) + [Message(id, userId, AssistantRole, [Segment(MessageType, a), Segment(MessageType, b)], Some(info), now)]
      && Runs([Segment(MessageType, a), Segment(MessageType, b)]) == [Segment(MessageType, a + b)]
  {
    TextMetaTextPath(s, id, userId, a, b, info, snapshot, now);
    TwoRunsMerge(MessageType, a, b);
  }

  /** The page's side of `MetaInfoSplitsText`. */
  lemma TextMetaTextPath(s: Ingest, id: string, userId: string, a: string, b: string, info: MetaInfo, snapshot: set<string>, now: int)
    requires id != "" && s.tracked != id
    requires forall i :: 0 <= i < |s.path| - 1 ==> s.path[i].id != id
    ensures var e1, e2, e3 := StreamEvent(id, MessageType, TextData(a)), StreamEvent(id, MetaInfoType, MetaData(info)), StreamEvent(id, MessageType, TextData(b));
      AllWellTyped([e1, e2, e3])
      && Reduce(s, [e1, e2, e3], userId, snapshot, now).path
         == DropLast(s.path) + [Message(id, userId, AssistantRole, [Segment(MessageType, a), Segment(MessageType, b)], Some(info), now)]
  {
    TypesDistinct();
    var e1, e2, e3 := StreamEvent(id, MessageType, TextData(a)), StreamEvent(id, MetaInfoType, MetaData(info)), StreamEvent(id, MessageType, TextData(b));
    var m2 := Message(id, userId, AssistantRole, [Segment(MessageType, a)], Some(info), now);
    assert AllWellTyped([e1, e2]);
    var r2 := Reduce(s, [e1, e2], userId, snapshot, now);
    assert r2.path == DropLast(s.path) + [m2] && r2.tracked == id && r2.lastType == MetaInfoType by {
      MetaAfterText(s, id, userId, a, info, snapshot, now);
    }
    var m3 := Message(id, userId, AssistantRole, [Segment(MessageType, a), Segment(MessageType, b)], Some(info), now);
    assert Step(r2, e3, userId, snapshot, now).path == DropLast(s.path) + [m3] by {
      DropLastIds(s.path, id);
      PushAfterMeta(r2, DropLast(s.path), m2, e3, userId, snapshot, now);
      assert [Segment(MessageType, a)] + [Segment(MessageType, b)] == [Segment(MessageType, a), Segment(MessageType, b)];
    }
    assert AllWellTyped([e1, e2, e3]) && Reduce(s, [e1, e2, e3], userId, snapshot, now) == Step(r2, e3, userId, snapshot, now) by {
      ReduceThree(s, e1, e2, e3, userId, snapshot, now);
    }
  }

  /** A text record after a usage record opens a new segment in the tracked message, whatever its type. */
  lemma PushAfterMeta(r: Ingest, base: seq<Message>, m: Message, e: StreamEvent, userId: string, snapshot: set<string>, now: int)
    requires r.path == base + [m] && m.id == e.messageId && r.tracked == m.id && r.lastType == MetaInfoType
    requires forall i :: 0 <= i < |base| ==> base[i].id != m.id
    requires (e.eventType == MessageType || e.eventType == ReasoningType) && e.data.TextData?
    ensures Step(r, e, userId, snapshot, now).path == base + [m.(content := m.content + [Segment(e.eventType, e.data.content)])]
  {
    var push := Push([Segment(e.eventType, e.data.content)]);
    StepPush(r, e, userId, snapshot, now);
    TrackedEdit(r, base, m, m.id, push);
  }

  /** Two adjacent pieces of one type make one run. */
  lemma TwoRunsMerge(kind: string, a: string, b: string)
    ensures Runs([Segment(kind, a), Segment(kind, b)]) == [Segment(kind, a + b)]
  {
    RunsSnoc([], Segment(kind, a));
    assert [Segment(kind, a), Segment(kind, b)] == [Segment(kind, a)] + [Segment(kind, b)];
    RunsSnoc([Segment(kind, a)], Segment(kind, b));
  }

  /** No entry but the last of a path has id `id`: then no entry of the path without its last has it. */
  lemma DropLastIds(path: seq<Message>, id: string)
    requires forall i :: 0 <= i < |path| - 1 ==> path[i].id != id
    ensures forall i :: 0 <= i < |DropLast(path)| ==> DropLast(path)[i].id != id
  {
    if path != [] {
      assert forall i :: 0 <= i < |DropLast(path)| ==> DropLast(path)[i] == path[i];
    }
  }

  /** The first two records of `MetaInfoSplitsText`: the text, then the usage record attached to it. */
  lemma MetaAfterText(s: Ingest, id: string, userId: string, a: string, info: MetaInfo, snapshot: set<string>, now: int)
    requires id != "" && s.tracked != id
    requires forall i :: 0 <= i < |s.path| - 1 ==> s.path[i].id != id
    ensures var es := [StreamEvent(id, MessageType, TextData(a)), StreamEvent(id, MetaInfoType, MetaData(info))];
      AllWellTyped(es)
      && Reduce(s, es, userId, snapshot, now).path == DropLast(s.path) + [Message(id, userId, AssistantRole, [Segment(MessageType, a)], Some(info), now)]
      && Reduce(s, es, userId, snapshot, now).tracked == id
      && Reduce(s, es, userId, snapshot, now).lastType == MetaInfoType
  {
    var e1, e2 := StreamEvent(id, MessageType, TextData(a)), StreamEvent(id, MetaInfoType, MetaData(info));
    ReduceTwo(s, e1, e2, userId, snapshot, now);
    StepNew(s, e1, userId, snapshot, now);
    var r1 := Step(s, e1, userId, snapshot, now);
    var m1 := Message(id, userId, AssistantRole, [Segment(MessageType, a)], None, now);
    StepMeta(r1, e2, userId, snapshot, now);
    DropLastIds(s.path, id);
    TrackedEdit(r1, DropLast(s.path), m1, id, SetMeta(info));
  }

  /** A usage record for the tracked message attaches its metadata. */
  lemma StepMeta(s: Ingest, e: StreamEvent, userId: string, snapshot: set<string>, now: int)
    requires s.tracked == e.messageId && e.eventType == MetaInfoType && e.data.MetaData?
    ensures Step(s, e, userId, snapshot, now).path == Edited(s, SetMeta(e.data.info)).path
    ensures Step(s, e, userId, snapshot, now).tracked == s.tracked
    ensures Step(s, e, userId, snapshot, now).lastType == MetaInfoType
  {
  }

  /** An edit of the tracked message touches only the last path entry when no other entry has its id. */
  lemma TrackedEdit(s: Ingest, base: seq<Message>, m: Message, id: string, e: Edit)
    requires s.path == base + [m] && m.id == id && s.tracked == id
    requires forall i :: 0 <= i < |base| ==> base[i].id != id
    ensures Edited(s, e).path == base + [ApplyEdit(m, e)]
  {
    assert forall i :: 0 <= i < |base| ==> s.path[i] == base[i];
  }

  /**
   * The reasoning panel of a new message opens with its first reasoning
   * record, stays open through the first answer record, and closes on the
   * second answer record (back to the set the send began with, minus it).
   */
  lemma ReasoningPanelOpensThenCloses(s: Ingest, id: string, userId: string, r: string, a: string, b: string, now: int)
    requires id != "" && s.tracked != id && id !in s.expanded
    ensures var e1 := StreamEvent(id, ReasoningType, TextData(r));
      var e2 := StreamEvent(id, MessageType, TextData(a));
      var e3 := StreamEvent(id, MessageType, TextData(b));
      && id in Step(s, e1, userId, s.expanded, now).expanded
      && id in Step(Step(s, e1, userId, s.expanded, now), e2, userId, s.expanded, now).expanded
      && Step(Step(Step(s, e1, userId, s.expanded, now), e2, userId, s.expanded, now), e3, userId, s.expanded, now).expanded
         == s.expanded
  {
    var e1 := StreamEvent(id, ReasoningType, TextData(r));
    var e2 := StreamEvent(id, MessageType, TextData(a));
    var e3 := StreamEvent(id, MessageType, TextData(b));
    StepNew(s, e1, userId, s.expanded, now);
    var r1 := Step(s, e1, userId, s.expanded, now);
    StepPush(r1, e2, userId, s.expanded, now);
    var r2 := Step(r1, e2, userId, s.expanded, now);
    PushFills(r1, [Segment(MessageType, a)]);
    StepAppendExpanded(r2, e3, userId, s.expanded, now);
  }

  /** A text record of a new type for the tracked message pushes a segment holding its text. */
  lemma StepPush(s: Ingest, e: StreamEvent, userId: string, snapshot: set<string>, now: int)
    requires s.tracked == e.messageId && (e.eventType == MessageType || e.eventType == ReasoningType) && e.data.TextData?
    requires s.lastType != e.eventType
    ensures Step(s, e, userId, snapshot, now)
      == Edited(s, Push([Segment(e.eventType, e.data.content)])).(lastType := e.eventType, pending := e.data.content)
  {
  }

  /** After a non-empty push, every path copy of the tracked message has content. */
  lemma PushFills(s: Ingest, segs: seq<Segment>)
    requires segs != []
    ensures !TrackedEmpty(Edited(s, Push(segs)))
  {
    var p := Edited(s, Push(segs)).path;
    forall i | 0 <= i < |p| && p[i].id == s.tracked ensures p[i].content != [] {
      assert p[i] == ApplyEdit(s.path[i], Push(segs));
    }
  }

  /** A second text record of the same type appends to the tracked message and moves its reasoning panel. */
  lemma StepAppendExpanded(s: Ingest, e: StreamEvent, userId: string, snapshot: set<string>, now: int)
    requires s.tracked == e.messageId && (e.eventType == MessageType || e.eventType == ReasoningType) && e.data.TextData?
    requires s.lastType == e.eventType && !TrackedEmpty(s)
    ensures Step(s, e, userId, snapshot, now).expanded
      == if e.eventType == ReasoningType && s.tracked !in snapshot then s.expanded + {s.tracked} else snapshot - {s.tracked}
  {
  }

  // ---------------------------------------------------------------------
  // sendMessage
  // ---------------------------------------------------------------------

  /** The ids of a path. */
  function PathIds(path: seq<Message>): set<string> {
    set m | m in path :: m.id
  }

  /** `messagePath`: the path's ids in order, without the prompt's own id and without unsaved (empty) ids. */
  function RequestPath(path: seq<Message>, userId: string): (r: seq<string>)
    ensures forall x :: x in r <==> x in PathIds(path) && x != userId && x != ""
  {
    if path == [] then []
    else
      var last := path[|path| - 1];
      assert PathIds(path) == PathIds(path[..|path| - 1]) + {last.id} by {
        assert path == path[..|path| - 1] + [last];
      }
      RequestPath(path[..|path| - 1], userId) + (if last.id != userId && last.id != "" then [last.id] else [])
  }

  /** The selected model is usable: present, with a provider id and a model id. */
  predicate ModelReady(model: Option<ModelChoice>) {
    model.Some? && model.value.providerId != "" && model.value.modelId != ""
  }

  /** The optimistic user node: filed among its parent's children (appended) and under its own id. */
  function AddUserNode(nodes: NodeMap, user: Message): (r: NodeMap)
    ensures r.Keys == nodes.Keys + {user.id}
    ensures r[user.id] == TreeNode(user, [])
  {
    var withChild := if user.parentId != "" && user.parentId in nodes
      then nodes[user.parentId := nodes[user.parentId].(children := nodes[user.parentId].children + [user.id])]
      else nodes;
    withChild[user.id := TreeNode(user, [])]
  }

  /** The page after a send, and the request it posted, if any. */
  datatype Sent = Sent(view: View, request: Option<MessageRequest>)

  /** The optimistic user message: the prompt, below the last message of the page's path. */
  function UserNode(v: View, text: string, userId: string, now: int): Message {
    Message(userId, if |v.path| > 0 then v.path[|v.path| - 1].id else "", UserRole, [Segment(MessageType, text)], None, now)
  }

  /** The assistant placeholder: no id yet, one empty segment of the model's kind. */
  function Placeholder(userId: string, reasoning: bool, now: int): Message {
    Message("", userId, AssistantRole, [Segment(if reasoning then ReasoningType else MessageType, "")], None, now)
  }

  /** The path once the request is under way: the given path (or the page's), the user node unless retrying, the placeholder. */
  function StartPath(v: View, text: string, retry: bool, pathParam: Option<seq<Message>>, userId: string, reasoning: bool, now: int): seq<Message> {
    var base := pathParam.GetOr(v.path);
    (if retry then base else base + [UserNode(v, text, userId, now)]) + [Placeholder(userId, reasoning, now)]
  }

  function StartNodes(v: View, text: string, retry: bool, userId: string, now: int): NodeMap {
    if retry then v.nodes else AddUserNode(v.nodes, UserNode(v, text, userId, now))
  }

  /**
   * `sendMessage`. `retry`, `pathParam` and `messageId` are the optional
   * arguments (`messageId == ""` when absent); `model` is the model store's
   * selection, `freshId` the generated uuid, `now` the clock, and `reply` the
   * outcome of the streaming request.
   */
  function Send(
    v: View, text: string, retry: bool, pathParam: Option<seq<Message>>, messageId: string,
    conversationId: string, hasToken: bool, model: Option<ModelChoice>, freshId: string, now: int, reply: Reply): Sent
    requires reply.ReplyEvents? ==> AllWellTyped(reply.events)
  {
    if Strings.Trim(text) == "" || conversationId == "" || !hasToken then Sent(v, None)
    else if !ModelReady(model) then Sent(v.(busy := true), None)
    else
      var userId := if messageId != "" then messageId else freshId;
      var started := StartPath(v, text, retry, pathParam, userId, model.value.reasoning, now);
      var nodes := StartNodes(v, text, retry, userId, now);
      var request := MessageRequest(userId, conversationId, model.value.providerId, model.value.modelId,
        RequestPath(started, userId), text);
      Sent(Deliver(started, nodes, v.expanded, userId, now, reply), Some(request))
  }

  /**
   * The page once the reply is read: every record reduced over the started
   * path and map (none when the request failed or had no body), then
   * `isInterference` cleared.
   */
  function Deliver(started: seq<Message>, nodes: NodeMap, expanded: set<string>, userId: string, now: int, reply: Reply): View
    requires reply.ReplyEvents? ==> AllWellTyped(reply.events)
  {
    match reply
    case ReplyEvents(es) =>
      var fin := Reduce(Ingest(started, nodes, expanded, "", "", ""), es, userId, expanded, now);
      View(fin.path, fin.nodes, fin.expanded, false)
    case _ => View(started, nodes, expanded, false)
  }

  /**
   * `isInterference` after a send: untouched when the prompt is blank or the
   * page is not ready, left set when no model is selected, cleared once a
   * request was made.
   */
  lemma SendBusy(v: View, text: string, retry: bool, pathParam: Option<seq<Message>>, messageId: string,
    conversationId: string, hasToken: bool, model: Option<ModelChoice>, freshId: string, now: int, reply: Reply)
    requires reply.ReplyEvents? ==> AllWellTyped(reply.events)
    ensures Strings.IsBlank(text) || conversationId == "" || !hasToken ==>
      Send(v, text, retry, pathParam, messageId, conversationId, hasToken, model, freshId, now, reply) == Sent(v, None)
    ensures !Strings.IsBlank(text) && conversationId != "" && hasToken ==>
      Send(v, text, retry, pathParam, messageId, conversationId, hasToken, model, freshId, now, reply).view.busy == !ModelReady(model)
  {
    Strings.TrimEmptyIffBlank(text);
  }

  /** A request goes out exactly when the prompt is not blank, the page is ready and a model is selected. */
  lemma SendSends(v: View, text: string, retry: bool, pathParam: Option<seq<Message>>, messageId: string,
    conversationId: string, hasToken: bool, model: Option<ModelChoice>, freshId: string, now: int, reply: Reply)
    requires reply.ReplyEvents? ==> AllWellTyped(reply.events)
    ensures Send(v, text, retry, pathParam, messageId, conversationId, hasToken, model, freshId, now, reply).request.Some?
      <==> !Strings.IsBlank(text) && conversationId != "" && hasToken && ModelReady(model)
  {
    Strings.TrimEmptyIffBlank(text);
  }

  /**
   * A fresh prompt posts the ids of the path it extends (saved ones only),
   * under a new id, with the prompt text.
   */
  lemma SendRequest(v: View, text: string, conversationId: string, model: Option<ModelChoice>, freshId: string, now: int, reply: Reply)
    requires reply.ReplyEvents? ==> AllWellTyped(reply.events)
    requires !Strings.IsBlank(text) && conversationId != "" && ModelReady(model)
    requires freshId != ""
    ensures Send(v, text, false, None, "", conversationId, true, model, freshId, now, reply).request
      == Some(MessageRequest(freshId, conversationId, model.value.providerId, model.value.modelId, RequestPath(v.path, freshId), text))
  {
    Strings.TrimEmptyIffBlank(text);
    var user := UserNode(v, text, freshId, now);
    RequestPathSnoc(v.path, user, freshId);
    RequestPathSnoc(v.path + [user], Placeholder(freshId, model.value.reasoning, now), freshId);
  }

  /**
   * A retry posts the ids of the path it is given (saved ones only, without
   * the resent message), under the resent message's id (a new one when it
   * has none), with the prompt text.
   */
  lemma SendRetryRequest(v: View, text: string, path: seq<Message>, messageId: string, conversationId: string,
    model: Option<ModelChoice>, freshId: string, now: int, reply: Reply)
    requires reply.ReplyEvents? ==> AllWellTyped(reply.events)
    requires !Strings.IsBlank(text) && conversationId != "" && ModelReady(model)
    ensures var userId := if messageId != "" then messageId else freshId;
      Send(v, text, true, Some(path), messageId, conversationId, true, model, freshId, now, reply).request
        == Some(MessageRequest(userId, conversationId, model.value.providerId, model.value.modelId, RequestPath(path, userId), text))
  {
    assert Strings.Trim(text) != "" by {
      Strings.TrimEmptyIffBlank(text);
    }
    var userId := if messageId != "" then messageId else freshId;
    var placeholder := Placeholder(userId, model.value.reasoning, now);
    assert StartPath(v, text, true, Some(path), userId, model.value.reasoning, now) == path + [placeholder];
    RequestPathSnoc(path, placeholder, userId);
  }

  lemma RequestPathSnoc(path: seq<Message>, m: Message, userId: string)
    requires m.id == userId || m.id == ""
    ensures RequestPath(path + [m], userId) == RequestPath(path, userId)
  {
    assert (path + [m])[..|path|] == path;
  }

  /** The reducer keeps the path a parent chain ending below the prompt. */
  predicate ReplyChain(path: seq<Message>, userId: string) {
    PathChained(path) && (path != [] ==> path[|path| - 1].parentId == userId)
  }

  lemma EditPathKeepsChain(path: seq<Message>, id: string, e: Edit, userId: string)
    requires ReplyChain(path, userId)
    ensures ReplyChain(EditPath(path, id, e), userId)
  {
    var r := EditPath(path, id, e);
    forall i | 0 < i < |r| ensures ChildOf(r[i - 1], r[i]) {
      assert ChildOf(path[i - 1], path[i]);
    }
  }

  lemma StepKeepsChain(s: Ingest, e: StreamEvent, userId: string, snapshot: set<string>, now: int)
    requires WellTyped(e) && ReplyChain(s.path, userId)
    ensures ReplyChain(Step(s, e, userId, snapshot, now).path, userId)
  {
    if s.tracked != e.messageId {
      var p := DropLast(s.path);
      var r := Step(s, e, userId, snapshot, now).path;
      if |s.path| >= 2 {
        assert ChildOf(s.path[|s.path| - 2], s.path[|s.path| - 1]);
      }
      forall i | 0 < i < |r| ensures ChildOf(r[i - 1], r[i]) {
        if i < |p| {
          assert r[i - 1] == s.path[i - 1] && r[i] == s.path[i];
        }
      }
    } else {
      forall ed: Edit ensures ReplyChain(EditPath(s.path, s.tracked, ed), userId) {
        EditPathKeepsChain(s.path, s.tracked, ed, userId);
      }
    }
  }

  lemma {:induction false} ReduceKeepsChain(s: Ingest, es: seq<StreamEvent>, userId: string, snapshot: set<string>, now: int)
    requires AllWellTyped(es) && ReplyChain(s.path, userId)
    ensures ReplyChain(Reduce(s, es, userId, snapshot, now).path, userId)
  {
    if es != [] {
      ReduceKeepsChain(s, es[..|es| - 1], userId, snapshot, now);
      StepKeepsChain(Reduce(s, es[..|es| - 1], userId, snapshot, now), es[|es| - 1], userId, snapshot, now);
    }
  }

  /** The started path hangs the prompt below the path it extends and the placeholder below the prompt. */
  lemma StartPathChained(v: View, text: string, retry: bool, pathParam: Option<seq<Message>>, userId: string, reasoning: bool, now: int)
    requires PathChained(v.path)
    requires !retry ==> pathParam.None?
    requires retry ==> (pathParam.Some? && PathChained(pathParam.value) && pathParam.value != []
      && pathParam.value[|pathParam.value| - 1].id == userId)
    ensures ReplyChain(StartPath(v, text, retry, pathParam, userId, reasoning, now), userId)
  {
    var base := pathParam.GetOr(v.path);
    var withUser := if retry then base else base + [UserNode(v, text, userId, now)];
    var started := StartPath(v, text, retry, pathParam, userId, reasoning, now);
    assert PathChained(withUser) by {
      if !retry {
        forall i | 0 < i < |withUser| ensures ChildOf(withUser[i - 1], withUser[i]) {
          if i < |base| { assert withUser[i - 1] == base[i - 1] && withUser[i] == base[i]; }
        }
      }
    }
    assert withUser[|withUser| - 1].id == userId;
    forall i | 0 < i < |started| ensures ChildOf(started[i - 1], started[i]) {
      if i < |withUser| { assert started[i - 1] == withUser[i - 1] && started[i] == withUser[i]; }
    }
  }

  /**
   * Sending keeps the active path a chain of parent links: the prompt hangs
   * below the old last message (or is the retried message itself), and the
   * reply below the prompt.
   */
  lemma SendKeepsChain(v: View, text: string, retry: bool, pathParam: Option<seq<Message>>, messageId: string,
    conversationId: string, hasToken: bool, model: Option<ModelChoice>, freshId: string, now: int, reply: Reply)
    requires reply.ReplyEvents? ==> AllWellTyped(reply.events)
    requires PathChained(v.path)
    requires !retry ==> pathParam.None?
    requires retry ==> (pathParam.Some? && PathChained(pathParam.value) && pathParam.value != []
      && messageId != "" && pathParam.value[|pathParam.value| - 1].id == messageId)
    ensures PathChained(Send(v, text, retry, pathParam, messageId, conversationId, hasToken, model, freshId, now, reply).view.path)
  {
    if !(Strings.Trim(text) == "" || conversationId == "" || !hasToken) && ModelReady(model) {
      var userId := if messageId != "" then messageId else freshId;
      var started := StartPath(v, text, retry, pathParam, userId, model.value.reasoning, now);
      var nodes := StartNodes(v, text, retry, userId, now);
      StartPathChained(v, text, retry, pathParam, userId, model.value.reasoning, now);
      DeliverKeepsChain(started, nodes, v.expanded, userId, now, reply);
      assert Send(v, text, retry, pathParam, messageId, conversationId, hasToken, model, freshId, now, reply).view
        == Deliver(started, nodes, v.expanded, userId, now, reply);
    }
  }

  lemma DeliverKeepsChain(started: seq<Message>, nodes: NodeMap, expanded: set<string>, userId: string, now: int, reply: Reply)
    requires reply.ReplyEvents? ==> AllWellTyped(reply.events)
    requires ReplyChain(started, userId)
    ensures PathChained(Deliver(started, nodes, expanded, userId, now, reply).path)
  {
    if reply.ReplyEvents? {
      ReduceKeepsChain(Ingest(started, nodes, expanded, "", "", ""), reply.events, userId, expanded, now);
    }
  }

  /** Every node filed under its own id, before and after a record. */
  lemma StepKeepsKeys(s: Ingest, e: StreamEvent, userId: string, snapshot: set<string>, now: int)
    requires WellTyped(e) && KeysMatch(s.nodes)
    ensures KeysMatch(Step(s, e, userId, snapshot, now).nodes)
  {
  }

  lemma {:induction false} ReduceKeepsKeys(s: Ingest, es: seq<StreamEvent>, userId: string, snapshot: set<string>, now: int)
    requires AllWellTyped(es) && KeysMatch(s.nodes)
    ensures KeysMatch(Reduce(s, es, userId, snapshot, now).nodes)
  {
    if es != [] {
      ReduceKeepsKeys(s, es[..|es| - 1], userId, snapshot, now);
      StepKeepsKeys(Reduce(s, es[..|es| - 1], userId, snapshot, now), es[|es| - 1], userId, snapshot, now);
    }
  }

  /** Sending files every new node under its own id. */
  lemma SendKeepsKeys(v: View, text: string, retry: bool, pathParam: Option<seq<Message>>, messageId: string,
    conversationId: string, hasToken: bool, model: Option<ModelChoice>, freshId: string, now: int, reply: Reply)
    requires reply.ReplyEvents? ==> AllWellTyped(reply.events)
    requires KeysMatch(v.nodes)
    ensures KeysMatch(Send(v, text, retry, pathParam, messageId, conversationId, hasToken, model, freshId, now, reply).view.nodes)
  {
    if !(Strings.Trim(text) == "" || conversationId == "" || !hasToken) && ModelReady(model) {
      var userId := if messageId != "" then messageId else freshId;
      var started := StartPath(v, text, retry, pathParam, userId, model.value.reasoning, now);
      var nodes := StartNodes(v, text, retry, userId, now);
      StartNodesKeys(v, text, retry, userId, now);
      DeliverKeepsKeys(started, nodes, v.expanded, userId, now, reply);
      assert Send(v, text, retry, pathParam, messageId, conversationId, hasToken, model, freshId, now, reply).view
        == Deliver(started, nodes, v.expanded, userId, now, reply);
    }
  }

  lemma DeliverKeepsKeys(started: seq<Message>, nodes: NodeMap, expanded: set<string>, userId: string, now: int, reply: Reply)
    requires reply.ReplyEvents? ==> AllWellTyped(reply.events)
    requires KeysMatch(nodes)
    ensures KeysMatch(Deliver(started, nodes, expanded, userId, now, reply).nodes)
  {
    if reply.ReplyEvents? {
      ReduceKeepsKeys(Ingest(started, nodes, expanded, "", "", ""), reply.events, userId, expanded, now);
    }
  }

  lemma StartNodesKeys(v: View, text: string, retry: bool, userId: string, now: int)
    requires KeysMatch(v.nodes)
    ensures KeysMatch(StartNodes(v, text, retry, userId, now))
  {
  }
}

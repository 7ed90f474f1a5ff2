/**
 * What the server and the browser exchange: typed content segments, the
 * usage record, the streamed events (`{message_id, type, data}`) and their
 * server-sent-event framing. Both the Go stream accumulators and the chat
 * page's reducer are stated over these values.
 */
module Wire {
  import opened Wrappers
  import Strings
  import Citations

  const MessageType: string := "message"
  const ReasoningType: string := "reasoning"
  const MetaInfoType: string := "meta_info"
  const GroundingType: string := "google_grounding_data"

  /** The four record types are four different tags. */
  lemma TypesDistinct()
    ensures MessageType != ReasoningType && MessageType != MetaInfoType && MessageType != GroundingType
    ensures ReasoningType != MetaInfoType && ReasoningType != GroundingType && MetaInfoType != GroundingType
  {
    assert |MessageType| == 7 && |ReasoningType| == 9 && |MetaInfoType| == 9 && |GroundingType| == 21;
    assert ReasoningType[0] != MetaInfoType[0];
  }

  /** One typed piece of a message's content (`{type, data: {content}}`). */
  datatype Segment = Segment(kind: string, text: string)

  /** Usage and provenance of an assistant message (`MessageMetaInfo`). */
  datatype MetaInfo = MetaInfo(
    providerName: string,
    modelName: string,
    promptTokens: int,
    reasoningTokens: int,
    responseTokens: int,
    cachedTokens: int,
    toolUseTokens: int,
    thoughtSignature: seq<bv8>,
    grounding: Option<Citations.Grounding>)

  /** The record the chat page substitutes when grounding data arrives before any usage record. */
  const EmptyMetaInfo: MetaInfo := MetaInfo("", "", 0, 0, 0, 0, 0, [], None)

  /** A record's `data`; `NoData` is JSON `null`. */
  datatype EventData =
    | TextData(content: string)
    | MetaData(info: MetaInfo)
    | GroundingData(grounding: Citations.Grounding)
    | NoData

  /** One streamed record, already decoded from its JSON text. */
  datatype StreamEvent = StreamEvent(messageId: string, eventType: string, data: EventData)

  /** The payload matches the type tag, as every record the server writes does. */
  predicate WellTyped(e: StreamEvent) {
    && (e.eventType == MessageType || e.eventType == ReasoningType ==> e.data.TextData?)
    && (e.eventType == MetaInfoType ==> e.data.MetaData?)
    && (e.eventType == GroundingType ==> e.data.GroundingData?)
  }

  /** `StreamToClient`: one record written as `data: <json>` followed by a blank line. */
  function Frame(json: string): (r: string)
    ensures |r| == |json| + 8
    ensures r[..6] == "data: " && r[6..|r| - 2] == json && r[|r| - 2..] == "\n\n"
  {
    "data: " + json + "\n\n"
  }

  /** The payloads the chat page reads out of one received chunk: split on newlines, `data: ` lines only, up to `[DONE]`. */
  function Payloads(lines: seq<string>): seq<string> {
    if lines == [] then []
    else if |lines[0]| >= 6 && lines[0][..6] == "data: " then
      if lines[0][6..] == "[DONE]" then [] else [lines[0][6..]] + Payloads(lines[1..])
    else Payloads(lines[1..])
  }

  function Unframe(chunk: string): seq<string> {
    Payloads(Strings.Split(chunk, '\n'))
  }

  lemma {:induction false} SplitAfterLine(a: string, b: string, sep: char)
    requires sep !in a
    ensures Strings.Split(a + [sep] + b, sep) == [a] + Strings.Split(b, sep)
  {
    if a != [] {
      var s := a + [sep] + b;
      assert s[0] == a[0] && a[0] != sep;
      assert s[1..] == a[1..] + [sep] + b;
      SplitAfterLine(a[1..], b, sep);
      assert [a[0]] + a[1..] == a;
    } else {
      assert a + [sep] + b == [sep] + b;
      assert ([sep] + b)[1..] == b;
    }
  }

  /** Framing round trip: a JSON text without raw newlines is read back exactly, and alone. */
  lemma FrameRoundTrip(json: string)
    requires '\n' !in json && json != "[DONE]"
    ensures Unframe(Frame(json)) == [json]
  {
    var line := "data: " + json;
    assert '\n' !in line by {
      forall i | 0 <= i < |line| ensures line[i] != '\n' {
        if i >= 6 { assert line[i] == json[i - 6]; }
      }
    }
    var nl: string := "\n";
    assert Frame(json) == line + ['\n'] + nl;
    SplitAfterLine(line, nl, '\n');
    assert nl == "" + ['\n'] + "";
    SplitAfterLine("", "", '\n');
    var lines := Strings.Split(Frame(json), '\n');
    assert lines == [line, "", ""];
    assert line[..6] == "data: " && line[6..] == json;
    assert lines[1..] == ["", ""];
    assert Payloads(lines[1..]) == [] by {
      assert ["", ""][1..] == [""];
      assert [""][1..] == [];
    }
  }

  /** Adds one piece to a list of runs: a piece of the last run's kind extends it, any other starts a new run. */
  function Coalesce(runs: seq<Segment>, piece: Segment): (r: seq<Segment>)
    ensures |r| > 0 && r[|r| - 1].kind == piece.kind
  {
    if |runs| > 0 && runs[|runs| - 1].kind == piece.kind then
      runs[..|runs| - 1] + [Segment(piece.kind, runs[|runs| - 1].text + piece.text)]
    else runs + [piece]
  }

  /** The maximal runs of same-kind pieces, each glued into one segment. */
  function Runs(pieces: seq<Segment>): seq<Segment> {
    if pieces == [] then [] else Coalesce(Runs(pieces[..|pieces| - 1]), pieces[|pieces| - 1])
  }

  /** The segment invariant: no segment has the kind of its predecessor. */
  predicate NoAdjacentSameKind(segs: seq<Segment>) {
    forall i :: 0 < i < |segs| ==> segs[i - 1].kind != segs[i].kind
  }

  /** All text of a list of segments, in order. */
  function Flatten(segs: seq<Segment>): string {
    if segs == [] then "" else Flatten(segs[..|segs| - 1]) + segs[|segs| - 1].text
  }

  lemma FlattenSnoc(segs: seq<Segment>, seg: Segment)
    ensures Flatten(segs + [seg]) == Flatten(segs) + seg.text
  {
    assert (segs + [seg])[..|segs|] == segs;
  }

  lemma {:induction false} RunsNoAdjacentSameKind(pieces: seq<Segment>)
    ensures NoAdjacentSameKind(Runs(pieces))
    ensures pieces != [] ==> |Runs(pieces)| > 0 && Runs(pieces)[|Runs(pieces)| - 1].kind == pieces[|pieces| - 1].kind
  {
    if pieces != [] {
      RunsNoAdjacentSameKind(pieces[..|pieces| - 1]);
    }
  }

  /** Coalescing loses no text: the runs spell out exactly the pieces. */
  lemma {:induction false} RunsFlatten(pieces: seq<Segment>)
    ensures Flatten(Runs(pieces)) == Flatten(pieces)
  {
    if pieces != [] {
      var init, last := pieces[..|pieces| - 1], pieces[|pieces| - 1];
      RunsFlatten(init);
      var runs := Runs(init);
      if |runs| > 0 && runs[|runs| - 1].kind == last.kind {
        var r := Coalesce(runs, last);
        assert r[..|r| - 1] == runs[..|runs| - 1];
        assert Flatten(runs) == Flatten(runs[..|runs| - 1]) + runs[|runs| - 1].text;
      }
    }
  }

  /** Adding one piece to finished runs: the runs of a longer stream extend those of its prefix. */
  lemma RunsSnoc(pieces: seq<Segment>, piece: Segment)
    ensures Runs(pieces + [piece]) == Coalesce(Runs(pieces), piece)
  {
    assert (pieces + [piece])[..|pieces|] == pieces;
  }

  /** Pieces as the server streams them: non-empty text, typed message or reasoning. */
  predicate TextPieces(pieces: seq<Segment>) {
    forall i :: 0 <= i < |pieces| ==> pieces[i].text != "" && (pieces[i].kind == MessageType || pieces[i].kind == ReasoningType)
  }

  /** One text record per piece, all for message `id`. */
  function TextEvents(id: string, pieces: seq<Segment>): (r: seq<StreamEvent>)
    ensures |r| == |pieces|
    ensures forall i :: 0 <= i < |r| ==> r[i] == StreamEvent(id, pieces[i].kind, TextData(pieces[i].text))
  {
    if pieces == [] then []
    else TextEvents(id, pieces[..|pieces| - 1]) + [StreamEvent(id, pieces[|pieces| - 1].kind, TextData(pieces[|pieces| - 1].text))]
  }

  /** The records other than usage records, in order. */
  function TextOnly(es: seq<StreamEvent>): (r: seq<StreamEvent>)
    ensures |r| <= |es|
    ensures forall k :: 0 <= k < |r| ==> r[k].eventType != MetaInfoType
  {
    if es == [] then []
    else TextOnly(es[..|es| - 1]) + (if es[|es| - 1].eventType == MetaInfoType then [] else [es[|es| - 1]])
  }

  /** The records a server wrote for `pieces`: one text record per piece, in order, and `others` usage records. */
  predicate Wrote(forwarded: seq<StreamEvent>, pieces: seq<Segment>, others: nat, id: string) {
    TextOnly(forwarded) == TextEvents(id, pieces) && |forwarded| == |pieces| + others
  }

  lemma TextOnlySnoc(es: seq<StreamEvent>, e: StreamEvent)
    ensures TextOnly(es + [e]) == TextOnly(es) + (if e.eventType == MetaInfoType then [] else [e])
  {
    assert (es + [e])[..|es|] == es;
  }

  lemma TextEventsSnoc(id: string, pieces: seq<Segment>, piece: Segment)
    ensures TextEvents(id, pieces + [piece]) == TextEvents(id, pieces) + [StreamEvent(id, piece.kind, TextData(piece.text))]
  {
    assert (pieces + [piece])[..|pieces|] == pieces;
  }

  /**
   * Regrouping a concatenation. The fold lemmas in `Gemini` and `OpenAI` call this rather than asserting
   * the instance inline, which keeps the fact out of their larger proof contexts.
   */
  lemma AppendAssoc(a: seq<Segment>, b: seq<Segment>, c: seq<Segment>)
    ensures a + b + c == a + (b + c)
  {
  }

  /** A single record is kept exactly when it is not a usage record. */
  lemma TextOnlyOne(e: StreamEvent)
    ensures TextOnly([e]) == if e.eventType == MetaInfoType then [] else [e]
  {
  }

  /** The filter distributes over concatenation, so it keeps the other records in order and with their multiplicity. */
  lemma {:induction false} TextOnlyAppend(a: seq<StreamEvent>, b: seq<StreamEvent>)
    ensures TextOnly(a + b) == TextOnly(a) + TextOnly(b)
  {
    if b == [] {
      assert a + b == a;
    } else {
      var init := b[..|b| - 1];
      var e := b[|b| - 1];
      TextOnlyAppend(a, init);
      assert a + b == (a + init) + [e];
      TextOnlySnoc(a + init, e);
      assert b == init + [e];
      TextOnlySnoc(init, e);
    }
  }

  /** A stream without usage records is its own text part. */
  lemma {:induction false} TextOnlyAll(es: seq<StreamEvent>)
    requires |TextOnly(es)| == |es|
    ensures TextOnly(es) == es
  {
    if es != [] {
      var init := es[..|es| - 1];
      if es[|es| - 1].eventType != MetaInfoType {
        TextOnlyAll(init);
        assert init + [es[|es| - 1]] == es;
      }
    }
  }
}

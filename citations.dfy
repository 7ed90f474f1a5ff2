/**
 * The citation annotator of the chat page (`applyCitations`): for each
 * grounding support, in order, it appends inline citation markers after the
 * first occurrence of the supported text.
 */
module Citations {
  import opened Wrappers
  import Strings

  datatype Web = Web(uri: string, title: string)

  /** A search result the answer is grounded on; `web` may be absent. */
  datatype Chunk = Chunk(web: Option<Web>)

  /** A span of the answer (`segment.text`) and the chunks that support it. */
  datatype Support = Support(segmentText: string, startIndex: Option<int>, endIndex: int, chunkIndices: seq<int>)

  datatype Grounding = Grounding(
    entryPoint: Option<string>,
    chunks: seq<Chunk>,
    supports: seq<Support>,
    queries: seq<string>)

  /** True when chunk `i` exists and carries a non-empty web uri (`chunk?.web?.uri`). */
  predicate HasUri(i: int, chunks: seq<Chunk>) {
    0 <= i < |chunks| && chunks[i].web.Some? && chunks[i].web.value.uri != ""
  }

  /** The marker for chunk index `i`: a link `[[i+1]](uri)` when the chunk has a uri, `[i+1]` otherwise. */
  function Marker(i: int, chunks: seq<Chunk>): (r: string)
    ensures HasUri(i, chunks) ==>
      r == "[[" + Strings.IntToString(i + 1) + "]](" + chunks[i].web.value.uri + ")"
    ensures !HasUri(i, chunks) ==> r == "[" + Strings.IntToString(i + 1) + "]"
    ensures |r| >= 3 && r[0] == '['
  {
    var n := Strings.IntToString(i + 1);
    if HasUri(i, chunks) then "[[" + n + "]](" + chunks[i].web.value.uri + ")" else "[" + n + "]"
  }

  /** The markers of all indices, joined with no separator. */
  function Markers(indices: seq<int>, chunks: seq<Chunk>): (r: string)
    ensures r == "" <==> indices == []
  {
    if indices == [] then "" else Marker(indices[0], chunks) + Markers(indices[1..], chunks)
  }

  /**
   * One support: when its text is non-empty and it cites at least one chunk,
   * the first occurrence of the text is followed by a space and the markers.
   */
  function ApplySupport(text: string, s: Support, chunks: seq<Chunk>): (r: string)
    ensures s.segmentText == "" || s.chunkIndices == [] ==> r == text
    ensures Strings.FindFirst(text, s.segmentText).None? ==> r == text
  {
    if s.segmentText == "" then text
    else
      var markers := Markers(s.chunkIndices, chunks);
      if markers == "" then text
      else Strings.ReplaceFirst(text, s.segmentText, s.segmentText + " " + markers)
  }

  /** A support that applies puts a space and its markers right after the first occurrence of its text. */
  lemma ApplySupportSplices(text: string, s: Support, chunks: seq<Chunk>, k: nat)
    requires s.segmentText != "" && s.chunkIndices != []
    requires Strings.FindFirst(text, s.segmentText) == Some(k)
    ensures k + |s.segmentText| <= |text|
    ensures ApplySupport(text, s, chunks)
      == text[..k] + s.segmentText + " " + Markers(s.chunkIndices, chunks) + text[k + |s.segmentText|..]
  {
    var markers := Markers(s.chunkIndices, chunks);
    assert ApplySupport(text, s, chunks) == text[..k] + (s.segmentText + " " + markers) + text[k + |s.segmentText|..];
    Regroup(text[..k], s.segmentText, " ", markers, text[k + |s.segmentText|..]);
  }

  /** Regrouping the spliced text; called rather than asserted inline to keep the splice proof small. */
  lemma Regroup(a: string, b: string, c: string, d: string, e: string)
    ensures a + (b + c + d) + e == a + b + c + d + e
  {
  }

  /** `applyCitations(text, supports, chunks)`: the supports applied one after another, in order. */
  function ApplyCitations(text: string, supports: seq<Support>, chunks: seq<Chunk>): (r: string)
    ensures supports == [] ==> r == text
    decreases |supports|
  {
    if supports == [] then text
    else ApplyCitations(ApplySupport(text, supports[0], chunks), supports[1..], chunks)
  }

  /** Supports are processed strictly in order: annotating with `a + b` is annotating with `a`, then with `b`. */
  lemma {:induction false} ApplyCitationsSequential(text: string, a: seq<Support>, b: seq<Support>, chunks: seq<Chunk>)
    ensures ApplyCitations(text, a + b, chunks) == ApplyCitations(ApplyCitations(text, a, chunks), b, chunks)
    decreases |a|
  {
    if a != [] {
      assert (a + b)[1..] == a[1..] + b;
      ApplyCitationsSequential(ApplySupport(text, a[0], chunks), a[1..], b, chunks);
    } else {
      assert a + b == b;
    }
  }

  /** Supports whose text never occurs, or that cite no chunk, leave the text as it was. */
  lemma {:induction false} ApplyCitationsInert(text: string, supports: seq<Support>, chunks: seq<Chunk>)
    requires forall k :: 0 <= k < |supports| ==>
      supports[k].chunkIndices == [] || Strings.FindFirst(text, supports[k].segmentText).None?
    ensures ApplyCitations(text, supports, chunks) == text
    decreases |supports|
  {
    if supports != [] {
      ApplyCitationsInert(text, supports[1..], chunks);
    }
  }

  /**
   * A single support citing chunk 0, which has a web uri: the first occurrence
   * of the supported text gains " [[1]](uri)" right after it (for instance
   * "The sky is blue." with "sky is blue" becomes "The sky is blue [[1]](uri).").
   */
  lemma {:induction false} CiteOneLinkedChunk(text: string, seg: string, k: nat, uri: string, title: string, end: int)
    requires seg != "" && uri != ""
    requires Strings.FindFirst(text, seg) == Some(k)
    ensures ApplyCitations(text, [Support(seg, None, end, [0])], [Chunk(Some(Web(uri, title)))])
         == text[..k] + seg + " [[1]](" + uri + ")" + text[k + |seg|..]
  {
    var s := Support(seg, None, end, [0]);
    var chunks := [Chunk(Some(Web(uri, title)))];
    var link := "[[1]](" + uri + ")";
    assert Markers([0], chunks) == link by {
      assert Strings.IntToString(0 + 1) == "1";
      assert Markers([0], chunks) == Marker(0, chunks) + Markers([], chunks);
    }
    assert ApplyCitations(text, [s], chunks) == ApplySupport(text, s, chunks);
    ApplySupportSplices(text, s, chunks, k);
    LinkSpliced(text[..k] + seg, link, uri, text[k + |seg|..]);
  }

  /** The spliced marker reads as one piece of text. */
  lemma LinkSpliced(before: string, link: string, uri: string, after: string)
    requires link == "[[1]](" + uri + ")"
    ensures before + " " + link + after == before + " [[1]](" + uri + ")" + after
  {
  }
}

/**
 * Retrying a message and deleting the last message of the active path.
 */
module ChatEdit {
  import opened Wrappers
  import opened Wire
  import opened ChatTree
  import opened ChatStream
  import Strings

  // ---------------------------------------------------------------------
  // retryMessage
  // ---------------------------------------------------------------------

  /** The path a retry keeps: before an assistant message, or up to and including any other. */
  function KeptPath(path: seq<Message>, pos: nat): (r: seq<Message>)
    requires pos < |path|
    ensures path[pos].role == AssistantRole ==> r == path[..pos]
    ensures path[pos].role != AssistantRole ==> r == path[..pos + 1]
  {
    if path[pos].role == AssistantRole then path[..pos] else path[..pos + 1]
  }

  function Last<T>(s: seq<T>): T
    requires s != []
  {
    s[|s| - 1]
  }

  /**
   * What `retryMessage` does once the path is cut: throw on a missing
   * message or segment, warn when the cut path ends in an answer, or call
   * `sendMessage` again with a text, the cut path and the id to reuse.
   */
  datatype RetryPlan = RetryThrew | RetryWarned(notice: string) | Resend(text: string, kept: seq<Message>, messageId: string)

  const RetryNotice: string := "Something wrong, please try again."

  /** `retryMessage(path[pos])`; the page's path becomes `KeptPath(path, pos)` in every case. */
  function PlanRetry(path: seq<Message>, pos: nat): (r: RetryPlan)
    requires pos < |path|
    ensures r.Resend? <==> (var kept := KeptPath(path, pos);
      kept != [] && Last(kept).role != AssistantRole && Last(kept).content != [])
    ensures r.RetryWarned? <==> (var kept := KeptPath(path, pos); kept != [] && Last(kept).role == AssistantRole)
    ensures r.RetryWarned? ==> r.notice == RetryNotice
    ensures r.Resend? ==> (r.kept == KeptPath(path, pos) && r.messageId == Last(r.kept).id
      && r.text == Last(Last(r.kept).content).text)
  {
    var kept := KeptPath(path, pos);
    if kept == [] then RetryThrew
    else
      var last := Last(kept);
      if last.role == AssistantRole then RetryWarned(RetryNotice)
      else if last.content == [] then RetryThrew
      else Resend(Last(last.content).text, kept, last.id)
  }

  /**
   * A retry resends the last kept message: under its id, with the text of
   * its last segment, and with the saved ids of the history before it
   * (never the resent message's own id).
   */
  lemma RetryRequest(v: View, kept: seq<Message>, conversationId: string, model: Option<ModelChoice>,
    freshId: string, now: int, reply: Reply)
    requires kept != [] && Last(kept).content != [] && Last(kept).id != ""
    requires reply.ReplyEvents? ==> AllWellTyped(reply.events)
    requires !Strings.IsBlank(Last(Last(kept).content).text) && conversationId != "" && ModelReady(model)
    ensures Send(v.(path := kept), Last(Last(kept).content).text, true, Some(kept), Last(kept).id, conversationId, true, model, freshId, now, reply).request
      == Some(MessageRequest(Last(kept).id, conversationId, model.value.providerId, model.value.modelId,
        RequestPath(kept[..|kept| - 1], Last(kept).id), Last(Last(kept).content).text))
  {
    var last := Last(kept);
    var init := kept[..|kept| - 1];
    assert RequestPath(kept, last.id) == RequestPath(init, last.id) by {
      assert kept == init + [last];
      RequestPathSnoc(init, last, last.id);
    }
    SendRetryRequest(v.(path := kept), Last(last.content).text, kept, last.id, conversationId, model, freshId, now, reply);
  }

  /**
   * Retrying an answer whose question was cut away too, or an answer
   * following an answer, only warns; retrying the first message when it is
   * an answer throws.
   */
  lemma RetryRefusals(path: seq<Message>, pos: nat)
    requires pos < |path| && path[pos].role == AssistantRole
    ensures pos == 0 ==> KeptPath(path, pos) == [] && PlanRetry(path, pos) == RetryThrew
    ensures pos > 0 && path[pos - 1].role == AssistantRole ==>
      KeptPath(path, pos) == path[..pos] && PlanRetry(path, pos) == RetryWarned(RetryNotice)
    ensures pos > 0 && path[pos - 1].role != AssistantRole ==>
      PlanRetry(path, pos).Resend? || (PlanRetry(path, pos) == RetryThrew && path[pos - 1].content == [])
  {
  }

  // ---------------------------------------------------------------------
  // deleteMessage
  // ---------------------------------------------------------------------

  /** `children.filter(child => child.id !== id)`. */
  function Without(cs: seq<string>, id: string): (r: seq<string>)
    ensures |r| <= |cs|
    ensures forall x :: x in r <==> x in cs && x != id
  {
    if cs == [] then []
    else Without(cs[..|cs| - 1], id) + (if cs[|cs| - 1] != id then [cs[|cs| - 1]] else [])
  }

  /** The sibling `deleteMessage` moves to: the one before the deleted child, or else the first remaining one. */
  function SiblingAfterDelete(cs: seq<string>, id: string): (r: Option<string>)
    ensures r.Some? ==> r.value in cs && r.value != id
    ensures r.None? <==> (Without(cs, id) == [] || (IndexOf(cs, id) > 0 && IndexOf(cs, id) - 1 >= |Without(cs, id)|))
  {
    var rest := Without(cs, id);
    var idx := IndexOf(cs, id);
    if rest == [] then None
    else if idx > 0 then (if idx - 1 < |rest| then Some(rest[idx - 1]) else None)
    else Some(rest[0])
  }

  lemma {:induction false} WithoutAbsent(cs: seq<string>, id: string)
    requires id !in cs
    ensures Without(cs, id) == cs
  {
    if cs != [] {
      WithoutAbsent(cs[..|cs| - 1], id);
      assert cs == cs[..|cs| - 1] + [cs[|cs| - 1]];
    }
  }

  lemma SpliceSnoc<T>(cs: seq<T>, k: nat)
    requires k < |cs| - 1
    ensures cs[..|cs| - 1][..k] + cs[..|cs| - 1][k + 1..] + [cs[|cs| - 1]] == cs[..k] + cs[k + 1..]
  {
  }

  /** With distinct children, the filter removes exactly the deleted child, leaving the others in order. */
  lemma {:induction false} WithoutRemovesOne(cs: seq<string>, id: string)
    requires Distinct(cs) && id in cs
    ensures Without(cs, id) == cs[..IndexOf(cs, id)] + cs[IndexOf(cs, id) + 1..]
  {
    var k := IndexOf(cs, id);
    var init := cs[..|cs| - 1];
    if k == |cs| - 1 {
      assert id !in init by {
        forall j | 0 <= j < |init| ensures init[j] != id { assert cs[j] != cs[k]; }
      }
      WithoutAbsent(init, id);
    } else {
      assert init[k] == id;
      assert Distinct(init) by {
        forall a, b | 0 <= a < b < |init| ensures init[a] != init[b] { assert init[a] == cs[a] && init[b] == cs[b]; }
      }
      WithoutRemovesOne(init, id);
      assert IndexOf(init, id) == k;
      assert cs[|cs| - 1] != id by { assert cs[k] != cs[|cs| - 1]; }
      SpliceSnoc(cs, k);
    }
  }

  /**
   * With distinct children, deleting a child moves to the one before it, or,
   * when the first child was deleted, to the one after it; an only child
   * leaves no sibling.
   */
  lemma SiblingAfterDeleteChoice(cs: seq<string>, id: string)
    requires Distinct(cs) && id in cs
    ensures IndexOf(cs, id) > 0 ==> SiblingAfterDelete(cs, id) == Some(cs[IndexOf(cs, id) - 1])
    ensures IndexOf(cs, id) == 0 && |cs| > 1 ==> SiblingAfterDelete(cs, id) == Some(cs[1])
    ensures |cs| == 1 ==> SiblingAfterDelete(cs, id) == None
  {
    WithoutRemovesOne(cs, id);
    var k := IndexOf(cs, id);
    var rest := Without(cs, id);
    if k > 0 {
      assert rest[k - 1] == cs[k - 1];
    }
  }

  /** The map after removing `id`, with `id` dropped from its parent's children. */
  function DeleteNodes(nodes: NodeMap, last: Message): NodeMap {
    var without := nodes - {last.id};
    if last.parentId != "" && last.parentId in without then
      without[last.parentId := without[last.parentId].(children := Without(without[last.parentId].children, last.id))]
    else without
  }

  /** The sibling the path moves to, resolved in the new map. */
  function DeleteSibling(nodes: NodeMap, last: Message): Option<string> {
    var without := nodes - {last.id};
    if last.parentId != "" && last.parentId in without then
      var sib := SiblingAfterDelete(without[last.parentId].children, last.id);
      if sib.Some? && sib.value in DeleteNodes(nodes, last) then sib else None
    else None
  }

  /**
   * `deleteMessage`: when the server accepted the deletion (`deleted`), the
   * last path message leaves the map and its parent's children, and the
   * path moves to a sibling and down its first children.
   */
  function Delete(v: View, deleted: bool): View {
    if v.path == [] || !deleted then v
    else
      var last := v.path[|v.path| - 1];
      var nodes := DeleteNodes(v.nodes, last);
      var sib := DeleteSibling(v.nodes, last);
      var tail := if sib.Some? then [nodes[sib.value].msg] + FirstChildChain(nodes, nodes[sib.value], |nodes|) else [];
      v.(path := v.path[..|v.path| - 1] + tail, nodes := nodes)
  }

  /**
   * What a deletion removes: the last message's id leaves the map and its
   * parent's children; every other node stays; the path keeps everything
   * before the deleted message. A failed request or an empty path changes nothing.
   */
  lemma DeleteEffect(v: View, deleted: bool)
    ensures v.path == [] || !deleted ==> Delete(v, deleted) == v
    ensures v.path != [] && deleted ==>
      var last := v.path[|v.path| - 1];
      var r := Delete(v, deleted);
      && r.nodes.Keys == v.nodes.Keys - {last.id}
      && (forall id :: id in r.nodes ==> r.nodes[id].msg == v.nodes[id].msg)
      && (last.parentId != "" && last.parentId in r.nodes ==>
            r.nodes[last.parentId].children == Without(v.nodes[last.parentId].children, last.id)
            && last.id !in r.nodes[last.parentId].children)
      && (forall id :: id in r.nodes && id != last.parentId ==> r.nodes[id] == v.nodes[id])
      && r.path[..|v.path| - 1] == v.path[..|v.path| - 1]
  {
  }

  /**
   * Where a deletion leaves the path: without a sibling it just loses its
   * last message; otherwise the sibling takes that place and its first
   * children follow it down to a leaf (unless the fuel runs out).
   */
  lemma DeletePath(v: View)
    requires v.path != [] && KeysMatch(v.nodes)
    ensures var last := v.path[|v.path| - 1];
      var r := Delete(v, true);
      var sib := DeleteSibling(v.nodes, last);
      && (sib.None? ==> r.path == v.path[..|v.path| - 1])
      && (sib.Some? ==>
            && sib.value in r.nodes
            && |r.path| >= |v.path|
            && r.path[..|v.path| - 1] == v.path[..|v.path| - 1]
            && r.path[|v.path| - 1] == r.nodes[sib.value].msg
            && FirstChildSteps(r.nodes, r.path[|v.path| - 1..])
            && (|r.path| - |v.path| < |r.nodes| ==> EndsAtLeaf(r.nodes, r.path[|v.path| - 1..])))
  {
    var last := v.path[|v.path| - 1];
    var nodes := DeleteNodes(v.nodes, last);
    var sib := DeleteSibling(v.nodes, last);
    if sib.Some? {
      DeleteNodesKeepKeys(v.nodes, last);
      var tail := [nodes[sib.value].msg] + FirstChildChain(nodes, nodes[sib.value], |nodes|);
      NodeDescent(nodes, sib.value);
      var r := Delete(v, true);
      assert r.path == v.path[..|v.path| - 1] + tail;
      assert r.path[|v.path| - 1..] == tail;
    }
  }

  lemma DeleteNodesKeepKeys(nodes: NodeMap, last: Message)
    requires KeysMatch(nodes)
    ensures KeysMatch(DeleteNodes(nodes, last))
  {
  }

  /** A node followed by its first-child chain: first-child steps, ending at a leaf unless the fuel ran out. */
  lemma NodeDescent(nodes: NodeMap, id: string)
    requires KeysMatch(nodes) && id in nodes
    ensures var tail := [nodes[id].msg] + FirstChildChain(nodes, nodes[id], |nodes|);
      && FirstChildSteps(nodes, tail)
      && (|tail| - 1 < |nodes| ==> EndsAtLeaf(nodes, tail))
  {
    var n := nodes[id];
    var chain := FirstChildChain(nodes, n, |nodes|);
    var tail := [n.msg] + chain;
    FirstChildChainSteps(nodes, n, |nodes|);
    forall i | 0 < i < |tail| ensures FirstChildOf(nodes, tail[i - 1], tail[i]) {
      if i > 1 {
        assert tail[i - 1] == chain[i - 2] && tail[i] == chain[i - 1];
      }
    }
    if |chain| < |nodes| && chain != [] {
      assert tail[|tail| - 1] == chain[|chain| - 1];
    }
  }

  /**
   * On a map whose children all resolve and point back, the
   * path moves to the sibling `SiblingAfterDelete` picks: with distinct
   * children, the previous one, or the new first one when the first was deleted.
   */
  lemma DeleteMovesToSibling(v: View)
    requires v.path != [] && ChildrenLinked(v.nodes)
    requires var last := v.path[|v.path| - 1]; last.parentId != "" && last.parentId in v.nodes && last.parentId != last.id
    ensures var last := v.path[|v.path| - 1];
      var cs := v.nodes[last.parentId].children;
      && DeleteSibling(v.nodes, last) == SiblingAfterDelete(cs, last.id)
      && (Distinct(cs) && last.id in cs && IndexOf(cs, last.id) > 0 ==>
            DeleteSibling(v.nodes, last) == Some(cs[IndexOf(cs, last.id) - 1]))
      && (Distinct(cs) && last.id in cs && IndexOf(cs, last.id) == 0 && |cs| > 1 ==>
            DeleteSibling(v.nodes, last) == Some(cs[1]))
      && (cs == [last.id] ==> DeleteSibling(v.nodes, last) == None)
  {
    var last := v.path[|v.path| - 1];
    var cs := v.nodes[last.parentId].children;
    var sib := SiblingAfterDelete(cs, last.id);
    if sib.Some? {
      var j :| 0 <= j < |cs| && cs[j] == sib.value;
      assert sib.value in v.nodes;
    }
    if Distinct(cs) && last.id in cs {
      SiblingAfterDeleteChoice(cs, last.id);
    }
    if cs == [last.id] {
      assert Distinct(cs);
      SiblingAfterDeleteChoice(cs, last.id);
    }
  }

  lemma DeleteNodesKeys(nodes: NodeMap, last: Message)
    requires KeysMatch(nodes) && ChildrenPointBack(nodes)
    ensures KeysMatch(DeleteNodes(nodes, last)) && ChildrenPointBack(DeleteNodes(nodes, last))
  {
    var r := DeleteNodes(nodes, last);
    forall p, i | p in r && 0 <= i < |r[p].children| && r[p].children[i] in r
      ensures r[r[p].children[i]].msg.parentId == p
    {
      var c := r[p].children[i];
      assert c in nodes[p].children;
      var j :| 0 <= j < |nodes[p].children| && nodes[p].children[j] == c;
    }
  }

  /**
   * Deleting keeps the active path a parent chain: the sibling hangs from
   * the deleted message's parent, and its descent from it.
   */
  lemma DeleteKeepsChain(v: View, deleted: bool)
    requires KeysMatch(v.nodes) && ChildrenPointBack(v.nodes) && PathChained(v.path)
    ensures PathChained(Delete(v, deleted).path)
    ensures KeysMatch(Delete(v, deleted).nodes) && ChildrenPointBack(Delete(v, deleted).nodes)
  {
    if v.path != [] && deleted {
      var k := |v.path| - 1;
      var last := v.path[k];
      var nodes := DeleteNodes(v.nodes, last);
      DeleteNodesKeys(v.nodes, last);
      var sib := DeleteSibling(v.nodes, last);
      if sib.Some? {
        SiblingHangsFromParent(v.nodes, last);
        DescentChained(nodes, sib.value, |nodes|);
        SpliceBelow(v.path, k, [nodes[sib.value].msg] + FirstChildChain(nodes, nodes[sib.value], |nodes|));
      } else {
        assert v.path[..k] + [] == v.path[..k];
        forall i | 0 < i < k ensures ChildOf(v.path[..k][i - 1], v.path[..k][i]) {
          assert v.path[..k][i - 1] == v.path[i - 1] && v.path[..k][i] == v.path[i];
        }
      }
    }
  }

  /** The sibling a deletion moves to hangs from the deleted message's parent. */
  lemma SiblingHangsFromParent(nodes: NodeMap, last: Message)
    requires ChildrenPointBack(nodes) && DeleteSibling(nodes, last).Some?
    ensures DeleteSibling(nodes, last).value in DeleteNodes(nodes, last)
    ensures DeleteNodes(nodes, last)[DeleteSibling(nodes, last).value].msg.parentId == last.parentId
  {
    var s := DeleteSibling(nodes, last).value;
    var cs := (nodes - {last.id})[last.parentId].children;
    assert s in cs;
    var j :| 0 <= j < |cs| && cs[j] == s;
    assert nodes[s].msg.parentId == last.parentId;
  }
}

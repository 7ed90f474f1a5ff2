/**
 * The chat page's state and its handlers, step by step: the page holds the
 * active path, the node map, the expanded reasoning panels and the
 * `isInterference` flag, and each handler updates them as the page does.
 * Each handler is proved equal to the function of the same name in
 * ChatTree, ChatStream or ChatEdit, where its properties are proved.
 */
module ChatPage {
  import opened Wrappers
  import opened Wire
  import Strings
  import opened ChatTree
  import opened ChatStream
  import opened ChatEdit

  /** The `while` descent through first children shared by `switchNode` and `deleteMessage`. */
  method Descend(nodes: NodeMap, n: TreeNode) returns (r: seq<Message>)
    ensures r == FirstChildChain(nodes, n, |nodes|)
  {
    r := [];
    var cur := n;
    var fuel: nat := |nodes|;
    while fuel > 0 && |cur.children| > 0 && cur.children[0] in nodes
      invariant r + FirstChildChain(nodes, cur, fuel) == FirstChildChain(nodes, n, |nodes|)
      decreases fuel
    {
      var child := nodes[cur.children[0]];
      assert FirstChildChain(nodes, cur, fuel) == [child.msg] + FirstChildChain(nodes, child, fuel - 1);
      r := r + [child.msg];
      cur := child;
      fuel := fuel - 1;
    }
  }

  /** `processTree`'s first loop: index every message (the last one wins per id) and find the latest. */
  method IndexMessages(ms: seq<Message>) returns (m: NodeMap, latest: nat)
    ensures m == IndexNodes(ms)
    ensures ms != [] ==> latest == Latest(ms)
  {
    m := map[];
    latest := 0;
    var i := 0;
    while i < |ms|
      invariant 0 <= i <= |ms|
      invariant m == IndexNodes(ms[..i])
      invariant i > 0 ==> latest == Latest(ms[..i])
    {
      assert ms[..i + 1][..i] == ms[..i];
      m := m[ms[i].id := TreeNode(Annotate(ms[i]), [])];
      if i == 0 || ms[i].createdAt >= ms[latest].createdAt {
        latest := i;
      }
      i := i + 1;
    }
    assert ms[..|ms|] == ms;
  }

  /** `processTree`'s second loop: push each message onto its parent's children and re-sort them by time. */
  method LinkMessages(indexed: NodeMap, ms: seq<Message>) returns (m: NodeMap)
    ensures m == LinkAll(indexed, ms)
  {
    m := indexed;
    var i := 0;
    while i < |ms|
      invariant 0 <= i <= |ms|
      invariant m == LinkAll(indexed, ms[..i])
    {
      assert ms[..i + 1][..i] == ms[..i];
      var child := ms[i];
      if child.parentId != "" && child.parentId in m {
        var parent := m[child.parentId];
        m := m[child.parentId := parent.(children := InsertSorted(parent.children, child.id, m))];
      }
      i := i + 1;
    }
    assert ms[..|ms|] == ms;
  }

  /** `processTree`'s last loop: put each message in front of the path, then move to its parent. */
  method WalkUp(m: NodeMap, start: Message, bound: nat) returns (up: seq<Message>)
    ensures up == Ancestry(m, start, bound)
  {
    var cur := start;
    var fuel: nat := bound;
    up := [];
    while cur.parentId != "" && cur.parentId in m && fuel > 0
      invariant Ancestry(m, cur, fuel) + up == Ancestry(m, start, bound)
      decreases fuel
    {
      var parent := m[cur.parentId].msg;
      assert Ancestry(m, cur, fuel) == Ancestry(m, parent, fuel - 1) + [cur];
      up := [cur] + up;
      cur := parent;
      fuel := fuel - 1;
    }
    up := [cur] + up;
  }

  /** The records of one response, one reducer step each. */
  method Consume(s0: Ingest, es: seq<StreamEvent>, userId: string, snapshot: set<string>, now: int) returns (s: Ingest)
    requires AllWellTyped(es)
    ensures s == Reduce(s0, es, userId, snapshot, now)
  {
    s := s0;
    var i := 0;
    while i < |es|
      invariant 0 <= i <= |es|
      invariant s == Reduce(s0, es[..i], userId, snapshot, now)
    {
      assert es[..i + 1][..i] == es[..i];
      s := Step(s, es[i], userId, snapshot, now);
      i := i + 1;
    }
    assert es[..|es|] == es;
  }

  /** Reading the reply: each record through the reducer, then `isInterference` cleared. */
  method ReadReply(started: seq<Message>, nodes: NodeMap, expanded: set<string>, userId: string, now: int, reply: Reply)
    returns (after: View)
    requires reply.ReplyEvents? ==> AllWellTyped(reply.events)
    ensures after == Deliver(started, nodes, expanded, userId, now, reply)
  {
    if reply.ReplyEvents? {
      var fin := Consume(Ingest(started, nodes, expanded, "", "", ""), reply.events, userId, expanded, now);
      after := View(fin.path, fin.nodes, fin.expanded, false);
    } else {
      after := View(started, nodes, expanded, false);
    }
  }

  /** The steps of `sendMessage` on the page state as a value. */
  method Launch(v: View, text: string, retry: bool, pathParam: Option<seq<Message>>, messageId: string,
    conversationId: string, hasToken: bool, model: Option<ModelChoice>, freshId: string, now: int, reply: Reply)
    returns (out: Sent)
    requires reply.ReplyEvents? ==> AllWellTyped(reply.events)
    ensures out == Send(v, text, retry, pathParam, messageId, conversationId, hasToken, model, freshId, now, reply)
  {
    if Strings.Trim(text) == "" || conversationId == "" || !hasToken {
      return Sent(v, None);
    }
    if !ModelReady(model) {
      return Sent(v.(busy := true), None);
    }
    var userId := if messageId != "" then messageId else freshId;
    var started := StartPath(v, text, retry, pathParam, userId, model.value.reasoning, now);
    var startNodes := StartNodes(v, text, retry, userId, now);
    var request := MessageRequest(userId, conversationId, model.value.providerId, model.value.modelId,
      RequestPath(started, userId), text);
    var after := ReadReply(started, startNodes, v.expanded, userId, now, reply);
    out := Sent(after, Some(request));
  }

  class Page {
    var path: seq<Message>
    var nodes: NodeMap
    var expanded: set<string>
    var busy: bool

    /** The page state as a value. */
    function Snapshot(): View
      reads this
    {
      View(path, nodes, expanded, busy)
    }

    constructor ()
      ensures Snapshot() == View([], map[], {}, false)
    {
      path := [];
      nodes := map[];
      expanded := {};
      busy := false;
    }

    /**
     * `processTree`: index the fetched messages (last one wins per id) while
     * tracking the latest, link children in time order, then walk up from
     * the latest message through its parents.
     */
    method ProcessTree(ms: seq<Message>)
      modifies this
      ensures nodes == BuildTree(ms) && path == InitialPath(ms)
      ensures expanded == old(expanded) && busy == old(busy)
    {
      var indexed, latest := IndexMessages(ms);
      var linked := LinkMessages(indexed, ms);
      nodes := linked;
      if ms == [] {
        path := [];
      } else {
        path := WalkUp(linked, Annotate(ms[latest]), |ms|);
      }
    }

    /** `toggleReasoning`: open a closed panel, close an open one. */
    method ToggleReasoning(id: string)
      modifies this
      ensures expanded == Toggle(old(expanded), id)
      ensures path == old(path) && nodes == old(nodes) && busy == old(busy)
    {
      if id in expanded {
        expanded := expanded - {id};
      } else {
        expanded := expanded + {id};
      }
    }

    /** `switchNode(path[pos], isNext)`: move to the neighbouring sibling and down its first children. */
    method SwitchNode(pos: nat, isNext: bool)
      requires pos < |path|
      modifies this
      ensures path == SwitchedPath(old(path), nodes, pos, isNext)
      ensures nodes == old(nodes) && expanded == old(expanded) && busy == old(busy)
    {
      var m := path[pos];
      if m.parentId == "" || m.parentId !in nodes {
        return;
      }
      var cs := nodes[m.parentId].children;
      var index := IndexOf(cs, m.id);
      if !isNext && index == 0 {
        return;
      }
      if isNext && index == |cs| - 1 {
        return;
      }
      var j := if isNext then index + 1 else index - 1;
      if j < 0 || j >= |cs| || cs[j] !in nodes {
        return;
      }
      var k := FindById(path, m.id);
      var sibling := nodes[cs[j]];
      var tail := Descend(nodes, sibling);
      path := path[..k] + [sibling.msg] + tail;
    }

    /**
     * `sendMessage`: the early returns, the user node and the placeholder,
     * then one reducer step per streamed record, then `isInterference`
     * cleared. `reply` stands for the server's answer.
     */
    method SendMessage(text: string, retry: bool, pathParam: Option<seq<Message>>, messageId: string,
      conversationId: string, hasToken: bool, model: Option<ModelChoice>, freshId: string, now: int, reply: Reply)
      returns (request: Option<MessageRequest>)
      requires reply.ReplyEvents? ==> AllWellTyped(reply.events)
      modifies this
      ensures Sent(Snapshot(), request)
        == Send(old(Snapshot()), text, retry, pathParam, messageId, conversationId, hasToken, model, freshId, now, reply)
    {
      var out := Launch(Snapshot(), text, retry, pathParam, messageId, conversationId, hasToken, model, freshId, now, reply);
      path, nodes, expanded, busy := out.view.path, out.view.nodes, out.view.expanded, out.view.busy;
      request := out.request;
    }

    /**
     * `retryMessage(path[pos])`: cut the path, then resend the last kept
     * message unless the cut path ends in an answer or lacks what is read.
     */
    method RetryMessage(pos: nat, conversationId: string, hasToken: bool, model: Option<ModelChoice>,
      freshId: string, now: int, reply: Reply)
      returns (plan: RetryPlan, request: Option<MessageRequest>)
      requires pos < |path|
      requires reply.ReplyEvents? ==> AllWellTyped(reply.events)
      modifies this
      ensures plan == PlanRetry(old(path), pos)
      ensures !plan.Resend? ==> Snapshot() == old(Snapshot()).(path := KeptPath(old(path), pos)) && request == None
      ensures plan.Resend? ==> (Sent(Snapshot(), request)
        == Send(old(Snapshot()).(path := plan.kept), plan.text, true, Some(plan.kept), plan.messageId,
                conversationId, hasToken, model, freshId, now, reply))
    {
      plan := PlanRetry(path, pos);
      path := KeptPath(path, pos);
      request := None;
      if plan.Resend? {
        request := SendMessage(plan.text, true, Some(plan.kept), plan.messageId, conversationId, hasToken, model, freshId, now, reply);
      }
    }

    /**
     * `deleteMessage`: once the server accepted (`deleted`), drop the last
     * path message from the map and from its parent's children, and move
     * the path to a sibling and down its first children.
     */
    method DeleteMessage(deleted: bool)
      modifies this
      ensures Snapshot() == Delete(old(Snapshot()), deleted)
    {
      if path == [] || !deleted {
        return;
      }
      var last := path[|path| - 1];
      var newMap := nodes - {last.id};
      var sibling: Option<string> := None;
      if last.parentId != "" && last.parentId in newMap {
        var parent := newMap[last.parentId];
        var index := IndexOf(parent.children, last.id);
        var rest := Without(parent.children, last.id);
        newMap := newMap[last.parentId := parent.(children := rest)];
        if |rest| > 0 {
          if index > 0 {
            if index - 1 < |rest| {
              sibling := Some(rest[index - 1]);
            }
          } else {
            sibling := Some(rest[0]);
          }
        }
        assert sibling == SiblingAfterDelete(parent.children, last.id);
      }
      assert newMap == DeleteNodes(nodes, last);
      var found := if sibling.Some? && sibling.value in newMap then sibling else None;
      assert found == DeleteSibling(nodes, last);
      var newPath := path[..|path| - 1];
      if found.Some? {
        var tail := Descend(newMap, newMap[found.value]);
        newPath := newPath + ([newMap[found.value].msg] + tail);
      }
      nodes := newMap;
      path := newPath;
    }
  }
}

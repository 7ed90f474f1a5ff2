/**
 * The conversation tree of the chat page: messages linked by `parent_id`,
 * indexed by id, each with its children ordered by creation time, and the
 * "active path" shown on screen. Object references of the page become ids:
 * a node's `children` lists child ids, resolved through the index.
 */
module ChatTree {
  import opened Wrappers
  import opened Wire
  import Citations

  /** A chat message; `createdAt` is the creation time in milliseconds. */
  datatype Message = Message(
    id: string,
    parentId: string,
    role: string,
    content: seq<Segment>,
    meta: Option<MetaInfo>,
    createdAt: int)

  /** A message with the ids of its children (`TreeNode`). */
  datatype TreeNode = TreeNode(msg: Message, children: seq<string>)

  /** The `nodeMap`: message id to node. */
  type NodeMap = map<string, TreeNode>

  /** Every node is filed under its own id. */
  predicate KeysMatch(nodes: NodeMap) {
    forall id :: id in nodes ==> nodes[id].msg.id == id
  }

  /** Every listed child is indexed and names its parent. */
  predicate ChildrenLinked(nodes: NodeMap) {
    forall p, i :: p in nodes && 0 <= i < |nodes[p].children| ==>
      nodes[p].children[i] in nodes && nodes[nodes[p].children[i]].msg.parentId == p
  }

  /** Every indexed child names the node that lists it as its parent. */
  predicate ChildrenPointBack(nodes: NodeMap) {
    forall p, i :: p in nodes && 0 <= i < |nodes[p].children| && nodes[p].children[i] in nodes ==>
      nodes[nodes[p].children[i]].msg.parentId == p
  }

  /** `b` names `a` as its parent. */
  predicate ChildOf(a: Message, b: Message) {
    b.parentId == a.id
  }

  /** The active path is a chain of parent links. */
  predicate PathChained(path: seq<Message>) {
    forall i :: 0 < i < |path| ==> ChildOf(path[i - 1], path[i])
  }

  /** No two messages on the path share an id. */
  predicate PathDistinct(path: seq<Message>) {
    forall i, j :: 0 <= i < j < |path| ==> path[i].id != path[j].id
  }

  // ---------------------------------------------------------------------
  // Citations on stored content
  // ---------------------------------------------------------------------

  /** Re-annotates the last segment with the grounding's citations when it is plain message text. */
  function AnnotateLast(content: seq<Segment>, g: Citations.Grounding): (r: seq<Segment>)
    ensures |r| == |content| && r[..|r| - if |r| > 0 then 1 else 0] == content[..|content| - if |content| > 0 then 1 else 0]
    ensures |content| > 0 && content[|content| - 1].kind == MessageType ==>
      r[|r| - 1] == Segment(MessageType, Citations.ApplyCitations(content[|content| - 1].text, g.supports, g.chunks))
    ensures (|content| == 0 || content[|content| - 1].kind != MessageType) ==> r == content
  {
    if |content| > 0 && content[|content| - 1].kind == MessageType then
      var last := content[|content| - 1];
      content[..|content| - 1] + [last.(text := Citations.ApplyCitations(last.text, g.supports, g.chunks))]
    else content
  }

  /** A loaded message carrying grounding data shows its citations. */
  function Annotate(m: Message): (r: Message)
    ensures r.(content := m.content) == m
    ensures m.meta.Some? && m.meta.value.grounding.Some? ==> r.content == AnnotateLast(m.content, m.meta.value.grounding.value)
    ensures !(m.meta.Some? && m.meta.value.grounding.Some?) ==> r == m
  {
    if m.meta.Some? && m.meta.value.grounding.Some? then
      m.(content := AnnotateLast(m.content, m.meta.value.grounding.value))
    else m
  }

  // ---------------------------------------------------------------------
  // processTree
  // ---------------------------------------------------------------------

  /** The ids of a list of messages. */
  function Ids(ms: seq<Message>): set<string> {
    set m | m in ms :: m.id
  }

  /** The first pass: every message becomes a childless node under its own id. */
  function IndexNodes(ms: seq<Message>): (r: NodeMap)
    ensures r.Keys == Ids(ms)
    ensures forall id :: id in r ==> r[id].children == [] && r[id].msg.id == id
  {
    if ms == [] then map[]
    else
      var init := ms[..|ms| - 1];
      var m := ms[|ms| - 1];
      assert ms == init + [m];
      assert Ids(ms) == Ids(init) + {m.id};
      IndexNodes(init)[m.id := TreeNode(Annotate(m), [])]
  }

  /** When ids repeat, the node holds the last message with that id, annotated. */
  lemma {:induction false} IndexNodesLastWins(ms: seq<Message>, i: nat)
    requires i < |ms| && forall j :: i < j < |ms| ==> ms[j].id != ms[i].id
    ensures IndexNodes(ms)[ms[i].id].msg == Annotate(ms[i])
  {
    var init := ms[..|ms| - 1];
    if i < |ms| - 1 {
      assert init[i] == ms[i];
      IndexNodesLastWins(init, i);
    }
  }

  /**
   * Index of the most recently created message: no message is newer, and
   * every later message in the list is strictly older (ties go to the later one).
   */
  function Latest(ms: seq<Message>): (k: nat)
    requires ms != []
    ensures k < |ms|
    ensures forall j :: 0 <= j < |ms| ==> ms[j].createdAt <= ms[k].createdAt
    ensures forall j :: k < j < |ms| ==> ms[j].createdAt < ms[k].createdAt
  {
    if |ms| == 1 then 0
    else
      var k := Latest(ms[..|ms| - 1]);
      assert forall j :: 0 <= j < |ms| - 1 ==> ms[..|ms| - 1][j] == ms[j];
      if ms[|ms| - 1].createdAt >= ms[k].createdAt then |ms| - 1 else k
  }

  /** The sort key of a child: its creation time. */
  function CreatedAt(nodes: NodeMap, id: string): int {
    if id in nodes then nodes[id].msg.createdAt else 0
  }

  /** Children ascending by creation time. */
  predicate SortedByTime(cs: seq<string>, nodes: NodeMap) {
    forall i, j :: 0 <= i < j < |cs| ==> CreatedAt(nodes, cs[i]) <= CreatedAt(nodes, cs[j])
  }

  /**
   * `children.push(c); children.sort(byCreatedAt)` on an already sorted list:
   * the sort is stable, so `c` lands after every child not newer than it and
   * before every newer one.
   */
  function InsertSorted(cs: seq<string>, c: string, nodes: NodeMap): (r: seq<string>)
    ensures |r| == |cs| + 1
    ensures multiset(r) == multiset(cs) + multiset{c}
  {
    if cs == [] then [c]
    else
      var init := cs[..|cs| - 1];
      var last := cs[|cs| - 1];
      assert cs == init + [last];
      if CreatedAt(nodes, last) <= CreatedAt(nodes, c) then cs + [c]
      else InsertSorted(init, c, nodes) + [last]
  }

  /** Placing `c` between the children not newer than it and the newer ones keeps the list sorted. */
  lemma InsertAtSorted(cs: seq<string>, c: string, p: nat, nodes: NodeMap)
    requires SortedByTime(cs, nodes) && p <= |cs|
    requires forall i :: 0 <= i < p ==> CreatedAt(nodes, cs[i]) <= CreatedAt(nodes, c)
    requires forall i :: p <= i < |cs| ==> CreatedAt(nodes, c) < CreatedAt(nodes, cs[i])
    ensures SortedByTime(cs[..p] + [c] + cs[p..], nodes)
  {
    var r := cs[..p] + [c] + cs[p..];
    assert forall k :: 0 <= k < p ==> r[k] == cs[k];
    assert r[p] == c;
    assert forall k :: p < k < |r| ==> r[k] == cs[k - 1];
  }

  /** Inserting into a sorted list puts `c` after its equals and before anything newer. */
  lemma {:induction false} InsertSortedStable(cs: seq<string>, c: string, nodes: NodeMap) returns (p: nat)
    requires SortedByTime(cs, nodes)
    ensures p <= |cs| && InsertSorted(cs, c, nodes) == cs[..p] + [c] + cs[p..]
    ensures forall i :: 0 <= i < p ==> CreatedAt(nodes, cs[i]) <= CreatedAt(nodes, c)
    ensures forall i :: p <= i < |cs| ==> CreatedAt(nodes, c) < CreatedAt(nodes, cs[i])
  {
    if cs == [] {
      p := 0;
    } else if CreatedAt(nodes, cs[|cs| - 1]) <= CreatedAt(nodes, c) {
      p := |cs|;
      assert cs[..p] + [c] + cs[p..] == cs + [c];
      forall i | 0 <= i < p ensures CreatedAt(nodes, cs[i]) <= CreatedAt(nodes, c) {
        if i < |cs| - 1 {
          assert CreatedAt(nodes, cs[i]) <= CreatedAt(nodes, cs[|cs| - 1]);
        }
      }
    } else {
      var init := cs[..|cs| - 1];
      SortedInit(cs, nodes);
      p := InsertSortedStable(init, c, nodes);
      forall i | 0 <= i < p ensures CreatedAt(nodes, cs[i]) <= CreatedAt(nodes, c) {
        assert init[i] == cs[i];
      }
      forall i | p <= i < |cs| - 1 ensures CreatedAt(nodes, c) < CreatedAt(nodes, cs[i]) {
        assert init[i] == cs[i];
      }
      InsertSortedShift(cs, c, nodes, p);
    }
  }

  /** Dropping the last child keeps the list sorted. */
  lemma SortedInit(cs: seq<string>, nodes: NodeMap)
    requires cs != [] && SortedByTime(cs, nodes)
    ensures SortedByTime(cs[..|cs| - 1], nodes)
  {
    var init := cs[..|cs| - 1];
    assert forall k :: 0 <= k < |init| ==> init[k] == cs[k];
  }

  /** The step of `InsertSortedStable` past a last child newer than `c`. */
  lemma InsertSortedShift(cs: seq<string>, c: string, nodes: NodeMap, p: nat)
    requires cs != [] && CreatedAt(nodes, c) < CreatedAt(nodes, cs[|cs| - 1])
    requires p <= |cs| - 1 && InsertSorted(cs[..|cs| - 1], c, nodes) == cs[..p] + [c] + cs[p..|cs| - 1]
    requires forall i :: 0 <= i < p ==> CreatedAt(nodes, cs[i]) <= CreatedAt(nodes, c)
    requires forall i :: p <= i < |cs| - 1 ==> CreatedAt(nodes, c) < CreatedAt(nodes, cs[i])
    ensures InsertSorted(cs, c, nodes) == cs[..p] + [c] + cs[p..]
    ensures forall i :: p <= i < |cs| ==> CreatedAt(nodes, c) < CreatedAt(nodes, cs[i])
  {
    var init, last := cs[..|cs| - 1], cs[|cs| - 1];
    assert InsertSorted(cs, c, nodes) == InsertSorted(init, c, nodes) + [last];
    InsertShifted(cs, c, p);
  }

  /** Sequence bookkeeping for `InsertSortedShift`, kept generic so it stays cheap. */
  lemma InsertShifted<T>(s: seq<T>, x: T, p: nat)
    requires p < |s|
    ensures s[..p] + [x] + s[p..|s| - 1] + [s[|s| - 1]] == s[..p] + [x] + s[p..]
  {
    assert s[p..] == s[p..|s| - 1] + [s[|s| - 1]];
  }

  /** Inserting into a sorted list keeps it sorted. */
  lemma InsertSortedSorted(cs: seq<string>, c: string, nodes: NodeMap)
    requires SortedByTime(cs, nodes)
    ensures SortedByTime(InsertSorted(cs, c, nodes), nodes)
  {
    var p := InsertSortedStable(cs, c, nodes);
    InsertAtSorted(cs, c, p, nodes);
  }

  /** Sortedness depends only on the creation times. */
  lemma SortedSameTimes(cs: seq<string>, a: NodeMap, b: NodeMap)
    requires forall id :: CreatedAt(a, id) == CreatedAt(b, id)
    ensures SortedByTime(cs, a) == SortedByTime(cs, b)
  {
  }

  /** The second pass for one message: a non-empty, resolvable `parent_id` files it among the parent's children. */
  function LinkChild(nodes: NodeMap, m: Message): (r: NodeMap)
    ensures r.Keys == nodes.Keys
    ensures forall id :: id in nodes ==> r[id].msg == nodes[id].msg
  {
    if m.parentId != "" && m.parentId in nodes then
      var p := nodes[m.parentId];
      nodes[m.parentId := p.(children := InsertSorted(p.children, m.id, nodes))]
    else nodes
  }

  function LinkAll(nodes: NodeMap, ms: seq<Message>): (r: NodeMap)
    ensures r.Keys == nodes.Keys
    ensures forall id :: id in nodes ==> r[id].msg == nodes[id].msg
  {
    if ms == [] then nodes else LinkChild(LinkAll(nodes, ms[..|ms| - 1]), ms[|ms| - 1])
  }

  /** The node map `processTree` builds from the fetched list. */
  function BuildTree(ms: seq<Message>): NodeMap {
    LinkAll(IndexNodes(ms), ms)
  }

  /** `b` names a resolvable parent, and `a` is that parent's message. */
  predicate ParentOf(nodes: NodeMap, a: Message, b: Message) {
    b.parentId != "" && b.parentId in nodes && a == nodes[b.parentId].msg
  }

  /**
   * The upward walk of `processTree`: from `m` through resolvable parents to
   * the root, root first. `fuel` bounds the number of parents followed.
   */
  function Ancestry(nodes: NodeMap, m: Message, fuel: nat): (r: seq<Message>)
    ensures 1 <= |r| <= fuel + 1 && r[|r| - 1] == m
    ensures forall i :: 0 < i < |r| ==> ParentOf(nodes, r[i - 1], r[i])
    ensures r[0].parentId == "" || r[0].parentId !in nodes || |r| == fuel + 1
    decreases fuel
  {
    if m.parentId != "" && m.parentId in nodes && fuel > 0 then
      Ancestry(nodes, nodes[m.parentId].msg, fuel - 1) + [m]
    else [m]
  }

  /** The active path after loading: the chain of parents ending at the most recent message. */
  function InitialPath(ms: seq<Message>): seq<Message> {
    if ms == [] then [] else Ancestry(BuildTree(ms), Annotate(ms[Latest(ms)]), |ms|)
  }

  /** The ids of the messages that name `p` as their (non-empty) parent, in list order. */
  function ChildIds(ms: seq<Message>, p: string): seq<string> {
    if ms == [] then []
    else ChildIds(ms[..|ms| - 1], p) + (if p != "" && ms[|ms| - 1].parentId == p then [ms[|ms| - 1].id] else [])
  }

  /** Linking files every message under its resolvable parent, and nothing else. */
  lemma {:induction false} LinkAllChildren(nodes: NodeMap, ms: seq<Message>, p: string)
    requires p in nodes
    ensures multiset(LinkAll(nodes, ms)[p].children) == multiset(nodes[p].children) + multiset(ChildIds(ms, p))
  {
    if ms != [] {
      LinkAllChildren(nodes, ms[..|ms| - 1], p);
    }
  }

  /** Linking keeps every children list sorted by creation time. */
  lemma {:induction false} LinkAllSorted(nodes: NodeMap, ms: seq<Message>)
    requires forall id :: id in nodes ==> SortedByTime(nodes[id].children, nodes)
    ensures forall id :: id in nodes ==> SortedByTime(LinkAll(nodes, ms)[id].children, nodes)
  {
    if ms != [] {
      var prev := LinkAll(nodes, ms[..|ms| - 1]);
      LinkAllSorted(nodes, ms[..|ms| - 1]);
      var m := ms[|ms| - 1];
      assert forall c :: CreatedAt(prev, c) == CreatedAt(nodes, c);
      if m.parentId != "" && m.parentId in prev {
        var cs := prev[m.parentId].children;
        SortedSameTimes(cs, prev, nodes);
        InsertSortedSorted(cs, m.id, prev);
        SortedSameTimes(InsertSorted(cs, m.id, prev), prev, nodes);
      }
    }
  }

  /** The children of each node are exactly the messages naming it as parent, oldest first. */
  lemma ProcessTreeChildren(ms: seq<Message>, p: string)
    requires p in BuildTree(ms)
    ensures multiset(BuildTree(ms)[p].children) == multiset(ChildIds(ms, p))
    ensures SortedByTime(BuildTree(ms)[p].children, BuildTree(ms))
  {
    var idx := IndexNodes(ms);
    LinkAllChildren(idx, ms, p);
    LinkAllSorted(idx, ms);
    assert forall c :: CreatedAt(BuildTree(ms), c) == CreatedAt(idx, c);
    SortedSameTimes(BuildTree(ms)[p].children, BuildTree(ms), idx);
  }

  /**
   * The loaded path ends at the most recently created message and climbs
   * through parents to a root, an unresolvable parent, or the step bound.
   */
  lemma InitialPathShape(ms: seq<Message>)
    ensures ms == [] <==> InitialPath(ms) == []
    ensures ms != [] ==> InitialPath(ms)[|InitialPath(ms)| - 1] == Annotate(ms[Latest(ms)])
    ensures forall i :: 0 < i < |InitialPath(ms)| ==> ParentOf(BuildTree(ms), InitialPath(ms)[i - 1], InitialPath(ms)[i])
    ensures InitialPath(ms) != [] ==>
      var root := InitialPath(ms)[0];
      root.parentId == "" || root.parentId !in BuildTree(ms) || |InitialPath(ms)| == |ms| + 1
  {
  }

  // ---------------------------------------------------------------------
  // Default-branch descent and switchNode
  // ---------------------------------------------------------------------

  /** The `children[0]` chain below `n`, taking at most `fuel` steps; a dangling id ends it. */
  function FirstChildChain(nodes: NodeMap, n: TreeNode, fuel: nat): (r: seq<Message>)
    decreases fuel
    ensures |r| <= fuel
    ensures r != [] ==> |n.children| > 0 && n.children[0] in nodes && r[0] == nodes[n.children[0]].msg
    ensures r == [] ==> fuel == 0 || |n.children| == 0 || n.children[0] !in nodes
  {
    if fuel > 0 && |n.children| > 0 && n.children[0] in nodes then
      [nodes[n.children[0]].msg] + FirstChildChain(nodes, nodes[n.children[0]], fuel - 1)
    else []
  }

  /** Each message of `r` is the first child of the one before it. */
  predicate FirstChildSteps(nodes: NodeMap, r: seq<Message>) {
    forall i :: 0 < i < |r| ==> FirstChildOf(nodes, r[i - 1], r[i])
  }

  /** `b` is the message of `a`'s first child. */
  predicate FirstChildOf(nodes: NodeMap, a: Message, b: Message) {
    a.id in nodes && |nodes[a.id].children| > 0 && nodes[a.id].children[0] in nodes
    && b == nodes[nodes[a.id].children[0]].msg
  }

  /** The last message of `r` is a leaf, or its first child is not indexed. */
  predicate EndsAtLeaf(nodes: NodeMap, r: seq<Message>) {
    r != [] && r[|r| - 1].id in nodes
    && (|nodes[r[|r| - 1].id].children| == 0 || nodes[r[|r| - 1].id].children[0] !in nodes)
  }

  /** Each step of the descent enters the first child of the node before it; it stops at a leaf unless cut short. */
  lemma {:induction false} FirstChildChainSteps(nodes: NodeMap, n: TreeNode, fuel: nat)
    requires KeysMatch(nodes)
    ensures FirstChildSteps(nodes, FirstChildChain(nodes, n, fuel))
    ensures FirstChildChain(nodes, n, fuel) != [] && |FirstChildChain(nodes, n, fuel)| < fuel ==>
      EndsAtLeaf(nodes, FirstChildChain(nodes, n, fuel))
    decreases fuel
  {
    if fuel > 0 && |n.children| > 0 && n.children[0] in nodes {
      FirstChildChainSteps(nodes, nodes[n.children[0]], fuel - 1);
    }
  }

  /** `indexOf`: the first position of `x`, or -1. */
  function IndexOf(xs: seq<string>, x: string): (k: int)
    ensures -1 <= k < |xs|
    ensures k == -1 <==> x !in xs
    ensures k >= 0 ==> xs[k] == x && forall j :: 0 <= j < k ==> xs[j] != x
  {
    if xs == [] then -1
    else if xs[0] == x then 0
    else var k := IndexOf(xs[1..], x); if k == -1 then -1 else k + 1
  }

  /** `path.findIndex(node => node.id === id)`. */
  function FindById(path: seq<Message>, id: string): (k: int)
    ensures -1 <= k < |path|
    ensures k == -1 <==> forall j :: 0 <= j < |path| ==> path[j].id != id
    ensures k >= 0 ==> path[k].id == id && forall j :: 0 <= j < k ==> path[j].id != id
  {
    if path == [] then -1
    else if path[0].id == id then 0
    else var k := FindById(path[1..], id); if k == -1 then -1 else k + 1
  }

  /**
   * `switchNode(path[pos], isNext)`: the active path moved to the adjacent
   * sibling, then down its first children. Nothing changes without a
   * resolvable parent or at either end of the siblings.
   */
  function SwitchedPath(path: seq<Message>, nodes: NodeMap, pos: nat, isNext: bool): (r: seq<Message>)
    requires pos < |path|
    ensures path[pos].parentId == "" || path[pos].parentId !in nodes ==> r == path
    ensures path[pos].parentId in nodes && !isNext && IndexOf(nodes[path[pos].parentId].children, path[pos].id) == 0 ==> r == path
    ensures path[pos].parentId in nodes && isNext
      && IndexOf(nodes[path[pos].parentId].children, path[pos].id) == |nodes[path[pos].parentId].children| - 1
      ==> r == path
  {
    var m := path[pos];
    if m.parentId == "" || m.parentId !in nodes then path
    else
      var cs := nodes[m.parentId].children;
      var index := IndexOf(cs, m.id);
      if !isNext && index == 0 then path
      else if isNext && index == |cs| - 1 then path
      else
        var j := if isNext then index + 1 else index - 1;
        if j < 0 || j >= |cs| || cs[j] !in nodes then path
        else
          var k := FindById(path, m.id);
          var sibling := nodes[cs[j]];
          path[..k] + [sibling.msg] + FirstChildChain(nodes, sibling, |nodes|)
  }

  /** The siblings of `m`: the children of its parent, or none without a resolvable parent. */
  function Siblings(nodes: NodeMap, m: Message): seq<string> {
    if m.parentId in nodes then nodes[m.parentId].children else []
  }

  predicate Distinct(xs: seq<string>) {
    forall a, b :: 0 <= a < b < |xs| ==> xs[a] != xs[b]
  }

  /** A switch that goes through: the path up to `m`'s first copy, then the sibling and its descent. */
  lemma SwitchGoesThrough(path: seq<Message>, nodes: NodeMap, pos: nat, isNext: bool, j: nat)
    requires pos < |path| && path[pos].parentId != "" && path[pos].parentId in nodes
    requires var cs := nodes[path[pos].parentId].children;
      var index := IndexOf(cs, path[pos].id);
      && j < |cs| && cs[j] in nodes
      && j == (if isNext then index + 1 else index - 1)
      && (isNext ==> index != |cs| - 1) && (!isNext ==> index != 0)
    ensures 0 <= FindById(path, path[pos].id) <= pos
    ensures var sibling := nodes[nodes[path[pos].parentId].children[j]];
      SwitchedPath(path, nodes, pos, isNext)
        == path[..FindById(path, path[pos].id)] + [sibling.msg] + FirstChildChain(nodes, sibling, |nodes|)
  {
    FoundNoLater(path, pos);
  }

  /** A message's id is found at its own position or earlier. */
  lemma FoundNoLater(path: seq<Message>, pos: nat)
    requires pos < |path|
    ensures 0 <= FindById(path, path[pos].id) <= pos
  {
  }

  /**
   * Moving to the next sibling and back lands on the original node again,
   * at the same position, followed by its default descent.
   */
  lemma SwitchNextThenPrevious(path: seq<Message>, nodes: NodeMap, pos: nat)
    requires pos < |path| && KeysMatch(nodes) && ChildrenLinked(nodes)
    requires path[pos].parentId != "" && path[pos].parentId in nodes
    requires 0 <= IndexOf(Siblings(nodes, path[pos]), path[pos].id) < |Siblings(nodes, path[pos])| - 1
    requires Distinct(Siblings(nodes, path[pos]))
    requires forall j :: 0 <= j < pos ==> path[j].id !in Siblings(nodes, path[pos])
    ensures pos < |SwitchedPath(path, nodes, pos, true)|
    ensures SwitchedPath(SwitchedPath(path, nodes, pos, true), nodes, pos, false)
      == path[..pos] + [nodes[path[pos].id].msg] + FirstChildChain(nodes, nodes[path[pos].id], |nodes|)
  {
    var m := path[pos];
    var cs := nodes[m.parentId].children;
    var i := IndexOf(cs, m.id);
    assert cs[i + 1] in nodes && cs[i] in nodes;
    assert IndexOf(cs, cs[i + 1]) == i + 1;
    assert forall j :: 0 <= j < pos ==> path[j].id != m.id && path[j].id != cs[i + 1] by {
      assert m.id in cs && cs[i + 1] in cs;
    }
    SwitchThereAndBack(path, nodes, pos, i);
  }

  /** `SwitchNextThenPrevious` from the facts it needs about the two siblings involved. */
  lemma SwitchThereAndBack(path: seq<Message>, nodes: NodeMap, pos: nat, i: nat)
    requires pos < |path| && path[pos].parentId != "" && path[pos].parentId in nodes
    requires var cs := nodes[path[pos].parentId].children;
      && i + 1 < |cs| && IndexOf(cs, path[pos].id) == i && IndexOf(cs, cs[i + 1]) == i + 1
      && cs[i] in nodes && cs[i + 1] in nodes
      && nodes[cs[i + 1]].msg.id == cs[i + 1] && nodes[cs[i + 1]].msg.parentId == path[pos].parentId
      && forall j :: 0 <= j < pos ==> path[j].id != path[pos].id && path[j].id != cs[i + 1]
    ensures pos < |SwitchedPath(path, nodes, pos, true)|
    ensures SwitchedPath(SwitchedPath(path, nodes, pos, true), nodes, pos, false)
      == path[..pos] + [nodes[path[pos].id].msg] + FirstChildChain(nodes, nodes[path[pos].id], |nodes|)
  {
    var cs := nodes[path[pos].parentId].children;
    SwitchedToNext(path, nodes, pos, i);
    var there := SwitchedPath(path, nodes, pos, true);
    SwitchGoesThrough(there, nodes, pos, false, i);
    assert cs[i] == path[pos].id;
  }

  /** The first half of `SwitchThereAndBack`: the next sibling takes the switched message's place. */
  lemma SwitchedToNext(path: seq<Message>, nodes: NodeMap, pos: nat, i: nat)
    requires pos < |path| && path[pos].parentId != "" && path[pos].parentId in nodes
    requires var cs := nodes[path[pos].parentId].children;
      && i + 1 < |cs| && IndexOf(cs, path[pos].id) == i && IndexOf(cs, cs[i + 1]) == i + 1
      && cs[i] in nodes && cs[i + 1] in nodes
      && nodes[cs[i + 1]].msg.id == cs[i + 1] && nodes[cs[i + 1]].msg.parentId == path[pos].parentId
      && forall j :: 0 <= j < pos ==> path[j].id != path[pos].id && path[j].id != cs[i + 1]
    ensures var there := SwitchedPath(path, nodes, pos, true);
      var sib := nodes[nodes[path[pos].parentId].children[i + 1]];
      && pos < |there| && there[..pos] == path[..pos] && there[pos] == sib.msg
      && FindById(there, sib.msg.id) == pos
  {
    var m := path[pos];
    var cs := nodes[m.parentId].children;
    var sib := nodes[cs[i + 1]];
    var there := SwitchedPath(path, nodes, pos, true);
    assert there == path[..pos] + [sib.msg] + FirstChildChain(nodes, sib, |nodes|) by {
      assert FindById(path, m.id) == pos;
      SwitchGoesThrough(path, nodes, pos, true, i + 1);
    }
    assert there[pos] == sib.msg && there[..pos] == path[..pos];
    assert forall j :: 0 <= j < pos ==> there[j].id != sib.msg.id by {
      forall j | 0 <= j < pos ensures there[j].id != sib.msg.id {
        assert there[j] == path[..pos][j] == path[j];
      }
    }
    FoundAt(there, pos, sib.msg.id);
  }

  /** The first entry with an id is where `FindById` finds it. */
  lemma FoundAt(path: seq<Message>, k: nat, id: string)
    requires k < |path| && path[k].id == id && forall j :: 0 <= j < k ==> path[j].id != id
    ensures FindById(path, id) == k
  {
  }

  /** The default descent below an indexed node is a parent chain hanging from that node. */
  lemma {:induction false} DescentChained(nodes: NodeMap, id: string, fuel: nat)
    requires KeysMatch(nodes) && ChildrenPointBack(nodes) && id in nodes
    ensures PathChained([nodes[id].msg] + FirstChildChain(nodes, nodes[id], fuel))
    decreases fuel
  {
    var n := nodes[id];
    if fuel > 0 && |n.children| > 0 && n.children[0] in nodes {
      var c := n.children[0];
      DescentChained(nodes, c, fuel - 1);
      var tail := [nodes[c].msg] + FirstChildChain(nodes, nodes[c], fuel - 1);
      var r := [n.msg] + tail;
      assert r == [n.msg] + FirstChildChain(nodes, n, fuel);
      forall i | 0 < i < |r| ensures ChildOf(r[i - 1], r[i]) {
        if i > 1 { assert r[i - 1] == tail[i - 2] && r[i] == tail[i - 1]; }
      }
    }
  }

  /** Switching to a sibling keeps the active path a parent chain. */
  lemma SwitchKeepsChain(path: seq<Message>, nodes: NodeMap, pos: nat, isNext: bool)
    requires pos < |path| && KeysMatch(nodes) && ChildrenPointBack(nodes)
    requires PathChained(path) && PathDistinct(path)
    ensures PathChained(SwitchedPath(path, nodes, pos, isNext))
  {
    var m := path[pos];
    if m.parentId != "" && m.parentId in nodes {
      var cs := nodes[m.parentId].children;
      var index := IndexOf(cs, m.id);
      if !(!isNext && index == 0) && !(isNext && index == |cs| - 1) {
        var j := if isNext then index + 1 else index - 1;
        if 0 <= j < |cs| && cs[j] in nodes {
          assert FindById(path, m.id) == pos by {
            SwitchGoesThrough(path, nodes, pos, isNext, j);
          }
          SwitchChainedAt(path, nodes, pos, isNext, j);
        }
      }
    }
  }

  /** The switch that goes through, once the switched message is known to be found at its own position. */
  lemma SwitchChainedAt(path: seq<Message>, nodes: NodeMap, pos: nat, isNext: bool, j: nat)
    requires pos < |path| && path[pos].parentId != "" && path[pos].parentId in nodes
    requires var cs := nodes[path[pos].parentId].children;
      var index := IndexOf(cs, path[pos].id);
      && j < |cs| && cs[j] in nodes
      && j == (if isNext then index + 1 else index - 1)
      && (isNext ==> index != |cs| - 1) && (!isNext ==> index != 0)
    requires PathChained(path) && FindById(path, path[pos].id) == pos
    requires KeysMatch(nodes) && ChildrenPointBack(nodes)
    ensures PathChained(SwitchedPath(path, nodes, pos, isNext))
  {
    SwitchGoesThrough(path, nodes, pos, isNext, j);
    var parent := path[pos].parentId;
    var sib := nodes[nodes[parent].children[j]];
    DescentChained(nodes, nodes[parent].children[j], |nodes|);
    var tail := [sib.msg] + FirstChildChain(nodes, sib, |nodes|);
    assert sib.msg.parentId == parent;
    SpliceBelow(path, pos, tail);
    assert path[..pos] + [sib.msg] + FirstChildChain(nodes, sib, |nodes|) == path[..pos] + tail;
  }

  /** A chain hanging from the parent of the `k`-th path message, put in place of the path from `k` on, keeps it a chain. */
  lemma SpliceBelow(path: seq<Message>, k: nat, tail: seq<Message>)
    requires PathChained(path) && k < |path|
    requires PathChained(tail) && tail != [] && tail[0].parentId == path[k].parentId
    ensures PathChained(path[..k] + tail)
  {
    assert PathChained(path[..k]) by {
      forall i | 0 < i < k ensures ChildOf(path[..k][i - 1], path[..k][i]) {
        assert ChildOf(path[i - 1], path[i]);
      }
    }
    if k > 0 {
      assert ChildOf(path[k - 1], path[k]);
    }
    ChainSplice(path[..k], tail);
  }

  /** Two parent chains joined where the second hangs below the first's last message form one chain. */
  lemma ChainSplice(a: seq<Message>, b: seq<Message>)
    requires PathChained(a) && PathChained(b)
    requires a != [] && b != [] ==> ChildOf(a[|a| - 1], b[0])
    ensures PathChained(a + b)
  {
    var r := a + b;
    forall i | 0 < i < |r| ensures ChildOf(r[i - 1], r[i]) {
      if i < |a| {
        assert r[i - 1] == a[i - 1] && r[i] == a[i];
      } else if i == |a| {
        assert r[i - 1] == a[|a| - 1] && r[i] == b[0];
      } else {
        assert r[i - 1] == b[i - 1 - |a|] && r[i] == b[i - |a|];
      }
    }
  }
}

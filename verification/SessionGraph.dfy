/** The graph of a multi-agent session, the validator of its references, and what an accepted graph guarantees. */
module SessionGraph {
  import opened Text

  datatype NodeType =
    | ParentRun | ChildRun | AgentRole | StepNode | Handoff | Delegation
    | RoutingDecision | ApprovalGate | VerificationStep | JoinNode | TerminalNode

  datatype Node = Node(id: string, nodeType: NodeType, parent: Option<string>)
  datatype Edge = Edge(id: string, source: string, target: string)
  datatype Branch = Branch(id: string, entry: string, members: seq<string>)
  datatype Join = Join(id: string, node: string, incoming: seq<string>, required: int)
  datatype Checkpoint = Checkpoint(id: string, graphId: string)

  datatype Graph = Graph(
    id: string, entry: string, nodes: seq<Node>, edges: seq<Edge>,
    branches: seq<Branch>, joins: seq<Join>, checkpoints: seq<Checkpoint>)

  // ---- what the validator is meant to decide ----

  function NodeIds(g: Graph): set<string> {
    set n | n in g.nodes :: n.id
  }

  predicate ParentResolves(g: Graph, n: Node) {
    n.parent.None? || n.parent.value == "" || n.parent.value in NodeIds(g)
  }

  predicate AllIn(refs: seq<string>, ids: set<string>) {
    forall i :: 0 <= i < |refs| ==> refs[i] in ids
  }

  ghost predicate WellFormed(g: Graph) {
    && (forall i, j :: 0 <= i < j < |g.nodes| ==> g.nodes[i].id != g.nodes[j].id)
    && (forall i, j :: 0 <= i < j < |g.edges| ==> g.edges[i].id != g.edges[j].id)
    && (forall n :: n in g.nodes ==> ParentResolves(g, n))
    && (forall e :: e in g.edges ==> e.source in NodeIds(g) && e.target in NodeIds(g))
    && (forall b :: b in g.branches ==> b.entry in NodeIds(g) && AllIn(b.members, NodeIds(g)))
    && (forall j :: j in g.joins ==> j.node in NodeIds(g) && AllIn(j.incoming, NodeIds(g)))
    && (exists n :: n in g.nodes && n.nodeType == TerminalNode)
    && g.entry in NodeIds(g)
    && (forall c :: c in g.checkpoints ==> c.graphId == g.id)
  }

  // ---- the validator ----

  /** The offences, in the order in which the validator looks for them; the numbers are list positions. */
  datatype Offence =
    | DuplicateNode(i: nat) | UnknownParent(i: nat)
    | DuplicateEdge(i: nat) | UnknownSource(i: nat) | UnknownTarget(i: nat)
    | UnknownBranchEntry(i: nat) | UnknownMember(i: nat, k: nat)
    | UnknownJoinNode(i: nat) | UnknownIncoming(i: nat, k: nat)
    | NoTerminalNode | UnknownEntry | ForeignCheckpoint(i: nat)

  predicate NodeIsNew(g: Graph, i: nat)
    requires i < |g.nodes|
  {
    forall j :: 0 <= j < i ==> g.nodes[j].id != g.nodes[i].id
  }

  predicate EdgeIsNew(g: Graph, i: nat)
    requires i < |g.edges|
  {
    forall j :: 0 <= j < i ==> g.edges[j].id != g.edges[i].id
  }

  predicate NodesPass(g: Graph, n: nat)
    requires n <= |g.nodes|
  {
    forall i :: 0 <= i < n ==> NodeIsNew(g, i) && ParentResolves(g, g.nodes[i])
  }

  predicate EdgesPass(g: Graph, n: nat)
    requires n <= |g.edges|
  {
    forall i :: 0 <= i < n ==> EdgeIsNew(g, i) && g.edges[i].source in NodeIds(g) && g.edges[i].target in NodeIds(g)
  }

  predicate BranchesPass(g: Graph, n: nat)
    requires n <= |g.branches|
  {
    forall i :: 0 <= i < n ==> g.branches[i].entry in NodeIds(g) && AllIn(g.branches[i].members, NodeIds(g))
  }

  predicate JoinsPass(g: Graph, n: nat)
    requires n <= |g.joins|
  {
    forall i :: 0 <= i < n ==> g.joins[i].node in NodeIds(g) && AllIn(g.joins[i].incoming, NodeIds(g))
  }

  predicate HasTerminal(g: Graph, n: nat)
    requires n <= |g.nodes|
  {
    exists i :: 0 <= i < n && g.nodes[i].nodeType == TerminalNode
  }

  predicate CheckpointsPass(g: Graph, n: nat)
    requires n <= |g.checkpoints|
  {
    forall i :: 0 <= i < n ==> g.checkpoints[i].graphId == g.id
  }

  predicate FirstStranger(refs: seq<string>, ids: set<string>, k: nat) {
    k < |refs| && refs[k] !in ids && AllIn(refs[..k], ids)
  }

  /** `o` is the first thing wrong with the graph, in the validator's order. */
  predicate FirstOffence(g: Graph, o: Offence) {
    match o
    case DuplicateNode(i) => i < |g.nodes| && NodesPass(g, i) && !NodeIsNew(g, i)
    case UnknownParent(i) => i < |g.nodes| && NodesPass(g, i) && NodeIsNew(g, i) && !ParentResolves(g, g.nodes[i])
    case DuplicateEdge(i) => NodesPass(g, |g.nodes|) && i < |g.edges| && EdgesPass(g, i) && !EdgeIsNew(g, i)
    case UnknownSource(i) =>
      && NodesPass(g, |g.nodes|) && i < |g.edges| && EdgesPass(g, i) && EdgeIsNew(g, i)
      && g.edges[i].source !in NodeIds(g)
    case UnknownTarget(i) =>
      && NodesPass(g, |g.nodes|) && i < |g.edges| && EdgesPass(g, i) && EdgeIsNew(g, i)
      && g.edges[i].source in NodeIds(g) && g.edges[i].target !in NodeIds(g)
    case UnknownBranchEntry(i) =>
      && NodesPass(g, |g.nodes|) && EdgesPass(g, |g.edges|) && i < |g.branches| && BranchesPass(g, i)
      && g.branches[i].entry !in NodeIds(g)
    case UnknownMember(i, k) =>
      && NodesPass(g, |g.nodes|) && EdgesPass(g, |g.edges|) && i < |g.branches| && BranchesPass(g, i)
      && g.branches[i].entry in NodeIds(g) && FirstStranger(g.branches[i].members, NodeIds(g), k)
    case UnknownJoinNode(i) =>
      && ListsPass(g) && i < |g.joins| && JoinsPass(g, i) && g.joins[i].node !in NodeIds(g)
    case UnknownIncoming(i, k) =>
      && ListsPass(g) && i < |g.joins| && JoinsPass(g, i)
      && g.joins[i].node in NodeIds(g) && FirstStranger(g.joins[i].incoming, NodeIds(g), k)
    case NoTerminalNode => ListsPass(g) && JoinsPass(g, |g.joins|) && !HasTerminal(g, |g.nodes|)
    case UnknownEntry =>
      ListsPass(g) && JoinsPass(g, |g.joins|) && HasTerminal(g, |g.nodes|) && g.entry !in NodeIds(g)
    case ForeignCheckpoint(i) =>
      && ListsPass(g) && JoinsPass(g, |g.joins|) && HasTerminal(g, |g.nodes|) && g.entry in NodeIds(g)
      && i < |g.checkpoints| && CheckpointsPass(g, i) && g.checkpoints[i].graphId != g.id
  }

  predicate ListsPass(g: Graph) {
    NodesPass(g, |g.nodes|) && EdgesPass(g, |g.edges|) && BranchesPass(g, |g.branches|)
  }

  predicate AllPass(g: Graph) {
    && ListsPass(g) && JoinsPass(g, |g.joins|) && HasTerminal(g, |g.nodes|) && g.entry in NodeIds(g)
    && CheckpointsPass(g, |g.checkpoints|)
  }

  method CheckNodes(g: Graph) returns (r: Option<Offence>)
    ensures r.None? ==> NodesPass(g, |g.nodes|)
    ensures r.Some? ==> FirstOffence(g, r.value) && (r.value.DuplicateNode? || r.value.UnknownParent?)
  {
    var seen: set<string> := {};
    for i := 0 to |g.nodes|
      invariant NodesPass(g, i)
      invariant seen == set j | 0 <= j < i :: g.nodes[j].id
    {
      var n := g.nodes[i];
      if n.id in seen {
        return Some(DuplicateNode(i));
      }
      seen := seen + {n.id};
      if n.parent.Some? && n.parent.value != "" && n.parent.value !in NodeIds(g) {
        return Some(UnknownParent(i));
      }
    }
    return None;
  }

  method CheckEdges(g: Graph) returns (r: Option<Offence>)
    requires NodesPass(g, |g.nodes|)
    ensures r.None? ==> EdgesPass(g, |g.edges|)
    ensures r.Some? ==>
              && FirstOffence(g, r.value)
              && (r.value.DuplicateEdge? || r.value.UnknownSource? || r.value.UnknownTarget?)
  {
    var seen: set<string> := {};
    for i := 0 to |g.edges|
      invariant EdgesPass(g, i)
      invariant seen == set j | 0 <= j < i :: g.edges[j].id
    {
      var e := g.edges[i];
      if e.id in seen {
        return Some(DuplicateEdge(i));
      }
      seen := seen + {e.id};
      if e.source !in NodeIds(g) {
        return Some(UnknownSource(i));
      }
      if e.target !in NodeIds(g) {
        return Some(UnknownTarget(i));
      }
    }
    return None;
  }

  /** The first reference that resolves to none of the ids. */
  method FindStranger(refs: seq<string>, ids: set<string>) returns (r: Option<nat>)
    ensures r.None? ==> AllIn(refs, ids)
    ensures r.Some? ==> FirstStranger(refs, ids, r.value)
  {
    for k := 0 to |refs|
      invariant AllIn(refs[..k], ids)
    {
      if refs[k] !in ids {
        return Some(k);
      }
    }
    return None;
  }

  method CheckBranches(g: Graph) returns (r: Option<Offence>)
    requires NodesPass(g, |g.nodes|) && EdgesPass(g, |g.edges|)
    ensures r.None? ==> BranchesPass(g, |g.branches|)
    ensures r.Some? ==> FirstOffence(g, r.value) && (r.value.UnknownBranchEntry? || r.value.UnknownMember?)
  {
    for i := 0 to |g.branches|
      invariant BranchesPass(g, i)
    {
      if g.branches[i].entry !in NodeIds(g) {
        return Some(UnknownBranchEntry(i));
      }
      var k := FindStranger(g.branches[i].members, NodeIds(g));
      if k.Some? {
        return Some(UnknownMember(i, k.value));
      }
    }
    return None;
  }

  method CheckJoins(g: Graph) returns (r: Option<Offence>)
    requires ListsPass(g)
    ensures r.None? ==> JoinsPass(g, |g.joins|)
    ensures r.Some? ==> FirstOffence(g, r.value) && (r.value.UnknownJoinNode? || r.value.UnknownIncoming?)
  {
    for i := 0 to |g.joins|
      invariant JoinsPass(g, i)
    {
      if g.joins[i].node !in NodeIds(g) {
        return Some(UnknownJoinNode(i));
      }
      var k := FindStranger(g.joins[i].incoming, NodeIds(g));
      if k.Some? {
        return Some(UnknownIncoming(i, k.value));
      }
    }
    return None;
  }

  method CheckTerminals(g: Graph) returns (count: nat)
    ensures count > 0 <==> HasTerminal(g, |g.nodes|)
  {
    count := 0;
    for i := 0 to |g.nodes|
      invariant count > 0 <==> HasTerminal(g, i)
    {
      if g.nodes[i].nodeType == TerminalNode {
        count := count + 1;
      }
    }
  }

  /** Accepts exactly the well-formed graphs, and names the first offence of every other. */
  method ValidateIds(g: Graph) returns (r: Option<Offence>)
    ensures r.None? <==> WellFormed(g)
    ensures r.Some? ==> FirstOffence(g, r.value)
  {
    PassIsWellFormed(g);
    r := CheckNodes(g);
    if r.Some? { OffenceRefutes(g, r.value); return; }
    r := CheckEdges(g);
    if r.Some? { OffenceRefutes(g, r.value); return; }
    r := CheckBranches(g);
    if r.Some? { OffenceRefutes(g, r.value); return; }
    r := CheckJoins(g);
    if r.Some? { OffenceRefutes(g, r.value); return; }
    var terminals := CheckTerminals(g);
    if terminals == 0 { return Some(NoTerminalNode); }
    if g.entry !in NodeIds(g) { return Some(UnknownEntry); }
    for i := 0 to |g.checkpoints|
      invariant CheckpointsPass(g, i)
    {
      if g.checkpoints[i].graphId != g.id { return Some(ForeignCheckpoint(i)); }
    }
    return None;
  }

  lemma PassIsWellFormed(g: Graph)
    ensures AllPass(g) <==> WellFormed(g)
  {
    if AllPass(g) {
      assert forall i :: 0 <= i < |g.nodes| ==> NodeIsNew(g, i) && ParentResolves(g, g.nodes[i]);
      assert forall i :: 0 <= i < |g.edges| ==> EdgeIsNew(g, i);
    }
  }

  lemma OffenceRefutes(g: Graph, o: Offence)
    requires FirstOffence(g, o)
    ensures !AllPass(g)
  {
  }

  /** A graph has an offence exactly when it is not well formed, and then just one comes first. */
  lemma FirstOffenceIsUnique(g: Graph, o: Offence, o': Offence)
    requires FirstOffence(g, o) && FirstOffence(g, o')
    ensures o == o' && !WellFormed(g)
  {
    hide WellFormed, NodeIds, ParentResolves, NodeIsNew, EdgeIsNew, HasTerminal;
    PassIsWellFormed(g);
    OffenceRefutes(g, o);
  }

  /** An empty parent is as good as none, wherever it stands. */
  lemma EmptyParentIsNone(g: Graph, k: nat)
    requires k < |g.nodes| && g.nodes[k].parent == Some("")
    ensures WellFormed(g) <==> WellFormed(g.(nodes := g.nodes[k := g.nodes[k].(parent := None)]))
  {
    hide HasTerminal, AllIn;
    var h := g.(nodes := g.nodes[k := g.nodes[k].(parent := None)]);
    SameIds(g, h);
    PassIsWellFormed(g);
    PassIsWellFormed(h);
    assert forall i :: 0 <= i < |g.nodes| ==> h.nodes[i].id == g.nodes[i].id;
    assert forall i :: 0 <= i < |g.nodes| ==> h.nodes[i].nodeType == g.nodes[i].nodeType;
  }

  lemma SameIds(g: Graph, h: Graph)
    requires |g.nodes| == |h.nodes| && forall i :: 0 <= i < |g.nodes| ==> h.nodes[i].id == g.nodes[i].id
    ensures NodeIds(g) == NodeIds(h)
  {
    forall x ensures x in NodeIds(g) <==> x in NodeIds(h) {
      if i :| 0 <= i < |g.nodes| && g.nodes[i].id == x { assert h.nodes[i] in h.nodes; }
      if i :| 0 <= i < |h.nodes| && h.nodes[i].id == x { assert g.nodes[i] in g.nodes; }
    }
  }

  // ---- walks ----

  /** An empty parent stands for none. */
  predicate ParentLinked(g: Graph, a: string, b: string) {
    exists n :: n in g.nodes && n.id == a && n.parent == Some(b) && b != ""
  }

  /** An edge leads from `a` to `b`, or `b` is the parent of `a`. */
  predicate Linked(g: Graph, a: string, b: string) {
    (exists e :: e in g.edges && e.source == a && e.target == b) || ParentLinked(g, a, b)
  }

  ghost predicate IsWalk(g: Graph, w: seq<string>) {
    w != [] && w[0] in NodeIds(g) && forall i :: 0 < i < |w| ==> Linked(g, w[i - 1], w[i])
  }

  ghost predicate StaysInside(g: Graph, w: seq<string>) {
    forall i :: 0 <= i < |w| ==> w[i] in NodeIds(g)
  }

  /** What the references of nodes and edges must satisfy for no walk to leave the graph. */
  ghost predicate LinksResolve(g: Graph) {
    && (forall n :: n in g.nodes ==> ParentResolves(g, n))
    && (forall e :: e in g.edges && e.source in NodeIds(g) ==> e.target in NodeIds(g))
  }

  lemma {:induction false} WalkStaysInside(g: Graph, w: seq<string>)
    requires LinksResolve(g) && IsWalk(g, w)
    ensures StaysInside(g, w)
  {
    if |w| > 1 {
      var k := |w| - 1;
      WalkStaysInside(g, w[..k]);
      assert w[..k][k - 1] in NodeIds(g);
      assert Linked(g, w[k - 1], w[k]);
    }
  }

  /** Walks of every length stay inside exactly when the links resolve, and accepted graphs have that. */
  lemma WalksStayInsideIff(g: Graph)
    ensures (forall w :: IsWalk(g, w) ==> StaysInside(g, w)) <==> LinksResolve(g)
    ensures WellFormed(g) ==> LinksResolve(g)
  {
    if LinksResolve(g) {
      forall w | IsWalk(g, w) ensures StaysInside(g, w) {
        WalkStaysInside(g, w);
      }
    } else {
      var a, b := LinkThatEscapes(g);
      assert IsWalk(g, [a, b]) && [a, b][1] !in NodeIds(g);
    }
  }

  lemma LinkThatEscapes(g: Graph) returns (a: string, b: string)
    requires !LinksResolve(g)
    ensures a in NodeIds(g) && Linked(g, a, b) && b !in NodeIds(g)
  {
    if n :| n in g.nodes && !ParentResolves(g, n) {
      a, b := n.id, n.parent.value;
    } else {
      var e :| e in g.edges && e.source in NodeIds(g) && e.target !in NodeIds(g);
      a, b := e.source, e.target;
    }
  }

  /** In an accepted graph every step of a walk reaches exactly one node. */
  lemma WalksReachOneNode(g: Graph, w: seq<string>, k: nat)
    requires WellFormed(g) && IsWalk(g, w) && k < |w|
    ensures exists i :: 0 <= i < |g.nodes| && g.nodes[i].id == w[k]
                        && forall j :: 0 <= j < |g.nodes| && j != i ==> g.nodes[j].id != w[k]
  {
    WalkStaysInside(g, w);
    var n :| n in g.nodes && n.id == w[k];
    var i :| 0 <= i < |g.nodes| && g.nodes[i] == n;
  }

  // ---- building the records ----

  /** What the records ask of their own fields. */
  predicate RecordsHold(raw: Graph, sessionId: string) {
    && !Blank(raw.id) && !Blank(sessionId) && !Blank(raw.entry)
    && (forall n :: n in raw.nodes ==> !Blank(n.id))
    && (forall e :: e in raw.edges ==> !Blank(e.id) && e.source != "" && e.target != "")
    && (forall b :: b in raw.branches ==> !Blank(b.id) && b.entry != "")
    && (forall j :: j in raw.joins ==> !Blank(j.id) && j.node != "" && 1 <= j.required <= |j.incoming|)
    && (forall c :: c in raw.checkpoints ==> !Blank(c.id) && !Blank(c.graphId))
  }

  /** The records strip their own ids, the graph its entry too, but none strips a reference. */
  function Stripped(raw: Graph): Graph {
    Graph(
      Strip(raw.id), Strip(raw.entry),
      seq(|raw.nodes|, i requires 0 <= i < |raw.nodes| => raw.nodes[i].(id := Strip(raw.nodes[i].id))),
      seq(|raw.edges|, i requires 0 <= i < |raw.edges| => raw.edges[i].(id := Strip(raw.edges[i].id))),
      seq(|raw.branches|, i requires 0 <= i < |raw.branches| => raw.branches[i].(id := Strip(raw.branches[i].id))),
      seq(|raw.joins|, i requires 0 <= i < |raw.joins| => raw.joins[i].(id := Strip(raw.joins[i].id))),
      seq(|raw.checkpoints|, i requires 0 <= i < |raw.checkpoints| =>
        Checkpoint(Strip(raw.checkpoints[i].id), Strip(raw.checkpoints[i].graphId))))
  }

  ghost predicate Accepted(raw: Graph, sessionId: string) {
    RecordsHold(raw, sessionId) && WellFormed(Stripped(raw))
  }

  ghost predicate RefersTo(raw: Graph, ref: string) {
    || (exists n :: n in raw.nodes && n.parent == Some(ref) && ref != "")
    || (exists e :: e in raw.edges && (e.source == ref || e.target == ref))
    || (exists b :: b in raw.branches && (b.entry == ref || ref in b.members))
    || (exists j :: j in raw.joins && (j.node == ref || ref in j.incoming))
  }

  lemma ReferencesResolve(g: Graph, ref: string)
    requires WellFormed(g) && RefersTo(g, ref)
    ensures ref in NodeIds(g)
  {
  }

  lemma StrippingKeepsReferences(raw: Graph, ref: string)
    requires RefersTo(raw, ref)
    ensures RefersTo(Stripped(raw), ref)
  {
    hide Strip;
    var g := Stripped(raw);
    if i :| 0 <= i < |raw.nodes| && raw.nodes[i].parent == Some(ref) && ref != "" {
      assert g.nodes[i] in g.nodes;
    } else if i :| 0 <= i < |raw.edges| && (raw.edges[i].source == ref || raw.edges[i].target == ref) {
      assert g.edges[i] in g.edges;
    } else if i :| 0 <= i < |raw.branches| && (raw.branches[i].entry == ref || ref in raw.branches[i].members) {
      assert g.branches[i] in g.branches;
    } else {
      var i :| 0 <= i < |raw.joins| && (raw.joins[i].node == ref || ref in raw.joins[i].incoming);
      assert g.joins[i] in g.joins;
    }
  }

  /**
   * A reference other than the entry is matched as written against ids that have been stripped: in an
   * accepted graph it is unpadded and the stripped id of a node.
   */
  lemma ReferencesAreUnpadded(raw: Graph, sessionId: string, ref: string)
    requires Accepted(raw, sessionId) && RefersTo(raw, ref)
    ensures Trimmed(ref) && exists n :: n in raw.nodes && Strip(n.id) == ref
  {
    StrippingKeepsReferences(raw, ref);
    ReferencesResolve(Stripped(raw), ref);
    ResolvesIff(raw, sessionId, ref);
  }

  /** What else holds of the records of an accepted graph. */
  lemma AcceptedRecords(raw: Graph, sessionId: string)
    requires Accepted(raw, sessionId)
    ensures forall i, j :: 0 <= i < j < |raw.nodes| ==> Strip(raw.nodes[i].id) != Strip(raw.nodes[j].id)
    ensures forall i, j :: 0 <= i < j < |raw.edges| ==> Strip(raw.edges[i].id) != Strip(raw.edges[j].id)
    ensures forall i :: 0 <= i < |raw.joins| ==> 1 <= raw.joins[i].required <= |raw.joins[i].incoming|
    ensures forall i :: 0 <= i < |raw.checkpoints| ==> Strip(raw.checkpoints[i].graphId) == Strip(raw.id)
    ensures exists i :: 0 <= i < |raw.nodes| && raw.nodes[i].nodeType == TerminalNode
  {
    hide Strip, ParentResolves, AllIn;
    var g := Stripped(raw);
    forall i, j | 0 <= i < j < |raw.nodes| ensures Strip(raw.nodes[i].id) != Strip(raw.nodes[j].id) {
      assert g.nodes[i].id != g.nodes[j].id;
    }
    forall i, j | 0 <= i < j < |raw.edges| ensures Strip(raw.edges[i].id) != Strip(raw.edges[j].id) {
      assert g.edges[i].id != g.edges[j].id;
    }
    forall i | 0 <= i < |raw.checkpoints| ensures Strip(raw.checkpoints[i].graphId) == Strip(raw.id) {
      assert g.checkpoints[i] in g.checkpoints;
    }
    var n :| n in g.nodes && n.nodeType == TerminalNode;
    var k :| 0 <= k < |g.nodes| && g.nodes[k] == n;
    assert raw.nodes[k].nodeType == TerminalNode;
  }

  lemma StrippedIds(raw: Graph, x: string)
    ensures x in NodeIds(Stripped(raw)) <==> exists n :: n in raw.nodes && Strip(n.id) == x
  {
    hide Strip;
    var g := Stripped(raw);
    if i :| 0 <= i < |raw.nodes| && Strip(raw.nodes[i].id) == x {
      assert g.nodes[i] in g.nodes;
    }
    if i :| 0 <= i < |g.nodes| && g.nodes[i].id == x {
      assert raw.nodes[i] in raw.nodes;
    }
  }

  /** What a reference as written resolves to: never a padded one, whatever ids were declared. */
  lemma ResolvesIff(raw: Graph, sessionId: string, ref: string)
    requires RecordsHold(raw, sessionId)
    ensures ref in NodeIds(Stripped(raw)) <==> Trimmed(ref) && exists n :: n in raw.nodes && Strip(n.id) == ref
  {
    StrippedIds(raw, ref);
  }

  /** A node can be referred to by the id it was declared with exactly when that id is unpadded. */
  lemma DeclaredIdResolvesIff(raw: Graph, sessionId: string, n: Node)
    requires RecordsHold(raw, sessionId) && n in raw.nodes
    ensures n.id in NodeIds(Stripped(raw)) <==> Trimmed(n.id)
  {
    ResolvesIff(raw, sessionId, n.id);
  }

  /** The entry is stripped before it is matched, so padding does not matter to it. */
  lemma EntryResolvesIff(raw: Graph)
    ensures Stripped(raw).entry in NodeIds(Stripped(raw)) <==>
            exists n :: n in raw.nodes && Strip(n.id) == Strip(raw.entry)
  {
    StrippedIds(raw, Strip(raw.entry));
  }

  function PaddedNode(entry: string, parent: Option<string>, edges: seq<Edge>): Graph {
    Graph("g", entry, [Node(" a ", TerminalNode, parent)], edges, [], [], [])
  }

  lemma PaddedNodeIsAccepted(entry: string, parent: Option<string>, edges: seq<Edge>)
    requires entry in {"a", " a "} && (parent.Some? ==> parent.value == "a")
    requires edges == [] || edges == [Edge("e", "a", "a")]
    ensures Accepted(PaddedNode(entry, parent, edges), "s")
  {
    var raw := PaddedNode(entry, parent, edges);
    PaddedStrips();
    var g := Stripped(raw);
    assert g.nodes == [Node("a", TerminalNode, parent)] && g.nodes[0] in g.nodes;
    assert NodeIds(g) == {"a"};
  }

  lemma PaddedStrips()
    ensures Strip(" a ") == "a" && !Blank(" a ")
    ensures forall s :: s in {"a", "g", "e", "s"} ==> !Blank(s) && Strip(s) == s
  {
    assert " a "[1..] == "a " && "a "[..1] == "a" && !IsSpace(" a "[1]);
    forall s | s in {"a", "g", "e", "s"} ensures !Blank(s) && Strip(s) == s {
      assert |s| == 1 && !IsSpace(s[0]) && Trimmed(s);
    }
  }

  lemma BadReference(bad: Graph)
    requires bad == PaddedNode("a", Some(" a "), []) || bad == PaddedNode("a", None, [Edge("e", " a ", "a")])
             || bad == PaddedNode("a", None, [Edge("e", "a", " a ")])
    ensures RecordsHold(bad, "s") && RefersTo(bad, " a ") && !Trimmed(" a ")
  {
    hide Strip, Blank;
    PaddedStrips();
    assert bad.nodes[0] in bad.nodes;
    assert bad.edges != [] ==> bad.edges[0] in bad.edges;
  }

  /**
   * With a node declared as " a ", an entry written " a " is accepted, and a parent or an edge end
   * written " a " makes the graph rejected where "a" is accepted.
   */
  lemma PaddedDeclaration(bad: Graph)
    requires bad == PaddedNode("a", Some(" a "), []) || bad == PaddedNode("a", None, [Edge("e", " a ", "a")])
             || bad == PaddedNode("a", None, [Edge("e", "a", " a ")])
    ensures Accepted(PaddedNode(" a ", None, []), "s")
    ensures Accepted(PaddedNode("a", Some("a"), []), "s") && Accepted(PaddedNode("a", None, [Edge("e", "a", "a")]), "s")
    ensures RecordsHold(bad, "s") && !Accepted(bad, "s")
  {
    hide Accepted, Strip, RefersTo, Blank;
    PaddedNodeIsAccepted(" a ", None, []);
    PaddedNodeIsAccepted("a", Some("a"), []);
    PaddedNodeIsAccepted("a", None, [Edge("e", "a", "a")]);
    BadReference(bad);
    if Accepted(bad, "s") {
      ReferencesAreUnpadded(bad, "s", " a ");
      assert false;
    }
  }
}

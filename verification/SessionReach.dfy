/** What acceptance of a session graph leaves open: whether a terminal node is in reach, and whether parents loop. */
module SessionReach {
  import opened Text
  import opened SessionGraph
  import SM = StateMachine

  // ---- reaching a terminal node ----

  /** Where the links lead from a set of ids. */
  function Next(g: Graph, s: set<string>): set<string> {
    (set e | e in g.edges && e.source in s :: e.target)
    + (set n | n in g.nodes && n.id in s && n.parent.Some? && n.parent.value != "" :: n.parent.value)
  }

  ghost predicate Closed(g: Graph, s: set<string>) {
    forall a, b :: a in s && Linked(g, a, b) ==> b in s
  }

  lemma NextIff(g: Graph, s: set<string>, b: string)
    ensures b in Next(g, s) <==> exists a :: a in s && Linked(g, a, b)
  {
    if a :| a in s && Linked(g, a, b) {
      if ParentLinked(g, a, b) {
        var n :| n in g.nodes && n.id == a && n.parent == Some(b) && b != "";
      }
    }
    if b in Next(g, s) {
      if e :| e in g.edges && e.source in s && e.target == b {
        assert Linked(g, e.source, b);
      } else {
        var n :| n in g.nodes && n.id in s && n.parent == Some(b) && b != "";
        assert Linked(g, n.id, b);
      }
    }
  }

  lemma NextStaysInside(g: Graph, s: set<string>)
    requires LinksResolve(g) && s <= NodeIds(g)
    ensures Next(g, s) <= NodeIds(g)
  {
    forall b | b in Next(g, s) ensures b in NodeIds(g) {
      NextIff(g, s, b);
      var a :| a in s && Linked(g, a, b);
    }
  }

  /** Follows the links until they lead nowhere new. */
  function Closure(g: Graph, s: set<string>): (t: set<string>)
    requires LinksResolve(g) && s <= NodeIds(g)
    ensures s <= t <= NodeIds(g) && Next(g, t) <= t
    decreases NodeIds(g) - s
  {
    NextStaysInside(g, s);
    if Next(g, s) <= s then s else Closure(g, s + Next(g, s))
  }

  lemma ClosureIsClosed(g: Graph, s: set<string>)
    requires LinksResolve(g) && s <= NodeIds(g)
    ensures Closed(g, Closure(g, s))
  {
    var t := Closure(g, s);
    forall a, b | a in t && Linked(g, a, b) ensures b in t {
      NextIff(g, t, b);
    }
  }

  /** Some walk from the entry ends at `x`. */
  ghost predicate Reached(g: Graph, x: string) {
    exists w :: IsWalk(g, w) && w[0] == g.entry && w[|w| - 1] == x
  }

  lemma ReachedGrows(g: Graph, a: string, b: string)
    requires Reached(g, a) && Linked(g, a, b)
    ensures Reached(g, b)
  {
    var w :| IsWalk(g, w) && w[0] == g.entry && w[|w| - 1] == a;
    var longer := w + [b];
    assert forall i :: 0 < i < |longer| ==> Linked(g, longer[i - 1], longer[i]);
    assert IsWalk(g, longer);
  }

  lemma {:induction false} ClosureIsReached(g: Graph, s: set<string>)
    requires LinksResolve(g) && s <= NodeIds(g) && forall x :: x in s ==> Reached(g, x)
    ensures forall x :: x in Closure(g, s) ==> Reached(g, x)
    decreases NodeIds(g) - s
  {
    NextStaysInside(g, s);
    if !(Next(g, s) <= s) {
      forall b | b in Next(g, s) ensures Reached(g, b) {
        NextIff(g, s, b);
        var a :| a in s && Linked(g, a, b);
        ReachedGrows(g, a, b);
      }
      ClosureIsReached(g, s + Next(g, s));
    }
  }

  lemma {:induction false} WalksStayClosed(g: Graph, w: seq<string>, s: set<string>)
    requires IsWalk(g, w) && w[0] in s && Closed(g, s)
    ensures w[|w| - 1] in s
  {
    var k := |w| - 1;
    if k > 0 {
      WalksStayClosed(g, w[..k], s);
      assert Linked(g, w[k - 1], w[k]);
    }
  }

  /** Following the links to the end finds exactly the ids that walks of any length reach. */
  lemma ReachedIff(g: Graph, x: string)
    requires LinksResolve(g) && g.entry in NodeIds(g)
    ensures Reached(g, x) <==> x in Closure(g, {g.entry})
  {
    assert IsWalk(g, [g.entry]);
    ClosureIsReached(g, {g.entry});
    ClosureIsClosed(g, {g.entry});
    if Reached(g, x) {
      var w :| IsWalk(g, w) && w[0] == g.entry && w[|w| - 1] == x;
      WalksStayClosed(g, w, Closure(g, {g.entry}));
    }
  }

  predicate HoldsTerminal(g: Graph, s: set<string>) {
    exists n :: n in g.nodes && n.nodeType == TerminalNode && n.id in s
  }

  ghost predicate TerminalReachable(g: Graph) {
    exists n :: n in g.nodes && n.nodeType == TerminalNode && Reached(g, n.id)
  }

  /**
   * In an accepted graph a terminal node is in reach of the entry exactly when following the links
   * from the entry finds one, exactly when no closed set of ids around the entry leaves them all out.
   */
  lemma TerminalReachableIff(g: Graph)
    requires WellFormed(g)
    ensures LinksResolve(g)
    ensures TerminalReachable(g) <==> HoldsTerminal(g, Closure(g, {g.entry}))
    ensures TerminalReachable(g) <==>
            forall s :: g.entry in s && s <= NodeIds(g) && Closed(g, s) ==> HoldsTerminal(g, s)
  {
    hide WellFormed, LinksResolve, Closed, Closure, Reached;
    AcceptedLinksResolve(g);
    var c := Closure(g, {g.entry});
    forall x ensures Reached(g, x) <==> x in c {
      ReachedIff(g, x);
    }
    ClosureIsClosed(g, {g.entry});
    if TerminalReachable(g) {
      forall s | g.entry in s && Closed(g, s) ensures HoldsTerminal(g, s) {
        ReachedStaysClosed(g, s);
      }
    }
  }

  lemma AcceptedLinksResolve(g: Graph)
    requires WellFormed(g)
    ensures LinksResolve(g) && g.entry in NodeIds(g)
  {
  }

  lemma ReachedStaysClosed(g: Graph, s: set<string>)
    requires g.entry in s && Closed(g, s)
    ensures forall x :: Reached(g, x) ==> x in s
  {
    forall x | Reached(g, x) ensures x in s {
      var w :| IsWalk(g, w) && w[0] == g.entry && w[|w| - 1] == x;
      WalksStayClosed(g, w, s);
    }
  }

  // ---- loops of parents ----

  ghost predicate ParentWalk(g: Graph, w: seq<string>) {
    w != [] && forall i :: 0 < i < |w| ==> ParentLinked(g, w[i - 1], w[i])
  }

  /** Some node is its own ancestor. */
  ghost predicate ParentsLoop(g: Graph) {
    exists w :: |w| > 1 && ParentWalk(g, w) && w[0] == w[|w| - 1]
  }

  /** A number for each id that drops from every node to its parent. */
  ghost predicate Ranks(g: Graph, rank: map<string, nat>) {
    && rank.Keys == NodeIds(g)
    && forall a, b :: ParentLinked(g, a, b) ==> a in rank && b in rank && rank[b] < rank[a]
  }

  function ParentIn(nodes: seq<Node>, id: string): (p: Option<string>)
    ensures p.Some? ==> p.value != "" && exists n :: n in nodes && n.id == id && n.parent == p
  {
    if nodes == [] then None
    else if nodes[0].id == id then
      if nodes[0].parent == Some("") then None else nodes[0].parent
    else ParentIn(nodes[1..], id)
  }

  lemma {:induction false} ParentOfNode(nodes: seq<Node>, i: nat)
    requires i < |nodes| && forall j, k :: 0 <= j < k < |nodes| ==> nodes[j].id != nodes[k].id
    ensures ParentIn(nodes, nodes[i].id) == if nodes[i].parent == Some("") then None else nodes[i].parent
  {
    if i > 0 {
      ParentOfNode(nodes[1..], i - 1);
    }
  }

  lemma ParentIff(g: Graph, a: string, b: string)
    requires WellFormed(g)
    ensures ParentLinked(g, a, b) <==> ParentIn(g.nodes, a) == Some(b)
  {
    if ParentLinked(g, a, b) {
      var i :| 0 <= i < |g.nodes| && g.nodes[i].id == a && g.nodes[i].parent == Some(b) && b != "";
      ParentOfNode(g.nodes, i);
    }
  }

  /** An id followed by its ancestors, at most `k` of them. */
  function Chain(g: Graph, id: string, k: nat): (w: seq<string>)
    ensures 1 <= |w| <= k + 1 && w[0] == id
    decreases k
  {
    var p := ParentIn(g.nodes, id);
    if k == 0 || p.None? then [id] else [id] + Chain(g, p.value, k - 1)
  }

  lemma {:induction false} ChainEnds(g: Graph, id: string, k: nat)
    requires |Chain(g, id, k)| <= k
    ensures Chain(g, id, k + 1) == Chain(g, id, k)
    decreases k
  {
    var p := ParentIn(g.nodes, id);
    if p.Some? {
      ChainEnds(g, p.value, k - 1);
    }
  }

  lemma {:induction false} ChainIsParentWalk(g: Graph, id: string, k: nat)
    requires WellFormed(g) && id in NodeIds(g)
    ensures ParentWalk(g, Chain(g, id, k)) && StaysInside(g, Chain(g, id, k))
    decreases k
  {
    hide WellFormed;
    var p := ParentIn(g.nodes, id);
    if k > 0 && p.Some? {
      ParentIff(g, id, p.value);
      ParentInside(g, id, p.value);
      ChainIsParentWalk(g, p.value, k - 1);
    }
  }

  lemma ParentInside(g: Graph, a: string, b: string)
    requires WellFormed(g) && ParentLinked(g, a, b)
    ensures a in NodeIds(g) && b in NodeIds(g)
  {
  }

  /** More ids than there are nodes cannot all differ. */
  lemma LongChainRepeats(g: Graph, w: seq<string>)
    requires StaysInside(g, w) && |w| > |g.nodes|
    ensures !SM.Distinct(w)
  {
    var ids := seq(|g.nodes|, i requires 0 <= i < |g.nodes| => g.nodes[i].id);
    SM.SetSizeIsDistinctness(ids);
    SM.SetSizeIsDistinctness(w);
    var all, visited := set x | x in ids, set x | x in w;
    assert forall x :: x in NodeIds(g) ==> x in ids by {
      forall x | x in NodeIds(g) ensures x in ids {
        var i :| 0 <= i < |g.nodes| && g.nodes[i].id == x;
        assert ids[i] == x;
      }
    }
    assert all == visited + (all - visited);
  }

  lemma LongChainLoops(g: Graph, id: string)
    requires WellFormed(g) && id in NodeIds(g) && |Chain(g, id, |g.nodes|)| > |g.nodes|
    ensures ParentsLoop(g)
  {
    hide WellFormed, Chain, ParentLinked;
    var w := Chain(g, id, |g.nodes|);
    ChainIsParentWalk(g, id, |g.nodes|);
    LongChainRepeats(g, w);
    var i, j :| 0 <= i < j < |w| && w[i] == w[j];
    PartOfWalk(g, w, i, j);
    assert w[i..j + 1][j - i] == w[i..j + 1][0];
  }

  lemma PartOfWalk(g: Graph, w: seq<string>, i: nat, j: nat)
    requires ParentWalk(g, w) && i <= j < |w|
    ensures ParentWalk(g, w[i..j + 1])
  {
    hide ParentLinked;
    var part := w[i..j + 1];
    forall k | 0 < k < |part| ensures ParentLinked(g, part[k - 1], part[k]) {
      var n := i + k;
      assert part[k - 1] == w[n - 1] && part[k] == w[n];
    }
  }

  lemma {:induction false} RankDrops(g: Graph, rank: map<string, nat>, w: seq<string>)
    requires Ranks(g, rank) && ParentWalk(g, w) && |w| > 1
    ensures w[0] in rank && w[|w| - 1] in rank && rank[w[|w| - 1]] < rank[w[0]]
  {
    var k := |w| - 1;
    assert ParentLinked(g, w[k - 1], w[k]);
    if k > 1 {
      RankDrops(g, rank, w[..k]);
    }
  }

  /** Without a long chain, the lengths of the chains rank the nodes. */
  lemma ChainsRank(g: Graph) returns (rank: map<string, nat>)
    requires WellFormed(g) && forall id :: id in NodeIds(g) ==> |Chain(g, id, |g.nodes|)| <= |g.nodes|
    ensures Ranks(g, rank)
  {
    hide WellFormed, Chain, ParentLinked, NodeIds;
    rank := map id | id in NodeIds(g) :: |Chain(g, id, |g.nodes|)|;
    forall a, b | ParentLinked(g, a, b) ensures a in rank && b in rank && rank[b] < rank[a] {
      ParentInside(g, a, b);
      ParentIff(g, a, b);
      ParentChainIsShorter(g, a, b, |g.nodes|);
    }
  }

  lemma ParentChainIsShorter(g: Graph, a: string, b: string, k: nat)
    requires ParentIn(g.nodes, a) == Some(b) && |Chain(g, a, k)| <= k
    ensures |Chain(g, b, k)| < |Chain(g, a, k)|
  {
    ChainEnds(g, b, k - 1);
  }

  /**
   * In an accepted graph the parents loop exactly when some node has as many ancestors as there are
   * nodes, exactly when no ranking of the nodes drops from each to its parent.
   */
  lemma ParentsLoopIff(g: Graph)
    requires WellFormed(g)
    ensures ParentsLoop(g) <==> exists id :: id in NodeIds(g) && |Chain(g, id, |g.nodes|)| > |g.nodes|
    ensures ParentsLoop(g) <==> forall rank :: !Ranks(g, rank)
  {
    hide WellFormed, Chain, ParentWalk, NodeIds, Ranks;
    if id :| id in NodeIds(g) && |Chain(g, id, |g.nodes|)| > |g.nodes| {
      LongChainLoops(g, id);
    } else {
      var rank := ChainsRank(g);
    }
    if ParentsLoop(g) {
      var w :| |w| > 1 && ParentWalk(g, w) && w[0] == w[|w| - 1];
      forall rank ensures !Ranks(g, rank) {
        if Ranks(g, rank) {
          RankDrops(g, rank, w);
          assert false;
        }
      }
    }
  }

  // ---- both happen ----

  const LOOPING := Graph("g", "a", [Node("a", StepNode, Some("a")), Node("t", TerminalNode, None)], [], [], [], [])

  lemma LoopingIsWellFormed(g: Graph)
    requires g == LOOPING
    ensures WellFormed(g)
  {
    assert g.nodes[0] in g.nodes && g.nodes[1] in g.nodes;
  }

  lemma LoopingLinks(g: Graph, a: string, b: string)
    requires g == LOOPING
    ensures ParentLinked(g, a, b) <==> a == "a" && b == "a"
    ensures Linked(g, a, b) <==> ParentLinked(g, a, b)
  {
    assert g.nodes[0] in g.nodes;
  }

  /** Acceptance promises neither: here the entry is its own parent, and no walk from it reaches the terminal node. */
  lemma TerminalCanBeOutOfReach(g: Graph)
    requires g == LOOPING
    ensures WellFormed(g) && !TerminalReachable(g) && ParentsLoop(g)
  {
    hide WellFormed, TerminalReachable, ParentLinked, Linked;
    LoopingIsWellFormed(g);
    forall a, b
      ensures ParentLinked(g, a, b) <==> a == "a" && b == "a"
      ensures Linked(g, a, b) <==> ParentLinked(g, a, b)
    {
      LoopingLinks(g, a, b);
    }
    var s := {"a"};
    assert g.nodes[0] in g.nodes;
    assert Closed(g, s) && !HoldsTerminal(g, s) && s <= NodeIds(g);
    TerminalReachableIff(g);
    assert ParentWalk(g, ["a", "a"]);
  }
}

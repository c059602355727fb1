/**
 Copying an arbitrary graph of yaml nodes, shared and cyclic ones included.

 Models CLIProxyAPI/internal/config/config_yaml.go, deepCopyNode and deepCopyNodeSeen.
 */
module NodeGraph {

  class GraphNode {
    var kind: int
    var tag: string
    var text: string
    var alias: GraphNode?
    var content: seq<GraphNode?>

    /** A struct copy: every field, the references included. */
    constructor CopyOf(n: GraphNode)
      ensures kind == n.kind && tag == n.tag && text == n.text && alias == n.alias && content == n.content
    {
      kind, tag, text, alias, content := n.kind, n.tag, n.text, n.alias, n.content;
    }
  }

  /** The nodes a node refers to. */
  ghost function Successors(n: GraphNode): set<GraphNode>
    reads n
  {
    (if n.alias == null then {} else {n.alias}) + (set c: GraphNode | c in n.content)
  }

  /** No reference leaves the set: the set is a whole graph. */
  ghost predicate Closed(nodes: set<GraphNode>)
    reads nodes
  {
    forall n {:trigger Successors(n)} | n in nodes :: Successors(n) <= nodes
  }

  type Memo = map<GraphNode, GraphNode>

  /** Where a reference points in the copy. */
  ghost predicate Follows(memo: Memo, from: GraphNode?, to: GraphNode?) {
    if from == null then to == null else from in memo && to == memo[from]
  }

  /** The copy of n has the fields of n, with every reference redirected to a copy. */
  ghost predicate Copied(memo: Memo, n: GraphNode)
    requires n in memo
    reads n, memo[n]
  {
    var c := memo[n];
    && c.kind == n.kind && c.tag == n.tag && c.text == n.text
    && Follows(memo, n.alias, c.alias)
    && |c.content| == |n.content| && forall i | 0 <= i < |n.content| :: Follows(memo, n.content[i], c.content[i])
  }

  ghost predicate Injective(memo: Memo) {
    forall a, b | a in memo && b in memo && a != b :: memo[a] != memo[b]
  }

  ghost predicate Extends(before: Memo, after: Memo) {
    before.Keys <= after.Keys && forall n | n in before :: after[n] == before[n]
  }

  /** A memo in the middle of a copy: copies are distinct and not part of the source graph. */
  ghost predicate MemoOk(memo: Memo, nodes: set<GraphNode>) {
    Injective(memo) && memo.Keys <= nodes && forall n | n in memo :: memo[n] !in nodes
  }

  /** The nodes a copy under way has added since the memo was seen. */
  ghost function Added(seen: Memo, memo: Memo): set<GraphNode> {
    set k | k in memo && k !in seen
  }

  ghost function Images(seen: Memo, memo: Memo): set<GraphNode> {
    set k | k in memo && k !in seen :: memo[k]
  }

  ghost predicate AllCopied(seen: Memo, memo: Memo)
    reads Added(seen, memo), Images(seen, memo)
  {
    forall k | k in Added(seen, memo) :: Copied(memo, k)
  }

  /** Two phases of a copy in a row. */
  lemma Chained(seen: Memo, mid: Memo, memo: Memo)
    requires Extends(seen, mid) && Extends(mid, memo) && AllCopied(seen, mid) && AllCopied(mid, memo)
    ensures Extends(seen, memo) && AllCopied(seen, memo)
    ensures Images(seen, memo) == Images(seen, mid) + Images(mid, memo)
  {
    forall k | k in Added(seen, memo) ensures Copied(memo, k) {
      if k in mid {
        assert k in Added(seen, mid);
        StillCopied(mid, memo, k);
      } else {
        assert k in Added(mid, memo);
      }
    }
    forall o | o in Images(seen, memo) ensures o in Images(seen, mid) + Images(mid, memo) {
      var k :| k in memo && k !in seen && memo[k] == o;
      if k in mid { assert o == mid[k]; }
    }
    forall o | o in Images(seen, mid) ensures o in Images(seen, memo) {
      var k :| k in mid && k !in seen && mid[k] == o;
      assert memo[k] == o;
    }
    forall o | o in Images(mid, memo) ensures o in Images(seen, memo) {
      var k :| k in memo && k !in mid && memo[k] == o;
    }
  }

  /** Redirections stay right when the memo grows. */
  lemma StillCopied(before: Memo, after: Memo, n: GraphNode)
    requires n in before && Extends(before, after) && Copied(before, n)
    ensures Copied(after, n)
  {
  }

  /** A finished phase of a copy: the memo only grew, and what it gained is copied. */
  ghost predicate Phase(seen: Memo, memo: Memo, nodes: set<GraphNode>)
    reads Added(seen, memo), Images(seen, memo)
  {
    Extends(seen, memo) && MemoOk(memo, nodes) && AllCopied(seen, memo)
  }

  /**
   Copies what n reaches and the memo does not hold yet.  The source is not modified.  The
   graph nodes is any closed set around n: being ghost it cannot influence the copy, so
   whatever is copied lies in every such set.
   */
  method DeepCopySeen(n: GraphNode?, seen: Memo, ghost nodes: set<GraphNode>) returns (cp: GraphNode?, memo: Memo)
    requires Closed(nodes) && (n != null ==> n in nodes) && MemoOk(seen, nodes)
    ensures Phase(seen, memo, nodes) && fresh(Images(seen, memo)) && Follows(memo, n, cp)
    decreases nodes - seen.Keys, 2
  {
    if n == null { return null, seen; }
    if n in seen { return seen[n], seen; }
    cp, memo := CopyNode(n, seen, nodes);
  }

  /** Copies a node the memo does not hold: it is entered before its references are followed. */
  method CopyNode(n: GraphNode, seen: Memo, ghost nodes: set<GraphNode>) returns (c: GraphNode, memo: Memo)
    requires Closed(nodes) && n in nodes && n !in seen && MemoOk(seen, nodes)
    ensures Phase(seen, memo, nodes) && fresh(Images(seen, memo)) && n in memo && memo[n] == c
    decreases nodes - seen.Keys, 1
  {
    c := new GraphNode.CopyOf(n);
    var start := seen[n := c];
    assert start.Keys == seen.Keys + {n};
    assert n.alias != null ==> n.alias in Successors(n);
    var a: GraphNode?;
    a, memo := DeepCopySeen(n.alias, start, nodes);
    c.alias := a;
    ghost var mid := memo;
    memo := CopyContent(n, c, memo, nodes);
    Chained(start, mid, memo);
    StartOfCopy(seen, n, c, memo);
  }

  /** The first node of a copy completes it. */
  lemma StartOfCopy(seen: Memo, n: GraphNode, c: GraphNode, memo: Memo)
    requires n !in seen && Extends(seen[n := c], memo) && AllCopied(seen[n := c], memo) && Copied(memo, n)
    ensures Extends(seen, memo) && AllCopied(seen, memo) && Images(seen, memo) == Images(seen[n := c], memo) + {c}
  {
    forall k | k in Added(seen, memo) ensures Copied(memo, k) {
      if k != n { assert k in Added(seen[n := c], memo); }
    }
    forall o | o in Images(seen, memo) ensures o in Images(seen[n := c], memo) + {c} {
      var k :| k in memo && k !in seen && memo[k] == o;
      if k == n { assert memo[k] == c; }
    }
    assert memo[n] == c;
  }

  /** Fills the children of c, the copy under way of n. */
  method CopyContent(n: GraphNode, c: GraphNode, seen: Memo, ghost nodes: set<GraphNode>) returns (memo: Memo)
    requires Closed(nodes) && n in nodes && MemoOk(seen, nodes) && n in seen && seen[n] == c
    modifies c`content
    ensures Phase(seen, memo, nodes) && fresh(Images(seen, memo))
    ensures |c.content| == |n.content| && forall j | 0 <= j < |n.content| :: Follows(memo, n.content[j], c.content[j])
    decreases nodes - seen.Keys, 3
  {
    memo := seen;
    c.content := seq(|n.content|, i => null);
    for i := 0 to |n.content|
      invariant Phase(seen, memo, nodes) && fresh(Images(seen, memo))
      invariant |c.content| == |n.content| && forall j | 0 <= j < i :: Follows(memo, n.content[j], c.content[j])
    {
      assert n.content[i] != null ==> n.content[i] in Successors(n);
      ghost var mid := memo;
      var x: GraphNode?;
      x, memo := DeepCopySeen(n.content[i], memo, nodes);
      Chained(seen, mid, memo);
      assert c !in Images(seen, memo);
      c.content := c.content[i := x];
    }
  }

  /** A copy of everything n reaches: same shape, same sharing, no node in common. */
  method DeepCopy(n: GraphNode?, ghost nodes: set<GraphNode>) returns (cp: GraphNode?, ghost memo: Memo)
    requires Closed(nodes) && (n != null ==> n in nodes)
    ensures Follows(memo, n, cp) && Injective(memo)
    ensures forall k | k in memo :: fresh(memo[k]) && Copied(memo, k)
    ensures Closed(memo.Keys) && memo.Keys <= nodes && (n != null ==> n in memo)
  {
    cp, memo := DeepCopySeen(n, map[], nodes);
    forall k | k in memo ensures fresh(memo[k]) && Copied(memo, k) {
      assert k in Added(map[], memo) && memo[k] in Images(map[], memo);
    }
    forall k, s | k in memo && s in Successors(k) ensures s in memo {
      assert Copied(memo, k);
      if s != k.alias {
        var i :| 0 <= i < |k.content| && k.content[i] == s;
        assert Follows(memo, k.content[i], memo[k].content[i]);
      }
    }
  }
}

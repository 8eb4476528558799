/**
 * The scene graph as a finite forest: each node's `transform.parent` link, the fixed
 * sibling order of the scene, and the preorder walk that GetComponentsInChildren<Transform>
 * performs over a node and everything below it.
 */
module Hierarchy {
  import opened Wrappers

  /** A GameObject, identified by a number. */
  type Node = nat

  /** Every node's parent link; None is a scene root. */
  type Links = map<Node, Option<Node>>

  /**
   * `rank` is a ghost witness that the links are acyclic: a parent always has a higher
   * rank than its child (the rank can be taken as the height of the node's subtree).
   */
  ghost predicate Ranked(parent: Links, rank: map<Node, nat>) {
    forall n :: n in parent ==>
      && n in rank
      && (parent[n].Some? ==> parent[n].value in parent && parent[n].value in rank && rank[parent[n].value] > rank[n])
  }

  /** `order` lists every node of the scene exactly once; children are enumerated in that order. */
  ghost predicate WellFormed(parent: Links, order: seq<Node>, rank: map<Node, nat>) {
    && (forall i, j :: 0 <= i < j < |order| ==> order[i] != order[j])
    && (forall n :: n in parent <==> n in order)
    && Ranked(parent, rank)
  }

  /** The nodes of `order` whose parent is `n`, in order. */
  function Children(parent: Links, order: seq<Node>, n: Node): (cs: seq<Node>)
    requires forall c :: c in order ==> c in parent
    ensures forall c :: c in cs <==> c in order && parent[c] == Some(n)
  {
    if order == [] then []
    else (if parent[order[0]] == Some(n) then [order[0]] else []) + Children(parent, order[1..], n)
  }

  /** GetComponentsInChildren<Transform>(): `n` followed by its descendants, depth first. */
  function Subtree(parent: Links, order: seq<Node>, ghost rank: map<Node, nat>, n: Node): (r: seq<Node>)
    requires WellFormed(parent, order, rank) && n in parent
    ensures |r| > 0 && r[0] == n
    ensures forall x :: x in r ==> x in parent && x in rank && rank[x] <= rank[n]
    ensures forall i :: 1 <= i < |r| ==> rank[r[i]] < rank[n]
    decreases rank[n], 1, 0
  {
    [n] + Descendants(parent, order, rank, Children(parent, order, n), rank[n])
  }

  /** The subtrees of `cs`, one after the other. */
  function Descendants(parent: Links, order: seq<Node>, ghost rank: map<Node, nat>, cs: seq<Node>, ghost bound: nat): (r: seq<Node>)
    requires WellFormed(parent, order, rank)
    requires forall c :: c in cs ==> c in parent && c in rank && rank[c] < bound
    ensures forall x :: x in r ==> x in parent && x in rank && rank[x] < bound
    decreases bound, 0, |cs|
  {
    if cs == [] then []
    else Subtree(parent, order, rank, cs[0]) + Descendants(parent, order, rank, cs[1..], bound)
  }

  /** A node lies in the combined subtrees exactly when it lies in the subtree of one of them. */
  lemma {:induction false} InDescendants(parent: Links, order: seq<Node>, rank: map<Node, nat>, cs: seq<Node>, bound: nat, x: Node)
    requires WellFormed(parent, order, rank)
    requires forall c :: c in cs ==> c in parent && c in rank && rank[c] < bound
    ensures x in Descendants(parent, order, rank, cs, bound) <==>
      exists c :: c in cs && x in Subtree(parent, order, rank, c)
    decreases |cs|
  {
    if cs != [] {
      InDescendants(parent, order, rank, cs[1..], bound, x);
      assert forall c :: c in cs <==> c == cs[0] || c in cs[1..];
    }
  }

  /** A node lies strictly below `n` exactly when it lies in the subtree of one of `n`'s children. */
  lemma InSubtree(parent: Links, order: seq<Node>, rank: map<Node, nat>, n: Node, x: Node)
    requires WellFormed(parent, order, rank) && n in parent
    ensures x in Subtree(parent, order, rank, n) <==>
      x == n || exists c :: c in order && parent[c] == Some(n) && x in Subtree(parent, order, rank, c)
  {
    var cs := Children(parent, order, n);
    InDescendants(parent, order, rank, cs, rank[n], x);
  }

  /** Being below is transitive: the subtree of any node of `Subtree(z)` is part of it. */
  lemma {:induction false} SubtreeTransitive(parent: Links, order: seq<Node>, rank: map<Node, nat>, z: Node, y: Node)
    requires WellFormed(parent, order, rank) && z in parent
    requires y in Subtree(parent, order, rank, z)
    ensures forall x :: x in Subtree(parent, order, rank, y) ==> x in Subtree(parent, order, rank, z)
    decreases rank[z]
  {
    if y != z {
      InSubtree(parent, order, rank, z, y);
      var c :| c in order && parent[c] == Some(z) && y in Subtree(parent, order, rank, c);
      SubtreeTransitive(parent, order, rank, c, y);
      forall x | x in Subtree(parent, order, rank, y)
        ensures x in Subtree(parent, order, rank, z)
      {
        InSubtree(parent, order, rank, z, x);
      }
    }
  }

  /** `after` is `before` with some parent links set to None, and no other change. */
  ghost predicate OnlyCut(after: Links, before: Links) {
    && after.Keys == before.Keys
    && forall n :: n in after ==> after[n] == before[n] || after[n] == None
  }

  /** Cutting links can only shrink a subtree. */
  lemma {:induction false} SubtreeAfterCuts(after: Links, before: Links, order: seq<Node>, rank: map<Node, nat>, n: Node)
    requires WellFormed(after, order, rank) && WellFormed(before, order, rank)
    requires OnlyCut(after, before) && n in after
    ensures forall x :: x in Subtree(after, order, rank, n) ==> x in Subtree(before, order, rank, n)
    decreases rank[n]
  {
    forall x | x in Subtree(after, order, rank, n)
      ensures x in Subtree(before, order, rank, n)
    {
      InSubtree(after, order, rank, n, x);
      InSubtree(before, order, rank, n, x);
      if x != n {
        var c :| c in order && after[c] == Some(n) && x in Subtree(after, order, rank, c);
        SubtreeAfterCuts(after, before, order, rank, c);
      }
    }
  }

  /**
   * Conversely, a node of the old subtree that is no longer below `n` hangs under a
   * cut link: some strict descendant `y` of `n` lost its parent and `x` was below `y`.
   */
  lemma {:induction false} SubtreeBeforeCuts(after: Links, before: Links, order: seq<Node>, rank: map<Node, nat>, n: Node, x: Node)
    requires WellFormed(after, order, rank) && WellFormed(before, order, rank)
    requires OnlyCut(after, before) && n in after
    requires x in Subtree(before, order, rank, n)
    ensures || x in Subtree(after, order, rank, n)
            || exists y :: && y in Subtree(before, order, rank, n) && y != n
                           && before[y].Some? && after[y] == None
                           && x in Subtree(before, order, rank, y)
    decreases rank[n]
  {
    InSubtree(before, order, rank, n, x);
    if x != n {
      var c :| c in order && before[c] == Some(n) && x in Subtree(before, order, rank, c);
      InSubtree(before, order, rank, n, c);
      if after[c] == None {
        assert c in Subtree(before, order, rank, n) && c != n && before[c].Some? && after[c] == None
          && x in Subtree(before, order, rank, c);
      } else {
        assert after[c] == Some(n);
        SubtreeBeforeCuts(after, before, order, rank, c, x);
        if x in Subtree(after, order, rank, c) {
          InSubtree(after, order, rank, n, x);
        } else {
          var y :| && y in Subtree(before, order, rank, c) && y != c
                   && before[y].Some? && after[y] == None
                   && x in Subtree(before, order, rank, y);
          SubtreeTransitive(before, order, rank, n, c);
          assert y in Subtree(before, order, rank, n) && y != n;
        }
      }
    }
  }

  /** The live scene: the parent links are the only thing the exporters change. */
  class Scene {
    var parent: Links
    const order: seq<Node>
    ghost const rank: map<Node, nat>

    ghost predicate Valid()
      reads this
    {
      WellFormed(parent, order, rank)
    }

    constructor (links: Links, order: seq<Node>, ghost rank: map<Node, nat>)
      requires WellFormed(links, order, rank)
      ensures Valid() && parent == links && this.order == order && this.rank == rank
    {
      parent := links;
      this.order := order;
      this.rank := rank;
    }
  }
}

/**
 * ExporterMenuSeparate: every object of every selected subtree is detached from its
 * parent, exported as its own FBX file and listed in the manifest with an id and the id
 * of its original parent; the original links are then restored from the static mapping.
 */
module ExporterMenuSeparate {
  import opened Wrappers
  import opened Geometry
  import opened Hierarchy
  import opened Editor
  import opened Paths
  import opened Manifest
  import opened JsonText

  /**
   * The static `childParentMapping` dictionary: the original parent recorded for each
   * detached object, and its keys in insertion order (the order a Dictionary that is never
   * removed from enumerates them in).
   */
  class ChildParentMapping {
    var recorded: map<Node, Option<Node>>
    var keys: seq<Node>

    ghost predicate Valid()
      reads this
    {
      && (forall i, j :: 0 <= i < j < |keys| ==> keys[i] != keys[j])
      && (forall n :: n in recorded <==> n in keys)
    }

    constructor ()
      ensures Valid() && recorded == map[] && keys == []
    {
      recorded := map[];
      keys := [];
    }

    /** Dictionary.ContainsKey: whether the object has a record. */
    predicate ContainsKey(n: Node): (b: bool)
      reads this
      ensures Valid() ==> (b <==> n in keys)
    {
      n in recorded
    }

    /** Dictionary.Add: the key must be new. */
    method Add(n: Node, p: Option<Node>)
      requires Valid() && n !in recorded
      modifies this
      ensures Valid()
      ensures recorded == old(recorded)[n := p] && keys == old(keys) + [n]
    {
      recorded := recorded[n := p];
      keys := keys + [n];
    }

    method Clear()
      modifies this
      ensures Valid() && recorded == map[] && keys == []
    {
      recorded := map[];
      keys := [];
    }
  }

  /** The records only name objects of the scene, and a recorded parent sits above its key. */
  ghost predicate RecordsFit(parent: Links, rank: map<Node, nat>, recorded: map<Node, Option<Node>>) {
    forall k :: k in recorded ==>
      && k in parent && k in rank
      && (recorded[k].Some? ==> recorded[k].value in parent && recorded[k].value in rank && rank[recorded[k].value] > rank[k])
  }

  ghost predicate Consistent(scene: Scene, table: ChildParentMapping)
    reads scene, table
  {
    scene.Valid() && table.Valid() && RecordsFit(scene.parent, scene.rank, table.recorded)
  }

  /** The mapping after `if (!ContainsKey(n)) Add(n, n.parent)`. */
  ghost function AddIfAbsent(rec: map<Node, Option<Node>>, parent: Links, n: Node): (r: map<Node, Option<Node>>)
    requires n in parent
    ensures r.Keys == rec.Keys + {n}
    ensures forall k :: k in rec ==> r[k] == rec[k]
    ensures n !in rec ==> r[n] == parent[n]
  {
    if n in rec then rec else rec[n := parent[n]]
  }

  /** Cutting one link keeps the forest well formed. */
  lemma CutWellFormed(pA: Links, order: seq<Node>, rank: map<Node, nat>, child: Node)
    requires WellFormed(pA, order, rank) && child in pA
    ensures WellFormed(pA[child := None], order, rank) && OnlyCut(pA[child := None], pA)
  {
  }

  /** Recording `child`'s current parent (when new) and cutting its link keeps the records fitting the scene. */
  lemma CutFits(pA: Links, order: seq<Node>, rank: map<Node, nat>, rA: map<Node, Option<Node>>, child: Node)
    requires WellFormed(pA, order, rank) && RecordsFit(pA, rank, rA) && child in pA
    ensures RecordsFit(pA[child := None], rank, AddIfAbsent(rA, pA, child))
  {
  }

  /** Every strict descendant of `y` in the original forest `orig` has lost its parent. */
  ghost predicate Flat(parent: Links, orig: Links, order: seq<Node>, rank: map<Node, nat>, y: Node)
    requires WellFormed(orig, order, rank) && y in orig
  {
    forall x :: x in Subtree(orig, order, rank, y) && x != y ==> x in parent && parent[x] == None
  }

  /**
   * Every object of rank at most `bound` (other than `skip`) that was cut from its original
   * parent has had its whole original subtree flattened: a detach is never left half done.
   */
  ghost predicate CutsFlat(parent: Links, orig: Links, order: seq<Node>, rank: map<Node, nat>, bound: nat, skip: Option<Node>)
    requires WellFormed(orig, order, rank)
  {
    forall y :: y in orig && Some(y) != skip && rank[y] <= bound && orig[y].Some? && y in parent && parent[y] == None ==>
      Flat(parent, orig, order, rank, y)
  }

  /** Flattening survives further cuts. */
  lemma FlatAfterCuts(after: Links, before: Links, orig: Links, order: seq<Node>, rank: map<Node, nat>, y: Node)
    requires WellFormed(orig, order, rank) && y in orig
    requires OnlyCut(after, before) && Flat(before, orig, order, rank, y)
    ensures Flat(after, orig, order, rank, y)
  {
  }

  /**
   * The effect of one UnparentChildRecursive(obj) call on the mapping: old records stay as
   * they were (first record wins), and a new record holds the parent its object had on
   * entry and names a strict descendant of `obj`.
   */
  ghost predicate DetachedRecords(before: Links, recBefore: map<Node, Option<Node>>, recAfter: map<Node, Option<Node>>,
                                  order: seq<Node>, rank: map<Node, nat>, obj: Node)
    requires WellFormed(before, order, rank) && obj in before
  {
    && (forall k :: k in recBefore ==> k in recAfter && recAfter[k] == recBefore[k])
    && (forall k :: k in recAfter && k !in recBefore ==>
          && k in before && recAfter[k] == before[k]
          && k in Subtree(before, order, rank, obj) && k != obj)
  }

  /**
   * Its effect on the links: they are only cut, only at recorded strict descendants of
   * `obj`, and every strict descendant of `obj` ends up recorded and detached.
   */
  ghost predicate DetachedLinks(before: Links, after: Links, recAfter: map<Node, Option<Node>>,
                                order: seq<Node>, rank: map<Node, nat>, obj: Node)
    requires WellFormed(before, order, rank) && obj in before
  {
    && OnlyCut(after, before)
    && (forall n :: n in after && after[n] != before[n] ==>
          n in recAfter && n in Subtree(before, order, rank, obj) && n != obj)
    && (forall n :: n in Subtree(before, order, rank, obj) && n != obj ==>
          n in recAfter && n in after && after[n] == None)
  }

  /** The loop of UnparentChildRecursive(obj), over the walk `ts` from links `p0`: records. */
  ghost predicate ProgressRecords(p0: Links, r0: map<Node, Option<Node>>, r: map<Node, Option<Node>>, obj: Node, ts: seq<Node>) {
    && (forall k :: k in r0 ==> k in r && r[k] == r0[k])
    && (forall k :: k in r && k !in r0 ==> k in p0 && r[k] == p0[k] && k in ts && k != obj)
  }

  /** The loop's links: only recorded nodes of the walk other than `obj` have been cut. */
  ghost predicate ProgressLinks(p0: Links, p: Links, r: map<Node, Option<Node>>, obj: Node, ts: seq<Node>) {
    && OnlyCut(p, p0)
    && (forall n :: n in p && n in p0 && p[n] != p0[n] ==> n in r && n in ts && n != obj)
  }

  /** The loop's flatness: the first `i` nodes of the walk are done, and no other cut is half done. */
  ghost predicate ProgressFlat(p: Links, r: map<Node, Option<Node>>, order: seq<Node>, rank: map<Node, nat>,
                               obj: Node, ts: seq<Node>, i: nat, orig: Links)
    requires WellFormed(orig, order, rank) && obj in orig && i <= |ts|
    requires forall x :: x in ts ==> x in orig
  {
    && (forall j :: 0 <= j < i && ts[j] != obj ==>
          ts[j] in r && ts[j] in p && p[ts[j]] == None && Flat(p, orig, order, rank, ts[j]))
    && CutsFlat(p, orig, order, rank, rank[obj], Some(obj))
  }

  /** What the recursive call on `child` may assume after its link has been cut. */
  lemma BeforeCall(pA: Links, s1: Links, orig: Links, order: seq<Node>, rank: map<Node, nat>, obj: Node, child: Node)
    requires WellFormed(orig, order, rank) && obj in orig && child in orig && rank[child] < rank[obj]
    requires OnlyCut(pA, orig) && s1 == pA[child := None]
    requires CutsFlat(pA, orig, order, rank, rank[obj], Some(obj))
    ensures OnlyCut(s1, orig) && OnlyCut(s1, pA)
    ensures CutsFlat(s1, orig, order, rank, rank[child], Some(child))
  {
    forall y | y in orig && Some(y) != Some(child) && rank[y] <= rank[child] && orig[y].Some? && y in s1 && s1[y] == None
      ensures Flat(s1, orig, order, rank, y)
    {
      FlatAfterCuts(s1, pA, orig, order, rank, y);
    }
  }

  /** Every node of the current subtree of `n` lies in the walk `ts` and is not `obj`. */
  ghost predicate SubtreeInWalk(parent: Links, order: seq<Node>, rank: map<Node, nat>, n: Node, ts: seq<Node>, obj: Node)
    requires WellFormed(parent, order, rank) && n in parent
  {
    forall x :: x in Subtree(parent, order, rank, n) ==> x in ts && x != obj
  }

  /** The walk from `obj` contains, with each child it visits, that child's own current subtree. */
  lemma WithinWalk(p0: Links, s1: Links, order: seq<Node>, rank: map<Node, nat>, obj: Node, ts: seq<Node>, i: nat)
    requires WellFormed(p0, order, rank) && WellFormed(s1, order, rank) && OnlyCut(s1, p0) && obj in p0
    requires ts == Subtree(p0, order, rank, obj) && i < |ts| && ts[i] != obj
    ensures rank[ts[i]] < rank[obj]
    ensures SubtreeInWalk(s1, order, rank, ts[i], ts, obj)
  {
    SubtreeAfterCuts(s1, p0, order, rank, ts[i]);
    SubtreeTransitive(p0, order, rank, obj, ts[i]);
  }

  /** Every key of `rA` is a key of `rB`. */
  ghost predicate KeysKept(rA: map<Node, Option<Node>>, rB: map<Node, Option<Node>>) {
    forall k :: k in rA ==> k in rB
  }

  /** Every link that differs between `before` and `after` belongs to a node of rank at most `bound`. */
  ghost predicate ChangedBelow(before: Links, after: Links, rank: map<Node, nat>, bound: nat) {
    forall n :: n in after && n in before && after[n] != before[n] ==> n in rank && rank[n] <= bound
  }

  /** One turn of the loop keeps ProgressRecords. */
  lemma StepRecords(p0: Links, r0: map<Node, Option<Node>>, order: seq<Node>, rank: map<Node, nat>, obj: Node,
                    ts: seq<Node>, i: nat, pA: Links, rA: map<Node, Option<Node>>, r1: map<Node, Option<Node>>,
                    rB: map<Node, Option<Node>>)
    requires i < |ts| && WellFormed(pA[ts[i] := None], order, rank)
    requires SubtreeInWalk(pA[ts[i] := None], order, rank, ts[i], ts, obj)
    requires ts[i] != obj && ts[i] in pA
    requires ProgressRecords(p0, r0, rA, obj, ts) && ProgressLinks(p0, pA, rA, obj, ts)
    requires r1 == AddIfAbsent(rA, pA, ts[i])
    requires DetachedRecords(pA[ts[i] := None], r1, rB, order, rank, ts[i])
    ensures ProgressRecords(p0, r0, rB, obj, ts)
  {
    var s1 := pA[ts[i] := None];
    var child := ts[i];
    forall k | k in r0
      ensures k in rB && rB[k] == r0[k]
    {
      assert k in rA && rA[k] == r0[k];
      assert k in r1 && r1[k] == rA[k];
    }
    forall k | k in rB && k !in r0
      ensures k in p0 && rB[k] == p0[k] && k in ts && k != obj
    {
      if k in rA {
        assert k in r1 && rB[k] == r1[k] && r1[k] == rA[k];
      } else if k == child {
        assert k in r1 && rB[k] == r1[k] && r1[k] == pA[k];
        assert pA[k] == p0[k];
      } else {
        assert k !in r1;
        assert k in Subtree(s1, order, rank, child) && rB[k] == s1[k];
        assert s1[k] == pA[k] && pA[k] == p0[k];
      }
    }
  }

  /** One turn of the loop keeps ProgressLinks. */
  lemma StepLinks(p0: Links, order: seq<Node>, rank: map<Node, nat>, obj: Node,
                  ts: seq<Node>, i: nat, pA: Links, rA: map<Node, Option<Node>>,
                  pB: Links, rB: map<Node, Option<Node>>)
    requires i < |ts| && WellFormed(pA[ts[i] := None], order, rank)
    requires SubtreeInWalk(pA[ts[i] := None], order, rank, ts[i], ts, obj)
    requires ts[i] != obj
    requires ProgressLinks(p0, pA, rA, obj, ts)
    requires ts[i] in pA
    requires KeysKept(rA, rB) && ts[i] in rB
    requires DetachedLinks(pA[ts[i] := None], pB, rB, order, rank, ts[i])
    ensures ProgressLinks(p0, pB, rB, obj, ts)
  {
    var s1 := pA[ts[i] := None];
    var child := ts[i];
    assert pB.Keys == s1.Keys == pA.Keys == p0.Keys;
    forall n | n in pB
      ensures pB[n] == p0[n] || pB[n] == None
    {
      assert pB[n] == s1[n] || pB[n] == None;
      assert s1[n] == pA[n] || s1[n] == None;
    }
    forall n | n in pB && n in p0 && pB[n] != p0[n]
      ensures n in rB && n in ts && n != obj
    {
      if pB[n] != s1[n] {
        assert n in rB && n in Subtree(s1, order, rank, child);
      } else if n != child {
        assert pA[n] != p0[n];
      }
    }
  }

  /** The records only grow during one turn, and gain the child of that turn. */
  lemma RecordsGrow(s1: Links, order: seq<Node>, rank: map<Node, nat>, child: Node,
                    rA: map<Node, Option<Node>>, r1: map<Node, Option<Node>>, rB: map<Node, Option<Node>>)
    requires WellFormed(s1, order, rank) && child in s1
    requires (forall k :: k in rA ==> k in r1) && child in r1
    requires DetachedRecords(s1, r1, rB, order, rank, child)
    ensures KeysKept(rA, rB) && child in rB
  {
  }

  /** One turn of the loop keeps ProgressFlat. */
  lemma StepFlat(order: seq<Node>, rank: map<Node, nat>, obj: Node, ts: seq<Node>, i: nat, orig: Links,
                 pA: Links, rA: map<Node, Option<Node>>,
                 pB: Links, rB: map<Node, Option<Node>>)
    requires WellFormed(orig, order, rank) && obj in orig && i < |ts| && ts[i] != obj
    requires forall x :: x in ts ==> x in orig
    requires rank[ts[i]] < rank[obj]
    requires ProgressFlat(pA, rA, order, rank, obj, ts, i, orig)
    requires ts[i] in pA
    requires KeysKept(rA, rB) && ts[i] in rB
    requires OnlyCut(pA[ts[i] := None], pA) && OnlyCut(pB, pA[ts[i] := None]) && pB[ts[i]] == None
    requires ChangedBelow(pA[ts[i] := None], pB, rank, rank[ts[i]])
    requires Flat(pB, orig, order, rank, ts[i]) && CutsFlat(pB, orig, order, rank, rank[ts[i]], None)
    ensures ProgressFlat(pB, rB, order, rank, obj, ts, i + 1, orig)
  {
    var s1 := pA[ts[i] := None];
    var child := ts[i];
    forall j | 0 <= j <= i && ts[j] != obj
      ensures ts[j] in rB && ts[j] in pB && pB[ts[j]] == None && Flat(pB, orig, order, rank, ts[j])
    {
      if j < i {
        FlatAfterCuts(s1, pA, orig, order, rank, ts[j]);
        FlatAfterCuts(pB, s1, orig, order, rank, ts[j]);
      }
    }
    forall y | y in orig && Some(y) != Some(obj) && rank[y] <= rank[obj] && orig[y].Some? && y in pB && pB[y] == None
      ensures Flat(pB, orig, order, rank, y)
    {
      if rank[y] > rank[child] {
        assert pA[y] == None;
        FlatAfterCuts(s1, pA, orig, order, rank, y);
        FlatAfterCuts(pB, s1, orig, order, rank, y);
      }
    }
  }

  lemma PrefixTransitive(a: seq<Node>, b: seq<Node>, c: seq<Node>)
    requires a <= b && b <= c
    ensures a <= c
  {
  }

  /** The turn that meets `obj` itself in the walk changes nothing. */
  lemma StepSkip(p: Links, r: map<Node, Option<Node>>, order: seq<Node>, rank: map<Node, nat>, obj: Node, ts: seq<Node>, i: nat, orig: Links)
    requires WellFormed(orig, order, rank) && obj in orig && i < |ts| && ts[i] == obj
    requires forall x :: x in ts ==> x in orig
    requires ProgressFlat(p, r, order, rank, obj, ts, i, orig)
    ensures ProgressFlat(p, r, order, rank, obj, ts, i + 1, orig)
  {
  }

  /** The finished loop: the call has done what Detached says, and the original subtree is flat. */
  lemma ProgressDone(p0: Links, r0: map<Node, Option<Node>>, p: Links, r: map<Node, Option<Node>>,
                     order: seq<Node>, rank: map<Node, nat>, obj: Node, ts: seq<Node>, orig: Links)
    requires WellFormed(orig, order, rank) && WellFormed(p0, order, rank) && OnlyCut(p0, orig) && obj in p0
    requires ts == Subtree(p0, order, rank, obj)
    requires CutsFlat(p0, orig, order, rank, rank[obj], Some(obj))
    requires ProgressRecords(p0, r0, r, obj, ts) && ProgressLinks(p0, p, r, obj, ts)
    requires ProgressFlat(p, r, order, rank, obj, ts, |ts|, orig)
    ensures DetachedRecords(p0, r0, r, order, rank, obj) && DetachedLinks(p0, p, r, order, rank, obj)
    ensures Flat(p, orig, order, rank, obj) && CutsFlat(p, orig, order, rank, rank[obj], None)
  {
    WalkDone(p0, p, r, order, rank, obj, ts, orig);
    OriginalSubtreeDone(p0, p, r, order, rank, obj, ts, orig);
  }

  /** After the loop every node of the walk other than `obj` is recorded and detached. */
  lemma WalkDone(p0: Links, p: Links, r: map<Node, Option<Node>>,
                 order: seq<Node>, rank: map<Node, nat>, obj: Node, ts: seq<Node>, orig: Links)
    requires WellFormed(orig, order, rank) && WellFormed(p0, order, rank) && OnlyCut(p0, orig) && obj in p0
    requires ts == Subtree(p0, order, rank, obj)
    requires ProgressLinks(p0, p, r, obj, ts)
    requires ProgressFlat(p, r, order, rank, obj, ts, |ts|, orig)
    ensures DetachedLinks(p0, p, r, order, rank, obj)
  {
    forall n | n in ts && n != obj
      ensures n in r && n in p && p[n] == None
    {
      var j :| 0 <= j < |ts| && ts[j] == n;
    }
  }

  /** After the loop the original subtree of `obj` is flat, cuts made before the call included. */
  lemma OriginalSubtreeDone(p0: Links, p: Links, r: map<Node, Option<Node>>,
                            order: seq<Node>, rank: map<Node, nat>, obj: Node, ts: seq<Node>, orig: Links)
    requires WellFormed(orig, order, rank) && WellFormed(p0, order, rank) && OnlyCut(p0, orig) && obj in p0
    requires ts == Subtree(p0, order, rank, obj)
    requires CutsFlat(p0, orig, order, rank, rank[obj], Some(obj))
    requires ProgressLinks(p0, p, r, obj, ts)
    requires DetachedLinks(p0, p, r, order, rank, obj)
    requires ProgressFlat(p, r, order, rank, obj, ts, |ts|, orig)
    ensures Flat(p, orig, order, rank, obj) && CutsFlat(p, orig, order, rank, rank[obj], None)
  {
    forall x | x in Subtree(orig, order, rank, obj) && x != obj
      ensures x in p && p[x] == None
    {
      SubtreeBeforeCuts(p0, orig, order, rank, obj, x);
      if x !in ts {
        var y :| && y in Subtree(orig, order, rank, obj) && y != obj
                 && orig[y].Some? && p0[y] == None
                 && x in Subtree(orig, order, rank, y);
        assert Flat(p0, orig, order, rank, y);
      }
    }
  }

  /** The turn that meets a descendant `ts[i]`: what DetachDescendant needs, and the walk covers its subtree. */
  lemma BeforeRecursion(p0: Links, orig: Links, order: seq<Node>, rank: map<Node, nat>,
                        obj: Node, ts: seq<Node>, i: nat, pA: Links, rA: map<Node, Option<Node>>)
    requires WellFormed(p0, order, rank) && obj in p0 && ts == Subtree(p0, order, rank, obj)
    requires WellFormed(orig, order, rank) && OnlyCut(p0, orig)
    requires i < |ts| && ts[i] != obj
    requires WellFormed(pA, order, rank) && OnlyCut(pA, orig)
    requires ProgressLinks(p0, pA, rA, obj, ts) && ProgressFlat(pA, rA, order, rank, obj, ts, i, orig)
    ensures ts[i] in pA && rank[ts[i]] < rank[obj]
    ensures WellFormed(pA[ts[i] := None], order, rank)
    ensures OnlyCut(pA[ts[i] := None], orig)
    ensures CutsFlat(pA[ts[i] := None], orig, order, rank, rank[ts[i]], Some(ts[i]))
    ensures SubtreeInWalk(pA[ts[i] := None], order, rank, ts[i], ts, obj)
  {
    var child := ts[i];
    CutWellFormed(pA, order, rank, child);
    assert OnlyCut(pA[ts[i] := None], p0);
    WithinWalk(p0, pA[ts[i] := None], order, rank, obj, ts, i);
    BeforeCall(pA, pA[ts[i] := None], orig, order, rank, obj, child);
  }

  /** The same turn after the recursive call: ProgressRecords and ProgressLinks move on to `i + 1`. */
  lemma AfterRecursion(p0: Links, r0: map<Node, Option<Node>>, order: seq<Node>, rank: map<Node, nat>,
                       obj: Node, ts: seq<Node>, i: nat, pA: Links, rA: map<Node, Option<Node>>, r1: map<Node, Option<Node>>,
                       pB: Links, rB: map<Node, Option<Node>>)
    requires i < |ts| && ts[i] != obj && ts[i] in pA
    requires WellFormed(pA[ts[i] := None], order, rank)
    requires SubtreeInWalk(pA[ts[i] := None], order, rank, ts[i], ts, obj)
    requires ProgressRecords(p0, r0, rA, obj, ts) && ProgressLinks(p0, pA, rA, obj, ts)
    requires r1 == AddIfAbsent(rA, pA, ts[i])
    requires DetachedRecords(pA[ts[i] := None], r1, rB, order, rank, ts[i])
    requires DetachedLinks(pA[ts[i] := None], pB, rB, order, rank, ts[i])
    ensures ProgressRecords(p0, r0, rB, obj, ts) && ProgressLinks(p0, pB, rB, obj, ts)
  {
    StepRecords(p0, r0, order, rank, obj, ts, i, pA, rA, r1, rB);
    assert forall k :: k in rA ==> k in r1;
    RecordsGrow(pA[ts[i] := None], order, rank, ts[i], rA, r1, rB);
    StepLinks(p0, order, rank, obj, ts, i, pA, rA, pB, rB);
  }

  /** The same turn after the recursive call: ProgressFlat moves on to `i + 1`. */
  lemma AfterRecursionFlat(orig: Links, order: seq<Node>, rank: map<Node, nat>,
                           obj: Node, ts: seq<Node>, i: nat, pA: Links, rA: map<Node, Option<Node>>, r1: map<Node, Option<Node>>,
                           pB: Links, rB: map<Node, Option<Node>>)
    requires WellFormed(orig, order, rank) && obj in orig && forall x :: x in ts ==> x in orig
    requires i < |ts| && ts[i] != obj && ts[i] in pA && rank[ts[i]] < rank[obj]
    requires WellFormed(pA[ts[i] := None], order, rank)
    requires ProgressFlat(pA, rA, order, rank, obj, ts, i, orig)
    requires r1 == AddIfAbsent(rA, pA, ts[i])
    requires DetachedRecords(pA[ts[i] := None], r1, rB, order, rank, ts[i])
    requires DetachedLinks(pA[ts[i] := None], pB, rB, order, rank, ts[i])
    requires Flat(pB, orig, order, rank, ts[i]) && CutsFlat(pB, orig, order, rank, rank[ts[i]], None)
    ensures ProgressFlat(pB, rB, order, rank, obj, ts, i + 1, orig)
  {
    CutDetails(pA, pB, rB, order, rank, ts[i]);
    assert forall k :: k in rA ==> k in r1;
    RecordsGrow(pA[ts[i] := None], order, rank, ts[i], rA, r1, rB);
    StepFlat(order, rank, obj, ts, i, orig, pA, rA, pB, rB);
  }

  /** What DetachedLinks says about the links around one turn, in the form StepFlat uses. */
  lemma CutDetails(pA: Links, pB: Links, rB: map<Node, Option<Node>>, order: seq<Node>, rank: map<Node, nat>, child: Node)
    requires child in pA && WellFormed(pA[child := None], order, rank)
    requires DetachedLinks(pA[child := None], pB, rB, order, rank, child)
    ensures OnlyCut(pA[child := None], pA) && OnlyCut(pB, pA[child := None]) && pB[child] == None
    ensures ChangedBelow(pA[child := None], pB, rank, rank[child])
  {
    var s1 := pA[child := None];
    assert s1.Keys == pA.Keys;
    forall n | n in pB && n in s1 && pB[n] != s1[n]
      ensures n in rank && rank[n] <= rank[child]
    {
      assert n in Subtree(s1, order, rank, child);
    }
  }

  /**
   * UnparentChildRecursive(obj): over a snapshot of GetComponentsInChildren, every
   * descendant of `obj` (not `obj` itself) is recorded with its current parent unless
   * already recorded, detached, and then processed the same way.
   *
   * `orig` is the forest before the whole detach phase began; the last postcondition says
   * that the original subtree of `obj`, not only its current one, ends up flat.
   */
  method UnparentChildRecursive(scene: Scene, table: ChildParentMapping, obj: Node, ghost orig: Links)
    requires Consistent(scene, table) && obj in scene.parent
    requires WellFormed(orig, scene.order, scene.rank) && OnlyCut(scene.parent, orig)
    requires CutsFlat(scene.parent, orig, scene.order, scene.rank, scene.rank[obj], Some(obj))
    modifies scene, table
    decreases scene.rank[obj], 1
    ensures Consistent(scene, table) && OnlyCut(scene.parent, orig)
    ensures old(table.keys) <= table.keys
    ensures DetachedRecords(old(scene.parent), old(table.recorded), table.recorded, scene.order, scene.rank, obj)
    ensures DetachedLinks(old(scene.parent), scene.parent, table.recorded, scene.order, scene.rank, obj)
    ensures Flat(scene.parent, orig, scene.order, scene.rank, obj)
    ensures CutsFlat(scene.parent, orig, scene.order, scene.rank, scene.rank[obj], None)
  {
    ghost var p0 := scene.parent;
    ghost var r0 := table.recorded;
    var ts := Subtree(scene.parent, scene.order, scene.rank, obj);
    var i := 0;
    while i < |ts|
      invariant 0 <= i <= |ts|
      invariant Consistent(scene, table) && OnlyCut(scene.parent, orig)
      invariant old(table.keys) <= table.keys
      invariant ProgressRecords(p0, r0, table.recorded, obj, ts)
      invariant ProgressLinks(p0, scene.parent, table.recorded, obj, ts)
      invariant ProgressFlat(scene.parent, table.recorded, scene.order, scene.rank, obj, ts, i, orig)
    {
      var child := ts[i];
      if child != obj {
        ghost var pA, rA, kA := scene.parent, table.recorded, table.keys;
        BeforeRecursion(p0, orig, scene.order, scene.rank, obj, ts, i, pA, rA);
        DetachDescendant(scene, table, child, orig);
        ghost var r1 := AddIfAbsent(rA, pA, child);
        AfterRecursion(p0, r0, scene.order, scene.rank, obj, ts, i, pA, rA, r1, scene.parent, table.recorded);
        AfterRecursionFlat(orig, scene.order, scene.rank, obj, ts, i, pA, rA, r1, scene.parent, table.recorded);
        PrefixTransitive(old(table.keys), kA, table.keys);
      } else {
        StepSkip(scene.parent, table.recorded, scene.order, scene.rank, obj, ts, i, orig);
      }
      i := i + 1;
    }
    ProgressDone(p0, r0, scene.parent, table.recorded, scene.order, scene.rank, obj, ts, orig);
  }

  /**
   * The body of the loop of UnparentChildRecursive at a descendant `child`: record its
   * parent unless already recorded, cut its link, and recurse into it.
   */
  method DetachDescendant(scene: Scene, table: ChildParentMapping, child: Node, ghost orig: Links)
    requires Consistent(scene, table) && child in scene.parent
    requires WellFormed(orig, scene.order, scene.rank) && OnlyCut(scene.parent[child := None], orig)
    requires CutsFlat(scene.parent[child := None], orig, scene.order, scene.rank, scene.rank[child], Some(child))
    modifies scene, table
    decreases scene.rank[child], 2
    ensures Consistent(scene, table) && OnlyCut(scene.parent, orig)
    ensures old(table.keys) <= table.keys
    ensures WellFormed(old(scene.parent)[child := None], scene.order, scene.rank)
    ensures DetachedRecords(old(scene.parent)[child := None], AddIfAbsent(old(table.recorded), old(scene.parent), child),
                            table.recorded, scene.order, scene.rank, child)
    ensures DetachedLinks(old(scene.parent)[child := None], scene.parent, table.recorded, scene.order, scene.rank, child)
    ensures Flat(scene.parent, orig, scene.order, scene.rank, child)
    ensures CutsFlat(scene.parent, orig, scene.order, scene.rank, scene.rank[child], None)
  {
    ghost var rA := table.recorded;
    if !table.ContainsKey(child) {
      table.Add(child, scene.parent[child]);
    }
    ghost var pA, k1 := scene.parent, table.keys;
    assert pA == old(scene.parent);
    CutWellFormed(pA, scene.order, scene.rank, child);
    CutFits(pA, scene.order, scene.rank, rA, child);
    scene.parent := scene.parent[child := None];
    UnparentChildRecursive(scene, table, child, orig);
    PrefixTransitive(old(table.keys), k1, table.keys);
  }

  /** Restoring links from records that fit keeps the scene well formed. */
  lemma RestoreFits(p: Links, order: seq<Node>, rank: map<Node, nat>, rec: map<Node, Option<Node>>, key: Node)
    requires WellFormed(p, order, rank) && RecordsFit(p, rank, rec) && key in rec
    ensures WellFormed(p[key := rec[key]], order, rank) && RecordsFit(p[key := rec[key]], rank, rec)
  {
  }

  /** One turn of the re-parenting loop: the next key gets its recorded parent back. */
  lemma RestoreStep(p: Links, p0: Links, order: seq<Node>, rank: map<Node, nat>, rec: map<Node, Option<Node>>, keys: seq<Node>, i: nat)
    requires WellFormed(p, order, rank) && RecordsFit(p, rank, rec)
    requires i < |keys| && (forall k :: k in keys ==> k in rec) && p.Keys == p0.Keys
    requires forall n :: n in p ==> p[n] == if n in keys[..i] then rec[n] else p0[n]
    ensures var q := p[keys[i] := rec[keys[i]]];
      && WellFormed(q, order, rank) && RecordsFit(q, rank, rec) && q.Keys == p.Keys
      && forall n :: n in q ==> q[n] == if n in keys[..i + 1] then rec[n] else p0[n]
  {
    RestoreFits(p, order, rank, rec, keys[i]);
    assert keys[..i + 1] == keys[..i] + [keys[i]];
  }

  /**
   * The "Re-Parent all object" loop and the Clear that follows it: every key gets its
   * recorded parent back, every other object keeps its link, and the mapping is emptied.
   */
  method Reparent(scene: Scene, table: ChildParentMapping)
    requires Consistent(scene, table)
    modifies scene, table
    ensures Consistent(scene, table) && table.recorded == map[] && table.keys == []
    ensures scene.parent.Keys == old(scene.parent).Keys
    ensures forall n :: n in scene.parent ==>
      scene.parent[n] == if n in old(table.recorded) then old(table.recorded)[n] else old(scene.parent)[n]
  {
    ghost var p0 := scene.parent;
    var keys, rec := table.keys, table.recorded;
    var i := 0;
    while i < |keys|
      invariant 0 <= i <= |keys|
      invariant scene.Valid() && RecordsFit(scene.parent, scene.rank, rec)
      invariant scene.parent.Keys == p0.Keys
      invariant forall n :: n in scene.parent ==> scene.parent[n] == if n in keys[..i] then rec[n] else p0[n]
    {
      var key := keys[i];
      RestoreStep(scene.parent, p0, scene.order, scene.rank, rec, keys, i);
      scene.parent := scene.parent[key := rec[key]];
      i := i + 1;
    }
    assert keys[..|keys|] == keys;
    table.Clear();
  }

  /**
   * `objectToIDMapping`: the keys of the mapping, in iteration order, numbered from 2
   * upwards (a key seen again keeps its number, as the ContainsKey guard does).
   */
  function Ids(keys: seq<Node>): (ids: map<Node, int>)
    ensures forall k :: k in ids <==> k in keys
    ensures forall k :: k in ids ==> 2 <= ids[k] < |ids| + 2
  {
    if keys == [] then map[]
    else
      var m := Ids(keys[..|keys| - 1]);
      var k := keys[|keys| - 1];
      assert forall x :: x in keys <==> x in keys[..|keys| - 1] || x == k;
      if k in m then m else m[k := |m| + 2]
  }

  /** Ids are pairwise distinct. */
  lemma {:induction false} IdsDistinct(keys: seq<Node>)
    ensures forall a, b :: a in Ids(keys) && b in Ids(keys) && a != b ==> Ids(keys)[a] != Ids(keys)[b]
  {
    if keys != [] {
      IdsDistinct(keys[..|keys| - 1]);
    }
  }

  /** Over distinct keys (as the mapping's are) the ids are exactly 2, 3, 4, ... in key order. */
  lemma {:induction false} IdsConsecutive(keys: seq<Node>)
    requires forall i, j :: 0 <= i < j < |keys| ==> keys[i] != keys[j]
    ensures |Ids(keys)| == |keys|
    ensures forall i :: 0 <= i < |keys| ==> Ids(keys)[keys[i]] == i + 2
  {
    if keys != [] {
      var init := keys[..|keys| - 1];
      IdsConsecutive(init);
      assert keys[|keys| - 1] !in init;
      assert forall i :: 0 <= i < |init| ==> keys[i] == init[i];
    }
  }

  lemma IdsStep(keys: seq<Node>, j: nat)
    requires j < |keys|
    ensures Ids(keys[..j + 1]) == var m := Ids(keys[..j]); if keys[j] in m then m else m[keys[j] := |m| + 2]
  {
    var pre := keys[..j + 1];
    assert pre[..|pre| - 1] == keys[..j];
    assert pre[|pre| - 1] == keys[j];
  }

  /** The id number written as `parentID`: the recorded parent's id when it has one, otherwise 0. */
  function ParentNumber(recorded: map<Node, Option<Node>>, ids: map<Node, int>, n: Node): (r: int)
    requires n in recorded
    ensures recorded[n].Some? && recorded[n].value in ids ==> r == ids[recorded[n].value]
    ensures (forall k :: k in ids ==> ids[k] != 0) ==> (r == 0 <==> recorded[n].None? || recorded[n].value !in ids)
  {
    var parent := recorded[n];
    if parent.Some? && parent.value in ids then ids[parent.value] else 0
  }

  /**
   * Parent resolution: the parent number is the sentinel 0 exactly when the recorded parent
   * is null or not itself a key; otherwise it is that parent's id, which is at least 2.
   */
  lemma ParentResolution(keys: seq<Node>, recorded: map<Node, Option<Node>>, n: Node)
    requires n in recorded
    ensures ParentNumber(recorded, Ids(keys), n) == 0 <==> recorded[n].None? || recorded[n].value !in keys
    ensures recorded[n].Some? && recorded[n].value in keys ==>
      ParentNumber(recorded, Ids(keys), n) == Ids(keys)[recorded[n].value] >= 2
  {
  }

  /**
   * With an injective formatter, formatted ids never collide with each other or with the
   * formatted sentinel, and `parentID` names the parent's own `id` exactly when the parent
   * is part of the mapping.
   */
  lemma FormattedIds(keys: seq<Node>, recorded: map<Node, Option<Node>>, fmt: int -> string, n: Node)
    requires forall a, b :: fmt(a) == fmt(b) ==> a == b
    requires n in recorded
    ensures forall a, b :: a in keys && b in keys && a != b ==> fmt(Ids(keys)[a]) != fmt(Ids(keys)[b])
    ensures forall a :: a in keys ==> fmt(Ids(keys)[a]) != fmt(0)
    ensures fmt(ParentNumber(recorded, Ids(keys), n)) == fmt(0) <==> recorded[n].None? || recorded[n].value !in keys
  {
    ParentResolution(keys, recorded, n);
    IdsDistinct(keys);
  }

  /** One manifest entry of the separate exporter (the fields SerializeJSON is given here). */
  datatype SeparateRecord = SeparateRecord(
    typeName: string,
    shapeType: Option<string>,
    modelURL: string,
    position: Vec3,
    registrationPoint: Vec3,
    dimensions: Vec3,
    id: string,
    parentID: string)

  /**
   * The entry for object `n`: X-flipped world position; the registration point of its mesh
   * bounds (zero without a mesh); mesh size times local scale, with (1,1,1) for a zero
   * result; Light / "" / Model with the "compound" shape; its id and its parent's id; and
   * the URL of the FBX file written for it.
   */
  function SeparateEntry(n: Node, info: Node -> NodeInfo, recorded: map<Node, Option<Node>>, ids: map<Node, int>,
                         dataPath: string, path: string, fmt: int -> string): (e: SeparateRecord)
    requires n in recorded && n in ids
    ensures e.position.x + info(n).position.x == 0.0
    ensures e.position.y == info(n).position.y && e.position.z == info(n).position.z
    ensures e.dimensions != Zero
    ensures info(n).mesh.None? ==> e.registrationPoint == Zero && e.dimensions == One
    ensures info(n).mesh.Some? ==> e.registrationPoint == Registration(info(n).mesh.value)
    ensures info(n).mesh.Some? && Scale(Size(info(n).mesh.value), info(n).localScale) != Zero ==>
      e.dimensions == Scale(Size(info(n).mesh.value), info(n).localScale)
    ensures info(n).mesh.Some? && Scale(Size(info(n).mesh.value), info(n).localScale) == Zero ==> e.dimensions == One
    ensures e.typeName == "Light" <==> info(n).light
    ensures e.typeName == "" <==> !info(n).light && info(n).camera
    ensures e.shapeType.Some? <==> !info(n).light && !info(n).camera
    ensures var c := SeparateClassification(info(n).light, info(n).camera); e.typeName == c.typeName && e.shapeType == c.shapeType
    ensures e.id == fmt(ids[n]) && e.parentID == fmt(ParentNumber(recorded, ids, n))
    ensures e.modelURL == "file:///" + ProjectDirectory(dataPath) + FbxFileName(path, info(n).name)
  {
    var o := info(n);
    var c := SeparateClassification(o.light, o.camera);
    var bounds := if o.mesh.Some? then o.mesh.value else EmptyBounds;
    SeparateRecord(
      c.typeName,
      c.shapeType,
      ModelUrl(dataPath, path, o.name),
      FlipX(o.position),
      if o.mesh.Some? then Registration(o.mesh.value) else Zero,
      OrUnit(Scale(Size(bounds), o.localScale)),
      fmt(ids[n]),
      fmt(ParentNumber(recorded, ids, n)))
  }

  /** The serialized entries of `objs`, in list order. */
  function SeparateJsons(objs: seq<Node>, info: Node -> NodeInfo, recorded: map<Node, Option<Node>>, ids: map<Node, int>,
                         dataPath: string, path: string, fmt: int -> string, toJson: SeparateRecord -> string): (parts: seq<string>)
    requires forall o :: o in objs ==> o in recorded && o in ids
    ensures |parts| == |objs|
    ensures forall i :: 0 <= i < |objs| ==> parts[i] == toJson(SeparateEntry(objs[i], info, recorded, ids, dataPath, path, fmt))
  {
    seq(|objs|, i requires 0 <= i < |objs| => toJson(SeparateEntry(objs[i], info, recorded, ids, dataPath, path, fmt)))
  }

  /** The id loop of ExportGameObjectAsJson over the mapping's keys. */
  method NumberKeys(keys: seq<Node>) returns (objectToID: map<Node, int>)
    ensures objectToID == Ids(keys)
  {
    objectToID := map[];
    var objectID := 2;
    var j := 0;
    while j < |keys|
      invariant 0 <= j <= |keys|
      invariant objectToID == Ids(keys[..j]) && objectID == |objectToID| + 2
    {
      var key := keys[j];
      IdsStep(keys, j);
      if key !in objectToID {
        objectToID := objectToID[key := objectID];
        objectID := objectID + 1;
      }
      j := j + 1;
    }
    assert keys[..|keys|] == keys;
  }

  /**
   * The StringBuilder loop of ExportGameObjectAsJson. Every object is emitted, so the commas
   * come out right: the text is the envelope around the entries joined by commas.
   */
  method WriteEntries(objs: seq<Node>, path: string, recorded: map<Node, Option<Node>>, objectToID: map<Node, int>,
                      info: Node -> NodeInfo, dataPath: string, fmt: int -> string, toJson: SeparateRecord -> string)
    returns (text: string)
    requires forall o :: o in objs ==> o in recorded && o in objectToID
    ensures text == Open + Join(SeparateJsons(objs, info, recorded, objectToID, dataPath, path, fmt, toJson)) + Close
  {
    ghost var parts := SeparateJsons(objs, info, recorded, objectToID, dataPath, path, fmt, toJson);
    ghost var items := AllSome(parts);
    var sb := Open;
    var i := 0;
    while i < |objs|
      invariant 0 <= i <= |objs|
      invariant sb == Open + Body(items, i)
    {
      var entry := SeparateEntry(objs[i], info, recorded, objectToID, dataPath, path, fmt);
      var jsonString := toJson(entry);
      assert jsonString == parts[i];
      BodyStep(Open, parts, i);
      sb := sb + jsonString;
      if i != |objs| - 1 {
        sb := sb + ",";
      }
      i := i + 1;
    }
    DocumentOfAllPresent(parts);
    text := sb + Close;
  }

  /**
   * ExportGameObjectAsJson: the ids of the mapping's keys, then the entries of `objs`. The
   * text is stored in `jsonFile`, the answer of the file dialog; the result is None when
   * WriteAllText throws instead.
   */
  method ExportGameObjectAsJson(objs: seq<Node>, path: string, table: ChildParentMapping, info: Node -> NodeInfo,
                                dataPath: string, jsonFile: string, fmt: int -> string, toJson: SeparateRecord -> string)
    returns (json: Option<string>)
    requires table.Valid() && forall o :: o in objs ==> o in table.recorded
    ensures WriteAllTextThrows(jsonFile) ==> json == None
    ensures !WriteAllTextThrows(jsonFile) ==>
      json == Some(Open + Join(SeparateJsons(objs, info, table.recorded, Ids(table.keys), dataPath, path, fmt, toJson)) + Close)
  {
    var objectToID := NumberKeys(table.keys);
    var text := WriteEntries(objs, path, table.recorded, objectToID, info, dataPath, fmt, toJson);
    if WriteAllTextThrows(jsonFile) {
      return None;
    }
    json := Some(text);
  }

  /**
   * ExportGameObject: a null reference stops everything with one warning; otherwise the
   * folder is chosen and every object is written to "<folder>/<name>.fbx", a failed write
   * adding a warning without stopping the batch. The folder is returned (None for null).
   */
  method ExportGameObject(objs: seq<Option<Node>>, info: Node -> NodeInfo, copyMaterials: bool, copyTextures: bool,
                          oldPath: Option<string>, chosenFolder: string, exported: ExportCall -> bool)
    returns (newPath: Option<string>, calls: seq<ExportCall>, notices: seq<Notice>)
    ensures !NoneNull(objs) ==> newPath == None && calls == [] && notices == [ObjectIsNull]
    ensures NoneNull(objs) ==>
      var choice := GetNewPath(oldPath, chosenFolder);
      && newPath == choice.path
      && calls == (if choice.path.None? then [] else ExportCalls(Deref(objs), choice.path.value, info, copyMaterials, copyTextures))
      && notices == choice.notices + FailureNotices(calls, exported)
  {
    var k := 0;
    while k < |objs|
      invariant 0 <= k <= |objs|
      invariant forall i :: 0 <= i < k ==> objs[i].Some?
    {
      if objs[k].None? {
        assert !NoneNull(objs);
        return None, [], [ObjectIsNull];
      }
      k := k + 1;
    }
    var choice := GetNewPath(oldPath, chosenFolder);
    newPath := choice.path;
    if newPath.None? {
      return newPath, [], choice.notices;
    }
    var failures;
    calls, failures := WriteFbxFiles(objs, newPath.value, info, copyMaterials, copyTextures, exported);
    notices := choice.notices + failures;
  }

  /**
   * The export loop of ExportGameObject: every object is written to "<folder>/<name>.fbx";
   * each failed write adds one warning and the loop goes on.
   */
  method WriteFbxFiles(objs: seq<Option<Node>>, folder: string, info: Node -> NodeInfo, copyMaterials: bool, copyTextures: bool,
                       exported: ExportCall -> bool) returns (calls: seq<ExportCall>, failures: seq<Notice>)
    requires NoneNull(objs)
    ensures calls == ExportCalls(Deref(objs), folder, info, copyMaterials, copyTextures)
    ensures failures == FailureNotices(calls, exported)
  {
    ghost var targets := Deref(objs);
    calls, failures := [], [];
    var i := 0;
    while i < |objs|
      invariant 0 <= i <= |objs|
      invariant calls == ExportCalls(targets[..i], folder, info, copyMaterials, copyTextures)
      invariant failures == FailureNotices(calls, exported)
    {
      var obj := objs[i].value;
      var fileName := FbxFileName(folder, info(obj).name);
      assert targets[..i + 1] == targets[..i] + [obj];
      ExportCallsSnoc(targets[..i], obj, folder, info, copyMaterials, copyTextures);
      if |fileName| != 0 {
        var call := ExportCall(obj, fileName, copyMaterials, copyTextures);
        var isSuccess := exported(call);
        FailureNoticesSnoc(calls, call, exported);
        calls := calls + [call];
        if !isSuccess {
          failures := failures + [ExportFailed];
        }
      }
      i := i + 1;
    }
    assert targets[..|objs|] == targets;
  }

  // ---------------------------------------------------------------------------------------
  // ExportCurrentGameObject: detach every selected subtree, export the keys, restore.
  // ---------------------------------------------------------------------------------------

  /** Every link that differs from the forest `p0` belongs to a recorded object. */
  ghost predicate CutRecorded(p0: Links, p: Links, rec: map<Node, Option<Node>>) {
    forall n :: n in p && n in p0 && p[n] != p0[n] ==> n in rec
  }

  /** Records made since `r0`: the old ones are kept as they were, each new one holds its object's parent in `p0`. */
  ghost predicate RecordsSince(p0: Links, r0: map<Node, Option<Node>>, rec: map<Node, Option<Node>>) {
    && (forall k :: k in r0 ==> k in rec && rec[k] == r0[k])
    && (forall k :: k in rec && k !in r0 ==> k in p0 && rec[k] == p0[k])
  }

  /** Every object cut from its parent in `p0` has its whole subtree in `p0` flat. */
  ghost predicate AllCutsFlat(p: Links, p0: Links, order: seq<Node>, rank: map<Node, nat>)
    requires WellFormed(p0, order, rank)
  {
    forall y :: y in p0 && p0[y].Some? && y in p && p[y] == None ==> Flat(p, p0, order, rank, y)
  }

  /** Every node of the subtree of `o` in `p0` is recorded. */
  ghost predicate SubtreeRecorded(rec: map<Node, Option<Node>>, p0: Links, order: seq<Node>, rank: map<Node, nat>, o: Node)
    requires WellFormed(p0, order, rank) && o in p0
  {
    forall x :: x in Subtree(p0, order, rank, o) ==> x in rec
  }

  /** The first `i` selected objects are done: their original subtrees are recorded and flat. */
  ghost predicate SelectionDone(p: Links, rec: map<Node, Option<Node>>, p0: Links, order: seq<Node>, rank: map<Node, nat>,
                                sel: seq<Node>, i: nat)
    requires WellFormed(p0, order, rank) && i <= |sel| && forall o :: o in sel ==> o in p0
  {
    forall j :: 0 <= j < i ==> SubtreeRecorded(rec, p0, order, rank, sel[j]) && Flat(p, p0, order, rank, sel[j])
  }

  /** Every key added since `r0` lies in the original subtree of one of the first `i` selected objects. */
  ghost predicate NewKeysSelected(rec: map<Node, Option<Node>>, r0: map<Node, Option<Node>>, p0: Links,
                                  order: seq<Node>, rank: map<Node, nat>, sel: seq<Node>, i: nat)
    requires WellFormed(p0, order, rank) && i <= |sel| && forall o :: o in sel ==> o in p0
  {
    forall k :: k in rec && k !in r0 ==> exists j :: 0 <= j < i && k in Subtree(p0, order, rank, sel[j])
  }

  /** A strict descendant has a parent. */
  lemma {:induction false} StrictDescendantHasParent(p: Links, order: seq<Node>, rank: map<Node, nat>, n: Node, x: Node)
    requires WellFormed(p, order, rank) && n in p
    requires x in Subtree(p, order, rank, n) && x != n
    ensures p[x].Some?
    decreases rank[n]
  {
    InSubtree(p, order, rank, n, x);
    var c :| c in order && p[c] == Some(n) && x in Subtree(p, order, rank, c);
    if x != c {
      StrictDescendantHasParent(p, order, rank, c, x);
    }
  }

  /** What AllCutsFlat gives the detach of one selected object. */
  lemma AllCutsFlatBound(p: Links, p0: Links, order: seq<Node>, rank: map<Node, nat>, obj: Node)
    requires WellFormed(p0, order, rank) && AllCutsFlat(p, p0, order, rank) && obj in p0
    ensures CutsFlat(p, p0, order, rank, rank[obj], Some(obj))
  {
  }

  /**
   * The recording of a selected object after its detach: `if (!ContainsKey(obj)) Add(obj, parent)`,
   * with the parent the object has at that moment.
   */
  method RecordSelected(scene: Scene, table: ChildParentMapping, obj: Node)
    requires Consistent(scene, table) && obj in scene.parent
    modifies table
    ensures Consistent(scene, table) && old(table.keys) <= table.keys
    ensures table.recorded == AddIfAbsent(old(table.recorded), scene.parent, obj)
  {
    if !table.ContainsKey(obj) {
      table.Add(obj, scene.parent[obj]);
    }
  }

  /** One turn of the selection loop keeps CutRecorded. */
  lemma SelectedCuts(p0: Links, order: seq<Node>, rank: map<Node, nat>, obj: Node,
                     pA: Links, rA: map<Node, Option<Node>>, pB: Links, rB: map<Node, Option<Node>>)
    requires WellFormed(pA, order, rank) && obj in pA
    requires CutRecorded(p0, pA, rA)
    requires DetachedRecords(pA, rA, rB, order, rank, obj) && DetachedLinks(pA, pB, rB, order, rank, obj)
    ensures obj in pB && CutRecorded(p0, pB, rB)
  {
    assert pB.Keys == pA.Keys;
    forall n | n in pB && n in p0 && pB[n] != p0[n]
      ensures n in rB
    {
      if pB[n] == pA[n] {
        assert n in rA;
      }
    }
  }

  /** One turn of the selection loop keeps RecordsSince. */
  lemma SelectedRecords(p0: Links, r0: map<Node, Option<Node>>, order: seq<Node>, rank: map<Node, nat>, obj: Node,
                        pA: Links, rA: map<Node, Option<Node>>, pB: Links, rB: map<Node, Option<Node>>)
    requires WellFormed(pA, order, rank) && obj in pA && obj in pB
    requires RecordsSince(p0, r0, rA) && CutRecorded(p0, pA, rA) && CutRecorded(p0, pB, rB) && OnlyCut(pA, p0)
    requires DetachedRecords(pA, rA, rB, order, rank, obj)
    ensures RecordsSince(p0, r0, AddIfAbsent(rB, pB, obj))
  {
    var rC := AddIfAbsent(rB, pB, obj);
    forall k | k in r0
      ensures k in rC && rC[k] == r0[k]
    {
      assert k in rA && rA[k] == r0[k];
      assert k in rB && rB[k] == rA[k];
    }
    forall k | k in rC && k !in r0
      ensures k in p0 && rC[k] == p0[k]
    {
      if k in rA {
        assert rC[k] == rB[k] == rA[k];
      } else if k in rB {
        assert rC[k] == rB[k] == pA[k];
      } else {
        assert k == obj && rC[k] == pB[k];
      }
    }
  }

  /** One turn of the selection loop keeps AllCutsFlat. */
  lemma SelectedFlat(p0: Links, order: seq<Node>, rank: map<Node, nat>, obj: Node,
                     pA: Links, pB: Links, rB: map<Node, Option<Node>>)
    requires WellFormed(p0, order, rank) && WellFormed(pA, order, rank) && obj in pA
    requires AllCutsFlat(pA, p0, order, rank)
    requires DetachedLinks(pA, pB, rB, order, rank, obj)
    requires CutsFlat(pB, p0, order, rank, rank[obj], None)
    ensures AllCutsFlat(pB, p0, order, rank)
  {
    forall y | y in p0 && p0[y].Some? && y in pB && pB[y] == None && rank[y] > rank[obj]
      ensures Flat(pB, p0, order, rank, y)
    {
      assert pB[y] == pA[y];
      FlatAfterCuts(pB, pA, p0, order, rank, y);
    }
  }

  /** One turn of the selection loop keeps SelectionDone. */
  lemma SelectedDone(p0: Links, order: seq<Node>, rank: map<Node, nat>, sel: seq<Node>, i: nat,
                     pA: Links, rA: map<Node, Option<Node>>, pB: Links, rC: map<Node, Option<Node>>)
    requires WellFormed(p0, order, rank) && i < |sel| && forall o :: o in sel ==> o in p0
    requires SelectionDone(pA, rA, p0, order, rank, sel, i)
    requires KeysKept(rA, rC) && sel[i] in rC && OnlyCut(pB, pA)
    requires Flat(pB, p0, order, rank, sel[i]) && CutRecorded(p0, pB, rC)
    ensures SelectionDone(pB, rC, p0, order, rank, sel, i + 1)
  {
    forall j | 0 <= j < i
      ensures SubtreeRecorded(rC, p0, order, rank, sel[j]) && Flat(pB, p0, order, rank, sel[j])
    {
      FlatAfterCuts(pB, pA, p0, order, rank, sel[j]);
    }
    forall x | x in Subtree(p0, order, rank, sel[i]) && x != sel[i]
      ensures x in rC
    {
      StrictDescendantHasParent(p0, order, rank, sel[i], x);
    }
  }

  /** One turn of the selection loop keeps NewKeysSelected. */
  lemma SelectedKeys(p0: Links, r0: map<Node, Option<Node>>, order: seq<Node>, rank: map<Node, nat>, sel: seq<Node>, i: nat,
                     pA: Links, rA: map<Node, Option<Node>>, rB: map<Node, Option<Node>>, pB: Links)
    requires WellFormed(p0, order, rank) && i < |sel| && forall o :: o in sel ==> o in p0
    requires WellFormed(pA, order, rank) && OnlyCut(pA, p0) && sel[i] in pA && pB.Keys == pA.Keys
    requires NewKeysSelected(rA, r0, p0, order, rank, sel, i)
    requires DetachedRecords(pA, rA, rB, order, rank, sel[i])
    ensures NewKeysSelected(AddIfAbsent(rB, pB, sel[i]), r0, p0, order, rank, sel, i + 1)
  {
    var rC := AddIfAbsent(rB, pB, sel[i]);
    SubtreeAfterCuts(pA, p0, order, rank, sel[i]);
    forall k | k in rC && k !in r0
      ensures exists j :: 0 <= j < i + 1 && k in Subtree(p0, order, rank, sel[j])
    {
      if k in rA {
        var j :| 0 <= j < i && k in Subtree(p0, order, rank, sel[j]);
      } else if k in rB {
        assert k in Subtree(pA, order, rank, sel[i]);
      } else {
        assert k == sel[i];
      }
    }
  }

  /**
   * The first loop of ExportCurrentGameObject: for each selected object, UnparentChildRecursive
   * and then the record of the object itself. `p0` and `r0` are the links and records on entry.
   */
  method DetachSelection(scene: Scene, table: ChildParentMapping, current: seq<Node>)
    requires Consistent(scene, table) && forall o :: o in current ==> o in scene.parent
    modifies scene, table
    ensures Consistent(scene, table) && OnlyCut(scene.parent, old(scene.parent))
    ensures old(table.keys) <= table.keys
    ensures RecordsSince(old(scene.parent), old(table.recorded), table.recorded)
    ensures CutRecorded(old(scene.parent), scene.parent, table.recorded)
    ensures WellFormed(old(scene.parent), scene.order, scene.rank)
    ensures SelectionDone(scene.parent, table.recorded, old(scene.parent), scene.order, scene.rank, current, |current|)
    ensures NewKeysSelected(table.recorded, old(table.recorded), old(scene.parent), scene.order, scene.rank, current, |current|)
  {
    ghost var p0, r0 := scene.parent, table.recorded;
    var i := 0;
    while i < |current|
      invariant 0 <= i <= |current|
      invariant Consistent(scene, table) && OnlyCut(scene.parent, p0)
      invariant old(table.keys) <= table.keys
      invariant RecordsSince(p0, r0, table.recorded) && CutRecorded(p0, scene.parent, table.recorded)
      invariant AllCutsFlat(scene.parent, p0, scene.order, scene.rank)
      invariant SelectionDone(scene.parent, table.recorded, p0, scene.order, scene.rank, current, i)
      invariant NewKeysSelected(table.recorded, r0, p0, scene.order, scene.rank, current, i)
    {
      var obj := current[i];
      ghost var pA, rA, kA := scene.parent, table.recorded, table.keys;
      AllCutsFlatBound(pA, p0, scene.order, scene.rank, obj);
      UnparentChildRecursive(scene, table, obj, p0);
      ghost var pB, rB, kB := scene.parent, table.recorded, table.keys;
      RecordSelected(scene, table, obj);
      SelectedStep(p0, r0, scene.order, scene.rank, current, i, pA, rA, pB, rB);
      PrefixTransitive(old(table.keys), kA, kB);
      PrefixTransitive(old(table.keys), kB, table.keys);
      i := i + 1;
    }
  }

  /** One whole turn of the selection loop. */
  lemma SelectedStep(p0: Links, r0: map<Node, Option<Node>>, order: seq<Node>, rank: map<Node, nat>, sel: seq<Node>, i: nat,
                     pA: Links, rA: map<Node, Option<Node>>, pB: Links, rB: map<Node, Option<Node>>)
    requires WellFormed(p0, order, rank) && i < |sel| && forall o :: o in sel ==> o in p0
    requires WellFormed(pA, order, rank) && sel[i] in pA && OnlyCut(pA, p0)
    requires RecordsSince(p0, r0, rA) && CutRecorded(p0, pA, rA) && AllCutsFlat(pA, p0, order, rank)
    requires SelectionDone(pA, rA, p0, order, rank, sel, i) && NewKeysSelected(rA, r0, p0, order, rank, sel, i)
    requires DetachedRecords(pA, rA, rB, order, rank, sel[i]) && DetachedLinks(pA, pB, rB, order, rank, sel[i])
    requires Flat(pB, p0, order, rank, sel[i]) && CutsFlat(pB, p0, order, rank, rank[sel[i]], None)
    ensures sel[i] in pB && OnlyCut(pB, p0)
    ensures RecordsSince(p0, r0, AddIfAbsent(rB, pB, sel[i])) && CutRecorded(p0, pB, AddIfAbsent(rB, pB, sel[i]))
    ensures AllCutsFlat(pB, p0, order, rank)
    ensures SelectionDone(pB, AddIfAbsent(rB, pB, sel[i]), p0, order, rank, sel, i + 1)
    ensures NewKeysSelected(AddIfAbsent(rB, pB, sel[i]), r0, p0, order, rank, sel, i + 1)
  {
    var obj := sel[i];
    SelectedCuts(p0, order, rank, obj, pA, rA, pB, rB);
    SelectedRecords(p0, r0, order, rank, obj, pA, rA, pB, rB);
    assert CutRecorded(p0, pB, AddIfAbsent(rB, pB, obj));
    SelectedFlat(p0, order, rank, obj, pA, pB, rB);
    var rC := AddIfAbsent(rB, pB, obj);
    assert KeysKept(rA, rC);
    SelectedDone(p0, order, rank, sel, i, pA, rA, pB, rC);
    SelectedKeys(p0, r0, order, rank, sel, i, pA, rA, rB, pB);
  }

  /** The records after the detach phase over `keys`: an old record where there was one, else the parent in `p0`. */
  function Merged(p0: Links, r0: map<Node, Option<Node>>, keys: seq<Node>): (m: map<Node, Option<Node>>)
    requires forall k :: k in keys ==> k in r0 || k in p0
    ensures forall k :: k in m <==> k in keys
  {
    map k | k in keys :: if k in r0 then r0[k] else p0[k]
  }

  /** What the finished selection loop has done, with the loop's predicates spelled out. */
  lemma SelectionOutcome(p0: Links, r0: map<Node, Option<Node>>, p: Links, rec: map<Node, Option<Node>>, keys: seq<Node>,
                         order: seq<Node>, rank: map<Node, nat>, current: seq<Node>)
    requires WellFormed(p0, order, rank) && forall o :: o in current ==> o in p0
    requires (forall k :: k in rec <==> k in keys) && OnlyCut(p, p0)
    requires RecordsSince(p0, r0, rec)
    requires SelectionDone(p, rec, p0, order, rank, current, |current|)
    requires NewKeysSelected(rec, r0, p0, order, rank, current, |current|)
    ensures forall k :: k in keys <==> k in r0 || exists o :: o in current && k in Subtree(p0, order, rank, o)
    ensures forall k :: k in keys ==> k in r0 || k in p0
    ensures rec == Merged(p0, r0, keys)
    ensures forall o, x :: o in current && x in Subtree(p0, order, rank, o) && x != o ==> x in p && p[x] == None
  {
    SelectedKeysOutcome(p0, r0, rec, keys, order, rank, current);
    RecordsAreMerged(p0, r0, rec, keys);
    forall o, x | o in current && x in Subtree(p0, order, rank, o) && x != o
      ensures x in p && p[x] == None
    {
      var j :| 0 <= j < |current| && current[j] == o;
      assert Flat(p, p0, order, rank, current[j]);
    }
  }

  /** The keys after the selection loop: the old ones and the original subtrees of the selected objects. */
  lemma SelectedKeysOutcome(p0: Links, r0: map<Node, Option<Node>>, rec: map<Node, Option<Node>>, keys: seq<Node>,
                            order: seq<Node>, rank: map<Node, nat>, current: seq<Node>)
    requires WellFormed(p0, order, rank) && forall o :: o in current ==> o in p0
    requires (forall k :: k in rec <==> k in keys) && KeysKept(r0, rec)
    requires forall j :: 0 <= j < |current| ==> SubtreeRecorded(rec, p0, order, rank, current[j])
    requires NewKeysSelected(rec, r0, p0, order, rank, current, |current|)
    ensures forall k :: k in keys <==> k in r0 || exists o :: o in current && k in Subtree(p0, order, rank, o)
  {
    forall k | k in keys
      ensures k in r0 || exists o :: o in current && k in Subtree(p0, order, rank, o)
    {
      if k !in r0 {
        NewKeyWitness(p0, r0, rec, order, rank, current, k);
      }
    }
    forall k | k !in r0 && exists o :: o in current && k in Subtree(p0, order, rank, o)
      ensures k in keys
    {
      var o :| o in current && k in Subtree(p0, order, rank, o);
      SelectedRecorded(p0, rec, order, rank, current, o, k);
    }
  }

  lemma NewKeyWitness(p0: Links, r0: map<Node, Option<Node>>, rec: map<Node, Option<Node>>,
                      order: seq<Node>, rank: map<Node, nat>, current: seq<Node>, k: Node)
    requires WellFormed(p0, order, rank) && forall o :: o in current ==> o in p0
    requires NewKeysSelected(rec, r0, p0, order, rank, current, |current|)
    requires k in rec && k !in r0
    ensures exists o :: o in current && k in Subtree(p0, order, rank, o)
  {
    var j :| 0 <= j < |current| && k in Subtree(p0, order, rank, current[j]);
    assert current[j] in current;
  }

  lemma SelectedRecorded(p0: Links, rec: map<Node, Option<Node>>,
                         order: seq<Node>, rank: map<Node, nat>, current: seq<Node>, o: Node, k: Node)
    requires WellFormed(p0, order, rank) && forall o :: o in current ==> o in p0
    requires forall j :: 0 <= j < |current| ==> SubtreeRecorded(rec, p0, order, rank, current[j])
    requires o in current && k in Subtree(p0, order, rank, o)
    ensures k in rec
  {
    var j :| 0 <= j < |current| && current[j] == o;
    assert SubtreeRecorded(rec, p0, order, rank, current[j]);
  }

  /** Records made since `r0` over the keys `keys` are the merged map. */
  lemma RecordsAreMerged(p0: Links, r0: map<Node, Option<Node>>, rec: map<Node, Option<Node>>, keys: seq<Node>)
    requires (forall k :: k in rec <==> k in keys) && RecordsSince(p0, r0, rec)
    ensures forall k :: k in keys ==> k in r0 || k in p0
    ensures rec == Merged(p0, r0, keys)
  {
    var m := Merged(p0, r0, keys);
    assert forall k :: k in rec ==> rec[k] == m[k];
  }

  /** Every object has the parent it had in `p0`, unless `r0` holds a record for it, which wins. */
  ghost predicate Restored(p: Links, p0: Links, r0: map<Node, Option<Node>>) {
    && p.Keys == p0.Keys
    && forall n :: n in p ==> p[n] == if n in r0 then r0[n] else p0[n]
  }

  /**
   * The exported list: no object twice, and exactly the objects recorded before the command
   * together with the original subtrees of the selected objects.
   */
  ghost predicate ExportedKeys(separated: seq<Node>, r0: map<Node, Option<Node>>, p0: Links,
                               order: seq<Node>, rank: map<Node, nat>, current: seq<Node>)
    requires WellFormed(p0, order, rank) && forall o :: o in current ==> o in p0
  {
    && (forall i, j :: 0 <= i < j < |separated| ==> separated[i] != separated[j])
    && (forall k :: k in separated <==> k in r0 || exists o :: o in current && k in Subtree(p0, order, rank, o))
    && (forall k :: k in separated ==> k in r0 || k in p0)
  }

  /**
   * The scene after the detach phase: only recorded objects have lost their parent, and
   * every object below a selected object in `p0` has lost it.
   */
  ghost predicate Flattened(p: Links, p0: Links, rec: map<Node, Option<Node>>,
                            order: seq<Node>, rank: map<Node, nat>, current: seq<Node>)
    requires WellFormed(p0, order, rank) && forall o :: o in current ==> o in p0
  {
    && p.Keys == p0.Keys
    && (forall n :: n in p && p[n] != p0[n] ==> n in rec && p[n] == None)
    && (forall o, x :: o in current && x in Subtree(p0, order, rank, o) && x != o ==> x in p && p[x] == None)
  }

  /**
   * The detach phase of ExportCurrentGameObject and the copy of the mapping's keys into
   * `separatedGameObjects`: the list is the keys in insertion order.
   */
  method DetachAndCollect(scene: Scene, table: ChildParentMapping, current: seq<Node>) returns (separated: seq<Node>)
    requires Consistent(scene, table) && forall o :: o in current ==> o in scene.parent
    modifies scene, table
    ensures Consistent(scene, table) && separated == table.keys && old(table.keys) <= separated
    ensures WellFormed(old(scene.parent), scene.order, scene.rank)
    ensures ExportedKeys(separated, old(table.recorded), old(scene.parent), scene.order, scene.rank, current)
    ensures table.recorded == Merged(old(scene.parent), old(table.recorded), separated)
    ensures Flattened(scene.parent, old(scene.parent), table.recorded, scene.order, scene.rank, current)
  {
    ghost var p0, r0 := scene.parent, table.recorded;
    DetachSelection(scene, table, current);
    SelectionOutcome(p0, r0, scene.parent, table.recorded, table.keys, scene.order, scene.rank, current);
    var keys := table.keys;
    separated := [];
    var i := 0;
    while i < |keys|
      invariant 0 <= i <= |keys| && separated == keys[..i]
    {
      separated := separated + [keys[i]];
      i := i + 1;
    }
    assert separated == keys;
  }

  /**
   * What follows a successful FBX export: the manifest over the mapping (ids from its keys,
   * parents from its records), then the re-parent loop and the Clear. When WriteAllText
   * throws, the exception skips both and nothing changes.
   */
  method FinishExport(scene: Scene, table: ChildParentMapping, separated: seq<Node>, path: string, info: Node -> NodeInfo,
                      dataPath: string, jsonFile: string, fmt: int -> string, toJson: SeparateRecord -> string)
    returns (json: Option<string>)
    requires Consistent(scene, table) && separated == table.keys
    modifies scene, table
    ensures Consistent(scene, table)
    ensures WriteAllTextThrows(jsonFile) ==>
      json == None && scene.parent == old(scene.parent) && table.recorded == old(table.recorded) && table.keys == old(table.keys)
    ensures !WriteAllTextThrows(jsonFile) ==>
      && json == Some(Open + Join(SeparateJsons(separated, info, old(table.recorded), Ids(separated), dataPath, path, fmt, toJson)) + Close)
      && table.recorded == map[] && table.keys == []
      && scene.parent.Keys == old(scene.parent).Keys
      && forall n :: n in scene.parent ==>
        scene.parent[n] == if n in old(table.recorded) then old(table.recorded)[n] else old(scene.parent)[n]
  {
    json := ExportGameObjectAsJson(separated, path, table, info, dataPath, jsonFile, fmt, toJson);
    if json.Some? {
      Reparent(scene, table);
    }
  }

  /** Re-parenting from the records of the detach phase gives back the links it started from. */
  lemma RestoredFromMerged(p0: Links, r0: map<Node, Option<Node>>, p1: Links, keys: seq<Node>, p2: Links,
                           order: seq<Node>, rank: map<Node, nat>, current: seq<Node>)
    requires WellFormed(p0, order, rank) && forall o :: o in current ==> o in p0
    requires ExportedKeys(keys, r0, p0, order, rank, current)
    requires Flattened(p1, p0, Merged(p0, r0, keys), order, rank, current)
    requires p2.Keys == p1.Keys
    requires forall n :: n in p2 ==> p2[n] == if n in Merged(p0, r0, keys) then Merged(p0, r0, keys)[n] else p1[n]
    ensures Restored(p2, p0, r0)
  {
    var rec := Merged(p0, r0, keys);
    forall n | n in p2
      ensures p2[n] == if n in r0 then r0[n] else p0[n]
    {
      if n in rec {
        assert n in keys;
      } else {
        assert n !in keys;
        assert p1[n] == p0[n];
      }
    }
  }

  /** With no records left from an earlier run, restoring is an exact round trip. */
  lemma RestoredExactly(p: Links, p0: Links)
    requires Restored(p, p0, map[])
    ensures p == p0
  {
    assert forall n :: n in p ==> p[n] == p0[n];
  }

  /**
   * ExportCurrentGameObject, after the selection has been resolved to `current`: every
   * selected subtree is detached and recorded, the mapping's keys are exported as separate
   * FBX files, and then, only when a folder was chosen, the manifest is written to
   * `jsonFile`, the success dialog is shown, the links are restored and the mapping is cleared.
   *
   * When no folder is chosen the method returns at once, and when the JSON file dialog is
   * cancelled WriteAllText throws: either way the scene stays flattened and the mapping
   * keeps its records.
   */
  method ExportCurrentGameObject(scene: Scene, table: ChildParentMapping, current: seq<Node>,
                                 copyMaterials: bool, copyTextures: bool, chosenFolder: string,
                                 exported: ExportCall -> bool, info: Node -> NodeInfo, dataPath: string, jsonFile: string,
                                 fmt: int -> string, toJson: SeparateRecord -> string)
    returns (separated: seq<Node>, calls: seq<ExportCall>, notices: seq<Notice>, json: Option<string>)
    requires Consistent(scene, table) && forall o :: o in current ==> o in scene.parent
    modifies scene, table
    ensures Consistent(scene, table) && old(table.keys) <= separated
    ensures ExportedKeys(separated, old(table.recorded), old(scene.parent), scene.order, scene.rank, current)
    ensures var choice := GetNewPath(None, chosenFolder);
      && calls == (if choice.path.None? then [] else ExportCalls(separated, choice.path.value, info, copyMaterials, copyTextures))
      && notices == choice.notices + FailureNotices(calls, exported)
                    + (if choice.path.None? || WriteAllTextThrows(jsonFile) then [] else [Success(|separated|)])
    ensures GetNewPath(None, chosenFolder).path.None? || WriteAllTextThrows(jsonFile) ==>
      && json == None
      && table.keys == separated && table.recorded == Merged(old(scene.parent), old(table.recorded), separated)
      && Flattened(scene.parent, old(scene.parent), table.recorded, scene.order, scene.rank, current)
    ensures GetNewPath(None, chosenFolder).path.Some? && !WriteAllTextThrows(jsonFile) ==>
      && json == Some(Open + Join(SeparateJsons(separated, info, Merged(old(scene.parent), old(table.recorded), separated),
                                                Ids(separated), dataPath, GetNewPath(None, chosenFolder).path.value, fmt, toJson)) + Close)
      && table.recorded == map[] && table.keys == []
      && Restored(scene.parent, old(scene.parent), old(table.recorded))
  {
    ghost var p0, r0 := scene.parent, table.recorded;
    separated := DetachAndCollect(scene, table, current);
    var path;
    path, calls, notices := ExportGameObject(AllSome(separated), info, copyMaterials, copyTextures, None, chosenFolder, exported);
    assert NoneNull(AllSome(separated));
    assert Deref(AllSome(separated)) == separated;
    if path.None? {
      json := None;
      return;
    }
    ghost var p1 := scene.parent;
    json := FinishExport(scene, table, separated, path.value, info, dataPath, jsonFile, fmt, toJson);
    if json.None? {
      // The exception of WriteAllText skips the dialog, the re-parent loop and the Clear.
      return;
    }
    notices := notices + [Success(|separated|)];
    RestoredFromMerged(p0, r0, p1, separated, scene.parent, scene.order, scene.rank, current);
  }

  /**
   * The evidently intended command: the links are restored and the mapping cleared on every
   * path out of it, the cancelled folder dialog and the exception of a cancelled JSON file
   * dialog included, so the scene is never left flattened.
   */
  method ExportCurrentGameObjectRestoring(scene: Scene, table: ChildParentMapping, current: seq<Node>,
                                          copyMaterials: bool, copyTextures: bool, chosenFolder: string,
                                          exported: ExportCall -> bool, info: Node -> NodeInfo, dataPath: string, jsonFile: string,
                                          fmt: int -> string, toJson: SeparateRecord -> string)
    returns (separated: seq<Node>, calls: seq<ExportCall>, notices: seq<Notice>, json: Option<string>)
    requires Consistent(scene, table) && forall o :: o in current ==> o in scene.parent
    modifies scene, table
    ensures Consistent(scene, table) && table.recorded == map[] && table.keys == []
    ensures Restored(scene.parent, old(scene.parent), old(table.recorded))
    ensures old(table.recorded) == map[] ==> scene.parent == old(scene.parent)
    ensures ExportedKeys(separated, old(table.recorded), old(scene.parent), scene.order, scene.rank, current)
    ensures var choice := GetNewPath(None, chosenFolder);
      && calls == (if choice.path.None? then [] else ExportCalls(separated, choice.path.value, info, copyMaterials, copyTextures))
      && notices == choice.notices + FailureNotices(calls, exported)
                    + (if choice.path.None? || WriteAllTextThrows(jsonFile) then [] else [Success(|separated|)])
      && (json.None? <==> choice.path.None? || WriteAllTextThrows(jsonFile))
    ensures GetNewPath(None, chosenFolder).path.Some? && !WriteAllTextThrows(jsonFile) ==>
      json == Some(Open + Join(SeparateJsons(separated, info, Merged(old(scene.parent), old(table.recorded), separated),
                                             Ids(separated), dataPath, GetNewPath(None, chosenFolder).path.value, fmt, toJson)) + Close)
  {
    ghost var p0, r0 := scene.parent, table.recorded;
    separated, calls, notices, json :=
      ExportCurrentGameObject(scene, table, current, copyMaterials, copyTextures, chosenFolder, exported, info, dataPath, jsonFile, fmt, toJson);
    if json.None? {
      ghost var p1 := scene.parent;
      Reparent(scene, table);
      RestoredFromMerged(p0, r0, p1, separated, scene.parent, scene.order, scene.rank, current);
    }
    if r0 == map[] {
      RestoredExactly(scene.parent, p0);
    }
  }

  /** A scene of two objects: A (0), a root, and its child B (1). */
  lemma TwoObjectScene()
    ensures WellFormed(map[0 := None, 1 := Some(0)], [0, 1], map[0 := 1, 1 := 0])
    ensures 1 in Subtree(map[0 := None, 1 := Some(0)], [0, 1], map[0 := 1, 1 := 0], 0)
  {
    var links: Links := map[0 := None, 1 := Some(0)];
    InSubtree(links, [0, 1], map[0 := 1, 1 := 0], 0, 1);
    assert 1 in Subtree(links, [0, 1], map[0 := 1, 1 := 0], 1);
  }

  /** A cancelled folder dialog returns the empty string, which both exporters reject. */
  lemma CancelledFolder()
    ensures GetNewPath(None, "").path.None?
  {
    assert !Contains("", "/Assets");
  }

  /**
   * The scene of TwoObjectScene with A selected and the folder dialog cancelled: as written,
   * B is left without its parent.
   */
  method CancelledExportLeavesChildDetached() returns (parentOfB: Option<Node>)
    ensures parentOfB == None
  {
    TwoObjectScene();
    CancelledFolder();
    var scene := new Scene(map[0 := None, 1 := Some(0)], [0, 1], map[0 := 1, 1 := 0]);
    var table := new ChildParentMapping();
    var _, _, _, _ := ExportCurrentGameObject(scene, table, [0], false, false, "", (c: ExportCall) => true,
      (n: Node) => NodeInfo("", Zero, One, None, None, [], false, false), "/p/Assets", "Assets/gameObjects.json",
      (i: int) => "", (r: SeparateRecord) => "");
    parentOfB := scene.parent[1];
  }

  /** The same run of the restoring command: B gets A back as its parent. */
  method CancelledExportRestoringKeepsParent() returns (parentOfB: Option<Node>)
    ensures parentOfB == Some(0)
  {
    TwoObjectScene();
    var scene := new Scene(map[0 := None, 1 := Some(0)], [0, 1], map[0 := 1, 1 := 0]);
    var table := new ChildParentMapping();
    var _, _, _, _ := ExportCurrentGameObjectRestoring(scene, table, [0], false, false, "", (c: ExportCall) => true,
      (n: Node) => NodeInfo("", Zero, One, None, None, [], false, false), "/p/Assets", "Assets/gameObjects.json",
      (i: int) => "", (r: SeparateRecord) => "");
    parentOfB := scene.parent[1];
  }

  /** A folder inside the project's assets is accepted. */
  lemma ChosenAssetsFolder()
    ensures GetNewPath(None, "/p/Assets").path.Some?
  {
    assert OccursAt("/p/Assets", "/Assets", 2) by {
      assert "/p/Assets"[2..9] == "/Assets";
    }
    AssetsFolderRequired("/p/Assets");
  }

  /**
   * The scene of TwoObjectScene with A selected, a folder chosen and the JSON file dialog
   * cancelled: WriteAllText throws and, as written, B is left without its parent.
   */
  method CancelledJsonLeavesChildDetached() returns (parentOfB: Option<Node>)
    ensures parentOfB == None
  {
    TwoObjectScene();
    ChosenAssetsFolder();
    var scene := new Scene(map[0 := None, 1 := Some(0)], [0, 1], map[0 := 1, 1 := 0]);
    var table := new ChildParentMapping();
    var _, _, _, _ := ExportCurrentGameObject(scene, table, [0], false, false, "/p/Assets", (c: ExportCall) => true,
      (n: Node) => NodeInfo("", Zero, One, None, None, [], false, false), "/p/Assets", "",
      (i: int) => "", (r: SeparateRecord) => "");
    parentOfB := scene.parent[1];
  }

  /** The same run of the restoring command: B gets A back as its parent. */
  method CancelledJsonRestoringKeepsParent() returns (parentOfB: Option<Node>)
    ensures parentOfB == Some(0)
  {
    TwoObjectScene();
    var scene := new Scene(map[0 := None, 1 := Some(0)], [0, 1], map[0 := 1, 1 := 0]);
    var table := new ChildParentMapping();
    var _, _, _, _ := ExportCurrentGameObjectRestoring(scene, table, [0], false, false, "/p/Assets", (c: ExportCall) => true,
      (n: Node) => NodeInfo("", Zero, One, None, None, [], false, false), "/p/Assets", "",
      (i: int) => "", (r: SeparateRecord) => "");
    parentOfB := scene.parent[1];
  }

  /**
   * The two objects of TwoObjectScene exported with A selected: B is recorded (under A)
   * while A is detached, then A itself (under no parent), so B gets id 2 and A id 3. A has a
   * mesh from (-1,-1,-1) to (1,1,1) and unit scale; B has no mesh and a Light.
   */
  lemma TwoObjectEntries(info: Node -> NodeInfo, dataPath: string, path: string, fmt: int -> string)
    requires info(0).mesh == Some(Bounds(Vec3(-1.0, -1.0, -1.0), Vec3(1.0, 1.0, 1.0))) && info(0).localScale == One
    requires !info(0).light && !info(0).camera
    requires info(1).mesh.None? && info(1).light
    ensures Ids([1, 0]) == map[1 := 2, 0 := 3]
    ensures var a := SeparateEntry(0, info, map[1 := Some(0), 0 := None], Ids([1, 0]), dataPath, path, fmt);
      && a.registrationPoint == Vec3(0.5, 0.5, 0.5) && a.dimensions == Vec3(2.0, 2.0, 2.0)
      && a.typeName == "Model" && a.shapeType == Some("compound")
      && a.id == fmt(3) && a.parentID == fmt(0)
    ensures var b := SeparateEntry(1, info, map[1 := Some(0), 0 := None], Ids([1, 0]), dataPath, path, fmt);
      && b.registrationPoint == Zero && b.dimensions == One && b.typeName == "Light" && b.shapeType == None
      && b.id == fmt(2) && b.parentID == fmt(3)
  {
    var keys := [1, 0];
    assert keys[..1] == [1] && keys[..1][..0] == [];
    assert Ids(keys) == map[1 := 2, 0 := 3];
    var mesh := Bounds(Vec3(-1.0, -1.0, -1.0), Vec3(1.0, 1.0, 1.0));
    assert Size(mesh) == Vec3(2.0, 2.0, 2.0);
    assert Scale(Size(mesh), One) == Vec3(2.0, 2.0, 2.0);
  }
}

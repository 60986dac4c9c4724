/** The widget registry: a map from script-assigned ids to widget records, plus
  * the per-parent child counters. Parent links are followed upwards through the
  * map to define descendants; removal deletes a whole subtree and renumbers the
  * surviving siblings. */
module Registry {
  import opened Common
  import opened Kinds

  /** Registry key standing for the implicit root container. */
  const RootKey: string := "__root__"

  datatype WidgetInfo = WidgetInfo(widgetId: nat, kind: WidgetKind, parentId: Option<string>, childIndex: nat)

  type Widgets = map<string, WidgetInfo>

  /** A record sits under `key` when its parent id is `key`, or when it has no
    * parent and `key` is the root key. */
  predicate ParentMatches(info: WidgetInfo, key: string) {
    match info.parentId
    case Some(pid) => pid == key
    case None => key == RootKey
  }

  /** The key a record is filed under: its parent id, or the root key when it has none. */
  function ParentKey(info: WidgetInfo): (key: string)
    ensures forall k :: ParentMatches(info, k) <==> k == key
    ensures info.parentId.None? ==> key == RootKey
  {
    info.parentId.GetOr(RootKey)
  }

  /** Ids of the live records under `key`. */
  function ChildrenOf(w: Widgets, key: string): set<string> {
    set k | k in w && ParentMatches(w[k], key)
  }

  /** Number of live records under `key`. */
  function ChildCount(w: Widgets, key: string): nat {
    |ChildrenOf(w, key)|
  }

  function Positions(w: Widgets, c: set<string>): set<nat>
    requires c <= w.Keys
  {
    set k | k in c :: w[k].childIndex
  }

  /** The indices 0..n-1. */
  function Range(n: nat): (r: set<nat>)
    ensures forall i: nat :: i in r <==> i < n
  {
    if n == 0 then {} else Range(n - 1) + {n - 1}
  }

  lemma ProperSubsetSmaller<T>(a: set<T>, b: set<T>, x: T)
    requires a <= b && x in b && x !in a
    ensures |a| < |b|
  {
    SubsetNoLarger(a, b - {x});
  }

  lemma {:induction false} SubsetNoLarger<T>(a: set<T>, b: set<T>)
    requires a <= b
    ensures |a| <= |b|
    decreases a
  {
    if a != {} {
      var y :| y in a;
      SubsetNoLarger(a - {y}, b - {y});
    }
  }

  /** The child indices under `key` are exactly 0..n-1, n being the number of
    * children, and no two children share one. */
  ghost predicate Contiguous(w: Widgets, key: string) {
    var c := ChildrenOf(w, key);
    Positions(w, c) == Range(|c|)
    && forall a, b :: a in c && b in c && a != b ==> w[a].childIndex != w[b].childIndex
  }

  /** Children of `key` in `after` that were present in `before` keep their
    * relative order of child index. */
  ghost predicate OrderKept(before: Widgets, after: Widgets, key: string) {
    forall a, b ::
      a in ChildrenOf(after, key) && b in ChildrenOf(after, key) && a in before && b in before
      && before[a].childIndex < before[b].childIndex
      ==> after[a].childIndex < after[b].childIndex
  }

  /** `w2` has the keys of `w1` (and maybe more), with the same parent links. */
  ghost predicate SameLinks(w1: Widgets, w2: Widgets) {
    forall k :: k in w1 ==> k in w2 && w1[k].parentId == w2[k].parentId
  }

  // ---------------------------------------------------------------------------
  // Ancestry

  /** The n-th ancestor of `d`, following parent links through keys of `w`;
    * None once the chain leaves the map. */
  ghost function Ancestor(w: Widgets, d: string, n: nat): Option<string>
    decreases n
  {
    if n == 0 then Some(d)
    else match Ancestor(w, d, n - 1)
      case None => None
      case Some(x) => if x in w && w[x].parentId.Some? then Some(w[x].parentId.value) else None
  }

  ghost function Then(o: Option<string>, w: Widgets, m: nat): Option<string> {
    match o
    case None => None
    case Some(x) => Ancestor(w, x, m)
  }

  /** `d`'s parent chain reaches `a` in one step or more. */
  ghost predicate Reaches(w: Widgets, d: string, a: string) {
    exists n: nat :: n >= 1 && Ancestor(w, d, n) == Some(a)
  }

  /** All records whose parent chain reaches `a`. */
  ghost function Descendants(w: Widgets, a: string): set<string> {
    set d | d in w && Reaches(w, d, a)
  }

  /** What removing `id` deletes: `id`, and every record whose chain reaches
    * `id` once `id` itself is gone. */
  ghost function Subtree(w: Widgets, id: string): set<string> {
    {id} + Descendants(w - {id}, id)
  }

  lemma {:induction false} AncestorCompose(w: Widgets, d: string, n: nat, m: nat)
    ensures Ancestor(w, d, n + m) == Then(Ancestor(w, d, n), w, m)
    decreases m
  {
    if m > 0 {
      AncestorCompose(w, d, n, m - 1);
    }
  }

  lemma AncestorOne(w: Widgets, d: string)
    ensures Ancestor(w, d, 1) == (if d in w && w[d].parentId.Some? then Some(w[d].parentId.value) else None)
  {
    assert Ancestor(w, d, 0) == Some(d);
  }

  /** A cycle through `d` can be walked round as often as one likes. */
  lemma {:induction false} CycleRepeats(w: Widgets, d: string, m: nat, k: nat) returns (j: nat)
    requires m >= 1 && Ancestor(w, d, m) == Some(d)
    ensures j >= k && Ancestor(w, d, j) == Some(d)
    decreases k
  {
    if k == 0 {
      j := 0;
    } else {
      var j' := CycleRepeats(w, d, m, k - 1);
      AncestorCompose(w, d, j', m);
      j := j' + m;
    }
  }

  /** A record whose chain reaches a key absent from the map is on no cycle. */
  lemma NoCycleAboveAbsent(w: Widgets, top: string, d: string, n: nat)
    requires top !in w && Ancestor(w, d, n) == Some(top)
    ensures d !in Descendants(w, d)
  {
    if d in Descendants(w, d) {
      var m: nat :| m >= 1 && Ancestor(w, d, m) == Some(d);
      var j := CycleRepeats(w, d, m, n + 1);
      AncestorCompose(w, d, n, 1);
      AncestorOne(w, top);
      AncestorCompose(w, d, n + 1, j - (n + 1));
      assert false;
    }
  }

  /** One step down from a node at or below an absent key. */
  lemma ChildStep(w: Widgets, top: string, x: string, c: string)
    requires top !in w && (x == top || x in Descendants(w, top))
    requires c in w && w[c].parentId == Some(x)
    ensures c in Descendants(w, top) && c in Descendants(w, x)
    ensures c !in Descendants(w, c)
    ensures Descendants(w, c) <= Descendants(w, x)
  {
    AncestorOne(w, c);
    var n: nat := 0;
    if x != top {
      n :| n >= 1 && Ancestor(w, x, n) == Some(top);
    }
    AncestorCompose(w, c, 1, n);
    assert Ancestor(w, c, 1 + n) == Some(top);
    NoCycleAboveAbsent(w, top, c, 1 + n);
    forall d | d in Descendants(w, c)
      ensures d in Descendants(w, x)
    {
      var k: nat :| k >= 1 && Ancestor(w, d, k) == Some(c);
      AncestorCompose(w, d, k, 1);
    }
  }

  /** Every descendant of `x` is a child of `x` or a descendant of one. */
  lemma DescendantSplit(w: Widgets, x: string, d: string)
    requires d in Descendants(w, x)
    ensures (w[d].parentId == Some(x)) || exists c :: c in w && w[c].parentId == Some(x) && d in Descendants(w, c)
  {
    var n: nat :| n >= 1 && Ancestor(w, d, n) == Some(x);
    if n == 1 {
      AncestorOne(w, d);
    } else {
      AncestorCompose(w, d, n - 1, 1);
      var c := Ancestor(w, d, n - 1).value;
      AncestorOne(w, c);
      assert d in Descendants(w, c);
    }
  }

  lemma {:induction false} AncestorInLargerMap(w1: Widgets, w2: Widgets, d: string, n: nat)
    requires SameLinks(w1, w2)
    ensures Ancestor(w1, d, n).Some? ==> Ancestor(w1, d, n) == Ancestor(w2, d, n)
    decreases n
  {
    if n > 0 {
      AncestorInLargerMap(w1, w2, d, n - 1);
    }
  }

  lemma DescendantsInLargerMap(w1: Widgets, w2: Widgets, a: string)
    requires SameLinks(w1, w2)
    ensures Descendants(w1, a) <= Descendants(w2, a)
  {
    forall d | d in Descendants(w1, a)
      ensures d in Descendants(w2, a)
    {
      var n: nat :| n >= 1 && Ancestor(w1, d, n) == Some(a);
      AncestorInLargerMap(w1, w2, d, n);
    }
  }

  lemma ChildrenUnderSameLinks(w1: Widgets, w2: Widgets, key: string)
    requires SameLinks(w1, w2) && w1.Keys == w2.Keys
    ensures ChildrenOf(w1, key) == ChildrenOf(w2, key)
  {
  }

  lemma {:induction false} MinimumExists(w: Widgets, s: set<string>)
    requires s != {} && s <= w.Keys
    ensures exists m :: m in s && forall r :: r in s ==> w[m].childIndex <= w[r].childIndex
    decreases |s|
  {
    var x :| x in s;
    if s != {x} {
      MinimumExists(w, s - {x});
      var m :| m in s - {x} && forall r :: r in s - {x} ==> w[m].childIndex <= w[r].childIndex;
      if w[x].childIndex < w[m].childIndex {
        assert forall r :: r in s ==> w[x].childIndex <= w[r].childIndex;
      } else {
        assert forall r :: r in s ==> w[m].childIndex <= w[r].childIndex;
      }
    } else {
      assert forall r :: r in s ==> r == x;
    }
  }

  /** Every registered record counts among the children of its own parent key,
    * so the live sibling count seen by a removal is at least one. */
  lemma {:induction false} OwnSiblingCountPositive(w: Widgets, id: string)
    requires id in w
    ensures id in ChildrenOf(w, ParentKey(w[id]))
    ensures ChildCount(w, ParentKey(w[id])) >= 1
  {
    assert ParentMatches(w[id], ParentKey(w[id]));
    assert id in ChildrenOf(w, ParentKey(w[id]));
  }

  /** Filing a new record at index `ChildCount` under a parent whose children
    * are contiguous keeps them contiguous, with one more child. */
  lemma InsertKeepsContiguous(w: Widgets, key: string, id: string, info: WidgetInfo)
    requires Contiguous(w, key) && id !in w
    requires ParentMatches(info, key) && info.childIndex == ChildCount(w, key)
    ensures ChildCount(w[id := info], key) == ChildCount(w, key) + 1
    ensures Contiguous(w[id := info], key)
  {
    var w' := w[id := info];
    var c := ChildrenOf(w, key);
    ChildrenAfterInsert(w, key, id, info);
    PositionsAfterInsert(w, c, id, info);
    assert id !in c;
    assert |c + {id}| == |c| + 1;
    assert Range(|c| + 1) == Range(|c|) + {|c|};
    InsertKeepsDistinct(w, key, id, info);
  }

  /** The new record's index, `ChildCount`, is not among the old positions,
    * so no two children share an index afterwards. */
  lemma InsertKeepsDistinct(w: Widgets, key: string, id: string, info: WidgetInfo)
    requires Contiguous(w, key) && id !in w
    requires ParentMatches(info, key) && info.childIndex == ChildCount(w, key)
    requires ChildrenOf(w[id := info], key) == ChildrenOf(w, key) + {id}
    ensures var c' := ChildrenOf(w[id := info], key);
            forall a, b :: a in c' && b in c' && a != b ==> w[id := info][a].childIndex != w[id := info][b].childIndex
  {
    var w' := w[id := info];
    var c := ChildrenOf(w, key);
    forall a, b | a in c + {id} && b in c + {id} && a != b
      ensures w'[a].childIndex != w'[b].childIndex
    {
      if a == id {
        assert w[b].childIndex in Positions(w, c);
      } else if b == id {
        assert w[a].childIndex in Positions(w, c);
      } else {
        assert w'[a] == w[a] && w'[b] == w[b];
      }
    }
  }

  lemma ChildrenAfterInsert(w: Widgets, key: string, id: string, info: WidgetInfo)
    requires id !in w && ParentMatches(info, key)
    ensures ChildrenOf(w[id := info], key) == ChildrenOf(w, key) + {id}
  {
    var w' := w[id := info];
    forall k | k in ChildrenOf(w', key)
      ensures k in ChildrenOf(w, key) + {id}
    {
      if k != id {
        assert w'[k] == w[k];
      }
    }
  }

  lemma PositionsAfterInsert(w: Widgets, c: set<string>, id: string, info: WidgetInfo)
    requires id !in w && c <= w.Keys
    ensures Positions(w[id := info], c + {id}) == Positions(w, c) + {info.childIndex}
  {
    var w' := w[id := info];
    forall k | k in c
      ensures w'[k].childIndex == w[k].childIndex
    {
    }
    forall p | p in Positions(w', c + {id})
      ensures p in Positions(w, c) + {info.childIndex}
    {
      var k :| k in c + {id} && w'[k].childIndex == p;
    }
  }

  /** Orders `c` by child index; ties come out in any order, as they do from
    * hashing order followed by a stable sort. */
  method SortByChildIndex(w: Widgets, c: set<string>) returns (ids: seq<string>)
    requires c <= w.Keys
    ensures |ids| == |c|
    ensures forall k :: k in c <==> k in ids
    ensures forall i, j :: 0 <= i < j < |ids| ==> ids[i] != ids[j]
    ensures forall i, j :: 0 <= i < j < |ids| ==> w[ids[i]].childIndex <= w[ids[j]].childIndex
  {
    ids := [];
    var rest := c;
    while rest != {}
      invariant rest <= c
      invariant |ids| + |rest| == |c|
      invariant forall k :: k in c <==> k in ids || k in rest
      invariant forall k :: k in ids ==> k !in rest
      invariant forall i, j :: 0 <= i < j < |ids| ==> ids[i] != ids[j]
      invariant forall i, j :: 0 <= i < j < |ids| ==> w[ids[i]].childIndex <= w[ids[j]].childIndex
      invariant forall i, r :: 0 <= i < |ids| && r in rest ==> w[ids[i]].childIndex <= w[r].childIndex
      decreases |rest|
    {
      MinimumExists(w, rest);
      var m :| m in rest && forall r :: r in rest ==> w[m].childIndex <= w[r].childIndex;
      ids := ids + [m];
      rest := rest - {m};
    }
  }

  class WidgetManager {
    var widgets: map<string, WidgetInfo>
    var childCounts: map<string, nat>

    /** An empty registry whose root key has a child counter of zero. */
    constructor ()
      ensures widgets == map[] && childCounts == map[RootKey := 0]
    {
      widgets := map[];
      childCounts := map[RootKey := 0];
    }

    function CurrentChildCount(key: string): nat
      reads this
    {
      ChildCount(widgets, key)
    }

    /** The index a new child of `key` gets: the live child count, which is
      * also recorded, plus one, as the key's child counter. */
    method NextChildIndex(key: string) returns (idx: nat)
      modifies this
      ensures idx == ChildCount(old(widgets), key)
      ensures widgets == old(widgets)
      ensures childCounts == old(childCounts)[key := idx + 1]
    {
      idx := CurrentChildCount(key);
      childCounts := childCounts[key := idx + 1];
    }

    /** Appends to `acc` every record whose parent chain reaches `parentId`.
      * `top` is a key already gone from the map at or above `parentId`; it
      * guarantees the walk meets no cycle. */
    method CollectDescendants(parentId: string, ghost top: string, acc: seq<string>) returns (out: seq<string>)
      requires top !in widgets
      requires parentId == top || parentId in Descendants(widgets, top)
      ensures acc <= out
      ensures forall e :: e in out <==> e in acc || e in Descendants(widgets, parentId)
      decreases |Descendants(widgets, parentId)|
    {
      var children := set k | k in widgets && widgets[k].parentId == Some(parentId);
      out := acc;
      var rest := children;
      while rest != {}
        invariant rest <= children
        invariant acc <= out
        invariant forall e :: e in out ==> e in acc || e in Descendants(widgets, parentId)
        invariant forall c :: c in children && c !in rest ==> c in out
        invariant forall c, e :: c in children && c !in rest && e in Descendants(widgets, c) ==> e in out
        decreases |rest|
      {
        var c :| c in rest;
        ChildStep(widgets, top, parentId, c);
        ProperSubsetSmaller(Descendants(widgets, c), Descendants(widgets, parentId), c);
        out := out + [c];
        out := CollectDescendants(c, top, out);
        rest := rest - {c};
      }
      forall e | e in Descendants(widgets, parentId)
        ensures e in out
      {
        DescendantSplit(widgets, parentId, e);
      }
    }

    /** Renumbers the children of `key` to 0..n-1 in their current order and
      * records n as the key's child counter. */
    method RecomputeParentState(key: string)
      modifies this
      ensures widgets.Keys == old(widgets).Keys
      ensures forall k :: k in widgets ==>
        widgets[k] == (if ParentMatches(old(widgets)[k], key)
                       then old(widgets)[k].(childIndex := widgets[k].childIndex)
                       else old(widgets)[k])
      ensures Contiguous(widgets, key)
      ensures OrderKept(old(widgets), widgets, key)
      ensures childCounts == old(childCounts)[key := ChildCount(old(widgets), key)]
    {
      var children := ChildrenOf(widgets, key);
      var ids := SortByChildIndex(widgets, children);
      ghost var before := widgets;
      var i := 0;
      while i < |ids|
        invariant 0 <= i <= |ids|
        invariant widgets.Keys == before.Keys
        invariant forall j :: 0 <= j < i ==> widgets[ids[j]] == before[ids[j]].(childIndex := j)
        invariant forall k :: k in widgets && k !in ids[..i] ==> widgets[k] == before[k]
        invariant childCounts == old(childCounts)
      {
        assert ids[i] in children;
        widgets := widgets[ids[i] := widgets[ids[i]].(childIndex := i)];
        assert ids[..i + 1] == ids[..i] + [ids[i]];
        i := i + 1;
      }
      assert ids[..i] == ids;
      childCounts := childCounts[key := |ids|];
      RenumberedFacts(before, widgets, key, ids);
    }

    /** Deletes `id` and everything below it, drops their child counters and
      * renumbers the siblings `id` leaves behind. Returns the removed record, or
      * None, with nothing changed, when `id` is not registered. */
    method RemoveWidgetSubtree(id: string) returns (removed: Option<WidgetInfo>)
      modifies this
      ensures id !in old(widgets) ==>
        removed.None? && widgets == old(widgets) && childCounts == old(childCounts)
      ensures id in old(widgets) ==> removed == Some(old(widgets)[id])
      ensures id in old(widgets) ==> widgets.Keys == old(widgets).Keys - Subtree(old(widgets), id)
      ensures id in old(widgets) ==> id !in widgets && Descendants(widgets, id) == {}
      ensures id in old(widgets) ==>
        var pk := ParentKey(old(widgets)[id]);
        Contiguous(widgets, pk) && OrderKept(old(widgets), widgets, pk)
        && childCounts == (old(childCounts) - Subtree(old(widgets), id))[pk := ChildCount(widgets, pk)]
        && forall k :: k in widgets ==>
             widgets[k] == (if ParentMatches(old(widgets)[k], pk)
                            then old(widgets)[k].(childIndex := widgets[k].childIndex)
                            else old(widgets)[k])
    {
      if id !in widgets {
        return None;
      }
      var info := widgets[id];
      ghost var w0 := widgets;
      widgets := widgets - {id};
      ghost var w1 := widgets;
      var descendants := CollectDescendants(id, id, []);
      var i := 0;
      while i < |descendants|
        invariant 0 <= i <= |descendants|
        invariant widgets == w1 - (set j | 0 <= j < i :: descendants[j])
        invariant childCounts == old(childCounts) - (set j | 0 <= j < i :: descendants[j])
      {
        widgets := widgets - {descendants[i]};
        childCounts := childCounts - {descendants[i]};
        i := i + 1;
      }
      ghost var gone := set j | 0 <= j < |descendants| :: descendants[j];
      assert gone == Descendants(w1, id);
      childCounts := childCounts - {id};
      assert childCounts == old(childCounts) - Subtree(w0, id);
      var parentKey := info.parentId.GetOr(RootKey);
      ghost var w2 := widgets;
      RecomputeParentState(parentKey);
      RemovalFacts(w0, w1, w2, widgets, id, parentKey);
      removed := Some(info);
    }
  }

  /** The facts about the renumbering loop's outcome that `RecomputeParentState` promises. */
  lemma RenumberedFacts(before: Widgets, after: Widgets, key: string, ids: seq<string>)
    requires after.Keys == before.Keys
    requires forall j :: 0 <= j < |ids| ==> ids[j] in before
    requires forall k :: k in ChildrenOf(before, key) <==> k in ids
    requires |ids| == |ChildrenOf(before, key)|
    requires forall i, j :: 0 <= i < j < |ids| ==> ids[i] != ids[j]
    requires forall i, j :: 0 <= i < j < |ids| ==> before[ids[i]].childIndex <= before[ids[j]].childIndex
    requires forall j :: 0 <= j < |ids| ==> after[ids[j]] == before[ids[j]].(childIndex := j)
    requires forall k :: k in after && k !in ids ==> after[k] == before[k]
    ensures forall k :: k in after ==>
      after[k] == (if ParentMatches(before[k], key) then before[k].(childIndex := after[k].childIndex) else before[k])
    ensures Contiguous(after, key)
    ensures OrderKept(before, after, key)
  {
    assert SameLinks(before, after);
    ChildrenUnderSameLinks(before, after, key);
    var c := ChildrenOf(after, key);
    forall p | p in Positions(after, c)
      ensures p in Range(|c|)
    {
      var k :| k in c && after[k].childIndex == p;
      var j :| 0 <= j < |ids| && ids[j] == k;
    }
    forall p: nat | p < |c|
      ensures p in Positions(after, c)
    {
      assert ids[p] in c && after[ids[p]].childIndex == p;
    }
    assert Positions(after, c) == Range(|c|);
    forall a, b | a in c && b in c && a != b
      ensures after[a].childIndex != after[b].childIndex
    {
      var ja :| 0 <= ja < |ids| && ids[ja] == a;
      var jb :| 0 <= jb < |ids| && ids[jb] == b;
    }
    forall a, b | a in c && b in c && a in before && b in before && before[a].childIndex < before[b].childIndex
      ensures after[a].childIndex < after[b].childIndex
    {
      var ja :| 0 <= ja < |ids| && ids[ja] == a;
      var jb :| 0 <= jb < |ids| && ids[jb] == b;
    }
  }

  /** Connects the four snapshots of a removal: before, without `id`, without
    * its descendants, and renumbered. */
  lemma RemovalFacts(w0: Widgets, w1: Widgets, w2: Widgets, w3: Widgets, id: string, pk: string)
    requires id in w0 && pk == ParentKey(w0[id])
    requires w1 == w0 - {id}
    requires w2 == w1 - Descendants(w1, id)
    requires w3.Keys == w2.Keys
    requires forall k :: k in w3 ==>
      w3[k] == (if ParentMatches(w2[k], pk) then w2[k].(childIndex := w3[k].childIndex) else w2[k])
    requires Contiguous(w3, pk) && OrderKept(w2, w3, pk)
    ensures w3.Keys == w0.Keys - Subtree(w0, id)
    ensures id !in w3 && Descendants(w3, id) == {}
    ensures OrderKept(w0, w3, pk)
    ensures ChildCount(w2, pk) == ChildCount(w3, pk)
    ensures forall k :: k in w3 ==>
      w3[k] == (if ParentMatches(w0[k], pk) then w0[k].(childIndex := w3[k].childIndex) else w0[k])
  {
    assert SameLinks(w3, w1);
    DescendantsInLargerMap(w3, w1, id);
    assert SameLinks(w2, w3) && SameLinks(w3, w2);
    ChildrenUnderSameLinks(w2, w3, pk);
  }
}

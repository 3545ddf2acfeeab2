/**
 * Zephyr's intrusive doubly linked list (`sys_dlist_t` / `sys_dnode_t`).
 *
 * A list and a node are the same structure: a list is a node whose `next`
 * and `prev` are the list's head and tail. The list is circular through its
 * own head structure, so an empty list points to itself, and a node that is
 * not on any list has both links null. `Nodes` is the ghost view of a list:
 * the linked nodes from head to tail.
 */
module DList {

  class DNode {
    /** For a node: its successor (the list itself after the tail). For a list: the head. */
    var next: DNode?
    /** For a node: its predecessor (the list itself before the head). For a list: the tail. */
    var prev: DNode?
    /** When this structure is used as a list: the linked nodes, head to tail. */
    ghost var Nodes: seq<DNode>

    /** `sys_dnode_init`: a fresh node, not linked anywhere. */
    constructor ()
      ensures next == null && prev == null && Nodes == []
    {
      next, prev := null, null;
      Nodes := [];
    }

    /**
     * The ring `this, Nodes[0], ..., Nodes[n-1], this` is linked both ways
     * (so no node occurs twice: see `RingDistinct`).
     */
    ghost predicate Valid()
      reads this, Nodes
    {
      && this !in Nodes
      && (Nodes == [] ==> next == this && prev == this)
      && (Nodes != [] ==>
            && next == Nodes[0] && Nodes[0].prev == this
            && prev == Nodes[|Nodes| - 1] && Nodes[|Nodes| - 1].next == this)
      && (forall i {:trigger Nodes[i].next} | 0 <= i < |Nodes| - 1 :: Nodes[i].next == Nodes[i + 1])
      && (forall i {:trigger Nodes[i].prev} | 0 < i < |Nodes| :: Nodes[i].prev == Nodes[i - 1])
    }

    /** `sys_dlist_init`: the list is empty, head and tail point back at the list. */
    method Init()
      modifies this
      ensures Valid() && Nodes == []
    {
      next := this;
      prev := this;
      Nodes := [];
    }

    /** `sys_dlist_is_empty`. */
    function IsEmpty(): (r: bool)
      reads this, Nodes
      requires Valid()
      ensures r <==> Nodes == []
    {
      next == this
    }

    /** `sys_dlist_has_multiple_nodes`: head and tail differ. */
    function HasMultipleNodes(): (r: bool)
      reads this, Nodes
      requires Valid()
      ensures r <==> |Nodes| >= 2
    {
      next != prev
    }

    /** `sys_dlist_is_head`. */
    function IsHead(node: DNode): (r: bool)
      reads this, Nodes
      requires Valid()
      ensures r <==> (Nodes != [] && node == Nodes[0]) || (Nodes == [] && node == this)
    {
      next == node
    }

    /** `sys_dlist_is_tail`. */
    function IsTail(node: DNode): (r: bool)
      reads this, Nodes
      requires Valid()
      ensures r <==> (Nodes != [] && node == Nodes[|Nodes| - 1]) || (Nodes == [] && node == this)
    {
      prev == node
    }

    /** `sys_dlist_peek_head`: the head, or null when the list is empty. */
    function PeekHead(): (r: DNode?)
      reads this, Nodes
      requires Valid()
      ensures Nodes == [] ==> r == null
      ensures Nodes != [] ==> r == Nodes[0]
    {
      if next == this then null else next
    }

    /** `sys_dlist_peek_head_not_empty`: the head of a list the caller knows is not empty. */
    function PeekHeadNotEmpty(): (r: DNode)
      reads this, Nodes
      requires Valid() && Nodes != []
      ensures r == Nodes[0]
    {
      next
    }

    /** `sys_dlist_peek_tail`: the tail, or null when the list is empty. */
    function PeekTail(): (r: DNode?)
      reads this, Nodes
      requires Valid()
      ensures Nodes == [] ==> r == null
      ensures Nodes != [] ==> r == Nodes[|Nodes| - 1]
    {
      if next == this then null else prev
    }

    /** `sys_dlist_peek_next_no_check`: the successor of a linked node, null after the tail. */
    function PeekNextNoCheck(node: DNode): (r: DNode?)
      reads this, Nodes, node
      requires Valid() && node in Nodes
      ensures r == NodeAfter(Nodes, IndexOf(Nodes, node))
    {
      if node == prev then null else node.next
    }

    /** `sys_dlist_peek_next`: as above, and null for a null node. */
    function PeekNext(node: DNode?): (r: DNode?)
      reads this, Nodes, node
      requires Valid() && (node == null || node in Nodes)
      ensures node == null ==> r == null
      ensures node != null ==> r == NodeAfter(Nodes, IndexOf(Nodes, node))
    {
      if node == null then null else PeekNextNoCheck(node)
    }

    /** `sys_dlist_peek_prev_no_check`: the predecessor of a linked node, null before the head. */
    function PeekPrevNoCheck(node: DNode): (r: DNode?)
      reads this, Nodes, node
      requires Valid() && node in Nodes
      ensures r == NodeBefore(Nodes, IndexOf(Nodes, node))
    {
      if node == next then null else node.prev
    }

    /** `sys_dlist_peek_prev`: as above, and null for a null node. */
    function PeekPrev(node: DNode?): (r: DNode?)
      reads this, Nodes, node
      requires Valid() && (node == null || node in Nodes)
      ensures node == null ==> r == null
      ensures node != null ==> r == NodeBefore(Nodes, IndexOf(Nodes, node))
    {
      if node == null then null else PeekPrevNoCheck(node)
    }

    /** `sys_dlist_append`: link `node` after the tail. */
    method Append(node: DNode)
      requires Valid() && node != this && node !in Nodes
      modifies this, Nodes, node
      ensures Valid() && Nodes == old(Nodes) + [node]
    {
      var tail := prev;
      node.next := this;
      node.prev := tail;
      tail.next := node;
      prev := node;
      Nodes := Nodes + [node];
    }

    /** `sys_dlist_prepend`: link `node` before the head. */
    method Prepend(node: DNode)
      requires Valid() && node != this && node !in Nodes
      modifies this, Nodes, node
      ensures Valid() && Nodes == [node] + old(Nodes)
    {
      var head := next;
      node.next := head;
      node.prev := this;
      head.prev := node;
      next := node;
      Nodes := [node] + Nodes;
    }

    /** `sys_dlist_get`: unlink and return the head, or null when the list is empty. */
    method Get() returns (node: DNode?)
      requires Valid()
      modifies this, Nodes
      ensures Valid()
      ensures old(Nodes) == [] ==> node == null && Nodes == []
      ensures old(Nodes) != [] ==>
                node == old(Nodes)[0] && Nodes == old(Nodes)[1..] && node.next == null && node.prev == null
    {
      node := null;
      if next != this {
        node := next;
        Remove(this, node, 0);
      }
    }

    /** `sys_dlist_len`: counts the nodes with a `SYS_DLIST_FOR_EACH_NODE` walk. */
    method Len() returns (len: nat)
      requires Valid()
      ensures len == |Nodes|
    {
      len := 0;
      var node := PeekHead();
      while node != null
        invariant len <= |Nodes|
        invariant node == NodeAt(Nodes, len)
        decreases |Nodes| - len
      {
        len := len + 1;
        node := PeekNext(node);
      }
    }

    /**
     * `sys_dlist_insert_at`: link `node` before the first node that satisfies
     * `cond` (the C callback with its `data` argument bound), or append it
     * when no node does, in particular when the list is empty.
     */
    method InsertAt(node: DNode, cond: DNode -> bool)
      requires Valid() && node != this && node !in Nodes
      modifies this, Nodes, node
      ensures Valid()
      ensures Nodes == old(Nodes)[..FirstMatch(old(Nodes), cond)] + [node]
                       + old(Nodes)[FirstMatch(old(Nodes), cond)..]
    {
      if IsEmpty() {
        Append(node);
      } else {
        var pos := PeekHead();
        ghost var k := 0;
        while pos != null && !cond(pos)
          modifies {}
          invariant k <= |Nodes| && pos == NodeAt(Nodes, k)
          invariant forall j | 0 <= j < k :: !cond(Nodes[j])
          decreases |Nodes| - k
        {
          pos := PeekNext(pos);
          k := k + 1;
        }
        FirstMatchIs(Nodes, cond, k);
        if pos != null {
          Insert(this, pos, node, k);
        } else {
          Append(node);
          assert old(Nodes)[..k] == old(Nodes) && old(Nodes)[k..] == [];
        }
      }
    }

    /**
     * `SYS_DLIST_FOR_EACH_NODE` (and `SYS_DLIST_FOR_EACH_CONTAINER`, the same
     * walk): visit `peek_head`, then `peek_next` of each visited node, until null.
     * The body records the visited node and changes nothing.
     */
    method ForEachNode() returns (visited: seq<DNode>)
      requires Valid()
      ensures visited == Nodes
    {
      visited := [];
      var node := PeekHead();
      while node != null
        invariant |visited| <= |Nodes| && visited == Nodes[..|visited|]
        invariant node == NodeAt(Nodes, |visited|)
        decreases |Nodes| - |visited|
      {
        visited := visited + [node];
        node := PeekNext(node);
      }
    }

    /**
     * `SYS_DLIST_FOR_EACH_NODE_SAFE` (and `SYS_DLIST_FOR_EACH_CONTAINER_SAFE`):
     * the successor is fetched before the body runs, so the body may unlink the
     * node it is visiting. Here the body unlinks exactly the visited nodes that are in `gone`.
     */
    method ForEachNodeSafe(gone: set<DNode>) returns (visited: seq<DNode>)
      requires Valid()
      modifies this, set n | n in Nodes
      ensures Valid()
      ensures visited == old(Nodes)
      ensures Nodes == Keep(old(Nodes), gone)
      ensures forall n | n in old(Nodes) && n in gone :: n.next == null && n.prev == null
    {
      ghost var orig := Nodes;
      ghost var rest := Nodes;
      visited := [];
      var node, safe := SafeStart(this);
      assert Keep(visited, gone) + rest == rest;
      while node != null
        invariant Valid()
        invariant orig == visited + rest
        invariant Nodes == Keep(visited, gone) + rest
        invariant node == NodeAt(rest, 0)
        invariant node != null ==> safe == NodeAt(rest, 1)
        invariant Disjoint(visited, rest) && Unlinked(visited, gone)
        decreases |rest|
      {
        SplitMembers(orig, visited, rest, gone);
        var current: DNode := node;
        node, safe, rest := SafeStep(this, node, safe, gone, visited, rest);
        visited := visited + [current];
      }
      SafeWalkDone(orig, visited, rest, gone);
    }

    /**
     * `SYS_DLIST_ITERATE_FROM_NODE`: resume a walk after `from` (from the head
     * when `from` is null) and run until the body breaks, which it does at the
     * first node in `stop`, or until the tail is passed. Returns where the walk
     * stopped (null when it ran off the tail) and how many times the body ran.
     */
    method IterateFromNode(from: DNode?, stop: set<DNode>) returns (node: DNode?, count: nat)
      requires Valid() && (from == null || from in Nodes)
      ensures node == NodeAt(Nodes, StopAt(Nodes, WalkStart(Nodes, from), stop))
      ensures count == FromNodeCount(Nodes, from, stop)
    {
      ghost var start := WalkStart(Nodes, from);
      if from == null {
        node := PeekHead();
      } else {
        node := PeekNextNoCheck(from);
      }
      count := 0;
      ghost var k := start;
      while node != null
        invariant start <= k <= |Nodes| && node == NodeAt(Nodes, k)
        invariant forall j | start <= j < k :: Nodes[j] !in stop
        invariant count == k - start
        decreases |Nodes| - k
      {
        count := count + 1;
        if node in stop {
          break;
        }
        node := PeekNext(node);
        k := k + 1;
      }
      StopAtIs(Nodes, start, stop, k);
    }

    /**
     * `sys_dlist_range_prepend`: move the run `first..last`, found at positions
     * `i..j` of the list `src`, to the front of this list. The C function is not
     * given `src`; here it is a ghost parameter naming the list the run leaves.
     */
    method RangePrepend(ghost src: DNode, first: DNode, last: DNode, ghost i: nat, ghost j: nat)
      requires Valid() && src.Valid() && src != this && this !in src.Nodes && src !in Nodes
      requires forall n | n in src.Nodes :: n !in Nodes
      requires i <= j < |src.Nodes| && src.Nodes[i] == first && src.Nodes[j] == last
      modifies this, Nodes, src, src.Nodes
      ensures Valid() && src.Valid()
      ensures Nodes == old(src.Nodes)[i..j + 1] + old(Nodes)
      ensures src.Nodes == old(src.Nodes)[..i] + old(src.Nodes)[j + 1..]
    {
      ghost var s := src.Nodes;
      ghost var run := s[i..j + 1];
      RingDistinct(src);
      RunFacts(s, i, j);
      assert run[0] == first && run[|run| - 1] == last;
      ghost var left := s[..i] + s[j + 1..];
      UnlinkRange(src, first, last, i, j);
      StillValid(this);
      assert this !in run && first !in left && last !in left;
      assert forall n | n in left :: n in s;
      label Cut:
      LinkFront(this, first, last, run);
      StillValid@Cut(src);
    }

    /** `sys_dlist_range_append`: as `RangePrepend`, but the run goes to the back of this list. */
    method RangeAppend(ghost src: DNode, first: DNode, last: DNode, ghost i: nat, ghost j: nat)
      requires Valid() && src.Valid() && src != this && this !in src.Nodes && src !in Nodes
      requires forall n | n in src.Nodes :: n !in Nodes
      requires i <= j < |src.Nodes| && src.Nodes[i] == first && src.Nodes[j] == last
      modifies this, Nodes, src, src.Nodes
      ensures Valid() && src.Valid()
      ensures Nodes == old(Nodes) + old(src.Nodes)[i..j + 1]
      ensures src.Nodes == old(src.Nodes)[..i] + old(src.Nodes)[j + 1..]
    {
      ghost var s := src.Nodes;
      ghost var run := s[i..j + 1];
      RingDistinct(src);
      RunFacts(s, i, j);
      assert run[0] == first && run[|run| - 1] == last;
      ghost var left := s[..i] + s[j + 1..];
      UnlinkRange(src, first, last, i, j);
      StillValid(this);
      assert this !in run && first !in left && last !in left;
      assert forall n | n in left :: n in s;
      label Cut:
      LinkBack(this, first, last, run);
      StillValid@Cut(src);
    }

    /**
     * After the neighbours of the run at positions `cut.0..cut.1` of this list
     * have been linked to each other, and nothing else has changed, the list is
     * well formed again with the run left out.
     */
    twostate lemma CutIsRing(cut: (int, int))
      requires old(Valid()) && Distinct(old(Nodes)) && 0 <= cut.0 <= cut.1 < |old(Nodes)|
      requires var s, i, j := old(Nodes), cut.0, cut.1;
        var before, after := Before(this, s, i), After(this, s, j);
        && before.next == after && after.prev == before
        && (forall n | n in s && n != before :: n.next == old(n.next))
        && (forall n | n in s && n != after :: n.prev == old(n.prev))
        && (this != before ==> next == old(next))
        && (this != after ==> prev == old(prev))
        && Nodes == s[..i] + s[j + 1..]
      ensures Valid()
    {
      ghost var s, i, j := old(Nodes), cut.0, cut.1;
      ghost var before, after := Before(this, s, i), After(this, s, j);
      ghost var t := Nodes;
      assert forall k | 0 <= k < i :: t[k] == s[k];
      assert forall k | i <= k < |t| :: t[k] == s[k + j + 1 - i];
      forall k | 0 <= k < |t| - 1 ensures t[k].next == t[k + 1] {
        if k + 1 < i { assert s[k] != before && s[k] in s; } else if k >= i { assert s[k + j + 1 - i] != before && s[k + j + 1 - i] in s; }
      }
      forall k | 0 < k < |t| ensures t[k].prev == t[k - 1] {
        if k < i { assert s[k] != after && s[k] in s; } else if k > i { assert s[k + j + 1 - i] != after && s[k + j + 1 - i] in s; }
      }
    }

    /**
     * After `at.0` has been linked in at position `at.1` of this list between
     * its two neighbours, and nothing else has changed, the list is well formed
     * again with the node added.
     */
    twostate lemma SpliceIsRing(at: (DNode, int))
      requires old(Valid()) && Distinct(old(Nodes)) && 0 <= at.1 <= |old(Nodes)|
      requires at.0 != this && at.0 !in old(Nodes)
      requires var s, node, k := old(Nodes), at.0, at.1;
        var before, after := Before(this, s, k), After(this, s, k - 1);
        && before.next == node && node.prev == before && node.next == after && after.prev == node
        && (forall n | n in s && n != before :: n.next == old(n.next))
        && (forall n | n in s && n != after :: n.prev == old(n.prev))
        && (this != before ==> next == old(next))
        && (this != after ==> prev == old(prev))
        && Nodes == s[..k] + [node] + s[k..]
      ensures Valid()
    {
      ghost var s, node, k := old(Nodes), at.0, at.1;
      ghost var before, after := Before(this, s, k), After(this, s, k - 1);
      ghost var t := Nodes;
      assert forall i | 0 <= i < k :: t[i] == s[i];
      assert forall i | k < i < |t| :: t[i] == s[i - 1];
      forall i | 0 <= i < |t| - 1 ensures t[i].next == t[i + 1] {
        if i + 1 < k { assert s[i] != before && s[i] in s; } else if i > k { assert s[i - 1] != before && s[i - 1] in s; }
      }
      forall i | 0 < i < |t| ensures t[i].prev == t[i - 1] {
        if i < k { assert s[i] != after && s[i] in s; } else if i > k + 1 { assert s[i - 1] != after && s[i - 1] in s; }
      }
    }
  }

  /** Where `SYS_DLIST_ITERATE_FROM_NODE` starts: after `from`, or at the head when `from` is null. */
  function WalkStart(nodes: seq<DNode>, from: DNode?): (start: nat)
    requires from == null || from in nodes
    ensures start <= |nodes|
    ensures from != null ==> 0 < start && nodes[start - 1] == from
  {
    if from == null then 0 else IndexOf(nodes, from) + 1
  }

  /** The position where a walk from `start` that breaks at nodes of `stop` stops, `|nodes|` if it never breaks. */
  function StopAt(nodes: seq<DNode>, start: nat, stop: set<DNode>): (e: nat)
    requires start <= |nodes|
    ensures start <= e <= |nodes|
    ensures e < |nodes| ==> nodes[e] in stop
    ensures forall j | start <= j < e :: nodes[j] !in stop
    decreases |nodes| - start
  {
    if start == |nodes| || nodes[start] in stop then start else StopAt(nodes, start + 1, stop)
  }

  /** How many times the body of a walk resumed after `from` runs: once per node up to and including the one it breaks at. */
  function FromNodeCount(nodes: seq<DNode>, from: DNode?, stop: set<DNode>): nat
    requires from == null || from in nodes
  {
    var start := WalkStart(nodes, from);
    var e := StopAt(nodes, start, stop);
    if e < |nodes| then e - start + 1 else e - start
  }

  /** A walk from `start` whose first node in `stop` is at `k` (or that has none) stops at `k`. */
  lemma {:induction false} StopAtIs(nodes: seq<DNode>, start: nat, stop: set<DNode>, k: nat)
    requires start <= k <= |nodes| && (k < |nodes| ==> nodes[k] in stop)
    requires forall j | start <= j < k :: nodes[j] !in stop
    ensures StopAt(nodes, start, stop) == k
    decreases k - start
  {
    if start < k {
      StopAtIs(nodes, start + 1, stop, k);
    }
  }

  /**
   * The walks of the iterate-from-node test over a list of six nodes: from the
   * head up to the third node the body runs three times; resumed after the
   * third up to the fourth, once; resumed after the fourth to the end, twice.
   */
  lemma IterateFromNodeCounts(nodes: seq<DNode>)
    requires |nodes| == 6
    requires forall a, b | 0 <= a < b < |nodes| :: nodes[a] != nodes[b]
    ensures FromNodeCount(nodes, null, {nodes[2]}) == 3
    ensures FromNodeCount(nodes, nodes[2], {nodes[3]}) == 1
    ensures FromNodeCount(nodes, nodes[3], {}) == 2
  {
    StopAtIs(nodes, 0, {nodes[2]}, 2);
    IndexOfDistinct(nodes, 2);
    StopAtIs(nodes, 3, {nodes[3]}, 3);
    IndexOfDistinct(nodes, 3);
    StopAtIs(nodes, 4, {}, 6);
  }

  /** A well-formed list stays well formed while neither it nor any of its nodes changes. */
  twostate lemma StillValid(list: DNode)
    requires old(list.Valid())
    requires list.next == old(list.next) && list.prev == old(list.prev) && list.Nodes == old(list.Nodes)
    requires forall n | n in list.Nodes :: n.next == old(n.next) && n.prev == old(n.prev)
    ensures list.Valid()
  {
  }

  /** The nodes `run` are linked to one another in order, as a run cut out of a list stays. */
  ghost predicate Chain(run: seq<DNode>)
    reads run
  {
    && (forall k {:trigger run[k].next} | 0 <= k < |run| - 1 :: run[k].next == run[k + 1])
    && (forall k {:trigger run[k].prev} | 0 < k < |run| :: run[k].prev == run[k - 1])
  }

  /** No node appears twice in `nodes`. */
  ghost predicate Distinct(nodes: seq<DNode>)
  {
    forall a, b | 0 <= a < b < |nodes| :: nodes[a] != nodes[b]
  }

  /** The nodes of a well-formed list are pairwise distinct: a repeat would close the ring early. */
  lemma RingDistinct(list: DNode)
    requires list.Valid()
    ensures Distinct(list.Nodes)
  {
    forall a, b | 0 <= a < b < |list.Nodes| ensures list.Nodes[a] != list.Nodes[b] {
      NoRepeat(list, a, b);
    }
  }

  lemma {:induction false} NoRepeat(list: DNode, a: nat, b: nat)
    requires list.Valid() && a < b < |list.Nodes|
    ensures list.Nodes[a] != list.Nodes[b]
    decreases |list.Nodes| - b
  {
    var s := list.Nodes;
    if b == |s| - 1 {
      assert s[a].next == s[a + 1] && s[b].next == list;
    } else {
      NoRepeat(list, a + 1, b + 1);
      assert s[a].next == s[a + 1] && s[b].next == s[b + 1];
    }
  }

  /** A run cut out of a sequence without repeats has no repeats, and none of its nodes is left around it. */
  lemma RunFacts(s: seq<DNode>, i: nat, j: nat)
    requires Distinct(s) && i <= j < |s|
    ensures Distinct(s[i..j + 1])
    ensures forall n | n in s[i..j + 1] :: n in s && n !in s[..i] + s[j + 1..]
  {
    var rest := s[..i] + s[j + 1..];
    assert forall b | 0 <= b < |rest| :: rest[b] == if b < i then s[b] else s[b + j + 1 - i];
    forall n | n in s[i..j + 1] ensures n in s && n !in rest {
      var a :| 0 <= a < j + 1 - i && s[i..j + 1][a] == n;
      assert s[i + a] == n;
    }
  }

  /**
   * The unlinking half of `sys_dlist_range_prepend`/`range_append`: the
   * neighbours of the run `first..last` (positions `i..j` of `list`) are
   * linked to each other; the run keeps its inner links.
   */
  method UnlinkRange(ghost list: DNode, first: DNode, last: DNode, ghost i: nat, ghost j: nat)
    requires list.Valid() && i <= j < |list.Nodes| && list.Nodes[i] == first && list.Nodes[j] == last
    modifies list, list.Nodes
    ensures list.Valid()
    ensures list.Nodes == old(list.Nodes)[..i] + old(list.Nodes)[j + 1..]
    ensures Chain(old(list.Nodes)[i..j + 1])
  {
    ghost var s := list.Nodes;
    ghost var run := s[i..j + 1];
    RingDistinct(list);
    assert Chain(run);
    var before := first.prev;
    var after := last.next;
    assert before == Before(list, s, i) && after == After(list, s, j);
    OutsideRun(s, i, j, before);
    OutsideRun(s, i, j, after);
    OutsideRun(s, i, j, list);
    before.next := after;
    after.prev := before;
    list.Nodes := s[..i] + s[j + 1..];
    list.CutIsRing((i, j));
    assert Chain(run);
  }

  /** The neighbours of a run, and nodes not in the sequence at all, are not in the run. */
  lemma OutsideRun(s: seq<DNode>, i: nat, j: nat, x: DNode)
    requires Distinct(s) && i <= j < |s|
    requires x !in s || (0 < i && x == s[i - 1]) || (j + 1 < |s| && x == s[j + 1])
    ensures x !in s[i..j + 1]
  {
    var run := s[i..j + 1];
    forall m | 0 <= m < |run| ensures run[m] != x {
      assert run[m] == s[i + m];
    }
  }

  /** The node in front of position `i` of the list `list` with contents `s`: the head itself for the first position. */
  function Before(list: DNode, s: seq<DNode>, i: int): DNode
    requires 0 <= i <= |s|
  {
    if i == 0 then list else s[i - 1]
  }

  /** The node behind position `j` of the list `list` with contents `s`: the head itself for the last position. */
  function After(list: DNode, s: seq<DNode>, j: int): DNode
    requires -1 <= j < |s|
  {
    if j == |s| - 1 then list else s[j + 1]
  }

  /** The linking half of `sys_dlist_range_prepend`: the chain `run` from `first` to `last` goes in front of the head. */
  method LinkFront(list: DNode, first: DNode, last: DNode, ghost run: seq<DNode>)
    requires list.Valid() && run != [] && run[0] == first && run[|run| - 1] == last
    requires Chain(run) && Distinct(run) && list !in run
    requires forall n | n in run :: n !in list.Nodes
    modifies list, list.Nodes, first, last
    ensures list.Valid() && list.Nodes == run + old(list.Nodes)
  {
    ghost var s := list.Nodes;
    assert first in run && last in run;
    RingDistinct(list);
    var head := list.next;
    first.prev := list;
    last.next := head;
    head.prev := last;
    list.next := first;
    list.Nodes := run + s;
    assert forall a | 0 <= a < |run + s| :: (run + s)[a] == if a < |run| then run[a] else s[a - |run|];
  }

  /** The linking half of `sys_dlist_range_append`: the chain `run` from `first` to `last` goes after the tail. */
  method LinkBack(list: DNode, first: DNode, last: DNode, ghost run: seq<DNode>)
    requires list.Valid() && run != [] && run[0] == first && run[|run| - 1] == last
    requires Chain(run) && Distinct(run) && list !in run
    requires forall n | n in run :: n !in list.Nodes
    modifies list, list.Nodes, first, last
    ensures list.Valid() && list.Nodes == old(list.Nodes) + run
  {
    ghost var s := list.Nodes;
    assert first in run && last in run;
    RingDistinct(list);
    var tail := list.prev;
    last.next := list;
    first.prev := tail;
    tail.next := first;
    list.prev := last;
    list.Nodes := s + run;
    assert forall a | 0 <= a < |s + run| :: (s + run)[a] == if a < |s| then s[a] else run[a - |s|];
  }

  /** The node at position `i` of a walk over `nodes`, or null once the walk is past the tail. */
  function NodeAt(nodes: seq<DNode>, i: nat): (r: DNode?)
    ensures i < |nodes| ==> r == nodes[i]
    ensures i >= |nodes| ==> r == null
  {
    if i < |nodes| then nodes[i] else null
  }

  /** The successor of position `i`, null after the tail. */
  function NodeAfter(nodes: seq<DNode>, i: nat): DNode?
  {
    NodeAt(nodes, i + 1)
  }

  /** The predecessor of position `i`, null before the head. */
  function NodeBefore(nodes: seq<DNode>, i: nat): DNode?
  {
    if 0 < i <= |nodes| then nodes[i - 1] else null
  }

  /** The position of `n` in `nodes` (its first occurrence). */
  function IndexOf(nodes: seq<DNode>, n: DNode): (i: nat)
    requires n in nodes
    ensures i < |nodes| && nodes[i] == n
  {
    if nodes[0] == n then 0 else 1 + IndexOf(nodes[1..], n)
  }

  /** On a list without repeats, the position of the node at `k` is `k`. */
  lemma {:induction false} IndexOfDistinct(nodes: seq<DNode>, k: nat)
    requires k < |nodes|
    requires forall a, b | 0 <= a < b < |nodes| :: nodes[a] != nodes[b]
    ensures IndexOf(nodes, nodes[k]) == k
  {
    if k > 0 {
      assert nodes[0] != nodes[k];
      assert nodes[1..][k - 1] == nodes[k];
      IndexOfDistinct(nodes[1..], k - 1);
    }
  }

  /** The position of the first node of `nodes` satisfying `cond`, or `|nodes|` when none does. */
  function FirstMatch(nodes: seq<DNode>, cond: DNode -> bool): (p: nat)
    ensures p <= |nodes|
    ensures p < |nodes| ==> cond(nodes[p])
    ensures forall j | 0 <= j < p :: !cond(nodes[j])
  {
    if nodes == [] then 0
    else if cond(nodes[0]) then 0
    else 1 + FirstMatch(nodes[1..], cond)
  }

  /** A walk that stops at the first node satisfying `cond` stops at `FirstMatch`. */
  lemma {:induction false} FirstMatchIs(nodes: seq<DNode>, cond: DNode -> bool, k: nat)
    requires k <= |nodes| && (k < |nodes| ==> cond(nodes[k]))
    requires forall j | 0 <= j < k :: !cond(nodes[j])
    ensures FirstMatch(nodes, cond) == k
  {
    if nodes != [] && !cond(nodes[0]) {
      assert forall j | 0 <= j < k - 1 :: nodes[1..][j] == nodes[j + 1];
      FirstMatchIs(nodes[1..], cond, k - 1);
    }
  }

  /** The nodes of `visited` that are in `gone` have both links cleared: they report not linked. */
  ghost predicate Unlinked(visited: seq<DNode>, gone: set<DNode>)
    reads visited
  {
    forall n | n in visited && n in gone :: n.next == null && n.prev == null
  }

  /**
   * Midway through a removal-safe walk, the visited nodes the body has
   * unlinked are off the list, and the node being visited is not met again.
   */
  lemma DetachedOffList(list: DNode, visited: seq<DNode>, rest: seq<DNode>, gone: set<DNode>)
    requires list.Valid() && list.Nodes == Keep(visited, gone) + rest && rest != []
    requires Disjoint(visited, rest)
    ensures forall n | n in visited && n in gone :: n !in list.Nodes
    ensures Disjoint(visited + [rest[0]], rest[1..])
  {
    KeepMembers(visited, gone);
    RingDistinct(list);
    HeadNotInTail(Keep(visited, gone), rest);
  }

  /** No node of `visited` is in `rest`. */
  ghost predicate Disjoint(visited: seq<DNode>, rest: seq<DNode>)
  {
    forall n | n in visited :: n !in rest
  }

  /** On a list without repeats made of `kept + rest`, the first node of `rest` is not among the others. */
  lemma HeadNotInTail(kept: seq<DNode>, rest: seq<DNode>)
    requires Distinct(kept + rest) && rest != []
    ensures rest[0] !in rest[1..]
  {
    var s := kept + rest;
    forall b | 0 <= b < |rest| - 1
      ensures rest[1..][b] != rest[0]
    {
      assert rest[0] == s[|kept|] && rest[1..][b] == s[|kept| + 1 + b];
    }
  }

  /** The nodes of `s` that stay linked when the nodes in `gone` are unlinked, in order. */
  function Keep(s: seq<DNode>, gone: set<DNode>): (r: seq<DNode>)
    ensures |r| <= |s|
  {
    if s == [] then []
    else if s[|s| - 1] in gone then Keep(s[..|s| - 1], gone)
    else Keep(s[..|s| - 1], gone) + [s[|s| - 1]]
  }

  /** A walk that removes every node it visits leaves the list empty. */
  lemma {:induction false} KeepAll(s: seq<DNode>, gone: set<DNode>)
    requires forall n | n in s :: n in gone
    ensures Keep(s, gone) == []
  {
    if s != [] {
      assert forall n | n in s[..|s| - 1] :: n in s;
      KeepAll(s[..|s| - 1], gone);
    }
  }

  /** A walk that removes nothing leaves the list as it was. */
  lemma {:induction false} KeepNone(s: seq<DNode>, gone: set<DNode>)
    requires forall n | n in s :: n !in gone
    ensures Keep(s, gone) == s
  {
    if s != [] {
      assert forall n | n in s[..|s| - 1] :: n in s;
      KeepNone(s[..|s| - 1], gone);
      assert s[..|s| - 1] + [s[|s| - 1]] == s;
    }
  }

  lemma KeepStep(s: seq<DNode>, n: DNode, gone: set<DNode>)
    ensures Keep(s + [n], gone) == Keep(s, gone) + (if n in gone then [] else [n])
  {
    assert (s + [n])[..|s|] == s;
  }

  /**
   * The body of a removal-safe walk, at the node `rest[0]` of a list made of
   * `kept + rest`: the node is unlinked when it is in `gone`, and kept otherwise.
   */
  method VisitSafe(ghost list: DNode, node: DNode, ghost kept: seq<DNode>, ghost rest: seq<DNode>, gone: set<DNode>)
    requires list.Valid() && list.Nodes == kept + rest && rest != [] && rest[0] == node
    modifies list, list.Nodes
    ensures list.Valid()
    ensures list.Nodes == kept + (if node in gone then [] else [node]) + rest[1..]
    ensures node in gone ==> node.next == null && node.prev == null
  {
    if node in gone {
      DropAt(kept, rest);
      Remove(list, node, |kept|);
    } else {
      MoveFirst(kept, rest);
    }
  }

  /** The first node of a removal-safe walk and its successor, fetched before the first visit. */
  method SafeStart(list: DNode) returns (node: DNode?, safe: DNode?)
    requires list.Valid()
    ensures node == NodeAt(list.Nodes, 0)
    ensures node != null ==> safe == NodeAt(list.Nodes, 1)
  {
    node := list.PeekHead();
    if node != null {
      SuccessorInSplit(list, [], list.Nodes);
    }
    safe := list.PeekNext(node);
  }

  /**
   * One round of a removal-safe walk over a list made of `Keep(visited, gone) + rest`:
   * visit `node == rest[0]`, whose successor `safe` was fetched beforehand, and
   * fetch the successor of `safe` for the next round.
   */
  method SafeStep(list: DNode, node: DNode, safe: DNode?, gone: set<DNode>, ghost visited: seq<DNode>, ghost rest: seq<DNode>)
    returns (next: DNode?, nextSafe: DNode?, ghost later: seq<DNode>)
    requires list.Valid() && list.Nodes == Keep(visited, gone) + rest
    requires rest != [] && rest[0] == node && safe == NodeAt(rest, 1)
    requires Disjoint(visited, rest) && Unlinked(visited, gone)
    modifies list, list.Nodes
    ensures list.Valid()
    ensures rest == [node] + later
    ensures visited + rest == (visited + [node]) + later
    ensures list.Nodes == Keep(visited + [node], gone) + later
    ensures next == NodeAt(later, 0)
    ensures next != null ==> nextSafe == NodeAt(later, 1)
    ensures Disjoint(visited + [node], later) && Unlinked(visited + [node], gone)
  {
    later := rest[1..];
    assert rest == [node] + later;
    DetachedOffList(list, visited, rest, gone);
    KeepStep(visited, node, gone);
    MoveFirst(visited, rest);
    VisitSafe(list, node, Keep(visited, gone), rest, gone);
    next := safe;
    if next != null {
      SuccessorInSplit(list, Keep(visited + [node], gone), later);
    }
    nextSafe := list.PeekNext(next);
  }

  /** A removal-safe walk with nothing left to visit has visited the whole list. */
  lemma SafeWalkDone(orig: seq<DNode>, visited: seq<DNode>, rest: seq<DNode>, gone: set<DNode>)
    requires orig == visited + rest && NodeAt(rest, 0) == null
    ensures visited == orig && Keep(visited, gone) + rest == Keep(orig, gone)
  {
    assert rest == [];
  }

  /** Every node of a list split as `kept + rest` came from the walk `visited + rest`. */
  lemma SplitMembers(orig: seq<DNode>, visited: seq<DNode>, rest: seq<DNode>, gone: set<DNode>)
    requires orig == visited + rest
    ensures forall n | n in Keep(visited, gone) + rest :: n in orig
  {
    KeepMembers(visited, gone);
  }

  /** `Keep` keeps nodes of `s` only, and none of `gone`. */
  lemma {:induction false} KeepMembers(s: seq<DNode>, gone: set<DNode>)
    ensures forall n | n in Keep(s, gone) :: n in s && n !in gone
  {
    if s != [] {
      KeepMembers(s[..|s| - 1], gone);
    }
  }

  /** The successor of the first node of `rest`, on a list made of `kept + rest`. */
  lemma SuccessorInSplit(list: DNode, kept: seq<DNode>, rest: seq<DNode>)
    requires list.Valid() && list.Nodes == kept + rest && rest != []
    ensures rest[0] in list.Nodes && list.Nodes[|kept|] == rest[0]
    ensures list.PeekNext(rest[0]) == NodeAt(rest, 1)
  {
    assert list.Nodes[|kept|] == rest[0];
    RingDistinct(list);
    IndexOfDistinct(list.Nodes, |kept|);
  }

  /** Dropping the element at `|front|` from `front + rest` leaves `front + rest[1..]`. */
  lemma DropAt(front: seq<DNode>, rest: seq<DNode>)
    requires rest != []
    ensures (front + rest)[|front|] == rest[0]
    ensures (front + rest)[..|front|] + (front + rest)[|front| + 1..] == front + rest[1..]
  {
    assert (front + rest)[..|front|] == front;
    assert (front + rest)[|front| + 1..] == rest[1..];
  }

  /** Moving the first element of `rest` to the end of `front` changes nothing. */
  lemma MoveFirst(front: seq<DNode>, rest: seq<DNode>)
    requires rest != []
    ensures front + rest == (front + [rest[0]]) + rest[1..]
  {
    assert rest == [rest[0]] + rest[1..];
  }

  /**
   * `sys_dlist_insert`: link `node` immediately before `successor`, which is
   * linked at position `k` of `list` (the list is not an argument of the C
   * function; here it is a ghost parameter that names the list being changed).
   */
  method Insert(ghost list: DNode, successor: DNode, node: DNode, ghost k: nat)
    requires list.Valid() && k < |list.Nodes| && list.Nodes[k] == successor
    requires node != list && node !in list.Nodes
    modifies list, list.Nodes, node
    ensures list.Valid()
    ensures list.Nodes == old(list.Nodes)[..k] + [node] + old(list.Nodes)[k..]
  {
    ghost var s := list.Nodes;
    RingDistinct(list);
    var before := successor.prev;
    assert before == Before(list, s, k) && successor == After(list, s, k - 1);
    node.prev := before;
    node.next := successor;
    before.next := node;
    successor.prev := node;
    list.Nodes := s[..k] + [node] + s[k..];
    list.SpliceIsRing((node, k));
  }

  /**
   * `sys_dlist_remove`: unlink `node`, found at position `k` of `list`, and
   * reset its links so that it reports not linked.
   */
  method Remove(ghost list: DNode, node: DNode, ghost k: nat)
    requires list.Valid() && k < |list.Nodes| && list.Nodes[k] == node
    modifies list, list.Nodes
    ensures list.Valid()
    ensures list.Nodes == old(list.Nodes)[..k] + old(list.Nodes)[k + 1..]
    ensures node.next == null && node.prev == null
  {
    ghost var s := list.Nodes;
    RingDistinct(list);
    RunFacts(s, k, k);
    UnlinkRange(list, node, node, k, k);
    label Cut:
    node.next := null;
    node.prev := null;
    StillValid@Cut(list);
  }

  /** `sys_dnode_is_linked`: a node is linked when its successor link is set. */
  function IsLinked(node: DNode): bool
    reads node
  {
    node.next != null
  }

  /** A node on a well-formed list reports linked. */
  lemma LinkedNodesAreLinked(list: DNode, node: DNode)
    requires list.Valid() && node in list.Nodes
    ensures IsLinked(node)
  {
    var i := IndexOf(list.Nodes, node);
    if i < |list.Nodes| - 1 {
      assert node.next == list.Nodes[i + 1];
    }
  }
}

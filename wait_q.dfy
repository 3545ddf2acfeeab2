/**
 * The kernel wait queue (`_wait_q_t`) that blocking kernel objects use to
 * track their pending threads, with its two build-time backends: the default
 * one keeps the threads on an intrusive `sys_dlist_t`, and the scalable one
 * (`CONFIG_WAITQ_SCALABLE`) keeps them in a red-black tree ordered by
 * `z_priq_rb_lessthan`.
 *
 * A pending thread is identified by the list node embedded in it
 * (`base.qnode_dlist`): `CONTAINER_OF` maps each node to exactly one thread.
 */
module WaitQ {
  import opened DList
  import opened Common

  /** `_wait_q_t` with the list backend: the queue is the embedded `sys_dlist_t` `waitq`. */
  class DlistWaitQ {
    const waitq: DNode

    /** A queue around the list structure `list` embedded in the kernel object. */
    constructor (list: DNode)
      ensures waitq == list
    {
      waitq := list;
    }

    /** The pending threads, in queue order. */
    ghost function Pending(): seq<DNode>
      reads waitq
    {
      waitq.Nodes
    }

    ghost predicate Valid()
      reads waitq, waitq.Nodes
    {
      waitq.Valid()
    }

    /** `z_waitq_init`: the queue holds no threads. */
    method Init()
      modifies waitq
      ensures Valid() && Pending() == []
    {
      waitq.Init();
    }

    /** `z_waitq_head`: the foremost pending thread, or null when none is pending. */
    function Head(): (r: DNode?)
      reads waitq, waitq.Nodes
      requires Valid()
      ensures r == null <==> Pending() == []
      ensures r != null ==> r == Pending()[0] && forall i | 0 < i < |Pending()| :: Pending()[i] != r
    {
      RingDistinct(waitq);
      waitq.PeekHead()
    }

    /**
     * `_WAIT_Q_FOR_EACH`: visit the pending threads in queue order; the body
     * must not remove any, and here it only records the visited thread.
     */
    method ForEach() returns (visited: seq<DNode>)
      requires Valid()
      ensures visited == Pending()
      ensures forall a, b | 0 <= a < b < |visited| :: visited[a] != visited[b]
    {
      RingDistinct(waitq);
      visited := waitq.ForEachNode();
    }

    /**
     * `_WAIT_Q_FOR_EACH_SAFE`: visit the pending threads in queue order while
     * the body may detach the thread it visits; here it detaches exactly the
     * visited threads in `gone`.
     */
    method ForEachSafe(gone: set<DNode>) returns (visited: seq<DNode>)
      requires Valid()
      modifies waitq, set n | n in waitq.Nodes
      ensures Valid()
      ensures visited == old(Pending())
      ensures Pending() == Keep(old(Pending()), gone)
      ensures (forall n | n in visited :: n in gone) ==> Pending() == []
      ensures (forall n | n in visited :: n !in gone) ==> Pending() == visited
      ensures forall n | n in visited && n in gone :: !IsLinked(n) && n.prev == null
    {
      visited := waitq.ForEachNodeSafe(gone);
      if forall n | n in visited :: n in gone {
        KeepAll(visited, gone);
      }
      if forall n | n in visited :: n !in gone {
        KeepNone(visited, gone);
      }
    }

    /** The thread `z_waitq_head` reports is the first one `_WAIT_Q_FOR_EACH` visits. */
    method HeadIsFirstVisited() returns (head: DNode?, visited: seq<DNode>)
      requires Valid()
      ensures head == Head() && visited == Pending()
      ensures visited == [] ==> head == null
      ensures visited != [] ==> head == visited[0]
    {
      head := Head();
      visited := ForEach();
    }

    /** Right after `z_waitq_init`, the head is null and both walks visit nothing. */
    method InitLeavesNothingToVisit() returns (head: DNode?, walked: seq<DNode>, walkedSafe: seq<DNode>)
      modifies waitq, waitq.Nodes
      ensures Valid() && Pending() == []
      ensures head == null && walked == [] && walkedSafe == []
    {
      Init();
      head := Head();
      walked := ForEach();
      walkedSafe := ForEachSafe({});
    }
  }

  /** `lessthan` is a strict order: irreflexive and transitive. */
  ghost predicate StrictOrder<T(!new)>(lessthan: (T, T) -> bool)
  {
    && (forall a :: !lessthan(a, a))
    && (forall a, b, c | lessthan(a, b) && lessthan(b, c) :: lessthan(a, c))
  }

  /** No element of `items` is less than one before it. */
  ghost predicate Sorted<T>(items: seq<T>, lessthan: (T, T) -> bool)
  {
    forall i, j | 0 <= i < j < |items| :: !lessthan(items[j], items[i])
  }

  /**
   * `_wait_q_t` with the scalable backend: a red-black tree ordered by its
   * `lessthan_fn`. The tree is represented by its in-order contents `items`;
   * its nodes and balancing are not part of this model.
   */
  class RbWaitQ<T(!new)> {
    var lessthan: (T, T) -> bool
    var items: seq<T>

    ghost predicate Valid()
      reads this
    {
      StrictOrder(lessthan) && Sorted(items, lessthan)
    }

    /**
     * `z_waitq_init`: an empty tree whose ordering function is `order`, the
     * kernel's `z_priq_rb_lessthan` (its rules are not part of this model; it
     * is taken to be a strict order).
     */
    method Init(order: (T, T) -> bool)
      requires StrictOrder(order)
      modifies this
      ensures Valid() && lessthan == order && items == []
    {
      lessthan := order;
      items := [];
    }

    /** `z_waitq_head` (`rb_get_min`): a least pending thread, or none when the tree is empty. */
    function Head(): (r: Option<T>)
      reads this
      requires Valid()
      ensures r == None <==> items == []
      ensures r.Some? ==> r.value in items && forall x | x in items :: !lessthan(x, r.value)
      ensures r.Some? ==> r.value == items[0]
    {
      if items == [] then None else Some(items[0])
    }

    /** `_WAIT_Q_FOR_EACH` (`RB_FOR_EACH_CONTAINER`): the in-order walk, never from a greater thread to a lesser one. */
    method ForEach() returns (visited: seq<T>)
      requires Valid()
      ensures visited == items
      ensures forall i, j | 0 <= i < j < |visited| :: !lessthan(visited[j], visited[i])
    {
      visited := [];
      var k := 0;
      while k < |items|
        invariant k <= |items| && visited == items[..k]
      {
        visited := visited + [items[k]];
        k := k + 1;
      }
    }

    /** The thread `z_waitq_head` reports is the leftmost one, the first `_WAIT_Q_FOR_EACH` visits. */
    method HeadIsFirstVisited() returns (head: Option<T>, visited: seq<T>)
      requires Valid()
      ensures head == Head() && visited == items
      ensures visited == [] ==> head == None
      ensures visited != [] ==> head == Some(visited[0])
    {
      head := Head();
      visited := ForEach();
    }
  }
}

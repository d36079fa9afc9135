/** The linked lists of pthreads/queue_util.c: one node layout for the run queue and for every wait list. */
module ThreadList {
  import opened Prelude
  import opened Machine

  // mypthread_t, as far as the lists look into it.
  class UserThread {
    const id: Tid
    var state: TState
    var dep: Tid
    var resume: Resume

    constructor (id: Tid, state: TState, dep: Tid, resume: Resume)
      ensures this.id == id && this.state == state && this.dep == dep && this.resume == resume
    {
      this.id, this.state, this.dep, this.resume := id, state, dep, resume;
    }
  }

  // struct mypthread_queue_node
  class Node {
    var prev: Node?
    const th: UserThread
    var next: Node?

    constructor (th: UserThread)
      ensures prev == null && next == null && this.th == th
    {
      this.th := th;
      prev, next := null, null;
    }
  }

  ghost function Ids(ths: seq<UserThread>): (ids: seq<Tid>)
    ensures |ids| == |ths|
  {
    seq(|ths|, i requires 0 <= i < |ths| => ths[i].id)
  }

  /** The nodes follow one another by next, and by prev back to the first. */
  ghost predicate Chained(ns: seq<Node>)
    reads ns
  {
    && (forall i {:trigger ns[i].next} :: 0 <= i < |ns| - 1 ==> ns[i].next == ns[i + 1])
    && (ns != [] ==> ns[|ns| - 1].next == null)
    && (forall i {:trigger ns[i].prev} :: 1 <= i < |ns| ==> ns[i].prev == ns[i - 1])
  }

  /** With the pointers around index i redirected, the other nodes are chained. */
  lemma ChainedWithout(was: seq<Node>, i: nat)
    requires i < |was|
    requires i > 0 ==> was[i - 1].next == (if i + 1 < |was| then was[i + 1] else null)
    requires forall j {:trigger was[j].next} :: 0 <= j < |was| - 1 && j != i && j + 1 != i ==> was[j].next == was[j + 1]
    requires i != |was| - 1 ==> was[|was| - 1].next == null
    requires 0 < i < |was| - 1 ==> was[i + 1].prev == was[i - 1]
    requires forall j {:trigger was[j].prev} :: 1 <= j < |was| && j != i && j != i + 1 ==> was[j].prev == was[j - 1]
    ensures Chained(Without(was, i))
  {
    var rest := Without(was, i);
    assert forall j :: 0 <= j < |rest| ==> rest[j] == was[if j < i then j else j + 1];
  }

  /** A fresh node behind the last one of a chain. */
  lemma ChainedWith(was: seq<Node>, temp: Node)
    requires was != [] && temp !in was && temp.next == null
    requires temp.prev == was[|was| - 1] && was[|was| - 1].next == temp
    requires forall i {:trigger was[i].next} :: 0 <= i < |was| - 1 ==> was[i].next == was[i + 1]
    requires forall i {:trigger was[i].prev} :: 1 <= i < |was| ==> was[i].prev == was[i - 1]
    ensures Chained(was + [temp])
  {
  }

  /**
   A head and a tail pointer. nodes are the nodes reached from head, in order; Repr also holds the
   nodes that were taken out: tail, and prev of the first node, may still point at those. lost is history:
   the threads whose node was linked behind such a tail.
  */
  class ThreadQueue {
    var head: Node?
    var tail: Node?
    ghost var nodes: seq<Node>
    ghost var Repr: set<Node>
    ghost var lost: set<Tid>

    ghost predicate Valid()
      reads this, Repr
    {
      && Distinct(nodes)
      && (forall n :: n in nodes ==> n in Repr)
      && head == (if nodes == [] then null else nodes[0])
      && Chained(nodes)
      && (nodes != [] && nodes[0].prev != null ==> nodes[0].prev in Repr && nodes[0].prev !in nodes)
      && (nodes != [] ==> tail != null && tail in Repr && (tail in nodes ==> tail == nodes[|nodes| - 1]))
    }

    /** The list is empty or its tail pointer is at its last node. */
    ghost predicate Attached()
      reads this
    {
      nodes != [] ==> tail == nodes[|nodes| - 1]
    }

    ghost function Contents(): (ths: seq<UserThread>)
      reads this
      ensures |ths| == |nodes|
    {
      seq(|nodes|, i requires 0 <= i < |nodes| reads this => nodes[i].th)
    }

    /** The queue as the transition system sees it. */
    ghost function AsQueue(): RunQueue
      reads this
    {
      RunQueue(Ids(Contents()), Attached())
    }

    constructor ()
      ensures Valid() && Contents() == [] && Attached() && fresh(Repr) && lost == {}
    {
      head, tail := null, null;
      nodes, Repr, lost := [], {}, {};
    }

    /** The pointer updates of ll_add. */
    method Link(temp: Node)
      requires Valid() && temp !in Repr && temp.next == null && temp.prev == null
      modifies this, Repr, temp
      ensures Valid() && Repr == old(Repr) + {temp} && Attached() == old(Attached())
      ensures nodes == if old(Attached()) then old(nodes) + [temp] else old(nodes)
      ensures lost == if old(Attached()) then old(lost) else old(lost) + {temp.th.id}
    {
      if head == null {
        head := temp;
        tail := temp;
        nodes := [temp];
      } else {
        assert forall i :: 0 <= i < |nodes| - 1 ==> nodes[i] != tail;
        tail.next := temp;
        temp.prev := tail;
        if tail == nodes[|nodes| - 1] {
          ChainedWith(nodes, temp);
          nodes := nodes + [temp];
        } else {
          lost := lost + {temp.th.id};
          assert Chained(nodes);
        }
        tail := temp;
      }
      Repr := Repr + {temp};
      hide Chained;
    }

    /** ll_add: appends, if the tail is where it should be; a list that has lost its tail does not change. */
    method Add(data: UserThread)
      requires Valid()
      modifies this, Repr
      ensures Valid() && fresh(Repr - old(Repr))
      ensures Attached() == old(Attached())
      ensures Contents() == (if old(Attached()) then old(Contents()) + [data] else old(Contents()))
      ensures AsQueue() == Append(old(AsQueue()), data.id)
      ensures lost == if old(Attached()) then old(lost) else old(lost) + {data.id}
    {
      hide Chained, Distinct;
      var temp := new Node(data);
      Link(temp);
      assert Contents() == (if old(Attached()) then old(Contents()) + [data] else old(Contents()));
    }

    /** ll_free_one: drops the first node and wakes its thread; the tail and prev pointers stay as they are. */
    method FreeOne()
      requires Valid()
      modifies this, Contents()`state
      ensures Valid() && Repr == old(Repr) && lost == old(lost)
      ensures Contents() == (if old(nodes) == [] then [] else old(Contents())[1..])
      ensures old(nodes) != [] ==> old(Contents()[0]).state == Active
      ensures forall th :: th in old(Contents()) ==> th == old(Contents())[0] || th.state == old(th.state)
      ensures old(Attached()) ==> Attached()
    {
      if head == null {
        return;
      }
      var del := head;
      head := head.next;
      assert old(Contents())[0] == del.th;
      del.th.state := Active;
      nodes := nodes[1..];
    }

    /** ll_free: wakes every thread and empties the list. */
    method Free()
      requires Valid()
      modifies this, Contents()`state
      ensures Valid() && Repr == old(Repr) && lost == old(lost) && Contents() == [] && Attached()
      ensures forall th :: th in old(Contents()) ==> th.state == Active
    {
      if head == null {
        return;
      }
      var temp := head;
      ghost var i := 0;
      while temp != null
        invariant 0 <= i <= |nodes| && temp == (if i == |nodes| then null else nodes[i])
        invariant Valid() && nodes == old(nodes) && Repr == old(Repr) && lost == old(lost)
        invariant forall j :: 0 <= j < i ==> nodes[j].th.state == Active
        decreases |nodes| - i
      {
        var del := temp;
        temp := temp.next;
        assert old(Contents())[i] == del.th;
        del.th.state := Active;
        i := i + 1;
      }
      forall th | th in old(Contents())
        ensures th.state == Active
      {
        var j :| 0 <= j < |nodes| && old(Contents())[j] == th;
      }
      head, tail := null, null;
      nodes := [];
    }

    /** mypthread_get: the first thread with the id, if there is one. */
    method Get(id: Tid) returns (th: UserThread?)
      requires Valid()
      ensures th == null ==> forall x :: x in Contents() ==> x.id != id
      ensures th != null ==> th in Contents() && th.id == id
    {
      var temp := head;
      ghost var i := 0;
      while temp != null
        invariant 0 <= i <= |nodes| && temp == (if i == |nodes| then null else nodes[i])
        invariant forall j :: 0 <= j < i ==> nodes[j].th.id != id
        decreases |nodes| - i
      {
        assert Contents()[i] == temp.th;
        if temp.th.id == id {
          return temp.th;
        }
        temp := temp.next;
        i := i + 1;
      }
      return null;
    }

    /** mypthread_update_waiting_threads: wakes every listed thread whose dependent_th is id. */
    method UpdateWaiting(id: Tid)
      requires Valid()
      modifies Contents()`state
      ensures Valid() && unchanged(this) && unchanged(Repr)
      ensures forall th :: th in Contents() ==>
                th.state == (if th.dep == id then Active else old(th.state))
    {
      var temp := head;
      ghost var i := 0;
      while temp != null
        invariant 0 <= i <= |nodes| && temp == (if i == |nodes| then null else nodes[i])
        invariant unchanged(this) && unchanged(Repr)
        invariant forall th :: th in Contents() ==>
                    th.state == old(th.state) || (th.dep == id && th.state == Active)
        invariant forall j :: 0 <= j < i && nodes[j].th.dep == id ==> nodes[j].th.state == Active
        decreases |nodes| - i
      {
        assert Contents()[i] == temp.th;
        if temp.th.dep == id {
          temp.th.state := Active;
        }
        temp := temp.next;
        i := i + 1;
      }
      forall th | th in Contents() && th.dep == id
        ensures th.state == Active
      {
        var j :| 0 <= j < |nodes| && Contents()[j] == th;
      }
    }

    /** The pointer updates of mypthread_dequeue_first_active around the node at index i. */
    method Redirect(del: Node, movesTail: bool, ghost i: nat)
      requires Valid() && i < |nodes| && del == nodes[i]
      modifies this`head, this`tail, Repr
      ensures old(del.next) == (if i + 1 < |nodes| then nodes[i + 1] else null)
      ensures i > 0 ==> old(del.prev) == nodes[i - 1]
      ensures head == (if i > 0 then nodes[0] else old(del.next))
      ensures tail == (if movesTail && del == old(tail) && old(del.prev) != null then old(del.prev) else old(tail))
      ensures forall j :: 0 <= j < |nodes| ==>
          nodes[j].next == (if j + 1 == i then old(del.next) else old(nodes[j].next))
      ensures forall j :: 0 <= j < |nodes| ==>
          nodes[j].prev == (if j == i + 1 then old(del.prev) else old(nodes[j].prev))
    {
      assert del.next == (if i + 1 < |nodes| then nodes[i + 1] else null);
      assert i > 0 ==> del.prev == nodes[i - 1];
      if head == del {
        head := del.next;
      }
      if del.next != null {
        del.next.prev := del.prev;
      }
      if del.prev != null {
        del.prev.next := del.next;
      }
      if movesTail && del == tail && del.prev != null {
        tail := del.prev;
      }
    }

    /** Redirect leaves the nodes other than del chained, behind the right head. */
    method Unlink(del: Node, movesTail: bool, ghost i: nat)
      requires Valid() && i < |nodes| && del == nodes[i]
      modifies this`head, this`tail, Repr
      ensures Chained(Without(nodes, i))
      ensures head == (if i > 0 then nodes[0] else if |nodes| > 1 then nodes[1] else null)
      ensures i > 0 ==> nodes[0].prev == old(nodes[0].prev)
      ensures i == 0 && |nodes| > 1 ==> nodes[1].prev == old(nodes[0].prev)
      ensures tail == (if movesTail && del == old(tail) && old(del.prev) != null then old(del.prev) else old(tail))
      ensures i > 0 ==> old(del.prev) == nodes[i - 1]
    {
      Redirect(del, movesTail, i);
      ChainedWithout(nodes, i);
    }

    /** The search of mypthread_dequeue_first_active. */
    method FindActive() returns (del: Node?, ghost i: nat)
      requires Valid()
      ensures i <= |nodes| && del == (if i == |nodes| then null else nodes[i])
      ensures forall j :: 0 <= j < i ==> nodes[j].th.state != Active
      ensures del != null ==> del.th.state == Active
    {
      del := head;
      i := 0;
      while del != null && del.th.state != Active
        invariant 0 <= i <= |nodes| && del == (if i == |nodes| then null else nodes[i])
        invariant forall j :: 0 <= j < i ==> nodes[j].th.state != Active
        decreases |nodes| - i
      {
        del := del.next;
        i := i + 1;
      }
    }

    method TakeOut(del: Node, movesTail: bool, ghost i: nat)
      requires Valid() && i < |nodes| && del == nodes[i]
      modifies this, Repr
      ensures Valid() && Repr == old(Repr) && lost == old(lost) && nodes == Without(old(nodes), i)
      ensures Attached() == (nodes == [] || (old(Attached()) && (movesTail || i != |old(nodes)| - 1)))
    {
      Unlink(del, movesTail, i);
      WithoutDistinct(nodes, i);
      nodes := Without(nodes, i);
      hide Chained, Distinct;
    }

    /**
     mypthread_dequeue_first_active. The shipped code never moves the tail; with movesTail it does, when
     the node it takes out is the last but not the first. i is the index of that node.
    */
    method DequeueFirstActive(movesTail: bool) returns (th: UserThread?, ghost i: nat)
      requires Valid()
      modifies this, Repr
      ensures Valid() && Repr == old(Repr) && lost == old(lost)
      ensures th == null ==> (forall x :: x in Contents() ==> x.state != Active) && unchanged(this) && unchanged(Repr)
      ensures th != null ==>
                && i < |old(nodes)| && th == old(Contents())[i] && th.state == Active
                && (forall j :: 0 <= j < i ==> old(Contents())[j].state != Active)
                && Contents() == Without(old(Contents()), i)
                && AsQueue() == Remove(Config(UlOnly, movesTail, false), old(AsQueue()), i)
    {
      var del;
      del, i := FindActive();
      if del == null {
        return null, i;
      }
      TakeOut(del, movesTail, i);
      th := del.th;
      hide Chained, Distinct;
      assert forall j :: 0 <= j < |nodes| ==> nodes[j] == old(nodes)[if j < i then j else j + 1];
      assert AsQueue().items == Without(old(AsQueue()).items, i);
    }
  }

  /** The entry that DequeueFirstActive finds is the one the transition system dispatches. */
  lemma FoundIsFirstActive(threads: map<Tid, Thread>, items: seq<Tid>, i: nat)
    requires i <= |items| && forall t :: t in items ==> t in threads
    requires forall j :: 0 <= j < i ==> threads[items[j]].state != Active
    requires i < |items| ==> threads[items[i]].state == Active
    ensures FirstActive(threads, items) == i
  {
    FirstActiveIs(threads, items);
  }
}

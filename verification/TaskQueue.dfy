/** The linked queue of tasks of server/threadpool.c. */
module TaskQueue {
  import opened Prelude

  // struct task
  class Task {
    const job: nat
    var next: Task?

    constructor (job: nat)
      ensures this.job == job
    {
      this.job := job;
      next := null;
    }
  }

  // The queue fields of _threadpool: taskQ_front, taskQ_rear, no_of_tasks_in_Q. tasks is the chain from front to rear.
  class Queue {
    var front: Task?
    var rear: Task?
    var count: int
    ghost var tasks: seq<Task>

    ghost predicate Valid()
      reads this, tasks
    {
      && count == |tasks|
      && Distinct(tasks)
      && (if tasks == [] then front == null && rear == null
          else front == tasks[0] && rear == tasks[|tasks| - 1] && rear.next == null)
      && forall i {:trigger tasks[i].next} :: 0 <= i < |tasks| - 1 ==> tasks[i].next == tasks[i + 1]
    }

    ghost function Jobs(): (jobs: seq<nat>)
      reads this
    {
      seq(|tasks|, i requires 0 <= i < |tasks| reads this => tasks[i].job)
    }

    constructor ()
      ensures Valid() && Jobs() == [] && tasks == []
    {
      front, rear, count := null, null, 0;
      tasks := [];
    }

    /** push_task */
    method PushTask(mytask: Task)
      requires Valid() && mytask !in tasks
      modifies this, mytask, rear
      ensures Valid() && tasks == old(tasks) + [mytask] && Jobs() == old(Jobs()) + [mytask.job]
    {
      if count == 0 {
        front := mytask;
        rear := mytask;
        rear.next := null;
      } else {
        rear.next := mytask;
        mytask.next := null;
        rear := mytask;
      }
      tasks := tasks + [mytask];
      count := count + 1;
    }

    /** The part of threadpool_scheduler that takes the first task. */
    method Take() returns (cur: Task)
      requires Valid() && count != 0
      modifies this
      ensures Valid() && cur == old(tasks)[0] && tasks == old(tasks)[1..] && Jobs() == old(Jobs())[1..]
    {
      cur := front;
      count := count - 1;
      if count == 0 {
        front := null;
        rear := null;
      } else {
        front := cur.next;
      }
      tasks := tasks[1..];
    }
  }
}

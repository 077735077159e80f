/** The heap-linked list of queued work items, updated in place, read as a sequence. */
module WorkList {
  import opened Wrappers

  class WorkItem<T> {
    var jobdata: T
    var next: WorkItem?<T>

    constructor (jobdata: T)
      ensures this.jobdata == jobdata && next == null
    {
      this.jobdata := jobdata;
      this.next := null;
    }
  }

  /** The globals the list mutex protects: the list head, and the flag the worker raises
      before it takes an item off the list. `items` is the chain of work items from the head. */
  class WorkQueue<T> {
    var head: WorkItem?<T>
    var working: bool
    ghost var items: seq<WorkItem<T>>

    ghost predicate Valid()
      reads this, items
    {
      && head == (if items == [] then null else items[0])
      && (forall i, j :: 0 <= i && j == i + 1 < |items| ==> items[i].next == items[j])
      && (items != [] ==> items[|items| - 1].next == null)
      && (forall i, j :: 0 <= i < j < |items| ==> items[i] != items[j])
    }

    /** The queued jobs, first to last. */
    ghost function Contents(): (s: seq<T>)
      reads this, items
      ensures |s| == |items|
    {
      seq(|items|, i requires 0 <= i < |items| reads this, items => items[i].jobdata)
    }

    constructor ()
      ensures Valid() && Contents() == [] && !working
    {
      head := null;
      working := false;
      items := [];
    }

    /** The critical section of _workitem_enqueue: walk to the tail and link a new item. */
    method Enqueue(job: T)
      requires Valid()
      modifies this`head, this`items, items
      ensures Valid()
      ensures Contents() == old(Contents()) + [job]
      ensures |items| == |old(items)| + 1 && items[..|old(items)|] == old(items)
      ensures fresh(items[|old(items)|])
      ensures working == old(working)
    {
      var item := new WorkItem(job);
      if head == null {
        head := item;
      } else {
        var lastitem: WorkItem<T> := head;
        ghost var k := 0;
        while lastitem.next != null
          invariant 0 <= k < |items| && lastitem == items[k]
          invariant k + 1 < |items| ==> lastitem.next == items[k + 1]
          invariant k + 1 == |items| ==> lastitem.next == null
          decreases |items| - k
        {
          lastitem := lastitem.next;
          k := k + 1;
        }
        lastitem.next := item;
      }
      items := items + [item];
    }

    /** The critical section of _workitem_dequeue: the flag goes up before the head moves. */
    method Dequeue() returns (job: Option<T>)
      requires Valid()
      modifies this
      ensures Valid()
      ensures old(Contents()) == [] ==>
                job == None && Contents() == [] && working == old(working)
      ensures old(Contents()) != [] ==>
                && job == Some(old(Contents())[0])
                && Contents() == old(Contents())[1..]
                && items == old(items)[1..]
                && working
    {
      job := None;
      if head != null {
        var item := head;
        working := true;
        head := item.next;
        job := Some(item.jobdata);
        items := items[1..];
      }
    }

    /** The two reads of jobs_running. */
    method JobsRunning() returns (running: bool)
      requires Valid()
      ensures running <==> Contents() != [] || working
    {
      running := head != null || working;
    }
  }
}

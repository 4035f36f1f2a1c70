/** The linked-list FIFO of src/models/queue.ts. `Contents` is the sequence it stands for and
    `Spine` the chain of nodes behind it; a dequeue leaves `last` stale on purpose, as the
    source does, so `last` is only meaningful while the queue is non-empty. */
module LinkedQueue {
  import opened Wrappers

  datatype QueueError = LastElementInBadState

  class QueueNode<T> {
    const value: T
    var next: QueueNode?<T>

    constructor (value: T)
      ensures this.value == value && next == null
    {
      this.value := value;
      next := null;
    }
  }

  class Queue<T> {
    var head: QueueNode?<T>
    var last: QueueNode?<T>
    var length: nat
    ghost var Contents: seq<T>
    ghost var Spine: seq<QueueNode<T>>

    ghost predicate Valid()
      reads this, Spine
    {
      && length == |Contents| == |Spine|
      && (forall i :: 0 <= i < |Spine| ==> Spine[i].value == Contents[i])
      && (forall i, j :: 0 <= i < j < |Spine| ==> Spine[i] != Spine[j])
      && (forall i :: 0 <= i < |Spine| - 1 ==> Spine[i].next == Spine[i+1])
      && (if Spine == [] then head == null
          else head == Spine[0] && last == Spine[|Spine| - 1] && Spine[|Spine| - 1].next == null)
    }

    constructor ()
      ensures Valid() && Contents == [] && Spine == []
    {
      head, last, length := null, null, 0;
      Contents, Spine := [], [];
    }

    /** Appends one item. The "bad state" error of the source is never returned. */
    method Enqueue(value: T) returns (r: Result<(), QueueError>)
      requires Valid()
      modifies this, Spine
      ensures r.Ok?
      ensures Valid() && Contents == old(Contents) + [value]
      ensures |Spine| == |old(Spine)| + 1 && old(Spine) == Spine[..|old(Spine)|]
      ensures fresh(Spine[|old(Spine)|])
    {
      var node := new QueueNode(value);
      if head != null {
        if last == null || last.next != null {
          return Err(LastElementInBadState);
        }
        last.next := node;
      } else {
        head := node;
      }
      last := node;
      length := length + 1;
      Contents, Spine := Contents + [value], Spine + [node];
      r := Ok(());
    }

    /** Removes and returns the oldest item, or nothing from an empty queue. */
    method Dequeue() returns (r: Option<T>)
      requires Valid()
      modifies this
      ensures Valid()
      ensures old(Contents) == [] ==> r == None && Contents == [] && Spine == old(Spine)
      ensures old(Contents) != [] ==>
        r == Some(old(Contents)[0]) && Contents == old(Contents)[1..] && Spine == old(Spine)[1..]
    {
      if head == null {
        return None;
      }
      r := Some(head.value);
      head := head.next;
      length := length - 1;
      Contents, Spine := Contents[1..], Spine[1..];
    }

    method Peek() returns (r: Option<T>)
      requires Valid()
      ensures r == if Contents == [] then None else Some(Contents[0])
    {
      r := if head == null then None else Some(head.value);
    }

    method Size() returns (n: nat)
      requires Valid()
      ensures n == |Contents|
    {
      n := length;
    }
  }
}

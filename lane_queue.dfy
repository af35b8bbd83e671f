/**
 * The per-lane waiting line: a singly linked FIFO of vehicle records with
 * front and rear pointers and a size counter. The ghost sequence Contents
 * is the line as the program sees it, front first; Nodes is the chain of
 * cells that holds it.
 */
module LaneQueue {
  import opened VehicleModel

  /** One cell of the chain: a copy of a vehicle record and the next cell. */
  class Node {
    var vehicle: VehicleSnapshot
    var next: Node?

    constructor (vehicle: VehicleSnapshot)
      ensures this.vehicle == vehicle && next == null
    {
      this.vehicle := vehicle;
      next := null;
    }
  }

  class Queue {
    var front: Node?
    var rear: Node?
    var size: int
    ghost var Contents: seq<VehicleSnapshot>
    ghost var Nodes: seq<Node>
    ghost var Repr: set<object>

    /**
     * The chain runs from front to rear through distinct cells, each
     * holding the matching record, the last one ending the chain, and the
     * counter equals the number of cells.
     */
    ghost predicate Valid()
      reads this, Repr
    {
      && this in Repr
      && (forall i :: 0 <= i < |Nodes| ==> Nodes[i] in Repr)
      && size == |Nodes| == |Contents|
      && (forall i :: 0 <= i < |Nodes| ==> Nodes[i].vehicle == Contents[i])
      && (forall i, j :: 0 <= i < j < |Nodes| ==> Nodes[i] != Nodes[j])
      && (forall i :: 0 <= i < |Nodes| - 1 ==> Nodes[i].next == Nodes[i + 1])
      && (Nodes == [] ==> front == null && rear == null)
      && (Nodes != [] ==> front == Nodes[0] && rear == Nodes[|Nodes| - 1] && rear.next == null)
    }

    constructor ()
      ensures Valid() && Contents == [] && fresh(Repr)
    {
      front, rear, size := null, null, 0;
      Contents, Nodes, Repr := [], [], {this};
    }

    /** Reset to the empty line. The cells it held are not released here. */
    method InitQueue()
      modifies this
      ensures Valid() && Contents == [] && size == 0
      ensures Repr == {this}
    {
      front, rear := null, null;
      size := 0;
      Contents, Nodes, Repr := [], [], {this};
    }

    /** Append a copy of the record at the rear. */
    method Enqueue(vehicle: VehicleSnapshot)
      requires Valid()
      modifies Repr
      ensures Valid()
      ensures Contents == old(Contents) + [vehicle]
      ensures size == old(size) + 1
      ensures fresh(Repr - old(Repr))
    {
      var newNode := new Node(vehicle);
      if rear == null {
        front, rear := newNode, newNode;
      } else {
        rear.next := newNode;
        rear := newNode;
      }
      size := size + 1;
      Contents := Contents + [vehicle];
      Nodes := Nodes + [newNode];
      Repr := Repr + {newNode};
    }

    /**
     * Remove and return the record at the front. On an empty line nothing
     * changes and the all-zero record comes back.
     */
    method Dequeue() returns (vehicle: VehicleSnapshot)
      requires Valid()
      modifies this
      ensures Valid() && Repr == old(Repr)
      ensures old(Contents) == [] ==> vehicle == ZeroVehicle && Contents == [] && size == old(size)
      ensures old(Contents) != [] ==>
        vehicle == old(Contents)[0] && Contents == old(Contents)[1..] && size == old(size) - 1
    {
      if front == null {
        vehicle := ZeroVehicle;
        return;
      }
      var temp := front;
      vehicle := temp.vehicle;
      front := front.next;
      if front == null {
        rear := null;
      }
      size := size - 1;
      Contents := Contents[1..];
      Nodes := Nodes[1..];
    }

    /** The line is empty exactly when there is no front cell. */
    function IsQueueEmpty(): (empty: bool)
      reads this, Repr
      requires Valid()
      ensures empty <==> Contents == []
      ensures empty <==> size == 0
      ensures empty <==> rear == null
    {
      front == null
    }
  }
}

/** The doubly linked list (client/utils.c:62-134), with the links it leaves stale. */
module DoubleList {

  /** The links of a new node hold whatever was there. */
  class BiNode<T> {
    var el: T
    var prev: BiNode?<T>
    var next: BiNode?<T>

    constructor (el: T)
      ensures this.el == el
    {
      this.el := el;
    }
  }

  class DoubleLinkedList<T> {
    var head: BiNode?<T>
    var tail: BiNode?<T>
    var nodesCount: nat
    ghost var nodes: seq<BiNode<T>>

    /** `nodes` are the list's nodes from head to tail: every hop along `next` has the matching `prev`,
        and nodes_count - 1 hops lead from head to tail. What the tail's own `next` holds is not said:
        removing the old tail leaves it behind there. */
    ghost predicate Valid()
      reads this, nodes
    {
      && nodesCount == |nodes|
      && (|nodes| == 0 ==> head == null && tail == null)
      && (|nodes| > 0 ==> head == nodes[0] && tail == nodes[|nodes| - 1] && nodes[0].prev == null)
      && (forall i, j :: 0 <= i < j < |nodes| ==> nodes[i] != nodes[j])
      && (forall i :: 0 <= i < |nodes| - 1 ==> nodes[i].next == nodes[i + 1])
      && (forall i :: 0 < i < |nodes| ==> nodes[i].prev == nodes[i - 1])
    }

    /** The tail's `next` is NULL, as a walk that stops at NULL needs. */
    ghost predicate Terminated()
      reads this, nodes
      requires Valid()
    {
      |nodes| > 0 ==> tail.next == null
    }

    ghost function Contents(): seq<T>
      reads this, nodes
    {
      seq(|nodes|, i requires 0 <= i < |nodes| reads this, nodes => nodes[i].el)
    }

    constructor (node: BiNode?<T>)
      modifies node
      ensures Valid() && Terminated() && nodes == if node == null then [] else [node]
      ensures node != null ==> node.el == old(node.el)
    {
      head, tail := node, node;
      nodesCount := if node == null then 0 else 1;
      nodes := if node == null then [] else [node];
      new;
      if node != null {
        node.next := null;
        node.prev := null;
      }
    }

    /** add_to_double_linked_list, on a list that is not empty. */
    method AddRear(node: BiNode?<T>)
      requires Valid() && (node != null ==> |nodes| > 0 && node !in nodes)
      modifies this, tail, node
      ensures Valid()
      ensures node == null ==> nodes == old(nodes) && (Terminated() <==> old(Terminated()))
      ensures node != null ==> nodes == old(nodes) + [node] && node.el == old(node.el) && Terminated()
      ensures forall n :: n in old(nodes) ==> n.el == old(n.el)
    {
      if node == null {
        return;
      }
      var prevTail := tail;
      prevTail.next := node;
      tail := node;
      tail.prev := prevTail;
      tail.next := null;
      nodesCount := nodesCount + 1;
      nodes := nodes + [node];
    }

    /** add_to_double_linked_list_front, on a list that is not empty. */
    method AddFront(node: BiNode?<T>)
      requires Valid() && (node != null ==> |nodes| > 0 && node !in nodes)
      modifies this, head, node
      ensures Valid()
      ensures node == null ==> nodes == old(nodes)
      ensures node != null ==> nodes == [node] + old(nodes) && node.el == old(node.el)
      ensures Terminated() <==> old(Terminated())
      ensures forall n :: n in old(nodes) ==> n.el == old(n.el)
    {
      if node == null {
        return;
      }
      var prevHead := head;
      prevHead.prev := node;
      head := node;
      head.next := prevHead;
      head.prev := null;
      nodesCount := nodesCount + 1;
      nodes := [node] + nodes;
    }

    /** remove_from_double_linked_list_rear, on a list that is not empty. With two or more nodes the new
        tail still points to the node taken out, so the list is no longer terminated. The only node's
        removal leaves `head` pointing to it beside a NULL tail and a count of zero: not a list. */
    method RemoveRear() returns (node: BiNode<T>)
      requires Valid() && |nodes| >= 1
      modifies this
      ensures old(nodes) == nodes + [node] && nodesCount == |nodes|
      ensures |nodes| > 0 ==> Valid() && tail.next == node && !Terminated()
      ensures |nodes| == 0 ==> tail == null && head == node && !Valid()
    {
      node := tail;
      tail := tail.prev;
      nodesCount := nodesCount - 1;
      nodes := nodes[..|nodes| - 1];
    }

    /** One operation with a node made for it. */
    method Do(op: Op<T>)
      requires Valid() && Allowed(Contents(), op)
      modifies this, nodes
      ensures Valid() && Contents() == Effect(old(Contents()), op)
      ensures Terminated() <==> op.Rear? || (op.Front? && old(Terminated()))
      ensures forall k :: 0 <= k < |nodes| ==> nodes[k] in old(nodes) || fresh(nodes[k])
    {
      match op {
        case Rear(el) =>
          var n := new BiNode<T>(el);
          AddRear(n);
        case Front(el) =>
          var n := new BiNode<T>(el);
          AddFront(n);
        case DropRear =>
          var removed := RemoveRear();
      }
    }

    /** From the head along `next`, nodes_count - 1 hops: the elements in order, ending at the tail. */
    method Forward() returns (els: seq<T>, last: BiNode?<T>)
      requires Valid()
      ensures els == Contents() && last == tail
    {
      els, last := [], null;
      var node := head;
      for k := 0 to nodesCount
        invariant els == Contents()[..k]
        invariant k < nodesCount ==> node == nodes[k]
        invariant k > 0 ==> last == nodes[k - 1]
        invariant k == 0 ==> last == null
      {
        els := els + [node.el];
        last := node;
        node := node.next;
      }
    }

    /** From the tail along `prev` to NULL: the elements in reverse, ending at the head. */
    method Backward() returns (els: seq<T>)
      requires Valid()
      ensures |els| == |nodes| && forall k :: 0 <= k < |els| ==> els[k] == Contents()[|nodes| - 1 - k]
    {
      els := [];
      var node := tail;
      ghost var k := |nodes|;
      while node != null
        invariant 0 <= k <= |nodes| && |els| == |nodes| - k
        invariant node == if k == 0 then null else nodes[k - 1]
        invariant forall i :: 0 <= i < |els| ==> els[i] == Contents()[|nodes| - 1 - i]
        decreases k
      {
        els := els + [node.el];
        node := node.prev;
        k := k - 1;
      }
    }

    /** The walk of free_double_linked_list, along `next` to NULL: on a terminated list it visits exactly
        the list's nodes. */
    method VisitToNull() returns (visited: seq<BiNode<T>>)
      requires Valid() && Terminated()
      ensures visited == nodes
    {
      visited := [];
      var node := head;
      while node != null
        invariant |visited| <= |nodes| && visited == nodes[..|visited|]
        invariant node == if |visited| < |nodes| then nodes[|visited|] else null
        decreases |nodes| - |visited|
      {
        visited := visited + [node];
        node := node.next;
      }
    }
  }

  /** A deque operation and its effect on the elements. */
  datatype Op<T> = Rear(el: T) | Front(el: T) | DropRear

  /** Whether the source does the evident job: adding to a list that is not empty, removing from one of
      two or more. */
  predicate Allowed<T>(s: seq<T>, op: Op<T>) { if op.DropRear? then |s| >= 2 else |s| >= 1 }

  function Effect<T>(s: seq<T>, op: Op<T>): seq<T>
    requires Allowed(s, op)
  {
    match op
    case Rear(el) => s + [el]
    case Front(el) => [el] + s
    case DropRear => s[..|s| - 1]
  }

  predicate AllAllowed<T>(s: seq<T>, ops: seq<Op<T>>)
    decreases |ops|
  {
    |ops| == 0 || (Allowed(s, ops[0]) && AllAllowed(Effect(s, ops[0]), ops[1..]))
  }

  function Effects<T>(s: seq<T>, ops: seq<Op<T>>): seq<T>
    requires AllAllowed(s, ops)
    decreases |ops|
  {
    if |ops| == 0 then s else Effects(Effect(s, ops[0]), ops[1..])
  }

  /** Whether no removal has come since the last addition at the rear. */
  predicate EndsInNull<T>(ops: seq<Op<T>>)
    decreases |ops|
  {
    |ops| == 0 || var op := ops[|ops| - 1]; op.Rear? || (op.Front? && EndsInNull(ops[..|ops| - 1]))
  }

  lemma {:induction false} EffectsThen<T>(s: seq<T>, ops: seq<Op<T>>, k: nat)
    requires AllAllowed(s, ops) && k <= |ops|
    ensures AllAllowed(s, ops[..k]) && AllAllowed(Effects(s, ops[..k]), ops[k..])
    ensures Effects(Effects(s, ops[..k]), ops[k..]) == Effects(s, ops)
    decreases k
  {
    if k == 0 {
      assert ops[0..] == ops;
    } else {
      EffectsThen(Effect(s, ops[0]), ops[1..], k - 1);
      assert ops[..k][1..] == ops[1..][..k - 1] && ops[1..][k - 1..] == ops[k..];
    }
  }

  lemma {:induction false} OneMore<T>(s: seq<T>, ops: seq<Op<T>>, k: nat)
    requires AllAllowed(s, ops) && k < |ops|
    ensures AllAllowed(s, ops[..k]) && AllAllowed(s, ops[..k + 1])
    ensures Allowed(Effects(s, ops[..k]), ops[k])
    ensures Effects(s, ops[..k + 1]) == Effect(Effects(s, ops[..k]), ops[k])
  {
    EffectsThen(s, ops, k);
    EffectsThen(s, ops, k + 1);
    EffectsThen(s, ops[..k + 1], k);
    assert ops[..k + 1][..k] == ops[..k] && ops[..k + 1][k..] == [ops[k]];
  }

  /** Any sequence of such operations leaves the contents a deque would have, and a walk along `next`
      ends at the tail exactly if no removal has come since the last addition at the rear. */
  method Perform<T>(first: T, ops: seq<Op<T>>) returns (list: DoubleLinkedList<T>)
    requires AllAllowed([first], ops)
    ensures list.Valid() && list.Contents() == Effects([first], ops)
    ensures list.Terminated() <==> EndsInNull(ops)
  {
    var node := new BiNode<T>(first);
    list := new DoubleLinkedList<T>(node);
    assert list.Contents() == [first];
    for i := 0 to |ops|
      invariant list.Valid() && fresh(list)
      invariant forall k :: 0 <= k < |list.nodes| ==> fresh(list.nodes[k])
      invariant AllAllowed([first], ops[..i]) && list.Contents() == Effects([first], ops[..i])
      invariant list.Terminated() <==> EndsInNull(ops[..i])
    {
      OneMore([first], ops, i);
      assert ops[..i + 1][..i] == ops[..i];
      list.Do(ops[i]);
    }
    assert ops[..|ops|] == ops;
  }
}

/**
 The intrusive doubly linked list of `list.h`: a head that links to itself backwards, a null-terminated
 chain forwards, and a pointer to the last node.
 */
module RateList {

  /** A `rate_t`: one bandwidth measurement with its list links. */
  class Node {
    var prev: Node?
    var next: Node?
    const bw: real

    constructor (bw: real)
      ensures this.bw == bw && prev == null && next == null
    {
      this.bw := bw;
      prev, next := null, null;
    }
  }

  /** Each node of the chain points forwards to the next one and back to the one before. */
  ghost predicate Linked(chain: seq<Node>)
    reads chain
  {
    && (forall i {:trigger chain[i].next} :: 0 <= i < |chain| - 1 ==> chain[i].next == chain[i + 1])
    && (forall i {:trigger chain[i].prev} :: 0 < i < |chain| ==> chain[i].prev == chain[i - 1])
  }

  ghost predicate Distinct(chain: seq<Node>) {
    forall i, j :: 0 <= i < j < |chain| ==> chain[i] != chain[j]
  }

  class List {
    const head: Node
    var lastHead: Node
    /** The head followed by the entries in order. */
    ghost var chain: seq<Node>

    ghost predicate Valid()
      reads this, chain
    {
      && |chain| >= 1 && chain[0] == head && head.prev == head
      && lastHead == chain[|chain| - 1] && lastHead.next == null
      && Distinct(chain) && Linked(chain)
    }

    /** The measurements in the order of insertion. */
    ghost function Bws(): seq<real>
      reads this
    {
      Values(chain)
    }

    constructor ()
      ensures Valid() && fresh(head) && chain == [head]
    {
      var h := new Node(0.0);
      h.prev := h;
      head, lastHead, chain := h, h, [h];
    }

    /** `list_insert`: append after the last node. */
    method Insert(node: Node)
      requires Valid() && node !in chain
      modifies this, lastHead, node
      ensures Valid() && chain == old(chain) + [node] && lastHead == node
    {
      lastHead.next := node;
      node.prev := lastHead;
      node.next := null;
      lastHead := node;
      chain := chain + [node];
    }

    /** `list_insert_at`: insert after position `k`. */
    method InsertAt(node: Node, at: Node, ghost k: nat)
      requires Valid() && node !in chain && k < |chain| && chain[k] == at
      modifies this, chain, node
      ensures Valid() && chain == old(chain)[..k + 1] + [node] + old(chain)[k + 1..]
    {
      if lastHead == at {
        Insert(node);
      } else {
        node.prev := at;
        node.next := at.next;
        at.next.prev := node;
        at.next := node;
        chain := chain[..k + 1] + [node] + chain[k + 1..];
      }
    }

    /** `list_remove`: unlink the entry at position `k`. */
    method Remove(node: Node, ghost k: nat)
      requires Valid() && 0 < k < |chain| && chain[k] == node
      modifies this, chain
      ensures Valid() && chain == old(chain)[..k] + old(chain)[k + 1..]
      ensures node.prev == null && node.next == null
    {
      if lastHead == node {
        lastHead := node.prev;
      }
      if node.prev != null {
        node.prev.next := node.next;
      }
      if node.next != null {
        node.next.prev := node.prev;
      }
      node.next := null;
      node.prev := null;
      chain := chain[..k] + chain[k + 1..];
    }
  }

  /** The measurements of a chain, without its head. */
  ghost function Values(chain: seq<Node>): (r: seq<real>)
    ensures |r| == if chain == [] then 0 else |chain| - 1
    ensures forall i :: 0 <= i < |r| ==> r[i] == chain[i + 1].bw
  {
    if chain == [] then [] else seq(|chain| - 1, i requires 0 <= i < |chain| - 1 => chain[i + 1].bw)
  }
}

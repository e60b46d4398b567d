/**
 * The doubly linked list of src/C/linked_list.c that backs the sprite cache
 * of the C front end. Nodes are heap objects; `live` is false once a node has
 * been handed to free(), so a read or a write of a freed node is a
 * precondition the model refuses, as C leaves it undefined. The list is
 * modelled as it is written, including the links that push_back and
 * push_front get wrong and the front and back pointers that the pops leave
 * on a freed node.
 */
module LinkedList {
  /** An SDL_Texture pointer: NULL or some texture. */
  datatype Texture = NoTexture | Texture(id: nat)

  class Node {
    var next: Node?
    var previous: Node?
    var data: Texture
    /** False once the node has been freed. */
    var live: bool

    /** malloc(sizeof(Node)): a live node whose fields hold whatever they hold. */
    constructor Alloc()
      ensures live
    {
      live := true;
    }
  }

  /** free(node): the node may not be used again. */
  method Free(node: Node)
    requires node.live
    modifies node`live
    ensures !node.live
  {
    node.live := false;
  }

  /**
   * The nodes of chain, in order, are live, distinct, and linked both ways;
   * the first has no previous node and the last no next node.
   */
  ghost predicate Linked(chain: seq<Node>)
    reads chain
  {
    (forall i, j :: 0 <= i < j < |chain| ==> chain[i] != chain[j]) &&
    (forall i :: 0 <= i < |chain| ==> chain[i].live) &&
    (forall i {:trigger chain[i].previous} :: 0 <= i < |chain| ==> chain[i].previous == if i == 0 then null else chain[i - 1]) &&
    (forall i {:trigger chain[i].next} :: 0 <= i < |chain| ==> chain[i].next == if i == |chain| - 1 then null else chain[i + 1])
  }

  /** The nodes reached from the first by `index` steps along next are live and in chain. */
  ghost predicate ForwardTo(chain: seq<Node>, index: int)
    reads chain
  {
    0 <= index < |chain| &&
    (forall i :: 0 <= i <= index ==> chain[i].live) &&
    (forall i :: 0 <= i < index ==> chain[i].next == chain[i + 1])
  }

  lemma {:induction false} LinkedForward(chain: seq<Node>, index: int)
    requires Linked(chain) && 0 <= index < |chain|
    ensures ForwardTo(chain, index)
  {
  }

  /** The first loop of new_empty_list_n: n distinct fresh nodes with NULL data. */
  method AllocateNodes(n: int) returns (nodes: array<Node?>, ghost chain: seq<Node>)
    requires n >= 1
    ensures fresh(nodes) && nodes.Length == n && |chain| == n
    ensures forall k :: 0 <= k < n ==> nodes[k] == chain[k]
    ensures forall k :: 0 <= k < n ==> fresh(chain[k]) && chain[k].live && chain[k].data == NoTexture
    ensures forall k, l :: 0 <= k < l < n ==> chain[k] != chain[l]
  {
    nodes := new Node?[n];
    chain := [];
    var i := 0;
    while i < n
      invariant 0 <= i <= n && |chain| == i
      invariant forall k :: 0 <= k < i ==> nodes[k] == chain[k]
      invariant forall k :: 0 <= k < i ==> fresh(chain[k]) && chain[k].live && chain[k].data == NoTexture
      invariant forall k, l :: 0 <= k < l < i ==> chain[k] != chain[l]
    {
      var node := new Node.Alloc();
      node.data := NoTexture;
      nodes[i] := node;
      chain := chain + [node];
      i := i + 1;
    }
  }

  /** The second loop of new_empty_list_n: each node's previous link is the node allocated before it. */
  method LinkPrevious(nodes: array<Node?>, ghost chain: seq<Node>)
    requires nodes.Length == |chain| && forall k :: 0 <= k < |chain| ==> nodes[k] == chain[k]
    requires forall k, l :: 0 <= k < l < |chain| ==> chain[k] != chain[l]
    modifies chain`previous
    ensures forall k :: 0 <= k < |chain| ==> chain[k].previous == if k == 0 then null else chain[k - 1]
  {
    var previousNode: Node? := null;
    var i := 0;
    while i < nodes.Length
      invariant 0 <= i <= nodes.Length
      invariant forall k :: 0 <= k < i ==> chain[k].previous == if k == 0 then null else chain[k - 1]
      invariant previousNode == if i == 0 then null else chain[i - 1]
    {
      var node := nodes[i];
      assert node == chain[i];
      node.previous := previousNode;
      previousNode := node;
      i := i + 1;
    }
  }

  /** The third loop of new_empty_list_n, from the back: each node's next link is the node allocated after it. */
  method LinkNext(nodes: array<Node?>, ghost chain: seq<Node>)
    requires nodes.Length == |chain| && forall k :: 0 <= k < |chain| ==> nodes[k] == chain[k]
    requires forall k, l :: 0 <= k < l < |chain| ==> chain[k] != chain[l]
    modifies chain`next
    ensures forall k :: 0 <= k < |chain| ==> chain[k].next == if k == |chain| - 1 then null else chain[k + 1]
  {
    var nextNode: Node? := null;
    var i := nodes.Length - 1;
    while i >= 0
      invariant -1 <= i < nodes.Length
      invariant forall k :: i < k < |chain| ==> chain[k].next == if k == |chain| - 1 then null else chain[k + 1]
      invariant nextNode == if i == |chain| - 1 then null else chain[i + 1]
    {
      var node := nodes[i];
      assert node == chain[i];
      node.next := nextNode;
      nextNode := node;
      i := i - 1;
    }
  }

  class List {
    var front: Node?
    var back: Node?
    var size: int

    /** The list holds exactly the nodes of chain, front to back. */
    ghost predicate Holds(chain: seq<Node>)
      reads this, chain
    {
      Linked(chain) && size == |chain| &&
      front == (if chain == [] then null else chain[0]) &&
      back == (if chain == [] then null else chain[|chain| - 1])
    }

    /** The back node and the node before it are distinct live nodes, as pop_back needs. */
    ghost predicate CanPopBack()
      reads this, back, if back == null then {} else {back.previous}
    {
      back != null && back.live && back.previous != null && back.previous != back && back.previous.live
    }

    /** new_list: one node holding data, which is both front and back. */
    constructor Single(data: Texture)
      ensures front != null && front == back && size == 1
      ensures fresh(front) && front.live && front.data == data
      ensures front.previous == null && front.next == null
    {
      var node := new Node.Alloc();
      node.data := data;
      node.previous := null;
      node.next := null;
      front := node;
      back := node;
      size := 1;
    }

    /** new_empty_list: no nodes. */
    constructor Empty()
      ensures Holds([])
    {
      front := null;
      back := null;
      size := 0;
    }

    /**
     * new_empty_list_n: n fresh nodes with NULL data, linked front to back in
     * allocation order. The variable-length array nodes[n] is read at index 0
     * and n - 1, so n is at least one.
     */
    static method EmptyN(n: int) returns (list: List, ghost chain: seq<Node>)
      requires n >= 1
      ensures fresh(list) && list.Holds(chain) && |chain| == n
      ensures forall i :: 0 <= i < n ==> fresh(chain[i]) && chain[i].data == NoTexture
    {
      var nodes;
      nodes, chain := AllocateNodes(n);
      LinkPrevious(nodes, chain);
      LinkNext(nodes, chain);
      list := new List.Empty();
      list.front := nodes[0];
      list.back := nodes[n - 1];
      list.size := n;
    }
    /**
     * destroy_list: walks from the back along the previous links freeing
     * every node, then empties the list. The back node's previous link is read
     * first, so the list has at least one node.
     */
    method Destroy(ghost chain: seq<Node>)
      requires Holds(chain) && |chain| >= 1
      modifies this, chain`live
      ensures front == null && back == null && size == 0
      ensures forall i :: 0 <= i < |chain| ==> !chain[i].live
      ensures forall i :: 0 <= i < |chain| ==> chain[i].previous == old(chain[i].previous) && chain[i].next == old(chain[i].next)
    {
      var current := back;
      var earlier := back.previous;
      ghost var j := |chain| - 1;
      while earlier != null
        invariant 0 <= j < |chain| && current == chain[j]
        invariant earlier == if j == 0 then null else chain[j - 1]
        invariant forall i :: 0 <= i < |chain| ==> chain[i].live == (i <= j)
        decreases j
      {
        Free(current);
        current := earlier;
        earlier := earlier.previous;
        j := j - 1;
      }
      Free(current);
      front := null;
      back := null;
      size := 0;
    }

    /**
     * push_back, as written: the old back node's next link is set to the new
     * node before the new node's previous link is read back from it, so the
     * new node's previous link points at the new node itself. data is never
     * stored.
     */
    method PushBack(data: Texture) returns (ghost node: Node)
      requires back != null && back.live
      modifies this`back, this`size, back`next
      ensures fresh(node) && node.live && back == node && front == old(front)
      ensures old(back).next == node && node.next == null && node.previous == node
      ensures size == old(size) + 1
    {
      var newNode := new Node.Alloc();
      back.next := newNode;
      newNode.next := null;
      newNode.previous := back.next;
      back := newNode;
      size := size + 1;
      node := newNode;
    }

    /** push_front, as written: the mirror image of push_back, so the new node's next link points at itself. */
    method PushFront(data: Texture) returns (ghost node: Node)
      requires front != null && front.live
      modifies this`front, this`size, front`previous
      ensures fresh(node) && node.live && front == node && back == old(back)
      ensures old(front).previous == node && node.previous == null && node.next == node
      ensures size == old(size) + 1
    {
      var newNode := new Node.Alloc();
      front.previous := newNode;
      newNode.previous := null;
      newNode.next := front.previous;
      front := newNode;
      size := size + 1;
      node := newNode;
    }

    /** insert: a new node holding data between previousNode and nextNode, which now point at it. */
    method Insert(previousNode: Node, nextNode: Node, data: Texture) returns (ghost node: Node)
      requires previousNode.live && nextNode.live
      modifies this`size, previousNode`next, nextNode`previous
      ensures fresh(node) && node.live && node.data == data
      ensures node.previous == previousNode && node.next == nextNode
      ensures previousNode.next == node && nextNode.previous == node
      ensures size == old(size) + 1
    {
      var newNode := new Node.Alloc();
      newNode.data := data;
      newNode.previous := previousNode;
      newNode.next := nextNode;
      previousNode.next := newNode;
      nextNode.previous := newNode;
      size := size + 1;
      node := newNode;
    }

    /**
     * pop_back, as written: frees the back node and cuts the node before it
     * loose, but leaves back pointing at the freed node.
     */
    method PopBack()
      requires CanPopBack()
      modifies this`size, back`live, back.previous`next
      ensures !old(back).live && old(back.previous).next == null
      ensures back == old(back) && front == old(front) && size == old(size) - 1
    {
      var previousNode := back.previous;
      Free(back);
      previousNode.next := null;
      size := size - 1;
    }

    /** pop_front, as written: frees the front node but leaves front pointing at it. */
    method PopFront()
      requires front != null && front.live && front.next != null && front.next != front && front.next.live
      modifies this`size, front`live, front.next`previous
      ensures !old(front).live && old(front.next).previous == null
      ensures front == old(front) && back == old(back) && size == old(size) - 1
    {
      var nextNode := front.next;
      Free(front);
      nextNode.previous := null;
      size := size - 1;
    }

    /** delete: frees node and links its neighbours to each other; front and back are not touched. */
    method Delete(node: Node)
      requires node.live && node.previous != null && node.next != null
      requires node.previous != node && node.next != node && node.previous.live && node.next.live
      modifies this`size, node`live, node.previous`next, node.next`previous
      ensures !node.live && size == old(size) - 1
      ensures old(node.previous).next == old(node.next)
      ensures old(node.next).previous == old(node.previous)
      ensures front == old(front) && back == old(back)
    {
      var previousNode := node.previous;
      var nextNode := node.next;
      Free(node);
      previousNode.next := nextNode;
      nextNode.previous := previousNode;
      size := size - 1;
    }

    /**
     * dereference_index: fails exactly when index is outside 0 .. size - 1;
     * otherwise walks index steps from the front. The address of the node's
     * data is stored only in the function's own copy of the out-pointer, so
     * nothing the caller can see is written.
     */
    method DereferenceIndex(index: int, ghost chain: seq<Node>) returns (found: bool)
      requires 0 <= index <= size - 1 ==> ForwardTo(chain, index) && chain[0] == front
      ensures found <==> 0 <= index <= size - 1
    {
      if index < 0 || index > size - 1 {
        return false;
      }
      var node := front;
      var i := 0;
      while i < index
        invariant 0 <= i <= index && node == chain[i]
      {
        node := node.next;
        i := i + 1;
      }
      return true;
    }
  }

  /**
   * After push_back on a list of at least one node, the nodes front to back
   * no longer form a doubly linked chain: the new back node is its own
   * predecessor.
   */
  lemma {:induction false} PushBackBreaksChain(chain: seq<Node>)
    requires |chain| >= 2 && chain[|chain| - 1].previous == chain[|chain| - 1]
    requires chain[|chain| - 2] != chain[|chain| - 1]
    ensures !Linked(chain)
  {
  }

  /**
   * After pop_back the list's back node is freed, so a list that still names
   * it as back no longer holds any chain of live nodes.
   */
  lemma {:induction false} PopBackLeavesNoChain(list: List, chain: seq<Node>)
    requires list.back != null && !list.back.live
    ensures !list.Holds(chain)
  {
  }

  /**
   * Inserting a node between neighbours i and i + 1 of a linked chain yields
   * a linked chain with the node in position i + 1.
   */
  lemma {:induction false} InsertKeepsLinked(chain: seq<Node>, i: int, node: Node)
    requires 0 <= i < |chain| - 1 && node !in chain && node.live
    requires forall k, l :: 0 <= k < l < |chain| ==> chain[k] != chain[l]
    requires forall k :: 0 <= k < |chain| ==> chain[k].live
    requires forall k {:trigger chain[k].previous} :: 0 <= k < |chain| && k != i + 1 ==> chain[k].previous == if k == 0 then null else chain[k - 1]
    requires forall k {:trigger chain[k].next} :: 0 <= k < |chain| && k != i ==> chain[k].next == if k == |chain| - 1 then null else chain[k + 1]
    requires chain[i].next == node && chain[i + 1].previous == node
    requires node.previous == chain[i] && node.next == chain[i + 1]
    ensures Linked(chain[..i + 1] + [node] + chain[i + 1..])
  {
    var c := chain[..i + 1] + [node] + chain[i + 1..];
    assert forall k :: 0 <= k <= i ==> c[k] == chain[k];
    assert c[i + 1] == node;
    assert forall k :: i + 1 < k < |c| ==> c[k] == chain[k - 1];
    assert forall k :: 0 <= k < |c| ==> c[k].live;
    assert forall k, l :: 0 <= k < l < |c| ==> c[k] != c[l] by {
      forall k, l | 0 <= k < l < |c|
        ensures c[k] != c[l]
      {
        if l == i + 1 {
          assert c[k] in chain;
        } else if k == i + 1 {
          assert c[l] in chain;
        }
      }
    }
    assert forall k :: 0 <= k < |c| ==> c[k].previous == if k == 0 then null else c[k - 1] by {
      forall k | 0 <= k < |c|
        ensures c[k].previous == if k == 0 then null else c[k - 1]
      {
        if k <= i {
          assert c[k] == chain[k];
          assert chain[k].previous == if k == 0 then null else chain[k - 1];
        } else if k > i + 1 {
          assert c[k] == chain[k - 1] && c[k - 1] == if k == i + 2 then node else chain[k - 2];
        }
      }
    }
    assert forall k :: 0 <= k < |c| ==> c[k].next == if k == |c| - 1 then null else c[k + 1] by {
      forall k | 0 <= k < |c|
        ensures c[k].next == if k == |c| - 1 then null else c[k + 1]
      {
        if k < i {
          assert c[k] == chain[k] && c[k + 1] == chain[k + 1];
        } else if k > i + 1 {
          assert c[k] == chain[k - 1];
          assert chain[k - 1].next == if k - 1 == |chain| - 1 then null else chain[k];
        }
      }
    }
  }
}

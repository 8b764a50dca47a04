/**
 The generic singly linked list: `Node<T>` cells and the `MyLL<T>` list that
 inserts at its head. Every list carries a ghost sequence `nodes` of the cells
 reachable from `head`, in order; `Contents()` is the sequence of their values.
 The model follows the code as written, which differs from its doc comments:
 `Add` and `Clear` leave `size` alone, and `Get` advances from `head` on every
 step, so any index from 1 on yields `head.next`.
 */
module Generics {

  datatype Option<T> = None | Some(value: T)

  /** A list cell: one value and an optional successor. */
  class Node<T> {
    var value: T
    var next: Node?<T>

    constructor (value: T, next: Node?<T> := null)
      ensures this.value == value && this.next == next
    {
      this.value := value;
      this.next := next;
    }
  }

  /** `ns` lists, in order, the cells reachable from `head`, and the last one ends the chain. */
  ghost predicate IsChain<T>(head: Node?<T>, ns: seq<Node<T>>)
    reads ns
  {
    && (head == null <==> ns == [])
    && (ns != [] ==> head == ns[0] && ns[|ns| - 1].next == null)
    && (forall i :: 0 <= i < |ns| - 1 ==> ns[i].next == ns[i + 1])
  }

  /** Every cell of a chain but the last has the next cell as successor; only the last has none. */
  lemma ChainNext<T>(head: Node?<T>, ns: seq<Node<T>>, k: int)
    requires IsChain(head, ns)
    requires 0 <= k < |ns|
    ensures k < |ns| - 1 ==> ns[k].next == ns[k + 1]
    ensures ns[k].next == null <==> k == |ns| - 1
  {
  }

  /** The values held by the cells `ns`, in the same order. */
  ghost function Values<T>(ns: seq<Node<T>>): seq<T>
    reads ns
  {
    if ns == [] then [] else [ns[0].value] + Values(ns[1..])
  }

  lemma {:induction false} ValuesLength<T>(ns: seq<Node<T>>)
    ensures |Values(ns)| == |ns|
  {
    if ns != [] {
      ValuesLength(ns[1..]);
    }
  }

  lemma {:induction false} ValuesAt<T>(ns: seq<Node<T>>, i: int)
    requires 0 <= i < |ns|
    ensures |Values(ns)| == |ns| && Values(ns)[i] == ns[i].value
  {
    ValuesLength(ns);
    if i > 0 {
      ValuesAt(ns[1..], i - 1);
    }
  }

  /** `v` occurs in the values of `ns` exactly when some cell of `ns` holds it. */
  lemma ValuesMember<T>(ns: seq<Node<T>>, v: T)
    ensures v in Values(ns) <==> exists i :: 0 <= i < |ns| && ns[i].value == v
  {
  }

  class MyLL<T(==)> {
    var head: Node?<T>
    var size: int
    ghost var nodes: seq<Node<T>>

    ghost predicate Valid()
      reads this, nodes
    {
      IsChain(head, nodes)
    }

    /** The values of the list from head to tail. */
    ghost function Contents(): seq<T>
      reads this, nodes
    {
      Values(nodes)
    }

    /** The memberwise initializer; `chain` lists the cells reachable from `head`. */
    constructor (head: Node?<T> := null, size: int, ghost chain: seq<Node<T>> := [])
      requires IsChain(head, chain)
      ensures Valid()
      ensures this.head == head && this.size == size && nodes == chain
    {
      this.head := head;
      this.size := size;
      nodes := chain;
    }

    /** Head insertion. The stored `size` is not updated. */
    method Add(value: T)
      requires Valid()
      modifies this
      ensures Valid()
      ensures head != null && fresh(head)
      ensures head.value == value && head.next == old(head)
      ensures nodes == [head] + old(nodes)
      ensures Contents() == [value] + old(Contents())
      ensures size == old(size)
    {
      head := new Node(value, head);
      nodes := [head] + nodes;
    }

    /** Drops every cell. The stored `size` is not reset. */
    method Clear()
      requires Valid()
      modifies this
      ensures Valid()
      ensures head == null && nodes == [] && Contents() == []
      ensures size == old(size)
    {
      head := null;
      nodes := [];
    }

    method GetHead() returns (h: Node?<T>)
      requires Valid()
      ensures h == head
      ensures h == null <==> Contents() == []
      ensures h != null ==> h.value == Contents()[0]
    {
      if head != null {
        ValuesAt(nodes, 0);
      }
      h := head;
    }

    /**
     The loop counts up to `index` but reads `head.next` on every step instead
     of advancing from `temp`, so every index from 1 on yields the second cell.
     A negative index never meets the counter: the loop runs until the
     overflow-checked `count += 1` traps at `Int.max`.
     */
    method Get(index: int) returns (r: Node?<T>)
      requires Valid()
      requires index >= 0
      ensures index == 0 ==> r == head
      ensures head == null ==> r == null
      ensures index >= 1 && head != null ==> r == head.next
      ensures r == null <==> |nodes| <= (if index == 0 then 0 else 1)
      ensures r != null ==> r == nodes[if index == 0 then 0 else 1]
    {
      if head != null {
        ChainNext(head, nodes, 0);
      }
      var count := 0;
      var temp := head;
      while count != index
        invariant 0 <= count <= index
        invariant temp == if count == 0 then head else if head == null then null else head.next
        decreases index - count
      {
        if head != null {
          temp := head.next;
        }
        count := count + 1;
      }
      r := temp;
    }

    /** Equality search from the head to the end of the chain. */
    method Contains(value: T) returns (found: bool)
      requires Valid()
      ensures found <==> value in Contents()
      ensures found <==> exists i :: 0 <= i < |nodes| && nodes[i].value == value
    {
      ValuesMember(nodes, value);
      if head == null {
        return false;
      }
      var temp: Node<T> := head;
      ghost var k := 0;
      while temp.value != value
        invariant 0 <= k < |nodes| && temp == nodes[k]
        invariant forall j :: 0 <= j < k ==> nodes[j].value != value
        decreases |nodes| - k
      {
        ChainNext(head, nodes, k);
        if temp.next != null {
          temp := temp.next;
          k := k + 1;
        } else {
          return false;
        }
      }
      return true;
    }

    /** The values from head to tail; an empty list gives an empty sequence, never `None`. */
    method ToArray() returns (r: Option<seq<T>>)
      requires Valid()
      ensures r == Some(Contents())
      ensures |r.value| == |nodes|
      ensures forall i :: 0 <= i < |nodes| ==> r.value[i] == nodes[i].value
    {
      ValuesLength(nodes);
      forall i | 0 <= i < |nodes| {
        ValuesAt(nodes, i);
      }
      var final: seq<T> := [];
      if head == null {
        return Some(final);
      }
      var temp: Node<T> := head;
      ghost var k := 0;
      while true
        invariant 0 <= k < |nodes| && temp == nodes[k]
        invariant final == Contents()[..k]
        decreases |nodes| - k
      {
        final := final + [temp.value];
        ChainNext(head, nodes, k);
        if temp.next != null {
          temp := temp.next;
          k := k + 1;
        } else {
          assert final == Contents()[..k + 1];
          assert Contents()[..k + 1] == Contents();
          return Some(final);
        }
      }
    }
  }

  /** Head insertion of "a", "b" and "c", in that order, into an empty list built with size 0. */
  method BuildScenarioList() returns (list: MyLL<string>)
    ensures fresh(list) && list.Valid()
    ensures list.Contents() == ["c", "b", "a"] && list.size == 0
    ensures |list.nodes| == 3 && list.head.next == list.nodes[1] && list.nodes[1].value == "b"
  {
    list := new MyLL<string>(size := 0);
    list.Add("a");
    list.Add("b");
    ghost var b := list.head;
    list.Add("c");
    assert list.nodes[1] == b;
    ValuesLength(list.nodes);
  }

  /** The list of `BuildScenarioList` converted to a sequence and searched. */
  method ListScenario() returns (arr: Option<seq<string>>, again: Option<seq<string>>,
                                 hasA: bool, hasZ: bool, size: int)
    ensures arr == Some(["c", "b", "a"]) && again == arr
    ensures hasA && !hasZ
    ensures size == 0
  {
    var list := BuildScenarioList();
    arr := list.ToArray();
    again := list.ToArray();
    assert list.Contents()[2] == "a";
    hasA := list.Contains("a");
    assert "z" != "c" && "z" != "b" && "z" != "a";
    assert "z" !in list.Contents();
    hasZ := list.Contains("z");
    size := list.size;
  }

  /** The list of `BuildScenarioList` indexed: index 5 gives the second cell, as index 1 does. */
  method GetScenario() returns (second: string, fifth: string)
    ensures second == "b" && fifth == "b"
  {
    var list := BuildScenarioList();
    var n1 := list.Get(1);
    second := n1.value;
    var n5 := list.Get(5);
    fifth := n5.value;
  }

  /** After `Clear`, a list answers every query as an empty one does. */
  method ClearScenario() returns (cleared: Option<seq<string>>, headIsNil: bool, hasA: bool,
                                  first: bool, size: int)
    ensures cleared == Some([]) && headIsNil && !hasA && first
    ensures size == 2
  {
    var list := new MyLL<string>(null, 2, []);
    list.Add("a");
    list.Add("b");
    list.Clear();
    cleared := list.ToArray();
    var h := list.GetHead();
    headIsNil := h == null;
    hasA := list.Contains("a");
    var g := list.Get(0);
    first := g == null;
    size := list.size;
  }
}

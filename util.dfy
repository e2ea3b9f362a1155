/**
 * The helpers of src/util.c: charToInt and the singly linked list the
 * engine keeps its move lists in.
 */
module Util {

  /* ---------------------------------------------------------------- */
  /* charToInt                                                         */
  /* ---------------------------------------------------------------- */

  /**
   * charToInt: the one-character string read as a decimal number, which
   * is the digit's value for '0'..'9' and 0 for every other character
   * (no digits read).
   */
  function CharToInt(ch: char): (v: int)
    ensures 0 <= v <= 9
    ensures '0' <= ch <= '9' ==> ch == '0' + v as char
    ensures !('0' <= ch <= '9') ==> v == 0
  {
    if '0' <= ch <= '9' then (ch - '0') as int else 0
  }

  /** The character of a digit, which charToInt reads back. */
  function DigitChar(v: int): (ch: char)
    requires 0 <= v <= 9
    ensures '0' <= ch <= '9'
  {
    '0' + v as char
  }

  /** Reading a digit's character gives the digit back, and every digit character is some digit's. */
  lemma DigitRoundTrip(v: int, ch: char)
    requires 0 <= v <= 9
    ensures CharToInt(DigitChar(v)) == v
    ensures '0' <= ch <= '9' ==> DigitChar(CharToInt(ch)) == ch
  {
  }

  /* ---------------------------------------------------------------- */
  /* The linked list                                                   */
  /* ---------------------------------------------------------------- */

  /** ListItem: one node holding a datum and the link to the next node. */
  class Item<T> {
    var data: T
    var next: Item?<T>

    constructor (data: T, next: Item?<T>)
      ensures this.data == data && this.next == next
    {
      this.data := data;
      this.next := next;
    }
  }

  /**
   * List: the pointer to the first node.  The ghost sequence `nodes`
   * names the nodes reachable from `first` in link order.
   */
  class List<T> {
    var first: Item?<T>
    ghost var nodes: seq<Item<T>>

    /** `first` starts the chain, each node links to the next one, the last to null, and no node occurs twice. */
    ghost predicate Valid()
      reads this, nodes
    {
      (if |nodes| == 0 then first == null else first == nodes[0]) &&
      (forall i {:trigger nodes[i]} :: 0 <= i < |nodes| ==> nodes[i].next == (if i + 1 < |nodes| then nodes[i + 1] else null)) &&
      (forall i, j :: 0 <= i < j < |nodes| ==> nodes[i] != nodes[j])
    }

    /** The data held by the list, first node first. */
    ghost function Content(): (s: seq<T>)
      reads this, nodes
      ensures |s| == |nodes|
    {
      seq(|nodes|, i reads this, nodes requires 0 <= i < |nodes| => nodes[i].data)
    }

    /** list_init */
    constructor ()
      ensures Valid() && Content() == []
    {
      first := null;
      nodes := [];
    }

    /** list_prepend: the datum goes first, the old data follow in their order. */
    method Prepend(x: T)
      requires Valid()
      modifies this
      ensures Valid() && |nodes| == |old(nodes)| + 1 && fresh(nodes[0])
      ensures Content() == [x] + old(Content())
      ensures nodes[1..] == old(nodes)
    {
      var item := new Item(x, first);
      first := item;
      nodes := [item] + nodes;
      assert forall i :: 1 <= i < |nodes| ==> nodes[i] == old(nodes)[i - 1];
    }

    /** list_append: the datum goes last, after the old data in their order; on an empty list it prepends. */
    method Append(x: T)
      requires Valid()
      modifies this, nodes
      ensures Valid() && |nodes| == |old(nodes)| + 1 && fresh(nodes[|nodes| - 1])
      ensures Content() == old(Content()) + [x]
      ensures nodes[..|nodes| - 1] == old(nodes)
    {
      if first == null {
        Prepend(x);
        return;
      }
      var item := new Item(x, null);
      var current := first;
      var last: Item?<T> := null;
      ghost var i := 0;
      while current != null
        invariant Valid()
        invariant 0 <= i <= |nodes|
        invariant current == (if i < |nodes| then nodes[i] else null)
        invariant i == |nodes| ==> last == nodes[|nodes| - 1]
        decreases |nodes| - i
      {
        if current.next == null {
          last := current;
        }
        current := current.next;
        i := i + 1;
      }
      last.next := item;
      nodes := nodes + [item];
      assert forall j :: 0 <= j < |nodes| - 1 ==> nodes[j] == old(nodes)[j];
    }

    /** list_len: the number of nodes reachable from `first`. */
    method Len() returns (count: int)
      requires Valid()
      ensures count == |Content()|
    {
      count := 0;
      var item := first;
      while item != null
        invariant 0 <= count <= |nodes|
        invariant item == (if count < |nodes| then nodes[count] else null)
        decreases |nodes| - count
      {
        count := count + 1;
        item := item.next;
      }
    }
  }

  /** A new list has length zero; prepending and appending each add one and put the datum at the head and the tail. */
  method ListLifecycle<T>(x: T, y: T) returns (n0: int, n1: int, n2: int, content: seq<T>)
    ensures n0 == 0 && n1 == 1 && n2 == 2
    ensures content == [y, x]
  {
    var list := new List<T>();
    n0 := list.Len();
    list.Append(x);
    n1 := list.Len();
    list.Prepend(y);
    n2 := list.Len();
    assert list.Content() == [y, x];
    assert list.first == list.nodes[0] && list.first.next == list.nodes[1];
    content := [list.first.data, list.first.next.data];
  }
}

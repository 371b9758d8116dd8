/** `flowthings_io_idlist` (flowthings_io.c): a prepend-only list of
    (id, item) pairs, where each id is held in a fixed `char[40]` field of its
    node and the item is an opaque caller pointer the list never owns. */
module IdLists {
  import opened Text

  /** `FLOWTHINGS_IO_ID_LEN`: the size of a node's id array, terminator
      included. */
  const ID_LEN: nat := 40

  /** A `flowthings_io_idlistitem`: the id copied into the node, and the item
      pointer as the caller gave it. */
  datatype IdItem<T> = IdItem(id: CString, item: T)

  /** An id fits the node's array with its terminator. */
  predicate IdFits(id: string) {
    StrcatFits(0, |id|, ID_LEN)
  }

  /** The ids of a list, front first. */
  function Ids<T>(items: seq<IdItem<T>>): (r: seq<CString>)
    ensures |r| == |items|
    ensures forall k | 0 <= k < |items| :: r[k] == items[k].id
  {
    if items == [] then [] else [items[0].id] + Ids(items[1..])
  }

  /** `flowthings_io_idlist`: `items[0]` is the node `start` points to. */
  class IdList<T> {
    var items: seq<IdItem<T>>

    ghost predicate Valid()
      reads this
    {
      forall k | 0 <= k < |items| :: IdFits(items[k].id)
    }

    /** `flowthings_io_idlist_init`: an empty list. */
    constructor ()
      ensures Valid() && items == []
    {
      items := [];
    }

    /** `flowthings_io_idlist_add`: copy `id` into a new node's 40-character
        array with a bounded strcat, store `item` as it is, and link the node in
        front. An id of 40 characters or more is the strcat's FAIL
        (`ok == false`) and links nothing. */
    method Add(id: CString, item: T) returns (ok: bool)
      requires Valid()
      modifies this
      ensures Valid()
      ensures ok <==> IdFits(id)
      ensures ok ==> items == [IdItem(id, item)] + old(items)
      ensures !ok ==> items == old(items)
    {
      var buffer := new FixedText(ID_LEN, "");
      ok := buffer.Strcat(id);
      if !ok {
        return;
      }
      var copy := buffer.Text();
      assert copy == id;
      items := [IdItem(copy, item)] + items;
    }

    /** `flowthings_io_idlist_cleanup`: unlink and free every node, first to
        last. Only the nodes go: the items are handed back untouched, and since
        only the list itself is in the frame no caller object changes. */
    method Cleanup() returns (released: seq<IdItem<T>>)
      modifies this
      ensures items == []
      ensures released == old(items)
    {
      released := [];
      while items != []
        invariant released + items == old(items)
        decreases |items|
      {
        var node := items[0];
        items := items[1..];
        released := released + [node];
      }
    }
  }

  /** A run of successful adds to an empty list holds the ids most recent
      first. */
  lemma {:induction false} AddedIds<T>(adds: seq<IdItem<T>>)
    ensures Ids(PrependEach([], adds)) == Reversed(Ids(adds))
  {
    PrependEachReverses([], adds);
    assert Reversed(adds) + [] == Reversed(adds);
    ReversedIds(adds);
  }

  lemma {:induction false} ReversedIds<T>(items: seq<IdItem<T>>)
    ensures Ids(Reversed(items)) == Reversed(Ids(items))
  {
    if items != [] {
      ReversedIds(items[1..]);
      IdsAppend(Reversed(items[1..]), [items[0]]);
      assert Ids(items)[1..] == Ids(items[1..]);
    }
  }

  lemma {:induction false} IdsAppend<T>(a: seq<IdItem<T>>, b: seq<IdItem<T>>)
    ensures Ids(a + b) == Ids(a) + Ids(b)
  {
    if a == [] {
      assert a + b == b;
    } else {
      assert (a + b)[1..] == a[1..] + b;
      IdsAppend(a[1..], b);
    }
  }
}

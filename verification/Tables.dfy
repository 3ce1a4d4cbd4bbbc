/** The one table of the dynamodb backend: partitions of items kept in sort-key order, read
    a page at a time. */
module Tables {
  import opened Prelude
  import opened Order

  datatype Item = Item(key: string, payload: string)

  type Partitions = map<string, seq<Item>>

  ghost predicate Sorted(items: seq<Item>) {
    forall i, j | 0 <= i < j < |items| :: Less(items[i].key, items[j].key)
  }

  ghost predicate AllSorted(p: Partitions) {
    forall partition | partition in p :: Sorted(p[partition])
  }

  function Part(p: Partitions, partition: string): seq<Item> {
    if partition in p then p[partition] else []
  }

  // ----- one item in, one item out ----------------------------------------

  /** An item replaces the one with its key, or takes its place in the order. */
  function Put(items: seq<Item>, item: Item): seq<Item> {
    if items == [] then [item]
    else if items[0].key == item.key then [item] + items[1..]
    else if Less(item.key, items[0].key) then [item] + items
    else [items[0]] + Put(items[1..], item)
  }

  function Lookup(items: seq<Item>, key: string): Option<string> {
    if items == [] then None
    else if items[0].key == key then Some(items[0].payload)
    else Lookup(items[1..], key)
  }

  function PutIn(p: Partitions, partition: string, item: Item): Partitions {
    p[partition := Put(Part(p, partition), item)]
  }

  ghost predicate Above(items: seq<Item>, key: string) {
    forall i | 0 <= i < |items| :: Less(key, items[i].key)
  }

  lemma SortedCons(first: Item, rest: seq<Item>)
    ensures Sorted([first] + rest) <==> Sorted(rest) && Above(rest, first.key)
  {
    var items := [first] + rest;
    if Sorted(items) {
      forall i | 0 <= i < |rest| ensures Less(first.key, rest[i].key) {
        assert items[0] == first && items[i + 1] == rest[i];
      }
      forall i, j | 0 <= i < j < |rest| ensures Less(rest[i].key, rest[j].key) {
        assert items[i + 1] == rest[i] && items[j + 1] == rest[j];
      }
    }
  }

  lemma AboveEarlier(items: seq<Item>, low: string, key: string)
    requires Above(items, key) && Less(low, key)
    ensures Above(items, low)
  {
    forall i | 0 <= i < |items| ensures Less(low, items[i].key) {
      Transitive(low, key, items[i].key);
    }
  }

  lemma {:induction false} PutKeepsAbove(items: seq<Item>, item: Item, low: string)
    requires Above(items, low) && Less(low, item.key)
    ensures Above(Put(items, item), low)
  {
    if items != [] && items[0].key != item.key && !Less(item.key, items[0].key) {
      PutKeepsAbove(items[1..], item, low);
    }
  }

  lemma {:induction false} PutKeepsSorted(items: seq<Item>, item: Item)
    requires Sorted(items)
    ensures Sorted(Put(items, item))
  {
    if items != [] {
      var first, rest := items[0], items[1..];
      assert items == [first] + rest;
      SortedCons(first, rest);
      if first.key == item.key {
        SortedCons(item, rest);
      } else if Less(item.key, first.key) {
        AboveEarlier(rest, item.key, first.key);
        SortedCons(item, items);
      } else {
        Total(first.key, item.key);
        PutKeepsSorted(rest, item);
        PutKeepsAbove(rest, item, first.key);
        SortedCons(first, Put(rest, item));
      }
    }
  }

  /** What was put is found, and nothing else moved. */
  lemma {:induction false} PutThenLookup(items: seq<Item>, item: Item, key: string)
    ensures Lookup(Put(items, item), key) == if key == item.key then Some(item.payload) else Lookup(items, key)
  {
    if items != [] && items[0].key != item.key && !Less(item.key, items[0].key) {
      PutThenLookup(items[1..], item, key);
    }
  }

  lemma {:induction false} PutKeys(items: seq<Item>, item: Item, key: string)
    ensures HasKey(Put(items, item), key) <==> HasKey(items, key) || key == item.key
  {
    if items == [] {
      assert [item][0].key == item.key;
    } else {
      var rest := items[1..];
      HasKeyCons(items[0], rest, key);
      assert [items[0]] + rest == items;
      if items[0].key == item.key {
        HasKeyCons(item, rest, key);
      } else if Less(item.key, items[0].key) {
        HasKeyCons(item, items, key);
      } else {
        PutKeys(rest, item, key);
        HasKeyCons(items[0], Put(rest, item), key);
      }
    }
  }

  ghost predicate HasKey(items: seq<Item>, key: string) {
    exists i | 0 <= i < |items| :: items[i].key == key
  }

  lemma HasKeyCons(first: Item, rest: seq<Item>, key: string)
    ensures HasKey([first] + rest, key) <==> first.key == key || HasKey(rest, key)
  {
    var items := [first] + rest;
    assert forall i | 0 <= i < |rest| :: items[i + 1] == rest[i];
    if HasKey(rest, key) {
      var i :| 0 <= i < |rest| && rest[i].key == key;
      assert items[i + 1].key == key;
    }
    assert items[0].key == first.key;
  }

  // ----- reading in pages -------------------------------------------------

  /** The items after the key a page starts from. */
  function After(items: seq<Item>, start: Option<string>): seq<Item> {
    if items == [] || start.None? || Less(start.value, items[0].key) then items else After(items[1..], start)
  }

  lemma {:induction false} AfterLast(before: seq<Item>, rest: seq<Item>)
    requires Sorted(before + rest) && before != []
    ensures After(before + rest, Some(before[|before| - 1].key)) == rest
  {
    var items := before + rest;
    var last := before[|before| - 1].key;
    assert items[0] == before[0] && items[1..] == before[1..] + rest;
    if |before| == 1 {
      Irreflexive(last);
      if rest != [] {
        assert items[1] == rest[0];
        assert Less(items[0].key, items[1].key);
      }
    } else {
      assert items[|before| - 1] == before[|before| - 1];
      Asymmetric(items[0].key, last);
      SortedCons(items[0], items[1..]);
      assert items == [items[0]] + items[1..];
      AfterLast(before[1..], rest);
    }
  }

  /** How the service answers one query: how many items fit into a response, and whether it
      offers a key to go on from even when it has just given the last one. */
  datatype Pager = Pager(room: nat -> nat, offersMore: nat -> bool) {
    ghost predicate Valid() {
      forall page: nat :: room(page) > 0
    }
  }

  class Table {
    var partitions: Partitions

    constructor ()
      ensures partitions == map[]
    {
      partitions := map[];
    }

    method PutItem(partition: string, item: Item)
      modifies this
      ensures partitions == PutIn(old(partitions), partition, item)
    {
      partitions := PutIn(partitions, partition, item);
    }

    method GetItem(partition: string, key: string) returns (payload: Option<string>)
      ensures payload == Lookup(Part(partitions, partition), key)
    {
      payload := Lookup(Part(partitions, partition), key);
    }

    /** One response: the next items, and where to go on from if there may be more. */
    method QueryPage(partition: string, start: Option<string>, room: nat, offersMore: bool)
      returns (items: seq<Item>, last: Option<string>)
      requires room > 0
      ensures items <= After(Part(partitions, partition), start)
      ensures last.None? ==> items == After(Part(partitions, partition), start)
      ensures last.Some? ==> items != [] && last.value == items[|items| - 1].key
    {
      var rest := After(Part(partitions, partition), start);
      if |rest| > room {
        return rest[..room], Some(rest[room - 1].key);
      }
      return rest, if offersMore && rest != [] then Some(rest[|rest| - 1].key) else None;
    }

    /** `_query`: every page, whatever size the pages come in. */
    method Query(partition: string, pager: Pager) returns (items: seq<Item>)
      requires pager.Valid() && AllSorted(partitions)
      ensures items == Part(partitions, partition)
    {
      items := [];
      var start: Option<string> := None;
      var more := true;
      var page := 0;
      ghost var all := Part(partitions, partition);
      assert Sorted(all);
      while more
        invariant items <= all
        invariant more ==> After(all, start) == all[|items|..]
        invariant !more ==> items == all
        decreases more, |all| - |items|
      {
        ghost var before := items;
        var response, last := QueryPage(partition, start, pager.room(page), pager.offersMore(page));
        items := items + response;
        assert all == before + all[|before|..];
        assert items <= all;
        if last.None? {
          more := false;
        } else {
          assert all == items + all[|items|..];
          AfterLast(items, all[|items|..]);
          assert items[|items| - 1] == response[|response| - 1];
        }
        start := last;
        page := page + 1;
      }
    }
  }
}

/**
 * A stand-in for the single DynamoDB table behind the service: the items stored by key,
 * the order in which a scan returns them, and an injected failure that makes every call
 * fail, as the `err` field of the test fake does. Every call is recorded, so that a
 * caller's contract can say which store calls it made, or that it made none.
 */
module Dynamo {
  import opened Wrappers

  /** One request made to the table. */
  datatype Call<Item> =
    | ScanOp
    | GetItemOp(key: string)
    | PutItemOp(key: string, item: Item)
    | DeleteItemOp(key: string)

  predicate Distinct(ks: seq<string>) {
    forall i, j | 0 <= i < j < |ks| :: ks[i] != ks[j]
  }

  /** `ks` with `k` taken out, the other keys in their order. */
  function Without(ks: seq<string>, k: string): (r: seq<string>)
    ensures forall x :: x in r <==> x in ks && x != k
    ensures Distinct(ks) ==> Distinct(r)
    ensures k !in ks ==> r == ks
  {
    if ks == [] then []
    else if ks[0] == k then Without(ks[1..], k)
    else
      var rest := Without(ks[1..], k);
      assert Distinct(ks) ==> Distinct(ks[1..]) && ks[0] !in rest by {
        if Distinct(ks) {
          forall i, j | 0 <= i < j < |ks[1..]| ensures ks[1..][i] != ks[1..][j] {
            assert ks[1..][i] == ks[i + 1] && ks[1..][j] == ks[j + 1];
          }
          assert ks[0] !in ks[1..];
        }
      }
      [ks[0]] + rest
  }

  /** A distinct sequence has as many elements as the set of its elements. */
  lemma {:induction false} DistinctCard(ks: seq<string>)
    requires Distinct(ks)
    ensures |set x | x in ks| == |ks|
  {
    if ks != [] {
      DistinctCard(ks[1..]);
      assert (set x | x in ks) == {ks[0]} + (set x | x in ks[1..]);
      assert ks[0] !in ks[1..];
    }
  }

  /**
   * What the table holds: `items` by key, `order` the order a scan returns them in,
   * and `fault` the error every call fails with, when there is one.
   */
  datatype Store<Item> = Store(items: map<string, Item>, order: seq<string>, fault: Option<string>) {

    /** Every stored key appears exactly once in the scan order, and no other key does. */
    predicate Valid() {
      Distinct(order) && (forall k | k in order :: k in items) && (forall k | k in items :: k in order)
    }

    /** The items a successful scan returns, in scan order. */
    function Listing(): (r: seq<Item>)
      requires Valid()
      ensures |r| == |order|
      ensures forall i | 0 <= i < |r| :: r[i] == items[order[i]]
    {
      seq(|order|, i requires 0 <= i < |order| => items[order[i]])
    }

    /** The item stored under `key`, if any: what a successful GetItem returns. */
    function Lookup(key: string): (r: Option<Item>)
      ensures r.Some? <==> key in items
      ensures r.Some? ==> r.value == items[key]
    {
      if key in items then Some(items[key]) else None
    }

    /** The table after a successful PutItem: `item` replaces whatever was under `key`. */
    function Put(key: string, item: Item): (s: Store<Item>)
      ensures s.items == items[key := item] && s.fault == fault
      ensures Valid() ==> s.Valid()
    {
      Store(items[key := item], if key in items then order else order + [key], fault)
    }

    /** The table after a successful DeleteItem; deleting a missing key changes nothing. */
    function Delete(key: string): (s: Store<Item>)
      ensures s.items == items - {key} && s.fault == fault
      ensures Valid() ==> s.Valid()
      ensures Valid() && key !in items ==> s == this
    {
      Store(items - {key}, Without(order, key), fault)
    }
  }

  /** A scan returns every stored item, and nothing else, once per key. */
  lemma ListingCoversStore<Item>(s: Store<Item>)
    requires s.Valid()
    ensures |s.Listing()| == |s.items|
    ensures forall k | k in s.items :: s.items[k] in s.Listing()
    ensures forall i | 0 <= i < |s.Listing()| :: s.Listing()[i] in s.items.Values
  {
    DistinctCard(s.order);
    assert (set x | x in s.order) == s.items.Keys;
    forall k | k in s.items ensures s.items[k] in s.Listing() {
      var i :| 0 <= i < |s.order| && s.order[i] == k;
      assert s.Listing()[i] == s.items[k];
    }
  }

  /** Putting a new key appends its item to the end of the scan. */
  lemma ListingAfterPutNew<Item>(s: Store<Item>, key: string, item: Item)
    requires s.Valid() && key !in s.items
    ensures s.Put(key, item).Listing() == s.Listing() + [item]
  {
  }

  /** Putting an existing key replaces its item in place: the scan order does not change. */
  lemma ListingAfterPutExisting<Item>(s: Store<Item>, key: string, item: Item)
    requires s.Valid() && key in s.items
    ensures s.Put(key, item).order == s.order
    ensures |s.Put(key, item).Listing()| == |s.Listing()|
    ensures forall i | 0 <= i < |s.order| ::
              s.Put(key, item).Listing()[i] == if s.order[i] == key then item else s.Listing()[i]
  {
  }

  /** Deleting twice leaves the table as deleting once does. */
  lemma DeleteIdempotent<Item>(s: Store<Item>, key: string)
    requires s.Valid()
    ensures s.Delete(key).Delete(key) == s.Delete(key)
  {
  }

  /** The table as an object whose calls change it in place. */
  class Table<Item> {
    var items: map<string, Item>
    var order: seq<string>
    var fault: Option<string>
    /** Every call made so far, oldest first. */
    var log: seq<Call<Item>>

    function View(): Store<Item>
      reads this
    {
      Store(items, order, fault)
    }

    predicate Valid()
      reads this
    {
      View().Valid()
    }

    constructor (initial: Store<Item>)
      requires initial.Valid()
      ensures Valid() && View() == initial && log == []
    {
      items, order, fault := initial.items, initial.order, initial.fault;
      log := [];
    }

    /** Scan with no filter: every item, or the injected failure. */
    method Scan() returns (scanned: seq<Item>, err: Option<string>)
      requires Valid()
      modifies this
      ensures Valid() && View() == old(View()) && log == old(log) + [ScanOp]
      ensures err == fault
      ensures scanned == if fault.None? then View().Listing() else []
    {
      log := log + [ScanOp];
      err := fault;
      scanned := if fault.None? then View().Listing() else [];
    }

    /** Point lookup by primary key; no item is not an error. */
    method GetItem(key: string) returns (item: Option<Item>, err: Option<string>)
      requires Valid()
      modifies this
      ensures Valid() && View() == old(View()) && log == old(log) + [GetItemOp(key)]
      ensures err == fault
      ensures item == if fault.None? then View().Lookup(key) else None
    {
      log := log + [GetItemOp(key)];
      err := fault;
      item := if fault.None? && key in items then Some(items[key]) else None;
    }

    /** Writes `item` under `key`, replacing any item already there. */
    method PutItem(key: string, item: Item) returns (err: Option<string>)
      requires Valid()
      modifies this
      ensures Valid() && log == old(log) + [PutItemOp(key, item)]
      ensures err == old(fault)
      ensures View() == if err.None? then old(View()).Put(key, item) else old(View())
    {
      log := log + [PutItemOp(key, item)];
      err := fault;
      if fault.None? {
        if key !in items {
          order := order + [key];
        }
        items := items[key := item];
      }
    }

    /** Deletes the item under `key`; a missing key is not an error. */
    method DeleteItem(key: string) returns (err: Option<string>)
      requires Valid()
      modifies this
      ensures Valid() && log == old(log) + [DeleteItemOp(key)]
      ensures err == old(fault)
      ensures View() == if err.None? then old(View()).Delete(key) else old(View())
    {
      log := log + [DeleteItemOp(key)];
      err := fault;
      if fault.None? {
        order := Without(order, key);
        items := items - {key};
      }
    }
  }
}

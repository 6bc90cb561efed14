/**
 * The property service: list, get, create, update and delete of `Property` records in
 * the table, with input validation and a five-kind error taxonomy.
 *
 * Each operation is given twice: as a function from the table's state to an `Outcome`
 * (what it returns, the table afterwards and the store calls it made), which the router
 * uses, and as a method on a `Table` proved to return and do exactly that.
 */
module PropertyService {
  import opened Wrappers
  import opened Dynamo

  /** The bits of a 32-bit float: rent is only ever copied, never computed on. */
  type Rent = bv32

  datatype Property = Property(id: string, name: string, rent: Rent)

  /** The five kinds of service failure. */
  datatype ErrorKind = Query | Unmarshal | NotFound | Invalid | Persistence {

    /** The message the source uses as the kind's `ErrorType` string. */
    function Text(): string {
      match this
      case Query => "Query API call failed"
      case Unmarshal => "Failed to unmarshal item"
      case NotFound => "Could not find property"
      case Invalid => "Property is not valid"
      case Persistence => "An error occured while saving"
    }
  }

  /** Different kinds have different messages, so the strings do identify a kind. */
  lemma ErrorTextsDistinct(a: ErrorKind, b: ErrorKind)
    ensures a.Text() == b.Text() <==> a == b
  {
  }

  /** A service failure: its kind and the underlying error, which may be nil. */
  datatype ServiceError = ServiceError(errorType: ErrorKind, error: Option<string>)

  const NameMissing := ServiceError(Invalid, Some("Name missing"))
  const IdMissing := ServiceError(Invalid, Some("Id missing"))

  /**
   * What an operation returns (a value or an error, nil standing for absent), the table
   * after it, and the store calls it made.
   */
  datatype Outcome<T> = Outcome(
    result: Option<T>,
    err: Option<ServiceError>,
    after: Store<Property>,
    calls: seq<Call<Property>>)

  /** What an operation that returns only an error does. */
  datatype Completion = Completion(
    err: Option<ServiceError>,
    after: Store<Property>,
    calls: seq<Call<Property>>)

  /** The table keys every item by the item's own, non-empty, id. */
  predicate KeyedById(db: Store<Property>) {
    forall k | k in db.items :: k != "" && db.items[k].id == k
  }

  /**
   * Lists every property: one scan; a failed scan is a Query error and a failed
   * decoding an Unmarshal error; an empty table gives the empty list, not an error.
   * `unmarshalErr` is the decoder's failure, when the scanned items do not decode;
   * zero items leave nothing to decode, so it cannot fail then.
   */
  function Listed(db: Store<Property>, unmarshalErr: Option<string>): (o: Outcome<seq<Property>>)
    requires db.Valid()
    ensures o.calls == [ScanOp] && o.after == db
    ensures o.result.Some? <==> o.err.None?
    ensures db.fault.Some? ==> o.err == Some(ServiceError(Query, db.fault))
    ensures db.fault.None? && unmarshalErr.Some? && db.items != map[] ==>
              o.err == Some(ServiceError(Unmarshal, unmarshalErr))
    ensures db.fault.None? && unmarshalErr.None? ==> o.result.Some?
    ensures db.fault.None? && db.items == map[] ==> o.result == Some([])
    ensures o.result.Some? ==> |o.result.value| == |db.items|
    ensures o.result.Some? ==> forall k | k in db.items :: db.items[k] in o.result.value
    ensures o.result.Some? ==> forall p | p in o.result.value :: p in db.items.Values
    ensures o.result.Some? && db.items == map[] ==> o.result.value == []
  {
    ListingCoversStore(db);
    if db.fault.Some? then Outcome(None, Some(ServiceError(Query, db.fault)), db, [ScanOp])
    else if unmarshalErr.Some? && db.items != map[] then
      Outcome(None, Some(ServiceError(Unmarshal, unmarshalErr)), db, [ScanOp])
    else Outcome(Some(db.Listing()), None, db, [ScanOp])
  }

  /**
   * Gets the property stored under `id`: one lookup; a failed lookup is a Query error,
   * no item a NotFound error with a nil cause, and never a property.
   */
  function Got(id: string, db: Store<Property>, unmarshalErr: Option<string>): (o: Outcome<Property>)
    ensures o.calls == [GetItemOp(id)] && o.after == db
    ensures o.result.Some? <==> o.err.None?
    ensures db.fault.Some? ==> o.err == Some(ServiceError(Query, db.fault))
    ensures db.fault.None? && id !in db.items ==> o.err == Some(ServiceError(NotFound, None))
    ensures db.fault.None? && id in db.items && unmarshalErr.Some? ==>
              o.err == Some(ServiceError(Unmarshal, unmarshalErr))
    ensures db.fault.None? && id in db.items && unmarshalErr.None? ==> o.result == Some(db.items[id])
    ensures o.result.Some? ==> id in db.items && o.result.value == db.items[id]
  {
    if db.fault.Some? then Outcome(None, Some(ServiceError(Query, db.fault)), db, [GetItemOp(id)])
    else match db.Lookup(id)
      case None => Outcome(None, Some(ServiceError(NotFound, None)), db, [GetItemOp(id)])
      case Some(item) =>
        if unmarshalErr.Some? then Outcome(None, Some(ServiceError(Unmarshal, unmarshalErr)), db, [GetItemOp(id)])
        else Outcome(Some(item), None, db, [GetItemOp(id)])
  }

  /**
   * Writes `p` under its id and hands `p` back: the store does not echo a copy.
   * A failed encoding (`marshalErr`) is an Unmarshal error and makes no store call;
   * a failed put is a Persistence error and leaves the table as it was.
   */
  function Persisted(p: Property, db: Store<Property>, marshalErr: Option<string>): (o: Outcome<Property>)
    ensures marshalErr.Some? ==> o == Outcome(None, Some(ServiceError(Unmarshal, marshalErr)), db, [])
    ensures marshalErr.None? ==> o.calls == [PutItemOp(p.id, p)]
    ensures marshalErr.None? && db.fault.Some? ==> o.err == Some(ServiceError(Persistence, db.fault))
    ensures o.result.Some? <==> o.err.None?
    ensures o.result.Some? <==> marshalErr.None? && db.fault.None?
    ensures o.result.Some? ==> o.result.value == p && o.after == db.Put(p.id, p)
    ensures o.err.Some? ==> o.after == db
  {
    if marshalErr.Some? then Outcome(None, Some(ServiceError(Unmarshal, marshalErr)), db, [])
    else if db.fault.Some? then Outcome(None, Some(ServiceError(Persistence, db.fault)), db, [PutItemOp(p.id, p)])
    else Outcome(Some(p), None, db.Put(p.id, p), [PutItemOp(p.id, p)])
  }

  /**
   * Creates a property: an empty name is Invalid with no store call; otherwise the id is
   * replaced by `freshId` (the generated UUID) and the result written as by `Persisted`,
   * so name and rent come back unchanged.
   */
  function Created(p: Property, freshId: string, db: Store<Property>, marshalErr: Option<string>): (o: Outcome<Property>)
    ensures p.name == "" ==> o == Outcome(None, Some(NameMissing), db, [])
    ensures p.name != "" ==> o == Persisted(Property(freshId, p.name, p.rent), db, marshalErr)
    ensures o.result.Some? ==> o.result.value == Property(freshId, p.name, p.rent)
  {
    if p.name == "" then Outcome(None, Some(NameMissing), db, [])
    else Persisted(p.(id := freshId), db, marshalErr)
  }

  /**
   * Updates the property under `id`: an empty `id`, or one other than the payload's,
   * is Invalid with no store call; otherwise `p` is written as by `Persisted`.
   */
  function Updated(id: string, p: Property, db: Store<Property>, marshalErr: Option<string>): (o: Outcome<Property>)
    ensures id == "" || id != p.id ==> o == Outcome(None, Some(IdMissing), db, [])
    ensures id != "" && id == p.id ==> o == Persisted(p, db, marshalErr)
    ensures o.result.Some? ==> o.result.value == p
  {
    if id == "" || id != p.id then Outcome(None, Some(IdMissing), db, [])
    else Persisted(p, db, marshalErr)
  }

  /**
   * Deletes the property under `id`: an empty `id` is Invalid with no store call;
   * otherwise one delete, whose failure is a Persistence error. A missing key is fine.
   */
  function Deleted(id: string, db: Store<Property>): (c: Completion)
    ensures id == "" ==> c == Completion(Some(IdMissing), db, [])
    ensures id != "" ==> c.calls == [DeleteItemOp(id)]
    ensures id != "" && db.fault.Some? ==> c.err == Some(ServiceError(Persistence, db.fault)) && c.after == db
    ensures id != "" && db.fault.None? ==> c.err.None? && c.after == db.Delete(id)
  {
    if id == "" then Completion(Some(IdMissing), db, [])
    else if db.fault.Some? then Completion(Some(ServiceError(Persistence, db.fault)), db, [DeleteItemOp(id)])
    else Completion(None, db.Delete(id), [DeleteItemOp(id)])
  }

  /** The writes keep every item keyed by its own non-empty id, given a non-empty UUID. */
  lemma WritesKeepKeyedById(db: Store<Property>, p: Property, id: string, freshId: string, marshalErr: Option<string>)
    requires KeyedById(db) && freshId != ""
    ensures KeyedById(Created(p, freshId, db, marshalErr).after)
    ensures KeyedById(Updated(id, p, db, marshalErr).after)
    ensures KeyedById(Deleted(id, db).after)
  {
  }

  /** Update does not check the name: a record with an empty name is stored like any other. */
  lemma UpdateStoresEmptyName(db: Store<Property>, p: Property)
    requires p.name == "" && p.id != "" && db.fault.None?
    ensures var o := Updated(p.id, p, db, None);
            o.result == Some(p) && o.err.None? && o.after.items == db.items[p.id := p]
  {
  }

  /** Round trip: what a successful create returns is what a get of its id finds. */
  lemma CreateThenGet(db: Store<Property>, p: Property, freshId: string, marshalErr: Option<string>)
    requires Created(p, freshId, db, marshalErr).result.Some?
    ensures var c := Created(p, freshId, db, marshalErr);
            Got(freshId, c.after, None).result == c.result
  {
  }

  /** After a successful update, a get of the id finds exactly the payload. */
  lemma UpdateThenGet(db: Store<Property>, id: string, p: Property, marshalErr: Option<string>)
    requires Updated(id, p, db, marshalErr).err.None?
    ensures Got(id, Updated(id, p, db, marshalErr).after, None).result == Some(p)
  {
  }

  /** After a successful delete, a get of the id is NotFound. */
  lemma DeleteThenGet(db: Store<Property>, id: string)
    requires Deleted(id, db).err.None?
    ensures Got(id, Deleted(id, db).after, None).err == Some(ServiceError(NotFound, None))
  {
  }

  /** Deleting is idempotent: a second delete of the same id succeeds and changes nothing. */
  lemma DeleteTwice(db: Store<Property>, id: string)
    requires db.Valid() && Deleted(id, db).err.None?
    ensures var once := Deleted(id, db).after;
            Deleted(id, once).err.None? && Deleted(id, once).after == once
  {
    DeleteIdempotent(db, id);
  }

  /** A created property goes to the end of the list, when its UUID is new to the table. */
  lemma {:induction false} CreateThenList(db: Store<Property>, p: Property, freshId: string, marshalErr: Option<string>)
    requires db.Valid() && freshId !in db.items
    requires Created(p, freshId, db, marshalErr).result.Some?
    ensures var c := Created(p, freshId, db, marshalErr);
            c.after.Valid() && Listed(c.after, None).result == Some(Listed(db, None).result.value + [c.result.value])
    ensures var c := Created(p, freshId, db, marshalErr);
            multiset(Listed(c.after, None).result.value) == multiset(Listed(db, None).result.value) + multiset{c.result.value}
  {
    ListingAfterPutNew(db, freshId, Property(freshId, p.name, p.rent));
  }

  /**
   * Updating a stored id replaces its item where it stands in the list; the list keeps
   * its length and every other item.
   */
  lemma {:induction false} UpdateThenList(db: Store<Property>, p: Property, marshalErr: Option<string>)
    requires db.Valid() && p.id in db.items
    requires Updated(p.id, p, db, marshalErr).result.Some?
    ensures var before := Listed(db, None).result.value;
            var o := Updated(p.id, p, db, marshalErr);
            o.after.Valid() &&
            var after := Listed(o.after, None).result.value;
            |after| == |before| &&
            forall i | 0 <= i < |before| :: after[i] == if db.order[i] == p.id then p else before[i]
  {
    ListingAfterPutExisting(db, p.id, p);
  }

  // The service operations over a table object.

  method GetPropertyList(t: Table<Property>, unmarshalErr: Option<string>)
    returns (list: Option<seq<Property>>, err: Option<ServiceError>)
    requires t.Valid()
    modifies t
    ensures t.Valid()
    ensures var o := Listed(old(t.View()), unmarshalErr);
            list == o.result && err == o.err && t.View() == o.after && t.log == old(t.log) + o.calls
  {
    var items, e := t.Scan();
    if e.Some? {
      return None, Some(ServiceError(Query, e));
    }
    ListingCoversStore(t.View());
    if unmarshalErr.Some? && items != [] {
      return None, Some(ServiceError(Unmarshal, unmarshalErr));
    }
    return Some(items), None;
  }

  method GetProperty(id: string, t: Table<Property>, unmarshalErr: Option<string>)
    returns (property: Option<Property>, err: Option<ServiceError>)
    requires t.Valid()
    modifies t
    ensures t.Valid()
    ensures var o := Got(id, old(t.View()), unmarshalErr);
            property == o.result && err == o.err && t.View() == o.after && t.log == old(t.log) + o.calls
  {
    var item, e := t.GetItem(id);
    if e.Some? {
      return None, Some(ServiceError(Query, e));
    }
    if item.None? {
      return None, Some(ServiceError(NotFound, None));
    }
    if unmarshalErr.Some? {
      return None, Some(ServiceError(Unmarshal, unmarshalErr));
    }
    return item, None;
  }

  method CreateProperty(property: Property, freshId: string, t: Table<Property>, marshalErr: Option<string>)
    returns (created: Option<Property>, err: Option<ServiceError>)
    requires t.Valid()
    modifies t
    ensures t.Valid()
    ensures var o := Created(property, freshId, old(t.View()), marshalErr);
            created == o.result && err == o.err && t.View() == o.after && t.log == old(t.log) + o.calls
  {
    if property.name == "" {
      return None, Some(NameMissing);
    }
    var withId := property.(id := freshId);
    created, err := PersistProperty(withId, t, marshalErr);
  }

  method UpdateProperty(id: string, property: Property, t: Table<Property>, marshalErr: Option<string>)
    returns (updated: Option<Property>, err: Option<ServiceError>)
    requires t.Valid()
    modifies t
    ensures t.Valid()
    ensures var o := Updated(id, property, old(t.View()), marshalErr);
            updated == o.result && err == o.err && t.View() == o.after && t.log == old(t.log) + o.calls
  {
    if id == "" || id != property.id {
      return None, Some(IdMissing);
    }
    updated, err := PersistProperty(property, t, marshalErr);
  }

  method DeleteProperty(id: string, t: Table<Property>) returns (err: Option<ServiceError>)
    requires t.Valid()
    modifies t
    ensures t.Valid()
    ensures var c := Deleted(id, old(t.View()));
            err == c.err && t.View() == c.after && t.log == old(t.log) + c.calls
  {
    if id == "" {
      return Some(IdMissing);
    }
    var e := t.DeleteItem(id);
    if e.Some? {
      return Some(ServiceError(Persistence, e));
    }
    return None;
  }

  method PersistProperty(property: Property, t: Table<Property>, marshalErr: Option<string>)
    returns (persisted: Option<Property>, err: Option<ServiceError>)
    requires t.Valid()
    modifies t
    ensures t.Valid()
    ensures var o := Persisted(property, old(t.View()), marshalErr);
            persisted == o.result && err == o.err && t.View() == o.after && t.log == old(t.log) + o.calls
  {
    if marshalErr.Some? {
      return None, Some(ServiceError(Unmarshal, marshalErr));
    }
    var e := t.PutItem(property.id, property);
    if e.Some? {
      return None, Some(ServiceError(Persistence, e));
    }
    return Some(property), None;
  }
}

# propertyServer in Dafny

A model of the core of a small CRUD backend for one resource, a `Property` (an id, a
name, a rent). A Lambda entry point routes API-gateway requests by HTTP method and the
`id` path parameter to a service layer. The service validates its input, makes one call to
a DynamoDB table and wraps any failure in a five-kind error taxonomy (Query, Unmarshal,
NotFound, Invalid, Persistence).

Files:

- `wrappers.dfy`: `Option`. It stands for Go's nil-able pointers and errors.
- `dynamo.dfy`: the table. `Store` is the table as a value: the items by key, the scan
  order, and an injected failure that every call fails with, like the `err` field of the
  test fake. `Table` is a class with those fields. Its `PutItem` and `DeleteItem` update the
  fields in place; `Scan` and `GetItem` leave them as they are. Every call is appended
  to a `log`.
- `property.dfy`: the service (`property/property.go`). Each operation is a function
  from a `Store` to an `Outcome`: the value or error returned, the table afterwards, and
  the store calls made. Each is also a method over a `Table`, proved to do exactly what
  the function says.
- `router.dfy`: the router (`main.go`). `HandleRequest` is a pure function of the
  request, the table and an `Env`. The `Env` holds what lies outside the code: the
  generated UUID, the body decoder, and the failures of the item codec and of the
  response encoder.

On these edges the model follows the code as written:

- The Get, Post and Put handlers overwrite the service error with the encoder's. The
  answer is therefore 200 whenever encoding succeeds (`ServiceErrorDiscarded`).
- A Get of a missing id answers 200 with body `null`. No path answers 404
  (`NotFoundIsNull`, `HandleRequest`).
- A Create with an empty name answers 200 with body `null`, and so does a Put whose
  path id differs from the body's id (`PutMismatchChangesNothing`).
- Update does not check the name, so a record with an empty name can be stored
  (`UpdateStoresEmptyName`).
- A failed delete answers 500 with the body "JSON Transformation Error".

As written, `main.go` would not compile. In `prop, err := ...; propJSON, err :=
json.Marshal(prop)` the second line re-assigns an `error` to a `*ServiceError` variable.
`handleDelete` returns a `*ServiceError` as an `error`, and that type has no `Error()`
method. The model takes the evident reading:

- the encoder's error replaces the service's;
- a failed delete returns the service error itself (`Fault.Failed`).

## Model

| member | source | states |
|---|---|---|
| Dynamo.Table.Scan | property/property_test.go:53-60 | a scan returns every item in scan order, or nothing and the injected error; the table is unchanged and the call is logged |
| Dynamo.Table.GetItem | property/property_test.go:45-51 | a lookup returns the item under the key, or none when there is none, or nothing and the injected error; the table is unchanged |
| Dynamo.Table.PutItem | property/property_test.go:62-66 | a put replaces or adds the item under the key and keeps the scan order valid; a failing put changes nothing and returns the injected error |
| Dynamo.Table.DeleteItem | property/property.go:168-177 | a delete removes the key from the items and from the scan order; a failing delete changes nothing |
| Dynamo.ListingCoversStore | property/property.go:63-81 | a scan yields exactly as many items as are stored, and includes every stored item and only stored items |
| Dynamo.DeleteIdempotent | property/property.go:168-186 | deleting a key twice leaves the table as deleting it once does |
| Dynamo.ListingAfterPutExisting | property/property.go:201-206 | a put under a stored key keeps the scan order and replaces only that key's item in the listing |
| PropertyService.ErrorTextsDistinct | property/property.go:28-43 | the five error-kind strings are pairwise different, so the string identifies the kind |
| PropertyService.Listed | property/property.go:55-82 | one scan: a failed scan is a Query error; a failed decoding of a non-empty scan is an Unmarshal error; otherwise every stored property is listed; a successful scan of an empty table always gives an empty, non-nil list; exactly one of value and error is present |
| PropertyService.Got | property/property.go:85-124 | one lookup: a failing lookup is Query, a missing item is NotFound with a nil cause and never a property, a decoding failure is Unmarshal, and otherwise the stored property comes back |
| PropertyService.Persisted | property/property.go:190-217 | a failed encoding is Unmarshal with no store call; otherwise one put; a failed put is Persistence with the table unchanged; on success the input comes back verbatim and is stored under its id |
| PropertyService.Created | property/property.go:127-140 | an empty name is Invalid ("Name missing") with no store call; otherwise the id is replaced by the generated one and name and rent come back unchanged |
| PropertyService.Updated | property/property.go:143-154 | an empty path id, or one different from the payload's id, is Invalid ("Id missing") with no store call; otherwise the payload is written and returned as is |
| PropertyService.Deleted | property/property.go:157-187 | an empty id is Invalid with no store call; otherwise one delete; a failure is Persistence with the table unchanged; success returns no error and removes the key |
| PropertyService.WritesKeepKeyedById | property/property.go:136-153 | create (with a non-empty UUID), update and delete keep every item stored under its own non-empty id |
| PropertyService.UpdateStoresEmptyName | property/property.go:143-153 | every property with an empty name and a non-empty id, updated under its own id, is returned and written when nothing fails: the name is never checked |
| PropertyService.CreateThenGet | property/property.go:127-140 | what a successful create returns is what a get of the generated id finds |
| PropertyService.UpdateThenGet | property/property.go:143-153 | after a successful update, a get of the id finds exactly the payload |
| PropertyService.DeleteThenGet | property/property.go:157-186 | after a successful delete, a get of the id is NotFound |
| PropertyService.DeleteTwice | property/property.go:157-186 | a second delete of the same id also succeeds and changes nothing |
| PropertyService.CreateThenList | property/property.go:126-140 | when the UUID is new to the table, a list after a create holds the old list's properties plus the created one (as multisets); in the model's scan order the created one comes last |
| PropertyService.UpdateThenList | property/property.go:143-153 | updating a stored id replaces its item in place in the list; the length and every other item stay the same |
| PropertyService.GetPropertyList | property/property.go:55-82 | the method returns, leaves and logs what `Listed` says |
| PropertyService.GetProperty | property/property.go:85-124 | the method returns, leaves and logs what `Got` says |
| PropertyService.CreateProperty | property/property.go:127-140 | the method returns, leaves and logs what `Created` says |
| PropertyService.UpdateProperty | property/property.go:143-154 | the method returns, leaves and logs what `Updated` says |
| PropertyService.DeleteProperty | property/property.go:157-187 | the method returns, leaves and logs what `Deleted` says |
| PropertyService.PersistProperty | property/property.go:190-217 | the method returns, leaves and logs what `Persisted` says |
| Router.RaiseError | main.go:90-92 | the response has the given status and the message as body, and the error is non-nil with the same text (for every refusal: `RefusalsCarryTheirMessage`) |
| Router.HandleGetList | main.go:94-104 | the table and calls are the scan's; the answer is 200 with the list, or `null` when the service failed, and no error; only a failed encoding of a non-empty list gives 500 "JSON Transformation Error" with the encoder's error |
| Router.HandleGet | main.go:106-116 | the table and calls are the lookup's; the answer is 200 with the property, or `null` when the service failed, and no error; only a failed encoding of a found property gives 500 with the encoder's error |
| Router.HandlePost | main.go:118-131 | the decoded body goes to create; the table and calls are the create's; the answer is 200 with the result or `null`, and no error; only a failed encoding of a created property gives 500 with the encoder's error, the write kept |
| Router.HandlePut | main.go:133-146 | the decoded body goes to update under the path id; the table and calls are the update's; the answer is 200 with the result or `null`, and no error; only a failed encoding of an updated property gives 500 with the encoder's error, the write kept |
| Router.HandleDelete | main.go:148-157 | status 500 exactly when the service fails: the body is "JSON Transformation Error" and the service error is returned; success is 200 with an empty body and no error |
| Router.HandleRequest | main.go:50-88 | at most one store call per request; 400 exactly for malformed requests (POST without a body, PUT without an id or a body, DELETE without an id); 502 exactly for methods other than GET, POST, PUT and DELETE; neither touches the table; every status is 200, 400, 500 or 502 |
| Router.GetDispatch | main.go:57-62 | GET looks up the `id` path parameter when present and scans the table otherwise |
| Router.PostDispatch | main.go:63-68 | POST with an empty body is 400 "Request Body Cannot Be Empty" with no store call; any other body goes to create |
| Router.PutChecksIdFirst | main.go:69-78 | PUT without an id is 400 "Id parameter missing" whatever the body; with an id and an empty body it is 400 "Request Body Cannot Be Empty"; otherwise it goes to update |
| Router.DeleteAndUnsupported | main.go:79-86 | DELETE without an id is 400 "Id parameter missing", with one it goes to delete; any other method is 502 "HTTP Method Not Supported" |
| Router.RefusalsCarryTheirMessage | main.go:90-92 | every 400 or 502 answer has one of the three fixed messages as body and a non-nil error with the same text |
| Router.ServiceErrorDiscarded | main.go:94-146 | GET, POST and PUT reaching the service answer 200 with no error whenever encoding succeeds; the body is the encoding of nil exactly when the service failed |
| Router.EncodeFailureIs500 | main.go:94-146 | when the encoder fails, GET, POST and PUT reaching the service answer 500 "JSON Transformation Error" with the encoder's error exactly when the service succeeded with something other than an empty list (a write is still done); a failed service gives 200 `null` and an empty table's list 200 `[]`; the table afterwards is the service's |
| Router.NotFoundIsNull | main.go:106-116 | a GET of a missing id answers 200 with body `null` and no error, since a nil pointer always encodes |
| Router.GetFinds | main.go:106-116 | a GET of a stored id answers 200 with that stored property and no error, whenever nothing fails |
| Router.ListOfEmptyTable | main_test.go:13-27 | GET with no id on an empty, healthy table answers 200 with an empty JSON array and a nil error, whatever the item decoder and the encoder would do |
| Router.ListIsArrayOfTable | main.go:94-104 | GET with no id answers a JSON array holding every stored property, with a nil error, whenever nothing fails |
| Router.PostCreates | main.go:118-131 | POST of a named body answers 200 with the property under the generated id, name and rent unchanged, and stores it under that id |
| Router.PutUpdates | main.go:133-146 | a PUT whose path id matches the decoded body's id answers 200 with that property, makes one put and writes it under that id, whenever nothing fails |
| Router.PutMismatchChangesNothing | main.go:133-146 | PUT whose path id differs from the decoded body's id makes no store call, leaves the table as it was and answers 200 with `null` |

## Left out

- The AWS session, the credential loading and the Lambda bootstrap (`main.go:31-47`) are not modelled. The table is passed as a value instead of the package-level `dbSession`. The `context.Context` argument is unused and left out too.
- The DynamoDB client is replaced by `Dynamo.Table`. The real table's scan order is unspecified. The model keeps an explicit order in which new keys go last and a put of an existing key keeps its place.
- DynamoDB's own rejection of an empty key is not modelled. The service never writes one: create uses a UUID and update rejects an empty id. It can read one, though: `GetProperty` has no empty-id guard, and GET passes an `id` path parameter of `""` through. Against DynamoDB that lookup is a Query error; the model's `Got("", ...)` finds no item and answers NotFound.
- The model's scan is one complete page: the whole table in a single response. `GetPropertyList` makes one Scan call and never follows `LastEvaluatedKey`. DynamoDB returns at most 1 MB per Scan, so a larger table is listed only partly, and `ListingCoversStore`, `Listed` and `ListIsArrayOfTable` hold only for tables that fit in one page.
- The model's reads are strongly consistent: every Scan and GetItem sees the last write. Neither call in the source sets `ConsistentRead`, so DynamoDB may serve an older copy. `CreateThenGet`, `UpdateThenGet`, `DeleteThenGet` and `CreateThenList` hold for the model's table, and for the real one only once its writes have propagated.
- The table name `props` is not modelled, because there is one table.
- JSON encoding and decoding and the `dynamodbattribute` marshalling are foreign library code. Request decoding is the function `Env.decode`. Its errors are ignored, as in the source. The marshalling failures are the parameters `unmarshalErr` and `marshalErr`. A response body is `Json(v)`, the encoding of `v`, rather than text. The encoder may fail on any value except a nil pointer and an empty list, which `json.Marshal` always encodes.
- UUID generation is the parameter `freshId`. Randomness and global uniqueness are not modelled. Only `CreateThenList` assumes the id is new to the table. `uuid.Must` panics when `uuid.NewRandom` fails; the model's `freshId` never fails, so that panic is not modelled.
- `Rent` is a `float32` in the source. Here it is its 32 bits, since the code only copies it.
- The `fmt.Printf` logging is not modelled.
- `property/main.go`, `restApi/main.go` and `restApi/service/propertyService.go` are earlier revisions and are not part of this model.
- The test files are not modelled. `property/property_test.go` uses the two-result `GetProperty`, `GetPropertyList`, `CreateProperty` and `UpdateProperty` as single values, so it does not match the current signatures.

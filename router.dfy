/**
 * The request router of the Lambda entry point: which service call a request makes,
 * and how the call's result becomes a status code, a body and an error.
 *
 * JSON is not modelled as text. A response body is either plain text or the JSON
 * encoding of a value; decoding a request body is the function `Env.decode`, whose
 * failures are ignored as in the source, and encoding may fail with `Env.encodeErr`.
 */
module Router {
  import opened Wrappers
  import opened Dynamo
  import opened PropertyService

  const IdParameterName := "id"

  const HttpMethodNotSupported := "HTTP Method Not Supported"
  const RequestBodyCannotBeEmpty := "Request Body Cannot Be Empty"
  const IdParameterCannotBeEmpty := "Id parameter missing"
  const JsonTransformationError := "JSON Transformation Error"

  datatype Request = Request(httpMethod: string, pathParameters: map<string, string>, body: string)

  /** A value handed to the JSON encoder; `Null` is a nil pointer. */
  datatype JsonValue = Null | Object(property: Property) | Array(properties: seq<Property>)

  datatype Body = Text(text: string) | Json(value: JsonValue)

  datatype Response = Response(statusCode: int, body: Body)

  /** A non-nil error returned beside the response. */
  datatype Fault = Message(text: string) | Failed(serviceError: ServiceError)

  datatype Answer = Answer(response: Response, err: Option<Fault>)

  /** The answer to one request, the table after it and the store calls it caused. */
  datatype Served = Served(answer: Answer, after: Store<Property>, calls: seq<Call<Property>>)

  /**
   * What lies outside the router and the service: the UUID a create generates, the
   * decoder of request bodies, and the failures of item decoding, item encoding and
   * response encoding.
   */
  datatype Env = Env(
    freshId: string,
    decode: string -> Property,
    unmarshalErr: Option<string>,
    marshalErr: Option<string>,
    encodeErr: Option<string>)

  /** The response and error for a request refused before any service call. */
  function RaiseError(statusCode: int, errorMessage: string): (a: Answer)
    ensures a.response.statusCode == statusCode
    ensures a.response.body.Text? && a.response.body.text == errorMessage
    ensures a.err.Some? && a.err.value == Message(a.response.body.text)
  {
    Answer(Response(statusCode, Text(errorMessage)), Some(Message(errorMessage)))
  }

  /** The values the JSON encoder cannot fail on: a nil pointer and an empty list. */
  predicate AlwaysEncodes(v: JsonValue) {
    v == Null || v == Array([])
  }

  /**
   * The answer once `v` goes through the JSON encoder: 200 with its encoding, or 500.
   * A nil pointer always encodes, as `null`, and an empty list as `[]`.
   */
  function Marshalled(v: JsonValue, encodeErr: Option<string>): Answer {
    if encodeErr.Some? && !AlwaysEncodes(v) then
      Answer(Response(500, Text(JsonTransformationError)), Some(Message(encodeErr.value)))
    else Answer(Response(200, Json(v)), None)
  }

  function PropertyJson(p: Option<Property>): JsonValue {
    if p.Some? then Object(p.value) else Null
  }

  function ListJson(l: Option<seq<Property>>): JsonValue {
    if l.Some? then Array(l.value) else Null
  }

  // In the four handlers below that encode a result, the service's error is replaced by
  // the encoder's: only the value, nil on failure, reaches the response.

  /** 200 with the list (or `null`), unless encoding a non-empty list fails: then 500. */
  function HandleGetList(db: Store<Property>, env: Env): (s: Served)
    requires db.Valid()
    ensures var o := Listed(db, env.unmarshalErr);
            s.after == o.after && s.calls == o.calls &&
            (o.result.None? || o.result.value == [] || env.encodeErr.None? ==>
               s.answer == Answer(Response(200, Json(ListJson(o.result))), None)) &&
            (o.result.Some? && o.result.value != [] && env.encodeErr.Some? ==>
               s.answer == Answer(Response(500, Text(JsonTransformationError)), Some(Message(env.encodeErr.value))))
  {
    var o := Listed(db, env.unmarshalErr);
    Served(Marshalled(ListJson(o.result), env.encodeErr), o.after, o.calls)
  }

  /** 200 with the property (or `null`), unless encoding a found property fails: then 500. */
  function HandleGet(id: string, db: Store<Property>, env: Env): (s: Served)
    ensures var o := Got(id, db, env.unmarshalErr);
            s.after == o.after && s.calls == o.calls &&
            (o.result.None? || env.encodeErr.None? ==>
               s.answer == Answer(Response(200, Json(PropertyJson(o.result))), None)) &&
            (o.result.Some? && env.encodeErr.Some? ==>
               s.answer == Answer(Response(500, Text(JsonTransformationError)), Some(Message(env.encodeErr.value))))
  {
    var o := Got(id, db, env.unmarshalErr);
    Served(Marshalled(PropertyJson(o.result), env.encodeErr), o.after, o.calls)
  }

  /** Creates the decoded body; 200 with the result (or `null`), or 500 when encoding a created property fails. */
  function HandlePost(requestBody: string, db: Store<Property>, env: Env): (s: Served)
    ensures var o := Created(env.decode(requestBody), env.freshId, db, env.marshalErr);
            s.after == o.after && s.calls == o.calls &&
            (o.result.None? || env.encodeErr.None? ==>
               s.answer == Answer(Response(200, Json(PropertyJson(o.result))), None)) &&
            (o.result.Some? && env.encodeErr.Some? ==>
               s.answer == Answer(Response(500, Text(JsonTransformationError)), Some(Message(env.encodeErr.value))))
  {
    var o := Created(env.decode(requestBody), env.freshId, db, env.marshalErr);
    Served(Marshalled(PropertyJson(o.result), env.encodeErr), o.after, o.calls)
  }

  /** Updates with the decoded body; 200 with the result (or `null`), or 500 when encoding an updated property fails. */
  function HandlePut(id: string, requestBody: string, db: Store<Property>, env: Env): (s: Served)
    ensures var o := Updated(id, env.decode(requestBody), db, env.marshalErr);
            s.after == o.after && s.calls == o.calls &&
            (o.result.None? || env.encodeErr.None? ==>
               s.answer == Answer(Response(200, Json(PropertyJson(o.result))), None)) &&
            (o.result.Some? && env.encodeErr.Some? ==>
               s.answer == Answer(Response(500, Text(JsonTransformationError)), Some(Message(env.encodeErr.value))))
  {
    var o := Updated(id, env.decode(requestBody), db, env.marshalErr);
    Served(Marshalled(PropertyJson(o.result), env.encodeErr), o.after, o.calls)
  }

  /** Any service failure is a 500 (with the encoder's message as body); success is 200, empty. */
  function HandleDelete(id: string, db: Store<Property>): (s: Served)
    ensures var c := Deleted(id, db);
            s.after == c.after && s.calls == c.calls &&
            (c.err.Some? <==> s.answer.response.statusCode == 500) &&
            (c.err.Some? ==> s.answer == Answer(Response(500, Text(JsonTransformationError)), Some(Failed(c.err.value)))) &&
            (c.err.None? ==> s.answer == Answer(Response(200, Text("")), None))
  {
    var c := Deleted(id, db);
    if c.err.Some? then Served(Answer(Response(500, Text(JsonTransformationError)), Some(Failed(c.err.value))), c.after, c.calls)
    else Served(Answer(Response(200, Text("")), None), c.after, c.calls)
  }

  predicate HasId(req: Request) {
    IdParameterName in req.pathParameters
  }

  predicate Supported(m: string) {
    m == "GET" || m == "POST" || m == "PUT" || m == "DELETE"
  }

  /** The request is refused for its shape: a missing id or an empty body where one is needed. */
  predicate Malformed(req: Request) {
    (req.httpMethod == "POST" && req.body == "") ||
    (req.httpMethod == "PUT" && (!HasId(req) || req.body == "")) ||
    (req.httpMethod == "DELETE" && !HasId(req))
  }

  /**
   * Routes one request. At most one store call is made; 400 answers exactly the
   * malformed requests and 502 exactly the unsupported methods, and neither touches
   * the table; every other answer is 200 or 500 (a missing item is never a 404).
   */
  function HandleRequest(req: Request, db: Store<Property>, env: Env): (s: Served)
    requires db.Valid()
    ensures s.after.Valid()
    ensures |s.calls| <= 1
    ensures s.calls == [] ==> s.after == db
    ensures s.answer.response.statusCode in {200, 400, 500, 502}
    ensures s.answer.response.statusCode == 502 <==> !Supported(req.httpMethod)
    ensures s.answer.response.statusCode == 400 <==> Malformed(req)
    ensures s.answer.response.statusCode in {400, 502} ==> s.calls == []
  {
    if req.httpMethod == "GET" then
      if HasId(req) then HandleGet(req.pathParameters[IdParameterName], db, env)
      else HandleGetList(db, env)
    else if req.httpMethod == "POST" then
      if req.body == "" then Served(RaiseError(400, RequestBodyCannotBeEmpty), db, [])
      else HandlePost(req.body, db, env)
    else if req.httpMethod == "PUT" then
      if HasId(req) then
        if req.body == "" then Served(RaiseError(400, RequestBodyCannotBeEmpty), db, [])
        else HandlePut(req.pathParameters[IdParameterName], req.body, db, env)
      else Served(RaiseError(400, IdParameterCannotBeEmpty), db, [])
    else if req.httpMethod == "DELETE" then
      if HasId(req) then HandleDelete(req.pathParameters[IdParameterName], db)
      else Served(RaiseError(400, IdParameterCannotBeEmpty), db, [])
    else Served(RaiseError(502, HttpMethodNotSupported), db, [])
  }

  /** GET looks up the `id` path parameter when there is one and scans the table otherwise. */
  lemma GetDispatch(req: Request, db: Store<Property>, env: Env)
    requires db.Valid() && req.httpMethod == "GET"
    ensures HandleRequest(req, db, env).calls ==
              if HasId(req) then [GetItemOp(req.pathParameters[IdParameterName])] else [ScanOp]
  {
  }

  /** POST with an empty body is refused with 400; any other body goes to create. */
  lemma PostDispatch(req: Request, db: Store<Property>, env: Env)
    requires db.Valid() && req.httpMethod == "POST"
    ensures req.body == "" ==> HandleRequest(req, db, env) == Served(RaiseError(400, RequestBodyCannotBeEmpty), db, [])
    ensures req.body != "" ==> HandleRequest(req, db, env) == HandlePost(req.body, db, env)
  {
  }

  /** PUT checks the id before the body: no id is "Id parameter missing" whatever the body. */
  lemma PutChecksIdFirst(req: Request, db: Store<Property>, env: Env)
    requires db.Valid() && req.httpMethod == "PUT"
    ensures !HasId(req) ==> HandleRequest(req, db, env).answer == RaiseError(400, IdParameterCannotBeEmpty)
    ensures HasId(req) && req.body == "" ==> HandleRequest(req, db, env).answer == RaiseError(400, RequestBodyCannotBeEmpty)
    ensures HasId(req) && req.body != "" ==>
              HandleRequest(req, db, env) == HandlePut(req.pathParameters[IdParameterName], req.body, db, env)
  {
  }

  /** DELETE without an id is refused with 400; unsupported methods get 502. */
  lemma DeleteAndUnsupported(req: Request, db: Store<Property>, env: Env)
    requires db.Valid()
    ensures req.httpMethod == "DELETE" && !HasId(req) ==>
              HandleRequest(req, db, env).answer == RaiseError(400, IdParameterCannotBeEmpty)
    ensures req.httpMethod == "DELETE" && HasId(req) ==>
              HandleRequest(req, db, env) == HandleDelete(req.pathParameters[IdParameterName], db)
    ensures !Supported(req.httpMethod) ==> HandleRequest(req, db, env).answer == RaiseError(502, HttpMethodNotSupported)
  {
  }

  /** Every refusal has its message as body and a non-nil error with that same text. */
  lemma RefusalsCarryTheirMessage(req: Request, db: Store<Property>, env: Env)
    requires db.Valid()
    ensures var a := HandleRequest(req, db, env).answer;
            a.response.statusCode in {400, 502} ==>
              a.response.body.Text? && a.err == Some(Message(a.response.body.text)) &&
              a.response.body.text in {RequestBodyCannotBeEmpty, IdParameterCannotBeEmpty, HttpMethodNotSupported}
  {
  }

  /**
   * GET, POST and PUT that reach the service answer 200 with no error whenever the encoder succeeds,
   * even when the service failed: the body is then the encoding of nil.
   */
  lemma ServiceErrorDiscarded(req: Request, db: Store<Property>, env: Env)
    requires db.Valid() && env.encodeErr.None?
    requires req.httpMethod == "GET" ||
             (req.httpMethod == "POST" && req.body != "") ||
             (req.httpMethod == "PUT" && HasId(req) && req.body != "")
    ensures var a := HandleRequest(req, db, env).answer;
            a.response.statusCode == 200 && a.err.None? && a.response.body.Json?
    ensures var id := if HasId(req) then req.pathParameters[IdParameterName] else "";
            var failed :=
              if req.httpMethod == "GET" && !HasId(req) then Listed(db, env.unmarshalErr).err.Some?
              else if req.httpMethod == "GET" then Got(id, db, env.unmarshalErr).err.Some?
              else if req.httpMethod == "POST" then Created(env.decode(req.body), env.freshId, db, env.marshalErr).err.Some?
              else Updated(id, env.decode(req.body), db, env.marshalErr).err.Some?;
            HandleRequest(req, db, env).answer.response.body == Json(Null) <==> failed
  {
  }

  /**
   * GET, POST and PUT that reach the service answer 500 "JSON Transformation Error", with
   * the encoder's error, whenever the encoder fails on a result: the write, if any, is
   * still done. A nil result (the service failed) still encodes, as 200 `null`, and so
   * does the empty list of an empty table, as 200 `[]`.
   */
  lemma EncodeFailureIs500(req: Request, db: Store<Property>, env: Env)
    requires db.Valid() && env.encodeErr.Some?
    requires req.httpMethod == "GET" ||
             (req.httpMethod == "POST" && req.body != "") ||
             (req.httpMethod == "PUT" && HasId(req) && req.body != "")
    ensures var id := if HasId(req) then req.pathParameters[IdParameterName] else "";
            var failed :=
              if req.httpMethod == "GET" && !HasId(req) then Listed(db, env.unmarshalErr).err.Some?
              else if req.httpMethod == "GET" then Got(id, db, env.unmarshalErr).err.Some?
              else if req.httpMethod == "POST" then Created(env.decode(req.body), env.freshId, db, env.marshalErr).err.Some?
              else Updated(id, env.decode(req.body), db, env.marshalErr).err.Some?;
            var emptyList := req.httpMethod == "GET" && !HasId(req) && db.items == map[];
            var s := HandleRequest(req, db, env);
            (s.answer.response.statusCode == 500 <==> !failed && !emptyList) &&
            (!failed && !emptyList ==>
               s.answer == Answer(Response(500, Text(JsonTransformationError)), Some(Message(env.encodeErr.value)))) &&
            (failed ==> s.answer == Answer(Response(200, Json(Null)), None)) &&
            (!failed && emptyList ==> s.answer == Answer(Response(200, Json(Array([]))), None))
    ensures var id := if HasId(req) then req.pathParameters[IdParameterName] else "";
            HandleRequest(req, db, env).after ==
              if req.httpMethod == "GET" && !HasId(req) then Listed(db, env.unmarshalErr).after
              else if req.httpMethod == "GET" then Got(id, db, env.unmarshalErr).after
              else if req.httpMethod == "POST" then Created(env.decode(req.body), env.freshId, db, env.marshalErr).after
              else Updated(id, env.decode(req.body), db, env.marshalErr).after
  {
  }

  /** A missing item is answered 200 with the encoding of nil, not 404. */
  lemma NotFoundIsNull(req: Request, db: Store<Property>, env: Env)
    requires db.Valid() && db.fault.None?
    requires req.httpMethod == "GET" && HasId(req) && req.pathParameters[IdParameterName] !in db.items
    ensures HandleRequest(req, db, env).answer == Answer(Response(200, Json(Null)), None)
  {
  }

  /** GET with no id on an empty table answers 200 with an empty JSON array and no error. */
  lemma ListOfEmptyTable(req: Request, db: Store<Property>, env: Env)
    requires db.Valid() && db.items == map[] && db.fault.None?
    requires req.httpMethod == "GET" && !HasId(req)
    ensures HandleRequest(req, db, env).answer == Answer(Response(200, Json(Array([]))), None)
  {
  }

  /** GET with no id answers a JSON array of every stored property, whenever nothing fails. */
  lemma ListIsArrayOfTable(req: Request, db: Store<Property>, env: Env)
    requires db.Valid() && db.fault.None? && env.unmarshalErr.None? && env.encodeErr.None?
    requires req.httpMethod == "GET" && !HasId(req)
    ensures var a := HandleRequest(req, db, env).answer;
            a.err.None? && a.response.statusCode == 200 && a.response.body.Json? && a.response.body.value.Array? &&
            |a.response.body.value.properties| == |db.items| &&
            forall k | k in db.items :: db.items[k] in a.response.body.value.properties
  {
  }

  /** POST of a named property answers it with the generated id and stores it under that id. */
  lemma PostCreates(req: Request, db: Store<Property>, env: Env)
    requires db.Valid() && db.fault.None? && env.marshalErr.None? && env.encodeErr.None?
    requires req.httpMethod == "POST" && req.body != "" && env.decode(req.body).name != ""
    ensures var p := env.decode(req.body);
            var created := Property(env.freshId, p.name, p.rent);
            var s := HandleRequest(req, db, env);
            s.answer == Answer(Response(200, Json(Object(created))), None) &&
            s.after.items == db.items[env.freshId := created]
  {
  }

  /** GET of a stored id answers 200 with the stored property and no error, whenever nothing fails. */
  lemma GetFinds(req: Request, db: Store<Property>, env: Env)
    requires db.Valid() && db.fault.None? && env.unmarshalErr.None? && env.encodeErr.None?
    requires req.httpMethod == "GET" && HasId(req) && req.pathParameters[IdParameterName] in db.items
    ensures HandleRequest(req, db, env).answer ==
              Answer(Response(200, Json(Object(db.items[req.pathParameters[IdParameterName]]))), None)
  {
  }

  /** PUT whose path id matches the body's answers the decoded property and writes it under that id. */
  lemma PutUpdates(req: Request, db: Store<Property>, env: Env)
    requires db.Valid() && db.fault.None? && env.marshalErr.None? && env.encodeErr.None?
    requires req.httpMethod == "PUT" && HasId(req) && req.body != ""
    requires req.pathParameters[IdParameterName] != "" && env.decode(req.body).id == req.pathParameters[IdParameterName]
    ensures var p := env.decode(req.body);
            var s := HandleRequest(req, db, env);
            s.answer == Answer(Response(200, Json(Object(p))), None) &&
            s.calls == [PutItemOp(p.id, p)] && s.after.items == db.items[p.id := p]
  {
  }

  /** PUT whose path id differs from the body's id changes nothing and answers 200 with nil. */
  lemma PutMismatchChangesNothing(req: Request, db: Store<Property>, env: Env)
    requires db.Valid()
    requires req.httpMethod == "PUT" && HasId(req) && req.body != ""
    requires env.decode(req.body).id != req.pathParameters[IdParameterName]
    ensures var s := HandleRequest(req, db, env);
            s.calls == [] && s.after == db && s.answer == Answer(Response(200, Json(Null)), None)
  {
  }
}

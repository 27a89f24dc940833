/** The query service: the `/process` handler's chain of guards, the OPTIONS
    short-circuit, `/health`, and the 404/405 handlers. A response is a status
    code and the string fields of its JSON body; the hosted generator is a
    function from the trimmed query to an `Outcome`. */
module Server {
  import opened Common
  import opened Text

  /** A decoded JSON document. Numbers are kept as exact reals. */
  datatype Json =
    | JNull
    | JBool(b: bool)
    | JNum(n: real)
    | JStr(s: string)
    | JArr(items: seq<Json>)
    | JObj(fields: map<string, Json>)

  /** A request body as the handler sees it: whether the declared content type
      is JSON, and the silent forced parse (`None` when the body is not JSON). */
  datatype Payload = Payload(isJson: bool, parsed: Option<Json>)

  datatype Request = Request(verb: string, path: string, payload: Payload)

  datatype Response = Response(code: int, body: map<string, string>)

  const ContentTypeError := "Content-Type must be application/json"
  const InvalidJsonError := "Invalid JSON format"
  const NoDataError := "No data received"
  const InvalidQueryError := "Valid query parameter is required"
  const EmptyQueryError := "Query cannot be empty"
  const GenerationError := "AI processing failed"
  const EmptyGenerationDetail := "Empty response from AI model"
  const InternalError := "Internal server error"
  /** The model name reported on success (the configured model is a different
      one; the handler reports this constant). */
  const ReportedModel := "gemini-1.5-flash"

  /** Python truthiness of a decoded value. */
  predicate Truthy(j: Json)
  {
    match j
    case JNull => false
    case JBool(b) => b
    case JNum(n) => n != 0.0
    case JStr(s) => s != []
    case JArr(xs) => xs != []
    case JObj(m) => m != map[]
  }

  /** An error document: an `error` field and `status` "error". */
  predicate IsErrorDocument(r: Response)
  {
    "error" in r.body && "status" in r.body && r.body["status"] == "error"
  }

  function Failure(code: int, message: string): (r: Response)
    ensures r.code == code && IsErrorDocument(r) && r.body["error"] == message
  {
    Response(code, map["error" := message, "status" := "error"])
  }

  /** Evaluating `'query' not in data or not isinstance(data['query'], str)` on
      a truthy payload: the key is missing, its value is found, or Python raises
      (a string or list that passes the `in` test cannot be indexed by a string,
      and `in` on a number or boolean is itself an error). */
  datatype Lookup = Missing | Found(value: Json) | Raises

  function QueryLookup(data: Json): Lookup
  {
    match data
    case JObj(m) => if "query" in m then Found(m["query"]) else Missing
    case JStr(s) => if Contains(s, "query") then Raises else Missing
    case JArr(xs) => if JStr("query") in xs then Raises else Missing
    case _ => Raises
  }

  /** Shaping what the generator produced: failures and empty text are a 500
      that carries the detail, anything else is the answer. */
  function Generated(o: Outcome): (r: Response)
  {
    match o
    case Err(e) =>
      Response(500, map["error" := GenerationError, "details" := e, "status" := "error"])
    case Ok(t) =>
      if t == [] then
        Response(500, map["error" := GenerationError, "details" := EmptyGenerationDetail, "status" := "error"])
      else
        Response(200, map["response" := t, "status" := "success", "model" := ReportedModel])
  }

  /** `process`: each guard in turn, the first failing one answers. */
  function Process(p: Payload, generate: string -> Outcome): Response
  {
    if !p.isJson then Failure(415, ContentTypeError)
    else if p.parsed.None? || p.parsed.value == JNull then Failure(400, InvalidJsonError)
    else
      var data := p.parsed.value;
      if !Truthy(data) then Failure(400, NoDataError)
      else
        match QueryLookup(data)
        case Raises => Failure(500, InternalError)
        case Missing => Failure(400, InvalidQueryError)
        case Found(v) =>
          if !v.JStr? then Failure(400, InvalidQueryError)
          else
            var query := Strip(v.s);
            if query == [] then Failure(400, EmptyQueryError)
            else Generated(generate(query))
  }

  function Preflight(): (r: Response)
    ensures r.code == 200 && "status" in r.body && r.body["status"] == "preflight"
  {
    Response(200, map["status" := "preflight"])
  }

  /** `health_check` (the timestamp is not modelled). */
  function Health(): (r: Response)
    ensures r.code == 200 && "status" in r.body && r.body["status"] == "healthy"
  {
    Response(200, map["status" := "healthy"])
  }

  /** Routing: OPTIONS is answered before any route is looked at; `/process`
      takes POST, `/health` takes GET (and the HEAD Flask adds to it); any other
      method on them is a 405 and any other path a 404. */
  function Handle(req: Request, generate: string -> Outcome): Response
  {
    if req.verb == "OPTIONS" then Preflight()
    else if req.path == "/process" then
      if req.verb == "POST" then Process(req.payload, generate) else Failure(405, "Method not allowed")
    else if req.path == "/health" then
      if req.verb == "GET" || req.verb == "HEAD" then Health() else Failure(405, "Method not allowed")
    else Failure(404, "Endpoint not found")
  }

  /** The query the generator should receive, stated without the guard chain:
      a JSON object with a string `query` that is not all white space, trimmed. */
  function AcceptedQuery(p: Payload): (q: Option<string>)
    ensures q.Some? ==> q.value != [] && !IsSpace(q.value[0]) && !IsSpace(q.value[|q.value| - 1])
  {
    if p.isJson && p.parsed.Some? && p.parsed.value.JObj?
       && "query" in p.parsed.value.fields && p.parsed.value.fields["query"].JStr?
       && !AllSpace(p.parsed.value.fields["query"].s)
    then
      var s := p.parsed.value.fields["query"].s;
      StripEmptyIffBlank(s);
      Some(Strip(s))
    else None
  }

  /** A request is passed to the generator exactly when it carries an
      acceptable query, and then with that trimmed query. */
  lemma AcceptedReachesGenerator(p: Payload, generate: string -> Outcome)
    requires AcceptedQuery(p).Some?
    ensures Process(p, generate) == Generated(generate(AcceptedQuery(p).value))
  {
    var m := p.parsed.value.fields;
    var s := m["query"].s;
    assert Truthy(p.parsed.value) by { assert "query" in m; }
    assert QueryLookup(p.parsed.value) == Found(JStr(s));
    StripEmptyIffBlank(s);
  }

  /** Every other request is answered by a guard with an error document,
      whatever the generator would have said. */
  lemma RejectedBeforeGenerator(p: Payload, generate: string -> Outcome, other: string -> Outcome)
    requires AcceptedQuery(p).None?
    ensures Process(p, other) == Process(p, generate)
    ensures Process(p, generate).code in {400, 415, 500} && IsErrorDocument(Process(p, generate))
  {
    if !p.isJson || p.parsed.None? || p.parsed.value == JNull || !Truthy(p.parsed.value) {
    } else {
      var data := p.parsed.value;
      match QueryLookup(data)
      case Raises =>
      case Missing =>
      case Found(v) =>
        if v.JStr? {
          assert data.JObj? && "query" in data.fields && data.fields["query"] == v;
          StripEmptyIffBlank(v.s);
          assert Strip(v.s) == [];
        }
    }
  }

  /** What the generator's outcome becomes. */
  lemma GeneratedShapes(o: Outcome)
    ensures Generated(o).code == 200 <==> o.Ok? && o.text != []
    ensures Generated(o).code == 200 ==>
              "status" in Generated(o).body && Generated(o).body["status"] == "success"
              && "response" in Generated(o).body && Generated(o).body["response"] == o.text
    ensures Generated(o).code != 200 ==>
              Generated(o).code == 500 && IsErrorDocument(Generated(o))
              && Generated(o).body["error"] == GenerationError && "details" in Generated(o).body
    ensures o.Err? ==> "details" in Generated(o).body && Generated(o).body["details"] == o.message
    ensures o == Ok([]) ==> "details" in Generated(o).body && Generated(o).body["details"] == EmptyGenerationDetail
  {
  }

  /** The service answers 200 exactly when the query is acceptable and the
      generator returns non-empty text, and the answer is that text. */
  lemma SuccessIff(p: Payload, generate: string -> Outcome)
    ensures Process(p, generate).code == 200 <==>
              AcceptedQuery(p).Some? && generate(AcceptedQuery(p).value).Ok?
              && generate(AcceptedQuery(p).value).text != []
    ensures Process(p, generate).code == 200 ==>
              "response" in Process(p, generate).body
              && Process(p, generate).body["response"] == generate(AcceptedQuery(p).value).text
  {
    if AcceptedQuery(p).Some? {
      AcceptedReachesGenerator(p, generate);
      GeneratedShapes(generate(AcceptedQuery(p).value));
    } else {
      RejectedBeforeGenerator(p, generate, generate);
    }
  }

  /** The content type is checked before the body is even parsed. */
  lemma ContentTypeFirst(p: Payload, generate: string -> Outcome)
    requires !p.isJson
    ensures Process(p, generate) == Failure(415, ContentTypeError)
  {
  }

  /** A body that does not parse, or parses to `null`, is invalid JSON; any
      other falsy document (false, 0, "", [], {}) carries no data. */
  lemma UnusableBodies(p: Payload, generate: string -> Outcome)
    requires p.isJson
    ensures p.parsed.None? || p.parsed == Some(JNull) ==> Process(p, generate) == Failure(400, InvalidJsonError)
    ensures (p.parsed.Some? && p.parsed.value != JNull && !Truthy(p.parsed.value))
              ==> Process(p, generate) == Failure(400, NoDataError)
  {
  }

  /** In an object, a missing `query` or one that is not a string is refused,
      and so is one that is only white space. */
  lemma QueryFieldGuards(m: map<string, Json>, generate: string -> Outcome)
    requires m != map[]
    ensures var r := Process(Payload(true, Some(JObj(m))), generate);
      && ("query" !in m || !m["query"].JStr? ==> r == Failure(400, InvalidQueryError))
      && ("query" in m && m["query"].JStr? && AllSpace(m["query"].s) ==> r == Failure(400, EmptyQueryError))
  {
    if "query" in m && m["query"].JStr? {
      StripEmptyIffBlank(m["query"].s);
    }
  }

  /** A truthy payload that is not an object never reaches the generator: it is
      a 400 when the `in` test fails and the catch-all 500 otherwise. */
  lemma NonObjectPayloads(j: Json, generate: string -> Outcome)
    requires Truthy(j) && !j.JObj?
    ensures var r := Process(Payload(true, Some(j)), generate);
      r == Failure(400, InvalidQueryError) || r == Failure(500, InternalError)
    ensures j.JNum? || j.JBool? ==> Process(Payload(true, Some(j)), generate) == Failure(500, InternalError)
  {
  }

  /** Every answer of `/process` is a 200 success or an error document. */
  lemma ProcessShapes(p: Payload, generate: string -> Outcome)
    ensures var r := Process(p, generate);
      && r.code in {200, 400, 415, 500}
      && (r.code != 200 ==> IsErrorDocument(r))
      && (r.code == 200 ==> "status" in r.body && r.body["status"] == "success")
  {
    if AcceptedQuery(p).Some? {
      AcceptedReachesGenerator(p, generate);
      GeneratedShapes(generate(AcceptedQuery(p).value));
    } else {
      RejectedBeforeGenerator(p, generate, generate);
    }
  }

  /** Every response the service gives that is not a 200 is an error document:
      it has an `error` field and `status` "error"; a 200 is a success, the
      preflight answer or the health answer. */
  lemma ResponseShapes(req: Request, generate: string -> Outcome)
    ensures var r := Handle(req, generate);
      && r.code in {200, 400, 404, 405, 415, 500}
      && (r.code != 200 ==> IsErrorDocument(r))
      && (r.code == 200 ==> "status" in r.body && r.body["status"] in {"success", "preflight", "healthy"})
  {
    if req.verb != "OPTIONS" && req.path == "/process" && req.verb == "POST" {
      ProcessShapes(req.payload, generate);
    }
  }

  /** OPTIONS is answered with the preflight document on every path, and
      `/health` always reports healthy to GET. */
  lemma FixedAnswers(req: Request, generate: string -> Outcome)
    ensures req.verb == "OPTIONS" ==> Handle(req, generate) == Preflight()
    ensures req.verb == "GET" && req.path == "/health" ==> Handle(req, generate) == Health()
    ensures (req.verb != "OPTIONS" && req.path != "/process" && req.path != "/health")
              ==> Handle(req, generate) == Failure(404, "Endpoint not found")
  {
  }
}

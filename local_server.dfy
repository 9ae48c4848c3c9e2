/** The local HTTP front of the analysis runner (local-runner/local-server.py): a health
    check, and a processing endpoint that classifies a request into a 400, 202 or 500
    response before handing it to a background processor. */
module LocalServer {
  import opened Common

  /** What the endpoint answers: a status code and a JSON body with either a "status" or an
      "error" entry. */
  datatype Body = Status(status: string) | ErrorBody(error: string)
  datatype Response = Response(code: nat, body: Body)

  /** The parsed JSON of a request, as far as the field test `field in data` sees it: an
      object tests its keys, an array its string items, a string its substrings, and any
      other value (a number, a boolean, null) cannot be searched, so the test raises. */
  datatype Payload =
    | Object(keys: set<string>)
    | Array(strings: seq<string>)
    | Text(text: string)
    | Scalar(typeName: string)

  /** A request: whether it is declared JSON, and what reading its body as JSON gives: the
      parsed value, or the description of the BadRequest raised for a body that does not
      parse. */
  datatype Request = Request(isJson: bool, parsed: Result<Payload, string>)

  /** str() of the BadRequest raised while reading the body: the status line, then the
      description. */
  function BadRequestText(description: string): string
  {
    "400 Bad Request: " + description
  }

  const RequiredFields: seq<string> := ["fileIds", "documentId", "userId"]

  /** Whether `part` occurs in `s` as a contiguous piece. */
  predicate Contains(s: string, part: string)
    decreases |s|
  {
    (|part| <= |s| && s[..|part|] == part) || (s != [] && Contains(s[1..], part))
  }

  /** Python's `field in data`, or the message of the TypeError it raises. */
  function HasField(data: Payload, field: string): (r: Result<bool, string>)
    ensures data.Object? ==> r == Ok(field in data.keys)
    ensures data.Array? ==> r == Ok(field in data.strings)
    ensures r.Err? <==> data.Scalar?
  {
    match data
    case Object(keys) => Ok(field in keys)
    case Array(strings) => Ok(field in strings)
    case Text(text) => Ok(Contains(text, field))
    case Scalar(typeName) => Err("argument of type '" + typeName + "' is not iterable")
  }

  /** `all(field in data for field in fields)`: stops at the first absent field, and raises
      when a test raises. */
  function AllPresent(data: Payload, fields: seq<string>): (r: Result<bool, string>)
    ensures r == Ok(true) <==> forall f :: f in fields ==> HasField(data, f) == Ok(true)
    ensures data.Scalar? && fields != [] ==> r.Err?
    decreases |fields|
  {
    if fields == [] then Ok(true)
    else
      var first := HasField(data, fields[0]);
      if first.Err? then Err(first.error)
      else if !first.value then Ok(false)
      else AllPresent(data, fields[1..])
  }

  /** GET /: the runner is always ready. */
  function HealthCheck(): (r: Response)
    ensures r.code == 200 && r.body == Status("ready")
  {
    Response(200, Status("ready"))
  }

  /** POST /process. `launch` is what writing the request to a temporary file and starting
      the processor with the document id yields: nothing, or the message of the exception
      raised on the way. Reading data['documentId'] from an array or a string raises. */
  function HandleProcessing(req: Request, launch: Result<(), string>): (r: Response)
    ensures !req.isJson ==> r == Response(400, ErrorBody("Request must be JSON"))
    ensures req.isJson && req.parsed.Err? ==> r == Response(500, ErrorBody(BadRequestText(req.parsed.error)))
    ensures r.code == 202 <==>
              && req.isJson && req.parsed.Ok? && req.parsed.value.Object?
              && (forall f :: f in RequiredFields ==> f in req.parsed.value.keys)
              && launch.Ok?
    ensures r.code == 202 ==> r.body == Status("started")
    ensures r.code == 400 <==> !req.isJson || (req.parsed.Ok? && AllPresent(req.parsed.value, RequiredFields) == Ok(false))
    ensures r.code in {202, 400, 500}
    ensures r.code == 500 ==> r.body.ErrorBody?
  {
    if !req.isJson then Response(400, ErrorBody("Request must be JSON"))
    else if req.parsed.Err? then Response(500, ErrorBody(BadRequestText(req.parsed.error)))
    else
      var data := req.parsed.value;
      var present := AllPresent(data, RequiredFields);
      if present.Err? then Response(500, ErrorBody(present.error))
      else if !present.value then Response(400, ErrorBody("Missing required fields"))
      else if data.Array? then Response(500, ErrorBody("list indices must be integers or slices, not str"))
      else if data.Text? then Response(500, ErrorBody("string indices must be integers, not 'str'"))
      else if launch.Err? then Response(500, ErrorBody(launch.error))
      else Response(202, Status("started"))
  }

  /** An object request lacking any one of the three fields is refused with 400 whatever
      else it holds, and nothing is launched. */
  lemma MissingFieldRefused(keys: set<string>, launch: Result<(), string>, f: string)
    requires f in RequiredFields && f !in keys
    ensures HandleProcessing(Request(true, Ok(Object(keys))), launch) == Response(400, ErrorBody("Missing required fields"))
  {
    var present := AllPresent(Object(keys), RequiredFields);
    assert present != Ok(true);
  }
}

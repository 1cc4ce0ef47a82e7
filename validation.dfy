/** lib/validation.js: `validateSchema` folds a schema's issues into a
    field -> message object, and `withValidation` picks the handler's answer
    or a 400. The schema parse itself is an oracle. */
module Validation {
  import opened Http
  import opened Fields

  /** One schema issue: the path of the offending value and its message. */
  datatype Issue = Issue(path: seq<string>, message: string)

  /** What `schema.parseAsync(data)` does: resolve with the parsed value,
      reject with a schema error carrying issues, or reject with anything else. */
  datatype ParseOutcome<D> = Parsed(data: D) | SchemaFailure(issues: seq<Issue>) | OtherFailure

  /** The `{ success, data, errors }` object; `None` is `null`. */
  datatype Validated<D> = Validated(success: bool, data: Option<D>, errors: Option<map<string, string>>)

  /** `path.join('.')`. */
  function Join(path: seq<string>): (s: string)
    ensures path == [] ==> s == ""
    ensures |path| == 1 ==> s == path[0]
  {
    if path == [] then ""
    else if |path| == 1 then path[0]
    else path[0] + "." + Join(path[1..])
  }

  /** JavaScript's `join`, read as a left fold: start from the first segment
      and append `"." + segment` for each further one, in order. */
  function JoinLeft(acc: string, rest: seq<string>): string
    decreases |rest|
  {
    if rest == [] then acc else JoinLeft(acc + "." + rest[0], rest[1..])
  }

  /** A segment followed by a joined tail is the left fold from that segment. */
  lemma {:induction false} JoinAfter(a: string, rest: seq<string>)
    requires rest != []
    ensures a + "." + Join(rest) == JoinLeft(a, rest)
    decreases |rest|
  {
    if |rest| >= 2 {
      JoinAfter(a + "." + rest[0], rest[1..]);
      assert a + "." + Join(rest) == a + "." + (rest[0] + "." + Join(rest[1..]));
      assert a + "." + (rest[0] + "." + Join(rest[1..])) == (a + "." + rest[0]) + "." + Join(rest[1..]);
    }
  }

  /** `Join` agrees with the left fold on every non-empty path: the segments
      appear in order, separated by single dots. */
  lemma {:induction false} JoinIsLeftFold(path: seq<string>)
    requires |path| >= 1
    ensures Join(path) == JoinLeft(path[0], path[1..])
  {
    if |path| >= 2 {
      JoinAfter(path[0], path[1..]);
    }
  }

  /** The (joined path, message) pairs of the issues, in order. */
  function IssuePairs(issues: seq<Issue>): seq<(string, string)>
  {
    seq(|issues|, i requires 0 <= i < |issues| => (Join(issues[i].path), issues[i].message))
  }

  function ValidateSchema<B, D>(data: B, parse: B -> ParseOutcome<D>): (v: Validated<D>)
    ensures v.data.None? <==> !v.success
    ensures v.errors.None? <==> v.success
    ensures v.success <==> parse(data).Parsed?
  {
    match parse(data)
    case Parsed(d) => Validated(true, Some(d), None)
    case SchemaFailure(issues) => Validated(false, None, Some(Collect(IssuePairs(issues))))
    case OtherFailure => Validated(false, None, Some(map["_general" := "Validation failed"]))
  }

  /** A success carries the parsed value. */
  lemma ParsedData<B, D>(data: B, parse: B -> ParseOutcome<D>)
    requires parse(data).Parsed?
    ensures ValidateSchema(data, parse) == Validated(true, Some(parse(data).data), None)
  {
  }

  /** A schema failure maps exactly the joined issue paths, each to the
      message of the last issue on that path. */
  lemma SchemaFailureErrors<B, D>(data: B, parse: B -> ParseOutcome<D>)
    requires parse(data).SchemaFailure?
    ensures var v := ValidateSchema(data, parse);
      var issues := parse(data).issues;
      && v.errors.Some?
      && v.errors.value.Keys == (set i | 0 <= i < |issues| :: Join(issues[i].path))
      && (forall i :: 0 <= i < |issues| && LastOnPath(IssuePairs(issues), i) ==>
            v.errors.value[Join(issues[i].path)] == issues[i].message)
  {
    var issues := parse(data).issues;
    var pairs := IssuePairs(issues);
    assert (set i | 0 <= i < |pairs| :: pairs[i].0) == (set i | 0 <= i < |issues| :: Join(issues[i].path)) by {
      forall i | 0 <= i < |issues| ensures pairs[i].0 == Join(issues[i].path) { }
    }
    forall i | 0 <= i < |issues| && LastOnPath(pairs, i)
      ensures Collect(pairs)[Join(issues[i].path)] == issues[i].message
    {
      CollectLastWins(pairs, i);
    }
  }

  /** Any other failure reports a single general entry. */
  lemma OtherFailureErrors<B, D>(data: B, parse: B -> ParseOutcome<D>)
    requires parse(data).OtherFailure?
    ensures ValidateSchema(data, parse).errors == Some(map["_general" := "Validation failed"])
  {
  }

  /** `withValidation(schema, handler)` applied to a request whose body
      `request.json()` read as `body` (`None` when it could not be read). */
  function WithValidation<B, D>(body: Option<B>, parse: B -> ParseOutcome<D>,
                                handler: (D, Request) -> Response, req: Request): (r: Response)
    ensures body.Some? && parse(body.value).Parsed? ==> r == handler(parse(body.value).data, req)
    ensures !(body.Some? && parse(body.value).Parsed?) ==> r.status == 400 && r.body.success == None
  {
    if body.None? then Response(400, ErrorBody("Invalid request body"), NoHeaders)
    else
      var v := ValidateSchema(body.value, parse);
      if !v.success then
        Response(400, Body("Validation failed", v.errors, None, None), NoHeaders)
      else handler(v.data.value, req)
  }

  /** An unreadable body is a 400, whatever the schema and the handler. */
  lemma UnreadableBody<B, D>(parse: B -> ParseOutcome<D>, handler: (D, Request) -> Response, req: Request)
    ensures WithValidation(None, parse, handler, req) == Response(400, ErrorBody("Invalid request body"), NoHeaders)
  {
  }

  /** A body that fails validation is a 400 with the field errors, and the
      handler plays no part in it. */
  lemma RejectedBody<B, D>(body: B, parse: B -> ParseOutcome<D>, h1: (D, Request) -> Response,
                           h2: (D, Request) -> Response, req: Request)
    requires !parse(body).Parsed?
    ensures WithValidation(Some(body), parse, h1, req) ==
      Response(400, Body("Validation failed", ValidateSchema(body, parse).errors, None, None), NoHeaders)
    ensures WithValidation(Some(body), parse, h1, req) == WithValidation(Some(body), parse, h2, req)
  {
  }

  /** A body that validates reaches the handler with the parsed value. */
  lemma AcceptedBody<B, D>(body: B, parse: B -> ParseOutcome<D>, handler: (D, Request) -> Response, req: Request)
    requires parse(body).Parsed?
    ensures WithValidation(Some(body), parse, handler, req) == handler(parse(body).data, req)
  {
  }
}

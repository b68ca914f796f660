/** The response classifier of BaseClient: handle_response and error_message. */
module Responses {
  import opened Values

  /** What the transport hands back: an HTTP status and the raw body text. */
  datatype Response = Response(status: int, body: string)

  /** The five exception classes below Chainalysis::Error. */
  datatype ErrorKind =
    | BadRequestError
    | AuthenticationError
    | NotFoundError
    | RateLimitError
    | ApiError

  /** What a call evaluates to. */
  datatype Outcome =
    | Payload(value: Value)                        // the decoded body is returned
    | Raised(kind: ErrorKind, message: Value)      // `raise kind, message`
    | ParserError                                  // JSON::ParserError escapes from a success body
    | NonHashErrorBody                             // an error body parsed to a non-Hash (not modelled)

  /** The argument error_message passes to `raise`, or NotAHash when the body
      parses to an array or scalar, on which Ruby's `#[]` is not modelled. */
  datatype ErrorText = Text(message: Value) | NotAHash

  predicate IsSuccess(status: int) {
    status == 200 || status == 201 || status == 202
  }

  /** The exception class handle_response raises for a non-success status. */
  function KindOf(status: int): (k: ErrorKind)
    requires !IsSuccess(status)
    ensures k == BadRequestError <==> status == 400
    ensures k == AuthenticationError <==> status == 403
    ensures k == NotFoundError <==> status == 404
    ensures k == RateLimitError <==> status == 429
    ensures k == ApiError <==> status !in {400, 403, 404, 429}
  {
    if status == 400 then BadRequestError
    else if status == 403 then AuthenticationError
    else if status == 404 then NotFoundError
    else if status == 429 then RateLimitError
    else ApiError
  }

  /** error_message: `message`, then `error`, then the raw body; the raw body
      also when the body is empty or does not parse. */
  function ErrorMessage(body: string, parse: string -> Option<Value>): (r: ErrorText)
    ensures body == "" ==> r == Text(Str(""))
    ensures body != "" && parse(body).None? ==> r == Text(Str(body))
    ensures body != "" && parse(body).Some? && !parse(body).value.Hash? ==> r == NotAHash
    ensures body != "" && parse(body).Some? && parse(body).value.Hash? ==>
      var h := parse(body).value.fields;
      r == Text(
        if "message" in h && Truthy(h["message"]) then h["message"]
        else if "error" in h && Truthy(h["error"]) then h["error"]
        else Str(body))
    ensures r.Text? ==> Truthy(r.message)
  {
    if body == "" then Text(Str(body))
    else
      match parse(body)
      case None => Text(Str(body))
      case Some(Hash(h)) => Text(Or(Or(Fetch(h, "message"), Fetch(h, "error")), Str(body)))
      case Some(_) => NotAHash
  }

  /** handle_response. */
  function HandleResponse(resp: Response, parse: string -> Option<Value>): (o: Outcome)
    ensures IsSuccess(resp.status) && resp.body == "" ==> o == Payload(Hash(map[]))
    ensures IsSuccess(resp.status) && resp.body != "" ==>
      (parse(resp.body).Some? ==> o == Payload(parse(resp.body).value)) &&
      (parse(resp.body).None? ==> o == ParserError)
    ensures o.Payload? || o.ParserError? <==> IsSuccess(resp.status)
    ensures o.Raised? ==>
      o.kind == KindOf(resp.status) && ErrorMessage(resp.body, parse) == Text(o.message)
    ensures !IsSuccess(resp.status) ==>
      (o.Raised? <==> ErrorMessage(resp.body, parse).Text?)
  {
    if IsSuccess(resp.status) then
      if resp.body == "" then Payload(Hash(map[]))
      else
        match parse(resp.body)
        case Some(v) => Payload(v)
        case None => ParserError
    else
      match ErrorMessage(resp.body, parse)
      case Text(m) => Raised(KindOf(resp.status), m)
      case NotAHash => NonHashErrorBody
  }

  /** The exception class depends on the status alone, never on the body. */
  lemma KindIgnoresBody(status: int, body1: string, body2: string, parse: string -> Option<Value>)
    requires HandleResponse(Response(status, body1), parse).Raised?
    requires HandleResponse(Response(status, body2), parse).Raised?
    ensures HandleResponse(Response(status, body1), parse).kind
         == HandleResponse(Response(status, body2), parse).kind
  {
  }

  /** An empty error body always raises, whatever the parser, with "" as message. */
  lemma EmptyErrorBodyRaises(status: int, parse: string -> Option<Value>)
    requires !IsSuccess(status)
    ensures HandleResponse(Response(status, ""), parse) == Raised(KindOf(status), Str(""))
  {
  }

  /** A body that the parser rejects raises with the raw body as message. */
  lemma MalformedErrorBodyIsMessage(status: int, body: string, parse: string -> Option<Value>)
    requires !IsSuccess(status) && parse(body).None?
    ensures HandleResponse(Response(status, body), parse) == Raised(KindOf(status), Str(body))
  {
  }

  /** status 429 with body {"message": "slow down"}. */
  lemma RateLimitedScenario(body: string, parse: string -> Option<Value>)
    requires body != "" && parse(body) == Some(Hash(map["message" := Str("slow down")]))
    ensures HandleResponse(Response(429, body), parse) == Raised(RateLimitError, Str("slow down"))
  {
  }
}

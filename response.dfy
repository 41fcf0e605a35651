/** The callback of `__request`: one answer of the transport becomes exactly
    one `Outcome` (`Unsettled` included), by a fixed chain of checks. */
module Responses {
  import opened Wrappers
  import opened Text
  import opened JsonValues

  /** The error object the transport reports (connection refused, DNS failure, ...). */
  datatype TransportError = TransportError(message: string)

  /** What the transport hands the callback: an error, or a response with its
      status line and its body as text. */
  datatype Reply =
    | Failed(error: TransportError)
    | Received(statusCode: nat, statusMessage: string, body: string)

  /** The value a promise is rejected with. */
  datatype Rejection =
    | Transport(error: TransportError)                     // the transport's own error object
    | ParseErr(statusCode: nat, statusMessage: string)     // `new Error('JSON parseError ...')`
    | AppErrors(errors: Json)                              // the raw `errors` value of the body
    | HttpErr(statusCode: nat, statusMessage: string)      // `new Error('HTTP Error: ...')`

  /** How the promise of one request ends. `Unsettled` is the body `null`:
      reading `data.errors` then throws inside the callback, outside the
      `try`, and neither `resolve` nor `reject` is ever called. */
  datatype Outcome = Resolve(value: Json) | Reject(reason: Rejection) | Unsettled

  predicate Success(statusCode: nat) {
    200 <= statusCode <= 299
  }

  /** `'' === data ? {} : JSON.parse(data)`; `parse` is `JSON.parse`, `None`
      when it throws. */
  function Decode(body: string, parse: string -> Option<Json>): (r: Option<Json>)
    // an empty body is a valid, empty result and never a parse failure
    ensures body == "" ==> r == Some(EmptyObject)
    // any other body is what `JSON.parse` makes of it
    ensures body != "" ==> r == parse(body)
    // a decoding failure can only come from a non-empty body the decoder rejects
    ensures r.None? ==> body != "" && parse(body).None?
  {
    if body == "" then Some(EmptyObject) else parse(body)
  }

  /** The outcome of one reply. The ensures clauses give, for every kind of
      outcome, exactly the replies that produce it; the conditions exclude one
      another, so every reply has exactly one outcome. */
  function Classify(reply: Reply, parse: string -> Option<Json>): (o: Outcome)
    // 1. a transport error is passed on as it is, whatever else
    ensures (o.Reject? && o.reason.Transport?) <==> reply.Failed?
    ensures reply.Failed? ==> o.reason.error == reply.error
    // 2. a body that does not decode (an empty one always does)
    ensures (o.Reject? && o.reason.ParseErr?) <==>
              reply.Received? && reply.body != "" && parse(reply.body).None?
    ensures (o.Reject? && o.reason.ParseErr?) ==>
              o.reason.statusCode == reply.statusCode && o.reason.statusMessage == reply.statusMessage
    // the decoded value null: the promise never settles
    ensures o.Unsettled? <==> reply.Received? && Decode(reply.body, parse) == Some(JNull)
    // 3. an `errors` field, whatever the status
    ensures (o.Reject? && o.reason.AppErrors?) <==>
              reply.Received? && Decode(reply.body, parse).Some? && Decode(reply.body, parse) != Some(JNull)
              && ErrorsField(Decode(reply.body, parse).value).Some?
    ensures (o.Reject? && o.reason.AppErrors?) ==>
              o.reason.errors == Decode(reply.body, parse).value.fields["errors"]
    // 4. a status outside 200..299
    ensures (o.Reject? && o.reason.HttpErr?) <==>
              reply.Received? && Decode(reply.body, parse).Some? && Decode(reply.body, parse) != Some(JNull)
              && ErrorsField(Decode(reply.body, parse).value).None? && !Success(reply.statusCode)
    ensures (o.Reject? && o.reason.HttpErr?) ==>
              o.reason.statusCode == reply.statusCode && o.reason.statusMessage == reply.statusMessage
    // 5. success: the decoded body, unchanged
    ensures o.Resolve? <==>
              reply.Received? && Decode(reply.body, parse).Some? && Decode(reply.body, parse) != Some(JNull)
              && ErrorsField(Decode(reply.body, parse).value).None? && Success(reply.statusCode)
    ensures o.Resolve? ==> Some(o.value) == Decode(reply.body, parse)
  {
    match reply
    case Failed(error) => Reject(Transport(error))
    case Received(statusCode, statusMessage, body) =>
      match Decode(body, parse)
      case None => Reject(ParseErr(statusCode, statusMessage))
      case Some(data) =>
        if data == JNull then Unsettled
        else if ErrorsField(data).Some? then Reject(AppErrors(ErrorsField(data).value))
        else if !Success(statusCode) then Reject(HttpErr(statusCode, statusMessage))
        else Resolve(data)
  }

  /** A transport error wins: the body is never decoded, so the outcome does
      not depend on the decoder. */
  lemma TransportErrorWins(error: TransportError, parse1: string -> Option<Json>, parse2: string -> Option<Json>)
    ensures Classify(Failed(error), parse1) == Classify(Failed(error), parse2) == Reject(Transport(error))
  {
  }

  /** An empty body stands for `{}`, whatever the decoder would make of it. */
  lemma EmptyBodyIsEmptyObject(statusCode: nat, statusMessage: string, parse: string -> Option<Json>)
    ensures Classify(Received(statusCode, statusMessage, ""), parse)
         == if Success(statusCode) then Resolve(EmptyObject) else Reject(HttpErr(statusCode, statusMessage))
  {
  }

  /** An `errors` field beats the status: the outcome is the same for every
      status code and message. */
  lemma ErrorsBeatStatus(body: string, parse: string -> Option<Json>,
                         code1: nat, message1: string, code2: nat, message2: string)
    requires Decode(body, parse).Some? && Decode(body, parse).value.JObject?
    requires "errors" in Decode(body, parse).value.fields
    ensures Classify(Received(code1, message1, body), parse) == Classify(Received(code2, message2, body), parse)
         == Reject(AppErrors(Decode(body, parse).value.fields["errors"]))
  {
  }

  /** The status decides only at the end: once the body decodes to something
      other than null and has no `errors`, the request fails exactly when the
      status is outside 200..299, and otherwise resolves with the body. */
  lemma StatusDecidesLast(statusCode: nat, statusMessage: string, body: string, parse: string -> Option<Json>)
    requires Decode(body, parse).Some? && Decode(body, parse) != Some(JNull)
    requires ErrorsField(Decode(body, parse).value).None?
    ensures Classify(Received(statusCode, statusMessage, body), parse).Reject? <==> !Success(statusCode)
    ensures Success(statusCode) ==>
              Classify(Received(statusCode, statusMessage, body), parse) == Resolve(Decode(body, parse).value)
  {
  }

  // ---- Error messages ------------------------------------------------------

  const ParseErrorPrefix: string := "JSON parseError with HTTP Status: "
  const HttpErrorPrefix: string := "HTTP Error: "

  /** `prefix + response.statusCode + ' ' + response.statusMessage`. */
  function StatusText(prefix: string, statusCode: nat, statusMessage: string): string {
    prefix + Decimal(statusCode) + " " + statusMessage
  }

  /** The message of the `Error` a promise is rejected with, or `None` when
      the rejection value is not an `Error` at all (the raw `errors` value). */
  function ErrorMessage(r: Rejection): (m: Option<string>)
    ensures m.None? <==> r.AppErrors?
    ensures r.ParseErr? ==> ParseErrorPrefix <= m.value && Decimal(r.statusCode) <= m.value[|ParseErrorPrefix|..]
    ensures r.HttpErr? ==> HttpErrorPrefix <= m.value && Decimal(r.statusCode) <= m.value[|HttpErrorPrefix|..]
  {
    match r
    case Transport(error) => Some(error.message)
    case ParseErr(statusCode, statusMessage) => Some(StatusText(ParseErrorPrefix, statusCode, statusMessage))
    case AppErrors(_) => None
    case HttpErr(statusCode, statusMessage) => Some(StatusText(HttpErrorPrefix, statusCode, statusMessage))
  }

  /** Reads the status code and status message back out of a message written by `StatusText`. */
  function ReadStatusText(prefix: string, message: string): Option<(nat, string)> {
    if prefix <= message then
      var rest := message[|prefix|..];
      var k := Find(rest, ' ');
      if 0 < k < |rest| && AllDigits(rest[..k]) then Some((DigitsValue(rest[..k]), rest[k + 1..])) else None
    else None
  }

  /** The message embeds the status code and the status message recoverably. */
  lemma {:induction false} StatusTextRoundTrip(prefix: string, statusCode: nat, statusMessage: string)
    ensures ReadStatusText(prefix, StatusText(prefix, statusCode, statusMessage)) == Some((statusCode, statusMessage))
  {
    var digits := Decimal(statusCode);
    var message := StatusText(prefix, statusCode, statusMessage);
    var rest := message[|prefix|..];
    assert rest == digits + [' '] + statusMessage;
    assert ' ' !in digits by {
      forall i | 0 <= i < |digits| ensures digits[i] != ' ' {
        assert IsDigit(digits[i]);
      }
    }
    FindAfter(digits, ' ', statusMessage);
    assert rest[..|digits|] == digits;
    assert rest[|digits| + 1..] == statusMessage;
    DecimalRoundTrip(statusCode);
  }

  /** The message of a parse or status `Error` tells which of the two it is
      and the status line it came with. */
  lemma {:induction false} StatusErrorMessagesDistinct(r1: Rejection, r2: Rejection)
    requires r1.ParseErr? || r1.HttpErr?
    requires r2.ParseErr? || r2.HttpErr?
    ensures ErrorMessage(r1) == ErrorMessage(r2) <==> r1 == r2
  {
    if ErrorMessage(r1) == ErrorMessage(r2) {
      var m := ErrorMessage(r1).value;
      assert m[0] == (if r1.ParseErr? then 'J' else 'H');
      assert m[0] == (if r2.ParseErr? then 'J' else 'H');
      var prefix := if r1.ParseErr? then ParseErrorPrefix else HttpErrorPrefix;
      StatusTextRoundTrip(prefix, r1.statusCode, r1.statusMessage);
      StatusTextRoundTrip(prefix, r2.statusCode, r2.statusMessage);
    }
  }

  /** Every rejection except the raw `errors` value is an `Error` object. */
  lemma RejectionsAreErrors(reply: Reply, parse: string -> Option<Json>)
    requires Classify(reply, parse).Reject?
    ensures ErrorMessage(Classify(reply, parse).reason).Some? <==>
              !(reply.Received? && Decode(reply.body, parse).Some? && Decode(reply.body, parse).value.JObject?
                && "errors" in Decode(reply.body, parse).value.fields)
  {
  }

  /** The replies the client's test suite stages, under any decoder that
      reads their bodies as JSON does. */
  lemma ResponseExamples(parse: string -> Option<Json>, error: TransportError)
    requires parse("{\"id\":1,\"name\":\"lametric\"}")
             == Some(JObject(map["id" := JNumber(1.0), "name" := JString("lametric")]))
    requires parse("{\"errors\":[\"nope\"]}") == Some(JObject(map["errors" := JArray([JString("nope")])]))
    requires parse("fail whale") == None
    requires parse("{}") == Some(EmptyObject)
    ensures Classify(Received(201, "Created", "{\"id\":1,\"name\":\"lametric\"}"), parse)
         == Resolve(JObject(map["id" := JNumber(1.0), "name" := JString("lametric")]))
    ensures Classify(Received(203, "Non-Authoritative Information", "{\"errors\":[\"nope\"]}"), parse)
         == Reject(AppErrors(JArray([JString("nope")])))
    ensures Classify(Received(200, "OK", "fail whale"), parse) == Reject(ParseErr(200, "OK"))
    ensures Classify(Received(201, "Created", ""), parse) == Resolve(EmptyObject)
    ensures Classify(Received(500, "Internal Server Error", "{}"), parse) == Reject(HttpErr(500, "Internal Server Error"))
    ensures Classify(Failed(error), parse) == Reject(Transport(error))
  {
  }
}

/** Classification of a backend call's outcome into a `Return` (api/ApiCaller.kt).

    A call either returns a value or throws. Thrown HTTP errors carry an error
    body; parsing that body as JSON is done by a library and is abstracted here:
    a body is given together with the object its text parses to, if any.
 */
module ApiCaller {
  import opened Wrappers

  /** The JSON values the error parser distinguishes. `text` is the value's
      `toString()`, which for anything but a string is its JSON rendering. */
  datatype JValue =
    | JString(s: string)
    | JArray(items: seq<JValue>, text: string)
    | JOther(text: string)
  {
    /** `toString()` of the value: a string is rendered without quotes. */
    function ToText(): string {
      match this
      case JString(s) => s
      case JArray(_, t) => t
      case JOther(t) => t
    }
  }

  /** The error body of an HTTP failure: absent, or present with the JSON object
      its text parses to (`None` when the text is not a JSON object). */
  datatype ErrorBody = NoBody | Body(text: string, parsed: Option<map<string, JValue>>)

  /** How a call ended: it returned, or it threw an `HttpException`, an
      `IOException`, or any other throwable. */
  datatype Call<+T> = Returns(value: T) | ThrowsHttp(body: ErrorBody) | ThrowsIo | ThrowsOther

  const ParseFailurePrefix: string := "Failed to parse error body: "

  /** The text the parser works on: an absent body counts as "{}". */
  function BodyText(body: ErrorBody): string {
    match body
    case NoBody => "{}"
    case Body(t, _) => t
  }

  /** The JSON object the text parses to; "{}" parses to the empty object. */
  function BodyObject(body: ErrorBody): Option<map<string, JValue>> {
    match body
    case NoBody => Some(map[])
    case Body(_, p) => p
  }

  /** `parseHttpException`: the `message` member of the body, taken whole or as its
      array's first element, becomes a BadRequest failure; every body it cannot
      read that way becomes a ServerError naming the body. */
  function ParseHttpException<T>(body: ErrorBody): (r: Return<T>)
    ensures r.Fail?
    ensures r.failCode == BadRequest || r.failCode == ServerError
    ensures r.failCode == ServerError ==> r.message == Hardcoded(ParseFailurePrefix + BodyText(body))
    ensures r.failCode == BadRequest <==>
      (BodyObject(body).Some? && "message" in BodyObject(body).value
       && (BodyObject(body).value["message"].JArray? ==> |BodyObject(body).value["message"].items| > 0))
    ensures BodyObject(body).Some? && "message" in BodyObject(body).value ==>
      var m := BodyObject(body).value["message"];
      (m.JString? ==> r == Fail(Hardcoded(m.s), BadRequest))
      && (m.JOther? ==> r == Fail(Hardcoded(m.text), BadRequest))
      && (m.JArray? && |m.items| > 0 ==> r == Fail(Hardcoded(m.items[0].ToText()), BadRequest))
  {
    var failure := Fail(Hardcoded(ParseFailurePrefix + BodyText(body)), ServerError);
    match BodyObject(body)
    case None => failure
    case Some(json) =>
      if "message" !in json then failure
      else
        match json["message"]
        case JArray(items, _) =>
          // indexing an empty JSONArray throws, which the parser catches
          if |items| == 0 then failure else Fail(Hardcoded(items[0].ToText()), BadRequest)
        case other => Fail(Hardcoded(other.ToText()), BadRequest)
  }

  /** `safeApiCall`: never throws; every outcome becomes a `Return`. */
  function SafeApiCall<T>(c: Call<T>): (r: Return<T>)
    ensures r.Ok? <==> c.Returns?
    ensures c.Returns? ==> r == Return.Ok(c.value)
    ensures c.ThrowsIo? ==> r == Fail(Res(ConnectionError), NetworkError)
    ensures c.ThrowsOther? ==> r == Fail(Res(UnknownError), Unspecified)
    ensures c.ThrowsHttp? ==> r == ParseHttpException(c.body)
  {
    match c
    case Returns(v) => Return.Ok(v)
    case ThrowsHttp(body) => ParseHttpException(body)
    case ThrowsIo => Fail(Res(ConnectionError), NetworkError)
    case ThrowsOther => Fail(Res(UnknownError), Unspecified)
  }

  /** `unsafeApiCall`: the call runs as it is; whatever it throws propagates. */
  function UnsafeApiCall<T>(c: Call<T>): Call<T>
  {
    c
  }

  /** The status code of a safe call tells the outcomes apart: Ok only for a
      returned value, NetworkError only for an I/O failure, BadRequest or
      ServerError only for an HTTP error, Unspecified only for anything else. */
  lemma SafeApiCallCodes<T>(c: Call<T>)
    ensures SafeApiCall(c).Code() == ReturnCode.Ok <==> c.Returns?
    ensures SafeApiCall(c).Code() == NetworkError <==> c.ThrowsIo?
    ensures SafeApiCall(c).Code() == Unspecified <==> c.ThrowsOther?
    ensures (SafeApiCall(c).Code() == BadRequest || SafeApiCall(c).Code() == ServerError) <==> c.ThrowsHttp?
  {
  }

  /** The safe and the unsafe wrapper agree whenever the call returns, and the
      safe one turns every throw into a failure. */
  lemma SafeAgreesWithUnsafe<T>(c: Call<T>)
    ensures UnsafeApiCall(c).Returns? ==> SafeApiCall(c) == Return.Ok(UnsafeApiCall(c).value)
    ensures !UnsafeApiCall(c).Returns? ==> SafeApiCall(c).Fail?
  {
  }
}

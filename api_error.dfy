/** The error the REST client raises for an HTTP error status, and its description. */
module APIErrors {
  import opened Wrappers
  import opened Numerics
  import Text

  /** The response metadata: an HTTP response carries a status code. */
  datatype URLResponse = HTTPURLResponse(statusCode: Int64) | OtherURLResponse

  datatype ErrorDetails = ErrorDetails(message: string)

  /** The JSON error body: the messages and a success flag. */
  datatype ErrorResponse = ErrorResponse(errors: seq<ErrorDetails>, success: bool)

  datatype APIError = APIError(code: Int64, response: Option<ErrorResponse>)

  /**
   * `APIError.init?(response:data:)`. Only an HTTP response whose status is
   * 400 or more is an error; its code is the status and its body is the
   * decoded error response, or none when the data does not decode. The
   * decoding itself is the parameter `decodedBody`.
   */
  function FromResponse(response: URLResponse, decodedBody: Option<ErrorResponse>): (r: Option<APIError>)
    ensures r.Some? <==> response.HTTPURLResponse? && response.statusCode >= 400
    ensures r.Some? ==> r.value.code == response.statusCode && r.value.response == decodedBody
  {
    match response
    case HTTPURLResponse(statusCode) =>
      if statusCode >= 400 then Some(APIError(statusCode, decodedBody)) else None
    case OtherURLResponse => None
  }

  /**
   * Client errors (4xx) and server errors (5xx), as section 15 of RFC 9110
   * classes them, become an `APIError`; informational, success and
   * redirection statuses (1xx to 3xx) do not.
   */
  lemma ErrorClassesOnly(statusCode: Int64, decodedBody: Option<ErrorResponse>)
    requires 100 <= statusCode <= 599
    ensures FromResponse(HTTPURLResponse(statusCode), decodedBody).Some? <==> statusCode / 100 == 4 || statusCode / 100 == 5
  {
  }

  function Messages(errors: seq<ErrorDetails>): (r: seq<string>)
    ensures |r| == |errors| && forall i | 0 <= i < |r| :: r[i] == errors[i].message
  {
    seq(|errors|, i requires 0 <= i < |errors| => errors[i].message)
  }

  const CodePrefix: string := "APIError code: "
  const ErrorsPrefix: string := "Errors: "

  /**
   * `errorDescription`: the code, then, when there is a body, its messages
   * joined by ", ", the two parts joined by " | ".
   */
  function DescriptionText(e: APIError): (r: string)
    ensures e.response.None? ==> r == CodePrefix + Numerics.Description(e.code as int)
    ensures e.response.Some? ==>
      r == CodePrefix + Numerics.Description(e.code as int) + " | " + ErrorsPrefix + Text.Join(Messages(e.response.value.errors), ", ")
  {
    var code := CodePrefix + Numerics.Description(e.code as int);
    if e.response.None? then
      Text.JoinOne(code, " | ");
      Text.Join([code], " | ")
    else
      var errors := ErrorsPrefix + Text.Join(Messages(e.response.value.errors), ", ");
      Text.JoinTwo(code, errors, " | ");
      Text.Join([code, errors], " | ")
  }

  /** `errorDescription` as the source computes it, by appending to a list of parts. */
  method ErrorDescription(e: APIError) returns (r: string)
    ensures r == DescriptionText(e)
  {
    var infos: seq<string> := [];
    infos := infos + [CodePrefix + Numerics.Description(e.code as int)];
    if e.response.Some? {
      var errorMessages := Text.Join(Messages(e.response.value.errors), ", ");
      infos := infos + [ErrorsPrefix + errorMessages];
    }
    r := Text.Join(infos, " | ");
    if e.response.Some? {
      Text.JoinTwo(infos[0], infos[1], " | ");
    }
  }

  /** What follows the code in the description: nothing, or " | " and the messages. */
  function Rest(e: APIError): (r: string)
    ensures r == [] || r[0] == ' '
    ensures DescriptionText(e) == CodePrefix + Numerics.Description(e.code as int) + r
  {
    if e.response.None? then ""
    else " | " + ErrorsPrefix + Text.Join(Messages(e.response.value.errors), ", ")
  }

  /** The description names the code: errors with different codes are described differently. */
  lemma DescriptionNamesCode(a: APIError, b: APIError)
    requires DescriptionText(a) == DescriptionText(b)
    ensures a.code == b.code
  {
    Numerics.DescriptionHasNoSpace(a.code as int);
    Numerics.DescriptionHasNoSpace(b.code as int);
    Text.SameWordAfterPrefix(CodePrefix, Numerics.Description(a.code as int), Rest(a),
                             Numerics.Description(b.code as int), Rest(b), ' ');
    Numerics.DescriptionInjective(a.code as int, b.code as int);
  }

  /** The body's `success` flag never shows in the description. */
  lemma DescriptionIgnoresSuccess(code: Int64, errors: seq<ErrorDetails>, s1: bool, s2: bool)
    ensures DescriptionText(APIError(code, Some(ErrorResponse(errors, s1))))
         == DescriptionText(APIError(code, Some(ErrorResponse(errors, s2))))
  {
  }

  /** A body without messages still adds an empty "Errors: " part. */
  lemma DescriptionOfEmptyBody(code: Int64, success: bool)
    ensures DescriptionText(APIError(code, Some(ErrorResponse([], success))))
         == CodePrefix + Numerics.Description(code as int) + " | " + ErrorsPrefix
  {
    assert Messages([]) == [];
  }
}

/**
 * The JSON envelope every API endpoint answers with: a response code
 * from a fixed table, a success flag, a message and optional data,
 * paired with an HTTP status.
 */
module Response {
  import opened Wrappers

  datatype ResponseCode =
    | Success | Failure | Retry | InvalidAccessToken | InvalidRefreshToken
    | Forbidden | Unauthorized | NotFound | ValidationError | InternalError | BadRequest

  /** The code's wire value. */
  function Value(code: ResponseCode): (v: string)
    ensures |v| == 5 && v[..3] == "100"
  {
    match code
    case Success => "10000"
    case Failure => "10001"
    case Retry => "10002"
    case InvalidAccessToken => "10003"
    case InvalidRefreshToken => "10004"
    case Forbidden => "10005"
    case Unauthorized => "10006"
    case NotFound => "10007"
    case ValidationError => "10008"
    case InternalError => "10009"
    case BadRequest => "10010"
  }

  /** `ResponseCode(v)`: the code with wire value `v`, if any. */
  function FromValue(v: string): Option<ResponseCode> {
    if v == "10000" then Some(Success)
    else if v == "10001" then Some(Failure)
    else if v == "10002" then Some(Retry)
    else if v == "10003" then Some(InvalidAccessToken)
    else if v == "10004" then Some(InvalidRefreshToken)
    else if v == "10005" then Some(Forbidden)
    else if v == "10006" then Some(Unauthorized)
    else if v == "10007" then Some(NotFound)
    else if v == "10008" then Some(ValidationError)
    else if v == "10009" then Some(InternalError)
    else if v == "10010" then Some(BadRequest)
    else None
  }

  /** Each wire value names its code back, and a value that names a code is that code's value. */
  lemma ValueRoundTrip(code: ResponseCode, v: string)
    ensures FromValue(Value(code)) == Some(code)
    ensures FromValue(v) == Some(code) ==> Value(code) == v
  {
  }

  /** Hence the wire values are pairwise distinct. */
  lemma ValuesDistinct(a: ResponseCode, b: ResponseCode)
    ensures a != b ==> Value(a) != Value(b)
  {
    ValueRoundTrip(a, Value(a));
    ValueRoundTrip(b, Value(b));
  }

  /** A value of the response body; `D` is the type of the endpoint's data. */
  datatype BodyValue<D> = Flag(flag: bool) | Text(text: string) | Payload(payload: D)

  datatype HttpResponse<D> = HttpResponse(body: map<string, BodyValue<D>>, status: int)

  const SuccessKey := "success"
  const MessageKey := "message"
  const CodeKey := "code"
  const DataKey := "data"

  /** `create_response`. */
  function CreateResponse<D>(success: bool, message: string, code: ResponseCode,
                             data: Option<D> := None, httpStatus: int := 200): (r: HttpResponse<D>)
    ensures r.status == httpStatus
    ensures r.body.Keys == {SuccessKey, MessageKey, CodeKey} + (if data.Some? then {DataKey} else {})
  {
    var body := map[SuccessKey := Flag(success), MessageKey := Text(message), CodeKey := Text(Value(code))];
    HttpResponse(if data.Some? then body[DataKey := Payload(data.value)] else body, httpStatus)
  }

  /** What a client reads back from a body: flag, message, code and data. */
  function ReadBody<D>(body: map<string, BodyValue<D>>): Option<(bool, string, ResponseCode, Option<D>)> {
    if SuccessKey in body && body[SuccessKey].Flag? &&
       MessageKey in body && body[MessageKey].Text? &&
       CodeKey in body && body[CodeKey].Text? && FromValue(body[CodeKey].text).Some?
    then
      var data := if DataKey in body && body[DataKey].Payload? then Some(body[DataKey].payload) else None;
      Some((body[SuccessKey].flag, body[MessageKey].text, FromValue(body[CodeKey].text).value, data))
    else None
  }

  /** A client reads back exactly what the envelope was built from. */
  lemma ReadBodyRoundTrip<D>(success: bool, message: string, code: ResponseCode, data: Option<D>, httpStatus: int)
    ensures ReadBody(CreateResponse(success, message, code, data, httpStatus).body) == Some((success, message, code, data))
  {
    ValueRoundTrip(code, Value(code));
  }

  /** The envelope carries this flag, message and code. */
  predicate Carries<D>(r: HttpResponse<D>, success: bool, message: string, code: string) {
    SuccessKey in r.body && r.body[SuccessKey] == Flag(success) &&
    MessageKey in r.body && r.body[MessageKey] == Text(message) &&
    CodeKey in r.body && r.body[CodeKey] == Text(code)
  }

  lemma CreateCarries<D>(success: bool, message: string, code: ResponseCode, data: Option<D>, httpStatus: int)
    ensures Carries(CreateResponse(success, message, code, data, httpStatus), success, message, Value(code))
  {
  }

  function SuccessResponse<D>(message: string := "Thành công", data: Option<D> := None): (r: HttpResponse<D>)
    ensures Carries(r, true, message, "10000") && r.status == 200
  {
    CreateCarries(true, message, Success, data, 200);
    CreateResponse(true, message, Success, data, 200)
  }

  function ErrorResponse<D>(message: string, code: ResponseCode := Failure,
                            httpStatus: int := 400, data: Option<D> := None): (r: HttpResponse<D>)
    ensures Carries(r, false, message, Value(code)) && r.status == httpStatus
  {
    CreateCarries(false, message, code, data, httpStatus);
    CreateResponse(false, message, code, data, httpStatus)
  }

  /** With its defaults, an error carries code 10001 and status 400. */
  lemma ErrorDefaults<D>(message: string)
    ensures var r := ErrorResponse<D>(message); Carries(r, false, message, "10001") && r.status == 400
  {
  }

  function ValidationErrorResponse<D>(message: string := "Dữ liệu không hợp lệ", data: Option<D> := None): (r: HttpResponse<D>)
    ensures Carries(r, false, message, "10008") && r.status == 400
  {
    ErrorResponse(message, ValidationError, 400, data)
  }

  function NotFoundError<D>(message: string := "Không tìm thấy", data: Option<D> := None): (r: HttpResponse<D>)
    ensures Carries(r, false, message, "10007") && r.status == 404
  {
    ErrorResponse(message, NotFound, 404, data)
  }

  function InternalErrorResponse<D>(message: string := "Lỗi hệ thống", data: Option<D> := None): (r: HttpResponse<D>)
    ensures Carries(r, false, message, "10009") && r.status == 500
  {
    ErrorResponse(message, InternalError, 500, data)
  }

  function BadRequestResponse<D>(message: string := "Yêu cầu không hợp lệ", data: Option<D> := None): (r: HttpResponse<D>)
    ensures Carries(r, false, message, "10010") && r.status == 400
  {
    ErrorResponse(message, BadRequest, 400, data)
  }
}

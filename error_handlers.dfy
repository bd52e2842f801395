/** The `ApiError` record and the normalisation of an HTTP client error into a
    user-facing message (apps/sim/lib/api/errorHandlers.ts). */
module ErrorHandlers {
  import opened Js

  /** A response the server sent: its status and its decoded body (`None` for `undefined`). */
  datatype Response = Response(status: int, data: Option<Value>)

  /** The parts of an axios error that the client reads: the response if one arrived,
      whether a request went out at all, and the error's own message. */
  datatype HttpError = HttpError(response: Option<Response>, requestSent: bool, message: string)

  /** The normalised error every rejected call carries. */
  datatype ApiError = ApiError(name: string, message: string, status: int, data: Option<Value>)

  /** `new ApiError(message, status, data)`. */
  function NewApiError(message: string, status: int, data: Option<Value>): (e: ApiError)
    ensures e.name == "ApiError"
    ensures e.message == message && e.status == status && e.data == data
  {
    ApiError("ApiError", message, status, data)
  }

  const BAD_REQUEST := "잘못된 요청입니다."
  const UNAUTHORIZED := "인증이 필요합니다."
  const FORBIDDEN := "접근 권한이 없습니다."
  const NOT_FOUND := "요청한 리소스를 찾을 수 없습니다."
  const SERVER_ERROR := "서버 오류가 발생했습니다."
  const BAD_GATEWAY := "게이트웨이 오류가 발생했습니다."
  const UNAVAILABLE := "서비스를 일시적으로 사용할 수 없습니다."
  const NO_RESPONSE := "서버로부터 응답이 없습니다. 네트워크 연결을 확인해주세요."
  const UNKNOWN := "알 수 없는 오류가 발생했습니다."

  /** The statuses that have a message of their own. */
  predicate KnownStatus(status: int) {
    status == 400 || status == 401 || status == 403 || status == 404 ||
    status == 500 || status == 502 || status == 503
  }

  /** The message for a status whose body carried no usable text. */
  function StatusMessage(status: int): (r: string)
    ensures !KnownStatus(status) ==> r == SERVER_ERROR + " (" + IntToDecimal(status) + ")"
    ensures |r| > 0 && (r[|r| - 1] == ')' <==> !KnownStatus(status))
  {
    match status
    case 400 => BAD_REQUEST
    case 401 => UNAUTHORIZED
    case 403 => FORBIDDEN
    case 404 => NOT_FOUND
    case 500 => SERVER_ERROR
    case 502 => BAD_GATEWAY
    case 503 => UNAVAILABLE
    case _ => SERVER_ERROR + " (" + IntToDecimal(status) + ")"
  }

  /** The seven statuses with a message of their own, each mapped to it. */
  lemma KnownStatusMessages()
    ensures StatusMessage(400) == BAD_REQUEST && StatusMessage(401) == UNAUTHORIZED
    ensures StatusMessage(403) == FORBIDDEN && StatusMessage(404) == NOT_FOUND
    ensures StatusMessage(500) == SERVER_ERROR && StatusMessage(502) == BAD_GATEWAY
    ensures StatusMessage(503) == UNAVAILABLE
  {
  }

  /** `getErrorMessage`: the body's `message`, else its `error`, else the status message
      when a response arrived; the no-response message when only a request went out;
      otherwise the error's own message, or the unknown-error message when that is empty. */
  function GetErrorMessage(e: HttpError): (r: string)
    ensures e.response.None? && e.requestSent ==> r == NO_RESPONSE
    ensures e.response.None? && !e.requestSent && e.message != "" ==> r == e.message
    ensures e.response.None? && !e.requestSent && e.message == "" ==> r == UNKNOWN
  {
    if e.response.Some? then
      var data := e.response.value.data;
      if IsObject(data) && StringProperty(data.value, "message").Some? then
        StringProperty(data.value, "message").value
      else if IsObject(data) && StringProperty(data.value, "error").Some? then
        StringProperty(data.value, "error").value
      else
        StatusMessage(e.response.value.status)
    else if e.requestSent then
      NO_RESPONSE
    else if e.message != "" then
      e.message
    else
      UNKNOWN
  }

  // ---------------------------------------------------------------------------
  // An independent statement of the precedence: the candidate messages in the
  // order the source tries them, and the first one that is present wins.

  /** The string at `key` of the body, if the body is an object holding a string there. */
  function BodyString(data: Option<Value>, key: string): Option<string> {
    if data.Some? then StringProperty(data.value, key) else None
  }

  /** Every message source in order of precedence; `None` marks one that does not apply. */
  function Candidates(e: HttpError): seq<Option<string>> {
    var resp := e.response;
    [ if resp.Some? then BodyString(resp.value.data, "message") else None,
      if resp.Some? then BodyString(resp.value.data, "error") else None,
      if resp.Some? then Some(StatusMessage(resp.value.status)) else None,
      if e.requestSent then Some(NO_RESPONSE) else None,
      if e.message != "" then Some(e.message) else None,
      Some(UNKNOWN) ]
  }

  function FirstPresent(cs: seq<Option<string>>): Option<string> {
    if cs == [] then None else if cs[0].Some? then cs[0] else FirstPresent(cs[1..])
  }

  /** The message is the first candidate present, so each source wins exactly when
      every source before it is absent, and the function is total. */
  lemma GetErrorMessageIsFirstCandidate(e: HttpError)
    ensures FirstPresent(Candidates(e)) == Some(GetErrorMessage(e))
  {
    var cs := Candidates(e);
    assert cs[1..] == [cs[1], cs[2], cs[3], cs[4], cs[5]];
    assert cs[1..][1..] == [cs[2], cs[3], cs[4], cs[5]];
    assert cs[1..][1..][1..] == [cs[3], cs[4], cs[5]];
    assert cs[1..][1..][1..][1..] == [cs[4], cs[5]];
    assert cs[1..][1..][1..][1..][1..] == [cs[5]];
    if e.response.None? {
      assert cs[0] == None && cs[1] == None && cs[2] == None;
      assert FirstPresent(cs) == FirstPresent(cs[1..]);
      assert FirstPresent(cs[1..]) == FirstPresent(cs[1..][1..]);
      assert FirstPresent(cs[1..][1..]) == FirstPresent(cs[1..][1..][1..]);
      if !e.requestSent {
        assert FirstPresent(cs[1..][1..][1..]) == FirstPresent(cs[1..][1..][1..][1..]);
        if e.message == "" {
          assert FirstPresent(cs[1..][1..][1..][1..]) == FirstPresent(cs[1..][1..][1..][1..][1..]);
        }
      }
    } else {
      var data := e.response.value.data;
      assert BodyString(data, "message") == (if IsObject(data) then StringProperty(data.value, "message") else None);
      assert BodyString(data, "error") == (if IsObject(data) then StringProperty(data.value, "error") else None);
      if cs[0].None? {
        assert FirstPresent(cs) == FirstPresent(cs[1..]);
        if cs[1].None? {
          assert FirstPresent(cs[1..]) == FirstPresent(cs[1..][1..]);
        }
      }
    }
  }

  /** A string `message` in an object body is returned, whatever `error` and the status say. */
  lemma MessageFieldFirst(e: HttpError, text: string)
    requires e.response.Some? && e.response.value.data.Some?
    requires e.response.value.data.value.Obj?
    requires "message" in e.response.value.data.value.fields
    requires e.response.value.data.value.fields["message"] == Str(text)
    ensures GetErrorMessage(e) == text
  {
  }

  /** Without a string `message`, a string `error` in an object body is returned. */
  lemma ErrorFieldSecond(e: HttpError, text: string)
    requires e.response.Some? && e.response.value.data.Some?
    requires e.response.value.data.value.Obj?
    requires var f := e.response.value.data.value.fields; "message" !in f || !f["message"].Str?
    requires "error" in e.response.value.data.value.fields
    requires e.response.value.data.value.fields["error"] == Str(text)
    ensures GetErrorMessage(e) == text
  {
  }

  /** With a response whose body holds neither field as a string, the status decides. */
  lemma StatusThird(e: HttpError)
    requires e.response.Some?
    requires BodyString(e.response.value.data, "message").None?
    requires BodyString(e.response.value.data, "error").None?
    ensures GetErrorMessage(e) == StatusMessage(e.response.value.status)
  {
  }

  /** Every status gets a different message: the seven known ones are pairwise distinct,
      and every other status carries its own number in the generic message. */
  lemma {:induction false} StatusMessageInjective(s1: int, s2: int)
    requires StatusMessage(s1) == StatusMessage(s2)
    ensures s1 == s2
  {
    var m := StatusMessage(s1);
    var prefix := SERVER_ERROR + " (";
    if !KnownStatus(s1) && !KnownStatus(s2) {
      var d1, d2 := IntToDecimal(s1), IntToDecimal(s2);
      assert m == prefix + d1 + ")" == prefix + d2 + ")";
      assert d1 == m[|prefix|..|m| - 1] == d2;
      IntToDecimalInjective(s1, s2);
    }
    // a known status against an unknown one: the generic message ends in ')',
    // every fixed one in '.', so the two never meet
  }
}

/** The client object of the first API version: its cURL header list and
    response buffer, and the two login calls that classify the server's
    answer themselves. The transport is not modelled; its outcome reaches
    the classifier as a `Transport` value. */
module ClientCore {
  import opened Json
  import opened Requests
  import LoginApi

  const ApiUrl := "https://m2m.cr.usgs.gov/api/api/json/stable/"
  const ContentType := "Content-Type: application/json"
  const AuthPrefix := "X-Auth-Token: "

  /** 2^64: `size_t` arithmetic wraps modulo this. */
  const SizeModulus := 0x1_0000_0000_0000_0000

  /** The two headers every authenticated request carries. */
  function AuthHeaders(token: string): seq<string>
  {
    [ContentType, AuthPrefix + token]
  }

  /** The token of the last `X-Auth-Token` header in a header list. */
  function AuthToken(headers: seq<string>): (token: Option<string>)
    ensures token.Some? ==> exists i :: 0 <= i < |headers| && headers[i] == AuthPrefix + token.value
  {
    if |headers| == 0 then None
    else
      var last := headers[|headers| - 1];
      if |last| >= |AuthPrefix| && last[..|AuthPrefix|] == AuthPrefix then
        assert last == AuthPrefix + last[|AuthPrefix|..];
        Some(last[|AuthPrefix|..])
      else
        var token := AuthToken(headers[..|headers| - 1]);
        if token.Some? then
          var i :| 0 <= i < |headers| - 1 && headers[..|headers| - 1][i] == AuthPrefix + token.value;
          assert headers[i] == AuthPrefix + token.value;
          token
        else None
  }

  /** The header list the token setter builds hands back that token, and
      carries the content type exactly once, first. */
  lemma AuthHeadersToken(token: string)
    ensures AuthToken(AuthHeaders(token)) == Some(token)
    ensures |AuthHeaders(token)| == 2 && AuthHeaders(token)[0] == ContentType
    ensures forall i :: 1 <= i < |AuthHeaders(token)| ==> AuthHeaders(token)[i] != ContentType
  {
    var h := AuthPrefix + token;
    assert h[..|AuthPrefix|] == AuthPrefix;
    assert h[|AuthPrefix|..] == token;
    assert h[0] != ContentType[0];
  }

  /** The API client: whether its cURL handle exists and its header list
      (an empty sequence stands for the null `curl_slist`). */
  class Client {
    var curlReady: bool
    var headers: seq<string>

    constructor()
      ensures !curlReady && headers == []
    {
      curlReady := false;
      headers := [];
    }

    /** `setup_curl`: `initOk` is the outcome of `curl_easy_init`. On
        failure nothing else happens; on success the content-type header is
        added only when the list is still empty. */
    method SetupCurl(initOk: bool)
      modifies this
      ensures curlReady == initOk
      ensures headers == if initOk && old(headers) == [] then [ContentType] else old(headers)
    {
      curlReady := initOk;
      if !curlReady {
        return;
      }
      if headers == [] {
        headers := [ContentType];
      }
    }

    /** `setAuthToken`: the old list is freed and replaced by the two
        headers, whatever it held, so the last token set wins. */
    method SetAuthToken(token: string)
      modifies this
      ensures headers == AuthHeaders(token)
      ensures curlReady == old(curlReady)
    {
      headers := [];
      headers := [ContentType];
      headers := headers + [AuthPrefix + token];
    }
  }

  /** The response body a transfer writes into. */
  class ResponseBuffer {
    var body: string

    constructor()
      ensures body == ""
    {
      body := "";
    }

    /** `WriteCallback`: appends `size * nmemb` bytes of the chunk (a
        `size_t` product, so modulo 2^64) and reports that count back. */
    method WriteCallback(contents: string, size: nat, nmemb: nat) returns (written: nat)
      requires size < SizeModulus && nmemb < SizeModulus
      requires (size * nmemb) % SizeModulus <= |contents|
      modifies this
      ensures written == (size * nmemb) % SizeModulus
      ensures body == old(body) + contents[..written]
    {
      written := (size * nmemb) % SizeModulus;
      body := body + contents[..written];
    }
  }

  /** `int` is 32 bits wide: the two's-complement value congruent to `n`. */
  function Int32(n: int): (w: int)
    ensures -0x8000_0000 <= w < 0x8000_0000
    ensures (n - w) % 0x1_0000_0000 == 0
    ensures -0x8000_0000 <= n < 0x8000_0000 ==> w == n
  {
    var m := n % 0x1_0000_0000;
    assert n == 0x1_0000_0000 * (n / 0x1_0000_0000) + m;
    if m >= 0x8000_0000 then m - 0x1_0000_0000 else m
  }

  function DigitChar(d: nat): (c: char)
    requires d < 10
    ensures '0' <= c <= '9' && c as int - '0' as int == d
  {
    (d + '0' as int) as char
  }

  /** The decimal digits of `n`, most significant first, no leading zero. */
  function Digits(n: nat): (s: string)
    ensures |s| > 0 && (|s| > 1 ==> s[0] != '0')
    ensures forall i :: 0 <= i < |s| ==> '0' <= s[i] <= '9'
  {
    if n < 10 then [DigitChar(n)] else Digits(n / 10) + [DigitChar(n % 10)]
  }

  /** `std::to_string` of an integer. */
  function DecimalString(n: int): (s: string)
    ensures |s| > 0 && (s[0] == '-' <==> n < 0)
  {
    if n < 0 then "-" + Digits(-n) else Digits(n)
  }

  /** Reads a non-empty run of decimal digits. */
  function ParseNat(s: string): Option<nat>
  {
    if |s| == 0 || !('0' <= s[|s| - 1] <= '9') then None
    else
      var d := s[|s| - 1] as int - '0' as int;
      if |s| == 1 then Some(d)
      else
        match ParseNat(s[..|s| - 1])
        case None => None
        case Some(m) => Some(10 * m + d)
  }

  /** Reads an optionally negated decimal numeral. */
  function ParseDecimal(s: string): Option<int>
  {
    if |s| > 0 && s[0] == '-' then
      match ParseNat(s[1..])
      case None => None
      case Some(m) => Some(-(m as int))
    else ParseNat(s)
  }

  lemma {:induction false} DigitsRoundTrip(n: nat)
    ensures ParseNat(Digits(n)) == Some(n)
  {
    if n >= 10 {
      DigitsRoundTrip(n / 10);
      var s := Digits(n);
      assert s[..|s| - 1] == Digits(n / 10);
    }
  }

  /** The status code in "HTTP error code: ..." reads back as the code. */
  lemma DecimalRoundTrip(n: int)
    ensures ParseDecimal(DecimalString(n)) == Some(n)
  {
    if n < 0 {
      DigitsRoundTrip(-n);
      assert DecimalString(n)[1..] == Digits(-n);
    } else {
      DigitsRoundTrip(n);
    }
  }

  /** Why a step inside the parsing `try` block threw. */
  datatype Fault =
    | Unparsable                 // the body is not JSON text
    | NotAnObject                // subscripting a document that is neither null nor an object
    | NotANumber(key: string)    // `get<int>` on a value that is not a number or a boolean
    | NotAString(key: string)    // `get<std::string>` on a value that is not a string

  datatype Body = Parsed(doc: JSON) | Malformed

  /** What the transport reports: whether the POST was performed, the
      status code it read, and the body it collected. */
  datatype Transport = Transport(ok: bool, httpCode: int, body: Body)

  datatype ErrorResponse = ErrorResponse(errorMessage: string, errorCode: Option<int>)
  datatype MetaDataResponse = MetaDataResponse(requestId: int, sessionId: int)

  /** The login result record; both login calls fill one of this shape. */
  datatype LoginResponse = LoginResponse(data: string, errorData: ErrorResponse,
                                         metaData: MetaDataResponse, success: bool)

  /** The record as declared: empty strings, no code, ids -1, no success. */
  const Fresh := LoginResponse("", ErrorResponse("", None), MetaDataResponse(-1, -1), false)

  function Failed(message: string): LoginResponse
  {
    Fresh.(errorData := ErrorResponse(message, None))
  }

  /** `doc[key]` on a null or object document: the member, or null when
      missing (nlohmann inserts a null member and returns it). */
  function Field(doc: JSON, key: string): JSON
  {
    if doc.JObj? && key in doc.fields then doc.fields[key] else JNull
  }

  /** nlohmann's non-const subscript throws on anything but null and objects. */
  predicate Subscriptable(doc: JSON)
  {
    doc.JNull? || doc.JObj?
  }

  /** `get<int>`: numbers narrowed to 32 bits, booleans as 0 or 1. */
  function GetInt(v: JSON): (r: Option<int>)
    ensures r.Some? <==> v.JInt? || v.JBool?
    ensures v.JInt? && -0x8000_0000 <= v.n < 0x8000_0000 ==> r == Some(v.n)
  {
    match v
    case JInt(n) => Some(Int32(n))
    case JBool(b) => Some(if b then 1 else 0)
    case _ => None
  }

  /** `get<std::string>`: strings only. */
  function GetString(v: JSON): Option<string>
  {
    if v.JStr? then Some(v.s) else None
  }

  /** The body reports an API error: its `errorCode` is not null. */
  predicate ApiError(doc: JSON)
  {
    !Field(doc, "errorCode").JNull?
  }

  /** The branch taken extracts its leading fields and reaches the ids. */
  predicate ReachesIds(doc: JSON)
  {
    Subscriptable(doc) &&
    if ApiError(doc) then
      GetInt(Field(doc, "errorCode")).Some? && GetString(Field(doc, "errorMessage")).Some?
    else
      GetString(Field(doc, "data")).Some?
  }

  /** The first extraction that throws, in the order the calls are made. */
  function FirstFault(doc: JSON): Option<Fault>
  {
    if !Subscriptable(doc) then Some(NotAnObject)
    else if ApiError(doc) && GetInt(Field(doc, "errorCode")).None? then Some(NotANumber("errorCode"))
    else if ApiError(doc) && GetString(Field(doc, "errorMessage")).None? then Some(NotAString("errorMessage"))
    else if !ApiError(doc) && GetString(Field(doc, "data")).None? then Some(NotAString("data"))
    else if GetInt(Field(doc, "requestId")).None? then Some(NotANumber("requestId"))
    else if GetInt(Field(doc, "sessionId")).None? then Some(NotANumber("sessionId"))
    else None
  }

  /** Each field of the result as it stands once the `try` block has run:
      a field keeps what was assigned before a throw. */
  function CodeOf(doc: JSON): Option<int>
  {
    if ApiError(doc) then GetInt(Field(doc, "errorCode")) else None
  }

  function DataOf(doc: JSON): string
  {
    if Subscriptable(doc) && !ApiError(doc) && GetString(Field(doc, "data")).Some? then
      GetString(Field(doc, "data")).value
    else ""
  }

  function RequestIdOf(doc: JSON): int
  {
    if ReachesIds(doc) && GetInt(Field(doc, "requestId")).Some? then GetInt(Field(doc, "requestId")).value
    else -1
  }

  function SessionIdOf(doc: JSON): int
  {
    if ReachesIds(doc) && GetInt(Field(doc, "requestId")).Some? && GetInt(Field(doc, "sessionId")).Some? then
      GetInt(Field(doc, "sessionId")).value
    else -1
  }

  function MessageOf(doc: JSON, what: Fault -> string): string
  {
    match FirstFault(doc)
    case Some(f) => "JSON parse error: " + what(f)
    case None => if ApiError(doc) then GetString(Field(doc, "errorMessage")).value else ""
  }

  predicate Numeric(v: JSON)
  {
    v.JInt? || v.JBool?
  }

  /** A successful login body: an object without an error code, with a
      string `data` and numeric ids. */
  predicate Accepted(doc: JSON)
  {
    doc.JObj? && Field(doc, "errorCode") == JNull && Field(doc, "data").JStr?
    && Numeric(Field(doc, "requestId")) && Numeric(Field(doc, "sessionId"))
  }

  /** An API error body whose four fields all convert. */
  predicate Reported(doc: JSON)
  {
    doc.JObj? && Numeric(Field(doc, "errorCode")) && Field(doc, "errorMessage").JStr?
    && Numeric(Field(doc, "requestId")) && Numeric(Field(doc, "sessionId"))
  }

  /** The login result, field by field. `what` stands for the library's
      exception texts. */
  function Classified(t: Transport, what: Fault -> string): (r: LoginResponse)
    ensures !t.ok ==> r == Failed("Failed to perform HTTP POST request")
    ensures t.ok && t.httpCode != 200 ==> r == Failed("HTTP error code: " + DecimalString(t.httpCode))
    ensures r.success <==> t.ok && t.httpCode == 200 && t.body.Parsed? && Accepted(t.body.doc)
    ensures r.success ==>
      r.data == Field(t.body.doc, "data").s && r.errorData == ErrorResponse("", None) &&
      r.metaData == MetaDataResponse(GetInt(Field(t.body.doc, "requestId")).value,
                                     GetInt(Field(t.body.doc, "sessionId")).value)
    ensures t.ok && t.httpCode == 200 && t.body.Parsed? && Reported(t.body.doc) ==>
      r == LoginResponse("", ErrorResponse(Field(t.body.doc, "errorMessage").s,
                                           GetInt(Field(t.body.doc, "errorCode"))),
                         MetaDataResponse(GetInt(Field(t.body.doc, "requestId")).value,
                                          GetInt(Field(t.body.doc, "sessionId")).value), false)
    ensures t.ok && t.httpCode == 200 && !r.success && !(t.body.Parsed? && Reported(t.body.doc)) ==>
      "JSON parse error: " <= r.errorData.errorMessage
  {
    if !t.ok then Failed("Failed to perform HTTP POST request")
    else if t.httpCode != 200 then Failed("HTTP error code: " + DecimalString(t.httpCode))
    else if t.body.Malformed? then Failed("JSON parse error: " + what(Unparsable))
    else
      var doc := t.body.doc;
      LoginResponse(DataOf(doc), ErrorResponse(MessageOf(doc, what), CodeOf(doc)),
                    MetaDataResponse(RequestIdOf(doc), SessionIdOf(doc)),
                    FirstFault(doc).None? && !ApiError(doc))
  }

  /** The `catch` handler: the message is replaced, other fields stay. */
  function Thrown(result: LoginResponse, text: string): LoginResponse
  {
    result.(errorData := result.errorData.(errorMessage := "JSON parse error: " + text), success := false)
  }

  /** The id extractions shared by both branches of the `try` block;
      `thrown` reports whether one of them threw. */
  method ExtractIds(doc: JSON, what: Fault -> string, result0: LoginResponse)
    returns (result: LoginResponse, thrown: bool)
    ensures thrown <==> GetInt(Field(doc, "requestId")).None? || GetInt(Field(doc, "sessionId")).None?
    ensures GetInt(Field(doc, "requestId")).None? ==>
      result == Thrown(result0, what(NotANumber("requestId")))
    ensures GetInt(Field(doc, "requestId")).Some? && GetInt(Field(doc, "sessionId")).None? ==>
      result == Thrown(result0.(metaData := result0.metaData.(requestId := GetInt(Field(doc, "requestId")).value)),
                       what(NotANumber("sessionId")))
    ensures GetInt(Field(doc, "requestId")).Some? && GetInt(Field(doc, "sessionId")).Some? ==>
      result == result0.(metaData := MetaDataResponse(GetInt(Field(doc, "requestId")).value,
                                                      GetInt(Field(doc, "sessionId")).value))
  {
    result, thrown := result0, true;
    var requestId := GetInt(Field(doc, "requestId"));
    if requestId.None? {
      return Thrown(result, what(NotANumber("requestId"))), thrown;
    }
    result := result.(metaData := result.metaData.(requestId := requestId.value));
    var sessionId := GetInt(Field(doc, "sessionId"));
    if sessionId.None? {
      return Thrown(result, what(NotANumber("sessionId"))), thrown;
    }
    result := result.(metaData := result.metaData.(sessionId := sessionId.value));
    thrown := false;
  }

  /** The `try` block on a parsed document. */
  method ParseResponse(doc: JSON, what: Fault -> string) returns (result: LoginResponse)
    ensures result == Classified(Transport(true, 200, Parsed(doc)), what)
  {
    result := Fresh;
    if !Subscriptable(doc) {
      return Thrown(result, what(NotAnObject));
    }
    var errorCode := Field(doc, "errorCode");
    if !errorCode.JNull? {
      var code := GetInt(errorCode);
      if code.None? {
        return Thrown(result, what(NotANumber("errorCode")));
      }
      result := result.(errorData := result.errorData.(errorCode := code));
      var message := GetString(Field(doc, "errorMessage"));
      if message.None? {
        return Thrown(result, what(NotAString("errorMessage")));
      }
      result := result.(errorData := result.errorData.(errorMessage := message.value));
      var idsThrown;
      result, idsThrown := ExtractIds(doc, what, result);
      result := result.(success := false);
      return;
    }
    var data := GetString(Field(doc, "data"));
    if data.None? {
      return Thrown(result, what(NotAString("data")));
    }
    result := result.(data := data.value);
    var thrown;
    result, thrown := ExtractIds(doc, what, result);
    if !thrown {
      result := result.(success := true);
    }
  }

  /** The inline classification of both login calls: transport failure,
      then a status other than 200, then the parsing `try` block. */
  method ClassifyLogin(t: Transport, what: Fault -> string) returns (result: LoginResponse)
    ensures result == Classified(t, what)
  {
    result := Fresh;
    if !t.ok {
      result := result.(errorData := result.errorData.(errorMessage := "Failed to perform HTTP POST request"),
                        success := false);
      return;
    }
    if t.httpCode != 200 {
      result := result.(errorData := result.errorData.(errorMessage := "HTTP error code: " + DecimalString(t.httpCode)),
                        success := false);
      return;
    }
    match t.body
    case Malformed =>
      result := Thrown(result, what(Unparsable));
    case Parsed(doc) =>
      result := ParseResponse(doc, what);
  }

  /** `loginAppGuest` of this version: the same payload as the decoder-based
      version, posted to the base URL followed by the path, then classified. */
  method LoginAppGuest(applicationToken: string, userToken: string, t: Transport, what: Fault -> string)
    returns (url: string, request: Request, result: LoginResponse)
    ensures request == LoginApi.LoginAppGuest(applicationToken, userToken)
    ensures url == ApiUrl + request.path
    ensures result == Classified(t, what)
  {
    request := Send("login-app-guest", JObj(map["applicationToken" := JStr(applicationToken),
                                                "userToken" := JStr(userToken)]));
    url := ApiUrl + "login-app-guest";
    result := ClassifyLogin(t, what);
  }

  /** `loginToken` of this version: `userContext` is an arbitrary JSON value,
      sent only when nlohmann deems it non-empty (so a scalar is sent). */
  method LoginToken(username: string, token: string, userContext: JSON, t: Transport, what: Fault -> string)
    returns (url: string, request: Request, result: LoginResponse)
    ensures request.Send? && request.path == "login-token"
    ensures url == ApiUrl + "login-token"
    ensures Payload(request.payload, map["username" := Some(JStr(username)), "token" := Some(JStr(token)),
                                         "userContext" := if IsEmpty(userContext) then None else Some(userContext)])
    ensures result == Classified(t, what)
  {
    var m := map["username" := JStr(username), "token" := JStr(token)];
    ghost var fields: Fields := map["username" := Some(JStr(username)), "token" := Some(JStr(token))];
    if !IsEmpty(userContext) {
      m := m["userContext" := userContext];
    }
    fields := fields["userContext" := if IsEmpty(userContext) then None else Some(userContext)];
    assert Tracks(m, fields);
    ObjectOfMembers(m, fields);
    request := Send("login-token", JObj(m));
    url := ApiUrl + "login-token";
    result := ClassifyLogin(t, what);
  }
}

/** The shared HTTP client of src/lib/api.ts: the default header map that
    `setAuthToken` rewrites in place, the pass-through response interceptor, and the
    requests that `apiService` sends (paths, bodies, multipart field names, timeouts).
    The transport itself is not modelled: a call's result is an `Outcome` supplied
    by the caller. */
module Api {
  import opened Common
  import Text

  type Headers = map<string, string>

  const AuthorizationKey := "Authorization"
  const ContentTypeKey := "Content-Type"
  const JsonContentType := "application/json"
  const MultipartContentType := "multipart/form-data"

  /** The instance-wide timeout, and the two per-call overrides. */
  const DefaultTimeoutMs := 120000
  const BgRemoveTimeoutMs := 180000
  const ResumeTimeoutMs := 120000

  const HistoryLimitQuery := "/history?limit="
  const DefaultHistoryLimit := 50

  /** A file picked in an `<input type="file">`: its name, MIME type and size in bytes. */
  datatype File = File(name: string, mimeType: string, size: nat)

  datatype Method = Get | Post

  /** One `formData.append(field, file)` entry. */
  datatype Part = Part(field: string, file: File)

  datatype Body =
    | NoBody
    | ArticleBody(title: string, length: string)
    | ImageBody(prompt: string, style: Option<string>, size: Option<string>)
    | FormBody(parts: seq<Part>)

  /** A request as it leaves the client, with the headers it carries and its timeout. */
  datatype Request = Request(verb: Method, path: string, body: Body, headers: Headers, timeoutMs: nat)

  /** A request carries the credential of the shared map as it stood when the
      request was sent, and none when the map had none. */
  predicate CarriesCredentialOf(req: Request, common: Headers)
  {
    && (AuthorizationKey in req.headers <==> AuthorizationKey in common)
    && (AuthorizationKey in common ==> req.headers[AuthorizationKey] == common[AuthorizationKey])
  }

  /** The parts of an axios error the pages read: `response.status`, and in
      `response.data` the fields `error`, `message` and `details.fieldErrors`. */
  datatype Details = Details(fieldErrors: Option<map<string, seq<string>>>)
  datatype ErrorData = ErrorData(error: Option<string>, message: Option<string>, details: Option<Details>)
  datatype ErrorResponse = ErrorResponse(status: int, data: Option<ErrorData>)
  datatype ApiError = ApiError(message: string, response: Option<ErrorResponse>)

  /** How a call settled: the response body, or the error it rejected with. */
  datatype Outcome<+T> = Ok(data: T) | Err(error: ApiError)

  /** `error.response?.data?.message`. */
  function ResponseMessage(e: ApiError): Option<string>
  {
    if e.response.Some? && e.response.value.data.Some? then e.response.value.data.value.message else None
  }

  /** `error.response?.data?.message || fallback`: the failure text the upload and
      image pages show. */
  function MessageOr(e: ApiError, fallback: string): (r: string)
    ensures Truthy(ResponseMessage(e)) ==> r == ResponseMessage(e).value
    ensures !Truthy(ResponseMessage(e)) ==> r == fallback
  {
    var candidates := [ResponseMessage(e), Some(fallback)];
    assert !Truthy(candidates[1]) ==> fallback == "";
    FirstTruthy(candidates)
  }

  /** The header map `setAuthToken(token)` leaves behind: a non-empty token is
      stored as a bearer credential, an empty one removes the key, and no other key
      is touched. */
  function WithAuthToken(common: Headers, token: string): (r: Headers)
    ensures token != "" ==> AuthorizationKey in r && r[AuthorizationKey] == "Bearer " + token
    ensures token == "" ==> AuthorizationKey !in r
    ensures forall k :: k != AuthorizationKey ==> (k in r <==> k in common)
    ensures forall k :: k in r && k != AuthorizationKey ==> r[k] == common[k]
  {
    if token != "" then common[AuthorizationKey := "Bearer " + token]
    else common - {AuthorizationKey}
  }

  /** Only the last of two `setAuthToken` calls matters; in particular repeating a
      call changes nothing. */
  lemma LastWriteWins(common: Headers, first: string, second: string)
    ensures WithAuthToken(WithAuthToken(common, first), second) == WithAuthToken(common, second)
  {
    var a := WithAuthToken(WithAuthToken(common, first), second);
    var b := WithAuthToken(common, second);
    assert forall k :: k in a <==> k in b;
  }

  /** The response interceptor: a response is passed on as it is, and an error is
      rejected again with the same error object. */
  function Intercept<T>(o: Outcome<T>): (r: Outcome<T>)
    ensures r.Ok? <==> o.Ok?
    ensures r.Ok? ==> r.data == o.data
    ensures r.Err? ==> r.error == o.error
  {
    match o
    case Ok(response) => Ok(response)
    case Err(error) => Err(error)
  }

  /** The headers a request carries: the `common` defaults, overridden by the
      instance's own headers, overridden by the call's. */
  function MergeHeaders(common: Headers, instance: Headers, call: Headers): (r: Headers)
    ensures forall k :: k in r <==> k in common || k in instance || k in call
    ensures forall k :: k in call ==> r[k] == call[k]
    ensures forall k :: k in instance && k !in call ==> r[k] == instance[k]
    ensures forall k :: k in common && k !in instance && k !in call ==> r[k] == common[k]
  {
    common + instance + call
  }

  /** The axios instance created in src/lib/api.ts. */
  class Client {
    /** The headers given to `axios.create`. */
    const instanceHeaders: Headers := map[ContentTypeKey := JsonContentType]
    /** `api.defaults.headers.common`, the map `setAuthToken` writes. */
    var common: Headers

    /** `libraryCommon` is whatever the HTTP library itself puts in `common`. */
    constructor (libraryCommon: Headers)
      ensures common == libraryCommon
    {
      common := libraryCommon;
    }

    /** `setAuthToken`: the only writer of the shared header map. */
    method SetAuthToken(token: string)
      modifies this
      ensures common == WithAuthToken(old(common), token)
    {
      if token != "" {
        common := common[AuthorizationKey := "Bearer " + token];
      } else {
        common := common - {AuthorizationKey};
      }
    }

    /** Sends one request: the headers are read from the shared map at this moment,
        and a missing timeout falls back to the instance's. */
    method Send(verb: Method, path: string, body: Body, callHeaders: Headers, timeout: Option<nat>)
      returns (req: Request)
      requires AuthorizationKey !in callHeaders
      ensures req.verb == verb && req.path == path && req.body == body
      ensures CarriesCredentialOf(req, common)
      ensures ContentTypeKey in req.headers
      ensures req.headers[ContentTypeKey]
              == if ContentTypeKey in callHeaders then callHeaders[ContentTypeKey] else JsonContentType
      ensures req.timeoutMs == (if timeout.Some? then timeout.value else DefaultTimeoutMs)
    {
      var headers := MergeHeaders(common, instanceHeaders, callHeaders);
      var ms := if timeout.Some? then timeout.value else DefaultTimeoutMs;
      req := Request(verb, path, body, headers, ms);
    }

    /** `apiService.generateArticle`. */
    method GenerateArticle(title: string, length: string) returns (req: Request)
      ensures req.verb == Post && req.path == "/article"
      ensures req.body == ArticleBody(title, length)
      ensures CarriesCredentialOf(req, common)
      ensures ContentTypeKey in req.headers && req.headers[ContentTypeKey] == JsonContentType
      ensures req.timeoutMs == DefaultTimeoutMs
    {
      req := Send(Post, "/article", ArticleBody(title, length), map[], None);
    }

    /** `apiService.generateImage`. */
    method GenerateImage(prompt: string, style: Option<string>, size: Option<string>) returns (req: Request)
      ensures req.verb == Post && req.path == "/image"
      ensures req.body == ImageBody(prompt, style, size)
      ensures CarriesCredentialOf(req, common)
      ensures ContentTypeKey in req.headers && req.headers[ContentTypeKey] == JsonContentType
      ensures req.timeoutMs == DefaultTimeoutMs
    {
      req := Send(Post, "/image", ImageBody(prompt, style, size), map[], None);
    }

    /** `apiService.removeBackground`: a one-part form under the field `image`,
        with the longer timeout. */
    method RemoveBackground(file: File) returns (req: Request)
      ensures req.verb == Post && req.path == "/bg-remove"
      ensures req.body == FormBody([Part("image", file)])
      ensures CarriesCredentialOf(req, common)
      ensures ContentTypeKey in req.headers && req.headers[ContentTypeKey] == MultipartContentType
      ensures req.timeoutMs == BgRemoveTimeoutMs && req.timeoutMs >= DefaultTimeoutMs
    {
      req := Send(Post, "/bg-remove", FormBody([Part("image", file)]), map[ContentTypeKey := MultipartContentType],
                  Some(BgRemoveTimeoutMs));
    }

    /** `apiService.analyzeResume`: a one-part form under the field `file`. */
    method AnalyzeResume(file: File) returns (req: Request)
      ensures req.verb == Post && req.path == "/resume"
      ensures req.body == FormBody([Part("file", file)])
      ensures CarriesCredentialOf(req, common)
      ensures ContentTypeKey in req.headers && req.headers[ContentTypeKey] == MultipartContentType
      ensures req.timeoutMs == ResumeTimeoutMs && req.timeoutMs >= DefaultTimeoutMs
    {
      req := Send(Post, "/resume", FormBody([Part("file", file)]), map[ContentTypeKey := MultipartContentType],
                  Some(ResumeTimeoutMs));
    }

    /** `apiService.getHistory(limit = 50)`: the limit travels as decimal text in the
        query string, and reading it back gives the limit. */
    method GetHistory(limit: Option<nat>) returns (req: Request)
      ensures req.verb == Get && req.body == NoBody
      ensures CarriesCredentialOf(req, common)
      ensures req.path == HistoryLimitQuery + Text.NatToString(if limit.Some? then limit.value else DefaultHistoryLimit)
      ensures Text.StartsWith(req.path, HistoryLimitQuery)
      ensures var digits := req.path[|HistoryLimitQuery|..];
              (forall i :: 0 <= i < |digits| ==> Text.IsDigit(digits[i]))
              && Text.ParseNat(digits) == (if limit.Some? then limit.value else DefaultHistoryLimit)
      ensures req.timeoutMs == DefaultTimeoutMs
    {
      var n := if limit.Some? then limit.value else DefaultHistoryLimit;
      var path := HistoryLimitQuery + Text.NatToString(n);
      assert path[|HistoryLimitQuery|..] == Text.NatToString(n);
      Text.ParseNatToString(n);
      req := Send(Get, path, NoBody, map[], None);
    }

    /** `apiService.getUsage`. */
    method GetUsage() returns (req: Request)
      ensures req.verb == Get && req.path == "/history/usage" && req.body == NoBody
      ensures CarriesCredentialOf(req, common)
      ensures req.timeoutMs == DefaultTimeoutMs
    {
      req := Send(Get, "/history/usage", NoBody, map[], None);
    }
  }
}

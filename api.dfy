/** The API client's decision logic (src/lib/api.ts) over abstract network
 *  outcomes: how each call turns a response, a timeout or a failed connection
 *  into a value or an `ApiError`, which path `uploadImage` takes, and how
 *  `compare` builds its request and reports progress. The authenticated
 *  dispatcher `fetchWithAuth` is in module `Dispatch`. */
module Api {
  import opened Common
  import opened Types

  /** The `code` strings of `ApiError`: 'AUTH_FAILED', 'API_ERROR', 'NETWORK_ERROR', 'TIMEOUT'. */
  datatype ErrorCode = AuthFailed | ApiErrorCode | NetworkError | Timeout

  datatype ApiError = ApiError(message: string, status: Option<int>, code: Option<ErrorCode>)

  /** A response as the client reads it: its status, the `detail` field of its
      JSON error body (absent when there is none or it does not parse) and its
      decoded success body. */
  datatype Reply<B> = Reply(status: int, detail: Option<string>, body: B)

  /** What one `fetchWithTimeout` call ends in: a response, the abort timer
      firing (an `AbortError`), or a failed connection (any other error). */
  datatype Outcome<B> = Responded(reply: Reply<B>) | TimedOut | Unreachable

  /** What an awaited call can throw. */
  datatype Exception = Thrown(error: ApiError) | AbortError | OtherError

  /** `response.ok`. */
  predicate IsOk(status: int) {
    200 <= status <= 299
  }

  /** An outcome seen as a settled promise: a response, or what `fetch` rejected with. */
  function Settle<B>(o: Outcome<B>): (r: Result<Reply<B>, Exception>)
    ensures r.Ok? <==> o.Responded?
    ensures r.Ok? ==> r.value == o.reply
    ensures r.Err? ==> (r.error == AbortError <==> o.TimedOut?)
    ensures r.Err? ==> !r.error.Thrown?
  {
    match o
    case Responded(reply) => Ok(reply)
    case TimedOut => Err(AbortError)
    case Unreachable => Err(OtherError)
  }

  const CONNECT_MESSAGE := "Unable to connect. Please check your internet connection."

  function CredentialsCall(o: Outcome<AuthResponse>, fallback: string): Result<AuthResponse, ApiError> {
    match o
    case Responded(reply) =>
      if IsOk(reply.status) then Ok(reply.body)
      else Err(ApiError(OrElse(reply.detail, fallback), Some(reply.status),
                        Some(if reply.status == 401 then AuthFailed else ApiErrorCode)))
    case _ => Err(ApiError(CONNECT_MESSAGE, None, Some(NetworkError)))
  }

  /** `login`: a non-ok response fails with its detail or 'Login failed', its
      status, and code AUTH_FAILED exactly when the status is 401; a transport
      failure fails with code NETWORK_ERROR. */
  function Login(o: Outcome<AuthResponse>): (r: Result<AuthResponse, ApiError>)
    ensures r.Ok? <==> o.Responded? && IsOk(o.reply.status)
    ensures r.Ok? ==> r.value == o.reply.body
    ensures r.Err? && o.Responded? ==>
              r.error.status == Some(o.reply.status) && r.error.message == OrElse(o.reply.detail, "Login failed")
    ensures r.Err? ==> r.error.code.Some? && r.error.message != ""
    ensures r.Err? ==> (r.error.code == Some(AuthFailed) <==> o.Responded? && o.reply.status == 401)
    ensures r.Err? ==> (r.error.code == Some(NetworkError) <==> !o.Responded?)
    ensures !o.Responded? ==> r == Err(ApiError(CONNECT_MESSAGE, None, Some(NetworkError)))
  {
    CredentialsCall(o, "Login failed")
  }

  /** `signup`: as `login`, with the default message 'Signup failed'. */
  function Signup(o: Outcome<AuthResponse>): (r: Result<AuthResponse, ApiError>)
    ensures r.Ok? <==> o.Responded? && IsOk(o.reply.status)
    ensures r.Ok? ==> r.value == o.reply.body
    ensures r.Err? && o.Responded? ==>
              r.error.status == Some(o.reply.status) && r.error.message == OrElse(o.reply.detail, "Signup failed")
    ensures r.Err? ==> r.error.code.Some? && r.error.message != ""
    ensures r.Err? ==> (r.error.code == Some(AuthFailed) <==> o.Responded? && o.reply.status == 401)
    ensures r.Err? ==> (r.error.code == Some(NetworkError) <==> !o.Responded?)
    ensures !o.Responded? ==> r == Err(ApiError(CONNECT_MESSAGE, None, Some(NetworkError)))
  {
    CredentialsCall(o, "Signup failed")
  }

  /** `login` and `signup` classify every outcome alike: they succeed
      together with the same value, and fail with the same status and code;
      only the message of a response without a detail differs. */
  lemma LoginAgreesWithSignup(o: Outcome<AuthResponse>)
    ensures Login(o).Ok? <==> Signup(o).Ok?
    ensures Login(o).Ok? ==> Login(o) == Signup(o)
    ensures Login(o).Err? ==>
              Login(o).error.status == Signup(o).error.status && Login(o).error.code == Signup(o).error.code
    ensures !(o.Responded? && !Truthy(o.reply.detail)) ==> Login(o) == Signup(o)
  {
  }

  /** `refresh`: errors carry no code; a non-ok response keeps its status. */
  function Refresh(o: Outcome<AuthResponse>): (r: Result<AuthResponse, ApiError>)
    ensures r.Ok? <==> o.Responded? && IsOk(o.reply.status)
    ensures r.Ok? ==> r.value == o.reply.body
    ensures r.Err? ==> r.error.code == None && (r.error.status.Some? <==> o.Responded?)
    ensures r.Err? && o.Responded? ==>
              r.error == ApiError(OrElse(o.reply.detail, "Token refresh failed"), Some(o.reply.status), None)
    ensures !o.Responded? ==> r == Err(ApiError("Network error during token refresh", None, None))
  {
    match o
    case Responded(reply) =>
      if IsOk(reply.status) then Ok(reply.body)
      else Err(ApiError(OrElse(reply.detail, "Token refresh failed"), Some(reply.status), None))
    case _ => Err(ApiError("Network error during token refresh", None, None))
  }

  /** `confirm` never throws: every failure is `{success: false}` with a message. */
  function Confirm(o: Outcome<ConfirmResponse>): (r: ConfirmResponse)
    ensures o.Responded? && IsOk(o.reply.status) ==> r == o.reply.body
    ensures !(o.Responded? && IsOk(o.reply.status)) ==> !r.success && Truthy(r.message)
    ensures o.Responded? && !IsOk(o.reply.status) ==>
              r.message == Some(OrElse(o.reply.detail, "Confirmation failed"))
    ensures !o.Responded? ==> r.message == Some("Network error during confirmation")
  {
    match o
    case Responded(reply) =>
      if IsOk(reply.status) then reply.body
      else ConfirmResponse(false, Some(OrElse(reply.detail, "Confirmation failed")))
    case _ => ConfirmResponse(false, Some("Network error during confirmation"))
  }

  /** `logout` never throws: every failure is `{success: false}`. */
  function Logout(o: Outcome<LogoutResponse>): (r: LogoutResponse)
    ensures o.Responded? && IsOk(o.reply.status) ==> r == o.reply.body
    ensures !(o.Responded? && IsOk(o.reply.status)) ==> !r.success
  {
    match o
    case Responded(reply) => if IsOk(reply.status) then reply.body else LogoutResponse(false)
    case _ => LogoutResponse(false)
  }

  /** `getImageKitAuth`. */
  function GetImageKitAuth(o: Outcome<ImageKitAuth>): (r: Result<ImageKitAuth, ApiError>)
    ensures r.Ok? <==> o.Responded? && IsOk(o.reply.status)
    ensures r.Ok? ==> r.value == o.reply.body
    ensures r.Err? && o.Responded? ==>
              r.error == ApiError(OrElse(o.reply.detail, "Failed to get ImageKit auth"), Some(o.reply.status), None)
    ensures !o.Responded? ==> r == Err(ApiError("Network error during ImageKit auth", None, None))
  {
    match o
    case Responded(reply) =>
      if IsOk(reply.status) then Ok(reply.body)
      else Err(ApiError(OrElse(reply.detail, "Failed to get ImageKit auth"), Some(reply.status), None))
    case _ => Err(ApiError("Network error during ImageKit auth", None, None))
  }

  /** The `catch` of `mockUpload`, `scan`, `getHistory` and `compare`: an
      `ApiError` is rethrown unchanged, an `AbortError` becomes a TIMEOUT error
      when the call has a timeout message, anything else the call's network message. */
  function WrapException(e: Exception, timeoutMessage: Option<string>, otherMessage: string): (r: ApiError)
    ensures e.Thrown? ==> r == e.error
    ensures e.AbortError? && timeoutMessage.Some? ==> r == ApiError(timeoutMessage.value, None, Some(Timeout))
    ensures !e.Thrown? && !(e.AbortError? && timeoutMessage.Some?) ==> r == ApiError(otherMessage, None, None)
    ensures r.code == Some(Timeout) ==> e.Thrown? || e.AbortError?
  {
    match e
    case Thrown(err) => err
    case AbortError => if timeoutMessage.Some? then ApiError(timeoutMessage.value, None, Some(Timeout))
                       else ApiError(otherMessage, None, None)
    case OtherError => ApiError(otherMessage, None, None)
  }

  /** `mockUpload`, over what `fetchWithAuth` settled to. */
  function MockUpload(d: Result<Reply<MockUploadResponse>, Exception>): (r: Result<MockUploadResponse, ApiError>)
    ensures r.Ok? <==> d.Ok? && IsOk(d.value.status)
    ensures r.Ok? ==> r.value == d.value.body
    ensures d.Ok? && !IsOk(d.value.status) ==> r == Err(ApiError("Failed to upload image", Some(d.value.status), None))
    ensures d.Err? ==> r == Err(WrapException(d.error, Some("Upload timeout - please try again"),
                                              "Failed to upload image - please try again"))
  {
    match d
    case Ok(reply) =>
      if IsOk(reply.status) then Ok(reply.body)
      else Err(ApiError("Failed to upload image", Some(reply.status), None))
    case Err(e) => Err(WrapException(e, Some("Upload timeout - please try again"), "Failed to upload image - please try again"))
  }

  /** The failure message of `scan` and `compare` for a non-ok status: 417 is a
      processing failure, any other status a plain failure; the detail wins. */
  function StatusMessage(status: int, detail: Option<string>, processingFailed: string, failed: string): (m: string)
    ensures Truthy(detail) ==> m == detail.value
    ensures !Truthy(detail) && status == 417 ==> m == processingFailed
    ensures !Truthy(detail) && status != 417 ==> m == failed
  {
    OrElse(detail, if status == 417 then processingFailed else failed)
  }

  /** `scan`, over what `fetchWithAuth` settled to: the result keeps the
      response's url when it has one, else the request's url. */
  function Scan(d: Result<Reply<ScanResult>, Exception>, request: ScanRequest): (r: Result<ScanResult, ApiError>)
    ensures r.Ok? <==> d.Ok? && IsOk(d.value.status)
    ensures r.Ok? ==> r.value == d.value.body.(url := r.value.url)
    ensures r.Ok? && d.value.body.url != "" ==> r.value.url == d.value.body.url
    ensures r.Ok? && d.value.body.url == "" ==> r.value.url == request.url
    ensures d.Ok? && !IsOk(d.value.status) ==>
              r == Err(ApiError(StatusMessage(d.value.status, d.value.detail, "Scan processing failed", "Scan failed"),
                                Some(d.value.status), None))
    ensures d.Err? ==> r == Err(WrapException(d.error, Some("Scan timeout - please try again"), "Network error during scan"))
  {
    match d
    case Ok(reply) =>
      if IsOk(reply.status) then Ok(reply.body.(url := Or(reply.body.url, request.url)))
      else Err(ApiError(StatusMessage(reply.status, reply.detail, "Scan processing failed", "Scan failed"),
                        Some(reply.status), None))
    case Err(e) => Err(WrapException(e, Some("Scan timeout - please try again"), "Network error during scan"))
  }

  /** `getHistory` throws on every failure; it has no timeout message. */
  function GetHistory(d: Result<Reply<seq<HistoryItem>>, Exception>): (r: Result<seq<HistoryItem>, ApiError>)
    ensures r.Ok? <==> d.Ok? && IsOk(d.value.status)
    ensures r.Ok? ==> r.value == d.value.body
    ensures d.Ok? && !IsOk(d.value.status) ==> r == Err(ApiError("Failed to fetch history", Some(d.value.status), None))
    ensures d.Err? && !d.error.Thrown? ==> r == Err(ApiError("Network error during history fetch", None, None))
    ensures d.Err? && d.error.Thrown? ==> r == Err(d.error.error)
  {
    match d
    case Ok(reply) =>
      if IsOk(reply.status) then Ok(reply.body)
      else Err(ApiError("Failed to fetch history", Some(reply.status), None))
    case Err(e) => Err(WrapException(e, None, "Network error during history fetch"))
  }

  /** Code TIMEOUT comes only from the abort timer (or an error rethrown
      with it), never from a response; `getHistory`, which has no timeout
      message, reports an abort as a network error. */
  lemma TimeoutOnlyFromAbort(d: Result<Reply<ScanResult>, Exception>, request: ScanRequest,
                             h: Result<Reply<seq<HistoryItem>>, Exception>)
    ensures Scan(d, request).Err? && Scan(d, request).error.code == Some(Timeout) ==>
              d == Err(AbortError) || (d.Err? && d.error.Thrown? && d.error.error.code == Some(Timeout))
    ensures GetHistory(h).Err? && GetHistory(h).error.code == Some(Timeout) ==>
              h.Err? && h.error.Thrown? && h.error.error.code == Some(Timeout)
    ensures GetHistory(Err(AbortError)) == Err(ApiError("Network error during history fetch", None, None))
  {
  }

  // ---------------------------------------------------------------------------
  // uploadImage

  /** Where `uploadImage` sends the file once it has the ImageKit parameters. */
  datatype UploadRoute = BackendUpload | SdkUpload | MissingParameters

  /** `envConfigured`: an ImageKit instance was built from the environment's keys. */
  function Route(auth: ImageKitAuth, envConfigured: bool): (route: UploadRoute)
    ensures route == BackendUpload <==>
              auth.mockMode == Some(true) ||
              (!envConfigured && !(Truthy(auth.publicKey) && Truthy(auth.urlEndpoint)))
    ensures route == MissingParameters <==>
              route != BackendUpload &&
              (!Truthy(auth.token) || !Truthy(auth.signature) || !NumberTruthy(auth.expire))
  {
    if auth.mockMode == Some(true) then BackendUpload
    else if !envConfigured && !(Truthy(auth.publicKey) && Truthy(auth.urlEndpoint)) then BackendUpload
    else if !Truthy(auth.token) || !Truthy(auth.signature) || !NumberTruthy(auth.expire) then MissingParameters
    else SdkUpload
  }

  /** An upload's settled url or error, with the progress values it reported in order. */
  datatype UploadRun = UploadRun(result: Result<string, ApiError>, progress: seq<real>)

  const MISSING_PARAMETERS := "Missing authentication parameters for ImageKit upload"

  /** `uploadImage`. `auth` is the ImageKit-auth request's outcome, `backend`
      what `fetchWithAuth` settles to for the backend upload, and `sdk` the SDK
      upload's callback: an error with an optional message, or the file's url. */
  function UploadImage(auth: Outcome<ImageKitAuth>, envConfigured: bool,
                       backend: Result<Reply<MockUploadResponse>, Exception>,
                       sdk: Result<string, Option<string>>): (run: UploadRun)
    ensures GetImageKitAuth(auth).Err? ==> run == UploadRun(Err(GetImageKitAuth(auth).error), [])
    ensures GetImageKitAuth(auth).Ok? ==>
              var route := Route(GetImageKitAuth(auth).value, envConfigured);
              && (route == BackendUpload ==>
                    run.progress == [] &&
                    run.result == match MockUpload(backend)
                                  case Ok(m) => Ok(m.imageUrl)
                                  case Err(e) => Err(e))
              && (route == MissingParameters ==>
                    run == UploadRun(Err(ApiError(MISSING_PARAMETERS, None, None)), [10.0]))
              && (route == SdkUpload && sdk.Ok? ==> run == UploadRun(Ok(sdk.value), [10.0, 100.0]))
              && (route == SdkUpload && sdk.Err? ==>
                    run == UploadRun(Err(ApiError("Image upload failed: " + OrElse(sdk.error, "Unknown error"), None, None)),
                                     [10.0]))
    ensures run.result.Ok? && run.progress != [] ==> run.progress == [10.0, 100.0]
  {
    match GetImageKitAuth(auth)
    case Err(e) => UploadRun(Err(e), [])
    case Ok(params) =>
      match Route(params, envConfigured)
      case BackendUpload =>
        (match MockUpload(backend)
         case Ok(m) => UploadRun(Ok(m.imageUrl), [])
         case Err(e) => UploadRun(Err(e), []))
      case MissingParameters => UploadRun(Err(ApiError(MISSING_PARAMETERS, None, None)), [10.0])
      case SdkUpload =>
        match sdk
        case Ok(url) => UploadRun(Ok(url), [10.0, 100.0])
        case Err(message) => UploadRun(Err(ApiError("Image upload failed: " + OrElse(message, "Unknown error"), None, None)), [10.0])
  }

  // ---------------------------------------------------------------------------
  // compare

  /** The path `compare` posts to, spelled as in the client. */
  const COMPARE_PATH := "/comapre"

  /** An upload's progress `p` (0 to 100) as part of the comparison's progress. */
  function UploadShare(p: real): (q: real)
    ensures 0.0 <= p <= 100.0 ==> 10.0 <= q <= 45.0
    ensures p == 0.0 ==> q == 10.0
    ensures p == 100.0 ==> q == 45.0
  {
    10.0 + p * 0.35
  }

  function UploadShares(ps: seq<real>): (qs: seq<real>)
    ensures |qs| == |ps| && forall i :: 0 <= i < |ps| ==> qs[i] == UploadShare(ps[i])
  {
    seq(|ps|, i requires 0 <= i < |ps| => UploadShare(ps[i]))
  }

  /** The request body of `compare`: missing texts become "". */
  function CompareRequestOf(url1: string, url2: string, category: string,
                            allergy: Option<string>, usecase: Option<string>): (req: CompareRequest)
    ensures req.url1 == url1 && req.url2 == url2 && req.category == category
    ensures req.allergy == (if allergy.Some? then allergy.value else "")
    ensures req.usecase == (if usecase.Some? then usecase.value else "")
  {
    CompareRequest(url1, url2, category, OrElse(allergy, ""), OrElse(usecase, ""))
  }

  /** A comparison's result, the progress values it reported in order, and
      the request it posted (none when an upload failed). */
  datatype CompareRun = CompareRun(result: Result<CompareResult, ApiError>, progress: seq<real>,
                                   request: Option<CompareRequest>)

  /** `compare`: both uploads, then one post of both urls to `COMPARE_PATH`.
      `send` is what `fetchWithAuth` settles to for a path and a body. */
  function Compare(up1: UploadRun, up2: UploadRun, category: string,
                   allergy: Option<string>, usecase: Option<string>,
                   send: (string, CompareRequest) -> Result<Reply<CompareResult>, Exception>): (c: CompareRun)
    // 10 at the start, each upload's reports scaled into 10..45, 50 once the
    // request is posted and 100 once it succeeded
    ensures c.progress == [10.0] + UploadShares(up1.progress) + UploadShares(up2.progress) +
                          (if c.request.None? then [] else if c.result.Ok? then [50.0, 100.0] else [50.0])
    ensures c.request.Some? <==> up1.result.Ok? && up2.result.Ok?
    ensures up1.result.Err? ==> c.result == Err(up1.result.error)
    ensures up1.result.Ok? && up2.result.Err? ==> c.result == Err(up2.result.error)
    ensures c.request.Some? ==>
              c.request.value == CompareRequestOf(up1.result.value, up2.result.value, category, allergy, usecase)
    ensures c.request.Some? ==>
              var d := send(COMPARE_PATH, c.request.value);
              && (c.result.Ok? <==> d.Ok? && IsOk(d.value.status))
              && (c.result.Ok? ==> c.result.value == d.value.body)
              && (d.Ok? && !IsOk(d.value.status) ==>
                    c.result == Err(ApiError(StatusMessage(d.value.status, d.value.detail,
                                                           "Comparison processing failed", "Comparison failed"),
                                             Some(d.value.status), None)))
              && (d.Err? ==>
                    c.result == Err(WrapException(d.error, Some("Comparison timeout - please try again"),
                                                  "Network error during comparison")))
  {
    var uploads := [10.0] + UploadShares(up1.progress) + UploadShares(up2.progress);
    if up1.result.Err? then CompareRun(Err(up1.result.error), uploads, None)
    else if up2.result.Err? then CompareRun(Err(up2.result.error), uploads, None)
    else
      var request := CompareRequestOf(up1.result.value, up2.result.value, category, allergy, usecase);
      var progress := uploads + [50.0];
      match send(COMPARE_PATH, request)
      case Ok(reply) =>
        if IsOk(reply.status) then CompareRun(Ok(reply.body), progress + [100.0], Some(request))
        else CompareRun(Err(ApiError(StatusMessage(reply.status, reply.detail, "Comparison processing failed", "Comparison failed"),
                                     Some(reply.status), None)), progress, Some(request))
      case Err(e) =>
        CompareRun(Err(WrapException(e, Some("Comparison timeout - please try again"), "Network error during comparison")),
                   progress, Some(request))
  }

  /** When every upload report lies in 0..100, every progress value `compare`
      reports lies in 10..100. */
  lemma {:induction false} CompareProgressInRange(up1: UploadRun, up2: UploadRun, category: string,
                                                  allergy: Option<string>, usecase: Option<string>,
                                                  send: (string, CompareRequest) -> Result<Reply<CompareResult>, Exception>)
    requires forall i :: 0 <= i < |up1.progress| ==> 0.0 <= up1.progress[i] <= 100.0
    requires forall i :: 0 <= i < |up2.progress| ==> 0.0 <= up2.progress[i] <= 100.0
    ensures var c := Compare(up1, up2, category, allergy, usecase, send);
            forall i :: 0 <= i < |c.progress| ==> 10.0 <= c.progress[i] <= 100.0
  {
    var c := Compare(up1, up2, category, allergy, usecase, send);
    var uploads := [10.0] + UploadShares(up1.progress) + UploadShares(up2.progress);
    SharesInRange(up1.progress);
    SharesInRange(up2.progress);
    forall i | 0 <= i < |c.progress|
      ensures 10.0 <= c.progress[i] <= 100.0
    {
      if i < |uploads| {
        assert c.progress[i] == uploads[i];
      }
    }
  }

  /** Upload reports in 0..100 become shares in 10..45. */
  lemma SharesInRange(ps: seq<real>)
    requires forall i :: 0 <= i < |ps| ==> 0.0 <= ps[i] <= 100.0
    ensures forall i :: 0 <= i < |ps| ==> 10.0 <= UploadShares(ps)[i] <= 45.0
  {
  }
}

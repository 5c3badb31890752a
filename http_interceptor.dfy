/** The pure decisions of the frontend's HTTP interceptor
    (frontend/src/app/services/http.interceptor.ts): which requests carry
    credentials, and which toast, if any, an error raises. The toast and the
    public sign-in are returned as values instead of being performed. */
module HttpInterceptor {
  import opened Wrappers
  import opened JsStrings

  // ---------------------------------------------------------------------------
  // extractHostname

  /** `url.indexOf('//') > -1` */
  predicate HasDoubleSlash(url: string) {
    exists i :: 0 <= i < |url| - 1 && url[i] == '/' && url[i + 1] == '/'
  }

  /** A url with `//` in it has a third `/`-separated piece: `split('/')[2]`
      is always defined on it. */
  lemma {:induction false} DoubleSlashHasThirdPiece(url: string)
    requires HasDoubleSlash(url)
    ensures |Split(url, '/')| >= 3
  {
    var i :| 0 <= i < |url| - 1 && url[i] == '/' && url[i + 1] == '/';
    AdjacentSeparatorsSplitInThree(url, '/', i);
  }

  /** The piece of the url the hostname is read from: the one after the
      protocol's `//` when there is one, the first one otherwise. */
  function HostSegment(url: string): (seg: string)
    ensures '/' !in seg
    ensures HasDoubleSlash(url) ==> |Split(url, '/')| >= 3 && seg == Split(url, '/')[2]
    ensures !HasDoubleSlash(url) ==> seg == Split(url, '/')[0]
  {
    if HasDoubleSlash(url) then
      DoubleSlashHasThirdPiece(url);
      Split(url, '/')[2]
    else
      Split(url, '/')[0]
  }

  /** `extractHostname(url)`: the host segment with any `:port` and any
      `?query` cut off, that is, the segment up to its first `:` or `?`. */
  function ExtractHostname(url: string): (hostname: string)
    ensures '/' !in hostname && ':' !in hostname && '?' !in hostname
    ensures hostname <= HostSegment(url)
    ensures hostname == HostSegment(url) ||
            (|hostname| < |HostSegment(url)| && HostSegment(url)[|hostname|] in {':', '?'})
  {
    var withoutPort := Split(HostSegment(url), ':')[0];
    var hostname := Split(withoutPort, '?')[0];
    assert ':' !in hostname by {
      forall k | 0 <= k < |hostname| ensures hostname[k] != ':' {
        assert hostname[k] == withoutPort[k];
      }
    }
    assert '/' !in hostname by {
      forall k | 0 <= k < |hostname| ensures hostname[k] != '/' {
        assert hostname[k] == withoutPort[k] == HostSegment(url)[k];
      }
    }
    hostname
  }

  /** Extracting the hostname of a hostname changes nothing. */
  lemma ExtractHostnameIdempotent(url: string)
    ensures ExtractHostname(ExtractHostname(url)) == ExtractHostname(url)
  {
    var h := ExtractHostname(url);
    SplitWithoutSeparator(h, '/');
    SplitWithoutSeparator(h, ':');
    SplitWithoutSeparator(h, '?');
  }

  // ---------------------------------------------------------------------------
  // intercept: the withCredentials decision

  datatype Config = Config(apiEndpoint: Option<string>, publicAccessUsername: Option<string>)

  /** The parts of an `HttpRequest` the interceptor reads or changes. */
  datatype Request = Request(verb: string, url: string, withCredentials: bool)

  /** JavaScript truthiness of an optional string setting. */
  predicate Truthy(s: Option<string>) {
    s.Some? && s.value != ""
  }

  /** The request goes to the configured API's host. */
  predicate SameHostAsApi(config: Config, url: string) {
    Truthy(config.apiEndpoint) && ExtractHostname(config.apiEndpoint.value) == ExtractHostname(url)
  }

  /** The request `intercept` passes on: cloned with `withCredentials: true`
      when it goes to the API's host, untouched otherwise. */
  function PrepareRequest(config: Config, request: Request): (sent: Request)
    ensures sent.verb == request.verb && sent.url == request.url
    ensures sent.withCredentials == (request.withCredentials || SameHostAsApi(config, request.url))
    ensures !SameHostAsApi(config, request.url) ==> sent == request
  {
    if SameHostAsApi(config, request.url) then request.(withCredentials := true) else request
  }

  /** Preparing the request twice is preparing it once. */
  lemma PrepareRequestIdempotent(config: Config, request: Request)
    ensures PrepareRequest(config, PrepareRequest(config, request)) == PrepareRequest(config, request)
  {
  }

  /** Only the hostname matters: two urls with the same hostname get the same
      credentials decision, whatever their protocol, port, path or query. */
  lemma CredentialsDependOnHostnameOnly(config: Config, r1: Request, r2: Request)
    requires ExtractHostname(r1.url) == ExtractHostname(r2.url)
    requires r1.withCredentials == r2.withCredentials
    ensures PrepareRequest(config, r1).withCredentials == PrepareRequest(config, r2).withCredentials
  {
  }

  // ---------------------------------------------------------------------------
  // handleError

  /** The `error` payload of an `HttpErrorResponse` as JavaScript sees it:
      `null`, an object with its properties (values in their string form), or
      any other value (a string, a number, `undefined`). */
  datatype JsValue = JsNull | JsObject(props: map<string, string>) | JsPrimitive

  /** What `catchError` receives. */
  datatype CaughtError =
    | HttpErrorResponse(status: int, name: string, message: string, error: JsValue)
    | OtherError(name: string)

  /** The arguments of `toastrService.error(errMsg, errTitle, {enableHtml, ...})`. */
  datatype Toast = Toast(message: string, title: string, enableHtml: bool)

  /** What handling one error does: the toast shown, if any, and whether the
      public user is signed in. */
  datatype ErrorEffects = ErrorEffects(toast: Option<Toast>, signInPublic: bool)

  const UnknownErrorTitle: string := "Erreur"
  const UnknownErrorMessage: string := "Une erreur inconnue est survenue."
  const RequestIdLine: string := "<br><b>Requête :</b> "

  /** `typeof body === 'object' && 'name' in body && 'description' in body`,
      for a body on which `in` does not throw. */
  predicate IsStructured(body: JsValue) {
    body.JsObject? && "name" in body.props && "description" in body.props
  }

  /** The toast for a structured error body: its name and description, the
      request id appended when the body has one, HTML on. */
  function StructuredToast(props: map<string, string>): (t: Toast)
    requires "name" in props && "description" in props
    ensures t.title == props["name"] && t.enableHtml
    ensures "request_id" !in props ==> t.message == props["description"]
    ensures "request_id" in props ==> t.message == props["description"] + RequestIdLine + props["request_id"]
  {
    var message := props["description"];
    Toast(if "request_id" in props then message + RequestIdLine + props["request_id"] else message,
          props["name"], true)
  }

  /** `handleError(error)`, with a `null` body treated as unstructured (see
      `HandleErrorAsWritten` for the code as it stands). `accessParam` is the
      `access` parameter of the page's own url. */
  function HandleError(error: CaughtError, config: Config, accessParam: Option<string>): (e: ErrorEffects)
    ensures error.HttpErrorResponse? && error.status in {401, 404} ==> e.toast.None?
    ensures e.signInPublic <==>
      error.HttpErrorResponse? && error.status == 401 &&
      accessParam == Some("public") && Truthy(config.publicAccessUsername)
    ensures error.OtherError? ==> e.toast == Some(Toast(UnknownErrorMessage, UnknownErrorTitle, false))
    ensures error.HttpErrorResponse? && error.status !in {401, 404} ==>
      e.toast.Some? && (e.toast.value.enableHtml <==> IsStructured(error.error))
    ensures error.HttpErrorResponse? && error.status !in {401, 404} && !IsStructured(error.error) ==>
      e.toast == Some(Toast(error.message, error.name, false))
    ensures error.HttpErrorResponse? && error.status !in {401, 404} && IsStructured(error.error) ==>
      e.toast == Some(StructuredToast(error.error.props))
  {
    match error
    case OtherError(_) =>
      ErrorEffects(Some(Toast(UnknownErrorMessage, UnknownErrorTitle, false)), false)
    case HttpErrorResponse(status, name, message, body) =>
      if status == 404 then ErrorEffects(None, false)
      else if status == 401 then
        ErrorEffects(None, accessParam == Some("public") && Truthy(config.publicAccessUsername))
      else if IsStructured(body) then ErrorEffects(Some(StructuredToast(body.props)), false)
      else ErrorEffects(Some(Toast(message, name, false)), false)
  }

  /** How `handleError` as written ends: it returns after its effects, or it
      throws. */
  datatype HandlerOutcome = Returned(effects: ErrorEffects) | Threw(thrown: CaughtError)

  /** The `TypeError` JavaScript throws for `'name' in null`. */
  const InOperatorOnNull: CaughtError := OtherError("TypeError")

  /** `handleError` exactly as written: `typeof null === 'object'` holds, so a
      `null` body reaches `'name' in error.error`, which throws. */
  function HandleErrorAsWritten(error: CaughtError, config: Config, accessParam: Option<string>): (o: HandlerOutcome)
    ensures o.Threw? <==> error.HttpErrorResponse? && error.status !in {401, 404} && error.error.JsNull?
    ensures o.Threw? ==> o.thrown == InOperatorOnNull
    ensures !o.Threw? ==> o == Returned(HandleError(error, config, accessParam))
  {
    if error.HttpErrorResponse? && error.status != 404 && error.status != 401 && error.error.JsNull? then
      Threw(InOperatorOnNull)
    else
      Returned(HandleError(error, config, accessParam))
  }

  // ---------------------------------------------------------------------------
  // intercept

  /** What `next.handle(request)` delivers: a response event, or an error. */
  datatype HandlerResult = Delivered(event: string) | Failed(error: CaughtError)

  /** One intercepted request: what was sent, what the caller observes, and
      the effects of the error handler. */
  datatype Interception = Interception(sent: Request, observed: HandlerResult, effects: ErrorEffects)

  const NoEffects: ErrorEffects := ErrorEffects(None, false)

  /** `intercept(request, next)`: prepare the request, hand it on, and on an
      error run `handleError` and rethrow the original error. */
  function Intercept(config: Config, accessParam: Option<string>, request: Request,
                     handle: Request -> HandlerResult): (i: Interception)
    ensures i.sent == PrepareRequest(config, request)
  {
    var sent := PrepareRequest(config, request);
    match handle(sent)
    case Delivered(event) => Interception(sent, Delivered(event), NoEffects)
    case Failed(err) => Interception(sent, Failed(err), HandleError(err, config, accessParam))
  }

  /** The caller always observes exactly what the next handler produced: a
      response is passed through with no effect, and an error is rethrown
      unchanged after its toast. */
  lemma InterceptRethrowsOriginal(config: Config, accessParam: Option<string>, request: Request,
                                  handle: Request -> HandlerResult)
    ensures var i := Intercept(config, accessParam, request, handle);
      && i.observed == handle(i.sent)
      && (i.observed.Delivered? ==> i.effects == NoEffects)
      && (i.observed.Failed? ==> i.effects == HandleError(i.observed.error, config, accessParam))
  {
  }

  /** `intercept` with `handleError` exactly as written: when the handler
      throws, `catchError` surfaces that exception instead of the original. */
  function InterceptAsWritten(config: Config, accessParam: Option<string>, request: Request,
                              handle: Request -> HandlerResult): (i: Interception)
    ensures i.sent == PrepareRequest(config, request)
    ensures handle(i.sent).Delivered? ==> i.observed == handle(i.sent) && i.effects == NoEffects
    ensures handle(i.sent).Failed? ==>
      match HandleErrorAsWritten(handle(i.sent).error, config, accessParam)
      case Returned(effects) => i.observed == handle(i.sent) && i.effects == effects
      case Threw(thrown) => i.observed == Failed(thrown) && i.effects == NoEffects
  {
    var sent := PrepareRequest(config, request);
    match handle(sent)
    case Delivered(event) => Interception(sent, Delivered(event), NoEffects)
    case Failed(err) =>
      match HandleErrorAsWritten(err, config, accessParam)
      case Returned(effects) => Interception(sent, Failed(err), effects)
      case Threw(thrown) => Interception(sent, Failed(thrown), NoEffects)
  }

  /** A server error with an empty (`null`) body: as written, no toast is
      shown and the caller receives a `TypeError` instead of the
      `HttpErrorResponse`; the corrected handler shows the error's name and
      message and rethrows the original. */
  lemma NullBodyErrorIsLostAsWritten(config: Config, accessParam: Option<string>, request: Request)
    ensures var err := HttpErrorResponse(500, "HttpErrorResponse", "Http failure response: 500", JsNull);
      var handle := (r: Request) => Failed(err);
      var asWritten := InterceptAsWritten(config, accessParam, request, handle);
      var corrected := Intercept(config, accessParam, request, handle);
      && asWritten.observed == Failed(InOperatorOnNull) && asWritten.observed != Failed(err)
      && asWritten.effects.toast.None?
      && corrected.observed == Failed(err)
      && corrected.effects.toast == Some(Toast(err.message, err.name, false))
  {
  }
}

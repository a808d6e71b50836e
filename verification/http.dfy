/**
 The HTTP exchange as the client sees it: a request it builds (URL, method,
 headers, body), the outcome the transport reports, and
 what the caller's callback receives. The transport itself, and the
 collaborators the client consults (Base64, `JSON.parse`, the OS name), are
 parameters.
 */
module Http {
  import opened JsValues

  datatype Method = GET | POST | DELETE

  /** A header value; `None` is `undefined` (the legacy client's
      authorization before a login, an analytics id not supplied). */
  type HeaderValue = Option<string>

  /** A JavaScript object used as a header set. Property assignment
      overrides an existing key; the order of keys is not modelled, since it
      carries no meaning for the request. */
  type Headers = map<string, HeaderValue>

  /** `headers[k]`, `None` when the key is absent. */
  function Lookup(h: Headers, k: string): Option<HeaderValue>
  {
    if k in h then Some(h[k]) else None
  }

  /** A JSON event record `{name, type, timestamp}`; `kind` is the `type` field. */
  datatype Event = Event(name: string, kind: string, timestamp: string)

  /** The `mobileClient` part of a push registration body. */
  datatype MobileClient = MobileClient(id: string, version: Option<string>, platform: string)

  /** A request body: raw text, or the `JSON.stringify` of a value the client built. */
  datatype Body =
    | NoBody
    | Text(text: string)
    | EventsJson(events: seq<Event>)
    | RegistrationJson(notificationToken: string, notificationProvider: string, mobileClient: MobileClient)

  datatype Request = Request(url: string, verb: Method, headers: Headers, body: Body)

  /** The transport's error object, opaque to the client. */
  datatype TransportError = TransportError(detail: string)

  /** What the transport reports: `onLoad` with the response body, or `onError`. */
  datatype Outcome = Load(body: string) | Fail(error: TransportError)

  /** The first argument of a failing callback. */
  datatype ErrorValue =
    | Transport(e: TransportError)   // forwarded from `onError`
    | Message(text: string)          // a string: the raw response body or a fixed message
    | Parsed(json: Json)             // a parsed response object

  /** JavaScript truthiness of a callback's error argument. */
  predicate TruthyError(e: ErrorValue)
  {
    !(e.Message? && e.text == "")
  }

  /** The arguments a callback is invoked with: `()`, `(err)` or `(null, result)`. */
  datatype Reply<+T> = NoArgs | Err(error: ErrorValue) | Ok(result: T)

  /** What a completion handler does: call back exactly once, or throw out of
      the transport's `onLoad` (an uncaught exception: no callback at all). */
  datatype Completion<+T> = Delivered(reply: Reply<T>) | Threw

  /** The client's collaborators, supplied from outside. */
  datatype Env = Env(base64: string -> string, parse: string -> Json, os: string)

  /** `JSON.parse` rejects the empty text. */
  predicate ParseRejectsEmpty(env: Env)
  {
    env.parse("") == Malformed
  }

  predicate IsIOS(env: Env)
  {
    env.os == "iOS"
  }

  /** The analytics application key both revisions send: the iOS key on
      iOS, the Android key anywhere else. */
  function ApplicationKeyFor(env: Env, iOSKey: string, androidKey: string): string
  {
    if IsIOS(env) then iOSKey else androidKey
  }

  /** `'Basic ' + Base64.encode(username + ':' + password)` */
  function BasicAuth(env: Env, username: string, password: string): string
  {
    "Basic " + env.base64(username + ":" + password)
  }

  /** The handler shared by every call that reports the raw body on any load. */
  function RawBody(o: Outcome): (r: Completion<string>)
    ensures o.Load? ==> r == Delivered(Ok(o.body))
    ensures o.Fail? ==> r == Delivered(Err(Transport(o.error)))
  {
    match o
    case Load(body) => Delivered(Ok(body))
    case Fail(e) => Delivered(Err(Transport(e)))
  }

  /** The handler shared by every call that reports a fixed message on any load. */
  function FixedMessage(o: Outcome, message: string): (r: Completion<string>)
    ensures o.Load? ==> r == Delivered(Ok(message))
    ensures o.Fail? ==> r == Delivered(Err(Transport(o.error)))
  {
    match o
    case Load(_) => Delivered(Ok(message))
    case Fail(e) => Delivered(Err(Transport(e)))
  }

  /** The handler shared by `login`, `sendAnalytic` and the legacy
      `registerDeviceToken`: the body is parsed without a guard, and the
      callback gets the raw body as the error exactly when the tested field
      is `null`. */
  function Classify(env: Env, o: Outcome, k: Key): (r: Completion<string>)
    ensures o.Fail? ==> r == Delivered(Err(Transport(o.error)))
    ensures o.Load? ==> (r == Threw <==> NullAt(env.parse(o.body), k).None?)
    ensures o.Load? ==> (r == Delivered(Err(Message(o.body))) <==> NullAt(env.parse(o.body), k) == Some(true))
    ensures o.Load? ==> (r == Delivered(Ok(o.body)) <==> NullAt(env.parse(o.body), k) == Some(false))
  {
    match o
    case Fail(e) => Delivered(Err(Transport(e)))
    case Load(body) =>
      match NullAt(env.parse(body), k)
      case None => Threw
      case Some(isNull) => if isNull then Delivered(Err(Message(body))) else Delivered(Ok(body))
  }

  /** A classified load never reports the empty string as its error, so a
      caller testing `if (err)` always sees a failure as truthy. */
  lemma ClassifiedErrorsAreTruthy(env: Env, o: Outcome, k: Key)
    requires ParseRejectsEmpty(env)
    ensures Classify(env, o, k).Delivered? && Classify(env, o, k).reply.Err? ==> TruthyError(Classify(env, o, k).reply.error)
  {
  }
}

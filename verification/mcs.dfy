/**
 The class-based client (mcs.js): its per-instance private state, the
 constructor, and the session operations `login`, `logout` and
 `setAuthorization`.
 */
module Mcs {
  import opened JsValues
  import opened Http

  /** The constructor's options object. */
  datatype Options = Options(
    baseUrl: string,
    backendId: string,
    androidApplicationKey: string,
    iOSApplicationKey: string,
    anonymousKey: Option<string>)

  /** The private record kept for each instance, plus the public
      `notificationToken` property `registerDeviceToken` sets on the instance. */
  datatype Client = Client(
    backendId: string,
    deviceToken: Option<string>,
    baseUrl: string,
    anonymousKey: string,
    authorization: string,
    androidApplicationKey: string,
    iOSApplicationKey: string,
    autoFlushTimer: Option<nat>,
    eventStore: seq<Event>,
    notificationToken: Option<string>)

  /** The authorization a client holds while nobody is logged in. */
  function AnonymousAuthorization(anonymousKey: string): string
  {
    if anonymousKey != "" then "Basic " + anonymousKey else ""
  }

  /** The fields fixed at construction. */
  predicate SameConfig(c: Client, d: Client)
  {
    && c.backendId == d.backendId
    && c.baseUrl == d.baseUrl
    && c.anonymousKey == d.anonymousKey
    && c.androidApplicationKey == d.androidApplicationKey
    && c.iOSApplicationKey == d.iOSApplicationKey
  }

  /** `new MCS(options)`. */
  function New(o: Options): (c: Client)
    ensures c.eventStore == [] && c.deviceToken.None? && c.autoFlushTimer.None? && c.notificationToken.None?
    ensures Truthy(o.anonymousKey) ==> c.anonymousKey == o.anonymousKey.value && c.authorization == "Basic " + o.anonymousKey.value
    ensures !Truthy(o.anonymousKey) ==> c.anonymousKey == "" && c.authorization == ""
    ensures c.baseUrl == o.baseUrl && c.backendId == o.backendId
  {
    var key := if Truthy(o.anonymousKey) then o.anonymousKey.value else "";
    Client(
      backendId := o.backendId,
      deviceToken := None,
      baseUrl := o.baseUrl,
      anonymousKey := key,
      authorization := if Truthy(o.anonymousKey) then "Basic " + o.anonymousKey.value else "",
      androidApplicationKey := o.androidApplicationKey,
      iOSApplicationKey := o.iOSApplicationKey,
      autoFlushTimer := None,
      eventStore := [],
      notificationToken := None)
  }

  /** `logout()`: back to the anonymous authorization. */
  function Logout(c: Client): (d: Client)
    ensures d.(authorization := c.authorization) == c
  {
    c.(authorization := AnonymousAuthorization(c.anonymousKey))
  }

  /** After logout a client holds exactly the authorization it was
      constructed with, nothing else changes, and logging out twice is the
      same as once. */
  lemma LogoutRestoresConstruction(o: Options, c: Client)
    requires SameConfig(New(o), c)
    ensures Logout(c).authorization == New(o).authorization
    ensures Logout(c) == c.(authorization := New(o).authorization)
    ensures Logout(Logout(c)) == Logout(c)
  {
  }

  /** The GET a `login` issues; its `Authorization` header is the candidate
      credential, not the session's. */
  function LoginRequest(c: Client, env: Env, username: string, password: string): (r: Request)
    ensures r.verb == GET && r.body == NoBody
    ensures r.url == c.baseUrl + "/mobile/platform/users/" + username
    ensures Lookup(r.headers, "Authorization") == Some(Some(BasicAuth(env, username, password)))
    ensures Lookup(r.headers, "Oracle-Mobile-Backend-Id") == Some(Some(c.backendId))
  {
    Request(
      c.baseUrl + "/mobile/platform/users/" + username,
      GET,
      map[ "oracle-mobile-api-version" := Some("1.0"),
           "Content-Type" := Some("application/json; charset=utf-8"),
           "Oracle-Mobile-Backend-Id" := Some(c.backendId),
           "Authorization" := Some(BasicAuth(env, username, password)) ],
      NoBody)
  }

  /** `login`'s completion. Any loaded response stores the credential as the
      session authorization before the body is even parsed, so a rejected
      login (`id` null) and a body `JSON.parse` throws on both leave it set;
      the callback gets the raw body as the error exactly when `id` is null.
      A transport error is forwarded and changes nothing. */
  function LoginComplete(c: Client, env: Env, username: string, password: string, o: Outcome): (r: (Client, Completion<string>))
    ensures o.Load? ==> r.0 == c.(authorization := BasicAuth(env, username, password))
    ensures o.Fail? ==> r == (c, Delivered(Err(Transport(o.error))))
    ensures o.Load? ==> (r.1 == Delivered(Err(Message(o.body))) <==> NullAt(env.parse(o.body), IdField) == Some(true))
    ensures o.Load? ==> (r.1 == Delivered(Ok(o.body)) <==> NullAt(env.parse(o.body), IdField) == Some(false))
    ensures o.Load? ==> (r.1 == Threw <==> NullAt(env.parse(o.body), IdField).None?)
  {
    match o
    case Load(_) => (c.(authorization := BasicAuth(env, username, password)), Classify(env, o, IdField))
    case Fail(_) => (c, Classify(env, o, IdField))
  }

  /** The session authorization a login leaves behind is the very header
      value the login request carried, and a logout afterwards undoes the
      login entirely. */
  lemma LoginStoresRequestCredential(c: Client, env: Env, username: string, password: string, body: string)
    ensures Lookup(LoginRequest(c, env, username, password).headers, "Authorization")
         == Some(Some(LoginComplete(c, env, username, password, Load(body)).0.authorization))
    ensures Logout(LoginComplete(c, env, username, password, Load(body)).0) == Logout(c)
  {
  }

  /** `setAuthorization` as intended: the credential is stored without a
      round trip, exactly as a completed login would store it. */
  function SetAuthorization(c: Client, env: Env, username: string, password: string): (d: Client)
    ensures forall body :: d == LoginComplete(c, env, username, password, Load(body)).0
  {
    c.(authorization := BasicAuth(env, username, password))
  }

  /** `setAuthorization` as written: `privates[this]` reads a property of the
      WeakMap object rather than the entry for `this`, so it is `undefined`
      and the assignment throws a TypeError; the session is left as it was. */
  function SetAuthorizationAsWritten(c: Client, env: Env, username: string, password: string): (r: (Client, Sync<()>))
  {
    (c, Thrown)
  }

  /** The defect: for any credential that differs from the current one, the
      written method leaves a different session than the intended one. */
  lemma SetAuthorizationDefect(c: Client, env: Env, username: string, password: string)
    requires c.authorization != BasicAuth(env, username, password)
    ensures SetAuthorizationAsWritten(c, env, username, password).1.Thrown?
    ensures SetAuthorizationAsWritten(c, env, username, password).0 != SetAuthorization(c, env, username, password)
  {
  }
}

/**
 The request builders and completion handlers of the class-based client
 (mcs.js) outside the session and analytics: push registration, object
 storage, custom-API request options and location lookups. The collections
 and location builders and the collection-list mapping are identical in the
 legacy client (index.js) apart from its empty body, and are defined once
 here with the body as a parameter.
 */
module McsRequests {
  import opened JsValues
  import opened Http
  import opened Mcs
  import Decimal

  // ---------------------------------------------------------------- push

  /** What the push-registration service reports. */
  datatype PushResult = Token(token: string) | PushFailed

  /** The first step of `registerDeviceToken` / `deregisterDeviceToken`. */
  datatype PushStep =
    | Requesting(client: Client, request: Request)   // a token arrived: the POST is issued
    | Refused(reply: Reply<Json>)                      // no token: the callback runs at once, no request

  function Provider(env: Env): string
  {
    if IsIOS(env) then "APNS" else "GCM"
  }

  function PlatformName(env: Env): string
  {
    if IsIOS(env) then "IOS" else "ANDROID"
  }

  function DeviceHeaders(c: Client): Headers
  {
    map[ "Content-Type" := Some("application/json; charset=utf-8"),
         "Oracle-Mobile-Backend-Id" := Some(c.backendId),
         "Authorization" := Some(c.authorization) ]
  }

  /** `registerDeviceToken`'s first step: a token is stored (privately and as
      the public `notificationToken`) and registered with the platform
      derived from the OS; a push failure reports "Register failed." with no
      request. */
  function RegisterStart(c: Client, env: Env, packageName: string, version: Option<string>, push: PushResult): (r: PushStep)
    ensures push.PushFailed? ==> r == Refused(Err(Message("Register failed.")))
    ensures push.Token? ==> (r.Requesting?
      && r.client == c.(deviceToken := Some(push.token), notificationToken := Some(push.token))
      && r.request.url == c.baseUrl + "/mobile/platform/devices/register"
      && r.request.verb == POST
      && r.request.body == RegistrationJson(push.token, if env.os == "iOS" then "APNS" else "GCM",
                                             MobileClient(packageName, version, if env.os == "iOS" then "IOS" else "ANDROID")))
  {
    match push
    case PushFailed => Refused(Err(Message("Register failed.")))
    case Token(t) =>
      var d := c.(deviceToken := Some(t), notificationToken := Some(t));
      Requesting(d, Request(
        d.baseUrl + "/mobile/platform/devices/register",
        POST,
        DeviceHeaders(d),
        RegistrationJson(t, Provider(env), MobileClient(packageName, version, PlatformName(env)))))
  }

  /** `registerDeviceToken`'s completion: a body `JSON.parse` rejects is
      reported raw (the parse is guarded); otherwise the parsed response is
      the error when its `id` is null and the result when it is not; a
      parsed `null` throws reading `id`, outside the guard. */
  function RegisterComplete(env: Env, o: Outcome): (r: Completion<Json>)
    ensures o.Fail? ==> r == Delivered(Err(Transport(o.error)))
    ensures o.Load? && env.parse(o.body).Malformed? ==> r == Delivered(Err(Message(o.body)))
    ensures o.Load? && env.parse(o.body).Null? ==> r == Threw
    ensures o.Load? && NullAt(env.parse(o.body), IdField) == Some(true) ==> r == Delivered(Err(Parsed(env.parse(o.body))))
    ensures o.Load? && NullAt(env.parse(o.body), IdField) == Some(false) ==> r == Delivered(Ok(env.parse(o.body)))
  {
    match o
    case Fail(e) => Delivered(Err(Transport(e)))
    case Load(body) =>
      var j := env.parse(body);
      match j
      case Malformed => Delivered(Err(Message(body)))
      case Null => Threw
      case NonObject => Delivered(Err(Parsed(j)))
      case Object(id, _, _) => if id.None? then Delivered(Err(Parsed(j))) else Delivered(Ok(j))
  }

  /** Registration is the one handler whose parse is guarded. Against the
      unguarded classification the older revision applies to the same
      response: an unparsable body is reported instead of thrown, and
      otherwise success and failure fall on the same responses, with the
      parsed value in place of the raw text. */
  lemma {:induction false} RegisterGuardsOnlyTheParse(env: Env, o: Outcome)
    requires o.Load?
    ensures env.parse(o.body).Malformed? ==>
      Classify(env, o, IdField) == Threw && RegisterComplete(env, o) == Delivered(Err(Message(o.body)))
    ensures !env.parse(o.body).Malformed? ==>
      && (Classify(env, o, IdField) == Threw <==> RegisterComplete(env, o) == Threw)
      && (Classify(env, o, IdField) == Delivered(Ok(o.body)) <==> RegisterComplete(env, o) == Delivered(Ok(env.parse(o.body))))
      && (Classify(env, o, IdField) == Delivered(Err(Message(o.body))) <==> RegisterComplete(env, o) == Delivered(Err(Parsed(env.parse(o.body)))))
  {
    var j := env.parse(o.body);
    assert j.Malformed? || j.Null? || NullAt(j, IdField).Some?;
  }

  /** `deregisterDeviceToken`'s first step: the token just obtained (not the
      stored one) is sent, without a version; the client is unchanged; a
      push failure reports "Deregister failed." with no request. */
  function DeregisterStart(c: Client, env: Env, packageName: string, push: PushResult): (r: PushStep)
    ensures push.PushFailed? ==> r == Refused(Err(Message("Deregister failed.")))
    ensures push.Token? ==> (r.Requesting? && r.client == c
      && r.request.url == c.baseUrl + "/mobile/platform/devices/deregister"
      && r.request.body.RegistrationJson? && r.request.body.notificationToken == push.token
      && r.request.body.mobileClient.version.None?)
  {
    match push
    case PushFailed => Refused(Err(Message("Deregister failed.")))
    case Token(t) =>
      Requesting(c, Request(
        c.baseUrl + "/mobile/platform/devices/deregister",
        POST,
        DeviceHeaders(c),
        RegistrationJson(t, Provider(env), MobileClient(packageName, None, PlatformName(env)))))
  }

  /** `deregisterDeviceToken`'s completion: any load is a success. */
  function DeregisterComplete(o: Outcome): (r: Completion<string>)
    ensures o.Load? ==> r == Delivered(Ok("Device Deleted."))
    ensures o.Fail? ==> r == Delivered(Err(Transport(o.error)))
  {
    FixedMessage(o, "Device Deleted.")
  }

  /** Registering then deregistering on the same OS names the same provider
      and platform, and the deregistration sends the newly obtained token even
      when the client still holds an older one. */
  lemma RegisterDeregisterAgree(c: Client, env: Env, packageName: string, version: Option<string>, first: string, second: string)
    ensures
      var reg := RegisterStart(c, env, packageName, version, Token(first));
      var dereg := DeregisterStart(reg.client, env, packageName, Token(second));
      && dereg.request.body.notificationToken == second
      && dereg.client.deviceToken == Some(first)
      && dereg.request.body.notificationProvider == reg.request.body.notificationProvider
      && dereg.request.body.mobileClient.platform == reg.request.body.mobileClient.platform
  {
  }

  // ------------------------------------------------------------- storage

  /** The `{id, description}` record `getCollectionList` builds per item. */
  datatype CollectionSummary = CollectionSummary(id: Option<string>, description: Option<string>)

  /** The loop of `getCollectionList`: one summary per item, same order. */
  function Summaries(items: seq<Fields>): (r: seq<CollectionSummary>)
    ensures |r| == |items|
    ensures forall i :: 0 <= i < |items| ==> r[i] == CollectionSummary(Get(items[i], "id"), Get(items[i], "description"))
  {
    if items == [] then []
    else Summaries(items[..|items| - 1]) + [CollectionSummary(Get(items[|items| - 1], "id"), Get(items[|items| - 1], "description"))]
  }

  /** The collections GET. Both revisions build it alike, except that the
      class-based client sends no body and the older one sends `''`. */
  function CollectionsGet(baseUrl: string, backendId: HeaderValue, authorization: HeaderValue, body: Body): (r: Request)
    ensures r.verb == GET && r.url == baseUrl + "/mobile/platform/storage/collections"
    ensures Lookup(r.headers, "Authorization") == Some(authorization)
    ensures r.body == body
  {
    Request(
      baseUrl + "/mobile/platform/storage/collections",
      GET,
      map[ "oracle-mobile-api-version" := Some("1.0"),
           "Content-Type" := Some("application/json; charset=utf-8"),
           "Oracle-Mobile-Backend-Id" := backendId,
           "Authorization" := authorization ],
      body)
  }

  /** `getCollectionList`'s request: the collections GET with the session
      authorization and no body. */
  function CollectionListRequest(c: Client): (r: Request)
    ensures r.verb == GET && r.url == c.baseUrl + "/mobile/platform/storage/collections"
    ensures Lookup(r.headers, "Authorization") == Some(Some(c.authorization))
    ensures Lookup(r.headers, "Oracle-Mobile-Backend-Id") == Some(Some(c.backendId))
    ensures r.body == NoBody
  {
    CollectionsGet(c.baseUrl, Some(c.backendId), Some(c.authorization), NoBody)
  }

  /** `getCollectionList`'s completion (the same in both revisions): a null
      `items` reports the raw body as the error; otherwise the result is one
      summary per item, in order. */
  function CollectionListComplete(env: Env, o: Outcome): (r: Completion<seq<CollectionSummary>>)
    ensures o.Fail? ==> r == Delivered(Err(Transport(o.error)))
    ensures o.Load? ==> (r == Threw <==> NullAt(env.parse(o.body), ItemsField).None?)
    ensures o.Load? ==> (r == Delivered(Err(Message(o.body))) <==> NullAt(env.parse(o.body), ItemsField) == Some(true))
    ensures o.Load? && NullAt(env.parse(o.body), ItemsField) == Some(false) ==>
      var items := env.parse(o.body).items.value;
      && r.Delivered? && r.reply.Ok?
      && |r.reply.result| == |items|
      && forall i :: 0 <= i < |items| ==> r.reply.result[i].id == Get(items[i], "id") && r.reply.result[i].description == Get(items[i], "description")
  {
    match o
    case Fail(e) => Delivered(Err(Transport(e)))
    case Load(body) =>
      match env.parse(body)
      case Malformed => Threw
      case Null => Threw
      case NonObject => Delivered(Err(Message(body)))
      case Object(_, _, items) =>
        if items.None? then Delivered(Err(Message(body))) else Delivered(Ok(Summaries(items.value)))
  }

  /** The collection id `getItemListInCollection`, `getItem` and `storeItem`
      take: `options.collectionId` when it is truthy, else `options` itself. */
  function CollectionIdOf(options: Arg): (id: string)
    ensures options.Str? ==> id == options.s
    ensures options.Obj? && Truthy(Get(options.fields, "collectionId")) ==> id == options.fields["collectionId"]
    ensures options.Obj? && !Truthy(Get(options.fields, "collectionId")) ==> id == "[object Object]"
  {
    PropOrSelf(options, "collectionId")
  }

  function ItemListRequest(c: Client, options: Arg): (r: Request)
    ensures r.verb == GET
    ensures r.url == c.baseUrl + "/mobile/platform/storage/collections/" + CollectionIdOf(options) + "/objects"
  {
    Request(
      c.baseUrl + "/mobile/platform/storage/collections/" + CollectionIdOf(options) + "/objects",
      GET,
      map[ "oracle-mobile-api-version" := Some("1.0"),
           "Content-Type" := Some("application/json; charset=utf-8"),
           "Oracle-Mobile-Backend-Id" := Some(c.backendId),
           "Authorization" := Some(c.authorization) ],
      NoBody)
  }

  /** `getItemListInCollection`'s completion: the items exactly as the backend returned them. */
  function ItemListComplete(env: Env, o: Outcome): (r: Completion<seq<Fields>>)
    ensures o.Fail? ==> r == Delivered(Err(Transport(o.error)))
    ensures o.Load? ==> (r == Delivered(Err(Message(o.body))) <==> NullAt(env.parse(o.body), ItemsField) == Some(true))
    ensures o.Load? && NullAt(env.parse(o.body), ItemsField) == Some(false) ==> r == Delivered(Ok(env.parse(o.body).items.value))
    ensures o.Load? ==> (r == Threw <==> NullAt(env.parse(o.body), ItemsField).None?)
  {
    match o
    case Fail(e) => Delivered(Err(Transport(e)))
    case Load(body) =>
      match env.parse(body)
      case Malformed => Threw
      case Null => Threw
      case NonObject => Delivered(Err(Message(body)))
      case Object(_, _, items) =>
        if items.None? then Delivered(Err(Message(body))) else Delivered(Ok(items.value))
  }

  /** The bound of the cache-busting number. */
  const CacheBusterRange: nat := 100000

  /** `Math.floor(Math.random() * 100000)`, the draw being a parameter. */
  function CacheBuster(random: real): (n: nat)
    requires 0.0 <= random < 1.0
    ensures n < CacheBusterRange
  {
    (random * 100000.0).Floor
  }

  function ItemUrl(c: Client, collectionId: string, itemId: string): string
  {
    c.baseUrl + "/mobile/platform/storage/collections/" + collectionId + "/objects/" + itemId
  }

  /** `deleteItem`'s DELETE: the item URL followed by `?v=` and the decimal
      rendering of a number below 100000. */
  function DeleteItemRequest(c: Client, collectionId: string, itemId: string, random: real): (r: Request)
    requires 0.0 <= random < 1.0
    ensures r.verb == DELETE
    ensures exists n: nat :: n < CacheBusterRange && r.url == ItemUrl(c, collectionId, itemId) + "?v=" + Decimal.Render(n)
  {
    Request(
      ItemUrl(c, collectionId, itemId) + "?v=" + Decimal.Render(CacheBuster(random)),
      DELETE,
      map[ "Oracle-Mobile-Backend-Id" := Some(c.backendId),
           "Authorization" := Some(c.authorization) ],
      NoBody)
  }

  /** `deleteItem`'s completion: any load is a success. */
  function DeleteItemComplete(o: Outcome): (r: Completion<string>)
    ensures o.Load? ==> r == Delivered(Ok("Item Deleted."))
    ensures o.Fail? ==> r == Delivered(Err(Transport(o.error)))
  {
    FixedMessage(o, "Item Deleted.")
  }

  /** Two deletes of the same item whose draws give different numbers use
      different URLs, so no cache between client and backend can answer the
      second with the first. */
  lemma DeleteUrlsDiffer(c: Client, collectionId: string, itemId: string, r1: real, r2: real)
    requires 0.0 <= r1 < 1.0 && 0.0 <= r2 < 1.0
    requires CacheBuster(r1) != CacheBuster(r2)
    ensures DeleteItemRequest(c, collectionId, itemId, r1).url != DeleteItemRequest(c, collectionId, itemId, r2).url
  {
    var prefix := ItemUrl(c, collectionId, itemId) + "?v=";
    assert DeleteItemRequest(c, collectionId, itemId, r1).url[|prefix|..] == Decimal.Render(CacheBuster(r1));
    assert DeleteItemRequest(c, collectionId, itemId, r2).url[|prefix|..] == Decimal.Render(CacheBuster(r2));
    Decimal.RenderInjective(CacheBuster(r1), CacheBuster(r2));
  }

  // ----------------------------------------------------------- custom API

  /** The path of a custom API endpoint. */
  function CustomPath(apiName: string, endpoint: string): string
  {
    "/mobile/custom/" + apiName + "/" + endpoint
  }

  /** What `createRequestOptions` returns. */
  datatype RequestOptions = RequestOptions(url: string, headers: Headers)

  /** `createRequestOptions`: no request is made; the options carry the
      session's current authorization and the API version, "1.0" when none
      (or an empty one) is given. */
  function CreateRequestOptions(c: Client, apiName: string, endpointPath: string, version: Option<string>): (r: RequestOptions)
    ensures r.url == c.baseUrl + "/mobile/custom/" + apiName + "/" + endpointPath
    ensures Truthy(version) ==> Lookup(r.headers, "oracle-mobile-api-version") == Some(version)
    ensures !Truthy(version) ==> Lookup(r.headers, "oracle-mobile-api-version") == Some(Some("1.0"))
    ensures Lookup(r.headers, "Authorization") == Some(Some(c.authorization))
    ensures Lookup(r.headers, "Oracle-Mobile-Backend-Id") == Some(Some(c.backendId))
  {
    RequestOptions(
      c.baseUrl + CustomPath(apiName, endpointPath),
      map[ "Content-Type" := Some("application/json"),
           "Oracle-Mobile-Backend-Id" := Some(c.backendId),
           "Authorization" := Some(c.authorization),
           "oracle-mobile-api-version" := Some(OrElse(version, "1.0")) ])
  }

  /** Options built after a login carry the logged-in credential, and after
      a logout the anonymous one the client was constructed with. */
  lemma RequestOptionsFollowSession(o: Options, env: Env, username: string, password: string, body: string, apiName: string, endpointPath: string, version: Option<string>)
    ensures
      var c := LoginComplete(New(o), env, username, password, Load(body)).0;
      && Lookup(CreateRequestOptions(c, apiName, endpointPath, version).headers, "Authorization") == Some(Some(BasicAuth(env, username, password)))
      && Lookup(CreateRequestOptions(Logout(c), apiName, endpointPath, version).headers, "Authorization") == Some(Some(New(o).authorization))
  {
  }

  // ------------------------------------------------------------- location

  datatype LocationKind = Devices | Places | Assets

  function PathStr(k: LocationKind): string
  {
    match k
    case Devices => "devices"
    case Places => "places"
    case Assets => "assets"
  }

  /** The options object the lookup wrappers hand to `getLocationList`:
      `value` as it renders into the URL, and `header` as the raw property
      the "key" header receives, `undefined` (`None`) included. */
  datatype LocationQuery = LocationQuery(key: string, value: string, header: HeaderValue, pathStr: string, isQuery: bool)

  /** `getLocationList` (the same in both revisions, except that the older
      one sends the body `''`): the query form appends `?key=value`, the
      other form `/value`; the header set also carries a property literally
      named "key" holding the value, unrendered. */
  function LocationListRequest(baseUrl: string, backendId: HeaderValue, authorization: HeaderValue, q: LocationQuery, body: Body): (r: Request)
    ensures r.verb == GET
    ensures q.isQuery ==> r.url == baseUrl + "/mobile/platform/location/" + q.pathStr + "?" + q.key + "=" + q.value
    ensures !q.isQuery ==> r.url == baseUrl + "/mobile/platform/location/" + q.pathStr + "/" + q.value
    ensures Lookup(r.headers, "key") == Some(q.header)
    ensures Lookup(r.headers, "Authorization") == Some(authorization)
    ensures r.body == body
  {
    var url := baseUrl + "/mobile/platform/location/" + q.pathStr;
    Request(
      if q.isQuery then url + "?" + q.key + "=" + q.value else url + "/" + q.value,
      GET,
      map[ "Content-Type" := Some("application/json"),
           "Oracle-Mobile-Backend-Id" := backendId,
           "Authorization" := authorization,
           "key" := q.header ],
      body)
  }

  /** `getLocationList`'s completion: any load is the raw body. */
  function LocationListComplete(o: Outcome): (r: Completion<string>)
    ensures o.Load? ==> r == Delivered(Ok(o.body))
    ensures o.Fail? ==> r == Delivered(Err(Transport(o.error)))
  {
    RawBody(o)
  }

  /** The six wrappers `get{DeviceLocations,Place,Asset}By{Name,Id}`: key
      "name" always; by name takes `options.name || options` and queries,
      by id takes `options.id || options` and appends a path segment. */
  function WrapperQuery(kind: LocationKind, byName: bool, options: Arg): (q: LocationQuery)
    ensures q.header == Some(q.value)
  {
    var v := PropOrSelf(options, if byName then "name" else "id");
    LocationQuery("name", v, Some(v), PathStr(kind), byName)
  }

  /** A location lookup: by name or by id, of devices, places or assets. */
  datatype LocationLookup = ByName(kind: LocationKind, name: string) | ById(kind: LocationKind, id: string)

  /** The location paths: `/mobile/platform/location/{devices|places|assets}`
      followed by `?name={name}` or `/{id}`. */
  function EndpointPath(l: LocationLookup): string
  {
    match l
    case ByName(k, name) => "/mobile/platform/location/" + PathStr(k) + "?name=" + name
    case ById(k, id) => "/mobile/platform/location/" + PathStr(k) + "/" + id
  }

  /** Every wrapper issues a GET for the endpoint of the lookup it names. */
  lemma LocationWrappersHitEndpoints(c: Client, kind: LocationKind, byName: bool, options: Arg)
    ensures
      var r := LocationListRequest(c.baseUrl, Some(c.backendId), Some(c.authorization), WrapperQuery(kind, byName, options), NoBody);
      var l := if byName then ByName(kind, PropOrSelf(options, "name")) else ById(kind, PropOrSelf(options, "id"));
      r.verb == GET && r.url == c.baseUrl + EndpointPath(l)
  {
  }
}

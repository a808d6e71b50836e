/**
 The older constructor-function client (index.js). Its fields are set by
 `init`, except the session authorization, which stays `undefined` until a
 login. It has no event buffer and no anonymous key, but it adds the
 custom-API proxy: a GET with a query string and a POST with caller-supplied
 headers.
 */
module Legacy {
  import opened JsValues
  import opened Http
  import McsRequests
  import Mcs
  import McsEvents

  /** The fields of an instance. */
  datatype LegacyClient = LegacyClient(
    backendId: string,
    deviceToken: Option<string>,
    baseUrl: string,
    authorization: Option<string>,
    androidApplicationKey: string,
    iOSApplicationKey: string)

  /** `init`'s options object. */
  datatype LegacyOptions = LegacyOptions(
    baseUrl: string,
    backendId: string,
    androidApplicationKey: string,
    iOSApplicationKey: string)

  /** `init(options)`: the configuration is replaced, the session and the
      device token are kept. */
  function Init(c: LegacyClient, o: LegacyOptions): (d: LegacyClient)
    ensures d.authorization == c.authorization && d.deviceToken == c.deviceToken
    ensures d.baseUrl == o.baseUrl && d.backendId == o.backendId
    ensures d.androidApplicationKey == o.androidApplicationKey && d.iOSApplicationKey == o.iOSApplicationKey
  {
    c.(baseUrl := o.baseUrl, backendId := o.backendId,
       androidApplicationKey := o.androidApplicationKey, iOSApplicationKey := o.iOSApplicationKey)
  }

  /** `new MCS()` followed by `init(options)`: nobody is logged in, so the
      authorization header is `undefined`. */
  function Start(o: LegacyOptions): (c: LegacyClient)
    ensures c.authorization.None? && c.deviceToken.None?
    ensures c.baseUrl == o.baseUrl && c.backendId == o.backendId
  {
    Init(LegacyClient("", None, "", None, "", ""), o)
  }

  // --------------------------------------------------------------- session

  function LoginRequest(c: LegacyClient, env: Env, username: string, password: string): (r: Request)
    ensures r.verb == GET && r.url == c.baseUrl + "/mobile/platform/users/" + username
    ensures Lookup(r.headers, "Authorization") == Some(Some(BasicAuth(env, username, password)))
  {
    Request(
      c.baseUrl + "/mobile/platform/users/" + username,
      GET,
      map[ "oracle-mobile-api-version" := Some("1.0"),
           "Content-Type" := Some("application/json; charset=utf-8"),
           "Oracle-Mobile-Backend-Id" := Some(c.backendId),
           "Authorization" := Some(BasicAuth(env, username, password)) ],
      Text(""))
  }

  /** `login`'s completion: any load stores the credential before the `id`
      check; the error is the raw body exactly when `id` is null. */
  function LoginComplete(c: LegacyClient, env: Env, username: string, password: string, o: Outcome): (r: (LegacyClient, Completion<string>))
    ensures o.Load? ==> r.0 == c.(authorization := Some(BasicAuth(env, username, password)))
    ensures o.Fail? ==> r == (c, Delivered(Err(Transport(o.error))))
    ensures o.Load? ==> (r.1 == Delivered(Err(Message(o.body))) <==> NullAt(env.parse(o.body), IdField) == Some(true))
    ensures o.Load? ==> (r.1 == Delivered(Ok(o.body)) <==> NullAt(env.parse(o.body), IdField) == Some(false))
    ensures o.Load? ==> (r.1 == Threw <==> NullAt(env.parse(o.body), IdField).None?)
  {
    match o
    case Load(_) => (c.(authorization := Some(BasicAuth(env, username, password))), Classify(env, o, IdField))
    case Fail(_) => (c, Classify(env, o, IdField))
  }

  /** Both revisions report a login identically and store the same
      credential, whatever the two sessions held before. */
  lemma LoginRevisionsAgree(c: LegacyClient, d: Mcs.Client, env: Env, username: string, password: string, o: Outcome)
    ensures LoginComplete(c, env, username, password, o).1 == Mcs.LoginComplete(d, env, username, password, o).1
    ensures o.Load? ==> LoginComplete(c, env, username, password, o).0.authorization
                        == Some(Mcs.LoginComplete(d, env, username, password, o).0.authorization)
  {
  }

  // ------------------------------------------------------------------ push

  datatype LegacyPushStep =
    | Requesting(client: LegacyClient, request: Request)
    | Refused(reply: Reply<string>)

  /** `deregisterDeviceToken`'s first step: the new token is sent without a
      version and the client is unchanged; a push failure reports the
      message "Register failed." with no request. The completion is the
      class-based client's `McsRequests.DeregisterComplete`. */
  function DeregisterStart(c: LegacyClient, env: Env, packageName: string, push: McsRequests.PushResult): (r: LegacyPushStep)
    ensures push.PushFailed? ==> r == Refused(Err(Message("Register failed.")))
    ensures push.Token? ==> (r.Requesting? && r.client == c
      && r.request.verb == POST
      && r.request.url == c.baseUrl + "/mobile/platform/devices/deregister"
      && r.request.body == RegistrationJson(push.token, McsRequests.Provider(env),
                                            MobileClient(packageName, None, McsRequests.PlatformName(env))))
    ensures push.Token? ==> Lookup(r.request.headers, "Authorization") == Some(c.authorization)
  {
    match push
    case PushFailed => Refused(Err(Message("Register failed.")))
    case Token(t) =>
      Requesting(c, Request(
        c.baseUrl + "/mobile/platform/devices/deregister",
        POST,
        map[ "Content-Type" := Some("application/json; charset=utf-8"),
             "Oracle-Mobile-Backend-Id" := Some(c.backendId),
             "Authorization" := c.authorization ],
        RegistrationJson(t, McsRequests.Provider(env), MobileClient(packageName, None, McsRequests.PlatformName(env)))))
  }

  /** The two revisions deregister the same token to the same URL with the
      same JSON value (the older one serialises it with tab indentation,
      which this model does not represent). They differ in the message for a
      push failure, which the older one words as a registration failure, and
      before any login the older one sends an `undefined` authorization where
      the class-based one sends a string. */
  lemma DeregisterRevisionsAgree(c: LegacyClient, d: Mcs.Client, env: Env, packageName: string, push: McsRequests.PushResult)
    requires c.baseUrl == d.baseUrl
    ensures push.Token? ==>
      && DeregisterStart(c, env, packageName, push).request.url == McsRequests.DeregisterStart(d, env, packageName, push).request.url
      && DeregisterStart(c, env, packageName, push).request.body == McsRequests.DeregisterStart(d, env, packageName, push).request.body
    ensures push.Token? && c.authorization.None? ==>
      Lookup(DeregisterStart(c, env, packageName, push).request.headers, "Authorization")
      != Lookup(McsRequests.DeregisterStart(d, env, packageName, push).request.headers, "Authorization")
    ensures push.PushFailed? ==>
      && DeregisterStart(c, env, packageName, push).reply.error.text == "Register failed."
      && McsRequests.DeregisterStart(d, env, packageName, push).reply.error.text == "Deregister failed."
  {
  }

  // ------------------------------------------------------------- analytics

  /** `sendAnalytic`: `jsonBody` is a `var` here, so an event array is
      stringified and sent; the identity headers are the options' values,
      `undefined` when absent, with no fallback. */
  function SendAnalyticRequest(c: LegacyClient, env: Env, opts: McsEvents.AnalyticOptions): (r: Request)
    ensures r.verb == POST && r.url == c.baseUrl + "/mobile/platform/analytics/events"
    ensures opts.body.EventArray? ==> r.body == EventsJson(opts.body.events)
    ensures opts.body.TextBody? ==> r.body == Text(opts.body.text)
    ensures Lookup(r.headers, "authorization") == Some(c.authorization)
    ensures Lookup(r.headers, "oracle-mobile-device-id") == Some(opts.deviceId)
    ensures Lookup(r.headers, "oracle-mobile-analytics-session-id") == Some(opts.sessionId)
  {
    Request(
      c.baseUrl + "/mobile/platform/analytics/events",
      POST,
      map[ "Oracle-Mobile-Backend-Id" := Some(c.backendId),
           "authorization" := c.authorization,
           "Content-Type" := Some("application/json; charset=utf-8"),
           "oracle-mobile-application-key" := Some(ApplicationKeyFor(env, c.iOSApplicationKey, c.androidApplicationKey)),
           "oracle-mobile-analytics-session-id" := opts.sessionId,
           "oracle-mobile-device-id" := opts.deviceId ],
      match opts.body
      case TextBody(t) => Text(t)
      case EventArray(es) => EventsJson(es))
  }

  /** `sendAnalytic`'s completion: the error is the raw body exactly when
      the parsed `message` is null. */
  function SendAnalyticComplete(env: Env, o: Outcome): (r: Completion<string>)
    ensures o.Fail? ==> r == Delivered(Err(Transport(o.error)))
    ensures o.Load? ==> (r == Delivered(Err(Message(o.body))) <==> NullAt(env.parse(o.body), MessageField) == Some(true))
    ensures o.Load? ==> (r == Delivered(Ok(o.body)) <==> NullAt(env.parse(o.body), MessageField) == Some(false))
  {
    Classify(env, o, MessageField)
  }

  /** The older revision sends an event array that the class-based one, as
      written, throws on; where both send, they send the same body and
      classify the response alike. */
  lemma AnalyticRevisionsCompared(c: LegacyClient, d: Mcs.Client, env: Env, ids: McsEvents.Identity, opts: McsEvents.AnalyticOptions, o: Outcome)
    ensures opts.body.EventArray? ==> McsEvents.SendAnalyticAsWritten(d, env, ids, opts).Thrown?
    ensures SendAnalyticRequest(c, env, opts).body == McsEvents.SendAnalyticRequest(d, env, ids, opts).body
    ensures SendAnalyticComplete(env, o) == McsEvents.SendAnalyticComplete(env, o)
  {
  }

  // --------------------------------------------------------------- storage

  function StorageHeaders(c: LegacyClient): Headers
  {
    map[ "oracle-mobile-api-version" := Some("1.0"),
         "Content-Type" := Some("application/json; charset=utf-8"),
         "Oracle-Mobile-Backend-Id" := Some(c.backendId),
         "Authorization" := c.authorization ]
  }

  /** `getCollectionList`'s request; the completion is shared with the
      class-based client. */
  function CollectionListRequest(c: LegacyClient): (r: Request)
    ensures r.verb == GET && r.url == c.baseUrl + "/mobile/platform/storage/collections"
    ensures Lookup(r.headers, "Authorization") == Some(c.authorization)
    ensures r.body == Text("")
  {
    McsRequests.CollectionsGet(c.baseUrl, Some(c.backendId), c.authorization, Text(""))
  }

  /** Once logged in with the same credential, both revisions request the
      collection list with the same URL and headers; only the body differs. */
  lemma CollectionListRevisionsAgree(c: LegacyClient, d: Mcs.Client)
    requires c.baseUrl == d.baseUrl && c.backendId == d.backendId
    requires c.authorization == Some(d.authorization)
    ensures CollectionListRequest(c).url == McsRequests.CollectionListRequest(d).url
    ensures CollectionListRequest(c).headers == McsRequests.CollectionListRequest(d).headers
    ensures CollectionListRequest(c).body != McsRequests.CollectionListRequest(d).body
  {
  }

  /** `getItemListInCollection`'s request: the collection id is
      `options.collectionId` when `options` is an object with a truthy one,
      else `options` itself. */
  function ItemListRequest(c: LegacyClient, options: Arg): (r: Request)
    ensures r.verb == GET
    ensures options.Str? ==> r.url == c.baseUrl + "/mobile/platform/storage/collections/" + options.s + "/objects"
    ensures options.Obj? && Truthy(Get(options.fields, "collectionId")) ==>
      r.url == c.baseUrl + "/mobile/platform/storage/collections/" + options.fields["collectionId"] + "/objects"
    ensures options.Obj? && !Truthy(Get(options.fields, "collectionId")) ==>
      r.url == c.baseUrl + "/mobile/platform/storage/collections/[object Object]/objects"
  {
    Request(
      c.baseUrl + "/mobile/platform/storage/collections/" + McsRequests.CollectionIdOf(options) + "/objects",
      GET,
      StorageHeaders(c),
      Text(""))
  }

  /** The record built per item. */
  datatype ItemInfo = ItemInfo(
    id: Option<string>,
    name: Option<string>,
    contentType: Option<string>,
    createdBy: Option<string>,
    createdOn: Option<string>,
    modifiedBy: Option<string>,
    modifiedOn: Option<string>)

  /** One item as the loop copies it: the modifier fields are read from the
      misspelt `modiedBy` and `modiedOn`. */
  function ItemInfoOf(item: Fields): ItemInfo
  {
    ItemInfo(Get(item, "id"), Get(item, "name"), Get(item, "contentType"),
             Get(item, "createdBy"), Get(item, "createdOn"),
             Get(item, "modiedBy"), Get(item, "modiedOn"))
  }

  /** The loop over `response.items`: one record per item, same order. */
  function ItemInfos(items: seq<Fields>): (r: seq<ItemInfo>)
    ensures |r| == |items|
    ensures forall i :: 0 <= i < |items| ==> r[i] == ItemInfoOf(items[i])
  {
    if items == [] then [] else ItemInfos(items[..|items| - 1]) + [ItemInfoOf(items[|items| - 1])]
  }

  /** `getItemListInCollection`'s completion: a null `items` reports the raw
      body; otherwise one record per item, in order. */
  function ItemListComplete(env: Env, o: Outcome): (r: Completion<seq<ItemInfo>>)
    ensures o.Fail? ==> r == Delivered(Err(Transport(o.error)))
    ensures o.Load? ==> (r == Threw <==> NullAt(env.parse(o.body), ItemsField).None?)
    ensures o.Load? ==> (r == Delivered(Err(Message(o.body))) <==> NullAt(env.parse(o.body), ItemsField) == Some(true))
    ensures o.Load? && NullAt(env.parse(o.body), ItemsField) == Some(false) ==>
      var items := env.parse(o.body).items.value;
      && r.Delivered? && r.reply.Ok? && |r.reply.result| == |items|
      && forall i :: 0 <= i < |items| ==> r.reply.result[i] == ItemInfoOf(items[i])
  {
    match o
    case Fail(e) => Delivered(Err(Transport(e)))
    case Load(body) =>
      match env.parse(body)
      case Malformed => Threw
      case Null => Threw
      case NonObject => Delivered(Err(Message(body)))
      case Object(_, _, items) =>
        if items.None? then Delivered(Err(Message(body))) else Delivered(Ok(ItemInfos(items.value)))
  }

  /** The misspelling drops the modifier the backend sends: an item with
      `modifiedBy`/`modifiedOn` and no `modiedBy`/`modiedOn` is reported with
      both undefined, while every other field is copied. */
  lemma ModifierFieldsAreDropped(item: Fields)
    requires "modiedBy" !in item && "modiedOn" !in item
    ensures ItemInfoOf(item).modifiedBy.None? && ItemInfoOf(item).modifiedOn.None?
    ensures ItemInfoOf(item).id == Get(item, "id") && ItemInfoOf(item).createdBy == Get(item, "createdBy")
    ensures "modifiedBy" in item ==> ItemInfoOf(item).modifiedBy != Get(item, "modifiedBy")
  {
  }

  // ------------------------------------------------------------ custom API

  /** One `{key, value}` entry of `parameters` or `headerParameters`. */
  datatype Param = Param(key: string, value: string)

  /** The loop `query += key + '=' + value + '&'`. */
  function Accumulated(ps: seq<Param>): (q: string)
  {
    if ps == [] then ""
    else Accumulated(ps[..|ps| - 1]) + ps[|ps| - 1].key + "=" + ps[|ps| - 1].value + "&"
  }

  /** `query.slice(0, query.length - 1)`: the accumulated string without its
      last character. */
  function Query(ps: seq<Param>): string
  {
    var acc := Accumulated(ps);
    Slice(acc, 0, |acc| - 1)
  }

  /** The intended query: the `key=value` pairs in order, joined by `&`. */
  function Join(ps: seq<Param>): string
  {
    if ps == [] then ""
    else if |ps| == 1 then ps[0].key + "=" + ps[0].value
    else Join(ps[..|ps| - 1]) + "&" + ps[|ps| - 1].key + "=" + ps[|ps| - 1].value
  }

  lemma {:induction false} AccumulatedIsJoinAmpersand(ps: seq<Param>)
    requires ps != []
    ensures Accumulated(ps) == Join(ps) + "&"
  {
    if |ps| > 1 {
      AccumulatedIsJoinAmpersand(ps[..|ps| - 1]);
    } else {
      assert ps[..0] == [];
    }
  }

  /** The trimmed accumulation is exactly the `&`-join: no trailing `&`,
      and the empty string when there are no parameters. */
  lemma QueryIsJoin(ps: seq<Param>)
    ensures Query(ps) == Join(ps)
  {
    if ps != [] {
      AccumulatedIsJoinAmpersand(ps);
      var acc := Accumulated(ps);
      assert acc[0..|acc| - 1] == Join(ps);
    }
  }

  function ProxyHeaders(c: LegacyClient): Headers
  {
    map[ "Content-Type" := Some("application/json"),
         "Oracle-Mobile-Backend-Id" := Some(c.backendId),
         "Authorization" := c.authorization ]
  }

  /** `apiCallerGetMethod`'s request: the custom endpoint followed by `?` and
      the joined query, so no parameters leave a URL ending in `?`. */
  function ApiGetRequest(c: LegacyClient, apiName: string, endpointName: string, parameters: seq<Param>): (r: Request)
    ensures r.verb == GET
    ensures r.url == c.baseUrl + "/mobile/custom/" + apiName + "/" + endpointName + "?" + Join(parameters)
    ensures parameters == [] ==> r.url == c.baseUrl + "/mobile/custom/" + apiName + "/" + endpointName + "?"
  {
    QueryIsJoin(parameters);
    Request(
      c.baseUrl + McsRequests.CustomPath(apiName, endpointName) + "?" + Query(parameters),
      GET,
      ProxyHeaders(c),
      Text(""))
  }

  /** The loop `headers[key] = value` over `headerParameters`, in order. */
  function Merge(h: Headers, ps: seq<Param>): Headers
  {
    if ps == [] then h
    else Merge(h, ps[..|ps| - 1])[ps[|ps| - 1].key := Some(ps[|ps| - 1].value)]
  }

  /** The value of the last entry for `k`, if any. */
  function LastValue(ps: seq<Param>, k: string): Option<string>
  {
    if ps == [] then None
    else if ps[|ps| - 1].key == k then Some(ps[|ps| - 1].value)
    else LastValue(ps[..|ps| - 1], k)
  }

  /** Last occurrence wins; keys not supplied keep their base values and no
      other key appears. */
  lemma {:induction false} MergeLastWins(h: Headers, ps: seq<Param>, k: string)
    ensures LastValue(ps, k).Some? ==> Lookup(Merge(h, ps), k) == Some(LastValue(ps, k))
    ensures LastValue(ps, k).None? ==> Lookup(Merge(h, ps), k) == Lookup(h, k)
  {
    if ps != [] {
      MergeLastWins(h, ps[..|ps| - 1], k);
    }
  }

  /** `apiCallerPostMethod`'s request: the three base headers updated by
      each header parameter in turn. */
  function ApiPostRequest(c: LegacyClient, apiName: string, endpointName: string, headerParameters: seq<Param>, body: string): (r: Request)
    ensures r.verb == POST && r.body == Text(body)
    ensures r.url == c.baseUrl + "/mobile/custom/" + apiName + "/" + endpointName
    ensures forall k :: LastValue(headerParameters, k).Some? ==> Lookup(r.headers, k) == Some(LastValue(headerParameters, k))
    ensures forall k :: LastValue(headerParameters, k).None? ==> Lookup(r.headers, k) == Lookup(ProxyHeaders(c), k)
  {
    var headers := Merge(ProxyHeaders(c), headerParameters);
    forall k ensures LastValue(headerParameters, k).Some? ==> Lookup(headers, k) == Some(LastValue(headerParameters, k))
      ensures LastValue(headerParameters, k).None? ==> Lookup(headers, k) == Lookup(ProxyHeaders(c), k)
    {
      MergeLastWins(ProxyHeaders(c), headerParameters, k);
    }
    Request(c.baseUrl + McsRequests.CustomPath(apiName, endpointName), POST, headers, Text(body))
  }

  /** The custom endpoint the older proxy POSTs to is the URL the
      class-based `createRequestOptions` hands out for the same API. */
  lemma CustomUrlsAgree(c: LegacyClient, d: Mcs.Client, apiName: string, endpoint: string, headerParameters: seq<Param>, body: string, version: Option<string>)
    requires c.baseUrl == d.baseUrl
    ensures ApiPostRequest(c, apiName, endpoint, headerParameters, body).url
         == McsRequests.CreateRequestOptions(d, apiName, endpoint, version).url
  {
  }

  // -------------------------------------------------------------- location

  /** The wrappers of this revision read `options.name` / `options.id`
      with no fallback to `options` itself: a missing property renders as
      "undefined" in the URL and stays `undefined` in the "key" header. */
  function WrapperQuery(kind: McsRequests.LocationKind, byName: bool, options: Arg): (q: McsRequests.LocationQuery)
    ensures q.value == TextOf(q.header)
    ensures q.header == Prop(options, if byName then "name" else "id")
  {
    var p := Prop(options, if byName then "name" else "id");
    McsRequests.LocationQuery("name", TextOf(p), p, McsRequests.PathStr(kind), byName)
  }

  /** Every wrapper hits the endpoint of its lookup; for an options object
      carrying a non-empty name or id both revisions build the same URL, but
      a bare string reaches the backend as "undefined" here. */
  lemma LocationWrappersHitEndpoints(c: LegacyClient, d: Mcs.Client, kind: McsRequests.LocationKind, byName: bool, options: Arg)
    requires c.baseUrl == d.baseUrl
    ensures
      var r := McsRequests.LocationListRequest(c.baseUrl, Some(c.backendId), c.authorization, WrapperQuery(kind, byName, options), Text(""));
      var v := TextOf(Prop(options, if byName then "name" else "id"));
      r.verb == GET && r.url == c.baseUrl + McsRequests.EndpointPath(if byName then McsRequests.ByName(kind, v) else McsRequests.ById(kind, v))
    ensures Truthy(Prop(options, if byName then "name" else "id")) ==>
      McsRequests.LocationListRequest(c.baseUrl, Some(c.backendId), c.authorization, WrapperQuery(kind, byName, options), Text("")).url
      == McsRequests.LocationListRequest(d.baseUrl, Some(d.backendId), Some(d.authorization), McsRequests.WrapperQuery(kind, byName, options), NoBody).url
    ensures options.Str? ==> WrapperQuery(kind, byName, options).value == "undefined"
    ensures options.Str? ==>
      Lookup(McsRequests.LocationListRequest(c.baseUrl, Some(c.backendId), c.authorization, WrapperQuery(kind, byName, options), Text("")).headers, "key") == Some(None)
      && Lookup(McsRequests.LocationListRequest(d.baseUrl, Some(d.backendId), Some(d.authorization), McsRequests.WrapperQuery(kind, byName, options), NoBody).headers, "key") == Some(Some(options.s))
  {
  }
}

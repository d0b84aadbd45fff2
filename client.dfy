/**
 * The Apollo configuration client: its construction from options, the
 * normalisation of the server address, the configuration endpoints, and the
 * two requests whose answers change the client's state (a configuration
 * fetch, which records the release key, and a notification poll, after
 * which the notification list is what json.Unmarshal wrote into it). The HTTP transport is a function
 * parameter and JSON decoding is described by its effect on the target.
 */
module Client {
  import opened Wrappers
  import opened Text
  import Binding

  type Bytes = seq<bv8>

  const DefaultCluster: string := "default"
  const DefaultNamespace: string := "application"
  /** HTTP 304 Not Modified: the long poll ended with nothing new. */
  const StatusNotModified: int := 304
  /** The notification id meaning "nothing seen yet", so the first poll always reports. */
  const UnknownNotificationId: int := -1

  /** A channel owned by the caller, or nil. */
  datatype Handle = Nil | Ref(id: nat)

  /**
   * The struct handed to the Struct option, as a Go interface value: nil; a
   * non-nil pointer, which the struct decoder can fill; or any other value
   * (a typed nil pointer, a struct passed by value), for which
   * mapstructure.NewDecoder refuses to build a decoder.
   */
  datatype ObjectRef = NilObject | Pointer(id: nat) | NotAPointer(id: nat)

  datatype Notification = Notification(namespaceName: string, notificationId: int)

  /** The body of a configuration response. */
  datatype ApolloResponse = ApolloResponse(
    configurations: Bytes,
    releaseKey: string,
    cluster: string,
    namespaceName: string,
    appId: string)

  /** The zero value json.Unmarshal starts from when decoding a configuration response. */
  const EmptyResponse := ApolloResponse([], "", "", "", "")

  /**
   * What json.Unmarshal did to its target: `wrote` is None when it left the
   * target untouched (malformed JSON is rejected before anything is written),
   * and Some(v) when it stored v there, which it also does, partially, when
   * it reports a type mismatch; `err` is the error it returned.
   */
  datatype Unmarshalled<T> = Unmarshalled(wrote: Option<T>, err: Option<string>) {
    function Into(target: T): T {
      if wrote.Some? then wrote.value else target
    }
  }

  datatype Body<T> = ReadFailed(msg: string) | BodyRead(json: Unmarshalled<T>)

  /** The outcome of an http.Get: a transport error, or a status and what reading the body gave. */
  datatype HttpResult<T> = TransportFailed(msg: string) | Response(status: int, body: Body<T>)

  datatype Error =
    | NetworkError(msg: string)
    | ReadError(msg: string)
    | DecodeError(msg: string)
    | MissingArguments
    | NoInterface
    | DecoderUnavailable

  // ---------------------------------------------------------------- options

  /** The settings options control. */
  datatype Params = Params(
    cluster: string,
    server: string,
    namespaceName: string,
    appID: string,
    obj: ObjectRef,
    notify: Handle)

  const Defaults := Params(DefaultCluster, "", DefaultNamespace, "", NilObject, Nil)

  /** The options InitApollo accepts. */
  datatype ApolloOption =
    | Cluster(c: string)
    | NamespaceName(n: string)
    | Server(s: string)
    | AppId(app: string)
    | Struct(obj: ObjectRef)
    | Notify(ch: Handle)

  function ApplyOption(p: Params, o: ApolloOption): Params {
    match o
    case Cluster(c) => p.(cluster := c)
    case NamespaceName(n) => p.(namespaceName := n)
    case Server(s) => p.(server := s)
    case AppId(app) => p.(appID := app)
    case Struct(obj) => p.(obj := obj)
    case Notify(ch) => p.(notify := ch)
  }

  /** The settings after applying `opts` from left to right over the defaults. */
  function Configured(opts: seq<ApolloOption>): Params
    decreases |opts|
  {
    if |opts| == 0 then Defaults
    else ApplyOption(Configured(opts[..|opts| - 1]), opts[|opts| - 1])
  }

  /** The settings, named so that one lemma covers them all. */
  datatype Field = ClusterField | NamespaceField | ServerField | AppIdField | StructField | NotifyField

  /** The value of one setting. */
  datatype Setting = Text(s: string) | Object(ref: ObjectRef) | Channel(ch: Handle)

  function FieldOf(p: Params, f: Field): Setting {
    match f
    case ClusterField => Text(p.cluster)
    case NamespaceField => Text(p.namespaceName)
    case ServerField => Text(p.server)
    case AppIdField => Text(p.appID)
    case StructField => Object(p.obj)
    case NotifyField => Channel(p.notify)
  }

  predicate Sets(o: ApolloOption, f: Field) {
    match f
    case ClusterField => o.Cluster?
    case NamespaceField => o.NamespaceName?
    case ServerField => o.Server?
    case AppIdField => o.AppId?
    case StructField => o.Struct?
    case NotifyField => o.Notify?
  }

  /** The value an option carries. */
  function Argument(o: ApolloOption): Setting {
    match o
    case Cluster(c) => Text(c)
    case NamespaceName(n) => Text(n)
    case Server(s) => Text(s)
    case AppId(app) => Text(app)
    case Struct(obj) => Object(obj)
    case Notify(ch) => Channel(ch)
  }

  /** Options are applied in order: the last option for a setting decides it. */
  lemma {:induction false} LastOptionWins(opts: seq<ApolloOption>, f: Field, i: nat)
    requires i < |opts| && Sets(opts[i], f)
    requires forall j :: i < j < |opts| ==> !Sets(opts[j], f)
    ensures FieldOf(Configured(opts), f) == Argument(opts[i])
    decreases |opts|
  {
    if i < |opts| - 1 {
      var init := opts[..|opts| - 1];
      assert forall j :: i < j < |init| ==> init[j] == opts[j];
      LastOptionWins(init, f, i);
    }
  }

  /** A setting no option mentions keeps its default ("default" cluster, "application" namespace, empty or nil otherwise). */
  lemma {:induction false} UnsetFieldKeepsDefault(opts: seq<ApolloOption>, f: Field)
    requires forall j :: 0 <= j < |opts| ==> !Sets(opts[j], f)
    ensures FieldOf(Configured(opts), f) == FieldOf(Defaults, f)
    decreases |opts|
  {
    if |opts| > 0 {
      var init := opts[..|opts| - 1];
      assert forall j :: 0 <= j < |init| ==> init[j] == opts[j];
      UnsetFieldKeepsDefault(init, f);
    }
  }

  /** Construction is refused when the server or the application id is missing. */
  predicate Incomplete(p: Params) {
    p.server == "" || p.appID == ""
  }

  // ------------------------------------------------------- server address

  /** InitViperRemote's rewrite of the server address: "http://" is prefixed unless "http" or "https" occurs in it. */
  function NormalizedServer(server: string): (r: string)
    ensures Contains(r, "http")
    ensures |server| <= |r| && r[|r| - |server|..] == server
    ensures Contains(server, "http") ==> r == server
    ensures !Contains(server, "http") ==> r == "http://" + server
  {
    HttpsContainsHttp(server);
    assert IsPrefix("http", "http://" + server);
    if !Contains(server, "http") && !Contains(server, "https") then "http://" + server else server
  }

  /** The "https" test is redundant: every string containing "https" contains "http". */
  lemma HttpsContainsHttp(s: string)
    ensures Contains(s, "https") ==> Contains(s, "http")
  {
    if Contains(s, "https") {
      PrefixOfContained(s, "https", "http");
    }
  }

  /** Normalising an already normalised address leaves it as it is. */
  lemma NormalizeIdempotent(server: string)
    ensures NormalizedServer(NormalizedServer(server)) == NormalizedServer(server)
  {
  }

  // ------------------------------------------------------------- endpoints

  /** The query part of a configuration URI: "?ip=" and the escaped client address, when there is one. */
  function IpQuery(ip: string, escape: string -> string): (q: string)
    ensures q == "" <==> ip == ""
    ensures q != "" ==> q[0] == '?'
  {
    if ip == "" then "" else "?ip=" + escape(ip)
  }

  lemma JoinSegments(appID: string, cluster: string, namespaceName: string)
    ensures Join([appID, cluster, namespaceName], '/') == appID + "/" + cluster + "/" + namespaceName
  {
    assert [appID, cluster, namespaceName][1..] == [cluster, namespaceName];
    assert [cluster, namespaceName][1..] == [namespaceName];
    assert Join([cluster, namespaceName], '/') == cluster + "/" + namespaceName;
    assert Join([appID, cluster, namespaceName], '/') == appID + "/" + (cluster + "/" + namespaceName);
  }

  /** The URI `load` requests. */
  function ConfigsUri(server: string, appID: string, cluster: string, namespaceName: string,
                      ip: string, escape: string -> string): (uri: string)
    ensures uri == server + "/configs/" + Join([appID, cluster, namespaceName], '/') + IpQuery(ip, escape)
  {
    JoinSegments(appID, cluster, namespaceName);
    var uri := server + "/configs/" + appID + "/" + cluster + "/" + namespaceName;
    if ip != "" then uri + "?ip=" + escape(ip) else uri
  }

  /** The URI `loadFromCache` requests. */
  function ConfigFilesUri(server: string, appID: string, cluster: string, namespaceName: string,
                          ip: string, escape: string -> string): (uri: string)
    ensures uri == server + "/configfiles/json/" + Join([appID, cluster, namespaceName], '/') + IpQuery(ip, escape)
  {
    JoinSegments(appID, cluster, namespaceName);
    var uri := server + "/configfiles/json/" + appID + "/" + cluster + "/" + namespaceName;
    if ip != "" then uri + "?ip=" + escape(ip) else uri
  }

  /** A path segment: no '/' to split it and no '?' to end the path inside it. */
  predicate IsSegment(s: string) {
    '/' !in s && '?' !in s
  }

  /** The resource named by the path after an endpoint prefix, read back by cutting the query and splitting at '/'. */
  function ResourceOf(tail: string): seq<string> {
    Split(UpTo(tail, '?'), '/')
  }

  lemma ResourcePathRoundTrip(appID: string, cluster: string, namespaceName: string, query: string)
    requires IsSegment(appID) && IsSegment(cluster) && IsSegment(namespaceName)
    requires query == "" || query[0] == '?'
    ensures ResourceOf(Join([appID, cluster, namespaceName], '/') + query) == [appID, cluster, namespaceName]
    ensures UpTo(Join([appID, cluster, namespaceName], '/') + query, '?') == Join([appID, cluster, namespaceName], '/')
  {
    var parts := [appID, cluster, namespaceName];
    var path := Join(parts, '/');
    JoinSegments(appID, cluster, namespaceName);
    assert '?' !in path;
    UpToAppend(path, query, '?');
    SplitJoin(parts, '/');
  }

  /**
   * The configuration URI names its resource unambiguously: the application,
   * cluster and namespace can be read back from it, and it carries a query
   * exactly when a client address is set.
   */
  lemma ConfigsUriRoundTrip(server: string, appID: string, cluster: string, namespaceName: string,
                            ip: string, escape: string -> string)
    requires IsSegment(appID) && IsSegment(cluster) && IsSegment(namespaceName)
    ensures var uri := ConfigsUri(server, appID, cluster, namespaceName, ip, escape);
            var prefix := server + "/configs/";
            && IsPrefix(prefix, uri)
            && ResourceOf(uri[|prefix|..]) == [appID, cluster, namespaceName]
            && (UpTo(uri[|prefix|..], '?') == uri[|prefix|..] <==> ip == "")
  {
    var uri := ConfigsUri(server, appID, cluster, namespaceName, ip, escape);
    var prefix := server + "/configs/";
    var path := Join([appID, cluster, namespaceName], '/');
    var query := IpQuery(ip, escape);
    assert uri == prefix + (path + query);
    assert uri[|prefix|..] == path + query;
    ResourcePathRoundTrip(appID, cluster, namespaceName, query);
    assert path + query == path <==> query == "";
  }

  /** The same for the cached-configuration URI. */
  lemma ConfigFilesUriRoundTrip(server: string, appID: string, cluster: string, namespaceName: string,
                                ip: string, escape: string -> string)
    requires IsSegment(appID) && IsSegment(cluster) && IsSegment(namespaceName)
    ensures var uri := ConfigFilesUri(server, appID, cluster, namespaceName, ip, escape);
            var prefix := server + "/configfiles/json/";
            && IsPrefix(prefix, uri)
            && ResourceOf(uri[|prefix|..]) == [appID, cluster, namespaceName]
            && (UpTo(uri[|prefix|..], '?') == uri[|prefix|..] <==> ip == "")
  {
    var uri := ConfigFilesUri(server, appID, cluster, namespaceName, ip, escape);
    var prefix := server + "/configfiles/json/";
    var path := Join([appID, cluster, namespaceName], '/');
    var query := IpQuery(ip, escape);
    assert uri == prefix + (path + query);
    assert uri[|prefix|..] == path + query;
    ResourcePathRoundTrip(appID, cluster, namespaceName, query);
    assert path + query == path <==> query == "";
  }

  /** The two endpoints differ only in the path segment before the resource. */
  lemma CachedEndpointMirrorsConfigs(server: string, appID: string, cluster: string, namespaceName: string,
                                     ip: string, escape: string -> string)
    ensures var plain := ConfigsUri(server, appID, cluster, namespaceName, ip, escape);
            ConfigFilesUri(server, appID, cluster, namespaceName, ip, escape)
              == server + "/configfiles/json/" + plain[|server + "/configs/"|..]
  {
    var rest := Join([appID, cluster, namespaceName], '/') + IpQuery(ip, escape);
    assert ConfigsUri(server, appID, cluster, namespaceName, ip, escape) == (server + "/configs/") + rest;
    assert ConfigFilesUri(server, appID, cluster, namespaceName, ip, escape) == server + "/configfiles/json/" + rest;
  }

  // ------------------------------------------------- configuration fetch

  /** A configuration response that arrived, was read and decoded without error. */
  predicate Decodes(resp: HttpResult<ApolloResponse>) {
    resp.Response? && resp.body.BodyRead? && resp.body.json.err.None?
  }

  /** The response body as decoded into a fresh apolloResponse. */
  function Decoded(resp: HttpResult<ApolloResponse>): ApolloResponse
    requires resp.Response? && resp.body.BodyRead?
  {
    resp.body.json.Into(EmptyResponse)
  }

  /** What `get` returns and the release key it leaves behind. */
  datatype Fetched = Fetched(result: Result<Bytes, Error>, releaseKey: string)

  /** `get` as a transition of the release key, given the outcome of the request. */
  function Fetch(releaseKey: string, resp: HttpResult<ApolloResponse>): (f: Fetched)
    ensures f.result.Success? <==> Decodes(resp)
    ensures f.result.Failure? ==> f.releaseKey == releaseKey
    ensures f.result.Success? ==>
              f.releaseKey == Decoded(resp).releaseKey && f.result.value == Decoded(resp).configurations
    ensures resp.TransportFailed? ==> f.result == Failure(NetworkError(resp.msg))
    ensures resp.Response? && resp.body.ReadFailed? ==> f.result == Failure(ReadError(resp.body.msg))
    ensures resp.Response? && resp.body.BodyRead? && resp.body.json.err.Some? ==>
              f.result == Failure(DecodeError(resp.body.json.err.value))
  {
    match resp
    case TransportFailed(m) => Fetched(Failure(NetworkError(m)), releaseKey)
    case Response(_, ReadFailed(m)) => Fetched(Failure(ReadError(m)), releaseKey)
    case Response(_, BodyRead(json)) =>
      if json.err.Some? then Fetched(Failure(DecodeError(json.err.value)), releaseKey)
      else
        var apolloResp := json.Into(EmptyResponse);
        Fetched(Success(apolloResp.configurations), apolloResp.releaseKey)
  }

  /** The release key after a series of fetches. */
  function KeyAfterFetches(releaseKey: string, resps: seq<HttpResult<ApolloResponse>>): string
    decreases |resps|
  {
    if |resps| == 0 then releaseKey
    else Fetch(KeyAfterFetches(releaseKey, resps[..|resps| - 1]), resps[|resps| - 1]).releaseKey
  }

  /** The cached release key is the one of the most recent successful fetch. */
  lemma {:induction false} ReleaseKeyOfLastSuccess(releaseKey: string, resps: seq<HttpResult<ApolloResponse>>, i: nat)
    requires i < |resps| && Decodes(resps[i])
    requires forall j :: i < j < |resps| ==> !Decodes(resps[j])
    ensures KeyAfterFetches(releaseKey, resps) == Decoded(resps[i]).releaseKey
    decreases |resps|
  {
    if i < |resps| - 1 {
      var init := resps[..|resps| - 1];
      assert forall j :: i < j < |init| ==> init[j] == resps[j];
      ReleaseKeyOfLastSuccess(releaseKey, init, i);
    }
  }

  /** Failed fetches never touch the cached release key. */
  lemma {:induction false} ReleaseKeyKeptWithoutSuccess(releaseKey: string, resps: seq<HttpResult<ApolloResponse>>)
    requires forall j :: 0 <= j < |resps| ==> !Decodes(resps[j])
    ensures KeyAfterFetches(releaseKey, resps) == releaseKey
    decreases |resps|
  {
    if |resps| > 0 {
      var init := resps[..|resps| - 1];
      assert forall j :: 0 <= j < |init| ==> init[j] == resps[j];
      ReleaseKeyKeptWithoutSuccess(releaseKey, init);
    }
  }

  // --------------------------------------------------- notification poll

  /** The parameters of a notifications/v2 request. */
  datatype NotificationsRequest = NotificationsRequest(
    server: string, appId: string, cluster: string, notifications: seq<Notification>)

  /** What `getNotifications` returns and the notification list it leaves behind. */
  datatype Polled = Polled(modified: bool, err: Option<Error>, notifications: seq<Notification>)

  /** A poll response that overwrites the notification list. */
  predicate Writes(resp: HttpResult<seq<Notification>>) {
    resp.Response? && resp.status != StatusNotModified && resp.body.BodyRead? && resp.body.json.wrote.Some?
  }

  /** `getNotifications` as a transition of the notification list, given the outcome of the request. */
  function Poll(notifications: seq<Notification>, resp: HttpResult<seq<Notification>>): (p: Polled)
    ensures !p.modified ==> p.notifications == notifications
    ensures p.modified <==> resp.Response? && resp.status != StatusNotModified && resp.body.BodyRead?
    ensures p.notifications != notifications ==> Writes(resp) && p.notifications == resp.body.json.wrote.value
    ensures p.modified ==> p.notifications == resp.body.json.Into(notifications)
                           && p.err == (if resp.body.json.err.Some? then Some(DecodeError(resp.body.json.err.value)) else None)
    ensures resp.Response? && resp.status == StatusNotModified ==> p == Polled(false, None, notifications)
    ensures resp.TransportFailed? ==> p == Polled(false, Some(NetworkError(resp.msg)), notifications)
    ensures resp.Response? && resp.status != StatusNotModified && resp.body.ReadFailed? ==>
              p == Polled(false, Some(ReadError(resp.body.msg)), notifications)
  {
    match resp
    case TransportFailed(m) => Polled(false, Some(NetworkError(m)), notifications)
    case Response(status, body) =>
      if status == StatusNotModified then Polled(false, None, notifications)
      else
        match body
        case ReadFailed(m) => Polled(false, Some(ReadError(m)), notifications)
        case BodyRead(json) =>
          var err := if json.err.Some? then Some(DecodeError(json.err.value)) else None;
          Polled(true, err, json.Into(notifications))
  }

  /** The notification list after a series of polls. */
  function NotificationsAfterPolls(notifications: seq<Notification>, resps: seq<HttpResult<seq<Notification>>>): seq<Notification>
    decreases |resps|
  {
    if |resps| == 0 then notifications
    else Poll(NotificationsAfterPolls(notifications, resps[..|resps| - 1]), resps[|resps| - 1]).notifications
  }

  /** The notification list is what json.Unmarshal wrote into it on the latest poll that wrote it. */
  lemma {:induction false} NotificationsOfLastWrite(ns: seq<Notification>, resps: seq<HttpResult<seq<Notification>>>, i: nat)
    requires i < |resps| && Writes(resps[i])
    requires forall j :: i < j < |resps| ==> !Writes(resps[j])
    ensures NotificationsAfterPolls(ns, resps) == resps[i].body.json.wrote.value
    decreases |resps|
  {
    if i < |resps| - 1 {
      var init := resps[..|resps| - 1];
      assert forall j :: i < j < |init| ==> init[j] == resps[j];
      NotificationsOfLastWrite(ns, init, i);
    }
  }

  /** Polls answered 304, failed, or whose body decoded to nothing leave the list as it was. */
  lemma {:induction false} NotificationsKeptWithoutWrite(ns: seq<Notification>, resps: seq<HttpResult<seq<Notification>>>)
    requires forall j :: 0 <= j < |resps| ==> !Writes(resps[j])
    ensures NotificationsAfterPolls(ns, resps) == ns
    decreases |resps|
  {
    if |resps| > 0 {
      var init := resps[..|resps| - 1];
      assert forall j :: 0 <= j < |init| ==> init[j] == resps[j];
      NotificationsKeptWithoutWrite(ns, init);
    }
  }

  // ----------------------------------------------------------- the client

  class Apollo {
    var cluster: string
    var server: string
    var namespaceName: string
    var appID: string
    var releaseKey: string
    var ip: string
    var notifications: seq<Notification>
    /** The caller's struct to decode into (Go's field is named `object`, a Dafny keyword). */
    var obj: ObjectRef
    var notify: Handle

    function CurrentParams(): Params
      reads this
    {
      Params(cluster, server, namespaceName, appID, obj, notify)
    }

    /** A client with the default cluster and namespace and nothing else set. */
    constructor ()
      ensures CurrentParams() == Defaults
      ensures releaseKey == "" && ip == "" && notifications == []
    {
      cluster := DefaultCluster;
      server := "";
      namespaceName := DefaultNamespace;
      appID := "";
      releaseKey := "";
      ip := "";
      notifications := [];
      obj := NilObject;
      notify := Nil;
    }

    /** Option.apply: set the one field the option names. */
    method Apply(o: ApolloOption)
      modifies this`cluster, this`server, this`namespaceName, this`appID, this`obj, this`notify
      ensures CurrentParams() == ApplyOption(old(CurrentParams()), o)
    {
      match o
      case Cluster(c) => cluster := c;
      case NamespaceName(n) => namespaceName := n;
      case Server(s) => server := s;
      case AppId(app) => appID := app;
      case Struct(s) => obj := s;
      case Notify(ch) => notify := ch;
    }

    /** InitViperRemote's in-place rewrite of the server address. */
    method NormalizeServer()
      modifies this`server
      ensures server == NormalizedServer(old(server))
    {
      if !Contains(server, "http") && !Contains(server, "https") {
        server := "http://" + server;
      }
    }

    /** get: request `uri`; on a fully decoded answer record its release key and return its configurations. */
    method Get(uri: string, fetch: string -> HttpResult<ApolloResponse>) returns (r: Result<Bytes, Error>)
      modifies this`releaseKey
      ensures Fetched(r, releaseKey) == Fetch(old(releaseKey), fetch(uri))
    {
      var resp := fetch(uri);
      if resp.TransportFailed? {
        return Failure(NetworkError(resp.msg));
      }
      if resp.body.ReadFailed? {
        return Failure(ReadError(resp.body.msg));
      }
      var json := resp.body.json;
      if json.err.Some? {
        return Failure(DecodeError(json.err.value));
      }
      var apolloResp := json.Into(EmptyResponse);
      releaseKey := apolloResp.releaseKey;
      return Success(apolloResp.configurations);
    }

    /** load: fetch the configuration from the configs endpoint. */
    method Load(fetch: string -> HttpResult<ApolloResponse>, escape: string -> string) returns (r: Result<Bytes, Error>)
      modifies this`releaseKey
      ensures Fetched(r, releaseKey)
              == Fetch(old(releaseKey), fetch(ConfigsUri(server, appID, cluster, namespaceName, ip, escape)))
    {
      var uri := ConfigsUri(server, appID, cluster, namespaceName, ip, escape);
      r := Get(uri, fetch);
    }

    /** loadFromCache: fetch the configuration from the cached configfiles endpoint. */
    method LoadFromCache(fetch: string -> HttpResult<ApolloResponse>, escape: string -> string) returns (r: Result<Bytes, Error>)
      modifies this`releaseKey
      ensures Fetched(r, releaseKey)
              == Fetch(old(releaseKey), fetch(ConfigFilesUri(server, appID, cluster, namespaceName, ip, escape)))
    {
      var uri := ConfigFilesUri(server, appID, cluster, namespaceName, ip, escape);
      r := Get(uri, fetch);
    }

    /**
     * getNotifications: long-poll with the current notification list; 304
     * means nothing changed; after any other answer that could be read, the
     * list is what json.Unmarshal wrote into it.
     */
    method GetNotifications(poll: NotificationsRequest -> HttpResult<seq<Notification>>)
      returns (modified: bool, err: Option<Error>)
      modifies this`notifications
      ensures Polled(modified, err, notifications)
              == Poll(old(notifications), poll(NotificationsRequest(server, appID, cluster, old(notifications))))
    {
      var resp := poll(NotificationsRequest(server, appID, cluster, notifications));
      if resp.TransportFailed? {
        return false, Some(NetworkError(resp.msg));
      }
      if resp.status == StatusNotModified {
        return false, None;
      }
      if resp.body.ReadFailed? {
        return false, Some(ReadError(resp.body.msg));
      }
      var json := resp.body.json;
      notifications := json.Into(notifications);
      err := if json.err.Some? then Some(DecodeError(json.err.value)) else None;
      modified := true;
    }

    /**
     * ParseStruct: decode `local` (when given) and then `remote` into the
     * caller's struct, whose fields are `target`. Without a struct nothing is
     * decoded and NoInterface is returned. A struct that is not a non-nil
     * pointer passes that guard, but the decoder cannot be built and the
     * first Decode call panics; that panic is DecoderUnavailable here, and
     * nothing is decoded. Otherwise a local decoding error is dropped, and
     * the remote decoding runs last and its error is the one returned.
     */
    method ParseStruct(target: Binding.KeyValues, local: Option<Binding.KeyValues>, remote: Binding.KeyValues,
                       decode: Binding.Decoder)
      returns (bound: Binding.KeyValues, err: Option<Error>)
      ensures err == Some(NoInterface) <==> obj.NilObject?
      ensures err == Some(DecoderUnavailable) <==> obj.NotAPointer?
      ensures !obj.Pointer? ==> bound == target
      ensures obj.Pointer? ==>
                var afterLocal := if local.Some? then decode(local.value, target).target else target;
                && bound == decode(remote, afterLocal).target
                && (err.Some? <==> decode(remote, afterLocal).err.Some?)
                && (err.Some? ==> err == Some(DecodeError(decode(remote, afterLocal).err.value)))
    {
      if obj.NilObject? {
        return target, Some(NoInterface);
      }
      if obj.NotAPointer? {
        return target, Some(DecoderUnavailable);
      }
      bound := target;
      if local.Some? {
        var d := decode(local.value, bound);
        bound := d.target;
      }
      var d := decode(remote, bound);
      bound := d.target;
      err := if d.err.Some? then Some(DecodeError(d.err.value)) else None;
    }
  }

  /**
   * InitApollo: apply the options in order over the defaults; refuse a
   * client without server or application id; seed the notification list
   * with the namespace at the unknown notification id.
   */
  method InitApollo(opts: seq<ApolloOption>) returns (r: Result<Apollo, Error>)
    ensures r.Failure? <==> Incomplete(Configured(opts))
    ensures r.Failure? ==> r.error == MissingArguments
    ensures r.Success? ==>
              && fresh(r.value)
              && r.value.CurrentParams() == Configured(opts)
              && r.value.notifications == [Notification(Configured(opts).namespaceName, UnknownNotificationId)]
              && r.value.releaseKey == ""
              && r.value.ip == ""
  {
    var apollo := new Apollo();
    for i := 0 to |opts|
      invariant apollo.CurrentParams() == Configured(opts[..i])
      invariant apollo.releaseKey == "" && apollo.ip == "" && apollo.notifications == []
    {
      apollo.Apply(opts[i]);
      assert opts[..i + 1][..i] == opts[..i];
    }
    assert opts[..|opts|] == opts;
    if apollo.server == "" || apollo.appID == "" {
      return Failure(MissingArguments);
    }
    apollo.notifications := [Notification(apollo.namespaceName, UnknownNotificationId)];
    return Success(apollo);
  }
}

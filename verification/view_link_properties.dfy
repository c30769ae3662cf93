/**
 * What the view-link builder promises, stated over the model: the order of
 * its checks, the memoisation of the configuration and of the host, the
 * shapes of the links it builds, and how build failures surface.
 */
module ViewLinkProperties {
  import opened Wrappers
  import opened JsValues
  import opened ViewLinkErrors
  import opened Urls
  import opened ViewLinks

  // ---------------------------------------------------------------------------
  // Configuration

  /** Each configuration error is raised exactly when its check is the first to fail. */
  lemma ConfigCheckOrder(config: JsVal)
    ensures ValidateConfig(config) == Fail(Raise(ConfigNotFoundMessage, ConfigNotFound))
      <==> config.Undefined? || config.Null?
    ensures ValidateConfig(config) == Fail(Raise(InvalidConfigMessage, InvalidConfig))
      <==> config.Bool? || config.Num? || config.Str? || config.Arr?
    ensures ValidateConfig(config) == Fail(Raise(InvalidHostsMessage, InvalidHostsInConfig))
      <==> config.Obj? && !Property(config, "hosts").Obj?
    ensures ValidateConfig(config) == Pass <==> ConfigAccepted(config)
  {
  }

  /** A configuration is only stored once it has passed validation. */
  lemma ConfigFailureStoresNothing(c: Cache, settings: JsVal)
    requires CacheValid(c)
    requires ConfigRead(c, settings).result.Failure?
    ensures ConfigRead(c, settings).cache == c
    ensures ConfigRead(c, settings).result.error == ValidateConfig(settings).error
    ensures ConfigRead(c, settings).settingsCalls == 1
  {
  }

  /**
   * Once a read succeeds, the next read returns the same configuration
   * without asking the provider, whatever the provider would now answer.
   */
  lemma ConfigMemoised(c: Cache, settings: JsVal, later: JsVal)
    requires CacheValid(c)
    requires ConfigRead(c, settings).result.Success?
    ensures var first := ConfigRead(c, settings);
      ConfigRead(first.cache, later) == Step(first.cache, first.result, 0, 0)
  {
  }

  /** The provider is asked exactly when no configuration is cached. */
  lemma ConfigLoadsOnlyWhenEmpty(c: Cache, settings: JsVal)
    requires CacheValid(c)
    ensures ConfigRead(c, settings).settingsCalls == if Truthy(c.config) then 0 else 1
    ensures ConfigRead(c, settings).setHostCalls == 0
  {
  }

  // ---------------------------------------------------------------------------
  // Host

  /** Without a stage, resolution fails before the configuration is touched. */
  lemma NoStageBeforeConfig(c: Cache, env: Env)
    requires CacheValid(c)
    requires !Truthy(c.host) && env.stage.None?
    ensures HostRead(c, env) == Step(c, Failure(Raise(NoStageMessage, NoStageName)), 0, 1)
  {
  }

  /** Configuration errors reach the host reader unchanged. */
  lemma ConfigErrorsReachHost(c: Cache, env: Env)
    requires CacheValid(c)
    requires !Truthy(c.host) && env.stage.Some?
    requires ConfigRead(c, env.settings).result.Failure?
    ensures HostRead(c, env).result == ConfigRead(c, env.settings).result
    ensures HostRead(c, env).cache == c
  {
  }

  /**
   * With a configuration at hand, the host is `HOST_NOT_FOUND` exactly when
   * `hosts[stage]` is undefined, and is otherwise that value, now cached.
   */
  lemma HostLookup(c: Cache, env: Env, config: JsVal)
    requires CacheValid(c)
    requires !Truthy(c.host) && env.stage.Some?
    requires ConfigRead(c, env.settings).result == Success(config)
    ensures var found := Property(Property(config, "hosts"), env.stage.value);
      var h := HostRead(c, env);
      (found.Undefined? ==>
        h.result == Failure(Raise(HostNotFoundMessage(env.stage.value), HostNotFound)) &&
        h.cache == ConfigRead(c, env.settings).cache) &&
      (!found.Undefined? ==>
        h.result == Success(found) && h.cache == Cache(config, found) && h.setHostCalls == 1)
  {
  }

  /** A truthy resolved host is cached: reading it again runs neither `_setHost` nor the provider. */
  lemma HostMemoised(c: Cache, env: Env, later: Env)
    requires CacheValid(c)
    requires HostRead(c, env).result.Success? && Truthy(HostRead(c, env).result.value)
    ensures var first := HostRead(c, env);
      HostRead(first.cache, later) == Step(first.cache, first.result, 0, 0)
  {
  }

  /** The cache test is truthiness, so a falsy host (an empty string) is resolved again on every read. */
  lemma FalsyHostResolvedAgain(c: Cache, env: Env)
    requires CacheValid(c)
    requires HostRead(c, env).result.Success? && !Truthy(HostRead(c, env).result.value)
    ensures HostRead(HostRead(c, env).cache, env).setHostCalls == 1
  {
  }

  /**
   * A failed host read caches no host (a configuration loaded on the way may
   * stay), so the next read runs `_setHost` again.
   */
  lemma HostFailureRetries(c: Cache, env: Env, later: Env)
    requires CacheValid(c)
    requires HostRead(c, env).result.Failure?
    ensures HostRead(c, env).cache.host == c.host
    ensures HostRead(HostRead(c, env).cache, later).setHostCalls == 1
  {
  }

  // ---------------------------------------------------------------------------
  // Operations: host first, then arguments

  /**
   * All three operations resolve the host before looking at their
   * arguments: a configuration, stage or host error is what they raise,
   * whatever the arguments.
   */
  lemma HostErrorsWin(c: Cache, env: Env, service: JsVal, entity: JsVal, entityId: JsVal, entries: JsVal, params: JsVal)
    requires CacheValid(c)
    requires HostRead(c, env).result.Failure?
    ensures var e := HostRead(c, env).result.error;
      BrowseStep(c, env, service, entity, params).result == Failure(e) &&
      EditStep(c, env, service, entity, entityId, params).result == Failure(e) &&
      GenericStep(c, env, entries, params).result == Failure(e)
  {
  }

  /**
   * An operation changes the cache, and calls its collaborators, only
   * through the host read: argument and build errors leave no trace.
   */
  lemma OperationsOnlyResolveHost(c: Cache, env: Env, service: JsVal, entity: JsVal, entityId: JsVal, entries: JsVal, params: JsVal)
    requires CacheValid(c)
    ensures var h := HostRead(c, env);
      var b := BrowseStep(c, env, service, entity, params);
      var e := EditStep(c, env, service, entity, entityId, params);
      var g := GenericStep(c, env, entries, params);
      b.cache == e.cache == g.cache == h.cache &&
      b.settingsCalls == e.settingsCalls == g.settingsCalls == h.settingsCalls &&
      b.setHostCalls == e.setHostCalls == g.setHostCalls == h.setHostCalls
  {
  }

  /** On an empty cache with a stage set, every configuration error surfaces from every operation. */
  lemma ConfigErrorsReachCallers(env: Env, service: JsVal, entity: JsVal, entityId: JsVal, entries: JsVal, params: JsVal)
    requires env.stage.Some? && ValidateConfig(env.settings).Fail?
    ensures var e := ValidateConfig(env.settings).error;
      var empty := Cache(Undefined, Undefined);
      BrowseStep(empty, env, service, entity, params).result == Failure(e) &&
      EditStep(empty, env, service, entity, entityId, params).result == Failure(e) &&
      GenericStep(empty, env, entries, params).result == Failure(e)
  {
  }

  /** `getBrowse` checks service, then entity, then params; a failure after that is a build failure. */
  lemma BrowseChecksInOrder(host: JsVal, service: JsVal, entity: JsVal, params: JsVal)
    ensures !service.Str? ==>
      Browse(host, service, entity, params) == Failure(Raise(InvalidServiceMessage, InvalidService))
    ensures service.Str? && !entity.Str? ==>
      Browse(host, service, entity, params) == Failure(Raise(InvalidEntityMessage, InvalidEntity))
    ensures service.Str? && entity.Str? && !ParamsAllowed(params) ==>
      Browse(host, service, entity, params) == Failure(Raise(InvalidParamsMessage, InvalidParams))
    ensures service.Str? && entity.Str? && ParamsAllowed(params) ==>
      Browse(host, service, entity, params).Success? || Browse(host, service, entity, params).error.code == UrlError
  {
  }

  /** `getEdit` checks the entity ID last, after the basic parameters. */
  lemma EditChecksInOrder(host: JsVal, service: JsVal, entity: JsVal, entityId: JsVal, params: JsVal)
    ensures !service.Str? ==>
      Edit(host, service, entity, entityId, params) == Failure(Raise(InvalidServiceMessage, InvalidService))
    ensures service.Str? && !entity.Str? ==>
      Edit(host, service, entity, entityId, params) == Failure(Raise(InvalidEntityMessage, InvalidEntity))
    ensures service.Str? && entity.Str? && !ParamsAllowed(params) ==>
      Edit(host, service, entity, entityId, params) == Failure(Raise(InvalidParamsMessage, InvalidParams))
    ensures service.Str? && entity.Str? && ParamsAllowed(params) && !entityId.Str? ==>
      Edit(host, service, entity, entityId, params) == Failure(Raise(InvalidEntityIdMessage, InvalidEntityId))
    ensures service.Str? && entity.Str? && ParamsAllowed(params) && entityId.Str? ==>
      Edit(host, service, entity, entityId, params).Success? || Edit(host, service, entity, entityId, params).error.code == UrlError
  {
  }

  /** `get` checks that entries is an array before it checks params. */
  lemma GenericChecksInOrder(host: JsVal, entries: JsVal, params: JsVal)
    ensures !entries.Arr? ==>
      Generic(host, entries, params) == Failure(Raise(InvalidEntriesMessage, InvalidEntries))
    ensures entries.Arr? && !ParamsAllowed(params) ==>
      Generic(host, entries, params) == Failure(Raise(InvalidParamsMessage, InvalidParams))
    ensures entries.Arr? && ParamsAllowed(params) ==>
      Generic(host, entries, params).Success? || Generic(host, entries, params).error.code == UrlError
  {
  }

  // ---------------------------------------------------------------------------
  // Link shapes

  /** The entries converted to strings. */
  function Strings(items: seq<JsVal>): (r: seq<string>)
    ensures |r| == |items|
    ensures forall i :: 0 <= i < |items| ==> r[i] == Stringify(items[i])
  {
    seq(|items|, i requires 0 <= i < |items| => Stringify(items[i]))
  }

  /** Path segments separated by `/`: the reference for the `reduce` join. */
  function JoinSegments(segments: seq<string>): string
  {
    if segments == [] then ""
    else if |segments| == 1 then segments[0]
    else segments[0] + "/" + JoinSegments(segments[1..])
  }

  lemma JoinAfterHead(a: string, b: string, rest: seq<string>)
    ensures JoinSegments([a + "/" + b] + rest) == a + "/" + JoinSegments([b] + rest)
  {
    assert ([a + "/" + b] + rest)[1..] == rest;
    assert ([b] + rest)[1..] == rest;
  }

  /** Folding the `reduce` callback from the left joins the accumulator and the rest with `/`. */
  lemma {:induction false} FoldPathJoins(acc: string, rest: seq<JsVal>)
    ensures FoldPath(acc, rest) == JoinSegments([acc] + Strings(rest))
    decreases |rest|
  {
    if rest != [] {
      var x := Stringify(rest[0]);
      FoldPathJoins(acc + "/" + x, rest[1..]);
      JoinAfterHead(acc, x, Strings(rest[1..]));
      assert Strings(rest) == [x] + Strings(rest[1..]);
      assert ([acc] + Strings(rest))[1..] == [x] + Strings(rest[1..]);
    }
  }

  /** `reduce` fails on no entries and otherwise joins all of them with `/`; one entry is itself. */
  lemma ReducePathJoins(items: seq<JsVal>)
    ensures items == [] ==> ReducePath(items) == Failure(EmptyReduce)
    ensures items != [] ==> ReducePath(items) == Success(JoinSegments(Strings(items)))
    ensures |items| == 1 ==> ReducePath(items) == Success(Stringify(items[0]))
  {
    if items != [] {
      FoldPathJoins(Stringify(items[0]), items[1..]);
      assert Strings(items) == [Stringify(items[0])] + Strings(items[1..]);
    }
  }

  /** Without params there is no query string: a link is exactly its base path. */
  lemma NoParamsNoQuery(base: string)
    requires ParsesAsUrl(base)
    ensures Built(Success(base), Undefined) == Success(base)
    ensures Built(Success(base), Obj([])) == Success(base)
  {
  }

  /** `getBrowse` gives `host/service/entity/browse`, followed by the query of its params. */
  lemma BrowseShape(host: string, service: string, entity: string, entries: seq<(string, JsVal)>)
    requires ParsesAsUrl(host + "/" + service + "/" + entity + "/browse")
    ensures var base := host + "/" + service + "/" + entity + "/browse";
      Browse(Str(host), Str(service), Str(entity), Undefined) == Success(base) &&
      Browse(Str(host), Str(service), Str(entity), Obj(entries)) == Success(Serialize(base, QueryPairs(entries)))
  {
    assert [] + QueryPairs(entries) == QueryPairs(entries);
  }

  /** `getEdit` gives `host/service/entity/edit/entityId`, followed by the query of its params. */
  lemma EditShape(host: string, service: string, entity: string, entityId: string, entries: seq<(string, JsVal)>)
    requires ParsesAsUrl(host + "/" + service + "/" + entity + "/edit/" + entityId)
    ensures var base := host + "/" + service + "/" + entity + "/edit/" + entityId;
      Edit(Str(host), Str(service), Str(entity), Str(entityId), Undefined) == Success(base) &&
      Edit(Str(host), Str(service), Str(entity), Str(entityId), Obj(entries)) == Success(Serialize(base, QueryPairs(entries)))
  {
    assert [] + QueryPairs(entries) == QueryPairs(entries);
  }

  /** `get` gives `host/` and the entries joined with `/`, followed by the query of its params. */
  lemma GenericShape(host: string, items: seq<JsVal>, entries: seq<(string, JsVal)>)
    requires items != []
    requires ParsesAsUrl(host + "/" + JoinSegments(Strings(items)))
    ensures var base := host + "/" + JoinSegments(Strings(items));
      Generic(Str(host), Arr(items), Undefined) == Success(base) &&
      Generic(Str(host), Arr(items), Obj(entries)) == Success(Serialize(base, QueryPairs(entries)))
  {
    ReducePathJoins(items);
    assert [] + QueryPairs(entries) == QueryPairs(entries);
  }

  // ---------------------------------------------------------------------------
  // Query

  /** `{foo: 'bar'}` appends `?foo=bar` to the base path. */
  lemma FooBarQuery(base: string)
    ensures Export(base, [], Obj([("foo", Str("bar"))])) == Success(base + "?foo=bar")
  {
    var pairs := QueryPairs([("foo", Str("bar"))]);
    assert [] + pairs == pairs == [("foo", "bar")];
    assert QueryString(pairs) == "foo=bar";
    assert base + "?" + "foo=bar" == base + "?foo=bar";
  }

  /**
   * Adding an entry to the params adds one pair at the end of the query,
   * after the pairs of the earlier entries. The key may repeat an earlier
   * one: a JavaScript object cannot hold such params, but the case shows that
   * `append` never replaces a pair.
   */
  lemma QueryInInsertionOrder(base: string, entries: seq<(string, JsVal)>, key: string, value: JsVal)
    ensures Export(base, [], Obj(entries + [(key, value)])) ==
      Success(Serialize(base, QueryPairs(entries)) + (if entries == [] then "?" else "&") + key + "=" + Stringify(value))
  {
    assert QueryPairs(entries + [(key, value)]) == QueryPairs(entries) + [(key, Stringify(value))];
    assert [] + QueryPairs(entries + [(key, value)]) == QueryPairs(entries + [(key, value)]);
    SerializeAppend(base, QueryPairs(entries), (key, Stringify(value)));
    var head := Serialize(base, QueryPairs(entries)) + (if entries == [] then "?" else "&");
    assert head + Pair((key, Stringify(value))) == head + key + "=" + Stringify(value);
  }

  // ---------------------------------------------------------------------------
  // Build failures

  /** A text whose first `/` comes before any colon has no scheme, so it does not parse. */
  lemma NoSchemeBeforeSlash(prefix: string, rest: string)
    requires forall j :: 0 <= j < |prefix| ==> prefix[j] != ':'
    ensures !ParsesAsUrl(prefix + "/" + rest)
  {
    var s := prefix + "/" + rest;
    assert s[|prefix|] == '/';
    assert forall j :: 0 <= j < |prefix| ==> s[j] == prefix[j];
    if |prefix| > 0 && IsAlpha(s[0]) {
      SchemeRestMeans(s, 1);
      forall k | 1 <= k < |s| && s[k] == ':'
        ensures exists j :: 1 <= j < k && !IsSchemeChar(s[j])
      {
        assert |prefix| < k && !IsSchemeChar(s[|prefix|]);
      }
    }
  }

  /**
   * A host without a colon, hence without a scheme (such as `bad-url`),
   * makes every operation whose arguments are valid fail with `URL_ERROR`.
   */
  lemma BadHostIsUrlError(host: string, service: string, entity: string, entityId: string, items: seq<JsVal>, params: JsVal)
    requires forall j :: 0 <= j < |host| ==> host[j] != ':'
    requires ParamsAllowed(params) && items != []
    ensures Browse(Str(host), Str(service), Str(entity), params) == Failure(UrlFailure(InvalidUrl))
    ensures Edit(Str(host), Str(service), Str(entity), Str(entityId), params) == Failure(UrlFailure(InvalidUrl))
    ensures Generic(Str(host), Arr(items), params) == Failure(UrlFailure(InvalidUrl))
  {
    NoSchemeBeforeSlash(host, service + "/" + entity + "/browse");
    assert BrowsePath(Str(host), service, entity) == host + "/" + (service + "/" + entity + "/browse");
    NoSchemeBeforeSlash(host, service + "/" + entity + "/edit/" + entityId);
    assert EditPath(Str(host), service, entity, entityId) == host + "/" + (service + "/" + entity + "/edit/" + entityId);
    ReducePathJoins(items);
    NoSchemeBeforeSlash(host, JoinSegments(Strings(items)));
  }

  /** `bad-url` is such a host: it has no colon. */
  lemma BadUrlHasNoScheme()
    ensures forall j :: 0 <= j < |"bad-url"| ==> "bad-url"[j] != ':'
  {
  }

  /** `get` with no entries fails with `URL_ERROR`, whatever the host. */
  lemma EmptyEntriesIsUrlError(host: JsVal, params: JsVal)
    requires ParamsAllowed(params)
    ensures Generic(host, Arr([]), params) == Failure(UrlFailure(EmptyReduce))
  {
  }

  /**
   * `null` params pass validation in all three operations, then fail the
   * build with `URL_ERROR` when `Object.entries` meets them.
   */
  lemma NullParamsIsUrlError(host: string, service: string, entity: string, entityId: string, items: seq<JsVal>)
    requires ParsesAsUrl(BrowsePath(Str(host), service, entity))
    requires ParsesAsUrl(EditPath(Str(host), service, entity, entityId))
    requires GenericPath(Str(host), items).Success? && ParsesAsUrl(GenericPath(Str(host), items).value)
    ensures ValidateBasicParams(Str(service), Str(entity), Null) == Pass
    ensures Browse(Str(host), Str(service), Str(entity), Null) == Failure(UrlFailure(NullToObject))
    ensures Edit(Str(host), Str(service), Str(entity), Str(entityId), Null) == Failure(UrlFailure(NullToObject))
    ensures Generic(Str(host), Arr(items), Null) == Failure(UrlFailure(NullToObject))
    ensures UrlFailure(NullToObject).code == UrlError
  {
  }

  // ---------------------------------------------------------------------------
  // The cache object

  /**
   * Reading the configuration twice asks the provider once when the first
   * read succeeds, and again when it failed.
   */
  method ConfigReadTwice(v: ViewLink, settings: JsVal) returns (first: Result<JsVal, ViewLinkError>, second: Result<JsVal, ViewLinkError>)
    requires v.Valid() && v.State() == Cache(Undefined, Undefined)
    modifies v
    ensures first.Success? ==> second == first && v.settingsCalls == old(v.settingsCalls) + 1
    ensures first.Failure? ==> second == first && v.settingsCalls == old(v.settingsCalls) + 2
  {
    first := v.Config(settings);
    second := v.Config(settings);
  }

  /** Reading a truthy host twice runs `_setHost` once. */
  method HostReadTwice(v: ViewLink, env: Env) returns (first: Result<JsVal, ViewLinkError>, second: Result<JsVal, ViewLinkError>)
    requires v.Valid() && v.State() == Cache(Undefined, Undefined)
    modifies v
    ensures first.Success? && Truthy(first.value) ==>
      second == first && v.setHostCalls == old(v.setHostCalls) + 1 && v.settingsCalls == old(v.settingsCalls) + 1
  {
    first := v.Host(env);
    second := v.Host(env);
  }

  // ---------------------------------------------------------------------------
  // Worked examples

  /** A configuration with four stages. */
  const SampleConfig := Obj([("hosts", Obj([
    ("local", Str("http://localhost:8080")),
    ("beta", Str("https://app.janisdev.in")),
    ("qa", Str("https://app.janisqa.in")),
    ("prod", Str("https://app.janis.in"))]))])

  /** Any text that starts with `http:` parses. */
  lemma HttpParses(s: string)
    requires |s| > 5 && s[..5] == "http:"
    ensures ParsesAsUrl(s)
  {
    assert s[0] == 'h' && s[1] == 't' && s[2] == 't' && s[3] == 'p' && s[4] == ':';
    assert SchemeRest(s, 4);
    assert SchemeRest(s, 3);
    assert SchemeRest(s, 2);
  }

  /** Once the host is resolved, each operation is its check-and-build on that host. */
  lemma OperationsAfterHost(c: Cache, env: Env, host: JsVal, service: JsVal, entity: JsVal, entityId: JsVal, entries: JsVal, params: JsVal)
    requires CacheValid(c)
    requires HostRead(c, env).result == Success(host)
    ensures BrowseStep(c, env, service, entity, params).result == Browse(host, service, entity, params)
    ensures EditStep(c, env, service, entity, entityId, params).result == Edit(host, service, entity, entityId, params)
    ensures GenericStep(c, env, entries, params).result == Generic(host, entries, params)
  {
  }

  /** The `local` stage of the sample configuration resolves to its host, asking the provider once. */
  lemma SampleHostAt(env: Env, host: string)
    requires env == Env(SampleConfig, Some("local")) && host == "http://localhost:8080"
    ensures HostRead(Cache(Undefined, Undefined), env) == Step(Cache(SampleConfig, Str(host)), Success(Str(host)), 1, 1)
  {
  }

  /** The texts of the sample browse links, and that they parse. */
  lemma SampleBrowseText(host: string, service: string, entity: string, link: string, linkWithQuery: string)
    requires host == "http://localhost:8080" && service == "some-service" && entity == "some-entity"
    requires link == "http://localhost:8080/some-service/some-entity/browse"
    requires linkWithQuery == "http://localhost:8080/some-service/some-entity/browse?foo=bar"
    ensures host + "/" + service + "/" + entity + "/browse" == link && ParsesAsUrl(link)
    ensures link + "?foo=bar" == linkWithQuery
  {
    HttpParses(host + "/" + service + "/" + entity + "/browse");
  }

  /** `getBrowse('some-service', 'some-entity')` on the `local` stage of the sample configuration, with and without `{foo: 'bar'}`. */
  lemma SampleBrowseLinksAt(env: Env, host: string, service: string, entity: string, link: string, linkWithQuery: string)
    requires env == Env(SampleConfig, Some("local")) && host == "http://localhost:8080"
    requires service == "some-service" && entity == "some-entity"
    requires link == "http://localhost:8080/some-service/some-entity/browse"
    requires linkWithQuery == "http://localhost:8080/some-service/some-entity/browse?foo=bar"
    ensures BrowseStep(Cache(Undefined, Undefined), env, Str(service), Str(entity), Undefined).result == Success(link)
    ensures BrowseStep(Cache(Undefined, Undefined), env, Str(service), Str(entity), Obj([("foo", Str("bar"))])).result
      == Success(linkWithQuery)
  {
    var empty := Cache(Undefined, Undefined);
    SampleHostAt(env, host);
    SampleBrowseText(host, service, entity, link, linkWithQuery);
    BrowseShape(host, service, entity, [("foo", Str("bar"))]);
    FooBarQuery(link);
    OperationsAfterHost(empty, env, Str(host), Str(service), Str(entity), Undefined, Undefined, Undefined);
    OperationsAfterHost(empty, env, Str(host), Str(service), Str(entity), Undefined, Undefined, Obj([("foo", Str("bar"))]));
  }

  /** The text of the sample edit link, and that it parses. */
  lemma SampleEditText(host: string, service: string, entity: string, entityId: string, link: string)
    requires host == "http://localhost:8080" && service == "some-service" && entity == "some-entity" && entityId == "some-id"
    requires link == "http://localhost:8080/some-service/some-entity/edit/some-id"
    ensures host + "/" + service + "/" + entity + "/edit/" + entityId == link && ParsesAsUrl(link)
  {
    HttpParses(host + "/" + service + "/" + entity + "/edit/" + entityId);
  }

  /** `getEdit('some-service', 'some-entity', 'some-id')` on the `local` stage of the sample configuration. */
  lemma SampleEditLinkAt(env: Env, host: string, service: string, entity: string, entityId: string, link: string)
    requires env == Env(SampleConfig, Some("local")) && host == "http://localhost:8080"
    requires service == "some-service" && entity == "some-entity" && entityId == "some-id"
    requires link == "http://localhost:8080/some-service/some-entity/edit/some-id"
    ensures EditStep(Cache(Undefined, Undefined), env, Str(service), Str(entity), Str(entityId), Undefined).result == Success(link)
  {
    SampleHostAt(env, host);
    SampleEditText(host, service, entity, entityId, link);
    EditShape(host, service, entity, entityId, []);
    OperationsAfterHost(Cache(Undefined, Undefined), env, Str(host), Str(service), Str(entity), Str(entityId), Undefined, Undefined);
  }

  /** Three string entries joined by the `reduce` of `get`. */
  lemma JoinThree(a: string, b: string, c: string)
    ensures JoinSegments(Strings([Str(a), Str(b), Str(c)])) == a + "/" + b + "/" + c
  {
    var segments := [a, b, c];
    assert Strings([Str(a), Str(b), Str(c)]) == segments;
    assert segments[1..] == [b, c] && segments[1..][1..] == [c];
    assert JoinSegments([c]) == c;
    assert JoinSegments([b, c]) == b + "/" + c;
    assert JoinSegments(segments) == a + "/" + (b + "/" + c);
  }

  /** The text of the sample generic link, and that it parses. */
  lemma SampleGenericText(host: string, a: string, b: string, c: string, link: string)
    requires host == "http://localhost:8080" && a == "some-service" && b == "some-entity" && c == "dashboard"
    requires link == "http://localhost:8080/some-service/some-entity/dashboard"
    ensures host + "/" + (a + "/" + b + "/" + c) == link && ParsesAsUrl(link)
  {
    HttpParses(host + "/" + (a + "/" + b + "/" + c));
  }

  /** `get(['some-service', 'some-entity', 'dashboard'], {foo: 'bar'})` on the `local` stage of the sample configuration. */
  lemma SampleGenericLinkAt(env: Env, host: string, a: string, b: string, c: string, link: string, linkWithQuery: string)
    requires env == Env(SampleConfig, Some("local")) && host == "http://localhost:8080"
    requires a == "some-service" && b == "some-entity" && c == "dashboard"
    requires link == "http://localhost:8080/some-service/some-entity/dashboard"
    requires linkWithQuery == "http://localhost:8080/some-service/some-entity/dashboard?foo=bar"
    ensures GenericStep(Cache(Undefined, Undefined), env, Arr([Str(a), Str(b), Str(c)]), Obj([("foo", Str("bar"))])).result
      == Success(linkWithQuery)
  {
    var items := [Str(a), Str(b), Str(c)];
    SampleHostAt(env, host);
    JoinThree(a, b, c);
    SampleGenericText(host, a, b, c, link);
    GenericShape(host, items, [("foo", Str("bar"))]);
    FooBarQuery(link);
    assert link + "?foo=bar" == linkWithQuery;
    OperationsAfterHost(Cache(Undefined, Undefined), env, Str(host), Undefined, Undefined, Undefined, Arr(items), Obj([("foo", Str("bar"))]));
  }

  /** The `local` stage of the sample configuration resolves to `http://localhost:8080`, asking the provider once. */
  lemma SampleHost()
    ensures HostRead(Cache(Undefined, Undefined), Env(SampleConfig, Some("local")))
      == Step(Cache(SampleConfig, Str("http://localhost:8080")), Success(Str("http://localhost:8080")), 1, 1)
  {
    SampleHostAt(Env(SampleConfig, Some("local")), "http://localhost:8080");
  }

  /** The browse links the tests expect, with and without `{foo: 'bar'}`. */
  lemma SampleBrowseLinks()
    ensures BrowseStep(Cache(Undefined, Undefined), Env(SampleConfig, Some("local")),
      Str("some-service"), Str("some-entity"), Undefined).result
      == Success("http://localhost:8080/some-service/some-entity/browse")
    ensures BrowseStep(Cache(Undefined, Undefined), Env(SampleConfig, Some("local")),
      Str("some-service"), Str("some-entity"), Obj([("foo", Str("bar"))])).result
      == Success("http://localhost:8080/some-service/some-entity/browse?foo=bar")
  {
    SampleBrowseLinksAt(Env(SampleConfig, Some("local")), "http://localhost:8080", "some-service", "some-entity",
      "http://localhost:8080/some-service/some-entity/browse",
      "http://localhost:8080/some-service/some-entity/browse?foo=bar");
  }

  /** The edit link the tests expect. */
  lemma SampleEditLink()
    ensures EditStep(Cache(Undefined, Undefined), Env(SampleConfig, Some("local")),
      Str("some-service"), Str("some-entity"), Str("some-id"), Undefined).result
      == Success("http://localhost:8080/some-service/some-entity/edit/some-id")
  {
    SampleEditLinkAt(Env(SampleConfig, Some("local")), "http://localhost:8080", "some-service", "some-entity", "some-id",
      "http://localhost:8080/some-service/some-entity/edit/some-id");
  }

  /** The generic link with a query that the tests expect. */
  lemma SampleGenericLink()
    ensures GenericStep(Cache(Undefined, Undefined), Env(SampleConfig, Some("local")),
      Arr([Str("some-service"), Str("some-entity"), Str("dashboard")]), Obj([("foo", Str("bar"))])).result
      == Success("http://localhost:8080/some-service/some-entity/dashboard?foo=bar")
  {
    SampleGenericLinkAt(Env(SampleConfig, Some("local")), "http://localhost:8080", "some-service", "some-entity", "dashboard",
      "http://localhost:8080/some-service/some-entity/dashboard",
      "http://localhost:8080/some-service/some-entity/dashboard?foo=bar");
  }

  /** From an empty cache: no settings, a number, and an object without `hosts`. */
  lemma SampleConfigErrors()
    ensures var empty := Cache(Undefined, Undefined);
      BrowseStep(empty, Env(Undefined, Some("local")), Str("s"), Str("e"), Undefined).result.error.code == ConfigNotFound &&
      EditStep(empty, Env(Num(1), Some("local")), Str("s"), Str("e"), Str("i"), Undefined).result.error.code == InvalidConfig &&
      GenericStep(empty, Env(Obj([]), Some("local")), Arr([Str("s")]), Undefined).result.error.code == InvalidHostsInConfig
  {
    ConfigErrorsReachCallers(Env(Undefined, Some("local")), Str("s"), Str("e"), Str("i"), Arr([Str("s")]), Undefined);
    ConfigErrorsReachCallers(Env(Num(1), Some("local")), Str("s"), Str("e"), Str("i"), Arr([Str("s")]), Undefined);
    ConfigErrorsReachCallers(Env(Obj([]), Some("local")), Str("s"), Str("e"), Str("i"), Arr([Str("s")]), Undefined);
  }

  /** From an empty cache: no stage, and a stage missing from `hosts`. */
  lemma SampleHostErrors()
    ensures var empty := Cache(Undefined, Undefined);
      BrowseStep(empty, Env(SampleConfig, None), Str("s"), Str("e"), Undefined).result.error.code == NoStageName &&
      EditStep(empty, Env(Obj([("hosts", Obj([("sarasa", Str(""))]))]), Some("local")), Str("s"), Str("e"), Str("i"), Undefined).result.error.code == HostNotFound
  {
  }

  /** With a valid host: entries that are not an array, and params that are an array. */
  lemma SampleArgumentErrors()
    ensures var empty := Cache(Undefined, Undefined);
      GenericStep(empty, Env(SampleConfig, Some("local")), Str("string"), Undefined).result.error.code == InvalidEntries &&
      BrowseStep(empty, Env(SampleConfig, Some("local")), Str("s"), Str("e"), Arr([Str("array")])).result.error.code == InvalidParams
  {
  }
}

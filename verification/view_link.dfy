/**
 * The view-link builder: a lazily loaded and memoised host configuration,
 * fail-fast validation of the configuration and of each operation's
 * arguments, and the composition of browse, edit and generic links.
 *
 * The settings provider (`Settings.get('view-link')`) and the stage
 * (`process.env.JANIS_ENV`) are the two fields of an `Env` handed to every
 * operation. Pure parts are functions; the cache is the class `ViewLink`,
 * whose methods follow the `...Step` functions over a `Cache` value.
 */
module ViewLinks {
  import opened Wrappers
  import opened JsValues
  import opened ViewLinkErrors
  import opened Urls

  // ---------------------------------------------------------------------------
  // Error messages

  const ConfigNotFoundMessage := "Invalid config: Not found."
  const InvalidConfigMessage := "Invalid config: Should be an object."
  const InvalidHostsMessage := "Invalid hosts in config: Should exist and must be an object."
  const InvalidServiceMessage := "Invalid service: Should be a string."
  const InvalidEntityMessage := "Invalid entity: Should be a string."
  const InvalidParamsMessage := "Invalid params: Should be an object."
  const InvalidEntityIdMessage := "Invalid entity ID: Should exist and must be a string."
  const InvalidEntriesMessage := "Invalid entries: Should be an array."
  const NoStageMessage := "Unknown stage name"

  function HostNotFoundMessage(stage: string): string
  {
    "Host not found for stage '" + stage + "'. Check config file."
  }

  /** The error thrown with a fixed text. */
  function Raise(text: string, code: Code): ViewLinkError
  {
    NewError(Text(text), code)
  }

  // ---------------------------------------------------------------------------
  // Validation

  /** A configuration the builder accepts: an object whose `hosts` is an object. */
  predicate ConfigAccepted(config: JsVal)
  {
    config.Obj? && Property(config, "hosts").Obj?
  }

  /** `_validateConfig`: presence, then object-ness, then `hosts`. */
  function ValidateConfig(config: JsVal): (r: Outcome<ViewLinkError>)
    ensures r.Pass? <==> ConfigAccepted(config)
    ensures r.Fail? ==> r.error.code in {ConfigNotFound, InvalidConfig, InvalidHostsInConfig}
  {
    if config.Null? || TypeOf(config) == "undefined" then
      Fail(Raise(ConfigNotFoundMessage, ConfigNotFound))
    else if TypeOf(config) != "object" || IsArray(config) then
      Fail(Raise(InvalidConfigMessage, InvalidConfig))
    else
      var hosts := Property(config, "hosts");
      if hosts.Null? || TypeOf(hosts) != "object" || IsArray(hosts) then
        Fail(Raise(InvalidHostsMessage, InvalidHostsInConfig))
      else
        Pass
  }

  /** The optional `params` check: undefined, or `typeof 'object'` and not an array. */
  function ParamsAllowed(params: JsVal): (ok: bool)
    ensures ok <==> params.Undefined? || params.Null? || params.Obj?
  {
    !(TypeOf(params) != "undefined" && (TypeOf(params) != "object" || IsArray(params)))
  }

  /** `_validateBasicParams`: service, then entity, then params. */
  function ValidateBasicParams(service: JsVal, entity: JsVal, params: JsVal): (r: Outcome<ViewLinkError>)
    ensures r.Pass? <==> service.Str? && entity.Str? && ParamsAllowed(params)
    ensures r.Fail? ==> r.error.code in {InvalidService, InvalidEntity, InvalidParams}
  {
    if TypeOf(service) != "string" then
      Fail(Raise(InvalidServiceMessage, InvalidService))
    else if TypeOf(entity) != "string" then
      Fail(Raise(InvalidEntityMessage, InvalidEntity))
    else if !ParamsAllowed(params) then
      Fail(Raise(InvalidParamsMessage, InvalidParams))
    else
      Pass
  }

  // ---------------------------------------------------------------------------
  // URL composition

  /** The failures the runtime raises inside the build: URL parsing, `reduce`, `Object.entries`. */
  datatype BuildFailure = InvalidUrl | EmptyReduce | NullToObject

  /** The message of each failure, in the wording of Node's `URL` class (`InvalidUrl`) and of V8 (the other two). */
  function FailureMessage(f: BuildFailure): string
  {
    match f
    case InvalidUrl => "Invalid URL"
    case EmptyReduce => "Reduce of empty array with no initial value"
    case NullToObject => "Cannot convert undefined or null to object"
  }

  /** The `catch` clause: any build failure is re-thrown as `URL_ERROR` with its message. */
  function UrlFailure(f: BuildFailure): ViewLinkError
  {
    NewError(Text(FailureMessage(f)), UrlError)
  }

  /** The query pairs appended for the entries of a params object, values converted to strings. */
  function QueryPairs(entries: seq<(string, JsVal)>): (pairs: seq<(string, string)>)
    ensures |pairs| == |entries|
    ensures forall i :: 0 <= i < |entries| ==> pairs[i] == (entries[i].0, Stringify(entries[i].1))
  {
    seq(|entries|, i requires 0 <= i < |entries| => (entries[i].0, Stringify(entries[i].1)))
  }

  /** What `_exportURL` returns for a URL with text `href` and search parameters `existing`. */
  function Export(href: string, existing: seq<(string, string)>, params: JsVal): Result<string, BuildFailure>
    requires ParamsAllowed(params)
  {
    match params
    case Null => Failure(NullToObject)
    case Obj(entries) => Success(Serialize(href, existing + QueryPairs(entries)))
    case Undefined => Success(Serialize(href, existing))
  }

  /** `_exportURL`: appends every entry of `params` to the URL, in order, then serialises it. */
  method ExportUrl(url: Url, params: JsVal) returns (r: Result<string, BuildFailure>)
    requires ParamsAllowed(params)
    modifies url
    ensures r == Export(url.href, old(url.searchParams), params)
    ensures url.searchParams ==
      if params.Obj? then old(url.searchParams) + QueryPairs(params.entries) else old(url.searchParams)
  {
    if params.Null? {
      return Failure(NullToObject);
    }
    if params.Obj? {
      var entries := params.entries;
      var i := 0;
      while i < |entries|
        invariant 0 <= i <= |entries|
        invariant url.searchParams == old(url.searchParams) + QueryPairs(entries[..i])
      {
        url.Append(entries[i].0, Stringify(entries[i].1));
        assert QueryPairs(entries[..i + 1]) == QueryPairs(entries[..i]) + [(entries[i].0, Stringify(entries[i].1))];
        i := i + 1;
      }
      assert entries[..i] == entries;
    }
    r := Success(url.ToString());
  }

  /**
   * The `try` block of every operation: parse the composed text (which may
   * itself have failed), export it with its query, and turn any failure
   * into `URL_ERROR`.
   */
  function Built(base: Result<string, BuildFailure>, params: JsVal): Result<string, ViewLinkError>
    requires ParamsAllowed(params)
  {
    match base
    case Failure(f) => Failure(UrlFailure(f))
    case Success(text) =>
      if !ParsesAsUrl(text) then Failure(UrlFailure(InvalidUrl))
      else
        match Export(text, [], params)
        case Failure(f) => Failure(UrlFailure(f))
        case Success(link) => Success(link)
  }

  method BuildLink(base: Result<string, BuildFailure>, params: JsVal) returns (r: Result<string, ViewLinkError>)
    requires ParamsAllowed(params)
    ensures r == Built(base, params)
  {
    if base.Failure? {
      return Failure(UrlFailure(base.error));
    }
    if !ParsesAsUrl(base.value) {
      return Failure(UrlFailure(InvalidUrl));
    }
    var url := new Url(base.value);
    var exported := ExportUrl(url, params);
    match exported
    case Failure(f) => r := Failure(UrlFailure(f));
    case Success(link) => r := Success(link);
  }

  /** `${host}/${service}/${entity}/browse`. */
  function BrowsePath(host: JsVal, service: string, entity: string): string
  {
    Stringify(host) + "/" + service + "/" + entity + "/browse"
  }

  /** `${host}/${service}/${entity}/edit/${entityId}`. */
  function EditPath(host: JsVal, service: string, entity: string, entityId: string): string
  {
    Stringify(host) + "/" + service + "/" + entity + "/edit/" + entityId
  }

  /** The callback of `entries.reduce` folded over the remaining entries. */
  function FoldPath(acc: string, rest: seq<JsVal>): string
    decreases |rest|
  {
    if rest == [] then acc else FoldPath(acc + "/" + Stringify(rest[0]), rest[1..])
  }

  /** `entries.reduce((res, next) => `${res}/${next}`)`, which has no initial value. */
  function ReducePath(items: seq<JsVal>): Result<string, BuildFailure>
  {
    if items == [] then Failure(EmptyReduce) else Success(FoldPath(Stringify(items[0]), items[1..]))
  }

  /** `${host}/${entries joined}`, evaluated left to right. */
  function GenericPath(host: JsVal, items: seq<JsVal>): Result<string, BuildFailure>
  {
    match ReducePath(items)
    case Failure(f) => Failure(f)
    case Success(joined) => Success(Stringify(host) + "/" + joined)
  }

  /** `getBrowse` once the host is known. */
  function Browse(host: JsVal, service: JsVal, entity: JsVal, params: JsVal): Result<string, ViewLinkError>
  {
    match ValidateBasicParams(service, entity, params)
    case Fail(e) => Failure(e)
    case Pass => Built(Success(BrowsePath(host, service.s, entity.s)), params)
  }

  /** `getEdit` once the host is known: the entity ID is checked after the basic parameters. */
  function Edit(host: JsVal, service: JsVal, entity: JsVal, entityId: JsVal, params: JsVal): Result<string, ViewLinkError>
  {
    match ValidateBasicParams(service, entity, params)
    case Fail(e) => Failure(e)
    case Pass =>
      if TypeOf(entityId) != "string" then Failure(Raise(InvalidEntityIdMessage, InvalidEntityId))
      else Built(Success(EditPath(host, service.s, entity.s, entityId.s)), params)
  }

  /** `get` once the host is known: entries, then params. */
  function Generic(host: JsVal, entries: JsVal, params: JsVal): Result<string, ViewLinkError>
  {
    if !IsArray(entries) then Failure(Raise(InvalidEntriesMessage, InvalidEntries))
    else if !ParamsAllowed(params) then Failure(Raise(InvalidParamsMessage, InvalidParams))
    else Built(GenericPath(host, entries.items), params)
  }

  // ---------------------------------------------------------------------------
  // The cache, as values

  /** The two static fields `_config` and `_host`; both start undefined. */
  datatype Cache = Cache(config: JsVal, host: JsVal)

  /** What the collaborators answer: the settings value and the stage, if the variable is set. */
  datatype Env = Env(settings: JsVal, stage: Option<string>)

  /**
   * One operation on the cache: the cache afterwards, the result, and how many
   * times it asked the settings provider and ran `_setHost`.
   */
  datatype Step<R> = Step(cache: Cache, result: R, settingsCalls: nat, setHostCalls: nat)

  /** A cached configuration is one that passed validation. */
  predicate CacheValid(c: Cache)
  {
    !Truthy(c.config) || ConfigAccepted(c.config)
  }

  /** `_setConfig`: ask the provider, validate, and only then store. */
  function LoadConfigStep(c: Cache, settings: JsVal): Step<Outcome<ViewLinkError>>
  {
    var checked := ValidateConfig(settings);
    Step(if checked.Pass? then c.(config := settings) else c, checked, 1, 0)
  }

  /** The `config` getter: load unless a truthy configuration is cached. */
  function ConfigRead(c: Cache, settings: JsVal): Step<Result<JsVal, ViewLinkError>>
  {
    if Truthy(c.config) then Step(c, Success(c.config), 0, 0)
    else
      var loaded := LoadConfigStep(c, settings);
      var r := if loaded.result.Fail? then Failure(loaded.result.error) else Success(loaded.cache.config);
      Step(loaded.cache, r, loaded.settingsCalls, loaded.setHostCalls)
  }

  /** `_setHost`: the stage first, then the configuration, then `hosts[stage]`. */
  function LoadHostStep(c: Cache, env: Env): Step<Outcome<ViewLinkError>>
  {
    if env.stage.None? then Step(c, Fail(Raise(NoStageMessage, NoStageName)), 0, 1)
    else
      var read := ConfigRead(c, env.settings);
      if read.result.Failure? then Step(read.cache, Fail(read.result.error), read.settingsCalls, 1)
      else
        var found := Property(Property(read.result.value, "hosts"), env.stage.value);
        if found.Undefined? then
          Step(read.cache, Fail(Raise(HostNotFoundMessage(env.stage.value), HostNotFound)), read.settingsCalls, 1)
        else
          Step(read.cache.(host := found), Pass, read.settingsCalls, 1)
  }

  /** The `host` getter: resolve unless a truthy host is cached. */
  function HostRead(c: Cache, env: Env): Step<Result<JsVal, ViewLinkError>>
  {
    if Truthy(c.host) then Step(c, Success(c.host), 0, 0)
    else
      var loaded := LoadHostStep(c, env);
      var r := if loaded.result.Fail? then Failure(loaded.result.error) else Success(loaded.cache.host);
      Step(loaded.cache, r, loaded.settingsCalls, loaded.setHostCalls)
  }

  /** An operation that first reads the host and then, if that succeeded, computes `r`. */
  function AfterHost(h: Step<Result<JsVal, ViewLinkError>>, r: Result<string, ViewLinkError>): Step<Result<string, ViewLinkError>>
  {
    Step(h.cache, if h.result.Failure? then Failure(h.result.error) else r, h.settingsCalls, h.setHostCalls)
  }

  /** `getBrowse(service, entity, params)` on a cache. */
  function BrowseStep(c: Cache, env: Env, service: JsVal, entity: JsVal, params: JsVal): Step<Result<string, ViewLinkError>>
  {
    var h := HostRead(c, env);
    AfterHost(h, if h.result.Success? then Browse(h.result.value, service, entity, params) else Failure(h.result.error))
  }

  /** `getEdit(service, entity, entityId, params)` on a cache. */
  function EditStep(c: Cache, env: Env, service: JsVal, entity: JsVal, entityId: JsVal, params: JsVal): Step<Result<string, ViewLinkError>>
  {
    var h := HostRead(c, env);
    AfterHost(h, if h.result.Success? then Edit(h.result.value, service, entity, entityId, params) else Failure(h.result.error))
  }

  /** `get(entries, params)` on a cache. */
  function GenericStep(c: Cache, env: Env, entries: JsVal, params: JsVal): Step<Result<string, ViewLinkError>>
  {
    var h := HostRead(c, env);
    AfterHost(h, if h.result.Success? then Generic(h.result.value, entries, params) else Failure(h.result.error))
  }

  // ---------------------------------------------------------------------------
  // The cache, in place

  /** The static state of the builder and its operations. */
  class ViewLink {
    /** `_config`. */
    var config: JsVal
    /** `_host`. */
    var host: JsVal
    /** How many times the settings provider was asked. */
    ghost var settingsCalls: nat
    /** How many times `_setHost` ran. */
    ghost var setHostCalls: nat

    function State(): Cache
      reads this
    {
      Cache(config, host)
    }

    ghost predicate Valid()
      reads this
    {
      CacheValid(State())
    }

    /** The method ended in the state, with the result and the calls that `s` describes. */
    twostate predicate Follows<R>(s: Step<R>, new r: R)
      reads this
    {
      State() == s.cache && r == s.result &&
      settingsCalls == old(settingsCalls) + s.settingsCalls &&
      setHostCalls == old(setHostCalls) + s.setHostCalls
    }

    /** The state of a process that has not used the builder yet. */
    constructor ()
      ensures State() == Cache(Undefined, Undefined) && Valid()
      ensures settingsCalls == 0 && setHostCalls == 0
    {
      config := Undefined;
      host := Undefined;
      settingsCalls := 0;
      setHostCalls := 0;
    }

    /** The `config` setter (also how a test clears the cache). */
    method SetConfig(c: JsVal)
      requires !Truthy(c) || ConfigAccepted(c)
      modifies this
      ensures State() == old(State()).(config := c) && Valid()
      ensures settingsCalls == old(settingsCalls) && setHostCalls == old(setHostCalls)
    {
      config := c;
    }

    /** The `host` setter. */
    method SetHost(h: JsVal)
      requires Valid()
      modifies this
      ensures State() == old(State()).(host := h) && Valid()
      ensures settingsCalls == old(settingsCalls) && setHostCalls == old(setHostCalls)
    {
      host := h;
    }

    /** `_setConfig`. */
    method LoadConfig(settings: JsVal) returns (r: Outcome<ViewLinkError>)
      requires Valid()
      modifies this
      ensures Valid() && Follows(LoadConfigStep(old(State()), settings), r)
    {
      settingsCalls := settingsCalls + 1;
      r := ValidateConfig(settings);
      if r.Pass? {
        SetConfig(settings);
      }
    }

    /** The `config` getter. */
    method Config(settings: JsVal) returns (r: Result<JsVal, ViewLinkError>)
      requires Valid()
      modifies this
      ensures Valid() && Follows(ConfigRead(old(State()), settings), r)
      ensures r.Success? ==> ConfigAccepted(r.value)
    {
      if !Truthy(config) {
        var loaded := LoadConfig(settings);
        if loaded.Fail? {
          return Failure(loaded.error);
        }
      }
      r := Success(config);
    }

    /** `_setHost`. */
    method LoadHost(env: Env) returns (r: Outcome<ViewLinkError>)
      requires Valid()
      modifies this
      ensures Valid() && Follows(LoadHostStep(old(State()), env), r)
    {
      setHostCalls := setHostCalls + 1;
      if env.stage.None? {
        return Fail(Raise(NoStageMessage, NoStageName));
      }
      var read := Config(env.settings);
      if read.Failure? {
        return Fail(read.error);
      }
      var found := Property(Property(read.value, "hosts"), env.stage.value);
      if found.Undefined? {
        return Fail(Raise(HostNotFoundMessage(env.stage.value), HostNotFound));
      }
      SetHost(found);
      r := Pass;
    }

    /** The `host` getter. */
    method Host(env: Env) returns (r: Result<JsVal, ViewLinkError>)
      requires Valid()
      modifies this
      ensures Valid() && Follows(HostRead(old(State()), env), r)
    {
      if !Truthy(host) {
        var loaded := LoadHost(env);
        if loaded.Fail? {
          return Failure(loaded.error);
        }
      }
      r := Success(host);
    }

    /** `getBrowse`. */
    method GetBrowse(env: Env, service: JsVal, entity: JsVal, params: JsVal) returns (r: Result<string, ViewLinkError>)
      requires Valid()
      modifies this
      ensures Valid() && Follows(BrowseStep(old(State()), env, service, entity, params), r)
    {
      var h := Host(env);
      if h.Failure? {
        return Failure(h.error);
      }
      var checked := ValidateBasicParams(service, entity, params);
      if checked.Fail? {
        return Failure(checked.error);
      }
      r := BuildLink(Success(BrowsePath(h.value, service.s, entity.s)), params);
    }

    /** `getEdit`. */
    method GetEdit(env: Env, service: JsVal, entity: JsVal, entityId: JsVal, params: JsVal) returns (r: Result<string, ViewLinkError>)
      requires Valid()
      modifies this
      ensures Valid() && Follows(EditStep(old(State()), env, service, entity, entityId, params), r)
    {
      var h := Host(env);
      if h.Failure? {
        return Failure(h.error);
      }
      var checked := ValidateBasicParams(service, entity, params);
      if checked.Fail? {
        return Failure(checked.error);
      }
      if TypeOf(entityId) != "string" {
        return Failure(Raise(InvalidEntityIdMessage, InvalidEntityId));
      }
      r := BuildLink(Success(EditPath(h.value, service.s, entity.s, entityId.s)), params);
    }

    /** `get`. */
    method Get(env: Env, entries: JsVal, params: JsVal) returns (r: Result<string, ViewLinkError>)
      requires Valid()
      modifies this
      ensures Valid() && Follows(GenericStep(old(State()), env, entries, params), r)
    {
      var h := Host(env);
      if h.Failure? {
        return Failure(h.error);
      }
      if !IsArray(entries) {
        return Failure(Raise(InvalidEntriesMessage, InvalidEntries));
      }
      if !ParamsAllowed(params) {
        return Failure(Raise(InvalidParamsMessage, InvalidParams));
      }
      r := BuildLink(GenericPath(h.value, entries.items), params);
    }
  }
}

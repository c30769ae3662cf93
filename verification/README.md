# View links, modelled in Dafny

This project models `ViewLink`, the static utility of janis-commerce/view-link
that builds absolute "view links" from a per-stage host table, and its error
type `ViewLinkError`.

- **Cache.** `ViewLink` lazily loads the `view-link` settings and validates
  them before storing them. It then resolves the host of the current stage
  and memoises both. A failed configuration load stores nothing. A failed
  host resolution stores no host, though a configuration loaded on the way
  stays cached. The next call retries what failed.
- **Operations.** `getBrowse`, `getEdit` and `get` first resolve the host.
  Then they check their own arguments in a fixed order. Then they compose
  `host/service/entity/browse`, `host/service/entity/edit/entityId`, or
  `host/` plus the entries joined with `/`. The entries of `params` are
  appended as query pairs, in order.
- **Errors.** Every failure is a `ViewLinkError` carrying one of eleven
  numeric codes. Any failure inside the build is re-thrown as `URL_ERROR`.

Files:

- `wrappers.dfy`: `Option`, `Result` and `Outcome`, standing for a return or a throw.
- `js_values.dfy`: `JsVal`, the JavaScript values the checks inspect, with `typeof`, truthiness, own-property reads and string conversion.
- `view_link_error.dfy`: the `codes` table and the error record (lib/view-link-error.js).
- `urls.dfy`: a stand-in for the WHATWG `URL` class. It holds the parse predicate, a `Url` class whose `searchParams` are appended to in place, and the serialisation.
- `view_link.dfy`: lib/view-link.js.
  - The validators and the composer are functions.
  - `_exportURL` is a method whose loop appends to a `Url`.
  - Each operation on the cache is a `...Step` function over a `Cache` value.
  - The class `ViewLink` holds the two static fields. Its methods are proved to follow those functions.
- `view_link_properties.dfy`: lemmas for check order, memoisation, link shapes, query order and build failures. It also has worked examples taken from the repository's tests.

The settings provider (`Settings.get('view-link')`) and the stage
(`process.env.JANIS_ENV`) are the fields of an `Env` value passed to each
operation. Ghost counters on `ViewLink` record how often the provider was
asked and how often `_setHost` ran.

Behaviours of the code that the model keeps:

- The host cache test is `!this._host`. So a falsy host, such as an empty
  string, is resolved again on every read (`FalsyHostResolvedAgain`).
- `get` with an empty `entries` fails with `URL_ERROR`, because `reduce` has
  no initial value (`EmptyEntriesIsUrlError`).
- `params === null` passes validation and then fails the build with
  `URL_ERROR` (`NullParamsIsUrlError`).
- `get` also raises `NO_STAGE_NAME` without a stage, like the other two
  operations (`HostErrorsWin`).

## Model

| member | source | states |
|---|---|---|
| `ViewLinkErrors.Value` | lib/view-link-error.js:5-19 | every code has a number between 1 and 11 |
| `ViewLinkErrors.FromValue` | lib/view-link-error.js:7-19 | a number names a code exactly when it is between 1 and 11, and that code has that number |
| `ViewLinkErrors.ValueRoundTrip` | lib/view-link-error.js:7-19 | a code is recovered from its number |
| `ViewLinkErrors.ValuesDistinct` | lib/view-link-error.js:7-19 | two codes have the same number if and only if they are the same code |
| `ViewLinkErrors.CodesTable` | lib/view-link-error.js:5-19 | the table lists every code under its name with its number |
| `ViewLinkErrors.NewError` | lib/view-link-error.js:23-28 | the error stores the given code unchanged, its name is always `ViewLinkError`, and its message is the argument's truthy `message` or else the argument itself |
| `JsValues.Lookup` | lib/view-link.js:63 | a key that is present yields the value of its first entry; a defined result is an entry under that key; a key with no entry gives undefined |
| `JsValues.Property` | lib/view-link.js:87 | reading a key of an object yields the value of its first entry under that key; a defined result comes from an own entry; a non-object yields undefined |
| `JsValues.Decimal` | lib/view-link.js:123 | the decimal digits of a number: only digits, no leading zero, and their value is the number |
| `JsValues.Stringify` | lib/view-link.js:211-213 | the template-literal conversion: a string is itself, a number is its decimal digits with `-` when negative, an empty array is empty, an object is `[object Object]` |
| `Urls.SchemeRestMeans` | lib/view-link.js:149 | the URL parse stand-in accepts exactly a run of scheme characters ended by a colon |
| `Urls.Url.constructor` | lib/view-link.js:149 | a parsed URL keeps its input and starts with no search parameters |
| `Urls.Url.Append` | lib/view-link.js:123 | `searchParams.append` adds the pair at the end and replaces nothing |
| `Urls.QueryStringAppend` | lib/view-link.js:122-124 | an appended pair is serialised after all earlier pairs, separated by `&` |
| `Urls.SerializeAppend` | lib/view-link.js:119-127 | appending a pair extends the serialised URL with `?` or `&` and the pair; earlier pairs with the same key stay |
| `ViewLinks.ValidateConfig` | lib/view-link.js:76-89 | passes exactly for an object whose `hosts` is an object; otherwise fails with one of the three configuration codes |
| `ViewLinks.ParamsAllowed` | lib/view-link.js:109 | params pass exactly when they are undefined, null or a non-array object |
| `ViewLinks.ValidateBasicParams` | lib/view-link.js:98-111 | passes exactly when service and entity are strings and params are allowed; otherwise fails with a service, entity or params code |
| `ViewLinks.ExportUrl` | lib/view-link.js:119-128 | throws on null params without appending; otherwise appends one pair per params entry, in order, and returns the serialised URL |
| `ViewLinks.BuildLink` | lib/view-link.js:147-155 | the build either returns the serialised link or throws `URL_ERROR` with the message of the underlying failure |
| `ViewLinks.ViewLink.constructor` | lib/view-link.js:11-39 | a fresh process has neither configuration nor host cached and has made no calls |
| `ViewLinks.ViewLink.SetConfig` | lib/view-link.js:25-27 | the setter replaces the cached configuration and nothing else |
| `ViewLinks.ViewLink.SetHost` | lib/view-link.js:37-39 | the setter replaces the cached host and nothing else |
| `ViewLinks.ViewLink.LoadConfig` | lib/view-link.js:45-52 | asks the provider once, validates, and stores the value only when it is valid |
| `ViewLinks.ViewLink.Config` | lib/view-link.js:17-23 | loads only when no truthy configuration is cached; a returned configuration is always a valid one |
| `ViewLinks.ViewLink.LoadHost` | lib/view-link.js:58-69 | checks the stage, then reads the configuration, then looks up `hosts[stage]`; stores the host only when it is defined |
| `ViewLinks.ViewLink.Host` | lib/view-link.js:29-35 | runs `_setHost` only when no truthy host is cached |
| `ViewLinks.ViewLink.GetBrowse` | lib/view-link.js:141-156 | resolves the host, validates the arguments, then builds the browse link, following `BrowseStep` |
| `ViewLinks.ViewLink.GetEdit` | lib/view-link.js:170-188 | like getBrowse, and checks the entity ID last, following `EditStep` |
| `ViewLinks.ViewLink.Get` | lib/view-link.js:199-220 | resolves the host, checks entries and then params, then builds the link, following `GenericStep` |
| `ViewLinkProperties.ConfigCheckOrder` | lib/view-link.js:76-89 | null or undefined gives CONFIG_NOT_FOUND; other non-objects and arrays give INVALID_CONFIG; an object whose `hosts` is not an object gives INVALID_HOSTS_IN_CONFIG; anything else passes |
| `ViewLinkProperties.ConfigFailureStoresNothing` | lib/view-link.js:45-52 | a failed load leaves the cache as it was, after one provider call |
| `ViewLinkProperties.ConfigMemoised` | lib/view-link.js:17-23 | after a successful read, the next read returns the same configuration without calling the provider, whatever it would answer |
| `ViewLinkProperties.ConfigLoadsOnlyWhenEmpty` | lib/view-link.js:17-23 | the provider is called once when nothing truthy is cached, and otherwise not at all |
| `ViewLinkProperties.NoStageBeforeConfig` | lib/view-link.js:58-61 | without a stage, resolution fails with NO_STAGE_NAME before the configuration is read |
| `ViewLinkProperties.ConfigErrorsReachHost` | lib/view-link.js:58-63 | a configuration error is what host resolution throws, and the cache is unchanged |
| `ViewLinkProperties.HostLookup` | lib/view-link.js:63-68 | the result is HOST_NOT_FOUND exactly when `hosts[stage]` is undefined; otherwise it is that value, now cached |
| `ViewLinkProperties.HostMemoised` | lib/view-link.js:29-35 | a truthy host, once resolved, is returned again without `_setHost` or the provider |
| `ViewLinkProperties.FalsyHostResolvedAgain` | lib/view-link.js:31-32 | a resolved host that is falsy is not treated as cached, so the next read runs `_setHost` again |
| `ViewLinkProperties.HostFailureRetries` | lib/view-link.js:29-35 | a failed host read leaves the cached host as it was, so the next read runs `_setHost` again |
| `ViewLinkProperties.HostErrorsWin` | lib/view-link.js:141-145 | configuration, stage and host errors are what all three operations throw, whatever their arguments |
| `ViewLinkProperties.OperationsOnlyResolveHost` | lib/view-link.js:141-156 | the cache and the calls made by any operation are those of its host read |
| `ViewLinkProperties.ConfigErrorsReachCallers` | tests/view-link-test.js:76-150 | on an empty cache with a stage, each configuration error surfaces from every operation |
| `ViewLinkProperties.OperationsAfterHost` | lib/view-link.js:141-151 | once the host is resolved, each operation is its check-and-build on that host |
| `ViewLinkProperties.BrowseChecksInOrder` | lib/view-link.js:98-111 | service is checked before entity, and entity before params; with all three valid, the only possible error is URL_ERROR |
| `ViewLinkProperties.EditChecksInOrder` | lib/view-link.js:170-181 | the basic checks come first, then the entity ID; with all valid, the only possible error is URL_ERROR |
| `ViewLinkProperties.GenericChecksInOrder` | lib/view-link.js:199-213 | entries must be an array, checked before params; with both valid, the only possible error is URL_ERROR |
| `ViewLinkProperties.FoldPathJoins` | lib/view-link.js:211-213 | folding the `reduce` callback from the left equals joining all segments with `/` |
| `ViewLinkProperties.ReducePathJoins` | lib/view-link.js:211-213 | `reduce` fails on no entries, gives a single entry as itself, and otherwise joins the entries with `/` |
| `ViewLinkProperties.NoParamsNoQuery` | lib/view-link.js:119-128 | with undefined or empty params the link is exactly the base path, with no `?` |
| `ViewLinkProperties.BrowseShape` | lib/view-link.js:149 | getBrowse returns `host/service/entity/browse` followed by the query of its params |
| `ViewLinkProperties.EditShape` | lib/view-link.js:181 | getEdit returns `host/service/entity/edit/entityId` followed by the query of its params |
| `ViewLinkProperties.GenericShape` | lib/view-link.js:211-215 | get returns `host/` and the entries joined with `/`, followed by the query of its params |
| `ViewLinkProperties.FooBarQuery` | tests/view-link-test.js:372-378 | the params `{foo: 'bar'}` append `?foo=bar` to the base path |
| `ViewLinkProperties.QueryInInsertionOrder` | lib/view-link.js:121-124 | a further params entry adds one pair at the end of the query; a repeated key (which a JavaScript object cannot hold) shows that `append` never replaces an earlier pair |
| `ViewLinkProperties.NoSchemeBeforeSlash` | lib/view-link.js:149 | a text whose first `/` comes before any colon does not parse as a URL |
| `ViewLinkProperties.BadHostIsUrlError` | lib/view-link.js:147-155 | a host with no colon, and so no scheme, makes every operation with valid arguments throw URL_ERROR |
| `ViewLinkProperties.BadUrlHasNoScheme` | tests/view-link-test.js:305-310 | `bad-url` has no colon, so it is such a host |
| `ViewLinkProperties.EmptyEntriesIsUrlError` | lib/view-link.js:209-218 | get with an empty entries array throws URL_ERROR, whatever the host |
| `ViewLinkProperties.NullParamsIsUrlError` | lib/view-link.js:121-122 | null params pass validation in getBrowse, getEdit and get, and then make each build throw URL_ERROR |
| `ViewLinkProperties.ConfigReadTwice` | tests/view-link-test.js:51-60 | two reads from an empty cache call the provider once if the first succeeds and twice if it fails, returning the same result both times |
| `ViewLinkProperties.HostReadTwice` | tests/view-link-test.js:62-72 | two host reads from an empty cache run `_setHost` once and ask the provider once when the first yields a truthy host, and return the same host |
| `ViewLinkProperties.SampleHost` | tests/view-link-test.js:10-17 | the `local` stage of the test configuration resolves to `http://localhost:8080` after one provider call |
| `ViewLinkProperties.SampleBrowseLinks` | tests/view-link-test.js:362-380 | the exact browse links of the tests, with and without `{foo: 'bar'}` |
| `ViewLinkProperties.SampleEditLink` | tests/view-link-test.js:391-399 | the exact edit link of the tests |
| `ViewLinkProperties.SampleGenericLink` | tests/view-link-test.js:430-438 | the exact generic link with a query from the tests |
| `ViewLinkProperties.SampleConfigErrors` | tests/view-link-test.js:78-148 | missing settings, a number, and an object without `hosts` give the codes the tests expect |
| `ViewLinkProperties.SampleHostErrors` | tests/view-link-test.js:152-185 | a missing stage and a stage absent from `hosts` give NO_STAGE_NAME and HOST_NOT_FOUND |
| `ViewLinkProperties.SampleArgumentErrors` | tests/view-link-test.js:271-297 | non-array entries and array params give INVALID_ENTRIES and INVALID_PARAMS |

## Left out

- WHATWG URL parsing and serialisation, a foreign library. Parsing is reduced to "starts with a scheme and a colon". Serialisation is the identity on the composed text, plus `?k=v&...` for appended pairs.
  - Not modelled, among the other normalisations of the URL Standard: percent-encoding of query pairs (application/x-www-form-urlencoded serialising), host lowercasing, dot-segment removal, dropping a scheme's default port (`http://x:80/a` serialises as `http://x/a`), and host validation of special schemes.
  - Not modelled: a `?` or `#` that a segment brings into the composed text.
- `Settings.get('view-link')` and the loading of `.janiscommercerc.json` are I/O. They are replaced by the `settings` field of `Env`, plus a call counter.
- `process.env.JANIS_ENV` is environment access. It is replaced by the `stage` field of `Env`; the `stage` getter itself has no member.
- JavaScript values outside `JsVal`: non-integer numbers, `NaN`, `Infinity`, symbols and functions. Property reads see own entries of objects only: no prototype chain (e.g. a stage named `constructor`), no string characters, array elements or `length`.
- JsValues.Stringify: prints every integer in plain decimal. JavaScript switches to exponent notation from 10^21 on (`1e+21`), and cannot hold integers beyond 2^53 exactly; `Num` admits both, and the model does not round them.
- `Object.entries` order is taken as the order of the entries in `Obj`. JavaScript moves integer-like keys to the front, and an object cannot have two entries with one key; neither is modelled.
- `ViewLinks.ViewLink.SetConfig`: accepts only a falsy value or a valid configuration, and the cache lemmas assume such a cache (`CacheValid`). A truthy invalid value stored through the setter reaches `this.config.hosts[this.stage]` (lib/view-link.js:63) with something other than an object of hosts: depending on the value that throws a `TypeError` (a string or number configuration), finds nothing (`hosts: 'abc'` gives HOST_NOT_FOUND) or reads an array element (`hosts: ['h']` with stage `0`); the model's property read represents none of these.
- `Urls.Url.constructor`: requires an input that parses. The throwing branch of `new URL` is modelled by the caller's check in `BuildLink`.
- `ViewLinks.ExportUrl`: requires params that passed validation (undefined, null or an object), as its only callers guarantee.
- The messages of runtime failures are taken in one runtime's wording: `Invalid URL` as Node's `URL` class words it (older Node versions say `Invalid URL: <input>`), and the `reduce` and `Object.entries` type errors as V8 words them.
- `Error` inheritance and stack traces of `ViewLinkError`. Also a thrown value whose `message` is not a string.
- Concurrency around the cache: the code is single-threaded and synchronous.
- tests/view-link-test.js is Mocha and sinon plumbing. It is used only as the source of the worked examples.

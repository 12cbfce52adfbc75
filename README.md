# blip-services: the Blip service core in Dafny

This project models the client-side Blip service, `src/blipService`. The
service keeps one connection to the Blip messaging gateway per page and
sends LIME commands through it. The model covers four parts:

- **Tenant hostname resolution** (`UrlTenantHandler`, pure). It turns a URL
  into the tenant-qualified `protocol//host/` form. The tenant is an
  explicit id or the first label of the page's hostname. A URL that does not
  parse degrades to a plain string instead of throwing.
- **Metadata injection** (`MetadataInjector`, in place). A command's metadata
  object is created if missing. Store methods (`set`, `delete`, `merge`) get
  the `server.shouldStore` hint. Every command is attributed to the user
  under `blip_portal.email`.
- **The connection builder** (`ClientBuilder`, imperative). This is a retry
  by recursion, with exponential backoff, around the transport's connect. A
  counter with a ceiling of 6 is shared by every connect. The delay is
  `100 * 2^count` ms. A successful dial is followed by a second dial to the
  tenant's hostname when the configuration has a truthy `tenant` and the
  Blip domain URL does not contain the page origin.
  - The source writes the retry as a recursion through timer callbacks. The
    mutually recursive functions `Backoff` (the ceiling check and one
    attempt) and `Settle` (the `try`/`catch` around it) are the
    specification. The method `ConnectWithExponentialBackoff` recurses the
    same way, updates the counter field in place, and is proved equal to them.
- **The service** (`Service`, a class). It holds:
  - the configuration, with the application name defaulted;
  - a capacity-1 connect lock;
  - the current client;
  - the readiness signal;
  - command dispatch with id defaulting and a 10 s default timeout.

## How the environment is modelled

The transport is an oracle, `network: nat -> bool`. `network(i)` says
whether the i-th `connect()` call of a connect session succeeds. A session
records what the transport saw as events:
- `Build` of a client;
- `Dial`, with its result;
- `Close`, saying whether the close hook was detached;
- `Sleep`, with the delay of the timer.

The WHATWG URL parser is a parameter, `string -> Option<ParsedUrl>`, which is
None where `new URL` throws. The browser's `location` is a parameter too. A
promise's settlement is a value: `Fulfilled`, `Failed(reason)` or `Pending`.

## Behaviour as written

The model follows the code in three places where a reader might expect
something else:
- **A retry that reaches the ceiling never settles.** A connect that
  *starts* with the counter at 6 rejects with the "Max connection try count"
  error.
  - A retry that reaches 6 throws inside its `setTimeout` callback. Nothing
    passes that error to the outer promise, so the connect never settles.
  - In `BlipService.connect` the `finally` that releases the lock is then
    never reached. Every later connect waits forever.
  - `Outcome.NeverSettles` and the `Pending` settlement carry this case.
- **The copy `processCommand` sends shares the caller's metadata object.**
  The spread copy is shallow. When the caller's command has a metadata
  object, the injection mutates the caller's object as well.
  - `ProcessCommand` states this: the request's metadata *is*
    `command.metadata` when there was one.
- **A client given through `withClient` never makes the service ready.**
  `withClient` stores the client but does not resolve readiness. A later
  `connect` finds the client and returns before the line that resolves it,
  so `waitForInitialization` stays pending.
  - `ExternalClientNeverReady` states this.

## Model

| member | source | states |
|---|---|---|
| Strings.FirstLabel | src/blipService/UrlTenantHandler.ts:23 | `split('.')[0]`: a prefix of the string with no separator, followed by the separator or the end of the string |
| Strings.Includes | src/blipService/UrlTenantHandler.ts:43 | `String.prototype.includes`: some index of `s` starts an occurrence of `part`; the empty part is included everywhere |
| UrlTenantHandler.GetTenantPrefixFromUrl | src/blipService/UrlTenantHandler.ts:42-46 | no tenant exactly when the Blip domain URL contains the page origin; otherwise the tenant is the first dot-separated label of the page hostname |
| UrlTenantHandler.EffectiveTenant | src/blipService/UrlTenantHandler.ts:18 | the `??`: an explicit tenant id, even "", wins; only a missing one falls back to the tenant derived from the location |
| UrlTenantHandler.AddTenantPrefixToUrl | src/blipService/UrlTenantHandler.ts:12-35 | four cases. (1) A truthy tenant (explicit, else derived from the location) and a parseable URL give `protocol//host/` with the tenant put in front of the host (its first label when the tenant has no dot). (2) A truthy tenant and an unparseable URL give `tenant.url`. (3) With no tenant, the default URL (falling back to the URL) is normalised or returned verbatim. (4) Every parsed result ends with '/' |
| UrlTenantHandler.QualifiedHostIsTenantQualified | src/blipService/UrlTenantHandler.ts:23-26 | for a tenant without a dot, the qualified host's first label is the tenant and it ends with the original host; it equals the original host exactly when the host already started with the tenant |
| UrlTenantHandler.AddTenantPrefixIdempotent | src/blipService/UrlTenantHandler.ts:21-27 | given a URL parser that reads back the `protocol//host/` it produced as the same protocol and host, resolving a resolved URL again with the same dot-free tenant returns it unchanged |
| UrlTenantHandler.DottedTenantAlwaysPrefixes | src/blipService/UrlTenantHandler.ts:23-24 | a tenant with a dot never equals a first label, so it is put in front of every host |
| UrlTenantHandler.DottedTenantIsPrefixedAgain | src/blipService/UrlTenantHandler.ts:21-24 | an example: the explicit tenant `a.b` turns `https://c` into `https://a.b.c/`, and that into `https://a.b.a.b.c/` |
| UrlTenantHandler.DottedTenantFirstPass | src/blipService/UrlTenantHandler.ts:21-24 | the dotted tenant `a.b` qualifies `https://c` to `https://a.b.c/` |
| UrlTenantHandler.DottedTenantSecondPass | src/blipService/UrlTenantHandler.ts:21-24 | the first label of `a.b.c` is `a`, not `a.b`, so it is qualified again to `https://a.b.a.b.c/` |
| UrlTenantHandler.ExplicitTenantIgnoresLocation | src/blipService/UrlTenantHandler.ts:18-21 | an explicit tenant, even "", makes the page location irrelevant; an empty one takes the no-tenant branch |
| UrlTenantHandler.TenantPrefixFromTenantLocation | src/blipService/UrlTenantHandler.ts:42-46 | a page on `my-tenant.portal.blip.ai` with the Blip domain `https://portal.blip.ai` yields tenant `my-tenant` |
| UrlTenantHandler.TenantPrefixAdded | src/blipService/UrlTenantHandler.ts:18-24 | an explicit tenant turns `https://portal.blip.ai` into `https://my-tenant.portal.blip.ai/` |
| UrlTenantHandler.TenantPrefixNotRepeated | src/blipService/UrlTenantHandler.ts:18-26 | a URL already on the derived tenant's host is only given its trailing slash |
| UrlTenantHandler.UnparseableUrlWithTenant | src/blipService/UrlTenantHandler.ts:32-33 | an unparseable URL with a tenant degrades to `my-tenant.portal.blip.ai`, without scheme or slash |
| UrlTenantHandler.BlipDomainHasNoTenant | src/blipService/UrlTenantHandler.ts:18-31 | with the page origin inside the Blip domain URL and no explicit tenant, the default URL (else the URL) is normalised, or returned verbatim when it does not parse |
| UrlTenantHandler.NoTenantOnBlipDomain | src/blipService/UrlTenantHandler.ts:28-30 | on the Blip domain itself there is no tenant and the URL is only normalised |
| UrlTenantHandler.UnparseableDefaultUrl | src/blipService/UrlTenantHandler.ts:19-33 | with no tenant, an unparseable default URL is returned verbatim |
| MetadataInjector.Injected | src/blipService/MetadataInjector.ts:7-33 | after injection the email key holds the authentication; store methods carry `server.shouldStore = "true"`; the keys are exactly the old keys plus those two (the hint only for store methods); every other entry is unchanged |
| MetadataInjector.IsStoreMethod | src/blipService/MetadataInjector.ts:18-20 | the store methods are exactly `set`, `delete` and `merge` |
| MetadataInjector.NoStoreHintForOtherMethods | src/blipService/MetadataInjector.ts:17-25 | a command that is not set, delete or merge has the store hint afterwards exactly when it had it before |
| MetadataInjector.InjectedIdempotent | src/blipService/MetadataInjector.ts:7-11 | injecting twice with the same authentication equals injecting once |
| MetadataInjector.InjectMetadata | src/blipService/MetadataInjector.ts:7-11 | the command ends with a metadata object: the one it had, extended in place, or a fresh one; its entries are the injected form of the old entries |
| MetadataInjector.InjectSaveCommandMetadata | src/blipService/MetadataInjector.ts:17-25 | the store hint is set exactly for set, delete and merge; nothing else changes |
| MetadataInjector.InjectAuthenticationMetadata | src/blipService/MetadataInjector.ts:31-33 | the email key is set to the authentication, overwriting an earlier one; nothing else changes |
| ServiceConfiguration.WithDefaults | src/blipService/index.ts:31-35 | the stored configuration always has an application name; a given one (even "") is kept with everything else unchanged; an absent one becomes "portal" and nothing else changes |
| ClientBuilder.MaxTryCountMessage | src/blipService/BlipClientBuilder.ts:49-51 | the ceiling error is tagged `Connect user error: ` and then names the user and the ceiling |
| ClientBuilder.RetryDelay | src/blipService/BlipClientBuilder.ts:87 | the retry delay, `100 * 2^count` ms |
| ClientBuilder.RetryDelayDoubles | src/blipService/BlipClientBuilder.ts:87 | the first delay is 100 ms and each further try doubles it |
| ClientBuilder.BuildBlipClient | src/blipService/BlipClientBuilder.ts:137-156 | a client on the given hostname with the configured port, scheme and application name, the fixed domain, issuer and `identity` routing rule, and no consumed notifications |
| ClientBuilder.NeedsTenantRedial | src/blipService/BlipClientBuilder.ts:66-69 | the re-dial happens exactly when the configured `tenant` is truthy and the Blip domain URL does not contain the page origin |
| ClientBuilder.CreateClientWithTenantHostname | src/blipService/BlipClientBuilder.ts:110-127 | a client built like the primary one, on the hostname the tenant template resolves to for the page location, with the plain hostname as fallback |
| ClientBuilder.TryConnect | src/blipService/BlipClientBuilder.ts:57-77 | one attempt: build and dial the primary client; after a successful dial that needs a re-dial, close it and build and dial the tenant client; the attempt's result is the last dial's |
| ClientBuilder.Teardown | src/blipService/BlipClientBuilder.ts:81-98 | the failure path: close the failed client with its close hook detached, then wait `100 * 2^count` ms |
| ClientBuilder.Backoff | src/blipService/BlipClientBuilder.ts:41-101 | the retry session: at the ceiling it rejects (first call) or never settles (inside a timer); below it the counter is incremented and one attempt made |
| ClientBuilder.Settle | src/blipService/BlipClientBuilder.ts:55-98 | the `try`/`catch` around one attempt: success resets the counter and returns the client; failure tears down and retries |
| ClientBuilder.MaxTryCountMessageNames | src/blipService/BlipClientBuilder.ts:48-53 | the ceiling error names the identifier and the ceiling 6 |
| ClientBuilder.BuiltClientIgnoresDomainAndIssuer | src/blipService/BlipClientBuilder.ts:137-156 | a built client has domain `blip.ai` and issuer `account.blip.ai` whatever the configured domain and issuer are |
| ClientBuilder.TenantRedialHostname | src/blipService/BlipClientBuilder.ts:110-127 | when a re-dial happens, the tenant client's hostname is the tenant template qualified with the first label of the page hostname; the plain hostname is the fallback |
| ClientBuilder.TryConnectTrace | src/blipService/BlipClientBuilder.ts:57-77 | one attempt never waits; it leaves exactly one client open, closing the first before building the tenant client; it ends with the dial of the client it returns (the tenant client after a successful first dial that needs a re-dial) |
| ClientBuilder.BackoffSettles | src/blipService/BlipClientBuilder.ts:41-101 | the counter never exceeds 6; success resets it to 0; only a connect that starts at 6 rejects, with the ceiling error and nothing dialled; every other failure runs the counter to 6 and never settles |
| ClientBuilder.FailureSleepsOnce | src/blipService/BlipClientBuilder.ts:81-98 | a failed attempt that did not sleep is followed by exactly one wait, `100 * 2^count` ms with the counter already incremented, before the retry's own waits |
| ClientBuilder.FailureClosesClient | src/blipService/BlipClientBuilder.ts:81-98 | a failed attempt's client is closed before the timer, so the retry starts with no client open |
| ClientBuilder.Attempts | src/blipService/BlipClientBuilder.ts:48-79 | the attempts of a session, one per increment of the counter: at most the ceiling minus the counter, at least one below the ceiling |
| ClientBuilder.BackoffAttempts | src/blipService/BlipClientBuilder.ts:55-98 | every attempt either fails and waits once or connects and ends the session: the waits, plus one when it connected, are the attempts |
| ClientBuilder.NeverSettlesExhaustsAttempts | src/blipService/BlipClientBuilder.ts:48-55 | a session that never settles makes every attempt the ceiling left it, 6 minus the counter it started from |
| ClientBuilder.BackoffSleepCount | src/blipService/BlipClientBuilder.ts:48-98 | a session waits at most once per attempt left under the ceiling, one fewer when it connects, and exactly that often when it never settles |
| ClientBuilder.DelaysShift | src/blipService/BlipClientBuilder.ts:86-87 | a `100 * 2^start` ms wait in front of waits that double from `start + 1` gives waits that double from `start` |
| ClientBuilder.BackoffDelays | src/blipService/BlipClientBuilder.ts:86-98 | the k-th wait of a session entered at counter `start` is `100 * 2^(start + 1 + k)` ms |
| ClientBuilder.BackoffOneClientAtATime | src/blipService/BlipClientBuilder.ts:57-98 | at most one client is open at any time, none while a timer runs; a session ends with a client open exactly when it connected |
| ClientBuilder.BackoffConnectedClient | src/blipService/BlipClientBuilder.ts:57-80 | a connected session returns the tenant client when a re-dial is needed and the primary client otherwise, and its last event is that client's successful dial |
| ClientBuilder.CeilingIsPermanent | src/blipService/BlipClientBuilder.ts:48-55 | after a session that never settles, every later connect rejects at once with the ceiling error, whatever the transport does |
| ClientBuilder.BlipClientBuilder.constructor | src/blipService/BlipClientBuilder.ts:6-9 | the counter starts at 0 |
| ClientBuilder.BlipClientBuilder.Connect | src/blipService/BlipClientBuilder.ts:18-32 | a connect is the retry session over the request's dial plan, counter and errors passed on unchanged |
| ClientBuilder.BlipClientBuilder.ConnectWithExponentialBackoff | src/blipService/BlipClientBuilder.ts:41-101 | the recursive method gives the outcome, the counter left behind and the transport events of the recursive definition, and keeps the counter within the ceiling |
| Service.BlipService.constructor | src/blipService/index.ts:31-44 | the configuration is stored with the application name defaulted; no client, empty authentication, readiness unresolved, lock free |
| Service.BlipService.WaitForInitialization | src/blipService/index.ts:61-63 | readiness is resolved only once a client is stored |
| Service.BlipService.WithClient | src/blipService/index.ts:70-76 | a listening client becomes the current client; a non-listening one fails with "Client must be listening" and changes nothing |
| Service.BlipService.Connect | src/blipService/index.ts:103-131 | the authentication is always recorded. A held lock leaves the connect pending with nothing else changed. A stored client means an immediate success with nothing dialled. The identifier "undefined" fails with the identifier error, nothing dialled. Otherwise the outcome is the builder's session: a connection is stored and resolves readiness; a rejection is passed on; a session that never settles keeps the lock. The lock is given back whenever the connect settles, and readiness is never reset |
| Service.BlipService.ProcessCommand | src/blipService/index.ts:84-95 | the request is a new command with the same method and uri. A truthy id is kept, otherwise the fresh id is used. Its metadata object is the caller's when there was one and fresh otherwise, with the injected entries. It is dispatched to the current client, with the given timeout or 10000 ms, exactly when a client is stored |
| Service.ConnectTwice | src/blipService/index.ts:103-131 | on a fresh service, a second connect after a successful one succeeds without dialling; after one that never settles, the second stays pending and dials nothing; after a failed one (only the identifier error is possible on a fresh builder) it fails the same way and dials nothing |
| Service.ExternalClientNeverReady | src/blipService/index.ts:61-76 | after `withClient` with a listening client, a connect succeeds without dialling and readiness stays unresolved |

## Left out

- Sockets, the WebSocket transport factory and the transport's own behaviour are not modelled. Each `connect()` is one oracle answer.
- Time is not modelled. A `setTimeout` becomes a `Sleep` event carrying its delay. `console.error` logging is left out.
- Throwing builders are not modelled: `buildBlipClient` always succeeds. A primary build that threw would leave `client` undefined, and the catch block would fail on it. A tenant build that threw would leave `client` holding the primary client, already closed: the catch would close it again and schedule the usual retry.
- The WHATWG URL parser and the global `location` are inputs, not models.
- `uuid.v4()` is the `freshId` parameter.
- The semaphore's queue of waiting callers is left out, and so are interleaved connects. A held lock is a permit count of 0. Connects are sequential here, so that count arises only after a session that never settles, and then the connect is pending forever.
- The readiness signal's `reject` is never called by the source. Readiness is a flag that only resolves.
- The shared builder is a module singleton in the source. Here it is an object passed to the service constructor.
- `withClient` returns the service for chaining. That return value is not modelled.
- `processCommand` delegates to the client's `processCommand`. Only the hand-off (client, request, timeout) is modelled, not the response.
- Command fields other than id, method, uri and metadata are copied by the spread and are not modelled.
- The `tenant` configuration field, of any type, is modelled by its truthiness.

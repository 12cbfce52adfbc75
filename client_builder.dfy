/**
 * The connection builder: a retry by recursion, with exponential backoff and
 * a ceiling, around a transport connect. A successful dial is followed by a
 * second dial to the tenant's hostname when the configuration has a truthy
 * tenant and the Blip domain URL does not contain the page origin.
 *
 * The transport is an oracle: `network(i)` is whether the i-th `connect()`
 * call of a connect session succeeds. Timers are recorded as Sleep events
 * carrying their delay instead of being waited for.
 */
module ClientBuilder {
  import opened JsValues
  import Strings
  import opened ServiceConfiguration
  import opened UrlTenantHandler

  /** The number of attempts one counter lifetime allows. */
  const MaxConnectUserTryCount: nat := 6

  const ConnectUserError: string := "Connect user error"

  /** The error raised when a connect starts with the counter at the ceiling. */
  function MaxTryCountMessage(identifier: string): (message: string)
    ensures ConnectUserError + ": " <= message
  {
    ConnectUserError + ": Could not connect user " + identifier
      + " - Max connection try count of " + "6" + " reached. Please refresh the page."
  }

  /** The message names the identifier and the ceiling. */
  lemma MaxTryCountMessageNames(identifier: string)
    ensures Strings.Includes(MaxTryCountMessage(identifier), identifier)
    ensures Strings.Includes(MaxTryCountMessage(identifier), "6")
  {
    var m := MaxTryCountMessage(identifier);
    var before := ConnectUserError + ": Could not connect user ";
    var after := " - Max connection try count of ";
    assert Strings.OccursAt(m, identifier, |before|);
    assert Strings.OccursAt(m, "6", |before + identifier + after|);
  }

  function Pow2(n: nat): nat {
    if n == 0 then 1 else 2 * Pow2(n - 1)
  }

  /** `100 * Math.pow(2, tryCount)` milliseconds: 100 ms at first, doubling with every try. */
  function RetryDelay(tryCount: nat): nat {
    100 * Pow2(tryCount)
  }

  /** The first delay is 100 ms and every further try doubles it. */
  lemma RetryDelayDoubles(tryCount: nat)
    ensures RetryDelay(0) == 100
    ensures RetryDelay(tryCount + 1) == 2 * RetryDelay(tryCount)
  {
  }

  /** A transport client as `buildBlipClient` configures it. */
  datatype Client = Client(
    identifier: string,
    token: string,
    domain: string,
    issuer: string,
    hostname: string,
    port: string,
    scheme: string,
    routingRule: string,
    instance: Option<string>,
    notifyConsumed: bool)

  /**
   * A client for `hostname`. Domain, issuer and routing rule are fixed values;
   * the configured domain and issuer are not read.
   */
  function BuildBlipClient(identifier: string, token: string, hostname: string,
    configuration: BlipServiceConfiguration): Client
  {
    Client(identifier, token, "blip.ai", "account.blip.ai", hostname,
      configuration.blipWebsocketPort, configuration.blipWebsocketScheme,
      "identity", configuration.applicationName, false)
  }

  /** The configured domain and issuer have no effect on the client built. */
  lemma BuiltClientIgnoresDomainAndIssuer(identifier: string, token: string, hostname: string,
    configuration: BlipServiceConfiguration, domain: string, issuer: string)
    ensures BuildBlipClient(identifier, token, hostname, configuration)
         == BuildBlipClient(identifier, token, hostname,
              configuration.(blipDomain := domain, blipAccountIssuer := issuer))
    ensures BuildBlipClient(identifier, token, hostname, configuration).domain == "blip.ai"
    ensures BuildBlipClient(identifier, token, hostname, configuration).issuer == "account.blip.ai"
  {
  }

  /** Everything one connect session reads besides the transport. */
  datatype ConnectRequest = ConnectRequest(
    identifier: string,
    token: string,
    configuration: BlipServiceConfiguration,
    location: Location,
    parse: UrlParser)

  /** The client every attempt dials first: on the configured hostname. */
  function PrimaryClient(request: ConnectRequest): Client {
    BuildBlipClient(request.identifier, request.token,
      request.configuration.blipWebsocketHostName, request.configuration)
  }

  /** The hostname the tenant re-dial uses. */
  function TenantHostname(request: ConnectRequest): string {
    AddTenantPrefixToUrl(request.configuration.blipWebsocketHostNameTenant, None,
      Some(request.configuration.blipWebsocketHostName),
      request.configuration.blipDomainUrl, request.location, request.parse)
  }

  /** A client on the tenant-resolved hostname. */
  function CreateClientWithTenantHostname(request: ConnectRequest): Client {
    BuildBlipClient(request.identifier, request.token, TenantHostname(request), request.configuration)
  }

  /** Whether a successful first dial is followed by a dial to the tenant's hostname. */
  predicate NeedsTenantRedial(request: ConnectRequest) {
    request.configuration.tenant
      && !Strings.Includes(request.configuration.blipDomainUrl, request.location.origin)
  }

  /**
   * When a re-dial happens the tenant is the first label of the page's
   * hostname, and the tenant template is qualified with it; the plain
   * hostname is the fallback.
   */
  lemma TenantRedialHostname(request: ConnectRequest)
    requires NeedsTenantRedial(request)
    ensures TenantHostname(request) == AddTenantPrefixToUrl(
      request.configuration.blipWebsocketHostNameTenant,
      Some(Strings.FirstLabel(request.location.hostname, UrlPartsSeparator)),
      Some(request.configuration.blipWebsocketHostName),
      request.configuration.blipDomainUrl, request.location, request.parse)
  {
  }

  /** What the transport saw, in order. */
  datatype Event =
    | Build(hostname: string)
    | Dial(hostname: string, ok: bool)
    | Close(hostname: string, hookDetached: bool)
    | Sleep(ms: nat)

  /**
   * How the promise a connect returns settles. Rejected is the ceiling error
   * of a call that starts at the ceiling. A retry that hits the ceiling throws
   * inside its timer callback, where nothing rejects the outer promise: it
   * NeverSettles.
   */
  datatype Outcome = Connected(client: Client) | Rejected(message: string) | NeverSettles

  /** A connect session: its outcome, the counter it leaves and its events. */
  datatype Run = Run(outcome: Outcome, tryCount: nat, events: seq<Event>)

  /**
   * What every attempt of a session dials, fixed by its request: the
   * primary client, the tenant client, and whether the tenant re-dial
   * happens. Building a client is pure, so each attempt builds these same two.
   */
  datatype DialPlan = DialPlan(identifier: string, primary: Client, tenantClient: Client, redial: bool)

  function PlanFor(request: ConnectRequest): DialPlan {
    DialPlan(request.identifier, PrimaryClient(request), CreateClientWithTenantHostname(request),
      NeedsTenantRedial(request))
  }

  /**
   * One attempt, the `try` block: the client it ends with, whether that
   * client connected, its events and the transport connects made so far.
   */
  datatype Attempt = Attempt(client: Client, connected: bool, events: seq<Event>, dials: nat)

  /**
   * Build and dial the primary client; after a successful dial that needs a
   * tenant re-dial, close it and build and dial the tenant client.
   */
  function TryConnect(plan: DialPlan, network: nat -> bool, dials: nat): Attempt {
    var first := plan.primary;
    var firstDial := [Build(first.hostname), Dial(first.hostname, network(dials))];
    if network(dials) && plan.redial then
      var second := plan.tenantClient;
      Attempt(second, network(dials + 1),
        firstDial + [Close(first.hostname, false), Build(second.hostname), Dial(second.hostname, network(dials + 1))],
        dials + 2)
    else
      Attempt(first, network(dials), firstDial, dials + 1)
  }

  /** The failure path of an attempt: close the client, then wait. */
  function Teardown(attempt: Attempt, count: nat): seq<Event> {
    [Close(attempt.client.hostname, true), Sleep(RetryDelay(count))]
  }

  /**
   * The recursive retry as the source writes it, entered with the counter at
   * `tryCount`; `inRetry` says whether this call runs inside a timer callback
   * and `dials` counts the transport connects made so far. At the ceiling the
   * session ends; below it the counter is incremented and one attempt made.
   */
  function Backoff(tryCount: nat, inRetry: bool, plan: DialPlan,
    network: nat -> bool, dials: nat): Run
    decreases MaxConnectUserTryCount - tryCount, 1
  {
    if tryCount >= MaxConnectUserTryCount then
      Run(if inRetry then NeverSettles else Rejected(MaxTryCountMessage(plan.identifier)), tryCount, [])
    else
      Settle(tryCount + 1, plan, network, TryConnect(plan, network, dials))
  }

  /**
   * The `try`/`catch` around one attempt made with the counter at `count`:
   * a connected attempt resets the counter; a failed one closes its client
   * (detaching its close hook), sleeps `100 * 2^count` ms and retries.
   */
  function Settle(count: nat, plan: DialPlan, network: nat -> bool, attempt: Attempt): Run
    requires 0 < count <= MaxConnectUserTryCount
    decreases MaxConnectUserTryCount - count + 1, 0
  {
    if attempt.connected then
      Run(Connected(attempt.client), 0, attempt.events)
    else
      var rest := Backoff(count, true, plan, network, attempt.dials);
      Run(rest.outcome, rest.tryCount, attempt.events + Teardown(attempt, count) + rest.events)
  }

  /**
   * The attempts a session makes, entered with the counter at `tryCount`:
   * one per increment of the counter, so at most the ceiling minus the
   * counter, and at least one when the counter is below the ceiling.
   */
  function Attempts(tryCount: nat, plan: DialPlan, network: nat -> bool, dials: nat): (n: nat)
    ensures tryCount <= MaxConnectUserTryCount ==> tryCount + n <= MaxConnectUserTryCount
    ensures tryCount < MaxConnectUserTryCount ==> n >= 1
    decreases MaxConnectUserTryCount - tryCount
  {
    if tryCount >= MaxConnectUserTryCount then 0
    else
      var attempt := TryConnect(plan, network, dials);
      1 + (if attempt.connected then 0 else Attempts(tryCount + 1, plan, network, attempt.dials))
  }

  /** The delays of the Sleep events, in order. */
  function Sleeps(events: seq<Event>): seq<nat> {
    if events == [] then []
    else (if events[0].Sleep? then [events[0].ms] else []) + Sleeps(events[1..])
  }

  lemma {:induction false} SleepsAppend(a: seq<Event>, b: seq<Event>)
    ensures Sleeps(a + b) == Sleeps(a) + Sleeps(b)
  {
    if a == [] {
      assert a + b == b;
    } else {
      assert (a + b)[0] == a[0];
      assert (a + b)[1..] == a[1..] + b;
      SleepsAppend(a[1..], b);
    }
  }

  /**
   * Whether a client is open after the events, starting from `open`; None
   * when a client is built while another is open, one is dialled or closed
   * while none is, or a timer runs while one is open.
   */
  function OpenAfter(events: seq<Event>, open: bool): Option<bool> {
    if events == [] then Some(open)
    else
      match Step(events[0], open)
      case Some(next) => OpenAfter(events[1..], next)
      case None => None
  }

  /** Whether a client is open after one event, or None when the event is out of place. */
  function Step(event: Event, open: bool): Option<bool> {
    match event
    case Build(_) => if open then None else Some(true)
    case Dial(_, _) => if open then Some(true) else None
    case Close(_, _) => if open then Some(false) else None
    case Sleep(_) => if open then None else Some(false)
  }

  /** Unfolding both trace functions on one leading event. */
  lemma TraceCons(event: Event, rest: seq<Event>, open: bool)
    ensures OpenAfter([event] + rest, open) ==
      match Step(event, open)
      case Some(next) => OpenAfter(rest, next)
      case None => None
    ensures Sleeps([event] + rest) == (if event.Sleep? then [event.ms] else []) + Sleeps(rest)
  {
    assert ([event] + rest)[0] == event;
    assert ([event] + rest)[1..] == rest;
  }

  /** Both trace functions on a single event. */
  lemma TraceLast(event: Event, open: bool)
    ensures OpenAfter([event], open) == Step(event, open)
    ensures Sleeps([event]) == if event.Sleep? then [event.ms] else []
  {
    assert [event][1..] == [];
  }

  lemma {:induction false} OpenAfterAppend(a: seq<Event>, b: seq<Event>, open: bool)
    ensures OpenAfter(a + b, open) ==
      match OpenAfter(a, open)
      case Some(mid) => OpenAfter(b, mid)
      case None => None
  {
    if a == [] {
      assert a + b == b;
    } else {
      assert (a + b)[0] == a[0];
      assert (a + b)[1..] == a[1..] + b;
      if Step(a[0], open).Some? {
        OpenAfterAppend(a[1..], b, Step(a[0], open).value);
      }
    }
  }

  /** Building and dialling one client leaves it open, without waiting. */
  lemma DialTrace(hostname: string, ok: bool)
    ensures Sleeps([Build(hostname), Dial(hostname, ok)]) == []
    ensures OpenAfter([Build(hostname), Dial(hostname, ok)], false) == Some(true)
  {
    TraceLast(Dial(hostname, ok), true);
    TraceCons(Build(hostname), [Dial(hostname, ok)], false);
    assert [Build(hostname), Dial(hostname, ok)] == [Build(hostname)] + [Dial(hostname, ok)];
  }

  /**
   * Closing the first client after its successful dial and then building and
   * dialling the second leaves only the second open, without waiting.
   */
  lemma RedialTrace(first: string, second: string, ok: bool)
    ensures var events := [Build(first), Dial(first, true), Close(first, false), Build(second), Dial(second, ok)];
      Sleeps(events) == [] && OpenAfter(events, false) == Some(true)
  {
    var tail := [Build(second), Dial(second, ok)];
    DialTrace(second, ok);
    TraceCons(Close(first, false), tail, true);
    TraceCons(Dial(first, true), [Close(first, false)] + tail, true);
    TraceCons(Build(first), [Dial(first, true)] + ([Close(first, false)] + tail), false);
    assert [Build(first), Dial(first, true), Close(first, false), Build(second), Dial(second, ok)]
        == [Build(first)] + ([Dial(first, true)] + ([Close(first, false)] + tail));
  }

  /**
   * An attempt never sleeps, leaves exactly one client open, and ends with
   * the dial of the client it returns: the tenant client when the primary
   * connected and a re-dial is needed, the primary client otherwise.
   */
  lemma TryConnectTrace(plan: DialPlan, network: nat -> bool, dials: nat)
    ensures var attempt := TryConnect(plan, network, dials);
      && Sleeps(attempt.events) == []
      && OpenAfter(attempt.events, false) == Some(true)
      && attempt.events[|attempt.events| - 1] == Dial(attempt.client.hostname, attempt.connected)
      && attempt.client == (if network(dials) && plan.redial
                            then plan.tenantClient else plan.primary)
      && attempt.dials > dials
  {
    var first := plan.primary;
    var second := plan.tenantClient;
    var events := TryConnect(plan, network, dials).events;
    if network(dials) && plan.redial {
      RedialTrace(first.hostname, second.hostname, network(dials + 1));
    } else {
      DialTrace(first.hostname, network(dials));
    }
  }

  /**
   * How a session ends, from a counter within the ceiling: success resets
   * the counter; only a call that starts at the ceiling outside a retry
   * rejects, untouched; every other failure runs the counter up to the
   * ceiling and never settles.
   */
  lemma {:induction false} BackoffSettles(tryCount: nat, inRetry: bool, plan: DialPlan,
    network: nat -> bool, dials: nat)
    requires tryCount <= MaxConnectUserTryCount
    ensures var run := Backoff(tryCount, inRetry, plan, network, dials);
      && run.tryCount <= MaxConnectUserTryCount
      && (run.outcome.Connected? ==> run.tryCount == 0)
      && (run.outcome.NeverSettles? ==> run.tryCount == MaxConnectUserTryCount)
      && (run.outcome.Rejected? <==> !inRetry && tryCount == MaxConnectUserTryCount)
      && (run.outcome.Rejected? ==>
            run == Run(Rejected(MaxTryCountMessage(plan.identifier)), tryCount, []))
    decreases MaxConnectUserTryCount - tryCount
  {
    if tryCount < MaxConnectUserTryCount {
      var attempt := TryConnect(plan, network, dials);
      if !attempt.connected {
        BackoffSettles(tryCount + 1, true, plan, network, attempt.dials);
      }
    }
  }

  /** The failure path closes the open client and then waits once. */
  lemma TeardownTrace(attempt: Attempt, count: nat)
    ensures Sleeps(Teardown(attempt, count)) == [RetryDelay(count)]
    ensures OpenAfter(Teardown(attempt, count), true) == Some(false)
  {
    var close := Close(attempt.client.hostname, true);
    var sleep := Sleep(RetryDelay(count));
    TraceLast(sleep, false);
    TraceCons(close, [sleep], true);
    assert Teardown(attempt, count) == [close] + [sleep];
  }

  /**
   * A failed attempt that did not sleep is followed by exactly one sleep,
   * `100 * 2^count` ms, before the retry's own sleeps.
   */
  lemma FailureSleepsOnce(attempt: Attempt, count: nat, later: seq<Event>)
    requires Sleeps(attempt.events) == []
    ensures Sleeps(attempt.events + Teardown(attempt, count) + later) == [RetryDelay(count)] + Sleeps(later)
  {
    SleepsAppend(attempt.events, Teardown(attempt, count));
    SleepsAppend(attempt.events + Teardown(attempt, count), later);
    TeardownTrace(attempt, count);
  }

  /**
   * A failed attempt that left its client open closes it before the timer,
   * so the retry starts with no client open.
   */
  lemma FailureClosesClient(attempt: Attempt, count: nat, later: seq<Event>)
    requires OpenAfter(attempt.events, false) == Some(true)
    ensures OpenAfter(attempt.events + Teardown(attempt, count) + later, false) == OpenAfter(later, false)
  {
    OpenAfterAppend(attempt.events, Teardown(attempt, count), false);
    OpenAfterAppend(attempt.events + Teardown(attempt, count), later, false);
    TeardownTrace(attempt, count);
  }

  /** The k-th delay is `100 * 2^(start + k)` ms: the backoff doubling from `start`. */
  predicate DoublingFrom(delays: seq<nat>, start: nat) {
    forall k :: 0 <= k < |delays| ==> delays[k] == RetryDelay(start + k)
  }

  /** A delay in front of the delays that follow it keeps the doubling going. */
  lemma DelaysShift(start: nat, later: seq<nat>)
    requires DoublingFrom(later, start + 1)
    ensures DoublingFrom([RetryDelay(start)] + later, start)
  {
    var delays := [RetryDelay(start)] + later;
    forall k | 0 <= k < |delays|
      ensures delays[k] == RetryDelay(start + k)
    {
      if k > 0 {
        assert delays[k] == later[k - 1];
      }
    }
  }

  /**
   * Every attempt of a session either fails and waits once or connects and
   * ends the session.
   */
  lemma {:induction false} BackoffAttempts(tryCount: nat, inRetry: bool, plan: DialPlan,
    network: nat -> bool, dials: nat)
    requires tryCount <= MaxConnectUserTryCount
    ensures var run := Backoff(tryCount, inRetry, plan, network, dials);
      |Sleeps(run.events)| + (if run.outcome.Connected? then 1 else 0) == Attempts(tryCount, plan, network, dials)
    decreases MaxConnectUserTryCount - tryCount
  {
    if tryCount < MaxConnectUserTryCount {
      var attempt := TryConnect(plan, network, dials);
      TryConnectTrace(plan, network, dials);
      if !attempt.connected {
        var rest := Backoff(tryCount + 1, true, plan, network, attempt.dials);
        BackoffAttempts(tryCount + 1, true, plan, network, attempt.dials);
        FailureSleepsOnce(attempt, tryCount + 1, rest.events);
      }
    }
  }

  /** A session that never settles makes every attempt the ceiling left it. */
  lemma {:induction false} NeverSettlesExhaustsAttempts(tryCount: nat, inRetry: bool, plan: DialPlan,
    network: nat -> bool, dials: nat)
    requires tryCount <= MaxConnectUserTryCount
    requires Backoff(tryCount, inRetry, plan, network, dials).outcome.NeverSettles?
    ensures Attempts(tryCount, plan, network, dials) == MaxConnectUserTryCount - tryCount
    decreases MaxConnectUserTryCount - tryCount
  {
    if tryCount < MaxConnectUserTryCount {
      var attempt := TryConnect(plan, network, dials);
      if !attempt.connected {
        NeverSettlesExhaustsAttempts(tryCount + 1, true, plan, network, attempt.dials);
      }
    }
  }

  /**
   * A session sleeps at most once per attempt the ceiling leaves (one fewer
   * when it connects), and exactly that often when it never settles.
   */
  lemma BackoffSleepCount(tryCount: nat, inRetry: bool, plan: DialPlan,
    network: nat -> bool, dials: nat)
    requires tryCount <= MaxConnectUserTryCount
    ensures var run := Backoff(tryCount, inRetry, plan, network, dials);
      && |Sleeps(run.events)| + (if run.outcome.Connected? then 1 else 0) <= MaxConnectUserTryCount - tryCount
      && (run.outcome.NeverSettles? ==> |Sleeps(run.events)| == MaxConnectUserTryCount - tryCount)
  {
    BackoffAttempts(tryCount, inRetry, plan, network, dials);
    if Backoff(tryCount, inRetry, plan, network, dials).outcome.NeverSettles? {
      NeverSettlesExhaustsAttempts(tryCount, inRetry, plan, network, dials);
    }
  }

  /**
   * The k-th failure of a session (counting from 0) waits
   * `100 * 2^(tryCount + 1 + k)` ms.
   */
  lemma {:induction false} BackoffDelays(tryCount: nat, inRetry: bool, plan: DialPlan,
    network: nat -> bool, dials: nat)
    ensures DoublingFrom(Sleeps(Backoff(tryCount, inRetry, plan, network, dials).events), tryCount + 1)
    decreases MaxConnectUserTryCount - tryCount
  {
    if tryCount < MaxConnectUserTryCount {
      var attempt := TryConnect(plan, network, dials);
      TryConnectTrace(plan, network, dials);
      if !attempt.connected {
        var rest := Backoff(tryCount + 1, true, plan, network, attempt.dials);
        BackoffDelays(tryCount + 1, true, plan, network, attempt.dials);
        FailureSleepsOnce(attempt, tryCount + 1, rest.events);
        DelaysShift(tryCount + 1, Sleeps(rest.events));
      }
    }
  }

  /**
   * At most one client is open at any time: each failed client is closed
   * before the timer, the first client is closed before the tenant client is
   * built, and the session ends with a client open exactly when it connected.
   */
  lemma {:induction false} BackoffOneClientAtATime(tryCount: nat, inRetry: bool, plan: DialPlan,
    network: nat -> bool, dials: nat)
    ensures var run := Backoff(tryCount, inRetry, plan, network, dials);
      OpenAfter(run.events, false) == Some(run.outcome.Connected?)
    decreases MaxConnectUserTryCount - tryCount
  {
    if tryCount < MaxConnectUserTryCount {
      var attempt := TryConnect(plan, network, dials);
      TryConnectTrace(plan, network, dials);
      if !attempt.connected {
        var rest := Backoff(tryCount + 1, true, plan, network, attempt.dials);
        BackoffOneClientAtATime(tryCount + 1, true, plan, network, attempt.dials);
        FailureClosesClient(attempt, tryCount + 1, rest.events);
      }
    }
  }

  /**
   * A connected session returns the last client it dialled, successfully:
   * the tenant client when a re-dial is needed, the primary one otherwise.
   */
  lemma {:induction false} BackoffConnectedClient(tryCount: nat, inRetry: bool, plan: DialPlan,
    network: nat -> bool, dials: nat)
    ensures var run := Backoff(tryCount, inRetry, plan, network, dials);
      run.outcome.Connected? ==>
        && run.outcome.client == (if plan.redial then plan.tenantClient
                                  else plan.primary)
        && |run.events| > 0 && run.events[|run.events| - 1] == Dial(run.outcome.client.hostname, true)
    decreases MaxConnectUserTryCount - tryCount
  {
    if tryCount < MaxConnectUserTryCount {
      var attempt := TryConnect(plan, network, dials);
      TryConnectTrace(plan, network, dials);
      if !attempt.connected {
        BackoffConnectedClient(tryCount + 1, true, plan, network, attempt.dials);
        var run := Backoff(tryCount, inRetry, plan, network, dials);
        var rest := Backoff(tryCount + 1, true, plan, network, attempt.dials);
        if rest.outcome.Connected? {
          assert run.events == (attempt.events + Teardown(attempt, tryCount + 1)) + rest.events;
        }
      }
    }
  }

  /**
   * The counter is reset only on success: once a session runs it up to the
   * ceiling, the next connect rejects at once, whatever the transport does.
   */
  lemma CeilingIsPermanent(tryCount: nat, plan: DialPlan, network: nat -> bool,
    next: DialPlan, nextNetwork: nat -> bool)
    requires tryCount <= MaxConnectUserTryCount
    requires Backoff(tryCount, false, plan, network, 0).outcome.NeverSettles?
    ensures var run := Backoff(tryCount, false, plan, network, 0);
      Backoff(run.tryCount, false, next, nextNetwork, 0)
        == Run(Rejected(MaxTryCountMessage(next.identifier)), MaxConnectUserTryCount, [])
  {
    BackoffSettles(tryCount, false, plan, network, 0);
  }

  /** The builder: one instance, shared by every service, owns the retry counter. */
  class BlipClientBuilder {
    var connectionTryCount: nat

    ghost predicate Valid()
      reads this
    {
      connectionTryCount <= MaxConnectUserTryCount
    }

    constructor ()
      ensures Valid() && connectionTryCount == 0
    {
      connectionTryCount := 0;
    }

    /**
     * Connect a request: the session the retry runs over the request's dial
     * plan, its errors passed on as they are.
     */
    method Connect(request: ConnectRequest, network: nat -> bool) returns (outcome: Outcome, events: seq<Event>)
      requires Valid()
      modifies this
      ensures Valid()
      ensures Run(outcome, connectionTryCount, events) == Backoff(old(connectionTryCount), false, PlanFor(request), network, 0)
    {
      outcome, events := ConnectWithExponentialBackoff(PlanFor(request), network, false, 0);
    }

    /**
     * Connect with exponential backoff, recursing from the timer as the
     * source does: `inRetry` says whether this call runs in a timer callback
     * and `dials` counts the transport connects made so far. The outcome, the
     * counter left behind and the events are those of the recursive
     * definition.
     */
    method ConnectWithExponentialBackoff(plan: DialPlan, network: nat -> bool, inRetry: bool, dials: nat)
      returns (outcome: Outcome, events: seq<Event>)
      requires Valid()
      modifies this
      ensures Valid()
      ensures Run(outcome, connectionTryCount, events) == Backoff(old(connectionTryCount), inRetry, plan, network, dials)
      decreases MaxConnectUserTryCount - connectionTryCount
    {
      if connectionTryCount >= MaxConnectUserTryCount {
        outcome := if inRetry then NeverSettles else Rejected(MaxTryCountMessage(plan.identifier));
        events := [];
        return;
      }
      connectionTryCount := connectionTryCount + 1;
      var attempt := TryConnect(plan, network, dials);
      if attempt.connected {
        connectionTryCount := 0;
        outcome := Connected(attempt.client);
        events := attempt.events;
        return;
      }
      // Failure: the client is closed with its close hook detached, and the
      // retry waits 100 * 2^count ms, the counter already incremented.
      var failure := attempt.events + Teardown(attempt, connectionTryCount);
      var later;
      outcome, later := ConnectWithExponentialBackoff(plan, network, true, attempt.dials);
      events := failure + later;
    }
  }
}

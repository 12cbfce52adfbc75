/**
 * The Blip service: one connection shared by the page, set up at most once
 * under a lock, with a readiness signal for callers waiting on it, and the
 * command dispatch that injects metadata before handing a command to the
 * connected client.
 */
module Service {
  import opened JsValues
  import opened ServiceConfiguration
  import opened UrlTenantHandler
  import opened ClientBuilder
  import opened Lime
  import opened MetadataInjector

  /** The timeout a command gets when the caller names none, in milliseconds. */
  const CommandTimeout: int := 10000

  const IdentifierEmptyError: string := "Identifier is empty, try to connect again"
  const ClientNotListeningError: string := "Client must be listening"

  /**
   * How the promise `connect` returns settles: Fulfilled, Failed with the
   * error it rejects with, or Pending forever.
   */
  datatype Settlement = Fulfilled | Failed(reason: string) | Pending

  /**
   * What `processCommand` hands on: the prepared request and timeout to the
   * stored client, or, with no client stored, nothing (the call throws after
   * the request was prepared).
   */
  datatype Dispatch =
    | Dispatched(client: Client, request: Command, timeout: int)
    | NoClient(request: Command)

  class BlipService {
    /** The configuration, with the application name defaulted. */
    const configuration: BlipServiceConfiguration
    /** The connection builder shared by every service on the page. */
    const builder: BlipClientBuilder
    /** The current client, if any. */
    var client: Option<Client>
    /** The user attribution injected into every command. */
    var authentication: string
    /** Whether the initialization promise has been resolved. */
    var initialized: bool
    /** The permits left in the capacity-1 connect lock: 1 when free. */
    var permits: nat

    ghost predicate Valid()
      reads this, builder
    {
      && builder.Valid()
      && permits <= 1
      && (initialized ==> client.Some?)
    }

    constructor (configuration: BlipServiceConfiguration, builder: BlipClientBuilder)
      requires builder.Valid()
      ensures Valid()
      ensures this.configuration == WithDefaults(configuration) && this.builder == builder
      ensures client.None? && authentication == "" && !initialized && permits == 1
    {
      this.configuration := WithDefaults(configuration);
      this.builder := builder;
      client := None;
      authentication := "";
      initialized := false;
      permits := 1;
    }

    /**
     * Whether the initialization promise has resolved. It only ever becomes
     * resolved by a successful connect, so a resolved one means a client is stored.
     */
    function WaitForInitialization(): (resolved: bool)
      reads this, builder
      requires Valid()
      ensures resolved ==> client.Some?
    {
      initialized
    }

    /** Use an external, already listening client instead of connecting. */
    method WithClient(candidate: Client, listening: bool) returns (error: Option<string>)
      requires Valid()
      modifies this`client
      ensures Valid()
      ensures listening ==> error.None? && client == Some(candidate)
      ensures !listening ==> error == Some(ClientNotListeningError) && client == old(client)
    {
      if !listening {
        return Some(ClientNotListeningError);
      }
      client := Some(candidate);
      return None;
    }

    /**
     * Connect with the identifier and token. `authentication` is recorded
     * first, whatever follows. The lock is taken before the client is
     * checked and released on every exit path; a session that never settles
     * never reaches its release, so the lock stays taken and every later
     * connect waits on it forever.
     */
    method Connect(identifier: string, token: string, authentication: string,
      location: Location, parse: UrlParser, network: nat -> bool)
      returns (settlement: Settlement, events: seq<Event>)
      requires Valid()
      modifies this, builder
      ensures Valid()
      ensures this.authentication == authentication
      ensures old(initialized) ==> initialized
      ensures settlement != Pending ==> permits == old(permits)
      ensures old(permits) == 0 ==>
        && settlement == Pending && events == [] && permits == 0
        && client == old(client) && initialized == old(initialized)
        && builder.connectionTryCount == old(builder.connectionTryCount)
      ensures old(permits) > 0 && old(client).Some? ==>
        && settlement == Fulfilled && events == []
        && client == old(client) && initialized == old(initialized)
        && builder.connectionTryCount == old(builder.connectionTryCount)
      ensures old(permits) > 0 && old(client).None? && identifier == "undefined" ==>
        && settlement == Failed(IdentifierEmptyError) && events == []
        && client.None? && initialized == old(initialized)
        && builder.connectionTryCount == old(builder.connectionTryCount)
      ensures old(permits) > 0 && old(client).None? && identifier != "undefined" ==>
        var run := Backoff(old(builder.connectionTryCount), false,
          PlanFor(ConnectRequest(identifier, token, configuration, location, parse)), network, 0);
        && builder.connectionTryCount == run.tryCount && events == run.events
        && match run.outcome
           case Connected(c) => settlement == Fulfilled && client == Some(c) && initialized
           case Rejected(m) => settlement == Failed(m) && client.None? && initialized == old(initialized)
           case NeverSettles => settlement == Pending && client.None? && permits == 0
                                && initialized == old(initialized)
    {
      this.authentication := authentication;
      events := [];
      if permits == 0 {
        // lock.wait() on a lock no one will release.
        return Pending, [];
      }
      permits := permits - 1;
      if client.Some? {
        permits := permits + 1;
        return Fulfilled, [];
      }
      if identifier == "undefined" {
        permits := permits + 1;
        return Failed(IdentifierEmptyError), [];
      }
      var outcome;
      outcome, events := builder.Connect(ConnectRequest(identifier, token, configuration, location, parse), network);
      match outcome {
        case Connected(c) =>
          client := Some(c);
          initialized := true;
          permits := permits + 1;
          settlement := Fulfilled;
        case Rejected(m) =>
          permits := permits + 1;
          settlement := Failed(m);
        case NeverSettles =>
          settlement := Pending;
      }
    }

    /**
     * Send a command through the stored client. The request is a shallow
     * copy of `command` with a truthy id kept and a fresh one (`freshId`)
     * given otherwise, and its metadata injected with the stored
     * authentication. The copy shares the command's metadata object, so a
     * command that had one sees the injection too.
     */
    method ProcessCommand(command: Command, timeout: Option<int>, freshId: string) returns (dispatch: Dispatch)
      modifies command.metadata
      ensures fresh(dispatch.request)
      ensures dispatch.request.uri == command.uri && dispatch.request.verb == command.verb
      ensures dispatch.request.id == if Truthy(command.id) then command.id else Some(freshId)
      ensures dispatch.request.metadata != null
      ensures dispatch.request.metadata.entries == Injected(old(command.Entries()), command.verb, authentication)
      ensures old(command.metadata) != null ==> dispatch.request.metadata == command.metadata
      ensures old(command.metadata) == null ==> fresh(dispatch.request.metadata)
      ensures dispatch.Dispatched? <==> client.Some?
      ensures dispatch.Dispatched? ==>
        dispatch.client == client.value && dispatch.timeout == timeout.GetOr(CommandTimeout)
    {
      var request := new Command(if Truthy(command.id) then command.id else Some(freshId),
        command.verb, command.uri, command.metadata);
      InjectMetadata(request, authentication);
      if client.Some? {
        dispatch := Dispatched(client.value, request, timeout.GetOr(CommandTimeout));
      } else {
        dispatch := NoClient(request);
      }
    }
  }

  /**
   * Two connects in a row on a fresh service build one connection at most:
   * the second finds the first one's client, its held lock, or the same
   * failure, and touches no transport. On a fresh builder a session never
   * rejects, so the only failure is the identifier error, which the second
   * connect meets again.
   */
  method ConnectTwice(configuration: BlipServiceConfiguration, identifier: string, token: string,
    authentication: string, location: Location, parse: UrlParser, network: nat -> bool, again: nat -> bool)
    returns (first: Settlement, second: Settlement, secondEvents: seq<Event>)
    ensures first == Fulfilled ==> second == Fulfilled && secondEvents == []
    ensures first == Pending ==> second == Pending && secondEvents == []
    ensures first.Failed? ==> second == first && secondEvents == []
  {
    var builder := new BlipClientBuilder();
    var service := new BlipService(configuration, builder);
    BackoffSettles(0, false,
      PlanFor(ConnectRequest(identifier, token, service.configuration, location, parse)), network, 0);
    var events;
    first, events := service.Connect(identifier, token, authentication, location, parse, network);
    second, secondEvents := service.Connect(identifier, token, authentication, location, parse, again);
  }

  /**
   * A service given its client through `withClient` is never ready: a later
   * connect succeeds at once without dialling, but only a connect that
   * builds a client resolves readiness.
   */
  method ExternalClientNeverReady(configuration: BlipServiceConfiguration, candidate: Client,
    identifier: string, token: string, authentication: string,
    location: Location, parse: UrlParser, network: nat -> bool)
    returns (settlement: Settlement, events: seq<Event>, ready: bool)
    ensures settlement == Fulfilled && events == [] && !ready
  {
    var builder := new BlipClientBuilder();
    var service := new BlipService(configuration, builder);
    var error := service.WithClient(candidate, true);
    settlement, events := service.Connect(identifier, token, authentication, location, parse, network);
    ready := service.WaitForInitialization();
  }
}

/**
 * Metadata injection: before dispatch a command is marked for storage when it
 * changes a resource and is attributed to the signed-in user. The command's
 * metadata object is created if missing and otherwise extended in place.
 */
module MetadataInjector {
  import opened Lime

  /** The hint that asks the server to store the command. */
  const ShouldStoreKey: string := "server.shouldStore"

  /** The key that attributes the command to the portal user. */
  const EmailKey: string := "blip_portal.email"

  /** The command methods that change a resource and so carry the store hint. */
  predicate IsStoreMethod(verb: string) {
    verb == "set" || verb == "delete" || verb == "merge"
  }

  /**
   * The metadata an injection leaves: the attribution key set to
   * `authentication`, the store hint set for store methods, and every other
   * entry as it was.
   */
  function Injected(entries: map<string, string>, verb: string, authentication: string): (r: map<string, string>)
    ensures EmailKey in r && r[EmailKey] == authentication
    ensures IsStoreMethod(verb) ==> ShouldStoreKey in r && r[ShouldStoreKey] == "true"
    ensures r.Keys == entries.Keys + {EmailKey} + (if IsStoreMethod(verb) then {ShouldStoreKey} else {})
    ensures forall k :: k in entries && k != EmailKey && !(IsStoreMethod(verb) && k == ShouldStoreKey) ==>
      r[k] == entries[k]
  {
    var stored := if IsStoreMethod(verb) then entries[ShouldStoreKey := "true"] else entries;
    stored[EmailKey := authentication]
  }

  /** Other methods never gain a store hint they did not already have. */
  lemma NoStoreHintForOtherMethods(entries: map<string, string>, verb: string, authentication: string)
    requires !IsStoreMethod(verb)
    ensures ShouldStoreKey in Injected(entries, verb, authentication) <==> ShouldStoreKey in entries
  {
  }

  /** Injecting twice with the same authentication is the same as injecting once. */
  lemma InjectedIdempotent(entries: map<string, string>, verb: string, authentication: string)
    ensures Injected(Injected(entries, verb, authentication), verb, authentication)
         == Injected(entries, verb, authentication)
  {
  }

  /**
   * Ensure the command has a metadata object and inject the store hint and
   * the attribution into it. An existing object is kept and extended.
   */
  method InjectMetadata(command: Command, authentication: string)
    modifies command`metadata, command.metadata
    ensures command.metadata != null
    ensures old(command.metadata) != null ==> command.metadata == old(command.metadata)
    ensures old(command.metadata) == null ==> fresh(command.metadata)
    ensures command.metadata.entries == Injected(old(command.Entries()), command.verb, authentication)
  {
    if command.metadata == null {
      command.metadata := new Metadata(map[]);
    }
    InjectSaveCommandMetadata(command);
    InjectAuthenticationMetadata(command, authentication);
  }

  /** Set the store hint on a set, delete or merge command; leave others alone. */
  method InjectSaveCommandMetadata(command: Command)
    requires command.metadata != null
    modifies command.metadata
    ensures command.metadata.entries ==
      if IsStoreMethod(command.verb) then old(command.metadata.entries)[ShouldStoreKey := "true"]
      else old(command.metadata.entries)
  {
    if command.verb == "set" || command.verb == "delete" || command.verb == "merge" {
      command.metadata.entries := command.metadata.entries[ShouldStoreKey := "true"];
    }
  }

  /** Attribute the command to `authentication`, overwriting an earlier attribution. */
  method InjectAuthenticationMetadata(command: Command, authentication: string)
    requires command.metadata != null
    modifies command.metadata
    ensures command.metadata.entries == old(command.metadata.entries)[EmailKey := authentication]
  {
    command.metadata.entries := command.metadata.entries[EmailKey := authentication];
  }
}

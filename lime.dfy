/**
 * The parts of a LIME command envelope the service touches. Commands and
 * their metadata maps are JavaScript objects, shared by reference: copying a
 * command with a spread copies the reference to its metadata, not the map.
 */
module Lime {
  import opened JsValues

  /** A command's metadata object: a string-to-string map updated in place. */
  class Metadata {
    var entries: map<string, string>

    constructor (entries: map<string, string>)
      ensures this.entries == entries
    {
      this.entries := entries;
    }
  }

  /** A request command: its method (here `verb`, since `method` is a Dafny keyword), uri, optional id and optional metadata object. */
  class Command {
    var id: Option<string>
    var verb: string
    var uri: string
    var metadata: Metadata?

    constructor (id: Option<string>, verb: string, uri: string, metadata: Metadata?)
      ensures this.id == id && this.verb == verb && this.uri == uri && this.metadata == metadata
    {
      this.id := id;
      this.verb := verb;
      this.uri := uri;
      this.metadata := metadata;
    }

    /** The command's metadata as a map, an absent object read as the empty map. */
    function Entries(): map<string, string>
      reads this, metadata
    {
      if metadata == null then map[] else metadata.entries
    }
  }
}

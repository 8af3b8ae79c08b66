/**
 * What discord.js and the module loader hand to the bot: interactions,
 * the acknowledgement actions sent back, and the records of command modules
 * found under `commands/`.
 */
module Discord {
  import opened Js

  /** The identity of a JavaScript callback exported by a command module. */
  type Handler = nat

  datatype Kind =
    | ChatInput
    | Autocomplete
    | UserContextMenu
    | MessageContextMenu
    | Button
    | StringSelect
    | ModalSubmit
    | OtherKind

  /**
   * One inbound interaction. `guildId` is `None` outside a guild; a missing
   * `commandName` or `customId` is `""`; `acknowledged` is
   * `deferred || replied` when the dispatcher receives it; `channelOption`
   * is the id of the channel chosen for a required channel option.
   */
  datatype Interaction = Interaction(
    kind: Kind,
    guildId: Option<string>,
    channelId: string,
    commandName: string,
    customId: string,
    userTag: string,
    guildName: string,
    memberPermissions: Option<nat>,
    acknowledged: bool,
    channelOption: string)

  predicate InGuild(ix: Interaction) {
    ix.guildId.Some?
  }

  /** What the bot sends back on an interaction. */
  datatype Action =
    | Defer(ephemeral: bool)
    | Reply(content: string, ephemeral: bool)
    | Edit(content: string)

  /** A value found under an exported component map's key. */
  datatype Exported = Function(handler: Handler) | NotAFunction

  /**
   * An export `buttons`, `selects` or `modals`: either not an object
   * (missing, null, a primitive or a function) or the pairs of
   * `Object.entries` in their enumeration order.
   */
  datatype Export = NotAnObject | Entries(entries: seq<(string, Exported)>)

  /** `mod.data`: its `name` (`""` when missing) and `toJSON()` when it is a function. */
  datatype CommandData = CommandData(name: string, toJson: Option<Value>)

  datatype CommandModule = CommandModule(
    data: Option<CommandData>,
    execute: Option<Handler>,
    autocomplete: Option<Handler>,
    contextUser: Option<Handler>,
    contextMessage: Option<Handler>,
    buttons: Export,
    selects: Export,
    modals: Export)

  /** `mod?.data?.name` as a string, `""` when it is missing. */
  function NameOf(m: CommandModule): string {
    if m.data.Some? then m.data.value.name else ""
  }

  /**
   * The command schemas collected from modules in order: `data.toJSON()` of
   * every module that has a `data.name` and a `toJSON` function.
   */
  function Schemas(mods: seq<CommandModule>): (r: seq<Value>)
    ensures |r| <= |mods|
  {
    if mods == [] then []
    else
      var m := mods[|mods| - 1];
      Schemas(mods[..|mods| - 1]) + (if NameOf(m) != "" && m.data.value.toJson.Some? then [m.data.value.toJson.value] else [])
  }

  /** A module contributes a schema exactly when it is named and has `toJSON`. */
  lemma {:induction false} SchemasOfOne(mods: seq<CommandModule>, m: CommandModule)
    ensures Schemas(mods + [m]) ==
              Schemas(mods) + (if NameOf(m) != "" && m.data.value.toJson.Some? then [m.data.value.toJson.value] else [])
  {
    assert (mods + [m])[..|mods|] == mods;
  }

  /**
   * Collecting over two runs of modules one after the other gives the
   * first run's schemas followed by the second's: the order of the modules
   * is the order of the schemas.
   */
  lemma {:induction false} SchemasAppend(a: seq<CommandModule>, b: seq<CommandModule>)
    ensures Schemas(a + b) == Schemas(a) + Schemas(b)
  {
    if b == [] {
      assert a + b == a;
    } else {
      var n := |b| - 1;
      assert (a + b)[..|a + b| - 1] == a + b[..n];
      assert (a + b)[|a + b| - 1] == b[n];
      SchemasAppend(a, b[..n]);
    }
  }

  /** A value is collected exactly when some module is named and its `toJSON()` returns it. */
  lemma {:induction false} SchemasMembers(mods: seq<CommandModule>, v: Value)
    ensures v in Schemas(mods) <==>
              exists i :: 0 <= i < |mods| && NameOf(mods[i]) != "" && mods[i].data.value.toJson == Some(v)
  {
    if mods != [] {
      var n := |mods| - 1;
      SchemasMembers(mods[..n], v);
      assert forall i :: 0 <= i < n ==> mods[..n][i] == mods[i];
    }
  }
}

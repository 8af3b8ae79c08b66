/**
 * The command registry, the component tables and the InteractionCreate
 * listener of index.js. Foreign callbacks are not run: the dispatcher's
 * decisions are recorded as a trace of effects, and how the invoked
 * callback ends (normally, or by throwing after having acknowledged the
 * interaction or not) is an input.
 */
module Dispatch {
  import opened Js
  import opened Discord
  import opened Router
  import Storage

  const GENERIC_ERROR := "오류가 발생했어요."
  const UNSUPPORTED_BUTTON := "지원되지 않는 버튼입니다."
  const UNSUPPORTED_SELECT := "지원되지 않는 선택 메뉴입니다."
  const UNSUPPORTED_MODAL := "지원되지 않는 모달입니다."

  /** How the invoked callback ends. */
  datatype HandlerRun = Returned | Threw(acknowledged: bool, error: string)

  /** What the listener does, in order. */
  datatype Effect =
    | EnsureGuild(guildId: string)
    | Invoke(handler: Handler)
    | Respond(action: Action)
    | LogGuild(guildId: string, content: string)
    | LogOwner(content: string)

  datatype Table = Buttons | Selects | Modals

  function ExportOf(m: CommandModule, t: Table): Export {
    match t
    case Buttons => m.buttons
    case Selects => m.selects
    case Modals => m.modals
  }

  /** Every route the modules contribute to one table, in registration order. */
  function AllAccepted(mods: seq<CommandModule>, t: Table): seq<Route> {
    if mods == [] then []
    else AllAccepted(mods[..|mods| - 1], t) + Accepted(ExportOf(mods[|mods| - 1], t))
  }

  /** The registry after loading `mods` in order: `client.commands.set(data.name, mod)` for named modules. */
  function Registered(reg: map<string, CommandModule>, mods: seq<CommandModule>): map<string, CommandModule> {
    if mods == [] then reg
    else
      var m := mods[|mods| - 1];
      var r := Registered(reg, mods[..|mods| - 1]);
      if NameOf(m) != "" then r[NameOf(m) := m] else r
  }

  /** A name is registered iff it was already, or some loaded module carries it. */
  lemma {:induction false} RegistryMembers(reg: map<string, CommandModule>, mods: seq<CommandModule>, name: string)
    ensures name in Registered(reg, mods) <==>
              name in reg || (name != "" && exists i :: 0 <= i < |mods| && NameOf(mods[i]) == name)
  {
    if mods != [] {
      var n := |mods| - 1;
      RegistryMembers(reg, mods[..n], name);
      if name != "" && NameOf(mods[n]) != name && exists i :: 0 <= i < |mods| && NameOf(mods[i]) == name {
        var i :| 0 <= i < |mods| && NameOf(mods[i]) == name;
        assert mods[..n][i] == mods[i];
      }
      if name != "" && exists i :: 0 <= i < n && NameOf(mods[..n][i]) == name {
        var i :| 0 <= i < n && NameOf(mods[..n][i]) == name;
        assert mods[..n][i] == mods[i];
      }
    }
  }

  /** The module kept under a loaded name is the last one carrying it: a later module overwrites. */
  lemma {:induction false} RegistryLastWins(reg: map<string, CommandModule>, mods: seq<CommandModule>, name: string, i: nat)
    requires i < |mods| && name != "" && NameOf(mods[i]) == name
    requires forall j :: i < j < |mods| ==> NameOf(mods[j]) != name
    ensures name in Registered(reg, mods) && Registered(reg, mods)[name] == mods[i]
  {
    var n := |mods| - 1;
    if i < n {
      assert mods[..n][i] == mods[i];
      assert forall j :: i < j < n ==> mods[..n][j] == mods[j];
      RegistryLastWins(reg, mods[..n], name, i);
    }
  }

  /** A name no loaded module carries keeps the module it was registered with. */
  lemma {:induction false} RegistryKeepsOthers(reg: map<string, CommandModule>, mods: seq<CommandModule>, name: string)
    requires name in reg
    requires forall i :: 0 <= i < |mods| ==> NameOf(mods[i]) != name
    ensures name in Registered(reg, mods) && Registered(reg, mods)[name] == reg[name]
  {
    if mods != [] {
      var n := |mods| - 1;
      assert forall i :: 0 <= i < n ==> mods[..n][i] == mods[i];
      RegistryKeepsOthers(reg, mods[..n], name);
    }
  }

  function Lookup(commands: map<string, CommandModule>, name: string): Option<CommandModule> {
    if name in commands then Some(commands[name]) else None
  }

  /** safeReply: edits when the interaction is already deferred or replied, else replies ephemerally. */
  function SafeReply(acknowledged: bool, content: string): Action {
    if acknowledged then Edit(content) else Reply(content, true)
  }

  /** `interaction?.commandName || interaction?.customId || 'N/A'` */
  function ErrorLabel(ix: Interaction): string {
    if ix.commandName != "" then ix.commandName
    else if ix.customId != "" then ix.customId
    else "N/A"
  }

  /** The kinds the listener drops outside a guild. */
  predicate GuildScoped(k: Kind) {
    k in {ChatInput, UserContextMenu, MessageContextMenu, Button, StringSelect, ModalSubmit}
  }

  /** Interactions for which the listener calls ensureGuild. */
  predicate TouchesStore(ix: Interaction) {
    GuildScoped(ix.kind) && InGuild(ix)
  }

  /** Invoking `h`; a throw is caught: one generic reply, one owner log line. */
  function Invoked(ix: Interaction, h: Handler, run: HandlerRun, onReturn: seq<Effect>): seq<Effect> {
    [Invoke(h)] +
    match run
    case Returned => onReturn
    case Threw(acknowledged, error) =>
      [Respond(SafeReply(acknowledged, GENERIC_ERROR)), LogOwner("오류: " + ErrorLabel(ix) + " " + error)]
  }

  /** The audit lines written after a chat command returns. */
  function CommandLogs(g: string, ix: Interaction): seq<Effect> {
    [LogGuild(g, "[명령어] " + ix.userTag + " → /" + ix.commandName),
     LogOwner("[" + (if ix.guildName != "" then ix.guildName else "DM") + "] " + ix.userTag + " → /" + ix.commandName)]
  }

  function CommandCallback(m: CommandModule, k: Kind): Option<Handler> {
    match k
    case Autocomplete => m.autocomplete
    case ChatInput => m.execute
    case UserContextMenu => m.contextUser
    case MessageContextMenu => m.contextMessage
    case _ => None
  }

  function Unsupported(k: Kind): string {
    match k
    case Button => UNSUPPORTED_BUTTON
    case StringSelect => UNSUPPORTED_SELECT
    case _ => UNSUPPORTED_MODAL
  }

  predicate IsComponent(k: Kind) {
    k in {Button, StringSelect, ModalSubmit}
  }

  /** The table a component kind is routed through: buttons, string selects or modals. */
  function TableOf<T>(k: Kind, buttons: T, selects: T, modals: T): T {
    if k == Button then buttons else if k == StringSelect then selects else modals
  }

  /**
   * The callback the listener resolves: by command name in the registry for
   * command kinds, by the first matching prefix of the kind's own table for
   * component kinds (a missing custom id is `""`).
   */
  function Resolve(commands: map<string, CommandModule>, buttons: seq<Route>, selects: seq<Route>, modals: seq<Route>,
                   ix: Interaction): Option<Handler>
  {
    if IsComponent(ix.kind) then
      var r := Scan(TableOf(ix.kind, buttons, selects, modals), ix.customId);
      if r.Some? then Some(r.value.handler) else None
    else
      var cmd := Lookup(commands, ix.commandName);
      if cmd.Some? then CommandCallback(cmd.value, ix.kind) else None
  }

  /** The effects of the InteractionCreate listener on one interaction. */
  function Plan(commands: map<string, CommandModule>, buttons: seq<Route>, selects: seq<Route>, modals: seq<Route>,
                ix: Interaction, run: HandlerRun): seq<Effect>
  {
    var h := Resolve(commands, buttons, selects, modals, ix);
    if ix.kind == OtherKind then []
    else if ix.kind == Autocomplete then
      if h.Some? then Invoked(ix, h.value, run, []) else []
    else if !InGuild(ix) then []
    else
      var g := ix.guildId.value;
      [EnsureGuild(g)] +
      if h.Some? then Invoked(ix, h.value, run, if ix.kind == ChatInput then CommandLogs(g, ix) else [])
      else if IsComponent(ix.kind) then [Respond(SafeReply(ix.acknowledged, Unsupported(ix.kind)))]
      else []
  }

  /** The replies and edits the listener itself sends, in order. */
  function Responses(p: seq<Effect>): seq<Action> {
    if p == [] then []
    else (if p[0].Respond? then [p[0].action] else []) + Responses(p[1..])
  }

  lemma {:induction false} ResponsesAppend(p: seq<Effect>, q: seq<Effect>)
    ensures Responses(p + q) == Responses(p) + Responses(q)
  {
    if p == [] {
      assert p + q == q;
    } else {
      assert (p + q)[0] == p[0];
      assert (p + q)[1..] == p[1..] + q;
      ResponsesAppend(p[1..], q);
      var x := if p[0].Respond? then [p[0].action] else [];
      assert Responses(p + q) == x + (Responses(p[1..]) + Responses(q));
      assert x + (Responses(p[1..]) + Responses(q)) == (x + Responses(p[1..])) + Responses(q);
    }
  }

  /** Chat, context-menu and component interactions outside a guild return before anything happens. */
  lemma NonGuildReturnsEarly(commands: map<string, CommandModule>, buttons: seq<Route>, selects: seq<Route>,
                             modals: seq<Route>, ix: Interaction, run: HandlerRun)
    requires GuildScoped(ix.kind) && !InGuild(ix)
    ensures Plan(commands, buttons, selects, modals, ix, run) == []
  {
  }

  /** Autocomplete has no guild gate and never creates guild state. */
  lemma AutocompleteIgnoresGuild(commands: map<string, CommandModule>, buttons: seq<Route>, selects: seq<Route>,
                                 modals: seq<Route>, ix: Interaction, run: HandlerRun)
    requires ix.kind == Autocomplete
    ensures Plan(commands, buttons, selects, modals, ix, run) ==
              Plan(commands, buttons, selects, modals, ix.(guildId := None), run)
    ensures forall g :: EnsureGuild(g) !in Plan(commands, buttons, selects, modals, ix, run)
  {
  }

  /**
   * A component whose custom id matches no prefix runs no handler and gets
   * exactly one fixed "unsupported" response.
   */
  lemma UnmatchedComponentRepliesOnce(commands: map<string, CommandModule>, buttons: seq<Route>,
                                      selects: seq<Route>, modals: seq<Route>, ix: Interaction, run: HandlerRun)
    requires IsComponent(ix.kind) && InGuild(ix)
    requires Scan(TableOf(ix.kind, buttons, selects, modals), ix.customId).None?
    ensures var p := Plan(commands, buttons, selects, modals, ix, run);
            && (forall h :: Invoke(h) !in p)
            && Responses(p) == [SafeReply(ix.acknowledged, Unsupported(ix.kind))]
  {
    var a := Respond(SafeReply(ix.acknowledged, Unsupported(ix.kind)));
    assert Plan(commands, buttons, selects, modals, ix, run) == [EnsureGuild(ix.guildId.value)] + [a];
    ResponsesAppend([EnsureGuild(ix.guildId.value)], [a]);
    ResponsesSingle(EnsureGuild(ix.guildId.value));
    ResponsesSingle(a);
  }

  /**
   * With every table built by registering routes in order, a button, select
   * or modal interaction in a guild invokes, right after ensureGuild, the
   * route of its kind's table with the longest matching prefix that was
   * registered first.
   */
  lemma MatchedComponentRunsLongest(commands: map<string, CommandModule>, buttonRegs: seq<Route>, selectRegs: seq<Route>,
                                    modalRegs: seq<Route>, ix: Interaction, run: HandlerRun)
    requires IsComponent(ix.kind) && InGuild(ix)
    requires BestRoute(TableOf(ix.kind, buttonRegs, selectRegs, modalRegs), ix.customId).Some?
    ensures var p := Plan(commands, SortByLength(buttonRegs), SortByLength(selectRegs), SortByLength(modalRegs), ix, run);
            && |p| >= 2 && p[0] == EnsureGuild(ix.guildId.value)
            && p[1] == Invoke(BestRoute(TableOf(ix.kind, buttonRegs, selectRegs, modalRegs), ix.customId).value.handler)
  {
    RouteIsLongestEarliest(TableOf(ix.kind, buttonRegs, selectRegs, modalRegs), ix.customId);
  }

  lemma ResponsesSingle(e: Effect)
    ensures Responses([e]) == if e.Respond? then [e.action] else []
  {
    assert Responses([e]) == (if e.Respond? then [e.action] else []) + Responses([]);
  }

  /** The responses around an invoked callback. */
  lemma InvokedResponses(ix: Interaction, h: Handler, run: HandlerRun, onReturn: seq<Effect>)
    requires Responses(onReturn) == []
    ensures Responses(Invoked(ix, h, run, onReturn)) ==
              if run.Threw? then [SafeReply(run.acknowledged, GENERIC_ERROR)] else []
  {
    ResponsesSingle(Invoke(h));
    var tail := Invoked(ix, h, run, onReturn)[1..];
    assert Invoked(ix, h, run, onReturn) == [Invoke(h)] + tail;
    ResponsesAppend([Invoke(h)], tail);
    if run.Threw? {
      var a := Respond(SafeReply(run.acknowledged, GENERIC_ERROR));
      var l := LogOwner("오류: " + ErrorLabel(ix) + " " + run.error);
      assert tail == [a] + [l];
      ResponsesAppend([a], [l]);
      ResponsesSingle(a);
      ResponsesSingle(l);
    }
  }

  lemma CommandLogsRespondNothing(g: string, ix: Interaction)
    ensures Responses(CommandLogs(g, ix)) == []
  {
    var c := CommandLogs(g, ix);
    assert c == [c[0]] + [c[1]];
    ResponsesAppend([c[0]], [c[1]]);
    ResponsesSingle(c[0]);
    ResponsesSingle(c[1]);
  }

  /**
   * When the invoked callback throws, the listener answers with exactly one
   * generic reply: an edit if the callback had acknowledged the
   * interaction, an ephemeral reply otherwise; when it returns, the listener
   * sends nothing itself.
   */
  lemma HandlerOutcomeResponses(commands: map<string, CommandModule>, buttons: seq<Route>,
                                selects: seq<Route>, modals: seq<Route>, ix: Interaction, run: HandlerRun)
    requires Resolve(commands, buttons, selects, modals, ix).Some?
    requires ix.kind == Autocomplete || TouchesStore(ix)
    ensures Responses(Plan(commands, buttons, selects, modals, ix, run)) ==
              if run.Threw? then [SafeReply(run.acknowledged, GENERIC_ERROR)] else []
  {
    var h := Resolve(commands, buttons, selects, modals, ix).value;
    if ix.kind == Autocomplete {
      InvokedResponses(ix, h, run, []);
    } else {
      var g := ix.guildId.value;
      var after := if ix.kind == ChatInput then CommandLogs(g, ix) else [];
      CommandLogsRespondNothing(g, ix);
      InvokedResponses(ix, h, run, after);
      ResponsesAppend([EnsureGuild(g)], Invoked(ix, h, run, after));
      ResponsesSingle(EnsureGuild(g));
    }
  }

  /** Audit lines are written only for a chat command whose execute returned normally. */
  lemma CommandLogsOnlyAfterReturn(commands: map<string, CommandModule>, buttons: seq<Route>, selects: seq<Route>,
                                   modals: seq<Route>, ix: Interaction, run: HandlerRun, g: string, text: string)
    requires LogGuild(g, text) in Plan(commands, buttons, selects, modals, ix, run)
    ensures ix.kind == ChatInput && run.Returned? && ix.guildId == Some(g)
    ensures var p := Plan(commands, buttons, selects, modals, ix, run);
            p[1] == Invoke(commands[ix.commandName].execute.value)
  {
  }

  /**
   * An owner-channel log line comes from one of two places only: the error
   * line of a callback that threw, or the audit line of a chat command in a
   * guild whose `execute` returned.
   */
  lemma OwnerLogSources(commands: map<string, CommandModule>, buttons: seq<Route>, selects: seq<Route>,
                        modals: seq<Route>, ix: Interaction, run: HandlerRun, text: string)
    requires LogOwner(text) in Plan(commands, buttons, selects, modals, ix, run)
    ensures || (run.Threw? && text == "오류: " + ErrorLabel(ix) + " " + run.error)
            || (ix.kind == ChatInput && run.Returned? && InGuild(ix) && text == CommandLogs(ix.guildId.value, ix)[1].content)
  {
  }

  /**
   * When the resolved callback throws, the listener ends with exactly one
   * owner-channel error line, naming the command or custom id, and logs
   * nothing else to the owner.
   */
  lemma ThrownHandlerLogsOnce(commands: map<string, CommandModule>, buttons: seq<Route>, selects: seq<Route>,
                              modals: seq<Route>, ix: Interaction, run: HandlerRun)
    requires Resolve(commands, buttons, selects, modals, ix).Some?
    requires ix.kind == Autocomplete || TouchesStore(ix)
    requires run.Threw?
    ensures var p := Plan(commands, buttons, selects, modals, ix, run);
            && |p| >= 1
            && p[|p| - 1] == LogOwner("오류: " + ErrorLabel(ix) + " " + run.error)
            && forall i :: 0 <= i < |p| - 1 ==> !p[i].LogOwner?
  {
  }

  /** A chat command whose module lacks `execute` is ignored once the guild state exists. */
  lemma MissingExecuteIgnored(commands: map<string, CommandModule>, buttons: seq<Route>, selects: seq<Route>,
                              modals: seq<Route>, ix: Interaction, run: HandlerRun)
    requires ix.kind == ChatInput && InGuild(ix)
    requires ix.commandName !in commands || commands[ix.commandName].execute.None?
    ensures Plan(commands, buttons, selects, modals, ix, run) == [EnsureGuild(ix.guildId.value)]
  {
  }

  /** Loading one more module: the registry, schemas and registrations grow by that module's part. */
  lemma LoadStep(reg: map<string, CommandModule>, mods: seq<CommandModule>, i: nat)
    requires i < |mods|
    ensures var m := mods[i];
            && Registered(reg, mods[..i + 1]) ==
                 (if NameOf(m) != "" then Registered(reg, mods[..i])[NameOf(m) := m] else Registered(reg, mods[..i]))
            && Schemas(mods[..i + 1]) ==
                 Schemas(mods[..i]) + (if NameOf(m) != "" && m.data.value.toJson.Some? then [m.data.value.toJson.value] else [])
  {
    assert mods[..i + 1][..i] == mods[..i];
    assert mods[..i + 1] == mods[..i] + [mods[i]];
    SchemasOfOne(mods[..i], mods[i]);
  }

  /**
   * Loading one more module appends that module's accepted routes to a
   * table's registrations: `regs`, the registrations of the first `i`
   * modules, becomes `after`, those of the first `i + 1`.
   */
  lemma AllAcceptedStep(before: seq<Route>, mods: seq<CommandModule>, i: nat, t: Table, regs: seq<Route>, after: seq<Route>)
    requires i < |mods|
    requires regs == before + AllAccepted(mods[..i], t)
    requires after == regs + Accepted(ExportOf(mods[i], t))
    ensures after == before + AllAccepted(mods[..i + 1], t)
  {
    assert mods[..i + 1][..i] == mods[..i];
    var a := AllAccepted(mods[..i], t);
    var b := Accepted(ExportOf(mods[i], t));
    assert AllAccepted(mods[..i + 1], t) == a + b;
    assert before + (a + b) == (before + a) + b;
  }

  /** registerComponentMap keeps a table equal to its registrations, stably sorted. */
  lemma RegisterKeepsSorted(regs: seq<Route>, exported: Export, before: seq<Route>, after: seq<Route>)
    requires before == SortByLength(regs)
    requires exported.NotAnObject? ==> after == before
    requires exported.Entries? ==> after == SortByLength(before + Accepted(exported))
    ensures after == SortByLength(regs + Accepted(exported))
  {
    if exported.NotAnObject? {
      assert regs + Accepted(exported) == regs;
    } else {
      SortAppend(regs, Accepted(exported));
    }
  }

  /** The client's registry, component tables and store. */
  class Bot {
    var commands: map<string, CommandModule>
    var buttons: seq<Route>
    var selects: seq<Route>
    var modals: seq<Route>
    /** Every route accepted into each table, in registration order. */
    ghost var buttonRegs: seq<Route>
    ghost var selectRegs: seq<Route>
    ghost var modalRegs: seq<Route>
    const store: Storage.Store

    /** Each table is its registrations, stably sorted by descending prefix length. */
    ghost predicate Valid()
      reads this`buttons, this`selects, this`modals, this`buttonRegs, this`selectRegs, this`modalRegs
    {
      && buttons == SortByLength(buttonRegs)
      && selects == SortByLength(selectRegs)
      && modals == SortByLength(modalRegs)
    }

    constructor (store: Storage.Store)
      ensures Valid() && this.store == store
      ensures commands == map[] && buttonRegs == [] && selectRegs == [] && modalRegs == []
    {
      this.store := store;
      commands := map[];
      buttons, selects, modals := [], [], [];
      buttonRegs, selectRegs, modalRegs := [], [], [];
    }

    /**
     * The registry step of loadCommands: registers every named module (a
     * later one with the same name overwrites), collects the schemas to
     * submit, and fills each table from its own export only.
     */
    method LoadCommands(mods: seq<CommandModule>) returns (body: seq<Value>)
      requires Valid()
      modifies this
      ensures Valid()
      ensures commands == Registered(old(commands), mods)
      ensures body == Schemas(mods)
      ensures buttonRegs == old(buttonRegs) + AllAccepted(mods, Buttons)
      ensures selectRegs == old(selectRegs) + AllAccepted(mods, Selects)
      ensures modalRegs == old(modalRegs) + AllAccepted(mods, Modals)
    {
      body := [];
      var i := 0;
      while i < |mods|
        invariant 0 <= i <= |mods|
        invariant Valid()
        invariant commands == Registered(old(commands), mods[..i])
        invariant body == Schemas(mods[..i])
        invariant buttonRegs == old(buttonRegs) + AllAccepted(mods[..i], Buttons)
        invariant selectRegs == old(selectRegs) + AllAccepted(mods[..i], Selects)
        invariant modalRegs == old(modalRegs) + AllAccepted(mods[..i], Modals)
      {
        var schema := RegisterCommand(mods, i, old(commands));
        FillTables(mods, i, old(buttonRegs), old(selectRegs), old(modalRegs));
        body := body + schema;
        i := i + 1;
      }
      assert mods[..i] == mods;
    }

    /**
     * The registry part of one loadCommands iteration: module `i` is
     * registered under its name, if it has one, and its schema returned.
     */
    method RegisterCommand(mods: seq<CommandModule>, i: nat, ghost reg: map<string, CommandModule>)
      returns (schema: seq<Value>)
      requires i < |mods|
      requires commands == Registered(reg, mods[..i])
      modifies this`commands
      ensures commands == Registered(reg, mods[..i + 1])
      ensures Schemas(mods[..i + 1]) == Schemas(mods[..i]) + schema
    {
      var mod := mods[i];
      LoadStep(reg, mods, i);
      schema := [];
      if NameOf(mod) != "" {
        commands := commands[NameOf(mod) := mod];
        if mod.data.value.toJson.Some? {
          schema := [mod.data.value.toJson.value];
        }
      }
    }

    /**
     * The component part of one loadCommands iteration. `b`, `s` and `m`
     * are the registrations before the loop.
     */
    method FillTables(mods: seq<CommandModule>, i: nat, ghost b: seq<Route>, ghost s: seq<Route>, ghost m: seq<Route>)
      requires i < |mods| && Valid()
      requires buttonRegs == b + AllAccepted(mods[..i], Buttons)
      requires selectRegs == s + AllAccepted(mods[..i], Selects)
      requires modalRegs == m + AllAccepted(mods[..i], Modals)
      modifies this`buttons, this`selects, this`modals, this`buttonRegs, this`selectRegs, this`modalRegs
      ensures Valid()
      ensures buttonRegs == b + AllAccepted(mods[..i + 1], Buttons)
      ensures selectRegs == s + AllAccepted(mods[..i + 1], Selects)
      ensures modalRegs == m + AllAccepted(mods[..i + 1], Modals)
    {
      ghost var b0, s0, m0 := buttonRegs, selectRegs, modalRegs;
      RegisterComponents(mods[i]);
      AllAcceptedStep(b, mods, i, Buttons, b0, buttonRegs);
      AllAcceptedStep(s, mods, i, Selects, s0, selectRegs);
      AllAcceptedStep(m, mods, i, Modals, m0, modalRegs);
    }

    /** The three registerComponentMap calls for one module, each table from its own export. */
    method RegisterComponents(m: CommandModule)
      requires Valid()
      modifies this`buttons, this`selects, this`modals, this`buttonRegs, this`selectRegs, this`modalRegs
      ensures Valid()
      ensures buttonRegs == old(buttonRegs) + Accepted(m.buttons)
      ensures selectRegs == old(selectRegs) + Accepted(m.selects)
      ensures modalRegs == old(modalRegs) + Accepted(m.modals)
    {
      var t := RegisterComponentMap(buttons, m.buttons);
      RegisterKeepsSorted(buttonRegs, m.buttons, buttons, t);
      buttons, buttonRegs := t, buttonRegs + Accepted(m.buttons);
      t := RegisterComponentMap(selects, m.selects);
      RegisterKeepsSorted(selectRegs, m.selects, selects, t);
      selects, selectRegs := t, selectRegs + Accepted(m.selects);
      t := RegisterComponentMap(modals, m.modals);
      RegisterKeepsSorted(modalRegs, m.modals, modals, t);
      modals, modalRegs := t, modalRegs + Accepted(m.modals);
    }

    /** The InteractionCreate listener on one interaction. */
    method Dispatch(ix: Interaction, run: HandlerRun) returns (trace: seq<Effect>)
      requires Valid()
      modifies store
      ensures trace == Plan(commands, buttons, selects, modals, ix, run)
      ensures var regs := TableOf(ix.kind, buttonRegs, selectRegs, modalRegs);
              IsComponent(ix.kind) && InGuild(ix) && BestRoute(regs, ix.customId).Some? ==>
                |trace| >= 2 && trace[1] == Invoke(BestRoute(regs, ix.customId).value.handler)
      ensures store.files == if TouchesStore(ix) then Storage.Ensured(old(store.files), ix.guildId.value)
                             else old(store.files)
    {
      if IsComponent(ix.kind) && InGuild(ix) && BestRoute(TableOf(ix.kind, buttonRegs, selectRegs, modalRegs), ix.customId).Some? {
        MatchedComponentRunsLongest(commands, buttonRegs, selectRegs, modalRegs, ix, run);
      }
      if ix.kind == OtherKind {
        return [];
      }
      if ix.kind == Autocomplete {
        var cmd := Lookup(commands, ix.commandName);
        if cmd.Some? && cmd.value.autocomplete.Some? {
          trace := Invoked(ix, cmd.value.autocomplete.value, run, []);
        } else {
          trace := [];
        }
        return;
      }
      if !InGuild(ix) {
        return [];
      }
      var g := ix.guildId.value;
      var _, _ := store.EnsureGuild(g);
      trace := [EnsureGuild(g)];
      var h: Option<Handler> := None;
      if IsComponent(ix.kind) {
        var route := FindRoute(TableOf(ix.kind, buttons, selects, modals), ix.customId);
        if route.Some? {
          h := Some(route.value.handler);
        }
      } else {
        var cmd := Lookup(commands, ix.commandName);
        if cmd.Some? {
          h := CommandCallback(cmd.value, ix.kind);
        }
      }
      if h.Some? {
        trace := trace + Invoked(ix, h.value, run, if ix.kind == ChatInput then CommandLogs(g, ix) else []);
      } else if IsComponent(ix.kind) {
        trace := trace + [Respond(SafeReply(ix.acknowledged, Unsupported(ix.kind)))];
      }
    }
  }
}

/**
 * The bot admin panel of utils/bot-admin-panel.js: a message with four
 * buttons in one fixed channel of one fixed guild, whose state lives in that
 * guild's `admin_panel.json`. The button handler gates the interaction, maps
 * the button id to a shell command, records progress and outcome by merging
 * into the stored record, and reports the command's output.
 */
module AdminPanel {
  import opened Js
  import opened Discord
  import opened Storage

  const TARGET_GUILD_ID := "1432591543943827539"
  const TARGET_CHANNEL_ID := "1432592402786291732"
  const STORE_FILE := "admin_panel.json"
  const PANEL_KEY := FileKey(TARGET_GUILD_ID, STORE_FILE)
  const ID_PREFIX := "botctl:"

  /** `PermissionsBitField.Flags.Administrator`, bit 3. */
  const ADMINISTRATOR: nat := 8

  const MESSAGE_ID := "messageId"
  const CHANNEL_ID := "channelId"
  const LAST_ACTION := "lastAction"
  const LAST_STATUS := "lastStatus"
  const UPDATED_AT := "updatedAt"

  const IN_PROGRESS := "진행 중"
  const SUCCESS := "success"
  const ERROR := "error"

  const SUCCESS_COLOR := 0x22c55e
  const ERROR_COLOR := 0xef4444
  const NEUTRAL_COLOR := 0x3b82f6

  const REPORT_LIMIT: nat := 1800
  const FENCE := "```"
  const NO_OUTPUT := "(출력 없음)"

  const DENIED := "관리자만 사용할 수 있습니다."
  const REFRESHED := "패널을 새로고침했습니다."
  const UNKNOWN := "알 수 없는 작업입니다."

  /** `memberPermissions?.has(Administrator)`: the Administrator bit is set. */
  predicate IsAdmin(perms: Option<nat>) {
    perms.Some? && (perms.value / ADMINISTRATOR) % 2 == 1
  }

  datatype Verdict = Ignore | Deny | Accept

  /** The early returns of the handler, then the administrator check. */
  function Gate(ix: Interaction): (v: Verdict)
    ensures v != Ignore <==>
              ix.kind == Button && ix.guildId == Some(TARGET_GUILD_ID) && ix.channelId == TARGET_CHANNEL_ID
              && StartsWith(ix.customId, ID_PREFIX)
    ensures v == Accept <==> v != Ignore && IsAdmin(ix.memberPermissions)
  {
    if ix.kind != Button then Ignore
    else if !InGuild(ix) then Ignore
    else if ix.guildId.value != TARGET_GUILD_ID then Ignore
    else if ix.channelId != TARGET_CHANNEL_ID then Ignore
    else if !StartsWith(ix.customId, ID_PREFIX) then Ignore
    else if !IsAdmin(ix.memberPermissions) then Deny
    else Accept
  }

  /** What a `botctl:` button asks for: a task with its label and shell command, a refresh, or nothing known. */
  datatype Job = Task(action: string, command: string) | Refresh | Unknown

  function JobFor(id: string): Job {
    if id == "botctl:gitpull" then Task("봇 업데이트 (git pull origin main)", "git pull origin main")
    else if id == "botctl:deploy" then Task("봇 명령어 업데이트 (node deploy-commands.js)", "node deploy-commands.js")
    else if id == "botctl:restart" then Task("봇 재시작 (pm2 restart index.js)", "pm2 restart kkaribot")
    else if id == "botctl:refresh" then Refresh
    else Unknown
  }

  /** Exactly the four button ids of the panel are known; only three of them run a command. */
  lemma JobMapping(id: string)
    ensures JobFor(id).Task? <==> id in {"botctl:gitpull", "botctl:deploy", "botctl:restart"}
    ensures JobFor(id).Refresh? <==> id == "botctl:refresh"
    ensures JobFor("botctl:gitpull").command == "git pull origin main"
    ensures JobFor("botctl:deploy").command == "node deploy-commands.js"
    ensures JobFor("botctl:restart").command == "pm2 restart kkaribot"
  {
  }

  datatype Embed = Embed(title: string, description: string, color: int, fields: seq<(string, Value)>)

  /** `state?.[key] || '-'` */
  function FieldOr(state: Value, key: string): (r: Value)
    ensures Prop(state, key).Some? && Truthy(Prop(state, key).value) ==> r == state.fields[key]
    ensures !(Prop(state, key).Some? && Truthy(Prop(state, key).value)) ==> r == Str("-")
  {
    var v := Prop(state, key);
    if v.Some? && Truthy(v.value) then v.value else Str("-")
  }

  /** buildEmbed: the colour from `lastStatus`, the three state fields with `-` for missing ones. */
  function BuildEmbed(state: Value): Embed {
    var status := Prop(state, LAST_STATUS);
    var color := if status == Some(Str(SUCCESS)) then SUCCESS_COLOR
                 else if status == Some(Str(ERROR)) then ERROR_COLOR
                 else NEUTRAL_COLOR;
    Embed("봇 관리 패널", "서버 관리 전용 패널입니다.", color,
          [("대상 서버", Str(TARGET_GUILD_ID)), ("대상 채널", Str(TARGET_CHANNEL_ID)),
           ("마지막 작업", FieldOr(state, LAST_ACTION)), ("결과", FieldOr(state, LAST_STATUS)),
           ("업데이트 시간", FieldOr(state, UPDATED_AT))])
  }

  /** Green exactly for the status `success`, red exactly for `error`, blue otherwise. */
  lemma EmbedColour(state: Value)
    ensures BuildEmbed(state).color == SUCCESS_COLOR <==> state.Obj? && LAST_STATUS in state.fields && state.fields[LAST_STATUS] == Str(SUCCESS)
    ensures BuildEmbed(state).color == ERROR_COLOR <==> state.Obj? && LAST_STATUS in state.fields && state.fields[LAST_STATUS] == Str(ERROR)
    ensures BuildEmbed(state).color in {SUCCESS_COLOR, ERROR_COLOR, NEUTRAL_COLOR}
  {
  }

  /** `(stdout || '').trim()` and `(stderr || '').trim()` arranged into the report body. */
  function OutputBody(stdout: string, stderr: string): string {
    var out := Trim(stdout);
    var err := Trim(stderr);
    (if out != "" then "STDOUT:\n" + out + "\n" else "") + (if err != "" then "\nSTDERR:\n" + err + "\n" else "")
  }

  /** The reply after a successful command: at most 1800 characters of the body, or a placeholder. */
  function SuccessReport(action: string, stdout: string, stderr: string): string {
    var shown := Slice(OutputBody(stdout, stderr), REPORT_LIMIT);
    "완료: " + action + "\n" + FENCE + "\n" + (if shown != "" then shown else NO_OUTPUT) + "\n" + FENCE
  }

  /** How `runTask` ends: the command's output, or the rejection of `exec`. */
  datatype TaskRun = Succeeded(stdout: string, stderr: string) | Failed(stderr: string, stdout: string, text: string)

  /** `(err?.stderr || err?.stdout || String(err) || '').slice(0, 1800)` */
  function FailureText(stderr: string, stdout: string, text: string): (r: string)
    ensures |r| <= REPORT_LIMIT
    ensures stderr != "" ==> r == Slice(stderr, REPORT_LIMIT)
    ensures stderr == "" && stdout != "" ==> r == Slice(stdout, REPORT_LIMIT)
    ensures stderr == "" && stdout == "" ==> r == Slice(text, REPORT_LIMIT)
  {
    Slice(if stderr != "" then stderr else if stdout != "" then stdout else text, REPORT_LIMIT)
  }

  function FailureReport(stderr: string, stdout: string, text: string): string {
    "실패\n" + FENCE + "\n" + FailureText(stderr, stdout, text) + "\n" + FENCE
  }

  /** The STDOUT section is there exactly when the trimmed stdout is non-empty, and it comes first. */
  lemma StdoutSection(stdout: string, stderr: string)
    ensures Trim(stdout) != "" ==> StartsWith(OutputBody(stdout, stderr), "STDOUT:\n" + Trim(stdout) + "\n")
    ensures Trim(stdout) == "" ==> !StartsWith(OutputBody(stdout, stderr), "STDOUT:")
  {
    var body := OutputBody(stdout, stderr);
    var head := "STDOUT:\n" + Trim(stdout) + "\n";
    if Trim(stdout) != "" {
      assert body == head + (if Trim(stderr) != "" then "\nSTDERR:\n" + Trim(stderr) + "\n" else "");
      assert body[..|head|] == head;
    } else if Trim(stderr) != "" {
      assert body[0] == '\n';
    }
  }

  /** The STDERR section is there exactly when the trimmed stderr is non-empty, and it comes last. */
  lemma StderrSection(stdout: string, stderr: string)
    ensures Trim(stderr) != "" ==> EndsWith(OutputBody(stdout, stderr), "\nSTDERR:\n" + Trim(stderr) + "\n")
    ensures Trim(stderr) == "" ==> OutputBody(stdout, stderr) == (if Trim(stdout) != "" then "STDOUT:\n" + Trim(stdout) + "\n" else "")
  {
    var body := OutputBody(stdout, stderr);
    var tail := "\nSTDERR:\n" + Trim(stderr) + "\n";
    if Trim(stderr) != "" {
      var head := if Trim(stdout) != "" then "STDOUT:\n" + Trim(stdout) + "\n" else "";
      assert body == head + tail;
      assert body[|body| - |tail|..] == tail;
    }
  }

  /** An empty body shows `(출력 없음)`; otherwise at most 1800 characters of it are shown. */
  lemma SuccessReportShape(action: string, stdout: string, stderr: string)
    ensures var head := "완료: " + action + "\n" + FENCE + "\n";
            && (Trim(stdout) == "" && Trim(stderr) == "" ==> SuccessReport(action, stdout, stderr) == head + NO_OUTPUT + "\n" + FENCE)
            && |SuccessReport(action, stdout, stderr)| <= |head| + REPORT_LIMIT + 4
  {
    StderrSection(stdout, stderr);
    var shown := Slice(OutputBody(stdout, stderr), REPORT_LIMIT);
    if Trim(stdout) != "" {
      assert |OutputBody(stdout, stderr)| > 0;
    }
  }

  /** The stored files and the panel channel's messages (message id to embed shown). */
  datatype World = World(files: Files, messages: map<string, Embed>)

  /** `readGuildJSON(TARGET_GUILD_ID, STORE_FILE, {})` after ensureGuild. */
  function PanelRecord(files: Files): Value {
    ReadJSON(Ensured(files, TARGET_GUILD_ID), PANEL_KEY, EMPTY_OBJECT)
  }

  /** `{ ...state, messageId, channelId }` for a newly sent panel message. */
  function Recreated(state: Value, messageId: string): Value {
    Obj(Merge(Spread(state), map[MESSAGE_ID := Str(messageId), CHANNEL_ID := Str(TARGET_CHANNEL_ID)]))
  }

  /** The stored message id still names a message of the channel. */
  predicate Resolves(state: Value, messages: map<string, Embed>) {
    var mid := Prop(state, MESSAGE_ID);
    mid.Some? && mid.value.Str? && mid.value.s != "" && mid.value.s in messages
  }

  datatype Ensure = Ensure(world: World, message: Result<Option<string>>)

  /**
   * ensurePanelMessage: nothing when the guild or channel cannot be
   * fetched; the stored message when it still resolves; otherwise a new
   * message, whose id is `newId`, recorded in the store. Reading
   * `state.messageId` of a `null` record throws.
   */
  function EnsureSpec(w: World, reachable: bool, newId: string): Ensure {
    var files := Ensured(w.files, TARGET_GUILD_ID);
    var state := ReadJSON(files, PANEL_KEY, EMPTY_OBJECT);
    if !reachable then Ensure(World(files, w.messages), Ok(None))
    else if state.Null? then Ensure(World(files, w.messages), TypeError)
    else if Resolves(state, w.messages) then Ensure(World(files, w.messages), Ok(Some(Prop(state, MESSAGE_ID).value.s)))
    else Ensure(World(files[PANEL_KEY := Recreated(state, newId)], w.messages[newId := BuildEmbed(state)]), Ok(Some(newId)))
  }

  /** `{ ...prev, ...partial }` */
  function Merged(prev: Value, partial: map<string, Value>): Value {
    Obj(Merge(Spread(prev), partial))
  }

  /**
   * updatePanelMessage: merges `partial` into the stored record, makes sure
   * the panel message exists, and shows the merged record on it.
   */
  function Update(w: World, reachable: bool, partial: map<string, Value>, newId: string): World {
    var next := Merged(PanelRecord(w.files), partial);
    var e := EnsureSpec(World(Ensured(w.files, TARGET_GUILD_ID)[PANEL_KEY := next], w.messages), reachable, newId);
    if e.message.Ok? && e.message.value.Some? then World(e.world.files, e.world.messages[e.message.value.value := BuildEmbed(next)])
    else e.world
  }

  datatype Handled = Handled(world: World, acts: seq<Action>, ran: Option<string>)

  /**
   * The InteractionCreate listener of the panel, on one interaction: the
   * task's outcome and the timestamps `started` and `finished` are inputs.
   */
  function Handle(w: World, reachable: bool, ix: Interaction, run: TaskRun, started: string, finished: string, newId: string): Handled {
    match Gate(ix)
    case Ignore => Handled(w, [], None)
    case Deny => Handled(w, [Reply(DENIED, true)], None)
    case Accept => HandleJob(w, reachable, ix.customId, run, started, finished, newId)
  }

  /** An administrator's press of the button `id`: the reply is deferred, then the job is done. */
  function HandleJob(w: World, reachable: bool, id: string, run: TaskRun, started: string, finished: string, newId: string): Handled {
    match JobFor(id)
    case Unknown => Handled(w, [Defer(true), Edit(UNKNOWN)], None)
    case Refresh => Handled(Refreshed(w, reachable, started, newId), [Defer(true), Edit(REFRESHED)], None)
    case Task(action, command) =>
      Handled(AfterTask(w, reachable, action, run, started, finished, newId),
              [Defer(true), Edit(TaskReport(action, run))], Some(command))
  }

  /** The refresh button only renews `updatedAt`. */
  function Refreshed(w: World, reachable: bool, started: string, newId: string): World {
    Update(w, reachable, map[UPDATED_AT := Str(started)], newId)
  }

  /** The status written once the command has ended. */
  function Outcome(run: TaskRun): string {
    if run.Succeeded? then SUCCESS else ERROR
  }

  function TaskReport(action: string, run: TaskRun): string {
    match run
    case Succeeded(stdout, stderr) => SuccessReport(action, stdout, stderr)
    case Failed(stderr, stdout, text) => FailureReport(stderr, stdout, text)
  }

  /** The two record updates around a task: label and `진행 중` first, then the outcome. */
  function AfterTask(w: World, reachable: bool, action: string, run: TaskRun, started: string, finished: string, newId: string): World {
    var w1 := Update(w, reachable, map[LAST_ACTION := Str(action), LAST_STATUS := Str(IN_PROGRESS), UPDATED_AT := Str(started)], newId);
    Update(w1, reachable, map[LAST_STATUS := Str(Outcome(run)), UPDATED_AT := Str(finished)], newId)
  }

  /** The panel record is stored under the target guild, apart from the files ensureGuild creates. */
  lemma PanelKeyDistinct()
    ensures PANEL_KEY != FileKey(TARGET_GUILD_ID, USERS) && PANEL_KEY != FileKey(TARGET_GUILD_ID, SETTINGS)
  {
    assert STORE_FILE[0] == 'a' && USERS[0] == 'u' && SETTINGS[0] == 's';
  }

  /**
   * After updatePanelMessage the stored record holds every key of `partial`
   * and every other key of the previous record, except that `messageId` and
   * `channelId` may be renewed when the panel message had to be re-sent.
   */
  lemma UpdateMerges(w: World, reachable: bool, partial: map<string, Value>, newId: string, k: string)
    requires k != MESSAGE_ID && k != CHANNEL_ID
    ensures var after := PanelRecord(Update(w, reachable, partial, newId).files);
            && after.Obj?
            && Prop(after, k) == if k in partial then Some(partial[k]) else Prop(PanelRecord(w.files), k)
  {
    PanelKeyDistinct();
    var next := Merged(PanelRecord(w.files), partial);
    var written := Ensured(w.files, TARGET_GUILD_ID)[PANEL_KEY := next];
    assert Ensured(written, TARGET_GUILD_ID)[PANEL_KEY] == next;
    var e := EnsureSpec(World(written, w.messages), reachable, newId);
    assert PANEL_KEY in e.world.files;
    assert e.world.files[PANEL_KEY] == next || e.world.files[PANEL_KEY] == Recreated(next, newId);
    assert PanelRecord(Update(w, reachable, partial, newId).files) == e.world.files[PANEL_KEY];
  }

  /**
   * When the channel can be reached (a sent message's id is a non-empty
   * snowflake), after updatePanelMessage the stored
   * message id names a message of the channel, and that message shows the
   * merged record.
   */
  lemma UpdateShowsRecord(w: World, reachable: bool, partial: map<string, Value>, newId: string)
    requires reachable && newId != ""
    ensures var after := Update(w, reachable, partial, newId);
            var record := PanelRecord(after.files);
            && Resolves(record, after.messages)
            && after.messages[Prop(record, MESSAGE_ID).value.s] == BuildEmbed(Merged(PanelRecord(w.files), partial))
  {
    PanelKeyDistinct();
    var next := Merged(PanelRecord(w.files), partial);
    var written := Ensured(w.files, TARGET_GUILD_ID)[PANEL_KEY := next];
    assert Ensured(written, TARGET_GUILD_ID)[PANEL_KEY] == next;
    var e := EnsureSpec(World(written, w.messages), reachable, newId);
    assert PanelRecord(Update(w, reachable, partial, newId).files) == e.world.files[PANEL_KEY];
    if !Resolves(next, w.messages) {
      assert e.world.files[PANEL_KEY] == Recreated(next, newId);
      assert Prop(Recreated(next, newId), MESSAGE_ID) == Some(Str(newId));
    }
  }

  /** A record with `lastAction` and `lastStatus` as given. */
  predicate Shows(record: Value, action: string, status: string) {
    Prop(record, LAST_ACTION) == Some(Str(action)) && Prop(record, LAST_STATUS) == Some(Str(status))
  }

  /**
   * A task first records its label with the status `진행 중`, then exactly
   * one of `success` or `error` according to how the command ended, with the
   * label unchanged.
   */
  lemma TaskStatuses(w: World, reachable: bool, ix: Interaction, run: TaskRun, started: string, finished: string, newId: string)
    requires Gate(ix) == Accept && JobFor(ix.customId).Task?
    ensures var action := JobFor(ix.customId).action;
            var w1 := Update(w, reachable, map[LAST_ACTION := Str(action), LAST_STATUS := Str(IN_PROGRESS), UPDATED_AT := Str(started)], newId);
            var h := Handle(w, reachable, ix, run, started, finished, newId);
            && Shows(PanelRecord(w1.files), action, IN_PROGRESS)
            && Shows(PanelRecord(h.world.files), action, Outcome(run))
            && h.ran == Some(JobFor(ix.customId).command)
  {
    var action := JobFor(ix.customId).action;
    var p1 := map[LAST_ACTION := Str(action), LAST_STATUS := Str(IN_PROGRESS), UPDATED_AT := Str(started)];
    var w1 := Update(w, reachable, p1, newId);
    UpdateMerges(w, reachable, p1, newId, LAST_ACTION);
    UpdateMerges(w, reachable, p1, newId, LAST_STATUS);
    var p2 := map[LAST_STATUS := Str(Outcome(run)), UPDATED_AT := Str(finished)];
    UpdateMerges(w1, reachable, p2, newId, LAST_ACTION);
    UpdateMerges(w1, reachable, p2, newId, LAST_STATUS);
  }

  /** Ignored and denied interactions run nothing and change neither the store nor the channel. */
  lemma RejectedChangesNothing(w: World, reachable: bool, ix: Interaction, run: TaskRun, started: string, finished: string, newId: string)
    requires Gate(ix) != Accept
    ensures var h := Handle(w, reachable, ix, run, started, finished, newId);
            && h.world == w && h.ran == None
            && (h.acts == [] <==> Gate(ix) == Ignore)
            && (Gate(ix) == Deny ==> h.acts == [Reply(DENIED, true)])
  {
  }

  /** ensurePanelMessage touches only files of the target guild. */
  lemma EnsureFrame(w: World, reachable: bool, newId: string, k: FileKey)
    requires k.guild != TARGET_GUILD_ID
    ensures var after := EnsureSpec(w, reachable, newId).world.files;
            (k in after <==> k in w.files) && (k in after ==> after[k] == w.files[k])
  {
  }

  lemma UpdateFrame(w: World, reachable: bool, partial: map<string, Value>, newId: string, k: FileKey)
    requires k.guild != TARGET_GUILD_ID
    ensures var after := Update(w, reachable, partial, newId).files;
            (k in after <==> k in w.files) && (k in after ==> after[k] == w.files[k])
  {
    var next := Merged(PanelRecord(w.files), partial);
    EnsureFrame(World(Ensured(w.files, TARGET_GUILD_ID)[PANEL_KEY := next], w.messages), reachable, newId, k);
  }

  /** The panel never touches the files of any other guild. */
  lemma HandleTouchesOnlyTargetGuild(w: World, reachable: bool, ix: Interaction, run: TaskRun, started: string, finished: string, newId: string, k: FileKey)
    requires k.guild != TARGET_GUILD_ID
    ensures var after := Handle(w, reachable, ix, run, started, finished, newId).world.files;
            (k in after <==> k in w.files) && (k in after ==> after[k] == w.files[k])
  {
    if Gate(ix) == Accept {
      match JobFor(ix.customId)
      case Unknown =>
      case Refresh =>
        UpdateFrame(w, reachable, map[UPDATED_AT := Str(started)], newId, k);
        assert Refreshed(w, reachable, started, newId) == Update(w, reachable, map[UPDATED_AT := Str(started)], newId);
      case Task(action, _) =>
        var p1 := map[LAST_ACTION := Str(action), LAST_STATUS := Str(IN_PROGRESS), UPDATED_AT := Str(started)];
        UpdateFrame(w, reachable, p1, newId, k);
        var w1 := Update(w, reachable, p1, newId);
        UpdateFrame(w1, reachable, map[LAST_STATUS := Str(Outcome(run)), UPDATED_AT := Str(finished)], newId, k);
    }
  }

  /**
   * ensurePanelMessage reuses a stored message id that still resolves and
   * writes nothing beyond ensureGuild's defaults; otherwise, when the
   * channel is reachable, it records the new message's id and the channel
   * id and keeps every other field.
   */
  lemma EnsureReuseOrRecreate(w: World, reachable: bool, newId: string, k: string)
    requires reachable && !PanelRecord(w.files).Null?
    requires k != MESSAGE_ID && k != CHANNEL_ID
    ensures var state := PanelRecord(w.files);
            var e := EnsureSpec(w, reachable, newId);
            && (Resolves(state, w.messages) ==>
                  e.world == World(Ensured(w.files, TARGET_GUILD_ID), w.messages)
                  && e.message == Ok(Some(Prop(state, MESSAGE_ID).value.s)))
            && (!Resolves(state, w.messages) ==>
                  var record := e.world.files[PANEL_KEY];
                  && e.message == Ok(Some(newId))
                  && Prop(record, MESSAGE_ID) == Some(Str(newId))
                  && Prop(record, CHANNEL_ID) == Some(Str(TARGET_CHANNEL_ID))
                  && Prop(record, k) == Prop(state, k))
  {
  }

  /** The panel as one bot process runs it: the store, and the channel's messages. */
  class Panel {
    const store: Store
    /** Whether the target guild and a text channel with the target id can be fetched. */
    const reachable: bool
    var messages: map<string, Embed>

    constructor (store: Store, reachable: bool, messages: map<string, Embed>)
      ensures this.store == store && this.reachable == reachable && this.messages == messages
    {
      this.store := store;
      this.reachable := reachable;
      this.messages := messages;
    }

    function State(): World
      reads this, store
    {
      World(store.files, messages)
    }

    method EnsurePanelMessage(newId: string) returns (r: Result<Option<string>>)
      modifies this, store
      ensures Ensure(State(), r) == EnsureSpec(old(State()), reachable, newId)
    {
      var _, _ := store.EnsureGuild(TARGET_GUILD_ID);
      var state := store.ReadGuildJSON(TARGET_GUILD_ID, STORE_FILE, EMPTY_OBJECT);
      EnsureGuildIdempotent(old(store.files), TARGET_GUILD_ID);
      if !reachable {
        return Ok(None);
      }
      if state.Null? {
        return TypeError;
      }
      var mid := Prop(state, MESSAGE_ID);
      if mid.Some? && mid.value.Str? && mid.value.s != "" && mid.value.s in messages {
        return Ok(Some(mid.value.s));
      }
      messages := messages[newId := BuildEmbed(state)];
      var _ := store.WriteGuildJSON(TARGET_GUILD_ID, STORE_FILE, Recreated(state, newId));
      r := Ok(Some(newId));
    }

    method UpdatePanelMessage(partial: map<string, Value>, newId: string) returns (next: Value)
      modifies this, store
      ensures next == Merged(PanelRecord(old(store.files)), partial)
      ensures State() == Update(old(State()), reachable, partial, newId)
    {
      var _, _ := store.EnsureGuild(TARGET_GUILD_ID);
      var prev := store.ReadGuildJSON(TARGET_GUILD_ID, STORE_FILE, EMPTY_OBJECT);
      EnsureGuildIdempotent(old(store.files), TARGET_GUILD_ID);
      next := Merged(prev, partial);
      var _ := store.WriteGuildJSON(TARGET_GUILD_ID, STORE_FILE, next);
      var msg := EnsurePanelMessage(newId);
      if msg.Ok? && msg.value.Some? {
        messages := messages[msg.value.value := BuildEmbed(next)];
      }
    }

    /** The panel's InteractionCreate listener. */
    method HandleButton(ix: Interaction, run: TaskRun, started: string, finished: string, newId: string)
      returns (acts: seq<Action>, ran: Option<string>)
      modifies this, store
      ensures Handled(State(), acts, ran) == Handle(old(State()), reachable, ix, run, started, finished, newId)
    {
      if ix.kind != Button || !InGuild(ix) || ix.guildId.value != TARGET_GUILD_ID || ix.channelId != TARGET_CHANNEL_ID {
        return [], None;
      }
      var id := ix.customId;
      if !StartsWith(id, ID_PREFIX) {
        return [], None;
      }
      if !IsAdmin(ix.memberPermissions) {
        return [Reply(DENIED, true)], None;
      }
      acts, ran := HandleJobOf(id, run, started, finished, newId);
    }

    /** The part of the listener after the gates, inside its `try`. */
    method HandleJobOf(id: string, run: TaskRun, started: string, finished: string, newId: string)
      returns (acts: seq<Action>, ran: Option<string>)
      modifies this, store
      ensures Handled(State(), acts, ran) == HandleJob(old(State()), reachable, id, run, started, finished, newId)
    {
      var action := "";
      var command := "";
      if id == "botctl:gitpull" {
        action, command := "봇 업데이트 (git pull origin main)", "git pull origin main";
      } else if id == "botctl:deploy" {
        action, command := "봇 명령어 업데이트 (node deploy-commands.js)", "node deploy-commands.js";
      } else if id == "botctl:restart" {
        action, command := "봇 재시작 (pm2 restart index.js)", "pm2 restart kkaribot";
      } else if id == "botctl:refresh" {
        RefreshPanel(started, newId);
        return [Defer(true), Edit(REFRESHED)], None;
      } else {
        return [Defer(true), Edit(UNKNOWN)], None;
      }
      assert JobFor(id) == Task(action, command);
      var report := RunTask(action, run, started, finished, newId);
      acts, ran := [Defer(true), Edit(report)], Some(command);
    }

    method RefreshPanel(started: string, newId: string)
      modifies this, store
      ensures State() == Refreshed(old(State()), reachable, started, newId)
    {
      var _ := UpdatePanelMessage(map[UPDATED_AT := Str(started)], newId);
    }

    /**
     * The task part of the listener: records progress, lets the command end
     * as `run` says, records the outcome and returns the reply text.
     */
    method RunTask(action: string, run: TaskRun, started: string, finished: string, newId: string) returns (report: string)
      modifies this, store
      ensures report == TaskReport(action, run)
      ensures State() == AfterTask(old(State()), reachable, action, run, started, finished, newId)
    {
      var _ := UpdatePanelMessage(map[LAST_ACTION := Str(action), LAST_STATUS := Str(IN_PROGRESS), UPDATED_AT := Str(started)], newId);
      if run.Failed? {
        var _ := UpdatePanelMessage(map[LAST_STATUS := Str(ERROR), UPDATED_AT := Str(finished)], newId);
        report := FailureReport(run.stderr, run.stdout, run.text);
        return;
      }
      var _ := UpdatePanelMessage(map[LAST_STATUS := Str(SUCCESS), UPDATED_AT := Str(finished)], newId);
      report := SuccessReport(action, run.stdout, run.stderr);
    }
  }
}

/**
 * The `/setlog` command of commands/setlog.js: stores the chosen channel as
 * the guild's log channel by a read-merge-write of `settings.json`.
 */
module SetLog {
  import opened Js
  import opened Discord
  import opened Storage

  const GUILD_ONLY := "서버에서만 사용 가능"

  /** What `execute` does, in order: an interaction response or a settings access. */
  datatype Step = Act(action: Action) | ReadSettings | WriteSettings(settings: Value)

  /** `{ ...cur, logChannelId: id }` */
  function WithLogChannel(cur: Value, id: string): (next: Value)
    ensures next.Obj? && Prop(next, LOG_CHANNEL_ID) == Some(Str(id))
    ensures forall k :: k != LOG_CHANNEL_ID ==> Prop(next, k) == Prop(cur, k)
  {
    Obj(Merge(Spread(cur), map[LOG_CHANNEL_ID := Str(id)]))
  }

  /** The reply's final text, naming the channel by mention. */
  function Confirmation(id: string): string {
    "로그 채널 설정됨: <#" + id + ">"
  }

  /** The settings `execute` stores for guild `g`: the current ones with the log channel replaced. */
  function NextSettings(files: Files, g: string, id: string): Value {
    WithLogChannel(Ensured(files, g)[FileKey(g, SETTINGS)], id)
  }

  /** execute: ephemeral refusal outside a guild; otherwise defer, read, merge, write, confirm. */
  method Execute(ix: Interaction, store: Store) returns (steps: seq<Step>)
    modifies store
    ensures !InGuild(ix) ==> steps == [Act(Reply(GUILD_ONLY, true))] && store.files == old(store.files)
    ensures InGuild(ix) ==>
              var g := ix.guildId.value;
              var next := NextSettings(old(store.files), g, ix.channelOption);
              && steps == [Act(Defer(true)), ReadSettings, WriteSettings(next), Act(Edit(Confirmation(ix.channelOption)))]
              && store.files == Ensured(old(store.files), g)[FileKey(g, SETTINGS) := next]
  {
    if !InGuild(ix) {
      return [Act(Reply(GUILD_ONLY, true))];
    }
    var g := ix.guildId.value;
    steps := [Act(Defer(true))];
    var ch := ix.channelOption;
    var cur := store.GetSettings(g);
    steps := steps + [ReadSettings];
    var next := WithLogChannel(cur, ch);
    EnsureGuildIdempotent(old(store.files), g);
    var _ := store.SetSettings(g, next);
    steps := steps + [WriteSettings(next), Act(Edit(Confirmation(ch)))];
  }

  /**
   * After `/setlog`, getSettings returns the stored settings: the log
   * channel is the chosen one and every other key is as before.
   */
  lemma SetLogThenGetSettings(files: Files, g: string, id: string, k: string)
    ensures var after := Ensured(files, g)[FileKey(g, SETTINGS) := NextSettings(files, g, id)];
            var read := Ensured(after, g)[FileKey(g, SETTINGS)];
            && Prop(read, LOG_CHANNEL_ID) == Some(Str(id))
            && (k != LOG_CHANNEL_ID ==> Prop(read, k) == Prop(ReadJSON(files, FileKey(g, SETTINGS), DEFAULT_SETTINGS), k))
  {
  }

  /** Choosing the same channel again stores the same settings. */
  lemma SetLogIdempotent(files: Files, g: string, id: string)
    ensures var once := Ensured(files, g)[FileKey(g, SETTINGS) := NextSettings(files, g, id)];
            NextSettings(once, g, id) == NextSettings(files, g, id)
  {
    var once := Ensured(files, g)[FileKey(g, SETTINGS) := NextSettings(files, g, id)];
    assert Ensured(once, g)[FileKey(g, SETTINGS)] == NextSettings(files, g, id);
    assert Spread(NextSettings(files, g, id))[LOG_CHANNEL_ID := Str(id)] == Spread(NextSettings(files, g, id));
  }
}

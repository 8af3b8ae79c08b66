/**
 * The per-guild JSON store of utils/storage.js. Every guild has a directory
 * `data/<guildId>/` of JSON documents; the model keeps, per (guild, file
 * name), the value `JSON.parse` would return. A key that is absent stands
 * for a file that is missing or does not parse: both read as the fallback.
 */
module Storage {
  import opened Js

  const USERS := "users.json"
  const SETTINGS := "settings.json"
  const LOG_CHANNEL_ID := "logChannelId"
  const BALANCE := "balance"

  /** `{ logChannelId: null }` */
  const DEFAULT_SETTINGS: Value := Obj(map[LOG_CHANNEL_ID := Null])

  /** The file `data/<guild>/<name>`. */
  datatype FileKey = FileKey(guild: string, name: string)

  type Files = map<FileKey, Value>

  /** readJSON: the parsed contents, or `fallback` when missing or unparseable; it never fails. */
  function ReadJSON(files: Files, key: FileKey, fallback: Value): Value {
    if key in files then files[key] else fallback
  }

  /**
   * The files after ensureGuild(g): parseable `users.json` and
   * `settings.json` keep their contents, missing or unparseable ones become
   * `{}` and `{ logChannelId: null }`; nothing else changes.
   */
  function Ensured(files: Files, g: string): (r: Files)
    ensures r.Keys == files.Keys + {FileKey(g, USERS), FileKey(g, SETTINGS)}
    ensures forall k :: k in files ==> r[k] == files[k]
    ensures FileKey(g, USERS) !in files ==> r[FileKey(g, USERS)] == EMPTY_OBJECT
    ensures FileKey(g, SETTINGS) !in files ==> r[FileKey(g, SETTINGS)] == DEFAULT_SETTINGS
  {
    var users := ReadJSON(files, FileKey(g, USERS), EMPTY_OBJECT);
    var settings := ReadJSON(files, FileKey(g, SETTINGS), DEFAULT_SETTINGS);
    files[FileKey(g, USERS) := users][FileKey(g, SETTINGS) := settings]
  }

  /** Calling ensureGuild twice has the effect of calling it once. */
  lemma EnsureGuildIdempotent(files: Files, g: string)
    ensures Ensured(Ensured(files, g), g) == Ensured(files, g)
  {
  }

  /** ensureGuild(g) leaves every file of every other guild as it was. */
  lemma EnsureGuildOtherGuilds(files: Files, g: string, k: FileKey)
    requires k.guild != g
    ensures k in Ensured(files, g) <==> k in files
    ensures k in files ==> Ensured(files, g)[k] == files[k]
  {
  }

  /**
   * writeGuildJSON(g, name, data) then readGuildJSON(g, name, fallback)
   * yields `data`, whatever the fallback.
   */
  lemma WriteThenRead(files: Files, g: string, name: string, data: Value, fallback: Value)
    ensures var written := Ensured(files, g)[FileKey(g, name) := data];
            ReadJSON(Ensured(written, g), FileKey(g, name), fallback) == data
  {
  }

  /**
   * `Number(users[userId]?.balance || 0)` with integer balances. Reading a
   * property of `null` throws.
   */
  function BalanceIn(users: Value, userId: string): (r: Result<int>)
    ensures users.Null? <==> r.TypeError?
    ensures r.Ok? && r.value != 0 ==> users.Obj? && userId in users.fields
    ensures forall n :: users.Obj? && userId in users.fields && Prop(users.fields[userId], BALANCE) == Some(Num(n)) ==> r == Ok(n)
    ensures var record := Prop(users, userId);
            !users.Null? && (record.None? || !(Prop(record.value, BALANCE).Some? && Truthy(Prop(record.value, BALANCE).value)))
            ==> r == Ok(0)
  {
    if users.Null? then TypeError
    else match Prop(users, userId)
      case Some(record) =>
        (match Prop(record, BALANCE)
         case Some(Num(n)) => Ok(n)
         case _ => Ok(0))
      case None => Ok(0)
  }

  /**
   * setUserBalance on the parsed `users` document: `users[userId] =
   * users[userId] || {}` then `users[userId].balance = amount`. In strict
   * mode, assigning a property of a primitive (or reading one of `null`)
   * throws; a property set on an array is dropped by JSON.stringify.
   */
  function SetBalanceIn(users: Value, userId: string, amount: int): Result<Value> {
    match users
    case Obj(m) =>
      var record := if userId in m && Truthy(m[userId]) then m[userId] else EMPTY_OBJECT;
      (match record
       case Obj(r) => Ok(Obj(m[userId := Obj(r[BALANCE := Num(amount)])]))
       case Arr(_) => Ok(Obj(m[userId := record]))
       case _ => TypeError)
    case Arr(_) => Ok(users)
    case _ => TypeError
  }

  /** A users document whose record for `userId` accepts a balance field. */
  predicate AcceptsBalance(users: Value, userId: string) {
    users.Obj? && (userId !in users.fields || !Truthy(users.fields[userId]) || users.fields[userId].Obj?)
  }

  /** setUserBalance stores the balance exactly where getUserBalance reads it. */
  lemma SetThenGetBalance(users: Value, userId: string, amount: int)
    requires AcceptsBalance(users, userId)
    ensures SetBalanceIn(users, userId, amount).Ok?
    ensures BalanceIn(SetBalanceIn(users, userId, amount).value, userId) == Ok(amount)
  {
  }

  /** setUserBalance fails exactly on a `null` or primitive document or a truthy primitive record. */
  lemma SetBalanceFailures(users: Value, userId: string, amount: int)
    ensures SetBalanceIn(users, userId, amount).TypeError? <==>
              (!users.Obj? && !users.Arr?)
              || (users.Obj? && userId in users.fields && Truthy(users.fields[userId])
                  && !users.fields[userId].Obj? && !users.fields[userId].Arr?)
  {
  }

  /**
   * setUserBalance changes only `users[userId].balance`: the other users
   * and the other fields of that user's record are kept.
   */
  lemma SetBalanceFrame(users: Value, userId: string, amount: int, other: string, field: string)
    requires SetBalanceIn(users, userId, amount).Ok?
    ensures var after := SetBalanceIn(users, userId, amount).value;
            && (other != userId ==> Prop(after, other) == Prop(users, other))
            && (field != BALANCE && Prop(users, userId).Some? && Truthy(Prop(users, userId).value) ==>
                  Prop(after, userId).Some? && Prop(Prop(after, userId).value, field) == Prop(Prop(users, userId).value, field))
  {
  }

  /** addUserBalance: the new balance is the previous one plus `delta`. */
  lemma AddThenGetBalance(users: Value, userId: string, delta: int)
    requires AcceptsBalance(users, userId)
    ensures BalanceIn(users, userId).Ok?
    ensures var next := BalanceIn(users, userId).value + delta;
            && SetBalanceIn(users, userId, next).Ok?
            && BalanceIn(SetBalanceIn(users, userId, next).value, userId) == Ok(next)
  {
    SetThenGetBalance(users, userId, BalanceIn(users, userId).value + delta);
  }

  /** The store of one bot process. */
  class Store {
    var files: Files

    constructor (initial: Files)
      ensures files == initial
    {
      files := initial;
    }

    /** writeJSON: creates the directory if needed and replaces the file. */
    method WriteJSON(key: FileKey, data: Value)
      modifies this
      ensures files == old(files)[key := data]
    {
      files := files[key := data];
    }

    method EnsureGuild(g: string) returns (users: Value, settings: Value)
      modifies this
      ensures files == Ensured(old(files), g)
      ensures users == files[FileKey(g, USERS)] && settings == files[FileKey(g, SETTINGS)]
    {
      users := ReadJSON(files, FileKey(g, USERS), EMPTY_OBJECT);
      settings := ReadJSON(files, FileKey(g, SETTINGS), DEFAULT_SETTINGS);
      WriteJSON(FileKey(g, USERS), users);
      WriteJSON(FileKey(g, SETTINGS), settings);
    }

    method ReadGuildJSON(g: string, name: string, fallback: Value) returns (v: Value)
      modifies this
      ensures files == Ensured(old(files), g)
      ensures v == ReadJSON(files, FileKey(g, name), fallback)
    {
      var _, _ := EnsureGuild(g);
      v := ReadJSON(files, FileKey(g, name), fallback);
    }

    method WriteGuildJSON(g: string, name: string, data: Value) returns (r: Value)
      modifies this
      ensures files == Ensured(old(files), g)[FileKey(g, name) := data]
      ensures r == data
    {
      var _, _ := EnsureGuild(g);
      WriteJSON(FileKey(g, name), data);
      r := data;
    }

    /** Stores and returns exactly `updater(current)`, `current` being the stored value or `fallback`. */
    method UpdateGuildJSON(g: string, name: string, updater: Value -> Value, fallback: Value) returns (next: Value)
      modifies this
      ensures next == updater(ReadJSON(Ensured(old(files), g), FileKey(g, name), fallback))
      ensures files == Ensured(old(files), g)[FileKey(g, name) := next]
    {
      var current := ReadGuildJSON(g, name, fallback);
      next := updater(current);
      EnsureGuildIdempotent(old(files), g);
      var _ := WriteGuildJSON(g, name, next);
    }

    method GetSettings(g: string) returns (settings: Value)
      modifies this
      ensures files == Ensured(old(files), g)
      ensures settings == files[FileKey(g, SETTINGS)]
    {
      settings := ReadGuildJSON(g, SETTINGS, DEFAULT_SETTINGS);
    }

    method SetSettings(g: string, settings: Value) returns (r: Value)
      modifies this
      ensures files == Ensured(old(files), g)[FileKey(g, SETTINGS) := settings]
      ensures r == settings
    {
      r := WriteGuildJSON(g, SETTINGS, settings);
    }

    method GetUserBalance(g: string, userId: string) returns (r: Result<int>)
      modifies this
      ensures files == Ensured(old(files), g)
      ensures r == BalanceIn(files[FileKey(g, USERS)], userId)
    {
      var users := ReadGuildJSON(g, USERS, EMPTY_OBJECT);
      r := BalanceIn(users, userId);
    }

    /** On success the balance is written and returned; on a TypeError nothing is written. */
    method SetUserBalance(g: string, userId: string, amount: int) returns (r: Result<int>)
      modifies this
      ensures var users := Ensured(old(files), g)[FileKey(g, USERS)];
              match SetBalanceIn(users, userId, amount)
              case Ok(next) => r == Ok(amount) && files == Ensured(old(files), g)[FileKey(g, USERS) := next]
              case TypeError => r == TypeError && files == Ensured(old(files), g)
    {
      var users := ReadGuildJSON(g, USERS, EMPTY_OBJECT);
      var updated := SetBalanceIn(users, userId, amount);
      if updated.Ok? {
        EnsureGuildIdempotent(old(files), g);
        var _ := WriteGuildJSON(g, USERS, updated.value);
        r := Ok(amount);
      } else {
        r := TypeError;
      }
    }

    method AddUserBalance(g: string, userId: string, delta: int) returns (r: Result<int>)
      modifies this
      ensures var users := Ensured(old(files), g)[FileKey(g, USERS)];
              match BalanceIn(users, userId)
              case TypeError => r == TypeError && files == Ensured(old(files), g)
              case Ok(current) =>
                match SetBalanceIn(users, userId, current + delta)
                case Ok(next) => r == Ok(current + delta) && files == Ensured(old(files), g)[FileKey(g, USERS) := next]
                case TypeError => r == TypeError && files == Ensured(old(files), g)
    {
      var current := GetUserBalance(g, userId);
      if current.TypeError? {
        r := TypeError;
        return;
      }
      EnsureGuildIdempotent(old(files), g);
      r := SetUserBalance(g, userId, current.value + delta);
    }
  }
}

/**
 * deploy-commands.js: the argument scanner, the walk of the `commands/`
 * tree, and the choice of which command schemas are submitted and to which
 * scope (one guild or the whole application).
 */
module Deploy {
  import opened Js
  import opened Discord

  const ENV_MISSING := "환경변수 DISCORD_TOKEN, CLIENT_ID가 필요합니다."
  const GUILD_FLAG := "--guild"
  const GUILD_EQ := "--guild="
  const CLEAR_FLAG := "--clear"

  /** `{ guild, clear }`; `guild` is `None` for `null`. */
  datatype Args = Args(guild: Option<string>, clear: bool)

  const DEFAULT_ARGS := Args(None, false)

  /** What one iteration of the parseArgs loop recognises. */
  datatype Flag = GuildFlag(value: string) | ClearFlag | Ignored(token: string)

  /** `s.split('=')[0]`: the text of `s` before its first `=`. */
  function UpToEquals(s: string): (r: string)
    ensures |r| <= |s| && r == s[..|r|]
    ensures forall i :: 0 <= i < |r| ==> r[i] != '='
    ensures |r| < |s| ==> s[|r|] == '='
  {
    if s == [] || s[0] == '=' then [] else [s[0]] + UpToEquals(s[1..])
  }

  /**
   * The flags the parseArgs loop sees from index `i` on. `--guild` takes the
   * next token as its value when that token exists and is non-empty,
   * whatever it looks like; `--guild=V` carries `V.split('=')[1]`.
   */
  function Tokens(argv: seq<string>, i: nat): seq<Flag>
    decreases |argv| - i
  {
    if i >= |argv| then []
    else if argv[i] == GUILD_FLAG && i + 1 < |argv| && argv[i + 1] != "" then
      [GuildFlag(argv[i + 1])] + Tokens(argv, i + 2)
    else if StartsWith(argv[i], GUILD_EQ) then
      [GuildFlag(UpToEquals(argv[i][|GUILD_EQ|..]))] + Tokens(argv, i + 1)
    else if argv[i] == CLEAR_FLAG then
      [ClearFlag] + Tokens(argv, i + 1)
    else
      [Ignored(argv[i])] + Tokens(argv, i + 1)
  }

  function Step(a: Args, f: Flag): Args {
    match f
    case GuildFlag(v) => a.(guild := Some(v))
    case ClearFlag => a.(clear := true)
    case Ignored(_) => a
  }

  /** The arguments after the flags `fs`, applied in order. */
  function Apply(a: Args, fs: seq<Flag>): Args
    decreases fs
  {
    if fs == [] then a else Apply(Step(a, fs[0]), fs[1..])
  }

  /** parseArgs: scans `argv` from index 2, advancing past a consumed `--guild` value. */
  method ParseArgs(argv: seq<string>) returns (args: Args)
    ensures args == Apply(DEFAULT_ARGS, Tokens(argv, 2))
  {
    args := DEFAULT_ARGS;
    var i := 2;
    while i < |argv|
      invariant 2 <= i
      invariant Apply(args, Tokens(argv, i)) == Apply(DEFAULT_ARGS, Tokens(argv, 2))
      decreases |argv| - i
    {
      var a := argv[i];
      if a == GUILD_FLAG && i + 1 < |argv| && argv[i + 1] != "" {
        i := i + 1;
        args := args.(guild := Some(argv[i]));
        i := i + 1;
        continue;
      }
      if StartsWith(a, GUILD_EQ) {
        args := args.(guild := Some(UpToEquals(a[|GUILD_EQ|..])));
        i := i + 1;
        continue;
      }
      if a == CLEAR_FLAG {
        args := args.(clear := true);
        i := i + 1;
        continue;
      }
      i := i + 1;
    }
  }

  /** The flags from index `i` on depend only on `argv[i..]`: the first two tokens are never inspected. */
  lemma {:induction false} TokensOfSuffix(argv: seq<string>, i: nat)
    requires i <= |argv|
    ensures Tokens(argv, i) == Tokens(argv[i..], 0)
    decreases |argv| - i
  {
    if i < |argv| {
      var s := argv[i..];
      assert s[0] == argv[i];
      if argv[i] == GUILD_FLAG && i + 1 < |argv| && argv[i + 1] != "" {
        TokensOfSuffix(argv, i + 2);
        TokensOfSuffix(s, 2);
        assert s[2..] == argv[i + 2..];
      } else {
        TokensOfSuffix(argv, i + 1);
        TokensOfSuffix(s, 1);
        assert s[1..] == argv[i + 1..];
      }
    }
  }

  /** parseArgs never looks at `argv[0]` or `argv[1]`. */
  lemma LeadingTokensIgnored(x: seq<string>, y: seq<string>, rest: seq<string>)
    requires |x| == 2 && |y| == 2
    ensures Apply(DEFAULT_ARGS, Tokens(x + rest, 2)) == Apply(DEFAULT_ARGS, Tokens(y + rest, 2))
  {
    TokensOfSuffix(x + rest, 2);
    TokensOfSuffix(y + rest, 2);
    assert (x + rest)[2..] == rest;
    assert (y + rest)[2..] == rest;
  }

  lemma {:induction false} ApplyAppend(a: Args, p: seq<Flag>, q: seq<Flag>)
    ensures Apply(a, p + q) == Apply(Apply(a, p), q)
    decreases p
  {
    if p != [] {
      ApplyAppend(Step(a, p[0]), p[1..], q);
      assert (p + q)[1..] == p[1..] + q;
    } else {
      assert p + q == q;
    }
  }

  /** `clear` ends up set exactly when it was set already or some `--clear` is seen. */
  lemma {:induction false} ApplyClear(a: Args, fs: seq<Flag>)
    ensures Apply(a, fs).clear <==> a.clear || ClearFlag in fs
    decreases fs
  {
    if fs != [] {
      ApplyClear(Step(a, fs[0]), fs[1..]);
      assert fs == [fs[0]] + fs[1..];
    }
  }

  /** Without guild flags, `guild` keeps its value. */
  lemma {:induction false} ApplyNoGuild(a: Args, fs: seq<Flag>)
    requires forall i :: 0 <= i < |fs| ==> !fs[i].GuildFlag?
    ensures Apply(a, fs).guild == a.guild
    decreases fs
  {
    if fs != [] {
      ApplyNoGuild(Step(a, fs[0]), fs[1..]);
    }
  }

  /** The last guild flag wins: a later `--guild` overrides an earlier one. */
  lemma LastGuildWins(a: Args, p: seq<Flag>, v: string, q: seq<Flag>)
    requires forall i :: 0 <= i < |q| ==> !q[i].GuildFlag?
    ensures Apply(a, p + [GuildFlag(v)] + q).guild == Some(v)
  {
    ApplyAppend(a, p + [GuildFlag(v)], q);
    ApplyAppend(a, p, [GuildFlag(v)]);
    ApplyNoGuild(Apply(a, p + [GuildFlag(v)]), q);
  }

  /** `--guild --clear` makes `--clear` the guild id and leaves `clear` unset, whatever `argv[0]` and `argv[1]` are. */
  lemma GuildSwallowsClear(x: string, y: string)
    ensures Apply(DEFAULT_ARGS, Tokens([x, y, GUILD_FLAG, CLEAR_FLAG], 2)) == Args(Some(CLEAR_FLAG), false)
  {
    var argv := [x, y, GUILD_FLAG, CLEAR_FLAG];
    assert Tokens(argv, 4) == [];
    assert Tokens(argv, 2) == [GuildFlag(CLEAR_FLAG)];
  }

  /** A trailing `--guild` with no value is ignored like any unknown token. */
  lemma TrailingGuildIgnored(x: string, y: string)
    ensures Apply(DEFAULT_ARGS, Tokens([x, y, GUILD_FLAG], 2)) == DEFAULT_ARGS
  {
    var argv := [x, y, GUILD_FLAG];
    assert !StartsWith(argv[2], GUILD_EQ);
    assert Tokens(argv, 3) == [];
    assert Tokens(argv, 2) == [Ignored(GUILD_FLAG)];
  }

  /**
   * `--guild=V` keeps only the text of `V` before its first `=`: the guild
   * id is a prefix of `V` holding no `=`, and it is all of `V` or is
   * followed in `V` by `=`.
   */
  lemma GuildValueStopsAtEquals(x: string, y: string, v: string)
    ensures var g := Apply(DEFAULT_ARGS, Tokens([x, y, GUILD_EQ + v], 2)).guild;
            && g.Some? && |g.value| <= |v| && g.value == v[..|g.value|]
            && (forall i :: 0 <= i < |g.value| ==> g.value[i] != '=')
            && (|g.value| < |v| ==> v[|g.value|] == '=')
  {
    var argv := [x, y, GUILD_EQ + v];
    assert argv[2][..|GUILD_EQ|] == GUILD_EQ;
    assert argv[2][|GUILD_EQ|..] == v;
    assert Tokens(argv, 3) == [];
    assert Tokens(argv, 2) == [GuildFlag(UpToEquals(v))];
  }

  /** A directory entry as `fs.readdir(dir, { withFileTypes: true })` describes it. */
  datatype Node =
    | Dir(name: string, children: seq<Node>)
    | File(name: string)
    | Special(name: string)

  /** `path.join(dir, name)` for a plain name. */
  function Join(dir: string, name: string): string {
    dir + "/" + name
  }

  predicate IsJsFile(e: Node) {
    e.File? && EndsWith(e.name, ".js")
  }

  /**
   * What walk(dir) accumulates from the entries `d.children[k..]` of the
   * directory `d` found at `dir`: in listing order, a sub-directory's files
   * in place of it, a `.js` file's path, nothing for anything else.
   */
  function Found(dir: string, d: Node, k: nat): seq<string>
    requires d.Dir?
    decreases d, |d.children| - k
  {
    if k >= |d.children| then []
    else
      var e := d.children[k];
      (if e.Dir? then Found(Join(dir, e.name), e, 0)
       else if IsJsFile(e) then [Join(dir, e.name)]
       else [])
      + Found(dir, d, k + 1)
  }

  /** `p` is the path of a `.js` file somewhere below the directory `d` at `dir`. */
  ghost predicate JsFileBelow(dir: string, d: Node, p: string)
    requires d.Dir?
    decreases d
  {
    exists k :: 0 <= k < |d.children| &&
      ((IsJsFile(d.children[k]) && p == Join(dir, d.children[k].name))
       || (d.children[k].Dir? && JsFileBelow(Join(dir, d.children[k].name), d.children[k], p)))
  }

  /** Entry `k` of `d` is the file `p`, or a directory holding it. */
  ghost predicate EntryHolds(dir: string, d: Node, k: nat, p: string)
    requires d.Dir? && k < |d.children|
  {
    var e := d.children[k];
    (IsJsFile(e) && p == Join(dir, e.name)) || (e.Dir? && JsFileBelow(Join(dir, e.name), e, p))
  }

  lemma {:induction false} FoundFrom(dir: string, d: Node, k: nat, p: string)
    requires d.Dir?
    ensures p in Found(dir, d, k) ==> exists j :: k <= j < |d.children| && EntryHolds(dir, d, j, p)
    ensures forall j :: k <= j < |d.children| && EntryHolds(dir, d, j, p) ==> p in Found(dir, d, k)
    decreases d, |d.children| - k
  {
    if k < |d.children| {
      var e := d.children[k];
      var part := if e.Dir? then Found(Join(dir, e.name), e, 0) else if IsJsFile(e) then [Join(dir, e.name)] else [];
      assert Found(dir, d, k) == part + Found(dir, d, k + 1);
      FoundFrom(dir, d, k + 1, p);
      if e.Dir? {
        FoundFrom(Join(dir, e.name), e, 0, p);
        BelowUnfold(Join(dir, e.name), e, p);
      }
      assert p in part <==> EntryHolds(dir, d, k, p);
      if !EntryHolds(dir, d, k, p) && !exists j :: k + 1 <= j < |d.children| && EntryHolds(dir, d, j, p) {
        forall j | k <= j < |d.children| ensures !EntryHolds(dir, d, j, p) {
          if j > k {
            assert k + 1 <= j < |d.children|;
          }
        }
      }
    }
  }

  /** walk returns exactly the `.js` regular files at any depth below the directory. */
  lemma WalkFindsJsFiles(dir: string, d: Node, p: string)
    requires d.Dir?
    ensures p in Found(dir, d, 0) <==> JsFileBelow(dir, d, p)
  {
    FoundFrom(dir, d, 0, p);
    BelowUnfold(dir, d, p);
  }

  lemma BelowUnfold(dir: string, d: Node, p: string)
    requires d.Dir?
    ensures JsFileBelow(dir, d, p) ==> exists j :: 0 <= j < |d.children| && EntryHolds(dir, d, j, p)
    ensures forall j :: 0 <= j < |d.children| && EntryHolds(dir, d, j, p) ==> JsFileBelow(dir, d, p)
  {
    if JsFileBelow(dir, d, p) {
      var j :| 0 <= j < |d.children| &&
        ((IsJsFile(d.children[j]) && p == Join(dir, d.children[j].name))
         || (d.children[j].Dir? && JsFileBelow(Join(dir, d.children[j].name), d.children[j], p)));
      assert EntryHolds(dir, d, j, p);
    }
  }

  /** Every path walk returns names a `.js` file. */
  lemma {:induction false} FoundAreJs(dir: string, d: Node, k: nat)
    requires d.Dir?
    ensures forall p :: p in Found(dir, d, k) ==> EndsWith(p, ".js")
    decreases d, |d.children| - k
  {
    if k < |d.children| {
      var e := d.children[k];
      FoundAreJs(dir, d, k + 1);
      if e.Dir? {
        FoundAreJs(Join(dir, e.name), e, 0);
      } else if IsJsFile(e) {
        var p := Join(dir, e.name);
        assert p[|p| - 3..] == e.name[|e.name| - 3..];
      }
    }
  }

  /** walk(dir): recurses into sub-directories as it meets them. */
  method Walk(dir: string, d: Node) returns (out: seq<string>)
    requires d.Dir?
    ensures out == Found(dir, d, 0)
    decreases d
  {
    out := [];
    var k := 0;
    while k < |d.children|
      invariant 0 <= k <= |d.children|
      invariant out + Found(dir, d, k) == Found(dir, d, 0)
    {
      var e := d.children[k];
      var p := Join(dir, e.name);
      ghost var rest := Found(dir, d, k + 1);
      if e.Dir? {
        var sub := Walk(p, e);
        assert Found(dir, d, k) == sub + rest;
        assert out + (sub + rest) == (out + sub) + rest;
        out := out + sub;
      } else if e.File? && EndsWith(e.name, ".js") {
        assert Found(dir, d, k) == [p] + rest;
        assert out + ([p] + rest) == (out + [p]) + rest;
        out := out + [p];
      } else {
        assert Found(dir, d, k) == rest;
      }
      k := k + 1;
    }
  }

  /** The REST route commands are put to. */
  datatype Scope = GuildCommands(appId: string, guild: string) | GlobalCommands(appId: string)

  /** How main ends. */
  datatype Outcome =
    | Exit(code: int, message: string)
    | ImportFailed(path: string)
    | WalkFailed(dir: string)
    | Submitted(scope: Scope, body: seq<Value>, log: string)

  /** Both environment variables are set and non-empty. */
  predicate EnvPresent(token: Option<string>, appId: Option<string>) {
    token.Some? && token.value != "" && appId.Some? && appId.value != ""
  }

  /** `if (args.guild)`: a guild route only for a non-empty guild id. */
  function ScopeOf(appId: string, args: Args): (s: Scope)
    ensures s.GuildCommands? <==> args.guild.Some? && args.guild.value != ""
    ensures s.GuildCommands? ==> s.guild == args.guild.value
    ensures s.appId == appId
  {
    if args.guild.Some? && args.guild.value != "" then GuildCommands(appId, args.guild.value)
    else GlobalCommands(appId)
  }

  /** The success line main prints. */
  function LogLine(scope: Scope, count: nat): (r: string)
    ensures EndsWith(r, Decimal(count) + "개")
  {
    var tail := " 명령어 배포 완료: " + Decimal(count) + "개";
    var r := match scope
      case GuildCommands(_, g) => "[OK] 길드(" + g + ")" + tail
      case GlobalCommands(_) => "[OK] 전역" + tail;
    assert r[|r| - |Decimal(count) + "개"|..] == Decimal(count) + "개";
    r
  }

  /** The first file whose module fails to import, if any. */
  function FirstMissing(files: seq<string>, imports: map<string, CommandModule>): (r: Option<string>)
    ensures r.None? <==> forall i :: 0 <= i < |files| ==> files[i] in imports
  {
    if files == [] then None
    else if files[0] !in imports then Some(files[0])
    else
      var r := FirstMissing(files[1..], imports);
      assert forall i :: 1 <= i < |files| ==> files[i] == files[1..][i - 1];
      r
  }

  /** The failing file reported is the first one whose import fails. */
  lemma {:induction false} FirstMissingIsFirst(files: seq<string>, imports: map<string, CommandModule>)
    requires FirstMissing(files, imports).Some?
    ensures exists i :: 0 <= i < |files| && files[i] == FirstMissing(files, imports).value && files[i] !in imports
                        && forall j :: 0 <= j < i ==> files[j] in imports
  {
    if files[0] in imports {
      FirstMissingIsFirst(files[1..], imports);
      var i :| 0 <= i < |files[1..]| && files[1..][i] == FirstMissing(files[1..], imports).value && files[1..][i] !in imports
                && forall j :: 0 <= j < i ==> files[1..][j] in imports;
      assert files[i + 1] == files[1..][i];
      assert forall j :: 1 <= j < i + 1 ==> files[j] == files[1..][j - 1];
    } else {
      assert files[0] !in imports;
    }
  }

  /** The imported modules of `files`, in walk order. */
  function ModulesOf(files: seq<string>, imports: map<string, CommandModule>): seq<CommandModule>
    requires forall i :: 0 <= i < |files| ==> files[i] in imports
  {
    if files == [] then []
    else ModulesOf(files[..|files| - 1], imports) + [imports[files[|files| - 1]]]
  }

  /** Module `i` is the one imported from file `i`. */
  lemma {:induction false} ModulesOfFiles(files: seq<string>, imports: map<string, CommandModule>)
    requires forall i :: 0 <= i < |files| ==> files[i] in imports
    ensures |ModulesOf(files, imports)| == |files|
    ensures forall i :: 0 <= i < |files| ==> ModulesOf(files, imports)[i] == imports[files[i]]
  {
    if files != [] {
      var n := |files| - 1;
      ModulesOfFiles(files[..n], imports);
      assert forall i :: 0 <= i < n ==> files[..n][i] == files[i];
    }
  }

  /** What walk(dir) resolves to: `None` when reading `dir` rejects because it is not a directory. */
  function Walked(dir: string, d: Node): (r: Option<seq<string>>)
    ensures r.Some? <==> d.Dir?
  {
    if d.Dir? then Some(Found(dir, d, 0)) else None
  }

  /**
   * What main does once the environment is present: with `--clear` an
   * empty list, without reading the commands directory; otherwise the
   * schemas of the imported modules of the walked files, unless the walk or
   * an import fails; submitted to the scope `args` selects.
   */
  function Expected(appId: string, args: Args, walked: Option<seq<string>>, cmdsDir: string, imports: map<string, CommandModule>): Outcome {
    var scope := ScopeOf(appId, args);
    if args.clear then Submitted(scope, [], LogLine(scope, 0))
    else if walked.None? then WalkFailed(cmdsDir)
    else
      var files := walked.value;
      if FirstMissing(files, imports).Some? then ImportFailed(FirstMissing(files, imports).value)
    else
        var body := Schemas(ModulesOf(files, imports));
        Submitted(scope, body, LogLine(scope, |body|))
  }

  /**
   * main: exits with code 1 before anything else when a variable is
   * missing; otherwise parses the arguments, walks `commands/` and submits.
   * `tree` is what the file system holds at `cmdsDir`.
   */
  method Deploy(token: Option<string>, appId: Option<string>, argv: seq<string>,
                cmdsDir: string, tree: Node, imports: map<string, CommandModule>) returns (out: Outcome)
    ensures !EnvPresent(token, appId) ==> out == Exit(1, ENV_MISSING)
    ensures EnvPresent(token, appId) ==>
              out == Expected(appId.value, Apply(DEFAULT_ARGS, Tokens(argv, 2)), Walked(cmdsDir, tree), cmdsDir, imports)
  {
    if !EnvPresent(token, appId) {
      return Exit(1, ENV_MISSING);
    }
    var args := ParseArgs(argv);
    var commands: seq<Value> := [];
    if !args.clear {
      if !tree.Dir? {
        return WalkFailed(cmdsDir);
      }
      var files := Walk(cmdsDir, tree);
      var missing;
      missing, commands := ImportAll(files, imports);
      if missing.Some? {
        return ImportFailed(missing.value);
      }
    }
    var scope := ScopeOf(appId.value, args);
    out := Submitted(scope, commands, LogLine(scope, |commands|));
  }

  /**
   * The import loop of main: imports each walked file in order and pushes
   * `toJSON()` of each named module with a `toJSON` function; the first
   * file that fails to import ends main.
   */
  method ImportAll(files: seq<string>, imports: map<string, CommandModule>) returns (missing: Option<string>, commands: seq<Value>)
    ensures missing == FirstMissing(files, imports)
    ensures missing.None? ==> commands == Schemas(ModulesOf(files, imports))
  {
    commands := [];
    var i := 0;
    while i < |files|
      invariant 0 <= i <= |files|
      invariant forall j :: 0 <= j < i ==> files[j] in imports
      invariant commands == Schemas(ModulesOf(files[..i], imports))
    {
      if files[i] !in imports {
        FirstMissingAt(files, imports, i);
        return Some(files[i]), commands;
      }
      var m := imports[files[i]];
      ImportStep(files, imports, i);
      if NameOf(m) != "" && m.data.value.toJson.Some? {
        commands := commands + [m.data.value.toJson.value];
      }
      i := i + 1;
    }
    assert files[..i] == files;
    missing := None;
  }

  /** Importing one more file adds that module's schema, if it has one. */
  lemma ImportStep(files: seq<string>, imports: map<string, CommandModule>, i: nat)
    requires i < |files| && forall j :: 0 <= j <= i ==> files[j] in imports
    ensures var m := imports[files[i]];
            Schemas(ModulesOf(files[..i + 1], imports)) ==
              Schemas(ModulesOf(files[..i], imports)) + (if NameOf(m) != "" && m.data.value.toJson.Some? then [m.data.value.toJson.value] else [])
  {
    var m := imports[files[i]];
    assert files[..i + 1][..i] == files[..i];
    assert ModulesOf(files[..i + 1], imports) == ModulesOf(files[..i], imports) + [m];
    SchemasOfOne(ModulesOf(files[..i], imports), m);
  }

  /** When every earlier file imports, the first failing one is file `i`. */
  lemma {:induction false} FirstMissingAt(files: seq<string>, imports: map<string, CommandModule>, i: nat)
    requires i < |files| && files[i] !in imports
    requires forall j :: 0 <= j < i ==> files[j] in imports
    ensures FirstMissing(files, imports) == Some(files[i])
  {
    if i > 0 {
      FirstMissingAt(files[1..], imports, i - 1);
    }
  }

  /**
   * The submitted list holds `toJSON()` of exactly the walked modules that
   * have a name and a `toJSON` function; the printed count is its length.
   */
  lemma SubmittedSchemas(appId: string, args: Args, files: seq<string>, cmdsDir: string, imports: map<string, CommandModule>, v: Value)
    requires !args.clear && FirstMissing(files, imports).None?
    ensures var out := Expected(appId, args, Some(files), cmdsDir, imports);
            && out.Submitted?
            && (v in out.body <==>
                  exists i :: 0 <= i < |files| && NameOf(imports[files[i]]) != "" && imports[files[i]].data.value.toJson == Some(v))
            && EndsWith(out.log, Decimal(|out.body|) + "개")
  {
    ModulesOfFiles(files, imports);
    SchemasMembers(ModulesOf(files, imports), v);
  }

  /**
   * With `--clear` an empty list is submitted, to the scope the guild flag
   * selects, whatever the commands directory holds or whether it exists.
   */
  lemma ClearSubmitsNothing(appId: string, args: Args, walked: Option<seq<string>>, cmdsDir: string, imports: map<string, CommandModule>)
    requires args.clear
    ensures Expected(appId, args, walked, cmdsDir, imports) == Submitted(ScopeOf(appId, args), [], LogLine(ScopeOf(appId, args), 0))
  {
  }

  /** Without `--clear`, a commands path that is not a directory ends main before any import or submission. */
  lemma MissingDirFails(appId: string, args: Args, cmdsDir: string, tree: Node, imports: map<string, CommandModule>)
    requires !args.clear && !tree.Dir?
    ensures Expected(appId, args, Walked(cmdsDir, tree), cmdsDir, imports) == WalkFailed(cmdsDir)
  {
  }

  /** `--guild=` gives the empty guild id, which is falsy: the commands go to the global route. */
  lemma EmptyGuildGoesGlobal(appId: string, x: string, y: string)
    ensures var args := Apply(DEFAULT_ARGS, Tokens([x, y, GUILD_EQ], 2));
            args.guild == Some("") && ScopeOf(appId, args) == GlobalCommands(appId)
  {
    var argv := [x, y, GUILD_EQ];
    assert StartsWith(argv[2], GUILD_EQ);
    assert argv[2][|GUILD_EQ|..] == "";
    assert Tokens(argv, 3) == [];
  }
}

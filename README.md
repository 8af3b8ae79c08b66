# KKARIBOT core, modelled in Dafny

KKARIBOT is a Discord bot written in JavaScript. This project models the five
parts of it that make decisions, with discord.js, the file system, dynamic
`import` and the shell replaced by inputs and recorded effects:

- **Command registry and component router** (`index.js`). `loadCommands`
  registers every module by `data.name` and collects its schema.
  `registerComponentMap` fills three tables (buttons, selects, modals) of
  `(prefix, handler)` routes, each re-sorted by descending prefix length.
  The `InteractionCreate` listener applies the guild gate, calls
  `ensureGuild`, resolves the callback and catches errors with one generic
  `safeReply` (`router.dfy`, `dispatch.dfy`, `discord.dfy`).
- **Per-guild JSON store** (`utils/storage.js`). It is a map from
  `(guildId, file name)` to the value `JSON.parse` would return; an absent
  key stands for a missing or unparseable file. `Storage.Store` is the class
  whose methods change that map (`storage.dfy`).
- **Deployment script** (`deploy-commands.js`). It covers the `parseArgs`
  scanner, the `walk` of an abstract directory tree, the import loop, and the
  choice of scope and of the submitted list (`deploy.dfy`).
- **Admin panel** (`utils/bot-admin-panel.js`). It covers the button
  handler's gates, the mapping from button id to shell command, the merges
  into `admin_panel.json`, reuse or re-creation of the panel message, the
  embed and the output reports (`admin_panel.dfy`).
- **`/setlog`** (`commands/setlog.js`), a read-merge-write of the guild's
  `settings.json` (`setlog.dfy`).

`js.dfy` holds the JavaScript semantics these parts rely on: JSON values,
truthiness, property access, object spread, `startsWith`, `slice`, `trim`.

Routing is proved against an independent rule. Scanning a table built by the
stable sort returns the earliest-registered route among those with the
longest matching prefix (`Router.RouteIsLongestEarliest`).

Each imperative operation is a method proved against a specification
function of the inputs and the old state:
- `Bot.Dispatch` against `Plan`.
- `Panel.HandleButton` against `Handle`.
- `ParseArgs` against `Apply(DEFAULT_ARGS, Tokens(argv, 2))`.
- `Walk` against `Found`.
The properties the source promises are lemmas about those functions.

The restart task's action text reads `봇 재시작 (pm2 restart index.js)`, but
the command it runs is `pm2 restart kkaribot`. The model keeps both strings as written.

## Model

| member | source | states |
|---|---|---|
| Js.Merge | utils/bot-admin-panel.js:57 | `{...prev, ...partial}`: the keys are the union; a key of `partial` takes its value from `partial`, every other key keeps its value from `prev` |
| Js.Slice | utils/bot-admin-panel.js:129 | `slice(0, n)` is the prefix of length `min(|s|, n)` |
| Js.Trim | utils/bot-admin-panel.js:124-125 | `trim()` is a contiguous part of `s`; only white space is removed on either side, and the result neither starts nor ends with white space |
| Js.DecimalValue | deploy-commands.js:61 | the decimal digits printed for a count read back as that count |
| Discord.Schemas | index.js:55-57 | at most one schema is collected per module |
| Discord.SchemasAppend | index.js:55-57 | collecting over one run of modules followed by another gives the first run's schemas followed by the second's, so the schemas keep the modules' order |
| Discord.SchemasMembers | index.js:55-57 | a value is in the collected list iff some module has a non-empty name and its `toJSON()` returns that value |
| Storage.Ensured | utils/storage.js:26-36 | ensureGuild adds exactly the guild's `users.json` and `settings.json`; existing parseable files keep their value; missing ones become `{}` and `{ logChannelId: null }`; no other file changes |
| Storage.EnsureGuildIdempotent | utils/storage.js:26-36 | calling ensureGuild twice has the effect of calling it once |
| Storage.EnsureGuildOtherGuilds | utils/storage.js:26-36 | ensureGuild(g) neither adds, removes nor changes any file of another guild |
| Storage.WriteThenRead | utils/storage.js:42-53 | after writeGuildJSON(g, name, data), readGuildJSON(g, name, fallback) returns `data` whatever the fallback |
| Storage.BalanceIn | utils/storage.js:70-73 | getUserBalance on the users document: a `null` document throws; a record whose `balance` is the number `n` gives `n`; the balance is 0 for an unknown user or a missing or falsy balance; a non-zero balance belongs to a user present in the document |
| Storage.SetThenGetBalance | utils/storage.js:75-81 | on a document whose record accepts a property, setUserBalance succeeds and getUserBalance then reads the amount set |
| Storage.SetBalanceFailures | utils/storage.js:75-81 | setUserBalance throws exactly for a `null` or primitive document, or for a truthy primitive record |
| Storage.SetBalanceFrame | utils/storage.js:75-80 | setUserBalance keeps every other user's record, and every other field of the user's record |
| Storage.AddThenGetBalance | utils/storage.js:83-87 | after addUserBalance(u, d), getUserBalance(u) is the previous balance plus `d` |
| Storage.Store.WriteJSON | utils/storage.js:20-24 | writeJSON replaces exactly one file |
| Storage.Store.EnsureGuild | utils/storage.js:26-36 | the store becomes `Ensured(old, g)`, and the returned users and settings are the values now stored |
| Storage.Store.ReadGuildJSON | utils/storage.js:42-46 | ensures the guild, then returns the stored value or the fallback |
| Storage.Store.WriteGuildJSON | utils/storage.js:48-53 | ensures the guild, stores `data` under the file, and returns `data` |
| Storage.Store.UpdateGuildJSON | utils/storage.js:55-60 | stores and returns exactly `updater(current)`, where `current` is the stored value or `fallback` |
| Storage.Store.GetSettings | utils/storage.js:62-64 | returns the stored settings, which are `{ logChannelId: null }` when the file was missing |
| Storage.Store.SetSettings | utils/storage.js:66-68 | stores and returns the given settings |
| Storage.Store.GetUserBalance | utils/storage.js:70-73 | returns `BalanceIn` of the stored users document; only ensureGuild's defaults are written |
| Storage.Store.SetUserBalance | utils/storage.js:75-81 | on success it returns the amount and stores the updated document; on a TypeError nothing beyond ensureGuild is written |
| Storage.Store.AddUserBalance | utils/storage.js:83-87 | returns and stores the current balance plus `delta`; on a TypeError at either step nothing beyond ensureGuild is written |
| Router.AcceptedEntriesSound | index.js:40-45 | a route is taken from the entries iff its key is non-empty and its value is a function |
| Router.AcceptedSound | index.js:40-45 | a non-object export contributes nothing; an object export contributes exactly its entries with a non-empty key and a function value |
| Router.InsertPermutes | index.js:46 | inserting keeps every route of the table and adds exactly the new one |
| Router.SortByLengthSorts | index.js:44-46 | the sorted table is a permutation of the registered routes (duplicates kept) with non-increasing prefix lengths |
| Router.InsertKeepsSorted | index.js:46 | stable insertion preserves non-increasing prefix lengths |
| Router.Scan | index.js:134-140 | the routing loop returns a route of the table whose prefix starts the id, and returns nothing iff no route's prefix does |
| Router.Best | index.js:131-142 | reference rule: the index of a matching route with no longer matching prefix, and no earlier matching route of equal length |
| Router.ScanInsert | index.js:131-142 | scanning after inserting `x` finds `x` exactly when it matches and is longer than the route found before |
| Router.RouteIsLongestEarliest | index.js:131-142 | the loop over the stably sorted table picks the longest matching prefix, and among equal lengths the earliest-registered route |
| Router.LongestMatchWins | index.js:131-142 | no matching registered prefix is longer than the prefix of the route the loop picks |
| Router.InsertShortest | index.js:46 | a route no longer than every route in the table sorts to the end |
| Router.SortSorted | index.js:46 | sorting a table already in order leaves it unchanged |
| Router.SortAppend | index.js:44-46 | re-sorting a sorted table after appending routes equals sorting all registrations at once |
| Router.FindRoute | index.js:134-140 | the `for` loop with early return computes `Scan` |
| Router.RegisterComponentMap | index.js:40-47 | a non-object export leaves the table unchanged; otherwise the table becomes the stable sort of the old table followed by the accepted entries |
| Dispatch.RegistryMembers | index.js:55-56 | a name is registered iff it was already, or some loaded module carries it |
| Dispatch.RegistryLastWins | index.js:55-56 | the module kept under a loaded name is the last module carrying it: a later one with the same name overwrites |
| Dispatch.RegistryKeepsOthers | index.js:55-56 | a name no loaded module carries keeps its earlier module |
| Dispatch.NonGuildReturnsEarly | index.js:104-171 | chat, context-menu, button, select and modal interactions outside a guild produce no effect at all |
| Dispatch.AutocompleteIgnoresGuild | index.js:98-102 | autocomplete behaves the same in or outside a guild and never calls ensureGuild |
| Dispatch.UnmatchedComponentRepliesOnce | index.js:131-171 | a component whose id matches no prefix invokes no handler and gets exactly one "unsupported" response for its kind |
| Dispatch.MatchedComponentRunsLongest | index.js:131-171 | in a guild, a button, select or modal first ensures the guild, then invokes the handler of the longest, earliest-registered matching route of its kind's table |
| Dispatch.InvokedResponses | index.js:172-174 | around an invoked callback the listener itself responds only when the callback throws, with one generic safeReply |
| Dispatch.HandlerOutcomeResponses | index.js:172-175 | a throwing callback gets exactly one generic reply: an edit if it had been deferred or replied, an ephemeral reply otherwise; a returning one gets no reply from the listener |
| Dispatch.CommandLogsOnlyAfterReturn | index.js:107-111 | a guild log line is written only for a chat command in that guild whose `execute` was invoked and returned normally |
| Dispatch.OwnerLogSources | index.js:107-111 | an owner log line is either the error line of a callback that threw, or the audit line of a chat command in a guild whose `execute` returned normally |
| Dispatch.ThrownHandlerLogsOnce | index.js:172-175 | when the resolved callback throws, the listener's last effect is the one owner error line `오류: <command name, custom id or N/A> <error>`, and no earlier effect logs to the owner |
| Dispatch.MissingExecuteIgnored | index.js:104-108 | a chat command with no registered module or no `execute` only creates the guild state |
| Dispatch.RegisterKeepsSorted | index.js:40-47 | one registerComponentMap keeps a table equal to the stable sort of all its registrations |
| Dispatch.Bot.LoadCommands | index.js:49-62 | registry, schemas and each of the three tables end as the specification of loading the modules in order, each table filled only from its own export |
| Dispatch.Bot.RegisterCommand | index.js:55-57 | one iteration registers module `i` under its truthy name, overwriting, and yields its schema exactly when it has `toJSON` |
| Dispatch.Bot.FillTables | index.js:59-61 | one iteration appends the module's accepted routes to each table's registrations, each table from its own export, and keeps the tables sorted |
| Dispatch.Bot.RegisterComponents | index.js:59-61 | each table takes the accepted routes of its own export and stays sorted |
| Dispatch.Bot.Dispatch | index.js:96-176 | on a bot whose tables are their sorted registrations, the listener's effects are `Plan`; a matched button, select or modal in a guild invokes the longest, earliest-registered matching route of its kind; the listener itself writes only ensureGuild's defaults, and does so exactly for guild-scoped kinds in a guild; what invoked callbacks write is not modelled here |
| Deploy.UpToEquals | deploy-commands.js:30 | `split('=')[1]` of `--guild=V` is the prefix of `V` that stops before its first `=` |
| Deploy.ParseArgs | deploy-commands.js:25-34 | the loop, including the `argv[++i]` skip, computes `Apply(DEFAULT_ARGS, Tokens(argv, 2))` |
| Deploy.TokensOfSuffix | deploy-commands.js:27-32 | the flags seen from index `i` depend only on `argv[i..]` |
| Deploy.LeadingTokensIgnored | deploy-commands.js:26-27 | the result does not depend on `argv[0]` and `argv[1]` |
| Deploy.ApplyClear | deploy-commands.js:31 | `clear` is set iff some `--clear` token is seen as a flag |
| Deploy.ApplyNoGuild | deploy-commands.js:29-30 | without guild flags `guild` keeps its value |
| Deploy.LastGuildWins | deploy-commands.js:29-30 | the last guild flag determines `guild` |
| Deploy.GuildSwallowsClear | deploy-commands.js:29 | `--guild --clear` sets the guild to `--clear` and leaves `clear` unset, whatever `argv[0]` and `argv[1]` are |
| Deploy.TrailingGuildIgnored | deploy-commands.js:29-32 | a `--guild` with no following token is ignored, whatever `argv[0]` and `argv[1]` are |
| Deploy.GuildValueStopsAtEquals | deploy-commands.js:30 | for every `V`, `--guild=V` gives as guild the prefix of `V` that holds no `=` and is all of `V` or followed by `=` |
| Deploy.EmptyGuildGoesGlobal | deploy-commands.js:59-65 | `--guild=` gives the empty guild id, and the global route is used |
| Deploy.FoundFrom | deploy-commands.js:14-23 | a path is collected from entries `k..` iff one of those entries is that `.js` file or a directory holding it |
| Deploy.WalkFindsJsFiles | deploy-commands.js:14-23 | walk returns exactly the paths of `.js` regular files at any depth below the directory |
| Deploy.FoundAreJs | deploy-commands.js:20 | every returned path ends in `.js` |
| Deploy.Walk | deploy-commands.js:14-23 | the recursive walk computes `Found`, the entries in listing order with each sub-directory's files in place |
| Deploy.ScopeOf | deploy-commands.js:59-65 | the guild route is used iff `args.guild` is non-empty, and then for that guild id; always for the given application id |
| Deploy.LogLine | deploy-commands.js:59-65 | the printed line ends with the decimal count followed by `개` |
| Deploy.FirstMissing | deploy-commands.js:51-52 | there is no failing import iff every walked file imports |
| Deploy.FirstMissingIsFirst | deploy-commands.js:51-52 | the failing file reported is the first walked file whose import fails |
| Deploy.ModulesOfFiles | deploy-commands.js:51-52 | module `i` is the one imported from walked file `i` |
| Deploy.Deploy | deploy-commands.js:36-71 | a missing variable exits with code 1 and the fixed message; otherwise the outcome is `Expected` of the parsed arguments, the walk of the commands path (which fails when it is not a directory) and the imports |
| Deploy.ImportAll | deploy-commands.js:51-56 | the loop stops at the first failing import; otherwise it collects the schemas of the imported modules in walk order |
| Deploy.SubmittedSchemas | deploy-commands.js:47-65 | without `--clear` the submitted list holds exactly `toJSON()` of the walked modules with a name and a `toJSON` function, and the printed count is its length |
| Deploy.ClearSubmitsNothing | deploy-commands.js:47-65 | with `--clear` an empty list is submitted to the selected scope and the count printed is 0, whether or not the commands directory can be walked |
| Deploy.MissingDirFails | deploy-commands.js:14-16 | without `--clear`, a commands path that is not a directory makes main fail before any import or submission |
| AdminPanel.Gate | utils/bot-admin-panel.js:78-88 | the handler acts iff the interaction is a button in the target guild and channel with a `botctl:` id; it proceeds iff the member also has the Administrator bit |
| AdminPanel.JobMapping | utils/bot-admin-panel.js:95-111 | exactly gitpull, deploy and restart run a command (the three fixed commands); exactly refresh refreshes |
| AdminPanel.FieldOr | utils/bot-admin-panel.js:31-33 | a truthy field is shown as is; a missing or falsy one is shown as `-` |
| AdminPanel.EmbedColour | utils/bot-admin-panel.js:27 | green exactly for the status `success`, red exactly for `error`, blue otherwise |
| AdminPanel.FailureText | utils/bot-admin-panel.js:117 | at most 1800 characters of stderr, else stdout, else the error text |
| AdminPanel.StdoutSection | utils/bot-admin-panel.js:124-128 | the STDOUT section is present iff trimmed stdout is non-empty, and it comes first |
| AdminPanel.StderrSection | utils/bot-admin-panel.js:124-128 | the STDERR section is present iff trimmed stderr is non-empty, and it comes last |
| AdminPanel.SuccessReportShape | utils/bot-admin-panel.js:124-129 | empty output is shown as `(출력 없음)`; the report is bounded by the 1800-character cut |
| AdminPanel.UpdateMerges | utils/bot-admin-panel.js:54-58 | after updatePanelMessage the record holds each key of `partial`, and every other key as before; `messageId` and `channelId` are excluded, since they are renewed when the panel message is re-sent |
| AdminPanel.UpdateShowsRecord | utils/bot-admin-panel.js:54-61 | with a reachable channel, the stored message id names a message, and that message shows the merged record |
| AdminPanel.TaskStatuses | utils/bot-admin-panel.js:113-122 | a task first records its label with `진행 중`, then `success` or `error` as the command ended, label unchanged; the command run is the mapped one |
| AdminPanel.RejectedChangesNothing | utils/bot-admin-panel.js:78-88 | ignored and denied presses run nothing and change neither store nor channel; only a denial replies, ephemerally |
| AdminPanel.EnsureFrame | utils/bot-admin-panel.js:38-52 | ensurePanelMessage touches no file of another guild |
| AdminPanel.UpdateFrame | utils/bot-admin-panel.js:54-61 | updatePanelMessage touches no file of another guild |
| AdminPanel.HandleTouchesOnlyTargetGuild | utils/bot-admin-panel.js:77-131 | the panel's listener touches no file of another guild |
| AdminPanel.EnsureReuseOrRecreate | utils/bot-admin-panel.js:45-51 | a resolving message id is reused and nothing beyond ensureGuild is written; otherwise the new id and the channel id are stored and every other field is kept |
| AdminPanel.Panel.EnsurePanelMessage | utils/bot-admin-panel.js:38-52 | the new store, channel and result are `EnsureSpec` of the old state |
| AdminPanel.Panel.UpdatePanelMessage | utils/bot-admin-panel.js:54-61 | writes `{...prev, ...partial}` and leaves the state `Update` of the old one |
| AdminPanel.Panel.HandleButton | utils/bot-admin-panel.js:77-131 | replies, the command run and the new state are `Handle` of the old state |
| AdminPanel.Panel.HandleJobOf | utils/bot-admin-panel.js:90-130 | after the gates: replies, the command run and the new state are `HandleJob` of the old state |
| AdminPanel.Panel.RefreshPanel | utils/bot-admin-panel.js:104-107 | refresh renews only `updatedAt` through updatePanelMessage |
| AdminPanel.Panel.RunTask | utils/bot-admin-panel.js:113-129 | the reply is the success or failure report, and the state is the two record updates around the task |
| SetLog.WithLogChannel | commands/setlog.js:18 | the merged settings are an object with `logChannelId` set to the channel, and every other key as before |
| SetLog.Execute | commands/setlog.js:10-21 | outside a guild: one ephemeral reply, no store access; otherwise defer, read, write the merged settings, then an edit naming the channel |
| SetLog.SetLogThenGetSettings | commands/setlog.js:17-19 | getSettings afterwards has the chosen log channel and every other key of the previous settings |
| SetLog.SetLogIdempotent | commands/setlog.js:17-19 | choosing the same channel again stores the same settings |

## Left out

- discord.js plumbing is not modelled: the client, `login`, event subscription, builders (`rows()`, the embed builder), and REST `put`. Replies, edits, `channels.fetch`, `send` and `edit` are recorded as effects or given as inputs (the `reachable` flag, the new message id). A failing REST `put` or `send` is not modelled.
- Reading a sub-directory that fails during the walk is not modelled. Only a commands path that is not a directory fails (`WalkFailed`, main's rejection with exit code 1).
- Dynamic `import` and `pathToFileURL` are not modelled. Imported modules are given as records; a failed import in deploy-commands.js is the `ImportFailed` outcome, which stands for main's rejection and exit code 1.
- The real file system and JSON text are not modelled. `mkdir`, `readFile`, `writeFile` and their failures, pretty-printing, and parse details become a map from (guild, file name) to the parsed value.
- Storage.BalanceIn: does not model `Number()` coercion or floating point. Balances are integers, and a non-numeric balance reads as 0 (JavaScript would coerce a numeric string or `true`).
- Indexed properties of arrays and strings, and the spread of arrays and strings, are not modelled: only objects have properties.
- Object key order is not modelled, because maps are unordered.
- Path normalisation in `path.join` is not modelled; it is plain `dir + "/" + name`.
- `safeReply`'s swallowing of its own failures is not modelled: a response is recorded as sent.
- Failures of `ensureGuild` or of the log calls inside the listener's `try` are not modelled.
- utils/logger.js, commands/ping.js, the process-level handlers and the `GuildCreate`/`GuildDelete` listeners are not part of this model. Logging is recorded as `LogGuild`/`LogOwner` effects.
- The `ClientReady` handlers (loading commands, ensuring every cached guild, sending the panel) are not modelled as events. `Bot.LoadCommands` and `Panel.EnsurePanelMessage` are the operations they call.
- index.js's own `walk` is not modelled separately; it is the same code as the `walk` of deploy-commands.js.
- Shell execution in `runTask` (timeout, buffer cap) is an input: `TaskRun` is a success with stdout and stderr, or a failure with its error fields.
- Timestamps from `new Date().toISOString()` are inputs (`started`, `finished`).
- Concurrency is not modelled. This covers interleaved handlers, last-write-wins between concurrent read-merge-writes, and the fact that both the main listener and the panel's listener receive `botctl:` buttons. Each listener is modelled on its own.
- String lengths count characters rather than UTF-16 code units, so `slice(0, 1800)` can differ on text outside the Basic Multilingual Plane.
- A stored `messageId` that is not a non-empty string is treated as not resolving. The model does not call `messages.fetch` with a number.
- `setDefaultMemberPermissions` in setlog.js is Discord-side configuration and is not modelled; `execute` itself does not check permissions.

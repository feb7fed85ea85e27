# envbench, modelled in Dafny

envbench is a command-line tool that keeps isolated Blockbench "environments".
Each environment is a folder under a storage root. It holds a `.envbench.json`
descriptor: its name, the tool version that wrote it, a Blockbench version
(`latest`, `beta` or `[v]N.N.N`) and optional launch arguments. Portable
Blockbench builds are downloaded into a cache folder, `.portables`, and
Blockbench is started with `--userData <storage>/<name>` so that environments
never share state.

This project models, as pure functions over immutable state:

- **The environment store** (`environments.dfy`, `descriptors.dfy`, `json.dfy`).
  - State: a map from folder name to `FolderOnly` or `Complete(Parsed(descriptor) | Unparsable)`.
  - The three-way `environmentExists` classification, and the truthiness gap: a bare folder counts as existing.
  - Descriptor reading with validation and read-time defaults.
  - Whole-file writes, the hidden-name listing rule, and the `.`-name and `--userData` checks.
  - The descriptor is a small JSON-like value: a field is `Undefined` or `Defined(json)`.
- **The version resolver and artifact cache** (`versions.dfy`, `cache.dfy`, `pruning.dfy`).
  - Resolution of `latest` and `beta` against a registry snapshot, and stripping of a leading `v`.
  - The 4.10.0 floor and the tag check.
  - Cache file names, and the regex that decodes them back to versions.
  - Install and download, with their failure order.
  - Argument assembly and executable choice of `runBlockbench`.
  - Pruning, as a method with a loop over the cache listing.
- **Configuration** (`settings.dfy`): `%NAME%` expansion and the environment-variable defaults.
- **The commands** (`commands.dfy`, `commandfacts.dfy`): create, rename, modify, quicklaunch, launch/start and remove.
  - Each is a function from a `World` (store and cache) to an `Outcome`: the world it leaves, plus `Done`, `Cancelled`, `Failed(error)` or `Started(launch)`.
  - Every failure keeps the partial state that the steps before it produced.

The tool ships two command sets:

- **Live.** The `_`-prefixed commands, which the entry point registers. They read through `src/util.ts`.
- **Registered.** The other commands, which register through a registry nothing calls. They read through `src/environmentHandler.ts` and also refuse `.`-prefixed names.

One function models each command for both sets, switched by `Commands.CommandSet` (`Live` or `Registered(reading)`). They differ in three places:

- the name check;
- the reader;
- the launch tail. `launch` hands off to a `launchBlockbench` that the version manager does not define (`Commands.Launch.Delegated`). `_start` calls `runBlockbench` (`Commands.Launch.Spawned`).

The validators and `environmentExists` in `src/environmentHandler.ts` are the same as those in `src/util.ts`. The only exception is the `launchArgs` test, so each is defined once. `Descriptors.ReadRule` names the three `launchArgs` tests:

- `UtilRule`: util's test.
- `HandlerRuleAsWritten`: environmentHandler's test as written. A Registered command built with `Registered(AsWritten)` reads with it.
- `HandlerRule`: environmentHandler's test corrected. `Registered(Corrected)` reads with it.

Every Registered command (`Rename`, `Modify`, `Start`, both quicklaunches) takes the `reading` as a parameter. The source as written is the `AsWritten` instance. The `CommandFacts.*AsWritten` lemmas state what it does to an environment `create` has just written; the lemmas about the corrected behaviour say `Corrected`.

Some behaviour of the code is worth stating because a reader might expect otherwise:

- `getInstalledVersions` uses a plain `readdir`. A missing cache folder is therefore an error (`CacheUnreadable`), not an empty list.
- In pruning, a version that fails to resolve aborts the whole prune before anything is unlinked.
- A malformed descriptor ends the listing: its `catch` calls `process.exit`. The listing therefore either succeeds for every visible environment or fails as a whole (`ListingAborted`).
- `runBlockbench` uses `BLOCKBENCH_PATH` only when the stored version string equals the resolved latest. An environment stored as `latest` therefore always runs the portable build.

## Model

| member | source | states |
|---|---|---|
| Settings.ExpandEnv | src/util.ts:28-33 | a string with no `%` comes back from `expandEnv` unchanged |
| Settings.ExpandReferenceAtFront | src/util.ts:28-33 | a leading `%NAME%` becomes that variable's value, or the empty string when it is unset, and the scan continues after it |
| Settings.ExpandFirstReference | src/util.ts:28-33 | the first `%NAME%` in a string is replaced by the variable's value (or empty) while the text before it is kept verbatim |
| Settings.ExpandUnclosed | src/util.ts:28-33 | a `%` with no closing `%` after it is left as it is, after any `%`-free prefix |
| Settings.ExpandDoubledMarker | src/util.ts:28-33 | in `%%`, the first `%` cannot open a reference (`[^%]+` needs a character) and is kept; the scan resumes at the second |
| Settings.ExpandNoReference | src/util.ts:28-33 | any string with no `%NAME%` reference, that is, every `%` doubled or the last one, comes back unchanged: `50%%`, `%%` and `a%%b%` included |
| Settings.FromEnvironment | src/env.ts:17-26 | an explicitly set storage folder, cache folder or Blockbench path wins; otherwise the storage root and the Blockbench path are their `%`-defaults expanded, and the cache folder is `.portables` inside the storage root |
| Settings.DefaultStorageRootExpands | src/env.ts:21 | with no storage folder set, the storage root is `%APPDATA%` expanded followed by `/EnvBench`, not normalised |
| Settings.DefaultBlockbenchPathExpands | src/env.ts:17-19 | with no Blockbench path set, the executable is `%LOCALAPPDATA%` expanded followed by `/Programs/Blockbench/Blockbench.exe`, not normalised |
| Text.Split | src/commands/create.ts:69 | `split(' ')` always yields at least one part |
| Text.SplitParts | src/commands/create.ts:69 | `split` yields one more part than there are separators, and no part contains the separator |
| Text.JoinSplit | src/commands/create.ts:69 | joining the parts of a split with the separator gives back the original string |
| Text.SplitJoin | src/commands/create.ts:69 | splitting a join of separator-free parts gives back exactly those parts |
| Environments.EnvironmentExists | src/util.ts:61-91 | `false` exactly when the folder is absent, `'folder'` when only the folder exists, `'env'` when the descriptor file is there too; the result is truthy exactly when the folder exists |
| Environments.SetEnvironmentFile | src/util.ts:143-158 | succeeds exactly when the folder exists (a bare folder is writable); without force a missing environment is refused with the environment error, with force the write itself fails; success replaces that one descriptor whole and changes nothing else |
| Environments.GetEnvironmentFile | src/util.ts:160-197 | a missing name is an environment error and a bare folder is unreadable; it succeeds exactly when the file parses and passes validation, returning the validated descriptor; util's and the corrected handler reader only return usable descriptors |
| Environments.Erase | src/commands/_remove.ts:22-27 | recursive removal drops exactly that name and keeps every other entry |
| Environments.MakeFolder | src/commands/create.ts:63-67 | `mkdir -p` adds a bare folder for a new name and leaves an existing entry untouched |
| Environments.Move | src/commands/rename.ts:35-41 | the folder and its content move to the new name, the old name disappears, the rest is kept |
| Environments.RemoveEnvironment | src/environmentHandler.ts:150-160 | fails with the environment error exactly when the name is absent; otherwise the folder, even a bare one, is gone and the name classifies as absent |
| Environments.VisibleNames | src/util.ts:206-209 | the listed names are exactly the stored names that are non-empty and do not start with `.` |
| Environments.GetEnvironmentStates | src/util.ts:199-222 | an unreadable storage root lists as `{}`; otherwise the listing succeeds exactly when every visible environment with a file reads, covers exactly the visible names, and maps each to its descriptor or its classification |
| Environments.GetEnvironmentFiles | src/util.ts:224-237 | succeeds with the states listing; it holds exactly the visible names that have a descriptor file, each mapped to what the reader returns for it |
| Environments.CheckEnvironmentName | src/util.ts:298-303 | refuses exactly the names starting with `.` |
| Environments.CheckArgs | src/util.ts:289-296 | refuses exactly the argument lists that contain the element `--userData` |
| Environments.CheckArgsExactElement | src/environmentHandler.ts:169-176 | the test is element equality: `--userData=x` and `--userdata` pass, a separate `--userData` is refused |
| Environments.HiddenNamesUnlisted | src/environmentHandler.ts:110-133 | a `.`-prefixed name never appears in the states or files listing |
| Environments.WriteThenRead | src/util.ts:143-197 | writing a descriptor with a non-empty name into an existing folder makes it an environment that reads back exactly as written |
| Environments.WriteIsolated | src/environmentHandler.ts:60-73 | a write to one name changes neither the classification nor the read of any other name |
| Descriptors.Encode | src/commands/create.ts:72-81 | the stored name and version are the strings given, and `launchArgs` is absent from the file exactly when it was not given |
| Descriptors.Validate | src/util.ts:168-190 | refused exactly when the name is falsy, the version (after defaulting) is not a string, or the rule refuses `launchArgs`; on success the name and `launchArgs` are kept, and the two versions take their defaults only when nullish |
| Descriptors.ValidatedIsUsable | src/util.ts:175-189 | what util's reader or the corrected handler reader accepts has a string version and list-or-absent arguments |
| Descriptors.EncodeValidate | src/util.ts:143-197 | round trip: a descriptor written with a non-empty name reads back unchanged, with its version and arguments as given |
| Descriptors.ValidateSettles | src/util.ts:168-190 | validation is idempotent: its result validates to itself, so writing back what was read reads back the same |
| Descriptors.AsWrittenRejectsStringLists | src/environmentHandler.ts:92-100 | the handler reader as written refuses every descriptor whose `launchArgs` is a list of strings, the empty list included |
| Descriptors.AsWrittenAcceptsNonLists | src/environmentHandler.ts:92-100 | the handler reader as written accepts a number as `launchArgs`, which the corrected reader refuses |
| Descriptors.DefaultsFilled | src/util.ts:173-174 | a descriptor with only a name reads with the tool's version and `latest` filled in |
| Descriptors.NullLaunchArgs | src/util.ts:178-189 | util's reader refuses a `null` `launchArgs` (`!== undefined`) while both handler readers let it through (`!= undefined`) |
| Versions.GetLatestBlockbenchVersion | src/blockbenchVersionManager.ts:122-127 | the latest release's tag when the registry answers, an error otherwise |
| Versions.FirstPrerelease | src/blockbenchVersionManager.ts:133 | none exactly when no release is a prerelease; otherwise the tag of a prerelease, and of the first one in list order |
| Versions.GetLatestBetaBlockbenchVersion | src/blockbenchVersionManager.ts:129-136 | fails exactly when the release list is unavailable or holds no prerelease |
| Versions.StripV | src/blockbenchVersionManager.ts:47 | exactly one leading `v` is removed; any other string is kept |
| Versions.ResolveVersion | src/blockbenchVersionManager.ts:39-48 | no version is an error; `latest` and `beta` go through the registry; anything else resolves to itself minus one leading `v`, with no further check |
| Versions.ResolveExplicit | src/blockbenchVersionManager.ts:39-48 | an explicit version resolves the same with or without a single `v` prefix, and to itself without one |
| Versions.PrefixedSymbolicIsLiteral | src/blockbenchVersionManager.ts:42-47 | `vlatest` is not symbolic: it resolves to the literal string `latest` |
| Versions.ParseVersion | src/blockbenchVersionManager.ts:106 | a parse succeeds only on three non-empty digit strings joined by dots, and yields their decimal values |
| Versions.ParseDotted | src/blockbenchVersionManager.ts:106 | conversely, every three non-empty digit strings joined by dots parse, to their decimal values |
| Versions.MinimumVersionParses | src/blockbenchVersionManager.ts:12 | the floor `4.10.0` parses as (4, 10, 0) |
| Versions.IsValidBlockbenchVersion | src/blockbenchVersionManager.ts:96-120 | offline, every version is valid; online, a resolved version below 4.10.0 is invalid, and any other is valid exactly when the tag `v<version>` exists and names itself |
| Versions.ValidityOfDotted | src/blockbenchVersionManager.ts:96-120 | online, a version resolving to `N.N.N` is valid exactly when it is not numerically below (4, 10, 0) and its tag exists and names itself |
| Versions.NumericFloor | src/blockbenchVersionManager.ts:106-111 | the floor compares numbers, not text: `4.9.0` is refused although it sorts after `4.10.0` as a string |
| Versions.IsOnline | src/util.ts:9-17 | both outcomes of the connectivity probe, `TRUE` and the `FALSE` of a failed probe, count as online; only an unset or empty flag is offline |
| Cache.Extension | src/blockbenchVersionManager.ts:17-36 | every platform's suffix starts with `.` and has at least four characters |
| Cache.StripDecoration | src/blockbenchVersionManager.ts:207 | the decoding regex only ever deletes: a decoded name is never longer than the file name |
| Cache.Undecorate | src/blockbenchVersionManager.ts:207 | the regex's scan after the prefix only deletes |
| Cache.UndecorateExtension | src/blockbenchVersionManager.ts:204-209 | the decoding regex removes each platform's extension entirely |
| Cache.UndecorateVersion | src/blockbenchVersionManager.ts:204-209 | the regex leaves a dotted-digit version intact and removes only what follows it |
| Cache.FileName | src/blockbenchVersionManager.ts:17-36 | a cache file name starts with `blockbench-`, and decoding it recovers the dotted-digit version it was made from, on every platform |
| Cache.FileNameInjective | src/blockbenchVersionManager.ts:17-36 | two different versions never share a cache file name |
| Cache.PortablePath | src/blockbenchVersionManager.ts:92-94 | the portable build lies directly inside the cache folder, under a name that decodes back to the version |
| Cache.GetInstalledVersions | src/blockbenchVersionManager.ts:204-209 | fails exactly when the cache folder is missing; otherwise lists the decoded name of every cached file |
| Cache.IsVersionInstalled | src/blockbenchVersionManager.ts:138-144 | fails exactly when resolution fails; otherwise tells whether the resolved version's file is cached |
| Cache.DownloadNewPortableBlockbench | src/blockbenchVersionManager.ts:57-90 | refused offline, then refused when already cached, then failing when no portable build exists; success adds exactly the version's file |
| Cache.InstallVersion | src/blockbenchVersionManager.ts:146-159 | a failed resolution fails; an already cached version returns the cache unchanged, or fails as already installed when the flag is off; otherwise it succeeds exactly when online with a published portable build, and then adds exactly the resolved version's file |
| Cache.InstallIdempotent | src/blockbenchVersionManager.ts:146-159 | after a successful install the file is cached, a second install with the default flag changes nothing, and one with the flag off is refused |
| Cache.NoSecondDownload | src/blockbenchVersionManager.ts:62-66 | for a version that resolves to itself, a download of a version just downloaded is refused as already installed |
| Cache.DownloadAgainWhenUnresolved | src/blockbenchVersionManager.ts:62-67 | for a version that resolves to something else, such as `v5.0.0`, the second download is not refused: the file is stored under the unresolved name and looked up under the resolved one |
| Cache.LaunchArguments | src/blockbenchVersionManager.ts:178-180 | the final arguments are `--userData`, the environment folder, then the caller's arguments unchanged; `--userData` appears only in first place |
| Cache.RunBlockbench | src/blockbenchVersionManager.ts:161-181 | the cache gains at most the resolved version's file; it launches exactly when the version resolves, its file is cached or the download succeeds, `latest` resolves and the caller passes no `--userData`; after a launch the file is cached; the executable is `BLOCKBENCH_PATH` when the stored version equals the resolved latest and the portable build otherwise |
| Cache.LatestRunsPortable | src/blockbenchVersionManager.ts:172-176 | an environment stored as `latest` runs the portable build of the resolved latest version, never `BLOCKBENCH_PATH` |
| Pruning.DownloadKeepsWellFormed | src/blockbenchVersionManager.ts:83-84 | a cache whose every file is the file of the version it decodes to keeps that property after a download of a dotted-digit version |
| Pruning.LiveSet | src/blockbenchVersionManager.ts:212-218 | succeeds exactly when every readable environment's version resolves, and then holds exactly those resolutions |
| Pruning.UnlinkStale | src/blockbenchVersionManager.ts:220-225 | the unlink loop only removes files; on a well-formed cache it keeps exactly the files whose decoded version is in use |
| Pruning.PruneBlockbenchVersions | src/blockbenchVersionManager.ts:211-226 | files are only ever removed; a failing listing, a missing cache or a failing resolution changes nothing; on a well-formed cache exactly the files whose version no environment uses are unlinked |
| Commands.Create | src/commands/create.ts:18-84 | a `.`-name (registered set only), an existing name without force, and a declined prompt all leave the world unchanged; success happens exactly when every check passes, and stores exactly the new descriptor, with every other name untouched |
| Commands.CreateInto | src/commands/_create.ts:47-76 | version check, then install, then folder, then argument check, then write; a refused version or a failed install changes nothing, and a refused argument list leaves a bare folder |
| Commands.Rename | src/commands/rename.ts:12-46 | the new name is checked (registered set only), the source must exist and the target must not; any change moves exactly that key, leaving every other entry as it was; success happens exactly when the moved descriptor reads with the command's reader, and leaves it under the new name with `name` replaced; the cache is untouched |
| Commands.Modify | src/commands/modify.ts:13-75 | a missing name or a declined prompt changes nothing, nor does a refused argument list; without a rename it succeeds exactly when the descriptor reads, and writes exactly the edited descriptor |
| Commands.Edited | src/commands/modify.ts:47-67 | the version and the arguments are replaced exactly when given, the arguments by the split option; `name` and `envbench_version` are kept |
| Commands.Start | src/commands/_start.ts:8-21 | a missing name or an unreadable descriptor fails with nothing changed; a launch gets the stored arguments followed by the command-line ones, never with `--userData`; `launch` hands over the stored unresolved version, `start` runs `runBlockbench` with it and keeps the cache that run leaves |
| Commands.RunEnvironment | src/commands/_start.ts:19 | the run keeps the store, leaves the cache `runBlockbench` leaves, and launches exactly when it does; a launch has the version's portable file cached and runs the portable build unless the stored version is the resolved latest |
| Commands.Remove | src/commands/delete.ts:5-20 | fails when absent and does nothing when declined; otherwise exactly that name is gone, whatever it held, and the cache is untouched |
| Commands.QuicklaunchName | src/commands/quicklaunch.ts:32-34 | the quicklaunch environment's name starts with `.`, so listings and pruning never see it |
| Commands.QuicklaunchFresh | src/commands/quicklaunch.ts:49-73 | a launched fresh environment holds a descriptor with the version as typed and no `launchArgs` key, which either reader accepts; the launcher gets the version as typed and the command-line arguments; once installed it launches exactly when those arguments hold no `--userData` |
| Commands.QuicklaunchAsWritten | src/commands/quicklaunch.ts:26-73 | an invalid version or a failed install changes nothing; without reset an existing environment is reused unchanged; with reset an existing environment is removed and the launch fails as missing |
| Commands.Quicklaunch | src/commands/quicklaunch.ts:26-73 | the same checks before any change; with `--reset`, or for a new version, a launch happens only from a freshly written descriptor, with the version as typed |
| CommandFacts.CreateThenRead | src/commands/create.ts:69-81 | after a successful create, util's reader and the corrected handler reader return exactly the written descriptor, with the version as typed and the arguments as split |
| CommandFacts.CreateThenLaunch | src/commands/launch.ts:13-25 | create then launch hands the launcher the version as typed and the created arguments followed by the command-line ones |
| CommandFacts.CreateThenReadAsWritten | src/environmentHandler.ts:92-100 | the handler reader as written refuses every environment a successful create has just written |
| CommandFacts.CreateThenLaunchAsWritten | src/commands/launch.ts:13-21 | as written, `launch` of an environment just created fails reading it, with nothing changed |
| CommandFacts.CreateThenModifyAsWritten | src/commands/modify.ts:44-45 | as written, `modify` of an environment just created fails reading it, with nothing written |
| CommandFacts.CreateThenRenameAsWritten | src/commands/rename.ts:35-44 | as written, `rename` of an environment just created moves the folder and then fails, leaving the descriptor under the new name with the old `name` |
| CommandFacts.ForcedCreateErasesFirst | src/commands/create.ts:38-58 | with force, an invalid version leaves no environment at all under that name, and the cache unchanged |
| CommandFacts.RejectedArgsLeaveFolder | src/commands/create.ts:62-70 | a `--userData` among the creation arguments leaves a bare folder that start/launch then cannot read |
| CommandFacts.DotNamesCreatedButUnlisted | src/commands/_create.ts:12-17 | the live create accepts a `.`-name, which then never lists; the registered create refuses it |
| CommandFacts.RenameCarriesDescriptor | src/commands/rename.ts:34-44 | after a rename the old name is absent and the new one reads as the old descriptor, defaults included, with `name` replaced |
| CommandFacts.RenameOfBareFolder | src/commands/_rename.ts:33-43 | renaming a bare folder moves it and then fails, leaving it bare under the new name |
| CommandFacts.SelfRenameRefused | src/commands/rename.ts:18-21 | renaming an environment to its own name is refused as taken, with nothing changed |
| CommandFacts.EditedIsSettled | src/commands/modify.ts:47-67 | modify's edits replace the version and the arguments only when given, keep `name` and `envbench_version`, and keep the descriptor readable |
| CommandFacts.ModifyThenRead | src/commands/modify.ts:44-70 | without a rename, the environment reads back as the old descriptor with the edits applied |
| CommandFacts.ModifyThenRename | src/commands/modify.ts:69-74 | with a rename, the edits are carried to the new name and the old name is gone |
| CommandFacts.ModifyEditsSurviveFailedRename | src/commands/modify.ts:69-74 | a rename refused because the target exists leaves the edits already written under the old name, with either reader, and the corrected reader reads them back |
| CommandFacts.RemoveSetsAgree | src/commands/_remove.ts:6-29 | both remove commands behave identically |
| CommandFacts.RemovedCannotStart | src/commands/delete.ts:5-20 | a removed environment can be neither started nor launched, and the cache is unchanged |
| CommandFacts.QuicklaunchResetAsWritten | src/commands/quicklaunch.ts:36-48 | as written, `--reset` of an existing environment removes it and then fails launching it |
| CommandFacts.QuicklaunchResetRecreates | src/commands/quicklaunch.ts:36-73 | corrected, `--reset` leaves a fresh environment and launches it with the version as typed and the command-line arguments |
| CommandFacts.QuicklaunchCorrectionIsLocal | src/commands/quicklaunch.ts:36-73 | the correction changes nothing except `--reset` of an existing environment |

## Left out

- The network. The registry is an immutable snapshot (`Versions.Registry`): the latest tag, the release list and the tag lookup table. Whether a portable build can be downloaded is the set `portables`. URLs, HTTP status texts and the download bytes are not modelled.
- Processes. Spawning, exit codes, stdout piping and `startEnvironment` are left out. `runBlockbench` is modelled up to the process it would start (`Cache.Spawn`). `launch` ends in a hand-off to `launchBlockbench`, which is not part of this model because the version manager does not define it.
- The terminal. Logging, spinners and menus are left out. Every confirmation prompt is a boolean `answer` parameter.
- JSON text. `JSON.stringify` and `JSON.parse` are replaced by the structured value they round-trip. Numbers are integers. Keys other than the four descriptor fields are dropped. Every parse failure is `Unparsable`.
- Paths. `path.join` is modelled as string concatenation with `/`, with no normalisation, and `pathjs.normalize` around the defaults at src/env.ts:17-21 is left out. The model therefore does not cover `..` in names, an environment called `.portables` aliasing the cache, or a cache folder placed outside the storage root. Nor does it cover the empty name, for which `path.join(root, '')` is the storage root itself (see the lines below).
- Commands.Create: treats the empty name as an ordinary new key. In the source the empty name denotes the storage root, which exists, so `create ''` is refused as existing, and `create '' --force` removes the whole storage root, every environment included, before creating.
- Commands.Remove: treats the empty name as absent. In the source `remove ''` removes the whole storage root.
- Commands.Rename: treats the empty name as absent. In the source a rename from or to `''` moves the storage root itself.
- Commands.Start: with the handler reader as written, a `launchArgs` that is not a list of strings passes the read. The model stops there with `LaunchArgsNotList`. launch.ts would spread it: a string into its characters, a list as it is, anything else throwing.
- Settings.DefaultStorageRootExpands: the default storage root is not passed through `pathjs.normalize` (src/env.ts:21). On Windows that call turns `/` into `\` and collapses doubled separators. Path normalisation is not modelled at all (see Paths).
- Settings.DefaultBlockbenchPathExpands: the default Blockbench path is not passed through `pathjs.normalize` (src/env.ts:17-19), for the same reason.
- Cache.NoSecondDownload: requires that the version resolves to itself. `downloadNewPortableBlockbench` writes the file under the version it is given, but `isVersionInstalled` looks it up after resolving it again. A version that loses a `v` is therefore downloaded again each time, which `Cache.DownloadAgainWhenUnresolved` states.
- Configuration. Configuration comes from a map of variables read once. Windows' case-insensitive variable lookup is not modelled, and neither is `BLOCKBENCH_DEFUALT_USER_DATA`, which nothing reads.
- File-system failures. Failures of `rm`, `mkdir`, `rename` and `writeFile` on an existing folder all end in `process.exit(1)`, and are not modelled. The only write failure modelled is writing into a missing folder.
- `start` accepts `--ignore-missing` but never reads it, so the option is not modelled.
- Versions.ParseVersion: accepts only `N.N.N` with decimal digits. The `compare-versions` library is not part of this model. Any other form it may accept, such as a pre-release suffix or fewer components, becomes `UncomparableVersion` here.
- Versions.IsValidBlockbenchVersion: is weaker than the source for versions the comparison library accepts but `Versions.ParseVersion` does not. Those fail with `UncomparableVersion` instead of being compared.
- Cache.InstallIdempotent: requires that the resolved version resolves to itself. `installVersion` resolves twice, so a version like `vv5.0.0` loses two `v`s in one path and one in the other.
- Concurrency. Two invocations racing on the same storage root are not modelled.
- The listing, info, menu, version and help commands, and the registration glue, are not part of this model.

## Findings

| source | as written | input that shows it | evidently intended | confidence | as-written member | corrected member |
|---|---|---|---|---|---|---|
| src/environmentHandler.ts:92-100 | throws when `launchArgs` is an array of strings, which is the valid case | any environment written by `create`, whose `launchArgs` is always a list, e.g. `[]` | throw when `launchArgs` is defined and NOT an array of strings, as in src/util.ts:178-189 | high; not executed | CommandFacts.CreateThenLaunchAsWritten | CommandFacts.CreateThenLaunch |
| src/commands/quicklaunch.ts:36-73 | with `--reset`, removes the existing environment and then launches that same, now missing, environment | `quicklaunch 4.12.0 --reset` when `.quicklaunch-4.12.0` exists | erase the environment, then recreate it as for a first quicklaunch, then launch | high; not executed | CommandFacts.QuicklaunchResetAsWritten | CommandFacts.QuicklaunchResetRecreates |

For the first finding, the as-written half is every Registered command with `Registered(AsWritten)`. `CommandFacts.CreateThenLaunchAsWritten`, `CreateThenModifyAsWritten` and `CreateThenRenameAsWritten` state its effect on a created environment. The corrected half is `Registered(Corrected)`. For the second, `Commands.QuicklaunchAsWritten` is the quicklaunch as written and `Commands.Quicklaunch` the corrected one.

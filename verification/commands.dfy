/**
 * The commands of src/commands/: each one a transition of the storage root
 * and the artifact cache, ending in success, a cancellation (exit status 0)
 * or a failure (exit status 1) in whatever state the steps before it left.
 *
 * Two command sets exist side by side. The `_`-prefixed files (`Live`) use
 * src/util.ts; the others (`Registered`) use src/environmentHandler.ts and
 * also check environment names. Where the two are step-for-step the same one
 * function serves both, switched by `CommandSet`. environmentHandler's reader
 * has its `launchArgs` test inverted; `Reading` says whether a registered
 * command reads with that test as written or corrected.
 */
module Commands {
  import opened Results
  import opened Errors
  import opened Text
  import opened Json
  import opened Settings
  import opened Descriptors
  import opened Environments
  import opened Versions
  import opened Cache

  /** Everything a command can change. */
  datatype World = World(store: Store, cache: CacheDir)

  /** What a command reads but never changes: configuration, registry snapshot, online flag. */
  datatype Context = Context(cfg: Config, registry: Registry, online: Option<string>)

  /**
   * The launch a command ends in: a call to the `launchBlockbench` that
   * src/commands/launch.ts imports (the manager does not define it), or the
   * process `runBlockbench` spawns.
   */
  datatype Launch = Delegated(version: string, name: string, args: seq<string>) | Spawned(spawn: Spawn)

  datatype Status = Done | Cancelled | Failed(error: Error) | Started(launch: Launch)

  /** The state a command leaves and how it ended. */
  datatype Outcome = Outcome(world: World, status: Status)

  /** environmentHandler's `launchArgs` test as written, or put the right way round. */
  datatype Reading = AsWritten | Corrected

  datatype CommandSet = Live | Registered(reading: Reading)

  /** Descriptor reads: util's rule for `Live`, environmentHandler's for `Registered`. */
  function Rule(cs: CommandSet): (r: ReadRule)
    ensures r == UtilRule <==> cs.Live?
    ensures r == HandlerRuleAsWritten <==> cs == Registered(AsWritten)
  {
    match cs
    case Live => UtilRule
    case Registered(AsWritten) => HandlerRuleAsWritten
    case Registered(Corrected) => HandlerRule
  }

  /** Only the `Registered` set refuses `.`-prefixed names. */
  predicate NameAdmitted(cs: CommandSet, name: string) {
    cs.Live? || CheckEnvironmentName(name).None?
  }

  /** `option?.split(' ') ?? []`. */
  function SplitOption(o: Option<string>): seq<string> {
    if o.Some? then Split(o.value, ' ') else []
  }

  /** JavaScript truthiness of an optional string option. */
  predicate Given(o: Option<string>) {
    o.Some? && o.value != ""
  }

  // ---- create -------------------------------------------------------------

  datatype CreateOptions = CreateOptions(force: bool, confirm: bool, launchArgs: Option<string>, version: string)

  /** The descriptor a creation writes. */
  function CreatedDescriptor(cfg: Config, name: string, opts: CreateOptions): Descriptor {
    Descriptor(name, cfg.toolVersion, opts.version, Some(SplitOption(opts.launchArgs)))
  }

  /**
   * `create(name, options)` (create.ts and _create.ts). `answer` is the
   * reply to the confirmation prompt, asked unless `--confirm` is given.
   */
  function Create(ctx: Context, w: World, cs: CommandSet, name: string, opts: CreateOptions, answer: bool): (o: Outcome)
    ensures !NameAdmitted(cs, name) ==> o == Outcome(w, Failed(ReservedName(name)))
    ensures NameAdmitted(cs, name) && name in w.store.entries && !opts.force ==> o == Outcome(w, Failed(NameTaken(name)))
    ensures NameAdmitted(cs, name) && (name !in w.store.entries || opts.force) && !opts.confirm && !answer ==>
      o == Outcome(w, Cancelled)
    ensures o.status == Done <==>
      && NameAdmitted(cs, name)
      && (name !in w.store.entries || opts.force)
      && (opts.confirm || answer)
      && IsValidBlockbenchVersion(opts.version, ctx.online, ctx.registry) == Success(true)
      && InstallVersion(opts.version, true, ctx.online, ctx.registry, ctx.cfg.platform, w.cache).Success?
      && CheckArgs(SplitOption(opts.launchArgs)).None?
    ensures o.status == Done ==>
      && o.world.cache == InstallVersion(opts.version, true, ctx.online, ctx.registry, ctx.cfg.platform, w.cache).value
      && o.world.store.entries == w.store.entries[name := Complete(Parsed(Encode(CreatedDescriptor(ctx.cfg, name, opts))))]
    ensures forall n :: n != name ==> (n in o.world.store.entries <==> n in w.store.entries)
    ensures forall n :: n != name && n in w.store.entries ==> o.world.store.entries[n] == w.store.entries[n]
  {
    if !NameAdmitted(cs, name) then Outcome(w, Failed(ReservedName(name)))
    else
      var present := EnvironmentExists(w.store, name).Truthy();
      if present && !opts.force then Outcome(w, Failed(NameTaken(name)))
      else if !opts.confirm && !answer then Outcome(w, Cancelled)
      else
        var cleared := if present then w.(store := Erase(w.store, name)) else w;
        CreateInto(ctx, cleared, name, opts)
  }

  /**
   * The steps of a creation after the old folder is gone: validate the
   * version, install it, make the folder, split and check the arguments,
   * write the descriptor with `force`.
   */
  function CreateInto(ctx: Context, w: World, name: string, opts: CreateOptions): (o: Outcome)
    requires name !in w.store.entries
    ensures o.status.Failed? || o.status == Done
    ensures IsValidBlockbenchVersion(opts.version, ctx.online, ctx.registry) != Success(true) ==> o.world == w
    ensures InstallVersion(opts.version, true, ctx.online, ctx.registry, ctx.cfg.platform, w.cache).Failure? ==> o.world == w
    ensures o.world != w ==>
      && IsValidBlockbenchVersion(opts.version, ctx.online, ctx.registry) == Success(true)
      && InstallVersion(opts.version, true, ctx.online, ctx.registry, ctx.cfg.platform, w.cache).Success?
      && o.world.cache == InstallVersion(opts.version, true, ctx.online, ctx.registry, ctx.cfg.platform, w.cache).value
      && o.world.store.entries == w.store.entries[name := if o.status == Done
           then Complete(Parsed(Encode(CreatedDescriptor(ctx.cfg, name, opts)))) else FolderOnly]
    ensures o.status == Done <==>
      && IsValidBlockbenchVersion(opts.version, ctx.online, ctx.registry) == Success(true)
      && InstallVersion(opts.version, true, ctx.online, ctx.registry, ctx.cfg.platform, w.cache).Success?
      && CheckArgs(SplitOption(opts.launchArgs)).None?
    ensures o.world.store.readable == w.store.readable
  {
    match IsValidBlockbenchVersion(opts.version, ctx.online, ctx.registry)
    case Failure(e) => Outcome(w, Failed(e))
    case Success(valid) =>
      if !valid then Outcome(w, Failed(InvalidVersion(opts.version)))
      else
        match InstallVersion(opts.version, true, ctx.online, ctx.registry, ctx.cfg.platform, w.cache)
        case Failure(e) => Outcome(w, Failed(e))
        case Success(cache) =>
          var made := World(MakeFolder(w.store, name), cache);
          var args := SplitOption(opts.launchArgs);
          match CheckArgs(args)
          case Some(e) => Outcome(made, Failed(e))
          case None =>
            match SetEnvironmentFile(made.store, name, Encode(CreatedDescriptor(ctx.cfg, name, opts)), true)
            case Failure(e) => Outcome(made, Failed(e))
            case Success(s) => Outcome(made.(store := s), Done)
  }

  // ---- rename -------------------------------------------------------------

  /**
   * `rename(name, newName, options)` (rename.ts and _rename.ts): the folder
   * is moved first, then its descriptor is read under the new name and
   * written back with `name` set to the new name.
   */
  function Rename(ctx: Context, w: World, cs: CommandSet, name: string, newName: string, confirm: bool, answer: bool): (o: Outcome)
    ensures o.world.cache == w.cache
    ensures !NameAdmitted(cs, newName) ==> o == Outcome(w, Failed(ReservedName(newName)))
    ensures NameAdmitted(cs, newName) && name !in w.store.entries ==> o == Outcome(w, Failed(EnvironmentMissing(name)))
    ensures NameAdmitted(cs, newName) && name in w.store.entries && newName in w.store.entries ==>
      o == Outcome(w, Failed(NameTaken(newName)))
    ensures NameAdmitted(cs, newName) && name in w.store.entries && newName !in w.store.entries && !confirm && !answer ==>
      o == Outcome(w, Cancelled)
    ensures o.world != w ==>
      && name in w.store.entries && newName !in w.store.entries
      && name !in o.world.store.entries
      && o.world.store.entries.Keys == w.store.entries.Keys - {name} + {newName}
      && (forall n :: n in w.store.entries && n != name ==> o.world.store.entries[n] == w.store.entries[n])
    ensures o.status == Done <==>
      && NameAdmitted(cs, newName)
      && name in w.store.entries && newName !in w.store.entries
      && (confirm || answer)
      && GetEnvironmentFile(Move(w.store, name, newName), newName, Rule(cs), ctx.cfg.toolVersion).Success?
    ensures o.status == Done ==>
      var read := GetEnvironmentFile(Move(w.store, name, newName), newName, Rule(cs), ctx.cfg.toolVersion).value;
      && newName in o.world.store.entries
      && o.world.store.entries[newName] == Complete(Parsed(read.(name := Defined(JString(newName)))))
  {
    if !NameAdmitted(cs, newName) then Outcome(w, Failed(ReservedName(newName)))
    else if !EnvironmentExists(w.store, name).Truthy() then Outcome(w, Failed(EnvironmentMissing(name)))
    else if EnvironmentExists(w.store, newName).Truthy() then Outcome(w, Failed(NameTaken(newName)))
    else if !confirm && !answer then Outcome(w, Cancelled)
    else
      var moved := w.(store := Move(w.store, name, newName));
      match GetEnvironmentFile(moved.store, newName, Rule(cs), ctx.cfg.toolVersion)
      case Failure(e) => Outcome(moved, Failed(e))
      case Success(raw) =>
        match SetEnvironmentFile(moved.store, newName, raw.(name := Defined(JString(newName))), false)
        case Failure(e) => Outcome(moved, Failed(e))
        case Success(s) => Outcome(moved.(store := s), Done)
  }

  // ---- modify -------------------------------------------------------------

  datatype ModifyOptions = ModifyOptions(force: bool, rename: Option<string>, launchArgs: Option<string>, version: Option<string>)

  /** The descriptor after modify's field edits: only the fields given are replaced. */
  function Edited(raw: RawDescriptor, opts: ModifyOptions): (r: RawDescriptor)
    ensures r.name == raw.name && r.envbenchVersion == raw.envbenchVersion
    ensures r.blockbenchVersion == if Given(opts.version) then Defined(JString(opts.version.value)) else raw.blockbenchVersion
    ensures Given(opts.launchArgs) ==> IsStringArray(r.launchArgs) && StringsOf(r.launchArgs.value.items) == Split(opts.launchArgs.value, ' ')
    ensures !Given(opts.launchArgs) ==> r.launchArgs == raw.launchArgs
  {
    StringArrayRoundTrip(if Given(opts.launchArgs) then Split(opts.launchArgs.value, ' ') else []);
    var withArgs := if Given(opts.launchArgs) then raw.(launchArgs := Defined(StringArray(Split(opts.launchArgs.value, ' ')))) else raw;
    if Given(opts.version) then withArgs.(blockbenchVersion := Defined(JString(opts.version.value))) else withArgs
  }

  /**
   * `modify(name, options)` (modify.ts): edit the launch arguments and the
   * version, write without `force`, then rename (with its own checks) if asked.
   */
  function Modify(ctx: Context, w: World, reading: Reading, name: string, opts: ModifyOptions, answer: bool): (o: Outcome)
    ensures o.world.cache == w.cache
    ensures name !in w.store.entries ==> o == Outcome(w, Failed(EnvironmentMissing(name)))
    ensures name in w.store.entries && !opts.force && !answer ==> o == Outcome(w, Cancelled)
    ensures name in w.store.entries && (opts.force || answer) && Given(opts.launchArgs) && CheckArgs(Split(opts.launchArgs.value, ' ')).Some? ==>
      o.world == w && o.status.Failed?
    ensures !Given(opts.rename) ==>
      (o.status == Done <==>
        && name in w.store.entries && (opts.force || answer)
        && GetEnvironmentFile(w.store, name, Rule(Registered(reading)), ctx.cfg.toolVersion).Success?
        && !(Given(opts.launchArgs) && CheckArgs(Split(opts.launchArgs.value, ' ')).Some?))
    ensures !Given(opts.rename) && o.status == Done ==>
      var read := GetEnvironmentFile(w.store, name, Rule(Registered(reading)), ctx.cfg.toolVersion).value;
      && o.world.store == SetEnvironmentFile(w.store, name, Edited(read, opts), false).value
      && o.world.store.entries[name] == Complete(Parsed(Edited(read, opts)))
  {
    if !EnvironmentExists(w.store, name).Truthy() then Outcome(w, Failed(EnvironmentMissing(name)))
    else if !opts.force && !answer then Outcome(w, Cancelled)
    else
      match GetEnvironmentFile(w.store, name, Rule(Registered(reading)), ctx.cfg.toolVersion)
      case Failure(e) => Outcome(w, Failed(e))
      case Success(raw) =>
        if Given(opts.launchArgs) && CheckArgs(Split(opts.launchArgs.value, ' ')).Some? then Outcome(w, Failed(IsolationFlag))
        else
          match SetEnvironmentFile(w.store, name, Edited(raw, opts), false)
          case Failure(e) => Outcome(w, Failed(e))
          case Success(s) =>
            var written := w.(store := s);
            if Given(opts.rename) then Rename(ctx, written, Registered(reading), name, opts.rename.value, true, true)
            else Outcome(written, Done)
  }

  // ---- launch / start -----------------------------------------------------

  /**
   * `launch(name, options)` (launch.ts, `Registered`) and `start(name,
   * options)` (_start.ts, `Live`): the stored arguments followed by the
   * command-line ones, checked for `--userData`. `launch` hands them to the
   * launcher with the stored (unresolved) version; `start` runs
   * `runBlockbench`, which may download the version first. A `launchArgs`
   * that is not a list of strings, which only the handler reader as written
   * lets through, is not spread into arguments.
   */
  function Start(ctx: Context, w: World, cs: CommandSet, name: string, cliArgs: Option<string>): (o: Outcome)
    ensures o.world.store == w.store
    ensures cs.Registered? ==> o.world == w
    ensures name !in w.store.entries ==> o == Outcome(w, Failed(EnvironmentMissing(name)))
    ensures GetEnvironmentFile(w.store, name, Rule(cs), ctx.cfg.toolVersion).Failure? ==> o.world == w && o.status.Failed?
    ensures o.status == Failed(LaunchArgsNotList(name)) ==> cs == Registered(AsWritten)
    ensures o.status.Started? ==>
      var raw := GetEnvironmentFile(w.store, name, Rule(cs), ctx.cfg.toolVersion).value;
      && Usable(raw)
      && var args := StoredArgs(raw) + SplitOption(cliArgs);
      && IsolationFlagName !in args
      && (cs.Registered? ==> o.status.launch == Delegated(VersionOf(raw), name, args))
      && (cs.Live? ==>
            && o.status.launch.Spawned?
            && o.status.launch.spawn.args == [IsolationFlagName, PathJoin(ctx.cfg.storageRoot, name)] + args)
    ensures cs.Live? && GetEnvironmentFile(w.store, name, UtilRule, ctx.cfg.toolVersion).Success? ==>
      var raw := GetEnvironmentFile(w.store, name, UtilRule, ctx.cfg.toolVersion).value;
      var args := StoredArgs(raw) + SplitOption(cliArgs);
      && (IsolationFlagName in args ==> o == Outcome(w, Failed(IsolationFlag)))
      && (IsolationFlagName !in args ==> o == RunEnvironment(ctx, w, name, VersionOf(raw), args))
    ensures o.status.Failed? || o.status.Started?
  {
    if !EnvironmentExists(w.store, name).Truthy() then Outcome(w, Failed(EnvironmentMissing(name)))
    else
      match GetEnvironmentFile(w.store, name, Rule(cs), ctx.cfg.toolVersion)
      case Failure(e) => Outcome(w, Failed(e))
      case Success(raw) =>
        if !Usable(raw) then Outcome(w, Failed(LaunchArgsNotList(name)))
        else
          var args := StoredArgs(raw) + SplitOption(cliArgs);
          if CheckArgs(args).Some? then Outcome(w, Failed(IsolationFlag))
          else if cs.Registered? then Outcome(w, Started(Delegated(VersionOf(raw), name, args)))
          else RunEnvironment(ctx, w, name, VersionOf(raw), args)
  }

  /**
   * The tail of `start`: `runBlockbench` with the stored version. The cache
   * keeps whatever the run downloaded; a launch runs with the version's
   * portable file cached, unless the stored version is the resolved latest.
   */
  function RunEnvironment(ctx: Context, w: World, name: string, version: string, args: seq<string>): (o: Outcome)
    ensures o.world.store == w.store
    ensures o.world.cache == RunBlockbench(version, name, args, ctx.cfg, ctx.online, ctx.registry, w.cache).0
    ensures o.status.Started? <==> RunBlockbench(version, name, args, ctx.cfg, ctx.online, ctx.registry, w.cache).1.Success?
    ensures o.status.Failed? || o.status.Started?
    ensures o.status.Started? ==>
      && o.status.launch.Spawned?
      && o.status.launch.spawn.args == [IsolationFlagName, PathJoin(ctx.cfg.storageRoot, name)] + args
      && ResolveVersion(Some(version), ctx.registry).Success?
      && ResolveVersion(Some(LatestName), ctx.registry).Success?
      && FileName(ctx.cfg.platform, ResolveVersion(Some(version), ctx.registry).value) in Files(o.world.cache)
      && o.status.launch.spawn.executable ==
           if version == ResolveVersion(Some(LatestName), ctx.registry).value then ctx.cfg.blockbenchPath
           else PortablePath(ctx.cfg, ResolveVersion(Some(version), ctx.registry).value)
  {
    var run := RunBlockbench(version, name, args, ctx.cfg, ctx.online, ctx.registry, w.cache);
    var status := if run.1.Success? then Started(Spawned(run.1.value)) else Failed(run.1.error);
    Outcome(w.(cache := run.0), status)
  }

  // ---- remove -------------------------------------------------------------

  /**
   * `remove(name, options)` (delete.ts and _remove.ts): the folder is removed
   * recursively, whatever it holds; the cache is never touched.
   */
  function Remove(w: World, cs: CommandSet, name: string, confirm: bool, answer: bool): (o: Outcome)
    ensures o.world.cache == w.cache
    ensures name !in w.store.entries ==> o == Outcome(w, Failed(EnvironmentMissing(name)))
    ensures name in w.store.entries && !confirm && !answer ==> o == Outcome(w, Cancelled)
    ensures o.status == Done <==> name in w.store.entries && (confirm || answer)
    ensures o.status == Done ==> EnvironmentExists(o.world.store, name) == Absent
    ensures forall n :: n != name ==> EnvironmentExists(o.world.store, n) == EnvironmentExists(w.store, n)
    ensures forall n :: n != name && n in w.store.entries ==> n in o.world.store.entries && o.world.store.entries[n] == w.store.entries[n]
  {
    if !EnvironmentExists(w.store, name).Truthy() then Outcome(w, Failed(EnvironmentMissing(name)))
    else if !confirm && !answer then Outcome(w, Cancelled)
    else if cs.Live? then Outcome(w.(store := Erase(w.store, name)), Done)
    else
      match RemoveEnvironment(w.store, name)
      case Failure(e) => Outcome(w, Failed(e))
      case Success(s) => Outcome(w.(store := s), Done)
  }

  // ---- quicklaunch --------------------------------------------------------

  /** The hidden environment quicklaunch uses, named after the version as typed. */
  function QuicklaunchName(version: string): (name: string)
    ensures StartsWithChar(name, '.') && !Visible(name)
  {
    ".quicklaunch-" + version
  }

  /** The descriptor quicklaunch writes: no `launchArgs` key. */
  function QuicklaunchDescriptor(cfg: Config, version: string): Descriptor {
    Descriptor(QuicklaunchName(version), cfg.toolVersion, version, None)
  }

  /**
   * quicklaunch.ts:49-69: install again, make the folder, write the
   * descriptor with `force`, launch. Every reader accepts the descriptor,
   * which has no `launchArgs`, so the launcher gets the version as typed.
   */
  function QuicklaunchFresh(ctx: Context, w: World, reading: Reading, version: string, launchArgs: Option<string>): (o: Outcome)
    requires QuicklaunchName(version) !in w.store.entries
    ensures o.status.Failed? || o.status.Started?
    ensures o.status.Started? ==>
      && QuicklaunchName(version) in o.world.store.entries
      && o.world.store.entries[QuicklaunchName(version)] == Complete(Parsed(Encode(QuicklaunchDescriptor(ctx.cfg, version))))
      && o.status.launch == Delegated(version, QuicklaunchName(version), SplitOption(launchArgs))
    ensures InstallVersion(version, true, ctx.online, ctx.registry, ctx.cfg.platform, w.cache).Success? ==>
      (o.status.Started? <==> IsolationFlagName !in SplitOption(launchArgs))
  {
    var envName := QuicklaunchName(version);
    var d := QuicklaunchDescriptor(ctx.cfg, version);
    EncodeValidate(d, Rule(Registered(reading)), ctx.cfg.toolVersion);
    assert StoredArgs(Encode(d)) + SplitOption(launchArgs) == SplitOption(launchArgs);
    match InstallVersion(version, true, ctx.online, ctx.registry, ctx.cfg.platform, w.cache)
    case Failure(e) => Outcome(w, Failed(e))
    case Success(cache) =>
      var made := World(MakeFolder(w.store, envName), cache);
      match SetEnvironmentFile(made.store, envName, Encode(d), true)
      case Failure(e) => Outcome(made, Failed(e))
      case Success(s) => Start(ctx, made.(store := s), Registered(reading), envName, launchArgs)
  }

  /**
   * `quicklaunch(version, options)` as written: validate and install first;
   * an existing environment is reused, or with `--reset` removed (an
   * `EnvironmentError` from the removal is ignored) and then launched, which
   * fails because the environment is gone.
   */
  function QuicklaunchAsWritten(ctx: Context, w: World, reading: Reading, version: string, launchArgs: Option<string>, reset: bool): (o: Outcome)
    ensures IsValidBlockbenchVersion(version, ctx.online, ctx.registry) != Success(true) ==> o.world == w && o.status.Failed?
    ensures InstallVersion(version, true, ctx.online, ctx.registry, ctx.cfg.platform, w.cache).Failure? ==> o.world == w && o.status.Failed?
    ensures !reset && QuicklaunchName(version) in w.store.entries ==> o.world.store == w.store
    ensures (&& reset && QuicklaunchName(version) in w.store.entries
             && IsValidBlockbenchVersion(version, ctx.online, ctx.registry) == Success(true)
             && InstallVersion(version, true, ctx.online, ctx.registry, ctx.cfg.platform, w.cache).Success?) ==>
      && o.status == Failed(EnvironmentMissing(QuicklaunchName(version)))
      && EnvironmentExists(o.world.store, QuicklaunchName(version)) == Absent
    ensures QuicklaunchName(version) !in w.store.entries && o.status.Started? ==>
      && QuicklaunchName(version) in o.world.store.entries
      && o.world.store.entries[QuicklaunchName(version)] == Complete(Parsed(Encode(QuicklaunchDescriptor(ctx.cfg, version))))
    ensures o.status.Failed? || o.status.Started?
  {
    match IsValidBlockbenchVersion(version, ctx.online, ctx.registry)
    case Failure(e) => Outcome(w, Failed(e))
    case Success(valid) =>
      if !valid then Outcome(w, Failed(InvalidVersion(version)))
      else
        match InstallVersion(version, true, ctx.online, ctx.registry, ctx.cfg.platform, w.cache)
        case Failure(e) => Outcome(w, Failed(e))
        case Success(cache) =>
          var installed := w.(cache := cache);
          var envName := QuicklaunchName(version);
          if EnvironmentExists(installed.store, envName).Truthy() then
            var kept :=
              if !reset then installed
              else match RemoveEnvironment(installed.store, envName)
                case Success(s) => installed.(store := s)
                case Failure(_) => installed;
            Start(ctx, kept, Registered(reading), envName, launchArgs)
          else QuicklaunchFresh(ctx, installed, reading, version, launchArgs)
  }

  /**
   * `quicklaunch` with `--reset` doing what it describes: the old
   * environment is erased and a fresh one created before the launch.
   */
  function Quicklaunch(ctx: Context, w: World, reading: Reading, version: string, launchArgs: Option<string>, reset: bool): (o: Outcome)
    ensures IsValidBlockbenchVersion(version, ctx.online, ctx.registry) != Success(true) ==> o.world == w && o.status.Failed?
    ensures InstallVersion(version, true, ctx.online, ctx.registry, ctx.cfg.platform, w.cache).Failure? ==> o.world == w && o.status.Failed?
    ensures !reset && QuicklaunchName(version) in w.store.entries ==> o.world.store == w.store
    ensures (reset || QuicklaunchName(version) !in w.store.entries) && o.status.Started? ==>
      && QuicklaunchName(version) in o.world.store.entries
      && o.world.store.entries[QuicklaunchName(version)] == Complete(Parsed(Encode(QuicklaunchDescriptor(ctx.cfg, version))))
      && o.status.launch == Delegated(version, QuicklaunchName(version), SplitOption(launchArgs))
    ensures o.status.Failed? || o.status.Started?
  {
    match IsValidBlockbenchVersion(version, ctx.online, ctx.registry)
    case Failure(e) => Outcome(w, Failed(e))
    case Success(valid) =>
      if !valid then Outcome(w, Failed(InvalidVersion(version)))
      else
        match InstallVersion(version, true, ctx.online, ctx.registry, ctx.cfg.platform, w.cache)
        case Failure(e) => Outcome(w, Failed(e))
        case Success(cache) =>
          var installed := w.(cache := cache);
          var envName := QuicklaunchName(version);
          if EnvironmentExists(installed.store, envName).Truthy() && !reset then
            Start(ctx, installed, Registered(reading), envName, launchArgs)
          else
            QuicklaunchFresh(ctx, installed.(store := Erase(installed.store, envName)), reading, version, launchArgs)
  }
}

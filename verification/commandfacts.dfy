/**
 * Properties that relate several commands, or a command and the readers:
 * what a creation writes reads back and launches, a rename carries its
 * descriptor, modify's edits survive the rename that follows them, a removed
 * environment cannot be started, and the two findings at command level: what
 * the inverted `launchArgs` test does to launch, modify and rename of a
 * created environment, and what `--reset` does to quicklaunch.
 */
module CommandFacts {
  import opened Results
  import opened Errors
  import opened Text
  import opened Json
  import opened Descriptors
  import opened Environments
  import opened Versions
  import opened Cache
  import opened Commands

  // ---- create -------------------------------------------------------------

  /**
   * Round trip: after a successful creation, the util reader and the
   * corrected handler reader both return exactly the descriptor written,
   * with the version as typed and the arguments as split.
   */
  lemma CreateThenRead(ctx: Context, w: World, cs: CommandSet, name: string, opts: CreateOptions, answer: bool, rule: ReadRule)
    requires Create(ctx, w, cs, name, opts, answer).status == Done
    requires name != ""
    requires rule != HandlerRuleAsWritten
    ensures var o := Create(ctx, w, cs, name, opts, answer);
      && GetEnvironmentFile(o.world.store, name, rule, ctx.cfg.toolVersion) == Success(Encode(CreatedDescriptor(ctx.cfg, name, opts)))
      && VersionOf(Encode(CreatedDescriptor(ctx.cfg, name, opts))) == opts.version
      && StoredArgs(Encode(CreatedDescriptor(ctx.cfg, name, opts))) == SplitOption(opts.launchArgs)
  {
    EncodeValidate(CreatedDescriptor(ctx.cfg, name, opts), rule, ctx.cfg.toolVersion);
  }

  /**
   * Create then launch (corrected handler reader): the launcher receives the
   * version as typed at creation and the stored arguments followed by the
   * command-line ones.
   */
  lemma CreateThenLaunch(ctx: Context, w: World, name: string, opts: CreateOptions, answer: bool, cliArgs: Option<string>)
    requires Create(ctx, w, Registered(Corrected), name, opts, answer).status == Done
    requires name != ""
    requires IsolationFlagName !in SplitOption(cliArgs)
    ensures var o := Create(ctx, w, Registered(Corrected), name, opts, answer);
      Start(ctx, o.world, Registered(Corrected), name, cliArgs)
        == Outcome(o.world, Started(Delegated(opts.version, name, SplitOption(opts.launchArgs) + SplitOption(cliArgs))))
  {
    var o := Create(ctx, w, Registered(Corrected), name, opts, answer);
    CreateThenRead(ctx, w, Registered(Corrected), name, opts, answer, HandlerRule);
    var args := SplitOption(opts.launchArgs) + SplitOption(cliArgs);
    assert IsolationFlagName !in SplitOption(opts.launchArgs);
    assert IsolationFlagName !in args;
    assert CheckArgs(args).None?;
  }

  /**
   * Finding, as written: environmentHandler's reader refuses every
   * environment a creation has just written, so `launch`, `modify` and
   * `rename` of it all fail.
   */
  lemma CreateThenReadAsWritten(ctx: Context, w: World, cs: CommandSet, name: string, opts: CreateOptions, answer: bool)
    requires Create(ctx, w, cs, name, opts, answer).status == Done
    requires name != ""
    ensures var o := Create(ctx, w, cs, name, opts, answer);
      GetEnvironmentFile(o.world.store, name, HandlerRuleAsWritten, ctx.cfg.toolVersion)
        == Failure(MalformedDescriptor(name, BadLaunchArgs))
  {
    AsWrittenRejectsStringLists(CreatedDescriptor(ctx.cfg, name, opts), ctx.cfg.toolVersion);
  }

  /** Finding, as written: `launch` of an environment just created fails without launching. */
  lemma CreateThenLaunchAsWritten(ctx: Context, w: World, cs: CommandSet, name: string, opts: CreateOptions, answer: bool, cliArgs: Option<string>)
    requires Create(ctx, w, cs, name, opts, answer).status == Done
    requires name != ""
    ensures var o := Create(ctx, w, cs, name, opts, answer);
      Start(ctx, o.world, Registered(AsWritten), name, cliArgs) == Outcome(o.world, Failed(MalformedDescriptor(name, BadLaunchArgs)))
  {
    CreateThenReadAsWritten(ctx, w, cs, name, opts, answer);
  }

  /** Finding, as written: `modify` of an environment just created fails with nothing written. */
  lemma CreateThenModifyAsWritten(ctx: Context, w: World, cs: CommandSet, name: string, opts: CreateOptions, answer: bool,
                                  edits: ModifyOptions, modifyAnswer: bool)
    requires Create(ctx, w, cs, name, opts, answer).status == Done
    requires name != ""
    requires edits.force || modifyAnswer
    ensures var o := Create(ctx, w, cs, name, opts, answer);
      Modify(ctx, o.world, AsWritten, name, edits, modifyAnswer) == Outcome(o.world, Failed(MalformedDescriptor(name, BadLaunchArgs)))
  {
    CreateThenReadAsWritten(ctx, w, cs, name, opts, answer);
  }

  /**
   * Finding, as written: `rename` of an environment just created moves the
   * folder, then fails reading it; the descriptor under the new name still
   * carries the old `name`.
   */
  lemma CreateThenRenameAsWritten(ctx: Context, w: World, cs: CommandSet, name: string, opts: CreateOptions, answer: bool,
                                  newName: string, confirm: bool, renameAnswer: bool)
    requires Create(ctx, w, cs, name, opts, answer).status == Done
    requires name != ""
    requires NameAdmitted(Registered(AsWritten), newName) && (confirm || renameAnswer)
    requires newName !in Create(ctx, w, cs, name, opts, answer).world.store.entries
    ensures var o := Create(ctx, w, cs, name, opts, answer);
      var r := Rename(ctx, o.world, Registered(AsWritten), name, newName, confirm, renameAnswer);
      && r.status == Failed(MalformedDescriptor(newName, BadLaunchArgs))
      && EnvironmentExists(r.world.store, name) == Absent
      && newName in r.world.store.entries
      && r.world.store.entries[newName] == Complete(Parsed(Encode(CreatedDescriptor(ctx.cfg, name, opts))))
      && CreatedDescriptor(ctx.cfg, name, opts).name == name
  {
    var o := Create(ctx, w, cs, name, opts, answer);
    var moved := Move(o.world.store, name, newName);
    assert moved.entries[newName] == o.world.store.entries[name];
    AsWrittenRejectsStringLists(CreatedDescriptor(ctx.cfg, name, opts), ctx.cfg.toolVersion);
  }

  /**
   * `--force` erases the old environment before the version is checked: an
   * invalid version then leaves no environment under that name at all.
   */
  lemma ForcedCreateErasesFirst(ctx: Context, w: World, cs: CommandSet, name: string, opts: CreateOptions, answer: bool)
    requires NameAdmitted(cs, name) && opts.force && (opts.confirm || answer)
    requires IsValidBlockbenchVersion(opts.version, ctx.online, ctx.registry) != Success(true)
    ensures var o := Create(ctx, w, cs, name, opts, answer);
      && o.status.Failed?
      && EnvironmentExists(o.world.store, name) == Absent
      && o.world.cache == w.cache
  {
  }

  /**
   * A `--userData` among the creation arguments is caught after the folder
   * is made: the environment is left as a bare folder, which neither reader
   * nor `start` can use.
   */
  lemma RejectedArgsLeaveFolder(ctx: Context, w: World, cs: CommandSet, name: string, opts: CreateOptions, answer: bool, cliArgs: Option<string>)
    requires NameAdmitted(cs, name) && (name !in w.store.entries || opts.force) && (opts.confirm || answer)
    requires IsValidBlockbenchVersion(opts.version, ctx.online, ctx.registry) == Success(true)
    requires InstallVersion(opts.version, true, ctx.online, ctx.registry, ctx.cfg.platform, w.cache).Success?
    requires IsolationFlagName in SplitOption(opts.launchArgs)
    ensures var o := Create(ctx, w, cs, name, opts, answer);
      && o.status == Failed(IsolationFlag)
      && EnvironmentExists(o.world.store, name) == FolderPresent
      && Start(ctx, o.world, cs, name, cliArgs) == Outcome(o.world, Failed(DescriptorUnreadable(name)))
  {
    var i :| 0 <= i < |SplitOption(opts.launchArgs)| && SplitOption(opts.launchArgs)[i] == IsolationFlagName;
    assert CheckArgs(SplitOption(opts.launchArgs)).Some?;
  }

  /**
   * The util commands accept a `.`-prefixed name, which then never appears
   * in a listing; the registered `create` refuses it.
   */
  lemma DotNamesCreatedButUnlisted(ctx: Context, w: World, name: string, opts: CreateOptions, answer: bool, rule: ReadRule, reading: Reading)
    requires StartsWithChar(name, '.')
    requires Create(ctx, w, Live, name, opts, answer).status == Done
    ensures var o := Create(ctx, w, Live, name, opts, answer);
      && name in o.world.store.entries
      && (GetEnvironmentStates(o.world.store, rule, ctx.cfg.toolVersion).Success? ==>
            name !in GetEnvironmentStates(o.world.store, rule, ctx.cfg.toolVersion).value)
    ensures Create(ctx, w, Registered(reading), name, opts, answer) == Outcome(w, Failed(ReservedName(name)))
  {
    HiddenNamesUnlisted(Create(ctx, w, Live, name, opts, answer).world.store, name, rule, ctx.cfg.toolVersion);
  }

  // ---- rename -------------------------------------------------------------

  /**
   * A successful rename leaves nothing under the old name, and the new name
   * reads as the old descriptor with `name` replaced: every other field,
   * defaults included, carried over.
   */
  lemma RenameCarriesDescriptor(ctx: Context, w: World, cs: CommandSet, name: string, newName: string, confirm: bool, answer: bool)
    requires Rename(ctx, w, cs, name, newName, confirm, answer).status == Done
    requires newName != ""
    ensures var o := Rename(ctx, w, cs, name, newName, confirm, answer);
      var before := GetEnvironmentFile(w.store, name, Rule(cs), ctx.cfg.toolVersion);
      && before.Success?
      && EnvironmentExists(o.world.store, name) == Absent
      && GetEnvironmentFile(o.world.store, newName, Rule(cs), ctx.cfg.toolVersion)
           == Success(before.value.(name := Defined(JString(newName))))
  {
    var tv := ctx.cfg.toolVersion;
    var moved := Move(w.store, name, newName);
    var read := GetEnvironmentFile(moved, newName, Rule(cs), tv).value;
    assert moved.entries[newName] == w.store.entries[name];
    ValidateSettles(moved.entries[newName].content.raw, Rule(cs), tv);
    var renamed := read.(name := Defined(JString(newName)));
    assert Settled(renamed, Rule(cs));
    ValidateSettles(renamed, Rule(cs), tv);
  }

  /**
   * Renaming a bare folder moves it and then fails reading it: the folder
   * stays, still bare, under the new name.
   */
  lemma RenameOfBareFolder(ctx: Context, w: World, cs: CommandSet, name: string, newName: string, confirm: bool, answer: bool)
    requires NameAdmitted(cs, newName) && (confirm || answer)
    requires name in w.store.entries && w.store.entries[name] == FolderOnly && newName !in w.store.entries
    ensures var o := Rename(ctx, w, cs, name, newName, confirm, answer);
      && o.status == Failed(DescriptorUnreadable(newName))
      && EnvironmentExists(o.world.store, name) == Absent
      && EnvironmentExists(o.world.store, newName) == FolderPresent
  {
  }

  /** An environment cannot be renamed to itself: the target already exists. */
  lemma SelfRenameRefused(ctx: Context, w: World, cs: CommandSet, name: string, confirm: bool, answer: bool)
    requires NameAdmitted(cs, name) && name in w.store.entries
    ensures Rename(ctx, w, cs, name, name, confirm, answer) == Outcome(w, Failed(NameTaken(name)))
  {
  }

  // ---- modify -------------------------------------------------------------

  /** modify's edits keep a read descriptor readable by the corrected handler reader. */
  lemma EditedIsSettled(raw: RawDescriptor, opts: ModifyOptions)
    requires Settled(raw, HandlerRule)
    ensures Settled(Edited(raw, opts), HandlerRule)
    ensures Given(opts.version) ==> VersionOf(Edited(raw, opts)) == opts.version.value
    ensures !Given(opts.version) ==> VersionOf(Edited(raw, opts)) == VersionOf(raw)
    ensures Given(opts.launchArgs) ==> StoredArgs(Edited(raw, opts)) == Split(opts.launchArgs.value, ' ')
    ensures !Given(opts.launchArgs) ==> StoredArgs(Edited(raw, opts)) == StoredArgs(raw)
    ensures Edited(raw, opts).name == raw.name && Edited(raw, opts).envbenchVersion == raw.envbenchVersion
  {
    if Given(opts.launchArgs) {
      StringArrayRoundTrip(Split(opts.launchArgs.value, ' '));
    }
  }

  /**
   * modify without `--rename`: the environment reads back with the new
   * version and arguments and every other field unchanged.
   */
  lemma ModifyThenRead(ctx: Context, w: World, name: string, opts: ModifyOptions, answer: bool)
    requires !Given(opts.rename)
    requires Modify(ctx, w, Corrected, name, opts, answer).status == Done
    ensures var o := Modify(ctx, w, Corrected, name, opts, answer);
      var before := GetEnvironmentFile(w.store, name, HandlerRule, ctx.cfg.toolVersion).value;
      GetEnvironmentFile(o.world.store, name, HandlerRule, ctx.cfg.toolVersion) == Success(Edited(before, opts))
  {
    var tv := ctx.cfg.toolVersion;
    var before := GetEnvironmentFile(w.store, name, HandlerRule, tv).value;
    ValidateSettles(w.store.entries[name].content.raw, HandlerRule, tv);
    EditedIsSettled(before, opts);
    ValidateSettles(Edited(before, opts), HandlerRule, tv);
  }

  /**
   * modify with `--rename`: the edits are written first and the rename
   * carries them, so the new name reads as the edited descriptor with its
   * `name` replaced and the old name is gone.
   */
  lemma ModifyThenRename(ctx: Context, w: World, name: string, opts: ModifyOptions, answer: bool)
    requires Given(opts.rename) && opts.rename.value != name
    requires Modify(ctx, w, Corrected, name, opts, answer).status == Done
    ensures var o := Modify(ctx, w, Corrected, name, opts, answer);
      var before := GetEnvironmentFile(w.store, name, HandlerRule, ctx.cfg.toolVersion).value;
      var newName := opts.rename.value;
      && EnvironmentExists(o.world.store, name) == Absent
      && GetEnvironmentFile(o.world.store, newName, HandlerRule, ctx.cfg.toolVersion)
           == Success(Edited(before, opts).(name := Defined(JString(newName))))
  {
    var tv := ctx.cfg.toolVersion;
    var newName := opts.rename.value;
    var before := GetEnvironmentFile(w.store, name, HandlerRule, tv).value;
    var s := SetEnvironmentFile(w.store, name, Edited(before, opts), false).value;
    var written := w.(store := s);
    assert Modify(ctx, w, Corrected, name, opts, answer) == Rename(ctx, written, Registered(Corrected), name, newName, true, true);
    RenameCarriesDescriptor(ctx, written, Registered(Corrected), name, newName, true, true);
    ValidateSettles(w.store.entries[name].content.raw, HandlerRule, tv);
    EditedIsSettled(before, opts);
    ValidateSettles(Edited(before, opts), HandlerRule, tv);
  }

  /**
   * modify writes its edits before it renames: when the rename is refused
   * because the new name is taken, the edits are already on disk under the
   * old name, with either reader; the corrected reader reads them back.
   */
  lemma ModifyEditsSurviveFailedRename(ctx: Context, w: World, reading: Reading, name: string, opts: ModifyOptions, answer: bool)
    requires Given(opts.rename) && opts.rename.value in w.store.entries && NameAdmitted(Registered(reading), opts.rename.value)
    requires name in w.store.entries && (opts.force || answer)
    requires GetEnvironmentFile(w.store, name, Rule(Registered(reading)), ctx.cfg.toolVersion).Success?
    requires !(Given(opts.launchArgs) && CheckArgs(Split(opts.launchArgs.value, ' ')).Some?)
    ensures var o := Modify(ctx, w, reading, name, opts, answer);
      var before := GetEnvironmentFile(w.store, name, Rule(Registered(reading)), ctx.cfg.toolVersion).value;
      && o.status == Failed(NameTaken(opts.rename.value))
      && o.world.store.entries[name] == Complete(Parsed(Edited(before, opts)))
      && (reading == Corrected ==>
            GetEnvironmentFile(o.world.store, name, HandlerRule, ctx.cfg.toolVersion) == Success(Edited(before, opts)))
  {
    var tv := ctx.cfg.toolVersion;
    var rule := Rule(Registered(reading));
    var before := GetEnvironmentFile(w.store, name, rule, tv).value;
    var s := SetEnvironmentFile(w.store, name, Edited(before, opts), false).value;
    assert Modify(ctx, w, reading, name, opts, answer) == Rename(ctx, w.(store := s), Registered(reading), name, opts.rename.value, true, true);
    if reading == Corrected {
      ValidateSettles(w.store.entries[name].content.raw, HandlerRule, tv);
      EditedIsSettled(before, opts);
      ValidateSettles(Edited(before, opts), HandlerRule, tv);
    }
  }

  // ---- remove -------------------------------------------------------------

  /** Both removal commands do the same thing. */
  lemma RemoveSetsAgree(w: World, name: string, confirm: bool, answer: bool, reading: Reading)
    ensures Remove(w, Live, name, confirm, answer) == Remove(w, Registered(reading), name, confirm, answer)
  {
  }

  /** A removed environment cannot be started or launched, and the cache still holds its version. */
  lemma RemovedCannotStart(ctx: Context, w: World, cs: CommandSet, name: string, confirm: bool, answer: bool, other: CommandSet, cliArgs: Option<string>)
    requires Remove(w, cs, name, confirm, answer).status == Done
    ensures var o := Remove(w, cs, name, confirm, answer);
      && Start(ctx, o.world, other, name, cliArgs) == Outcome(o.world, Failed(EnvironmentMissing(name)))
      && o.world.cache == w.cache
  {
  }

  // ---- quicklaunch --------------------------------------------------------

  /**
   * Finding, as written: `quicklaunch --reset` of an existing environment
   * removes it and then launches the name it just removed.
   */
  lemma QuicklaunchResetAsWritten(ctx: Context, w: World, reading: Reading, version: string, launchArgs: Option<string>)
    requires IsValidBlockbenchVersion(version, ctx.online, ctx.registry) == Success(true)
    requires InstallVersion(version, true, ctx.online, ctx.registry, ctx.cfg.platform, w.cache).Success?
    requires QuicklaunchName(version) in w.store.entries
    ensures var o := QuicklaunchAsWritten(ctx, w, reading, version, launchArgs, true);
      && o.status == Failed(EnvironmentMissing(QuicklaunchName(version)))
      && EnvironmentExists(o.world.store, QuicklaunchName(version)) == Absent
  {
  }

  /**
   * Corrected: `quicklaunch --reset` ends with a fresh environment for the
   * version and launches it with the version as typed.
   */
  lemma QuicklaunchResetRecreates(ctx: Context, w: World, reading: Reading, version: string, launchArgs: Option<string>)
    requires IsValidBlockbenchVersion(version, ctx.online, ctx.registry) == Success(true)
    requires InstallVersion(version, true, ctx.online, ctx.registry, ctx.cfg.platform, w.cache).Success?
    requires var v := ResolveVersion(Some(version), ctx.registry).value; ResolveVersion(Some(v), ctx.registry) == Success(v)
    requires IsolationFlagName !in SplitOption(launchArgs)
    ensures var o := Quicklaunch(ctx, w, reading, version, launchArgs, true);
      var envName := QuicklaunchName(version);
      && o.status == Started(Delegated(version, envName, SplitOption(launchArgs)))
      && envName in o.world.store.entries
      && o.world.store.entries[envName] == Complete(Parsed(Encode(QuicklaunchDescriptor(ctx.cfg, version))))
  {
    var cache := InstallVersion(version, true, ctx.online, ctx.registry, ctx.cfg.platform, w.cache).value;
    InstallIdempotent(version, ctx.online, ctx.registry, ctx.cfg.platform, w.cache);
    assert InstallVersion(version, true, ctx.online, ctx.registry, ctx.cfg.platform, cache).Success?;
  }

  /** Erasing a name that is not there changes nothing. */
  lemma EraseAbsent(s: Store, name: string)
    requires name !in s.entries
    ensures Erase(s, name) == s
  {
    assert Erase(s, name).entries == s.entries;
  }

  /**
   * The correction changes nothing but `--reset` of an existing
   * environment: without `--reset`, or for a version never quicklaunched,
   * both versions behave the same.
   */
  lemma QuicklaunchCorrectionIsLocal(ctx: Context, w: World, reading: Reading, version: string, launchArgs: Option<string>, reset: bool)
    requires !reset || QuicklaunchName(version) !in w.store.entries
    ensures QuicklaunchAsWritten(ctx, w, reading, version, launchArgs, reset) == Quicklaunch(ctx, w, reading, version, launchArgs, reset)
  {
    if QuicklaunchName(version) !in w.store.entries {
      EraseAbsent(w.store, QuicklaunchName(version));
    }
  }
}

/**
 * The environment store of src/util.ts and src/environmentHandler.ts: the
 * storage root as a map from entry name to folder state, the three-way
 * existence test, descriptor reads and writes, listing, removal, and the two
 * small validators. The two files implement these identically except for the
 * `launchArgs` test of a read, which the `ReadRule` parameter selects.
 */
module Environments {
  import opened Results
  import opened Errors
  import opened Json
  import opened Text
  import opened Descriptors

  /** The descriptor file inside an environment folder: a parsed object or anything else. */
  datatype FileContent = Parsed(raw: RawDescriptor) | Unparsable

  /** An entry of the storage root: a folder without a descriptor, or with one. */
  datatype Entry = FolderOnly | Complete(content: FileContent)

  /**
   * The storage root. `readable` is false when listing the root fails (it
   * does not exist, or may not be read).
   */
  datatype Store = Store(readable: bool, entries: map<string, Entry>)

  /** `environmentExists`: `false`, `'folder'` or `'env'`. */
  datatype Existence = Absent | FolderPresent | EnvPresent {
    /** JavaScript truthiness of the returned value: only `false` is falsy. */
    predicate Truthy() {
      !Absent?
    }
  }

  /**
   * Classification of a name. The folder test comes first; the source's
   * third branch (folder missing at the second test) can never be taken.
   */
  function EnvironmentExists(s: Store, name: string): (r: Existence)
    ensures r == Absent <==> name !in s.entries
    ensures r == FolderPresent <==> name in s.entries && s.entries[name] == FolderOnly
    ensures r == EnvPresent <==> name in s.entries && s.entries[name].Complete?
    ensures r.Truthy() <==> name in s.entries
  {
    if name !in s.entries then Absent
    else if s.entries[name] == FolderOnly then FolderPresent
    else EnvPresent
  }

  /**
   * `setEnvironmentFile(name, data, force)`: without `force` the name must
   * exist (a folder alone will do); the write itself needs the folder and
   * replaces the whole file.
   */
  function SetEnvironmentFile(s: Store, name: string, data: RawDescriptor, force: bool): (r: Result<Store, Error>)
    ensures r.Success? <==> name in s.entries
    ensures !force && name !in s.entries ==> r == Failure(EnvironmentMissing(name))
    ensures force && name !in s.entries ==> r == Failure(WriteFailed(name))
    ensures r.Success? ==>
      && r.value.readable == s.readable
      && r.value.entries.Keys == s.entries.Keys
      && r.value.entries[name] == Complete(Parsed(data))
      && forall n :: n in s.entries && n != name ==> r.value.entries[n] == s.entries[n]
  {
    if !force && !EnvironmentExists(s, name).Truthy() then Failure(EnvironmentMissing(name))
    else if name !in s.entries then Failure(WriteFailed(name))
    else Success(s.(entries := s.entries[name := Complete(Parsed(data))]))
  }

  /**
   * `getEnvironmentFile(name)`: the name must exist, the file must be there
   * and parse as an object, and the descriptor must pass validation; the
   * result carries the read-time defaults.
   */
  function GetEnvironmentFile(s: Store, name: string, rule: ReadRule, toolVersion: string): (r: Result<RawDescriptor, Error>)
    ensures name !in s.entries ==> r == Failure(EnvironmentMissing(name))
    ensures name in s.entries && s.entries[name] == FolderOnly ==> r == Failure(DescriptorUnreadable(name))
    ensures name in s.entries && s.entries[name] == Complete(Unparsable) ==> r.Failure?
    ensures r.Success? <==>
      name in s.entries && s.entries[name].Complete? && s.entries[name].content.Parsed?
      && Validate(s.entries[name].content.raw, rule, toolVersion).Success?
    ensures r.Success? ==> r.value == Validate(s.entries[name].content.raw, rule, toolVersion).value
    ensures r.Success? && rule != HandlerRuleAsWritten ==> Usable(r.value)
  {
    if !EnvironmentExists(s, name).Truthy() then Failure(EnvironmentMissing(name))
    else match s.entries[name]
      case FolderOnly => Failure(DescriptorUnreadable(name))
      case Complete(Unparsable) => Failure(MalformedDescriptor(name, NotAnObject))
      case Complete(Parsed(raw)) =>
        match Validate(raw, rule, toolVersion)
        case Failure(m) => Failure(MalformedDescriptor(name, m))
        case Success(d) => Success(d)
  }

  /** `fs.rm(path, { recursive: true })` of an existing folder. */
  function Erase(s: Store, name: string): (r: Store)
    ensures r.readable == s.readable
    ensures r.entries.Keys == s.entries.Keys - {name}
    ensures forall n :: n in r.entries ==> r.entries[n] == s.entries[n]
  {
    s.(entries := s.entries - {name})
  }

  /** `fs.mkdir(path, { recursive: true })`: an existing folder is left as it is. */
  function MakeFolder(s: Store, name: string): (r: Store)
    ensures r.readable == s.readable
    ensures r.entries.Keys == s.entries.Keys + {name}
    ensures name in s.entries ==> r == s
    ensures name !in s.entries ==> r.entries[name] == FolderOnly
    ensures forall n :: n in s.entries ==> r.entries[n] == s.entries[n]
  {
    if name in s.entries then s else s.(entries := s.entries[name := FolderOnly])
  }

  /** `fs.rename(old, new)` onto a name that is free: the folder moves with its content. */
  function Move(s: Store, from: string, to: string): (r: Store)
    requires from in s.entries && to !in s.entries
    ensures r.readable == s.readable
    ensures r.entries.Keys == s.entries.Keys - {from} + {to}
    ensures r.entries[to] == s.entries[from]
    ensures forall n :: n in s.entries && n != from ==> r.entries[n] == s.entries[n]
  {
    s.(entries := (s.entries - {from})[to := s.entries[from]])
  }

  /** `removeEnvironment(name)`: refused when absent, otherwise the folder goes, content and all. */
  function RemoveEnvironment(s: Store, name: string): (r: Result<Store, Error>)
    ensures r.Failure? <==> name !in s.entries
    ensures r.Failure? ==> r.error == EnvironmentMissing(name)
    ensures r.Success? ==> EnvironmentExists(r.value, name) == Absent
    ensures r.Success? ==> r.value == Erase(s, name)
  {
    if !EnvironmentExists(s, name).Truthy() then Failure(EnvironmentMissing(name)) else Success(Erase(s, name))
  }

  /** Listing skips empty names and names starting with `.`. */
  predicate Visible(name: string) {
    name != "" && !StartsWithChar(name, '.')
  }

  /** The names a listing reports. */
  function VisibleNames(s: Store): (names: set<string>)
    ensures forall n :: n in names <==> n in s.entries && Visible(n)
  {
    set n | n in s.entries && Visible(n)
  }

  /** A listed environment: a folder without a descriptor, or a validated descriptor. */
  datatype Listed = MissingFile | Loaded(descriptor: RawDescriptor)

  /** Whether every listed environment with a descriptor file reads cleanly. */
  predicate AllReadable(s: Store, rule: ReadRule, toolVersion: string) {
    forall n :: n in VisibleNames(s) && s.entries[n].Complete? ==> GetEnvironmentFile(s, n, rule, toolVersion).Success?
  }

  /**
   * `getEnvironmentStates()`: `{}` when the root cannot be listed; otherwise
   * every visible name, classified. A descriptor that fails to read ends the
   * whole invocation (the read calls `process.exit`).
   */
  function GetEnvironmentStates(s: Store, rule: ReadRule, toolVersion: string): (r: Result<map<string, Listed>, Error>)
    ensures !s.readable ==> r == Success(map[])
    ensures s.readable ==> (r.Success? <==> AllReadable(s, rule, toolVersion))
    ensures s.readable && r.Success? ==> r.value.Keys == VisibleNames(s)
    ensures r.Success? ==> forall n :: n in r.value ==>
      && n in s.entries
      && (r.value[n] == MissingFile <==> s.entries[n] == FolderOnly)
      && (r.value[n].Loaded? ==> GetEnvironmentFile(s, n, rule, toolVersion) == Success(r.value[n].descriptor))
  {
    if !s.readable then Success(map[])
    else if !AllReadable(s, rule, toolVersion) then Failure(ListingAborted)
    else Success(map n | n in VisibleNames(s) ::
      if s.entries[n] == FolderOnly then MissingFile
      else Loaded(GetEnvironmentFile(s, n, rule, toolVersion).value))
  }

  /**
   * `getEnvironmentFiles()`: the descriptors of the listed environments,
   * folder-only ones left out.
   */
  function GetEnvironmentFiles(s: Store, rule: ReadRule, toolVersion: string): (r: Result<map<string, RawDescriptor>, Error>)
    ensures r.Success? <==> GetEnvironmentStates(s, rule, toolVersion).Success?
    ensures r.Success? && s.readable ==> forall n :: n in r.value <==> n in VisibleNames(s) && s.entries[n].Complete?
    ensures r.Success? ==> forall n :: n in r.value ==> GetEnvironmentFile(s, n, rule, toolVersion) == Success(r.value[n])
  {
    match GetEnvironmentStates(s, rule, toolVersion)
    case Failure(e) => Failure(e)
    case Success(states) =>
      Success(map n | n in states && states[n].Loaded? :: states[n].descriptor)
  }

  /** The flag that binds a Blockbench instance to its user-data folder. */
  const IsolationFlagName: string := "--userData"

  /** `checkEnvironmentName` / `validateEnvironmentName`: a name may not start with `.`. */
  function CheckEnvironmentName(name: string): (r: Option<Error>)
    ensures r.Some? <==> StartsWithChar(name, '.')
    ensures r.Some? ==> r.value == ReservedName(name)
  {
    if StartsWithChar(name, '.') then Some(ReservedName(name)) else None
  }

  /** `checkArgs` / `validateBlockbenchLaunchArgs`: no element may be exactly `--userData`. */
  function CheckArgs(args: seq<string>): (r: Option<Error>)
    ensures r.Some? <==> exists i :: 0 <= i < |args| && args[i] == IsolationFlagName
    ensures r.Some? ==> r.value == IsolationFlag
  {
    if IsolationFlagName in args then Some(IsolationFlag) else None
  }

  /** Only the exact element is refused: `--userData=x` and `--userdata` pass. */
  lemma CheckArgsExactElement()
    ensures CheckArgs(["--userData=x", "--userdata"]) == None
    ensures CheckArgs(["-a", "--userData", "dir"]) == Some(IsolationFlag)
  {
    assert ["-a", "--userData", "dir"][1] == IsolationFlagName;
  }

  /** Hidden names (`.portables`, `.quicklaunch-…`) never reach a listing. */
  lemma HiddenNamesUnlisted(s: Store, name: string, rule: ReadRule, toolVersion: string)
    requires StartsWithChar(name, '.')
    ensures GetEnvironmentStates(s, rule, toolVersion).Success? ==> name !in GetEnvironmentStates(s, rule, toolVersion).value
    ensures GetEnvironmentFiles(s, rule, toolVersion).Success? ==> name !in GetEnvironmentFiles(s, rule, toolVersion).value
  {
  }

  /**
   * Writing without `force` repairs a folder-only environment, and reading it
   * back returns what was written (util reader and corrected handler reader).
   */
  lemma WriteThenRead(s: Store, name: string, d: Descriptor, rule: ReadRule, toolVersion: string)
    requires name in s.entries
    requires d.name != "" && rule != HandlerRuleAsWritten
    ensures SetEnvironmentFile(s, name, Encode(d), false).Success?
    ensures EnvironmentExists(SetEnvironmentFile(s, name, Encode(d), false).value, name) == EnvPresent
    ensures GetEnvironmentFile(SetEnvironmentFile(s, name, Encode(d), false).value, name, rule, toolVersion) == Success(Encode(d))
  {
    EncodeValidate(d, rule, toolVersion);
  }

  /** Writing one name leaves every other name's read result as it was. */
  lemma WriteIsolated(s: Store, name: string, other: string, data: RawDescriptor, force: bool, rule: ReadRule, toolVersion: string)
    requires other != name
    requires SetEnvironmentFile(s, name, data, force).Success?
    ensures GetEnvironmentFile(SetEnvironmentFile(s, name, data, force).value, other, rule, toolVersion)
         == GetEnvironmentFile(s, other, rule, toolVersion)
    ensures EnvironmentExists(SetEnvironmentFile(s, name, data, force).value, other) == EnvironmentExists(s, other)
  {
  }
}

/**
 * The environment descriptor (`.envbench.json`): its fields as parsed JSON,
 * the typed record the commands write, and the read-time validation with its
 * default filling.
 */
module Descriptors {
  import opened Results
  import opened Json
  import opened Errors

  /** The four fields of a parsed descriptor object, each possibly absent. */
  datatype RawDescriptor = RawDescriptor(
    name: Field,
    envbenchVersion: Field,
    blockbenchVersion: Field,
    launchArgs: Field)

  /** A descriptor as the commands build it before writing. */
  datatype Descriptor = Descriptor(
    name: string,
    envbenchVersion: string,
    blockbenchVersion: string,
    launchArgs: Option<seq<string>>)

  /** `JSON.stringify` then `JSON.parse`: an `undefined` field is dropped from the file. */
  function Encode(d: Descriptor): (raw: RawDescriptor)
    ensures raw.name == Defined(JString(d.name))
    ensures raw.blockbenchVersion == Defined(JString(d.blockbenchVersion))
    ensures d.launchArgs.None? <==> raw.launchArgs == Undefined
  {
    RawDescriptor(
      Defined(JString(d.name)),
      Defined(JString(d.envbenchVersion)),
      Defined(JString(d.blockbenchVersion)),
      if d.launchArgs.Some? then Defined(StringArray(d.launchArgs.value)) else Undefined)
  }

  /**
   * The `launchArgs` test each reader applies: src/util.ts, src/environmentHandler.ts
   * as written, and environmentHandler's test with its condition put the right way round.
   */
  datatype ReadRule = UtilRule | HandlerRuleAsWritten | HandlerRule

  /** Whether a reader refuses the `launchArgs` field. */
  predicate LaunchArgsRejected(rule: ReadRule, f: Field) {
    match rule
    // `launchArgs !== undefined && !(isArray && every string)`
    case UtilRule => f != Undefined && !IsStringArray(f)
    // `launchArgs != undefined && isArray && every string`
    case HandlerRuleAsWritten => !Nullish(f) && IsStringArray(f)
    // `launchArgs != undefined && !(isArray && every string)`
    case HandlerRule => !Nullish(f) && !IsStringArray(f)
  }

  /** The default a missing `blockbench_version` reads as. */
  const DefaultVersionName: string := "latest"

  /**
   * Validation of a parsed descriptor, in the source's order: a truthy `name`,
   * then the two version defaults, then a string `blockbench_version`, then
   * the rule's `launchArgs` test. Defaults appear only in the returned value.
   */
  function Validate(raw: RawDescriptor, rule: ReadRule, toolVersion: string): (r: Result<RawDescriptor, Malformation>)
    ensures !Truthy(raw.name) ==> r == Failure(MissingName)
    ensures r.Failure? <==>
      || !Truthy(raw.name)
      || !IsString(OrDefault(raw.blockbenchVersion, JString(DefaultVersionName)))
      || LaunchArgsRejected(rule, raw.launchArgs)
    ensures r.Success? ==>
      && r.value.name == raw.name
      && r.value.launchArgs == raw.launchArgs
      && r.value.envbenchVersion == (if Nullish(raw.envbenchVersion) then Defined(JString(toolVersion)) else raw.envbenchVersion)
      && r.value.blockbenchVersion == (if Nullish(raw.blockbenchVersion) then Defined(JString(DefaultVersionName)) else raw.blockbenchVersion)
      && IsString(r.value.blockbenchVersion)
  {
    if !Truthy(raw.name) then Failure(MissingName)
    else
      var filled := raw.(
        envbenchVersion := OrDefault(raw.envbenchVersion, JString(toolVersion)),
        blockbenchVersion := OrDefault(raw.blockbenchVersion, JString(DefaultVersionName)));
      if !IsString(filled.blockbenchVersion) then Failure(VersionNotString)
      else if LaunchArgsRejected(rule, filled.launchArgs) then Failure(BadLaunchArgs)
      else Success(filled)
  }

  /** A descriptor every reader can use: the version is a string and the arguments a list or absent. */
  predicate Usable(raw: RawDescriptor) {
    && IsString(raw.blockbenchVersion)
    && (Nullish(raw.launchArgs) || IsStringArray(raw.launchArgs))
  }

  /** The stored `blockbench_version` of a validated descriptor. */
  function VersionOf(raw: RawDescriptor): string
    requires Usable(raw)
  {
    raw.blockbenchVersion.value.s
  }

  /** `launchArgs ?? []` of a validated descriptor. */
  function StoredArgs(raw: RawDescriptor): seq<string>
    requires Usable(raw)
  {
    if Nullish(raw.launchArgs) then [] else StringsOf(raw.launchArgs.value.items)
  }

  /** The util reader and the corrected handler reader only return usable descriptors. */
  lemma ValidatedIsUsable(raw: RawDescriptor, rule: ReadRule, toolVersion: string)
    requires rule != HandlerRuleAsWritten
    requires Validate(raw, rule, toolVersion).Success?
    ensures Usable(Validate(raw, rule, toolVersion).value)
  {
  }

  /**
   * Round trip: a descriptor with a non-empty name, written and read back by
   * the util reader or the corrected handler reader, is returned unchanged,
   * and its version and arguments read as written. The handler reader as
   * written does the same for a descriptor written without `launchArgs`.
   */
  lemma EncodeValidate(d: Descriptor, rule: ReadRule, toolVersion: string)
    requires d.name != ""
    requires rule != HandlerRuleAsWritten || d.launchArgs.None?
    ensures Validate(Encode(d), rule, toolVersion) == Success(Encode(d))
    ensures Usable(Encode(d))
    ensures VersionOf(Encode(d)) == d.blockbenchVersion
    ensures StoredArgs(Encode(d)) == if d.launchArgs.Some? then d.launchArgs.value else []
  {
    if d.launchArgs.Some? {
      StringArrayRoundTrip(d.launchArgs.value);
    }
  }

  /**
   * The handler reader as written refuses every descriptor whose `launchArgs`
   * is a list of strings, the empty list included: the form every creation
   * writes.
   */
  lemma AsWrittenRejectsStringLists(d: Descriptor, toolVersion: string)
    requires d.name != ""
    requires d.launchArgs.Some?
    ensures Validate(Encode(d), HandlerRuleAsWritten, toolVersion) == Failure(BadLaunchArgs)
  {
  }

  /** ... while it accepts a `launchArgs` that is not a list at all. */
  lemma AsWrittenAcceptsNonLists(toolVersion: string)
    ensures Validate(RawDescriptor(Defined(JString("a")), Undefined, Undefined, Defined(JNumber(3))),
                     HandlerRuleAsWritten, toolVersion).Success?
    ensures Validate(RawDescriptor(Defined(JString("a")), Undefined, Undefined, Defined(JNumber(3))),
                     HandlerRule, toolVersion) == Failure(BadLaunchArgs)
  {
  }

  /** Reading fills a missing `blockbench_version` with `latest` and a missing `envbench_version` with the tool's own version. */
  lemma DefaultsFilled(name: string, toolVersion: string, rule: ReadRule)
    requires name != ""
    ensures Validate(RawDescriptor(Defined(JString(name)), Undefined, Undefined, Undefined), rule, toolVersion)
         == Success(RawDescriptor(Defined(JString(name)), Defined(JString(toolVersion)), Defined(JString(DefaultVersionName)), Undefined))
  {
  }

  /** A descriptor validation returns unchanged: every check passes and no default is left to fill. */
  predicate Settled(raw: RawDescriptor, rule: ReadRule) {
    && Truthy(raw.name)
    && !Nullish(raw.envbenchVersion)
    && IsString(raw.blockbenchVersion)
    && !LaunchArgsRejected(rule, raw.launchArgs)
  }

  /**
   * Validation is idempotent: what it returns is settled, and a settled
   * descriptor validates to itself. Writing back what was read therefore
   * reads back the same.
   */
  lemma ValidateSettles(raw: RawDescriptor, rule: ReadRule, toolVersion: string)
    ensures Validate(raw, rule, toolVersion).Success? ==> Settled(Validate(raw, rule, toolVersion).value, rule)
    ensures Settled(raw, rule) ==> Validate(raw, rule, toolVersion) == Success(raw)
  {
    if Settled(raw, rule) {
      assert OrDefault(raw.envbenchVersion, JString(toolVersion)) == raw.envbenchVersion;
      assert OrDefault(raw.blockbenchVersion, JString(DefaultVersionName)) == raw.blockbenchVersion;
      assert raw.(envbenchVersion := raw.envbenchVersion, blockbenchVersion := raw.blockbenchVersion) == raw;
    }
  }

  /** The util reader refuses a `null` `launchArgs`; the handler readers let it through. */
  lemma NullLaunchArgs(toolVersion: string)
    ensures LaunchArgsRejected(UtilRule, Defined(JNull))
    ensures !LaunchArgsRejected(HandlerRule, Defined(JNull))
    ensures !LaunchArgsRejected(HandlerRuleAsWritten, Defined(JNull))
  {
  }
}

/**
 * Process-wide configuration: the paths envbench reads from the process
 * environment at start-up (with their defaults), and `expandEnv`, the
 * `%NAME%` substitution those defaults go through.
 */
module Settings {
  import opened Results
  import opened Text

  /** `os.platform()`, reduced to the cases the source distinguishes. */
  datatype Platform = Win32 | Darwin | Linux | OtherPlatform

  /** The configuration every component reads; immutable after start-up. */
  datatype Config = Config(
    storageRoot: string,
    cacheRoot: string,
    blockbenchPath: string,
    platform: Platform,
    toolVersion: string)

  const DescriptorFileName: string := ".envbench.json"
  const CacheFolderName: string := ".portables"

  /** `path.join(dir, entry)` without normalisation. */
  function PathJoin(dir: string, entry: string): string {
    dir + "/" + entry
  }

  /** The value of an environment variable, or `''` when it is unset. */
  function Lookup(vars: map<string, string>, name: string): string {
    if name in vars then vars[name] else ""
  }

  /** Position of the first `c` in `s`. */
  function IndexOf(s: string, c: char): (r: Option<nat>)
    ensures r.None? <==> c !in s
    ensures r.Some? ==> r.value < |s| && s[r.value] == c && c !in s[..r.value]
  {
    if |s| == 0 then None
    else if s[0] == c then Some(0)
    else
      var k := IndexOf(s[1..], c);
      if k.None? then None
      else
        assert s[1..][..k.value] == s[1..k.value + 1];
        assert s[..k.value + 1] == [s[0]] + s[1..k.value + 1];
        Some(k.value + 1)
  }

  /**
   * `str.replace(/%([^%]+)%/g, ...)`: scanning left to right, a `%` followed by
   * at least one non-`%` character and a closing `%` is replaced by the value
   * of the variable it names (`''` when unset); any other `%` is kept and the
   * scan moves on by one character.
   */
  function ExpandEnv(s: string, vars: map<string, string>): (r: string)
    ensures '%' !in s ==> r == s
    decreases |s|
  {
    if |s| == 0 then ""
    else if s[0] == '%' then
      var k := IndexOf(s[1..], '%');
      if k.Some? && k.value > 0 then
        Lookup(vars, s[1..k.value + 1]) + ExpandEnv(s[k.value + 2..], vars)
      else
        [s[0]] + ExpandEnv(s[1..], vars)
    else
      assert s == [s[0]] + s[1..];
      [s[0]] + ExpandEnv(s[1..], vars)
  }

  /** The first `%` of `name + "%" + rest` is the one after `name`. */
  lemma IndexOfMarker(name: string, rest: string)
    requires '%' !in name
    ensures IndexOf(name + "%" + rest, '%') == Some(|name|)
  {
    var t := name + "%" + rest;
    assert t[|name|] == '%';
    var k := IndexOf(t, '%');
    assert k.Some?;
    assert t[..|name|] == name;
    assert k.value >= |name| by {
      assert forall i :: 0 <= i < |name| ==> t[i] == name[i];
    }
    assert k.value <= |name| by {
      assert '%' !in t[..k.value];
      assert forall i :: 0 <= i < k.value ==> t[..k.value][i] == t[i];
    }
  }

  /** A `%NAME%` pair at the front is replaced and the scan resumes after it. */
  lemma ExpandReferenceAtFront(name: string, b: string, vars: map<string, string>)
    requires '%' !in name && name != ""
    ensures ExpandEnv("%" + name + "%" + b, vars) == Lookup(vars, name) + ExpandEnv(b, vars)
  {
    var s := "%" + name + "%" + b;
    assert s[1..] == name + "%" + b;
    IndexOfMarker(name, b);
    assert s[1..|name| + 1] == name;
    assert s[|name| + 2..] == b;
  }

  /**
   * The first `%NAME%` pair is replaced by the variable's value and the scan
   * resumes after the closing `%`.
   */
  lemma {:induction false} ExpandFirstReference(a: string, name: string, b: string, vars: map<string, string>)
    requires '%' !in a && '%' !in name && name != ""
    ensures ExpandEnv(a + ("%" + name + "%" + b), vars) == a + (Lookup(vars, name) + ExpandEnv(b, vars))
    decreases |a|
  {
    var pair := "%" + name + "%" + b;
    var tail := Lookup(vars, name) + ExpandEnv(b, vars);
    var s := a + pair;
    if |a| == 0 {
      assert s == pair;
      ExpandReferenceAtFront(name, b, vars);
      assert a + tail == tail;
    } else {
      ExpandFirstReference(a[1..], name, b, vars);
      ExpandCons(a[0], a[1..] + pair, vars);
      ConsConcat(a, pair);
      ConsConcat(a, tail);
    }
  }

  /** A non-empty string glued to another is its head followed by the rest. */
  lemma ConsConcat(a: string, t: string)
    requires |a| > 0
    ensures a + t == [a[0]] + (a[1..] + t)
  {
  }

  /** A character other than `%` in front of a string is copied. */
  lemma ExpandCons(c: char, t: string, vars: map<string, string>)
    requires c != '%'
    ensures ExpandEnv([c] + t, vars) == [c] + ExpandEnv(t, vars)
  {
    assert ([c] + t)[1..] == t;
    ExpandPlainChar([c] + t, vars);
  }

  /** A character other than `%` is copied and the scan moves on. */
  lemma ExpandPlainChar(s: string, vars: map<string, string>)
    requires |s| > 0 && s[0] != '%'
    ensures ExpandEnv(s, vars) == [s[0]] + ExpandEnv(s[1..], vars)
  {
  }

  /** A `%` with no closing `%` after it is kept as it is, wherever it stands. */
  lemma {:induction false} ExpandUnclosed(a: string, t: string, vars: map<string, string>)
    requires '%' !in a && '%' !in t
    ensures ExpandEnv(a + "%" + t, vars) == a + "%" + t
    decreases |a|
  {
    var s := a + "%" + t;
    if |a| == 0 {
      assert s == "%" + t && s[1..] == t;
      assert IndexOf(s[1..], '%').None?;
    } else {
      assert s[0] == a[0] && s[1..] == a[1..] + "%" + t;
      ExpandPlainChar(s, vars);
      ExpandUnclosed(a[1..], t, vars);
      assert s == [a[0]] + (a[1..] + "%" + t);
    }
  }

  /** A leading `%%` keeps its first `%`, and the scan resumes at the second. */
  lemma ExpandDoubledMarker(t: string, vars: map<string, string>)
    ensures ExpandEnv("%%" + t, vars) == "%" + ExpandEnv("%" + t, vars)
  {
    var s := "%%" + t;
    assert s[1..] == "%" + t;
    assert IndexOf(s[1..], '%') == Some(0);
  }

  /**
   * A string holds no `%NAME%` reference when every `%` is either doubled
   * (the next character is `%` too) or has no `%` anywhere after it.
   */
  predicate NoReference(s: string) {
    forall i :: 0 <= i < |s| - 1 && s[i] == '%' && s[i + 1] != '%' ==> '%' !in s[i + 1..]
  }

  /** A string holding no `%NAME%` reference comes back from `expandEnv` unchanged. */
  lemma {:induction false} ExpandNoReference(s: string, vars: map<string, string>)
    requires NoReference(s)
    ensures ExpandEnv(s, vars) == s
    decreases |s|
  {
    if |s| > 0 {
      var t := s[1..];
      assert NoReference(t) by {
        forall i | 0 <= i < |t| - 1 && t[i] == '%' && t[i + 1] != '%'
          ensures '%' !in t[i + 1..]
        {
          assert s[i + 1] == '%' && s[i + 2] != '%';
          assert t[i + 1..] == s[i + 2..];
        }
      }
      ExpandNoReference(t, vars);
      if s[0] == '%' {
        var k := IndexOf(t, '%');
        if k.Some? && k.value > 0 {
          // an undoubled `%` followed by another one is what NoReference excludes
          assert false;
        }
      }
      assert s == [s[0]] + t;
    }
  }

  /** The variable and the folder the default storage root is built from. */
  const StorageVariable: string := "APPDATA"
  const StorageFolder: string := "/EnvBench"
  const DefaultStorageRoot: string := "%" + StorageVariable + "%" + StorageFolder
  /** The variable and the path the default Blockbench executable is built from. */
  const ExecutableVariable: string := "LOCALAPPDATA"
  const ExecutablePath: string := "/Programs/Blockbench/Blockbench.exe"
  const DefaultBlockbenchPath: string := "%" + ExecutableVariable + "%" + ExecutablePath

  /** The configuration read from the process environment, with the source's defaults. */
  function FromEnvironment(vars: map<string, string>, platform: Platform, toolVersion: string): (cfg: Config)
    ensures "ENVBENCH_STORAGE_FOLDER" in vars ==> cfg.storageRoot == vars["ENVBENCH_STORAGE_FOLDER"]
    ensures "ENVBENCH_STORAGE_FOLDER" !in vars ==> cfg.storageRoot == ExpandEnv(DefaultStorageRoot, vars)
    ensures "BLOCKBENCH_PORTABLES_CACHE" !in vars ==> cfg.cacheRoot == PathJoin(cfg.storageRoot, CacheFolderName)
    ensures "BLOCKBENCH_PORTABLES_CACHE" in vars ==> cfg.cacheRoot == vars["BLOCKBENCH_PORTABLES_CACHE"]
    ensures "BLOCKBENCH_PATH" in vars ==> cfg.blockbenchPath == vars["BLOCKBENCH_PATH"]
    ensures "BLOCKBENCH_PATH" !in vars ==> cfg.blockbenchPath == ExpandEnv(DefaultBlockbenchPath, vars)
    ensures cfg.platform == platform && cfg.toolVersion == toolVersion
  {
    var storage :=
      if "ENVBENCH_STORAGE_FOLDER" in vars then vars["ENVBENCH_STORAGE_FOLDER"]
      else ExpandEnv(DefaultStorageRoot, vars);
    var cache :=
      if "BLOCKBENCH_PORTABLES_CACHE" in vars then vars["BLOCKBENCH_PORTABLES_CACHE"]
      else PathJoin(storage, CacheFolderName);
    var exe :=
      if "BLOCKBENCH_PATH" in vars then vars["BLOCKBENCH_PATH"]
      else ExpandEnv(DefaultBlockbenchPath, vars);
    Config(storage, cache, exe, platform, toolVersion)
  }

  /** Unset, the storage root defaults to the `EnvBench` folder under `%APPDATA%`. */
  lemma DefaultStorageRootExpands(vars: map<string, string>, platform: Platform, toolVersion: string)
    requires "ENVBENCH_STORAGE_FOLDER" !in vars
    ensures FromEnvironment(vars, platform, toolVersion).storageRoot == Lookup(vars, "APPDATA") + "/EnvBench"
  {
    assert '%' !in StorageVariable && '%' !in StorageFolder;
    ExpandReferenceAtFront(StorageVariable, StorageFolder, vars);
  }

  /** Unset, the Blockbench executable defaults to its install path under `%LOCALAPPDATA%`. */
  lemma DefaultBlockbenchPathExpands(vars: map<string, string>, platform: Platform, toolVersion: string)
    requires "BLOCKBENCH_PATH" !in vars
    ensures FromEnvironment(vars, platform, toolVersion).blockbenchPath
         == Lookup(vars, "LOCALAPPDATA") + "/Programs/Blockbench/Blockbench.exe"
  {
    assert '%' !in ExecutableVariable && '%' !in ExecutablePath;
    ExpandReferenceAtFront(ExecutableVariable, ExecutablePath, vars);
  }
}

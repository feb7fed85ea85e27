/**
 * The artifact cache of src/blockbenchVersionManager.ts: one portable build
 * per resolved version under a deterministic file name, the regex that turns
 * file names back into versions, install/download, and the argument and
 * executable choice of `runBlockbench`.
 */
module Cache {
  import opened Results
  import opened Errors
  import opened Text
  import opened Settings
  import opened Versions
  import opened Environments

  /** The cache folder: missing until the first download, then a set of file names. */
  datatype CacheDir = NoCacheDir | CacheDir(files: set<string>)

  function Files(c: CacheDir): set<string> {
    if c.CacheDir? then c.files else {}
  }

  const FilePrefix: string := "blockbench-"

  /** The platform's portable build suffix; Linux is also the fallback. */
  function Extension(p: Platform): (e: string)
    ensures |e| >= 4 && e[0] == '.'
  {
    match p
    case Win32 => ".exe"
    case Darwin => ".dmg"
    case _ => ".AppImage"
  }

  /**
   * The file name `getNameProvider` gives a version. Round trip: the listing
   * regex recovers a version of digits and dots from its file name.
   */
  function FileName(p: Platform, v: string): (f: string)
    ensures StartsWith(f, FilePrefix)
    ensures DottedDigits(v) ==> StripDecoration(f) == v
  {
    var f := FilePrefix + v + Extension(p);
    assert f[..|FilePrefix|] == FilePrefix;
    assert f[|FilePrefix|..] == v + Extension(p);
    if DottedDigits(v) then
      UndecorateVersion(v, Extension(p));
      UndecorateExtension(p);
      f
    else f
  }

  /** Different versions never share a cache file. */
  lemma FileNameInjective(p: Platform, v: string, w: string)
    requires FileName(p, v) == FileName(p, w)
    ensures v == w
  {
    var f := FileName(p, v);
    assert |v| == |w|;
    assert v == f[|FilePrefix|..|FilePrefix| + |v|];
    assert w == f[|FilePrefix|..|FilePrefix| + |w|];
  }

  /** `getPortablePath`: the version's file inside the cache folder. */
  function PortablePath(cfg: Config, v: string): (path: string)
    ensures StartsWith(path, cfg.cacheRoot + "/")
    ensures DottedDigits(v) ==> StripDecoration(path[|cfg.cacheRoot| + 1..]) == v
  {
    var path := PathJoin(cfg.cacheRoot, FileName(cfg.platform, v));
    assert path[..|cfg.cacheRoot| + 1] == cfg.cacheRoot + "/";
    assert path[|cfg.cacheRoot| + 1..] == FileName(cfg.platform, v);
    path
  }

  /**
   * `file.replace(/^blockbench-|\.exe|\.dmg|\.AppImage$/g, '')`: the prefix
   * only at the very start, `.exe` and `.dmg` wherever they occur, and
   * `.AppImage` only at the very end.
   */
  function StripDecoration(f: string): (v: string)
    ensures |v| <= |f|
  {
    if StartsWith(f, FilePrefix) then Undecorate(f[|FilePrefix|..]) else Undecorate(f)
  }

  /** The scan of the regex after position 0: it only ever deletes. */
  function Undecorate(s: string): (r: string)
    ensures |r| <= |s|
    decreases |s|
  {
    if |s| == 0 then ""
    else if StartsWith(s, ".exe") || StartsWith(s, ".dmg") then Undecorate(s[4..])
    else if s == ".AppImage" then ""
    else [s[0]] + Undecorate(s[1..])
  }

  /** Characters a release version is made of. */
  predicate DottedDigits(v: string) {
    forall i :: 0 <= i < |v| ==> IsDigit(v[i]) || v[i] == '.'
  }

  lemma UndecorateExtension(p: Platform)
    ensures Undecorate(Extension(p)) == ""
  {
    var e := Extension(p);
    if p == Win32 || p == Darwin {
      assert e[..4] == e;
      assert StartsWith(e, ".exe") || StartsWith(e, ".dmg");
      assert e[4..] == "";
    } else {
      assert e[..4] == ".App";
      assert !StartsWith(e, ".exe") && !StartsWith(e, ".dmg");
    }
  }

  /** A character not followed by the second letter of a decoration is copied. */
  lemma UndecoratePlain(s: string)
    requires |s| >= 2 && s[1] != 'e' && s[1] != 'd' && s[1] != 'A'
    ensures Undecorate(s) == [s[0]] + Undecorate(s[1..])
  {
    if |s| >= 4 {
      assert s[..4][1] == s[1];
    }
    assert s != ".AppImage" by {
      if |s| == 9 {
        assert ".AppImage"[1] == 'A';
      }
    }
  }

  /** A character put in front of a string that cannot continue a decoration is copied. */
  lemma UndecorateCons(c: char, t: string)
    requires |t| > 0 && t[0] != 'e' && t[0] != 'd' && t[0] != 'A'
    ensures Undecorate([c] + t) == [c] + Undecorate(t)
  {
    var s := [c] + t;
    assert s[1] == t[0] && s[1..] == t;
    UndecoratePlain(s);
  }

  lemma DottedDigitsTail(v: string)
    requires |v| > 0 && DottedDigits(v)
    ensures DottedDigits(v[1..])
  {
    forall i | 0 <= i < |v[1..]| ensures IsDigit(v[1..][i]) || v[1..][i] == '.' {
      assert v[1..][i] == v[i + 1];
    }
  }

  /** One step of the scan over a version: its first character is copied. */
  lemma UndecorateVersionStep(c: char, w: string, ext: string)
    requires |w| > 0 ==> IsDigit(w[0]) || w[0] == '.'
    requires |ext| > 0 && ext[0] == '.'
    requires Undecorate(w + ext) == w + Undecorate(ext)
    ensures Undecorate([c] + (w + ext)) == [c] + (w + Undecorate(ext))
  {
    assert (w + ext)[0] == if |w| > 0 then w[0] else ext[0];
    UndecorateCons(c, w + ext);
  }

  lemma ConcatAssoc(a: string, b: string, c: string)
    ensures (a + b) + c == a + (b + c)
  {
  }

  /** Scanning a version of digits and dots finds nothing to remove before the suffix. */
  lemma {:induction false} UndecorateVersion(v: string, ext: string)
    requires DottedDigits(v)
    requires |ext| > 0 && ext[0] == '.'
    ensures Undecorate(v + ext) == v + Undecorate(ext)
    decreases |v|
  {
    if |v| == 0 {
      assert v + ext == ext;
    } else {
      var w := v[1..];
      DottedDigitsTail(v);
      UndecorateVersion(w, ext);
      UndecorateVersionStep(v[0], w, ext);
      assert v == [v[0]] + w;
      ConcatAssoc([v[0]], w, ext);
      ConcatAssoc([v[0]], w, Undecorate(ext));
    }
  }

  /**
   * `getInstalledVersions()`: the decoded names of the cache's files. The
   * folder is read with a plain `readdir`, so a missing cache folder is an
   * error rather than an empty set.
   */
  function GetInstalledVersions(c: CacheDir): (r: Result<set<string>, Error>)
    ensures r.Failure? <==> c.NoCacheDir?
    ensures r.Success? ==> forall v :: v in r.value <==> exists f :: f in c.files && StripDecoration(f) == v
  {
    if c.NoCacheDir? then Failure(CacheUnreadable)
    else Success(set f | f in c.files :: StripDecoration(f))
  }

  /** `isVersionInstalled(version)`: the version is resolved again and its file looked up. */
  function IsVersionInstalled(version: string, reg: Registry, p: Platform, c: CacheDir): (r: Result<bool, Error>)
    ensures r.Failure? <==> ResolveVersion(Some(version), reg).Failure?
    ensures r.Success? ==> (r.value <==> FileName(p, ResolveVersion(Some(version), reg).value) in Files(c))
  {
    var v :- ResolveVersion(Some(version), reg);
    Success(FileName(p, v) in Files(c))
  }

  /**
   * `downloadNewPortableBlockbench(version)`: refused offline or when the
   * version is already cached; a failing download stops before the folder is
   * made or a file is written; success adds exactly the version's file.
   */
  function DownloadNewPortableBlockbench(version: string, online: Option<string>, reg: Registry, p: Platform, c: CacheDir): (r: Result<CacheDir, Error>)
    ensures !IsOnline(online) ==> r == Failure(Offline)
    ensures IsOnline(online) && IsVersionInstalled(version, reg, p, c) == Success(true) ==> r == Failure(AlreadyInstalled(version))
    ensures IsOnline(online) && IsVersionInstalled(version, reg, p, c) == Success(false) && version !in reg.portables ==>
      r == Failure(DownloadFailed(version))
    ensures r.Success? <==>
      IsOnline(online) && IsVersionInstalled(version, reg, p, c) == Success(false) && version in reg.portables
    ensures r.Success? ==> r.value == CacheDir(Files(c) + {FileName(p, version)})
  {
    if !IsOnline(online) then Failure(Offline)
    else
      var installed :- IsVersionInstalled(version, reg, p, c);
      if installed then Failure(AlreadyInstalled(version))
      else if version !in reg.portables then Failure(DownloadFailed(version))
      else Success(CacheDir(Files(c) + {FileName(p, version)}))
  }

  /**
   * `installVersion(version, ignoreAlreadyInstalledError)`: resolve, then
   * return quietly (or fail, when the flag is false) if the file is there,
   * otherwise download.
   */
  function InstallVersion(version: string, ignoreInstalled: bool, online: Option<string>, reg: Registry, p: Platform, c: CacheDir): (r: Result<CacheDir, Error>)
    ensures ResolveVersion(Some(version), reg).Failure? ==> r.Failure?
    ensures ResolveVersion(Some(version), reg).Success? ==>
      var v := ResolveVersion(Some(version), reg).value;
      && (IsVersionInstalled(v, reg, p, c) == Success(true) ==>
            r == if ignoreInstalled then Success(c) else Failure(AlreadyInstalled(v)))
      && (IsVersionInstalled(v, reg, p, c) == Success(false) ==>
            && (r.Success? <==> IsOnline(online) && v in reg.portables)
            && (r.Success? ==> Files(r.value) == Files(c) + {FileName(p, v)}))
    ensures r.Success? ==> Files(c) <= Files(r.value)
    ensures r.Success? ==> (Files(r.value) == Files(c) ||
      Files(r.value) == Files(c) + {FileName(p, ResolveVersion(Some(version), reg).value)})
  {
    var v :- ResolveVersion(Some(version), reg);
    var installed :- IsVersionInstalled(v, reg, p, c);
    if installed then
      if ignoreInstalled then Success(c) else Failure(AlreadyInstalled(v))
    else DownloadNewPortableBlockbench(v, online, reg, p, c)
  }

  /**
   * Idempotence: once installed, installing the same version again with the
   * default flag is a no-op, and with the flag false it is an error. The
   * version is resolved twice on the way, so this holds for resolved
   * versions that resolve to themselves.
   */
  lemma InstallIdempotent(version: string, online: Option<string>, reg: Registry, p: Platform, c: CacheDir)
    requires InstallVersion(version, true, online, reg, p, c).Success?
    requires var v := ResolveVersion(Some(version), reg).value; ResolveVersion(Some(v), reg) == Success(v)
    ensures var c' := InstallVersion(version, true, online, reg, p, c).value;
      && InstallVersion(version, true, online, reg, p, c') == Success(c')
      && InstallVersion(version, false, online, reg, p, c').Failure?
      && FileName(p, ResolveVersion(Some(version), reg).value) in Files(c')
  {
  }

  /** Once a version's file is cached, a download request for it is refused without touching the network. */
  lemma NoSecondDownload(version: string, online: Option<string>, reg: Registry, p: Platform, c: CacheDir)
    requires DownloadNewPortableBlockbench(version, online, reg, p, c).Success?
    requires ResolveVersion(Some(version), reg) == Success(version)
    ensures DownloadNewPortableBlockbench(version, online, reg, p, DownloadNewPortableBlockbench(version, online, reg, p, c).value)
         == Failure(AlreadyInstalled(version))
  {
  }

  /**
   * A version that resolves to something else, such as `v5.0.0`, is stored
   * under its own name but looked up under the resolved one, so the second
   * download of it is not refused: it succeeds again and writes the same file.
   */
  lemma DownloadAgainWhenUnresolved(version: string, online: Option<string>, reg: Registry, p: Platform, c: CacheDir)
    requires DownloadNewPortableBlockbench(version, online, reg, p, c).Success?
    requires ResolveVersion(Some(version), reg).value != version
    ensures var first := DownloadNewPortableBlockbench(version, online, reg, p, c).value;
      DownloadNewPortableBlockbench(version, online, reg, p, first) == Success(first)
  {
    var v := ResolveVersion(Some(version), reg).value;
    if FileName(p, v) == FileName(p, version) {
      FileNameInjective(p, v, version);
    }
  }

  /** The process `runBlockbench` would start. */
  datatype Spawn = Spawn(executable: string, args: seq<string>)

  /**
   * The arguments of `runBlockbench`: the isolation flag bound to the
   * environment's folder, followed by the caller's arguments.
   */
  function LaunchArguments(cfg: Config, environmentName: string, args: seq<string>): (r: seq<string>)
    requires IsolationFlagName !in args
    ensures |r| == |args| + 2 && r[2..] == args
    ensures r[0] == IsolationFlagName && r[1] == PathJoin(cfg.storageRoot, environmentName)
    ensures forall i :: 0 <= i < |r| && r[i] == IsolationFlagName ==> i == 0
  {
    var dir := PathJoin(cfg.storageRoot, environmentName);
    assert dir[|cfg.storageRoot|] == '/';
    assert '/' !in IsolationFlagName;
    assert '/' in dir;
    var r := [IsolationFlagName, dir] + args;
    assert forall i :: 2 <= i < |r| ==> r[i] == args[i - 2];
    r
  }

  /**
   * The part of `runBlockbench(version, name, args)` before the spawn:
   * resolve, download when the named version's file is missing, resolve
   * `latest` to choose the executable, refuse `--userData`, assemble the
   * arguments. The cache can change even when a later step fails.
   */
  function RunBlockbench(version: string, environmentName: string, args: seq<string>, cfg: Config, online: Option<string>, reg: Registry, c: CacheDir): (r: (CacheDir, Result<Spawn, Error>))
    ensures Files(c) <= Files(r.0)
    ensures ResolveVersion(Some(version), reg).Success? ==>
      var v := ResolveVersion(Some(version), reg).value;
      && (Files(r.0) == Files(c) || Files(r.0) == Files(c) + {FileName(cfg.platform, v)})
      && (r.1.Success? <==>
            && (FileName(cfg.platform, v) in Files(c)
                || DownloadNewPortableBlockbench(v, online, reg, cfg.platform, c).Success?)
            && ResolveVersion(Some(LatestName), reg).Success?
            && IsolationFlagName !in args)
      && (r.1.Success? ==> FileName(cfg.platform, v) in Files(r.0))
    ensures r.1.Success? ==> IsolationFlagName !in args
    ensures r.1.Success? ==> r.1.value.args == [IsolationFlagName, PathJoin(cfg.storageRoot, environmentName)] + args
    ensures r.1.Success? ==>
      && ResolveVersion(Some(version), reg).Success?
      && ResolveVersion(Some(LatestName), reg).Success?
      && (version == ResolveVersion(Some(LatestName), reg).value ==> r.1.value.executable == cfg.blockbenchPath)
      && (version != ResolveVersion(Some(LatestName), reg).value ==>
            r.1.value.executable == PortablePath(cfg, ResolveVersion(Some(version), reg).value))
  {
    match ResolveVersion(Some(version), reg)
    case Failure(e) => (c, Failure(e))
    case Success(resolved) =>
      match IsVersionInstalled(version, reg, cfg.platform, c)
      case Failure(e) => (c, Failure(e))
      case Success(installed) =>
        var fetched := if installed then Success(c) else DownloadNewPortableBlockbench(resolved, online, reg, cfg.platform, c);
        match fetched
        case Failure(e) => (c, Failure(e))
        case Success(c1) =>
          match ResolveVersion(Some(LatestName), reg)
          case Failure(e) => (c1, Failure(e))
          case Success(latest) =>
            var exe := if version != latest then PortablePath(cfg, resolved) else cfg.blockbenchPath;
            if CheckArgs(args).Some? then (c1, Failure(IsolationFlag))
            else (c1, Success(Spawn(exe, LaunchArguments(cfg, environmentName, args))))
  }

  /**
   * The symbolic name `latest` is never equal to the resolved latest release
   * (unless its tag is literally `latest`), so it always runs the portable build.
   */
  lemma LatestRunsPortable(environmentName: string, args: seq<string>, cfg: Config, online: Option<string>, reg: Registry, c: CacheDir)
    requires reg.latest.Some? && StripV(reg.latest.value) != LatestName
    requires RunBlockbench(LatestName, environmentName, args, cfg, online, reg, c).1.Success?
    ensures RunBlockbench(LatestName, environmentName, args, cfg, online, reg, c).1.value.executable
         == PortablePath(cfg, StripV(reg.latest.value))
  {
  }
}

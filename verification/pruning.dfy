/**
 * `pruneBlockbenchVersions` of src/blockbenchVersionManager.ts: every
 * environment's version is resolved first, then each cached file whose
 * decoded version no environment uses is unlinked, in listing order.
 */
module Pruning {
  import opened Results
  import opened Errors
  import opened Settings
  import opened Descriptors
  import opened Environments
  import opened Versions
  import opened Cache

  /** Each name at most once. */
  predicate NoDuplicates(xs: seq<string>) {
    forall i, j :: 0 <= i < j < |xs| ==> xs[i] != xs[j]
  }

  /** `listing` is what `readdir` returns for a folder holding `files`. */
  predicate Enumerates(listing: seq<string>, files: set<string>) {
    && NoDuplicates(listing)
    && (forall f :: f in files ==> f in listing)
    && (forall i :: 0 <= i < |listing| ==> listing[i] in files)
  }

  /** Every cached file is the portable file of the version its name decodes to. */
  predicate WellFormedCache(p: Platform, files: set<string>) {
    forall f :: f in files ==> FileName(p, StripDecoration(f)) == f
  }

  /** A file written by a download of a version of digits and dots keeps the cache well formed. */
  lemma DownloadKeepsWellFormed(p: Platform, files: set<string>, v: string)
    requires WellFormedCache(p, files) && DottedDigits(v)
    ensures WellFormedCache(p, files + {FileName(p, v)})
  {
    assert StripDecoration(FileName(p, v)) == v;
  }

  /**
   * The versions in use: the resolution of every readable environment's
   * version. The first resolution that fails aborts the whole computation.
   */
  function LiveSet(envs: map<string, RawDescriptor>, reg: Registry): (r: Result<set<string>, Error>)
    requires forall n :: n in envs ==> Usable(envs[n])
    ensures r.Success? <==> forall n :: n in envs ==> ResolveVersion(Some(VersionOf(envs[n])), reg).Success?
    ensures r.Success? ==> forall v :: v in r.value <==>
      exists n :: n in envs && ResolveVersion(Some(VersionOf(envs[n])), reg) == Success(v)
  {
    if forall n :: n in envs ==> ResolveVersion(Some(VersionOf(envs[n])), reg).Success? then
      Success(set n | n in envs :: ResolveVersion(Some(VersionOf(envs[n])), reg).value)
    else Failure(UnresolvableEnvironmentVersion)
  }

  /** The files among `xs` whose decoded version is not in use. */
  function Stale(xs: seq<string>, live: set<string>): set<string> {
    set f | f in xs && StripDecoration(f) !in live
  }

  /** Extending the scanned prefix by one file adds that file to the stale set exactly when its version is not in use. */
  lemma StaleExtend(xs: seq<string>, x: string, live: set<string>)
    ensures Stale(xs + [x], live) == Stale(xs, live) + (if StripDecoration(x) in live then {} else {x})
  {
  }

  /**
   * One iteration of the prune loop on a well-formed cache: a stale file is
   * still present and is exactly the portable path of its decoded version.
   */
  lemma PruneStep(p: Platform, all: set<string>, listing: seq<string>, i: nat, live: set<string>, files: set<string>)
    requires WellFormedCache(p, all) && Enumerates(listing, all) && i < |listing|
    requires files == all - Stale(listing[..i], live)
    ensures StripDecoration(listing[i]) in live ==> files == all - Stale(listing[..i + 1], live)
    ensures StripDecoration(listing[i]) !in live ==>
      && FileName(p, StripDecoration(listing[i])) == listing[i]
      && listing[i] in files
      && files - {listing[i]} == all - Stale(listing[..i + 1], live)
  {
    var f := listing[i];
    assert listing[..i + 1] == listing[..i] + [f];
    StaleExtend(listing[..i], f, live);
    assert f !in listing[..i] by {
      forall j | 0 <= j < i ensures listing[..i][j] != f {
        assert listing[..i][j] == listing[j];
      }
    }
  }

  /** After the whole listing, what is left is exactly the files whose version is in use. */
  lemma PruneResult(all: set<string>, listing: seq<string>, live: set<string>)
    requires Enumerates(listing, all)
    ensures all - Stale(listing, live) == set f | f in all && StripDecoration(f) in live
  {
  }

  /**
   * The unlink loop of pruning: each listed file whose decoded version is not
   * in use is removed by unlinking the portable path of that version, which
   * fails when the path does not exist; files unlinked so far stay unlinked.
   * On a well-formed cache exactly the files whose version is in use survive.
   */
  method UnlinkStale(p: Platform, cacheRoot: string, all: set<string>, listing: seq<string>, live: set<string>)
    returns (after: set<string>, failure: Option<Error>)
    requires Enumerates(listing, all)
    ensures after <= all
    ensures WellFormedCache(p, all) ==> failure.None? && after == set f | f in all && StripDecoration(f) in live
  {
    ghost var wellFormed := WellFormedCache(p, all);
    var files := all;
    var i := 0;
    while i < |listing|
      invariant 0 <= i <= |listing|
      invariant files <= all
      invariant wellFormed ==> files == all - Stale(listing[..i], live)
    {
      var f := listing[i];
      var v := StripDecoration(f);
      if wellFormed {
        PruneStep(p, all, listing, i, live, files);
      }
      if v !in live {
        var target := FileName(p, v);
        if target !in files {
          return files, Some(UnlinkFailed(PathJoin(cacheRoot, target)));
        }
        files := files - {target};
      }
      i := i + 1;
    }
    assert listing[..i] == listing;
    if wellFormed {
      PruneResult(all, listing, live);
    }
    return files, None;
  }

  /**
   * `pruneBlockbenchVersions()`. Nothing is deleted unless the environment
   * listing, the cache listing and every resolution succeed.
   */
  method PruneBlockbenchVersions(cfg: Config, reg: Registry, s: Store, c: CacheDir, listing: seq<string>)
    returns (after: CacheDir, failure: Option<Error>)
    requires c.CacheDir? ==> Enumerates(listing, c.files)
    ensures Files(after) <= Files(c)
    ensures GetEnvironmentFiles(s, UtilRule, cfg.toolVersion).Success? && c.NoCacheDir? ==>
      after == c && failure == Some(CacheUnreadable)
    ensures GetEnvironmentFiles(s, UtilRule, cfg.toolVersion).Failure? ==> after == c && failure.Some?
    ensures GetEnvironmentFiles(s, UtilRule, cfg.toolVersion).Success? && c.CacheDir? ==>
      var envs := GetEnvironmentFiles(s, UtilRule, cfg.toolVersion).value;
      && (forall n :: n in envs ==> Usable(envs[n]))
      && (LiveSet(envs, reg).Failure? ==> after == c && failure == Some(UnresolvableEnvironmentVersion))
      && (LiveSet(envs, reg).Success? && WellFormedCache(cfg.platform, c.files) ==>
            && failure.None?
            && after == CacheDir(set f | f in c.files && StripDecoration(f) in LiveSet(envs, reg).value))
  {
    var envs := GetEnvironmentFiles(s, UtilRule, cfg.toolVersion);
    if envs.Failure? {
      return c, Some(envs.error);
    }
    var installed := GetInstalledVersions(c);
    if installed.Failure? {
      return c, Some(installed.error);
    }
    assert forall n :: n in envs.value ==> Usable(envs.value[n]);
    var live := LiveSet(envs.value, reg);
    if live.Failure? {
      return c, Some(live.error);
    }
    var files;
    files, failure := UnlinkStale(cfg.platform, cfg.cacheRoot, c.files, listing, live.value);
    after := CacheDir(files);
  }
}

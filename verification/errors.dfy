/**
 * Every way an envbench invocation can stop short. The source throws `Error`s,
 * `EnvironmentError`s or calls `process.exit(1)`; all of them end the invocation
 * with a non-zero status, so the model keeps only what went wrong.
 */
module Errors {

  datatype Error =
    // version resolution and validation
    | NoVersionGiven
    | RegistryUnavailable
    | NoBetaRelease
    | UncomparableVersion(version: string)
    | InvalidVersion(version: string)
    // artifact cache
    | Offline
    | AlreadyInstalled(version: string)
    | DownloadFailed(version: string)
    | CacheUnreadable
    | UnlinkFailed(file: string)
    // environment store
    | EnvironmentMissing(name: string)
    | NameTaken(name: string)
    | ReservedName(name: string)
    | IsolationFlag
    | DescriptorUnreadable(name: string)
    | MalformedDescriptor(name: string, reason: Malformation)
    | LaunchArgsNotList(name: string)
    | WriteFailed(name: string)
    | ListingAborted
    | UnresolvableEnvironmentVersion

  /** Which validation step of a descriptor read refused the file. */
  datatype Malformation = NotAnObject | MissingName | VersionNotString | BadLaunchArgs
}

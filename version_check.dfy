/** The version-update check: a mutable three-field version record, the
    setters that fill it in, and the guarded decision whether an update is
    available. */
module Versions {
  import opened KotlinTypes

  /** The message of the exception raised when a version is unset. */
  const NOT_SET_MESSAGE: string := "Parameter 'currentVersion' or 'latestVersion' not set."

  /** The version record. Its three properties are mutable in place; a
      version number of 0 means "not set". */
  class VersionInfo {
    var currentVersion: Long
    var latestLink: Option<string>
    var latestVersion: Long

    /** The primary constructor with its default arguments. */
    constructor (currentVersion: Long := 0, latestLink: Option<string> := None, latestVersion: Long := 0)
      ensures this.currentVersion == currentVersion
      ensures this.latestLink == latestLink
      ensures this.latestVersion == latestVersion
    {
      this.currentVersion := currentVersion;
      this.latestLink := latestLink;
      this.latestVersion := latestVersion;
    }
  }

  /** What `onUpdateAvailable` does: raise, call the callback once with the
      record, or do nothing. */
  datatype UpdateCheck = Error(exception: Throwable) | Update(info: VersionInfo) | NoUpdate

  /** Holds one version record, created with the defaults, and updates it
      through setters. */
  class VersionCheck {
    const version: VersionInfo

    constructor ()
      ensures fresh(version)
      ensures version.currentVersion == 0 && version.latestVersion == 0
      ensures version.latestLink == None
    {
      version := new VersionInfo();
    }

    method SetLatestVersion(latest: Long)
      modifies version`latestVersion
      ensures version.latestVersion == latest
      ensures version.currentVersion == old(version.currentVersion)
      ensures version.latestLink == old(version.latestLink)
    {
      version.latestVersion := latest;
    }

    method SetLatestVersionLink(link: string)
      modifies version`latestLink
      ensures version.latestLink == Some(link)
      ensures version.currentVersion == old(version.currentVersion)
      ensures version.latestVersion == old(version.latestVersion)
    {
      version.latestLink := Some(link);
    }

    method SetCurrentVersion(current: Long)
      modifies version`currentVersion
      ensures version.currentVersion == current
      ensures version.latestVersion == old(version.latestVersion)
      ensures version.latestLink == old(version.latestLink)
    {
      version.currentVersion := current;
    }

    /** The guarded decision. Only `== 0` is tested, so negative versions
        pass the guard and are compared as numbers. The method has no
        `modifies` clause: it changes no field of the record. */
    method OnUpdateAvailable() returns (r: UpdateCheck)
      ensures r.Error? <==> version.currentVersion == 0 || version.latestVersion == 0
      ensures r.Error? ==> r.exception == IllegalStateException(NOT_SET_MESSAGE)
      ensures r.Update? <==>
                version.currentVersion != 0 && version.latestVersion != 0 &&
                version.latestVersion > version.currentVersion
      ensures r.Update? ==> r.info == version
      ensures r.NoUpdate? <==>
                version.currentVersion != 0 && version.latestVersion != 0 &&
                version.latestVersion <= version.currentVersion
    {
      if version.currentVersion == 0 || version.latestVersion == 0 {
        return Error(IllegalStateException(NOT_SET_MESSAGE));
      }
      if version.latestVersion > version.currentVersion {
        r := Update(version);
      } else {
        r := NoUpdate;
      }
    }
  }

  /** A client that sets both versions on a fresh check and asks for an
      update: the setters' frames carry each value through to the decision. */
  method CheckVersions(current: Long, latest: Long, link: string) returns (r: UpdateCheck)
    ensures r.Error? <==> current == 0 || latest == 0
    ensures r.Update? <==> current != 0 && latest != 0 && latest > current
    ensures r.Update? ==>
              r.info.currentVersion == current && r.info.latestVersion == latest &&
              r.info.latestLink == Some(link)
  {
    var check := new VersionCheck();
    check.SetCurrentVersion(current);
    check.SetLatestVersionLink(link);
    check.SetLatestVersion(latest);
    r := check.OnUpdateAvailable();
  }

  /** A fresh check has both versions unset, so asking right away raises. */
  method CheckUnset() returns (r: UpdateCheck)
    ensures r == Error(IllegalStateException(NOT_SET_MESSAGE))
  {
    var check := new VersionCheck();
    r := check.OnUpdateAvailable();
  }

  /** Once the current version is raised to the latest one, the same check
      reports no update, whatever it reported before. */
  method CheckAfterUpgrade(current: Long, latest: Long) returns (before: UpdateCheck, after: UpdateCheck)
    requires current != 0 && latest != 0
    ensures before.Update? <==> latest > current
    ensures after == NoUpdate
  {
    var check := new VersionCheck();
    check.SetCurrentVersion(current);
    check.SetLatestVersion(latest);
    before := check.OnUpdateAvailable();
    check.SetCurrentVersion(latest);
    after := check.OnUpdateAvailable();
  }

  /** The guard tests only for 0: negative versions pass it and are compared
      as numbers, so -1 is newer than -2. */
  method CheckNegativeVersions() returns (r: UpdateCheck)
    ensures r.Update? && r.info.currentVersion == -2 && r.info.latestVersion == -1
  {
    var check := new VersionCheck();
    check.SetCurrentVersion(-2);
    check.SetLatestVersion(-1);
    r := check.OnUpdateAvailable();
  }
}

/** list/hostname.go: the BlacklistedType for hostnames, a stateless struct
    handed out as a lazily created global singleton. */
module ListHostname {
  import opened Base

  /** The empty struct `blacklistedHostnameType`. */
  class HostnameType {
    constructor ()
    {
    }

    /** `Type()` names the entry type. */
    function Type(): (t: string)
      ensures t == "hostname"
    {
      "hostname"
    }

    /** `ValidateIndex` accepts every index: it never returns an error. */
    function ValidateIndex(data: string): (err: Option<Error>)
      ensures err == None
    {
      None
    }
  }

  /** The package-level variable `hostnameSingleton`, nil until first use. */
  class Globals {
    var hostnameSingleton: HostnameType?

    constructor ()
      ensures hostnameSingleton == null
    {
      hostnameSingleton := null;
    }

    /** `BlacklistedHostnameType()`: the first call allocates the singleton,
        every later call returns that same object. */
    method BlacklistedHostnameType() returns (t: HostnameType)
      modifies this
      ensures old(hostnameSingleton) == null ==> fresh(t)
      ensures old(hostnameSingleton) != null ==> t == old(hostnameSingleton)
      ensures hostnameSingleton == t
    {
      if hostnameSingleton == null {
        hostnameSingleton := new HostnameType();
      }
      t := hostnameSingleton;
    }

    /** Two calls in a row yield the identical object. */
    method SingletonStable() returns (a: HostnameType, b: HostnameType)
      modifies this
      ensures a == b && hostnameSingleton == a
      ensures old(hostnameSingleton) != null ==> a == old(hostnameSingleton)
    {
      a := BlacklistedHostnameType();
      b := BlacklistedHostnameType();
    }
  }
}

/** list/ip.go: the BlacklistedType for IP addresses, a stateless struct
    handed out as a lazily created global singleton. */
module ListIP {
  import opened Base

  /** The empty struct `blacklistedIPType`. */
  class IPType {
    constructor ()
    {
    }

    /** `Type()` names the entry type. */
    function Type(): (t: string)
      ensures t == "ip"
    {
      "ip"
    }

    /** `ValidateIndex` accepts every index: it never returns an error. */
    function ValidateIndex(data: string): (err: Option<Error>)
      ensures err == None
    {
      None
    }
  }

  /** The package-level variable `ipSingleton`, nil until first use. */
  class Globals {
    var ipSingleton: IPType?

    constructor ()
      ensures ipSingleton == null
    {
      ipSingleton := null;
    }

    /** `BlacklistedIPType()`: the first call allocates the singleton,
        every later call returns that same object. */
    method BlacklistedIPType() returns (t: IPType)
      modifies this
      ensures old(ipSingleton) == null ==> fresh(t)
      ensures old(ipSingleton) != null ==> t == old(ipSingleton)
      ensures ipSingleton == t
    {
      if ipSingleton == null {
        ipSingleton := new IPType();
      }
      t := ipSingleton;
    }

    /** Two calls in a row yield the identical object. */
    method SingletonStable() returns (a: IPType, b: IPType)
      modifies this
      ensures a == b && ipSingleton == a
      ensures old(ipSingleton) != null ==> a == old(ipSingleton)
    {
      a := BlacklistedIPType();
      b := BlacklistedIPType();
    }
  }
}

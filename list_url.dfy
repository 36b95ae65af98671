/** list/url.go: the BlacklistedType for URLs, a stateless struct
    handed out as a lazily created global singleton. */
module ListURL {
  import opened Base

  /** The empty struct `blacklistedURLType`. */
  class URLType {
    constructor ()
    {
    }

    /** `Type()` names the entry type. */
    function Type(): (t: string)
      ensures t == "url"
    {
      "url"
    }

    /** `ValidateIndex` accepts every index: it never returns an error. */
    function ValidateIndex(data: string): (err: Option<Error>)
      ensures err == None
    {
      None
    }
  }

  /** The package-level variable `urlSingleton`, nil until first use. */
  class Globals {
    var urlSingleton: URLType?

    constructor ()
      ensures urlSingleton == null
    {
      urlSingleton := null;
    }

    /** `BlacklistedURLType()`: the first call allocates the singleton,
        every later call returns that same object. */
    method BlacklistedURLType() returns (t: URLType)
      modifies this
      ensures old(urlSingleton) == null ==> fresh(t)
      ensures old(urlSingleton) != null ==> t == old(urlSingleton)
      ensures urlSingleton == t
    {
      if urlSingleton == null {
        urlSingleton := new URLType();
      }
      t := urlSingleton;
    }

    /** Two calls in a row yield the identical object. */
    method SingletonStable() returns (a: URLType, b: URLType)
      modifies this
      ensures a == b && urlSingleton == a
      ensures old(urlSingleton) != null ==> a == old(urlSingleton)
    {
      a := BlacklistedURLType();
      b := BlacklistedURLType();
    }
  }
}

/** sources/sources.go: the package-level registries of list factories and
    remote procedure calls (RPCs). A factory is represented by the
    description of the list it builds; calling it allocates that list. */
module Sources {
  import opened Base
  import opened ListPipeline
  import opened Database

  /** An RPC checks one index remotely. */
  type RPC = string -> DBEntry

  /** The RPCs registered for a type, in registration order (a missing key
      reads as an empty slice in Go). */
  function RPCsFor(rpcs: map<BlacklistedType, seq<RPC>>, t: BlacklistedType): (r: seq<RPC>)
    ensures t !in rpcs ==> r == []
    ensures t in rpcs ==> r == rpcs[t]
  {
    if t in rpcs then rpcs[t] else []
  }

  /** The two globals `listFactories` and `rpcs`. */
  class Registry {
    var listFactories: map<string, ListSpec>
    var rpcs: map<BlacklistedType, seq<RPC>>

    /** `init()`: both maps start empty. */
    constructor ()
      ensures listFactories == map[] && rpcs == map[]
    {
      listFactories := map[];
      rpcs := map[];
    }

    /** `BootstrapList(name, factory)`: registers or replaces one factory. */
    method BootstrapList(name: string, factory: ListSpec)
      modifies this`listFactories
      ensures listFactories == old(listFactories)[name := factory]
      ensures forall n :: n != name && n in old(listFactories) ==> n in listFactories && listFactories[n] == old(listFactories)[n]
    {
      listFactories := listFactories[name := factory];
    }

    /** `BootstrapRPC(entryType, rpc)`: appends to that type's RPCs. */
    method BootstrapRPC(entryType: BlacklistedType, rpc: RPC)
      modifies this`rpcs
      ensures rpcs == old(rpcs)[entryType := RPCsFor(old(rpcs), entryType) + [rpc]]
      ensures GetRPCs(entryType) == old(GetRPCs(entryType)) + [rpc]
      ensures forall t :: t != entryType ==> RPCsFor(rpcs, t) == RPCsFor(old(rpcs), t)
    {
      rpcs := rpcs[entryType := RPCsFor(rpcs, entryType) + [rpc]];
    }

    /** Appends every registered name to `prefix`, in Go's unspecified map
        iteration order: each name exactly once. */
    method AppendNames(prefix: seq<string>) returns (lists: seq<string>)
      ensures |lists| == |prefix| + |listFactories|
      ensures lists[..|prefix|] == prefix
      ensures multiset(lists[|prefix|..]) == multiset(listFactories.Keys)
    {
      lists := prefix;
      var rest := listFactories.Keys;
      while rest != {}
        invariant rest <= listFactories.Keys
        invariant |lists| == |prefix| + |listFactories.Keys| - |rest|
        invariant lists[..|prefix|] == prefix
        invariant multiset(lists[|prefix|..]) + multiset(rest) == multiset(listFactories.Keys)
        decreases |rest|
      {
        var name :| name in rest;
        assert lists[|prefix|..] + [name] == (lists + [name])[|prefix|..];
        lists := lists + [name];
        rest := rest - {name};
      }
    }

    /** `GetAvailableLists()` as written: `make([]string, n)` followed by
        appends, so the result starts with one empty string per factory. */
    method GetAvailableLists() returns (lists: seq<string>)
      ensures |lists| == 2 * |listFactories|
      ensures forall i :: 0 <= i < |listFactories| ==> lists[i] == ""
      ensures multiset(lists[|listFactories|..]) == multiset(listFactories.Keys)
    {
      lists := AppendNames(seq(|listFactories|, _ => ""));
    }

    /** `GetAvailableLists()` as intended: each registered name exactly once
        and nothing else. */
    method GetAvailableListsIntended() returns (lists: seq<string>)
      ensures multiset(lists) == multiset(listFactories.Keys)
      ensures forall n :: n in lists <==> n in listFactories
    {
      lists := AppendNames([]);
      assert lists[0..] == lists;
      forall n ensures n in lists <==> n in listFactories {
        assert n in lists <==> n in multiset(lists);
        assert n in listFactories.Keys <==> n in multiset(listFactories.Keys);
      }
    }

    /** `CreateList(name)`: nil for an unknown name, otherwise what the
        factory builds. */
    method CreateList(name: string) returns (l: List?)
      ensures name !in listFactories ==> l == null
      ensures name in listFactories ==> l != null && fresh(l) && l.Spec() == listFactories[name]
    {
      if name !in listFactories {
        return null;
      }
      l := new List(listFactories[name]);
    }

    /** `GetRPCs(entryType)`. */
    function GetRPCs(entryType: BlacklistedType): (r: seq<RPC>)
      reads this
      ensures entryType !in rpcs ==> r == []
      ensures entryType in rpcs ==> r == rpcs[entryType]
    {
      RPCsFor(rpcs, entryType)
    }
  }
}

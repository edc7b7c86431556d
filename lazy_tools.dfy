/**
  Lazy tool loading: a registry of tool classes whose instances are built on
  first request and then reused, with per-name access counting, eviction of
  rarely used instances, and placeholders (proxies) that defer construction
  until the tool is first needed.
*/
module LazyTools {
  import opened Common

  /** A constructed tool. Only its identity and how it was built matter here. */
  class Tool {
    const toolClass: string
    const modelProvider: string

    constructor (toolClass: string, modelProvider: string)
      ensures this.toolClass == toolClass && this.modelProvider == modelProvider
    {
      this.toolClass := toolClass;
      this.modelProvider := modelProvider;
    }
  }

  /** The result of resolving a name: the instance, the `ValueError` raised for a
      name outside the registry, which lists the registered names, or the
      exception the tool class's constructor raised. */
  datatype Lookup = Found(tool: Tool) | NotFound(name: string, available: set<string>) | BuildFailed(name: string)

  /** The registered names whose class can be constructed. */
  function Buildable(registry: map<string, string>, unbuildable: set<string>): set<string>
  {
    registry.Keys - unbuildable
  }

  /** The length of the longest prefix of `names` lying wholly inside `known`. */
  function KnownPrefix(names: seq<string>, known: set<string>): (k: nat)
    ensures k <= |names|
    ensures forall i :: 0 <= i < k ==> names[i] in known
    ensures k < |names| ==> names[k] !in known
  {
    if names == [] || names[0] !in known then 0 else 1 + KnownPrefix(names[1..], known)
  }

  /** The distinct names among the first `k` of `names`. */
  function NamesBefore(names: seq<string>, k: nat): set<string>
    requires k <= |names|
  {
    if k == 0 then {} else NamesBefore(names, k - 1) + {names[k - 1]}
  }

  /** How many of the first `k` names are `n`. */
  function Occurrences(names: seq<string>, k: nat, n: string): nat
    requires k <= |names|
  {
    if k == 0 then 0 else Occurrences(names, k - 1, n) + (if names[k - 1] == n then 1 else 0)
  }

  /** The names among the first `k` of `names` that are neither in `initial` nor
      earlier in the list: the tools a run of `get_tool` calls builds, in the
      order it builds them. */
  function FirstUses(names: seq<string>, k: nat, initial: set<string>): seq<string>
    requires k <= |names|
  {
    if k == 0 then []
    else FirstUses(names, k - 1, initial) + (if names[k - 1] in initial + NamesBefore(names, k - 1) then [] else [names[k - 1]])
  }

  /** Within one run of lookups no name is built twice: the built names are
      distinct, and they are exactly the requested names that were not
      instantiated before. */
  lemma {:induction false} FirstUsesBuildOnce(names: seq<string>, k: nat, initial: set<string>)
    requires k <= |names|
    ensures forall n :: n in FirstUses(names, k, initial) <==> n in NamesBefore(names, k) && n !in initial
    ensures forall i, j :: 0 <= i < j < |FirstUses(names, k, initial)| ==>
      FirstUses(names, k, initial)[i] != FirstUses(names, k, initial)[j]
  {
    if k > 0 {
      FirstUsesBuildOnce(names, k - 1, initial);
    }
  }

  /** The access count recorded for `name`, 0 when there is none. */
  function CountOf(counts: map<string, int>, name: string): int
  {
    if name in counts then counts[name] else 0
  }

  /** The names `cleanup_unused_tools` selects: those counted fewer than `threshold` times. */
  function Underused(counts: map<string, int>, threshold: int): set<string>
  {
    set n | n in counts && counts[n] < threshold
  }

  /** The loader's invariant: instances exist only for registered names, were built
      from the registered class, and have an access count of at least 1 and a load
      time; counters and load times exist for no other name. */
  ghost predicate Consistent(registry: map<string, string>, modelProvider: string,
    instantiated: map<string, Tool>, accessCount: map<string, int>, loadTimes: map<string, int>)
  {
    && instantiated.Keys <= registry.Keys
    && accessCount.Keys == instantiated.Keys
    && loadTimes.Keys == instantiated.Keys
    && (forall n :: n in accessCount ==> accessCount[n] >= 1)
    && (forall n :: n in instantiated ==>
          instantiated[n].toolClass == registry[n] && instantiated[n].modelProvider == modelProvider)
  }

  lemma RemoveOneMore<V>(m: map<string, V>, done: set<string>, n: string)
    ensures (m - done) - {n} == m - (done + {n})
  {
  }

  /** Building and counting a registered, not yet instantiated tool keeps the loader consistent. */
  lemma ConsistentAfterLoad(registry: map<string, string>, modelProvider: string,
    instantiated: map<string, Tool>, accessCount: map<string, int>, loadTimes: map<string, int>,
    name: string, tool: Tool, loadTime: int)
    requires Consistent(registry, modelProvider, instantiated, accessCount, loadTimes)
    requires name in registry && tool.toolClass == registry[name] && tool.modelProvider == modelProvider
    ensures Consistent(registry, modelProvider, instantiated[name := tool], accessCount[name := 1], loadTimes[name := loadTime])
  {
  }

  /** Counting one more access to an instantiated tool keeps the loader consistent. */
  lemma ConsistentAfterAccess(registry: map<string, string>, modelProvider: string,
    instantiated: map<string, Tool>, accessCount: map<string, int>, loadTimes: map<string, int>, name: string)
    requires Consistent(registry, modelProvider, instantiated, accessCount, loadTimes)
    requires name in instantiated
    ensures Consistent(registry, modelProvider, instantiated, accessCount[name := accessCount[name] + 1], loadTimes)
  {
  }

  /** One more resolved name extends the instantiated keys by that name. */
  lemma PreloadKeysStep(names: seq<string>, i: nat, initial: set<string>, before: set<string>, after: set<string>)
    requires i < |names|
    requires before == initial + NamesBefore(names, i) && after == before + {names[i]}
    ensures after == initial + NamesBefore(names, i + 1)
  {
  }

  /** One more resolved name extends the build log by that name exactly when it
      was not instantiated before. */
  lemma PreloadBuiltStep(names: seq<string>, i: nat, initial: set<string>, log: seq<string>,
    before: seq<string>, after: seq<string>, keysBefore: set<string>)
    requires i < |names|
    requires keysBefore == initial + NamesBefore(names, i)
    requires before == log + FirstUses(names, i, initial)
    requires after == before + (if names[i] in keysBefore then [] else [names[i]])
    ensures after == log + FirstUses(names, i + 1, initial)
  {
  }

  /** One more resolved name adds one access to that name only. */
  lemma PreloadCountStep(names: seq<string>, i: nat, initial: map<string, int>, before: map<string, int>, after: map<string, int>)
    requires i < |names|
    requires forall n :: CountOf(before, n) == CountOf(initial, n) + Occurrences(names, i, n)
    requires forall n :: CountOf(after, n) == CountOf(before, n) + (if n == names[i] then 1 else 0)
    ensures forall n :: CountOf(after, n) == CountOf(initial, n) + Occurrences(names, i + 1, n)
  {
  }

  /** Removing the same names from all three maps keeps the loader consistent. */
  lemma ConsistentAfterRemoval(registry: map<string, string>, modelProvider: string,
    instantiated: map<string, Tool>, accessCount: map<string, int>, loadTimes: map<string, int>, gone: set<string>)
    requires Consistent(registry, modelProvider, instantiated, accessCount, loadTimes)
    ensures Consistent(registry, modelProvider, instantiated - gone, accessCount - gone, loadTimes - gone)
  {
  }

  class LazyToolLoader {
    /** Tool name to tool class. */
    const registry: map<string, string>
    const modelProvider: string
    /** How long constructing each tool takes (the `perf_counter` difference). */
    const loadDuration: string -> int
    /** The names whose registered class raises when constructed; the exception
        reaches the caller and nothing is stored. */
    const unbuildable: set<string>
    var instantiated: map<string, Tool>
    var loadTimes: map<string, int>
    var accessCount: map<string, int>
    /** The names whose instances were built, in the order they were built. */
    ghost var constructed: seq<string>

    /** The loader is consistent, and no name whose class raises was ever built. */
    ghost predicate Valid()
      reads this
    {
      Consistent(registry, modelProvider, instantiated, accessCount, loadTimes) && instantiated.Keys !! unbuildable
    }

    constructor (registry: map<string, string>, modelProvider: string, loadDuration: string -> int,
      unbuildable: set<string>)
      ensures Valid()
      ensures this.registry == registry && this.modelProvider == modelProvider
      ensures this.loadDuration == loadDuration && this.unbuildable == unbuildable
      ensures instantiated == map[] && loadTimes == map[] && accessCount == map[] && constructed == []
    {
      this.registry := registry;
      this.modelProvider := modelProvider;
      this.loadDuration := loadDuration;
      this.unbuildable := unbuildable;
      instantiated := map[];
      loadTimes := map[];
      accessCount := map[];
      constructed := [];
    }

    /** The loading branch of `get_tool`: builds the registered class with the
        loader's provider and records its load time. The counter the source
        starts at 0 is still absent here, which `CountOf` reads as 0; `GetTool`
        then stores it as 1. */
    method LoadTool(name: string) returns (tool: Tool)
      requires Valid() && name !in instantiated && name in registry && name !in unbuildable
      modifies this
      ensures fresh(tool) && tool.toolClass == registry[name] && tool.modelProvider == modelProvider
      ensures instantiated == old(instantiated)[name := tool]
      ensures accessCount == old(accessCount) && CountOf(accessCount, name) == 0
      ensures loadTimes == old(loadTimes)[name := loadDuration(name)]
      ensures constructed == old(constructed) + [name]
      ensures Consistent(registry, modelProvider, instantiated, accessCount[name := 1], loadTimes)
    {
      tool := new Tool(registry[name], modelProvider);
      ConsistentAfterLoad(registry, modelProvider, instantiated, accessCount, loadTimes, name, tool, loadDuration(name));
      instantiated := instantiated[name := tool];
      constructed := constructed + [name];
      loadTimes := loadTimes[name := loadDuration(name)];
    }

    /** `get_tool`: an instantiated name returns the same instance and one more
        access; an unknown one raises and changes nothing; a registered one is
        built, with access count 1, unless its constructor raises, which also
        changes nothing. */
    method GetTool(name: string) returns (r: Lookup)
      requires Valid()
      modifies this
      ensures Valid()
      ensures r.Found? <==> name in Buildable(registry, unbuildable)
      ensures r.NotFound? <==> name !in old(instantiated) && name !in registry
      ensures r.BuildFailed? <==> name !in old(instantiated) && name in registry && name in unbuildable
      ensures r.NotFound? ==> r == NotFound(name, registry.Keys) && unchanged(this)
      ensures r.BuildFailed? ==> r == BuildFailed(name) && unchanged(this)
      ensures r.Found? ==>
        && instantiated == old(instantiated)[name := r.tool]
        && accessCount == old(accessCount)[name := CountOf(old(accessCount), name) + 1]
      ensures name in old(instantiated) ==>
        r == Found(old(instantiated)[name]) && loadTimes == old(loadTimes) && constructed == old(constructed)
      ensures name !in old(instantiated) && name in registry && name !in unbuildable ==>
        && fresh(r.tool) && r.tool.toolClass == registry[name] && r.tool.modelProvider == modelProvider
        && loadTimes == old(loadTimes)[name := loadDuration(name)]
        && constructed == old(constructed) + [name]
    {
      if name !in instantiated {
        if name !in registry {
          return NotFound(name, registry.Keys);
        }
        if name in unbuildable {
          return BuildFailed(name);
        }
        var _ := LoadTool(name);
      }
      accessCount := accessCount[name := CountOf(accessCount, name) + 1];
      r := Found(instantiated[name]);
    }

    /** One step of `preload_tools`: `get_tool` on a single name, seen through
        the changes that matter to the loop. */
    method ResolveCounted(name: string) returns (ok: bool)
      requires Valid()
      modifies this
      ensures Valid()
      ensures ok <==> name in Buildable(registry, unbuildable)
      ensures !ok ==> unchanged(this)
      ensures ok ==>
        && instantiated.Keys == old(instantiated).Keys + {name}
        && (forall n :: n in old(instantiated) ==> instantiated[n] == old(instantiated)[n])
        && (forall n :: CountOf(accessCount, n) == CountOf(old(accessCount), n) + (if n == name then 1 else 0))
        && constructed == old(constructed) + (if name in old(instantiated) then [] else [name])
        && loadTimes == (if name in old(instantiated) then old(loadTimes) else old(loadTimes)[name := loadDuration(name)])
        && (name !in old(instantiated) ==> fresh(instantiated[name]))
    {
      var r := GetTool(name);
      ok := r.Found?;
    }

    method ResolvePrefix(names: seq<string>) returns (k: nat)
      requires Valid()
      modifies this
      ensures Valid()
      ensures k == KnownPrefix(names, Buildable(registry, unbuildable))
      ensures instantiated.Keys == old(instantiated).Keys + NamesBefore(names, k)
      ensures forall n :: n in old(instantiated) ==> instantiated[n] == old(instantiated)[n]
      ensures forall n :: CountOf(accessCount, n) == CountOf(old(accessCount), n) + Occurrences(names, k, n)
      ensures constructed == old(constructed) + FirstUses(names, k, old(instantiated).Keys)
      ensures forall n :: n in instantiated ==>
        loadTimes[n] == if n in old(instantiated) then old(loadTimes)[n] else loadDuration(n)
      ensures forall n :: n in instantiated && n !in old(instantiated) ==> fresh(instantiated[n])
    {
      k := 0;
      while k < |names|
        invariant 0 <= k <= KnownPrefix(names, Buildable(registry, unbuildable))
        invariant Valid()
        invariant instantiated.Keys == old(instantiated).Keys + NamesBefore(names, k)
        invariant forall n :: n in old(instantiated) ==> instantiated[n] == old(instantiated)[n]
        invariant forall n :: CountOf(accessCount, n) == CountOf(old(accessCount), n) + Occurrences(names, k, n)
        invariant constructed == old(constructed) + FirstUses(names, k, old(instantiated).Keys)
        invariant forall n :: n in instantiated ==>
          loadTimes[n] == if n in old(instantiated) then old(loadTimes)[n] else loadDuration(n)
        invariant forall n :: n in instantiated && n !in old(instantiated) ==> fresh(instantiated[n])
      {
        ghost var keysBefore, countsBefore, builtBefore := instantiated.Keys, accessCount, constructed;
        var ok := ResolveCounted(names[k]);
        if !ok {
          return;
        }
        PreloadKeysStep(names, k, old(instantiated).Keys, keysBefore, instantiated.Keys);
        PreloadCountStep(names, k, old(accessCount), countsBefore, accessCount);
        PreloadBuiltStep(names, k, old(instantiated).Keys, old(constructed), builtBefore, constructed, keysBefore);
        k := k + 1;
      }
    }

    /** `preload_tools`: resolves the names in order and stops at the first one
        that raises (unknown, or whose constructor fails), passing its exception
        on; every name resolved before it is instantiated and counted once per
        occurrence, and only the names not instantiated before are built, once
        each, in order of first request. */
    method PreloadTools(names: seq<string>) returns (failed: Option<Lookup>)
      requires Valid()
      modifies this
      ensures Valid()
      ensures var k := KnownPrefix(names, Buildable(registry, unbuildable));
        && failed == (if k == |names| then None
                      else if names[k] in registry then Some(BuildFailed(names[k]))
                      else Some(NotFound(names[k], registry.Keys)))
        && instantiated.Keys == old(instantiated).Keys + NamesBefore(names, k)
        && (forall n :: n in old(instantiated) ==> instantiated[n] == old(instantiated)[n])
        && (forall n :: CountOf(accessCount, n) == CountOf(old(accessCount), n) + Occurrences(names, k, n))
        && constructed == old(constructed) + FirstUses(names, k, old(instantiated).Keys)
        && (forall n :: n in instantiated ==>
              loadTimes[n] == if n in old(instantiated) then old(loadTimes)[n] else loadDuration(n))
        && (forall n :: n in instantiated && n !in old(instantiated) ==> fresh(instantiated[n]))
    {
      var k := ResolvePrefix(names);
      failed := if k == |names| then None
                else if names[k] in registry then Some(BuildFailed(names[k]))
                else Some(NotFound(names[k], registry.Keys));
    }

    /** One step of `cleanup_unused_tools`: forget an instantiated tool, its counter
        and its load time. */
    method DropTool(n: string)
      modifies this
      ensures n in old(instantiated) ==>
        && instantiated == old(instantiated) - {n}
        && accessCount == old(accessCount) - {n}
        && loadTimes == old(loadTimes) - {n}
      ensures n !in old(instantiated) ==>
        instantiated == old(instantiated) && accessCount == old(accessCount) && loadTimes == old(loadTimes)
      ensures constructed == old(constructed)
    {
      if n in instantiated {
        instantiated := instantiated - {n};
        accessCount := accessCount - {n};
        if n in loadTimes {
          loadTimes := loadTimes - {n};
        }
      }
    }

    /** The loop of `cleanup_unused_tools`: `DropTool` on each selected name. */
    method DropAll(gone: set<string>)
      requires accessCount.Keys == instantiated.Keys && loadTimes.Keys == instantiated.Keys
      modifies this
      ensures instantiated == old(instantiated) - gone
      ensures accessCount == old(accessCount) - gone
      ensures loadTimes == old(loadTimes) - gone
      ensures constructed == old(constructed)
    {
      var pending, done := gone, {};
      while pending != {}
        invariant pending + done == gone && pending !! done
        invariant instantiated == old(instantiated) - done
        invariant accessCount == old(accessCount) - done
        invariant loadTimes == old(loadTimes) - done
        invariant constructed == old(constructed)
        decreases pending
      {
        var n :| n in pending;
        RemoveOneMore(old(instantiated), done, n);
        RemoveOneMore(old(accessCount), done, n);
        RemoveOneMore(old(loadTimes), done, n);
        DropTool(n);
        pending, done := pending - {n}, done + {n};
      }
      assert done == gone;
    }

    /** `cleanup_unused_tools`: drops every instance counted fewer than
        `minAccessCount` times, with its counter and load time, and returns how
        many names were selected. */
    method CleanupUnusedTools(minAccessCount: int) returns (removed: nat)
      requires Valid()
      modifies this
      ensures Valid()
      ensures var selected := Underused(old(accessCount), minAccessCount);
        && removed == |selected|
        && instantiated == old(instantiated) - selected
        && accessCount == old(accessCount) - selected
        && loadTimes == old(loadTimes) - selected
        && constructed == old(constructed)
    {
      var toolsToRemove := Underused(accessCount, minAccessCount);
      DropAll(toolsToRemove);
      ConsistentAfterRemoval(registry, modelProvider, old(instantiated), old(accessCount), old(loadTimes), toolsToRemove);
      removed := |toolsToRemove|;
    }
  }

  /** A stand-in for a tool that resolves it through the loader on first real use. */
  class LazyToolProxy {
    const toolName: string
    const loader: LazyToolLoader
    var tool: Tool?

    constructor (toolName: string, loader: LazyToolLoader)
      ensures this.toolName == toolName && this.loader == loader && tool == null
    {
      this.toolName := toolName;
      this.loader := loader;
      tool := null;
    }

    /** `name`: the tool's name; it changes nothing, so it never loads the tool. */
    method Name() returns (n: string)
      ensures n == toolName
    {
      n := toolName;
    }

    /** `_ensure_loaded`: the first call asks the loader; once that has succeeded the
        cached instance is returned and the loader is not consulted again. When
        the loader raises, the proxy stays unloaded and will ask again. */
    method EnsureLoaded() returns (r: Lookup)
      requires loader.Valid()
      modifies this, loader
      ensures loader.Valid()
      ensures old(tool) != null ==> r == Found(old(tool)) && tool == old(tool) && unchanged(loader)
      ensures old(tool) == null && r.NotFound? ==>
        && r == NotFound(toolName, loader.registry.Keys)
        && toolName !in old(loader.instantiated) && toolName !in loader.registry
        && tool == null && unchanged(loader)
      ensures old(tool) == null && r.BuildFailed? ==>
        && r == BuildFailed(toolName)
        && toolName !in old(loader.instantiated) && toolName in loader.registry && toolName in loader.unbuildable
        && tool == null && unchanged(loader)
      ensures old(tool) == null ==> (r.Found? <==> toolName in Buildable(loader.registry, loader.unbuildable))
      ensures old(tool) == null && r.Found? ==>
        && tool == r.tool
        && loader.instantiated == old(loader.instantiated)[toolName := r.tool]
        && loader.accessCount == old(loader.accessCount)[toolName := CountOf(old(loader.accessCount), toolName) + 1]
        && (toolName in old(loader.instantiated) ==>
              && r.tool == old(loader.instantiated)[toolName]
              && loader.loadTimes == old(loader.loadTimes) && loader.constructed == old(loader.constructed))
        && (toolName !in old(loader.instantiated) ==>
              && toolName !in loader.unbuildable
              && fresh(r.tool) && r.tool.toolClass == loader.registry[toolName]
              && r.tool.modelProvider == loader.modelProvider
              && loader.loadTimes == old(loader.loadTimes)[toolName := loader.loadDuration(toolName)]
              && loader.constructed == old(loader.constructed) + [toolName])
    {
      if tool == null {
        r := loader.GetTool(toolName);
        if r.Found? {
          tool := r.tool;
        }
      } else {
        r := Found(tool);
      }
    }
  }

  /** A tool manager: one loader plus one proxy per requested name. */
  class OptimizedToolManager {
    const loader: LazyToolLoader
    var proxies: map<string, LazyToolProxy>

    ghost predicate Valid()
      reads this, loader
    {
      && loader.Valid()
      && forall n :: n in proxies ==> proxies[n].toolName == n && proxies[n].loader == loader
    }

    constructor (registry: map<string, string>, modelProvider: string, loadDuration: string -> int,
      unbuildable: set<string>)
      ensures Valid() && fresh(loader)
      ensures loader.registry == registry && loader.modelProvider == modelProvider
      ensures loader.loadDuration == loadDuration && loader.unbuildable == unbuildable
      ensures loader.instantiated == map[] && loader.accessCount == map[] && loader.loadTimes == map[]
      ensures loader.constructed == [] && proxies == map[]
    {
      loader := new LazyToolLoader(registry, modelProvider, loadDuration, unbuildable);
      proxies := map[];
    }

    /** `get_tools_list`: one proxy per requested name, in order, reusing the proxy
        already made for a name and making (unloaded) proxies for the others;
        nothing is loaded. */
    method GetToolsList(names: seq<string>) returns (tools: seq<LazyToolProxy>)
      requires Valid()
      modifies this
      ensures Valid()
      ensures |tools| == |names|
      ensures forall i :: 0 <= i < |names| ==> names[i] in proxies && tools[i] == proxies[names[i]]
      ensures proxies.Keys == old(proxies).Keys + (set n | n in names)
      ensures forall n :: n in old(proxies) ==> proxies[n] == old(proxies)[n]
      ensures forall n :: n in proxies && n !in old(proxies) ==> fresh(proxies[n]) && proxies[n].tool == null
    {
      tools := [];
      var i := 0;
      while i < |names|
        invariant 0 <= i <= |names| && |tools| == i
        invariant Valid()
        invariant forall j :: 0 <= j < i ==> names[j] in proxies && tools[j] == proxies[names[j]]
        invariant proxies.Keys == old(proxies).Keys + (set n | n in names[..i])
        invariant forall n :: n in old(proxies) ==> proxies[n] == old(proxies)[n]
        invariant forall n :: n in proxies && n !in old(proxies) ==> fresh(proxies[n]) && proxies[n].tool == null
      {
        var name := names[i];
        if name !in proxies {
          var proxy := new LazyToolProxy(name, loader);
          proxies := proxies[name := proxy];
        }
        tools := tools + [proxies[name]];
        assert names[..i + 1] == names[..i] + [name];
        i := i + 1;
      }
      assert names[..i] == names;
    }

    /** `get_tool_by_name`: the loader's `get_tool`, bypassing the proxies. */
    method GetToolByName(name: string) returns (r: Lookup)
      requires Valid()
      modifies loader
      ensures Valid() && proxies == old(proxies)
      ensures r.Found? <==> name in Buildable(loader.registry, loader.unbuildable)
      ensures r.NotFound? <==> name !in old(loader.instantiated) && name !in loader.registry
      ensures r.BuildFailed? <==> name !in old(loader.instantiated) && name in loader.registry && name in loader.unbuildable
      ensures r.BuildFailed? ==> r == BuildFailed(name) && unchanged(loader)
      ensures r.Found? ==>
        && loader.instantiated == old(loader.instantiated)[name := r.tool]
        && loader.accessCount == old(loader.accessCount)[name := CountOf(old(loader.accessCount), name) + 1]
      ensures r.NotFound? ==> r == NotFound(name, loader.registry.Keys) && unchanged(loader)
      ensures name in old(loader.instantiated) ==>
        && r == Found(old(loader.instantiated)[name])
        && loader.loadTimes == old(loader.loadTimes) && loader.constructed == old(loader.constructed)
      ensures name !in old(loader.instantiated) && name in loader.registry && name !in loader.unbuildable ==>
        && fresh(r.tool) && r.tool.toolClass == loader.registry[name] && r.tool.modelProvider == loader.modelProvider
        && loader.loadTimes == old(loader.loadTimes)[name := loader.loadDuration(name)]
        && loader.constructed == old(loader.constructed) + [name]
    {
      r := loader.GetTool(name);
    }

    /** The proxy loop of `optimize_memory`: deletes each given proxy. */
    method DropProxies(gone: set<string>)
      modifies this
      ensures proxies == old(proxies) - gone
    {
      var pending, done := gone, {};
      while pending != {}
        invariant pending + done == gone && pending !! done
        invariant proxies == old(proxies) - done
        decreases pending
      {
        var n :| n in pending;
        RemoveOneMore(old(proxies), done, n);
        proxies := proxies - {n};
        pending, done := pending - {n}, done + {n};
      }
      assert done == gone;
    }

    /** `optimize_memory`: evicts the tools used fewer than twice, then drops every
        proxy whose name is no longer instantiated. */
    method OptimizeMemory() returns (unusedToolsRemoved: nat, unusedProxiesRemoved: nat)
      requires Valid()
      modifies this, loader
      ensures Valid()
      ensures var selected := Underused(old(loader.accessCount), 2);
        && unusedToolsRemoved == |selected|
        && loader.instantiated == old(loader.instantiated) - selected
        && loader.accessCount == old(loader.accessCount) - selected
        && loader.loadTimes == old(loader.loadTimes) - selected
        && loader.constructed == old(loader.constructed)
      ensures proxies == old(proxies) - (old(proxies).Keys - loader.instantiated.Keys)
      ensures unusedProxiesRemoved == |old(proxies).Keys - loader.instantiated.Keys|
    {
      unusedToolsRemoved := loader.CleanupUnusedTools(2);
      var usedProxies := loader.instantiated.Keys;
      var unusedProxies := proxies.Keys - usedProxies;
      DropProxies(unusedProxies);
      unusedProxiesRemoved := |unusedProxies|;
    }
  }
}

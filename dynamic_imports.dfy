/**
  Dynamic loading of LLM client classes with optional dependencies: a fixed
  table of seven providers, each naming the package it needs, the module and
  class of its client and the command that installs it; a loader that probes
  package availability once per provider and loads each client class once.

  `importlib` is two oracles: `packageImportable` says whether importing a
  package succeeds, and `importModule` what importing a client module yields.
*/
module DynamicImports {
  import opened Common

  /** One row of the provider table. */
  datatype ProviderInfo = ProviderInfo(package: string, moduleName: string, className: string, installCommand: string)

  /** A table row: a provider name and its requirements. */
  datatype Row = Row(provider: string, info: ProviderInfo)

  /** `PROVIDER_DEPENDENCIES`, in its order. */
  const Table: seq<Row> := [
    Row("openai", ProviderInfo("openai", "trae_agent.utils.openai_client", "OpenAIClient", "pip install trae-agent[openai]")),
    Row("anthropic", ProviderInfo("anthropic", "trae_agent.utils.anthropic_client", "AnthropicClient", "pip install trae-agent[anthropic]")),
    Row("google", ProviderInfo("google.genai", "trae_agent.utils.google_client", "GoogleClient", "pip install trae-agent[google]")),
    Row("ollama", ProviderInfo("ollama", "trae_agent.utils.ollama_client", "OllamaClient", "pip install trae-agent[ollama]")),
    Row("azure", ProviderInfo("openai", "trae_agent.utils.azure_client", "AzureClient", "pip install trae-agent[openai]")),
    Row("openrouter", ProviderInfo("openai", "trae_agent.utils.openrouter_client", "OpenRouterClient", "pip install trae-agent[openai]")),
    Row("doubao", ProviderInfo("openai", "trae_agent.utils.doubao_client", "DoubaoClient", "pip install trae-agent[openai]"))
  ]

  /** The requirements listed for `provider`, None when it has no row. */
  function Find(rows: seq<Row>, provider: string): Option<ProviderInfo>
  {
    if rows == [] then None
    else if rows[0].provider == provider then Some(rows[0].info)
    else Find(rows[1..], provider)
  }

  function Names(rows: seq<Row>): (r: seq<string>)
    ensures |r| == |rows| && forall i :: 0 <= i < |rows| ==> r[i] == rows[i].provider
  {
    seq(|rows|, i requires 0 <= i < |rows| => rows[i].provider)
  }

  /** The table lookup: the requirements of a provider, None for any other name. */
  function InfoOf(provider: string): Option<ProviderInfo>
  {
    Find(Table, provider)
  }

  /** The providers in table order. */
  const ProviderOrder: seq<string> := Names(Table)

  /** A name has a row exactly when it is one of the rows' names. */
  lemma {:induction false} FindIffNamed(rows: seq<Row>, provider: string)
    ensures Find(rows, provider).Some? <==> provider in Names(rows)
    decreases |rows|
  {
    if rows != [] {
      FindIffNamed(rows[1..], provider);
      assert Names(rows) == [rows[0].provider] + Names(rows[1..]);
    }
  }

  /** The table order lists seven distinct providers, exactly those with a row. */
  lemma TableShape()
    ensures |ProviderOrder| == 7
    ensures ProviderOrder == ["openai", "anthropic", "google", "ollama", "azure", "openrouter", "doubao"]
    ensures forall i, j :: 0 <= i < j < |ProviderOrder| ==> ProviderOrder[i] != ProviderOrder[j]
    ensures forall p :: InfoOf(p).Some? <==> p in ProviderOrder
  {
    forall p ensures InfoOf(p).Some? <==> p in ProviderOrder {
      FindIffNamed(Table, p);
    }
    assert ProviderOrder == ["openai", "anthropic", "google", "ollama", "azure", "openrouter", "doubao"];
  }

  /** The three OpenAI-compatible providers need the `openai` package and install its extra. */
  lemma OpenAICompatibleShareOpenAIPackage(p: string)
    requires p in ["azure", "openrouter", "doubao"]
    ensures InfoOf(p).Some?
    ensures InfoOf(p).value.package == "openai" && InfoOf(p).value.installCommand == "pip install trae-agent[openai]"
  {
    assert Table[4].provider == "azure" && Table[5].provider == "openrouter" && Table[6].provider == "doubao";
  }

  /** The list `Unknown provider` messages show, as Python prints it. */
  const ProviderListText: string :=
    "['openai', 'anthropic', 'google', 'ollama', 'azure', 'openrouter', 'doubao']"

  /** What importing a client module yields: an `ImportError`, any other
      exception (with its text), or the names the module defines. */
  datatype ModuleImport = ImportFails | ImportRaises(text: string) | Imported(names: set<string>)

  /** A loaded client class, identified by its module and name. */
  datatype ClientClass = ClientClass(moduleName: string, name: string)

  /** `is_provider_available` in terms of the oracle: known and its package imports. */
  predicate Available(importable: string -> bool, provider: string)
  {
    InfoOf(provider).Some? && importable(InfoOf(provider).value.package)
  }

  /** The install command of a table provider ("" for any other name). */
  function InstallCommand(provider: string): string
  {
    if InfoOf(provider).Some? then InfoOf(provider).value.installCommand else ""
  }

  /** The names among the first `k` of `order` that pass `isAvail`, in order. */
  function AvailableFirst(order: seq<string>, isAvail: string -> bool, k: nat): seq<string>
    requires k <= |order|
  {
    if k == 0 then []
    else AvailableFirst(order, isAvail, k - 1) + (if isAvail(order[k - 1]) then [order[k - 1]] else [])
  }

  /** The names among the first `k` of `order` that fail `isAvail`, each with its
      command, in order. */
  function MissingFirst(order: seq<string>, isAvail: string -> bool, command: string -> string, k: nat): seq<(string, string)>
    requires k <= |order|
  {
    if k == 0 then []
    else
      MissingFirst(order, isAvail, command, k - 1)
        + (if isAvail(order[k - 1]) then [] else [(order[k - 1], command(order[k - 1]))])
  }

  function Keys(entries: seq<(string, string)>): (r: seq<string>)
    ensures |r| == |entries| && forall i :: 0 <= i < |r| ==> r[i] == entries[i].0
  {
    seq(|entries|, i requires 0 <= i < |entries| => entries[i].0)
  }

  /** Every one of the first `k` names lands in exactly one of the two lists, so
      their lengths add up to `k`. */
  lemma {:induction false} PartitionSizes(order: seq<string>, isAvail: string -> bool, command: string -> string, k: nat)
    requires k <= |order|
    ensures |AvailableFirst(order, isAvail, k)| + |MissingFirst(order, isAvail, command, k)| == k
  {
    if k > 0 {
      PartitionSizes(order, isAvail, command, k - 1);
    }
  }

  /** The available list holds exactly the first `k` names that pass. */
  lemma {:induction false} AvailableMembers(order: seq<string>, isAvail: string -> bool, k: nat)
    requires k <= |order|
    ensures forall p :: p in AvailableFirst(order, isAvail, k) <==> p in order[..k] && isAvail(p)
  {
    if k > 0 {
      AvailableMembers(order, isAvail, k - 1);
      assert order[..k] == order[..k - 1] + [order[k - 1]];
    }
  }

  /** The missing list holds exactly the first `k` names that fail, each with its command. */
  lemma {:induction false} MissingMembers(order: seq<string>, isAvail: string -> bool, command: string -> string, k: nat)
    requires k <= |order|
    ensures forall p :: p in Keys(MissingFirst(order, isAvail, command, k)) <==> p in order[..k] && !isAvail(p)
    ensures forall e :: e in MissingFirst(order, isAvail, command, k) ==> e.1 == command(e.0)
  {
    if k > 0 {
      MissingMembers(order, isAvail, command, k - 1);
      var p := order[k - 1];
      assert order[..k] == order[..k - 1] + [p];
      var m := MissingFirst(order, isAvail, command, k - 1);
      var extra: seq<(string, string)> := if isAvail(p) then [] else [(p, command(p))];
      assert MissingFirst(order, isAvail, command, k) == m + extra;
      assert Keys(m + extra) == Keys(m) + Keys(extra);
      assert Keys(extra) == if isAvail(p) then [] else [p];
    }
  }

  /** `get_available_providers` in terms of the oracle. */
  function AvailableProviders(importable: string -> bool): seq<string>
  {
    AvailableFirst(ProviderOrder, p => Available(importable, p), |ProviderOrder|)
  }

  /** `get_missing_providers` in terms of the oracle. */
  function MissingProviders(importable: string -> bool): seq<(string, string)>
  {
    MissingFirst(ProviderOrder, p => Available(importable, p), InstallCommand, |ProviderOrder|)
  }

  /** The whole table: available + missing = 7, and they partition it; each missing
      provider carries its own install command. */
  lemma ProvidersPartition(importable: string -> bool)
    ensures |AvailableProviders(importable)| + |MissingProviders(importable)| == 7
    ensures forall p :: p in AvailableProviders(importable) <==> p in ProviderOrder && Available(importable, p)
    ensures forall p :: p in Keys(MissingProviders(importable)) <==> p in ProviderOrder && !Available(importable, p)
    ensures forall e :: e in MissingProviders(importable) ==> e.1 == InstallCommand(e.0)
  {
    var isAvail := p => Available(importable, p);
    PartitionSizes(ProviderOrder, isAvail, InstallCommand, |ProviderOrder|);
    AvailableMembers(ProviderOrder, isAvail, |ProviderOrder|);
    MissingMembers(ProviderOrder, isAvail, InstallCommand, |ProviderOrder|);
    assert ProviderOrder[..|ProviderOrder|] == ProviderOrder;
  }

  /** The `dependency_details` rows, in table order. */
  function DetailRows(importable: string -> bool): (d: seq<Detail>)
    ensures |d| == |ProviderOrder|
    ensures forall i :: 0 <= i < |d| ==>
      d[i].provider == ProviderOrder[i] && d[i].available == Available(importable, ProviderOrder[i])
  {
    seq(|ProviderOrder|, i requires 0 <= i < |ProviderOrder| =>
      var p := ProviderOrder[i];
      var info := InfoOf(p);
      Detail(p, Available(importable, p), if info.Some? then info.value.package else "", InstallCommand(p)))
  }

  /** The availability cache after one `is_provider_available(provider)`: a table
      provider not yet recorded gets the oracle's answer; anything else leaves it. */
  function Record(cache: map<string, bool>, importable: string -> bool, provider: string): map<string, bool>
  {
    if InfoOf(provider).Some? && provider !in cache then cache[provider := importable(InfoOf(provider).value.package)]
    else cache
  }

  /** The package that call probes: none when the answer is recorded or the name is unknown. */
  function ProbeOf(cache: map<string, bool>, provider: string): seq<string>
  {
    if InfoOf(provider).Some? && provider !in cache then [InfoOf(provider).value.package] else []
  }

  /** The availability cache after asking for the first `k` names of `order`, in order. */
  function RecordFirst(cache: map<string, bool>, importable: string -> bool, order: seq<string>, k: nat): map<string, bool>
    requires k <= |order|
  {
    if k == 0 then cache else Record(RecordFirst(cache, importable, order, k - 1), importable, order[k - 1])
  }

  /** The packages probed while asking for the first `k` names of `order`, in order. */
  function ProbesFirst(cache: map<string, bool>, importable: string -> bool, order: seq<string>, k: nat): seq<string>
    requires k <= |order|
  {
    if k == 0 then []
    else ProbesFirst(cache, importable, order, k - 1) + ProbeOf(RecordFirst(cache, importable, order, k - 1), order[k - 1])
  }

  /** One more name: the cache and the probe log grow by that name's step. */
  lemma RecordStep(cache: map<string, bool>, importable: string -> bool, order: seq<string>, k: nat, log: seq<string>)
    requires k < |order|
    ensures RecordFirst(cache, importable, order, k + 1) == Record(RecordFirst(cache, importable, order, k), importable, order[k])
    ensures log + ProbesFirst(cache, importable, order, k + 1)
      == (log + ProbesFirst(cache, importable, order, k)) + ProbeOf(RecordFirst(cache, importable, order, k), order[k])
  {}

  /** After asking for the first `k` names, exactly the table providers among them
      have been added to the cache, each with the oracle's answer. */
  lemma {:induction false} RecordFirstContents(cache: map<string, bool>, importable: string -> bool, order: seq<string>, k: nat)
    requires k <= |order|
    ensures forall p :: p in RecordFirst(cache, importable, order, k) <==> p in cache || (p in order[..k] && InfoOf(p).Some?)
    ensures forall p :: p in RecordFirst(cache, importable, order, k) && p !in cache ==>
      RecordFirst(cache, importable, order, k)[p] == importable(InfoOf(p).value.package)
    ensures forall p :: p in cache ==> RecordFirst(cache, importable, order, k)[p] == cache[p]
  {
    if k > 0 {
      RecordFirstContents(cache, importable, order, k - 1);
      assert order[..k] == order[..k - 1] + [order[k - 1]];
    }
  }

  /** A pass over the whole table records every provider's availability, so the
      cache then holds exactly the table's providers. */
  lemma TablePassRecordsAll(cache: map<string, bool>, importable: string -> bool)
    requires forall p :: p in cache ==> InfoOf(p).Some?
    ensures forall p :: p in RecordFirst(cache, importable, ProviderOrder, |ProviderOrder|) <==> p in ProviderOrder
  {
    TableShape();
    RecordFirstContents(cache, importable, ProviderOrder, |ProviderOrder|);
    assert ProviderOrder[..|ProviderOrder|] == ProviderOrder;
  }

  /** Asking again for names already recorded probes nothing and changes nothing. */
  lemma {:induction false} RecordedProbesNothing(cache: map<string, bool>, importable: string -> bool, order: seq<string>, k: nat)
    requires k <= |order|
    requires forall i :: 0 <= i < k ==> order[i] in cache
    ensures RecordFirst(cache, importable, order, k) == cache
    ensures ProbesFirst(cache, importable, order, k) == []
  {
    if k > 0 {
      RecordedProbesNothing(cache, importable, order, k - 1);
    }
  }

  /** The outcome of `load_client_class`: the class, or the exception it raises;
      `Raised` is an exception other than `ImportError` from importing the client
      module, which is passed on unchanged. */
  datatype LoadResult =
    | Loaded(cls: ClientClass)
    | UnknownProvider(provider: string)
    | MissingDependency(provider: string, package: string, installCommand: string)
    | ClassNotFound(className: string, moduleName: string)
    | Raised(text: string)

  /** The text of the exception, as `str(e)` gives it. */
  function ErrorText(r: LoadResult): (t: string)
    ensures t == "" <==> r.Loaded? || (r.Raised? && r.text == "")
    ensures r.Raised? ==> t == r.text
    ensures r.UnknownProvider? ==> StartsWith(t, "Unknown provider: " + r.provider)
    ensures r.MissingDependency? ==> StartsWith(t, "Missing dependency for " + r.provider)
    ensures r.ClassNotFound? ==> StartsWith(t, "Client class " + r.className)
  {
    match r
    case Loaded(_) => ""
    case UnknownProvider(p) => "Unknown provider: " + p + ". Available providers: " + ProviderListText
    case MissingDependency(p, _, cmd) =>
      "Missing dependency for " + p + " provider. To use " + p + ", install the required package:\n\n  "
      + cmd + "\n\nOr install all providers with:\n\n  pip install trae-agent[all-providers]"
    case ClassNotFound(c, m) => "Client class " + c + " not found in " + m
    case Raised(text) => text
  }

  /** What `load_client_class` answers, given the classes already loaded: a
      loaded class first, then an unknown name, a missing package, a module whose
      import raises `ImportError` (a missing dependency) or any other exception
      (passed on), a missing class, and otherwise the table's class. */
  function LoadOutcome(loaded: map<string, ClientClass>, importable: string -> bool,
    importModule: string -> ModuleImport, provider: string): LoadResult
  {
    if provider in loaded then Loaded(loaded[provider])
    else if InfoOf(provider).None? then UnknownProvider(provider)
    else
      var info := InfoOf(provider).value;
      var imported := importModule(info.moduleName);
      if !Available(importable, provider) || imported.ImportFails? then
        MissingDependency(provider, info.package, info.installCommand)
      else if imported.ImportRaises? then Raised(imported.text)
      else if info.className !in imported.names then ClassNotFound(info.className, info.moduleName)
      else Loaded(ClientClass(info.moduleName, info.className))
  }

  /** The report of `validate_provider_setup`. */
  datatype Validation = Validation(valid: bool, error: Option<string>, suggestion: Option<string>, message: Option<string>)

  /** One entry of `dependency_details`. */
  datatype Detail = Detail(provider: string, available: bool, package: string, installCommand: string)

  /** The report of `get_dependency_info`. */
  datatype DependencyInfo = DependencyInfo(
    availableProviders: seq<string>,
    missingProviders: seq<string>,
    installationCommands: seq<(string, string)>,
    availableCount: nat,
    missingCount: nat,
    total: nat,
    details: seq<Detail>)

  class DynamicLLMClientLoader {
    const packageImportable: string -> bool
    const importModule: string -> ModuleImport
    var loadedClients: map<string, ClientClass>
    var availabilityCache: map<string, bool>
    /** The packages probed, in order. */
    ghost var probes: seq<string>

    /** Only table providers are cached or loaded; a cached availability is the
        oracle's answer; a loaded class is the table's class of a provider whose
        availability was recorded as true. */
    ghost predicate Valid()
      reads this
    {
      && (forall p :: p in availabilityCache ==>
            InfoOf(p).Some? && availabilityCache[p] == packageImportable(InfoOf(p).value.package))
      && (forall p :: p in loadedClients ==>
            && InfoOf(p).Some?
            && loadedClients[p] == ClientClass(InfoOf(p).value.moduleName, InfoOf(p).value.className)
            && p in availabilityCache && availabilityCache[p])
    }

    constructor (packageImportable: string -> bool, importModule: string -> ModuleImport)
      ensures Valid()
      ensures this.packageImportable == packageImportable && this.importModule == importModule
      ensures loadedClients == map[] && availabilityCache == map[] && probes == []
    {
      this.packageImportable := packageImportable;
      this.importModule := importModule;
      loadedClients := map[];
      availabilityCache := map[];
      probes := [];
    }

    /** `is_provider_available`: false for a name outside the table; a recorded
        answer is returned without probing; otherwise the package is probed once
        and the answer recorded. */
    method IsProviderAvailable(provider: string) returns (b: bool)
      requires Valid()
      modifies this
      ensures Valid()
      ensures b == Available(packageImportable, provider)
      ensures loadedClients == old(loadedClients)
      ensures InfoOf(provider).None? || provider in old(availabilityCache) ==>
        availabilityCache == old(availabilityCache) && probes == old(probes)
      ensures InfoOf(provider).Some? && provider !in old(availabilityCache) ==>
        availabilityCache == old(availabilityCache)[provider := b]
        && probes == old(probes) + [InfoOf(provider).value.package]
    {
      var info := InfoOf(provider);
      if info.None? {
        return false;
      }
      if provider in availabilityCache {
        return availabilityCache[provider];
      }
      probes := probes + [info.value.package];
      b := packageImportable(info.value.package);
      availabilityCache := availabilityCache[provider := b];
    }

    /** One step of `get_available_providers`: a provider whose package imports is noted. */
    method NoteIfAvailable(p: string, available: seq<string>) returns (available': seq<string>)
      requires Valid()
      modifies this
      ensures Valid()
      ensures available' == available + (if Available(packageImportable, p) then [p] else [])
      ensures loadedClients == old(loadedClients)
      ensures availabilityCache == Record(old(availabilityCache), packageImportable, p)
      ensures probes == old(probes) + ProbeOf(old(availabilityCache), p)
    {
      var b := IsProviderAvailable(p);
      available' := if b then available + [p] else available;
    }

    /** The loop of `get_available_providers` over a list of providers. */
    method AvailableAmong(order: seq<string>) returns (available: seq<string>)
      requires Valid()
      modifies this
      ensures Valid()
      ensures available == AvailableFirst(order, p => Available(packageImportable, p), |order|)
      ensures loadedClients == old(loadedClients)
      ensures availabilityCache == RecordFirst(old(availabilityCache), packageImportable, order, |order|)
      ensures probes == old(probes) + ProbesFirst(old(availabilityCache), packageImportable, order, |order|)
    {
      ghost var isAvail := p => Available(packageImportable, p);
      available := [];
      var i := 0;
      while i < |order|
        invariant 0 <= i <= |order| && Valid()
        invariant available == AvailableFirst(order, isAvail, i)
        invariant loadedClients == old(loadedClients)
        invariant availabilityCache == RecordFirst(old(availabilityCache), packageImportable, order, i)
        invariant probes == old(probes) + ProbesFirst(old(availabilityCache), packageImportable, order, i)
      {
        RecordStep(old(availabilityCache), packageImportable, order, i, old(probes));
        available := NoteIfAvailable(order[i], available);
        i := i + 1;
      }
    }

    /** `get_available_providers`: the providers whose package imports, in table order. */
    method GetAvailableProviders() returns (available: seq<string>)
      requires Valid()
      modifies this
      ensures Valid()
      ensures available == AvailableProviders(packageImportable)
      ensures loadedClients == old(loadedClients)
      ensures availabilityCache == RecordFirst(old(availabilityCache), packageImportable, ProviderOrder, |ProviderOrder|)
      ensures probes == old(probes) + ProbesFirst(old(availabilityCache), packageImportable, ProviderOrder, |ProviderOrder|)
      ensures forall p :: p in availabilityCache <==> p in ProviderOrder
    {
      available := AvailableAmong(ProviderOrder);
      TablePassRecordsAll(old(availabilityCache), packageImportable);
    }

    /** One step of `get_missing_providers`: a provider whose package does not
        import is noted with its install command. */
    method NoteIfMissing(p: string, missing: seq<(string, string)>) returns (missing': seq<(string, string)>)
      requires Valid()
      modifies this
      ensures Valid()
      ensures missing' == missing + (if Available(packageImportable, p) then [] else [(p, InstallCommand(p))])
      ensures loadedClients == old(loadedClients)
      ensures availabilityCache == Record(old(availabilityCache), packageImportable, p)
      ensures probes == old(probes) + ProbeOf(old(availabilityCache), p)
    {
      var b := IsProviderAvailable(p);
      missing' := if b then missing else missing + [(p, InstallCommand(p))];
    }

    /** The loop of `get_missing_providers` over a list of providers. */
    method MissingAmong(order: seq<string>) returns (missing: seq<(string, string)>)
      requires Valid()
      modifies this
      ensures Valid()
      ensures missing == MissingFirst(order, p => Available(packageImportable, p), InstallCommand, |order|)
      ensures loadedClients == old(loadedClients)
      ensures availabilityCache == RecordFirst(old(availabilityCache), packageImportable, order, |order|)
      ensures probes == old(probes) + ProbesFirst(old(availabilityCache), packageImportable, order, |order|)
    {
      ghost var isAvail := p => Available(packageImportable, p);
      missing := [];
      var i := 0;
      while i < |order|
        invariant 0 <= i <= |order| && Valid()
        invariant missing == MissingFirst(order, isAvail, InstallCommand, i)
        invariant loadedClients == old(loadedClients)
        invariant availabilityCache == RecordFirst(old(availabilityCache), packageImportable, order, i)
        invariant probes == old(probes) + ProbesFirst(old(availabilityCache), packageImportable, order, i)
      {
        RecordStep(old(availabilityCache), packageImportable, order, i, old(probes));
        missing := NoteIfMissing(order[i], missing);
        i := i + 1;
      }
    }

    /** `get_missing_providers`: the providers whose package does not import, with
        their install commands, in table order. */
    method GetMissingProviders() returns (missing: seq<(string, string)>)
      requires Valid()
      modifies this
      ensures Valid()
      ensures missing == MissingProviders(packageImportable)
      ensures loadedClients == old(loadedClients)
      ensures availabilityCache == RecordFirst(old(availabilityCache), packageImportable, ProviderOrder, |ProviderOrder|)
      ensures probes == old(probes) + ProbesFirst(old(availabilityCache), packageImportable, ProviderOrder, |ProviderOrder|)
      ensures forall p :: p in availabilityCache <==> p in ProviderOrder
    {
      missing := MissingAmong(ProviderOrder);
      TablePassRecordsAll(old(availabilityCache), packageImportable);
    }

    /** The two calls `get_dependency_info` starts with: the second pass finds
        every provider recorded by the first, so it probes nothing. */
    method AvailableThenMissing() returns (available: seq<string>, missing: seq<(string, string)>)
      requires Valid()
      modifies this
      ensures Valid()
      ensures available == AvailableProviders(packageImportable)
      ensures missing == MissingProviders(packageImportable)
      ensures loadedClients == old(loadedClients)
      ensures availabilityCache == RecordFirst(old(availabilityCache), packageImportable, ProviderOrder, |ProviderOrder|)
      ensures probes == old(probes) + ProbesFirst(old(availabilityCache), packageImportable, ProviderOrder, |ProviderOrder|)
    {
      available := GetAvailableProviders();
      RecordedProbesNothing(availabilityCache, packageImportable, ProviderOrder, |ProviderOrder|);
      missing := GetMissingProviders();
    }

    /** `get_dependency_info`: the two lists, their sizes (which add up to the
        table's 7) and one detail row per provider in table order. The detail
        rows ask for availability again, which by then is recorded for every
        provider and so probes nothing. */
    method GetDependencyInfo() returns (info: DependencyInfo)
      requires Valid()
      modifies this
      ensures Valid()
      ensures info.availableProviders == AvailableProviders(packageImportable)
      ensures info.installationCommands == MissingProviders(packageImportable)
      ensures info.missingProviders == Keys(info.installationCommands)
      ensures info.availableCount == |info.availableProviders| && info.missingCount == |info.installationCommands|
      ensures info.availableCount + info.missingCount == info.total == 7
      ensures info.details == DetailRows(packageImportable)
      ensures loadedClients == old(loadedClients)
      ensures availabilityCache == RecordFirst(old(availabilityCache), packageImportable, ProviderOrder, |ProviderOrder|)
      ensures probes == old(probes) + ProbesFirst(old(availabilityCache), packageImportable, ProviderOrder, |ProviderOrder|)
    {
      var available, missing := AvailableThenMissing();
      PartitionSizes(ProviderOrder, p => Available(packageImportable, p), InstallCommand, |ProviderOrder|);
      info := DependencyInfo(available, Keys(missing), missing, |available|, |missing|, |ProviderOrder|,
        DetailRows(packageImportable));
    }

    /** `load_client_class`: a loaded class is returned before any other check;
        then an unknown name, then a missing package, then a module whose import
        raises: `ImportError` is reported as a missing dependency, any other
        exception is passed on as it is; then a missing class. Only a successful
        load is recorded. */
    method LoadClientClass(provider: string) returns (r: LoadResult)
      requires Valid()
      modifies this
      ensures Valid()
      ensures r == LoadOutcome(old(loadedClients), packageImportable, importModule, provider)
      ensures provider in old(loadedClients) ==>
        r == Loaded(old(loadedClients)[provider]) && unchanged(this)
      ensures provider !in old(loadedClients) && InfoOf(provider).None? ==>
        r == UnknownProvider(provider) && unchanged(this)
      ensures provider !in old(loadedClients) && InfoOf(provider).Some? ==>
        var info := InfoOf(provider).value;
        var imported := importModule(info.moduleName);
        && (!Available(packageImportable, provider) ==>
              r == MissingDependency(provider, info.package, info.installCommand))
        && (Available(packageImportable, provider) && imported.ImportFails? ==>
              r == MissingDependency(provider, info.package, info.installCommand))
        && (Available(packageImportable, provider) && imported.ImportRaises? ==> r == Raised(imported.text))
        && (Available(packageImportable, provider) && imported.Imported? && info.className !in imported.names ==>
              r == ClassNotFound(info.className, info.moduleName))
        && (r.Loaded? <==> Available(packageImportable, provider) && imported.Imported? && info.className in imported.names)
        && (r.Loaded? ==>
              r.cls == ClientClass(info.moduleName, info.className) && loadedClients == old(loadedClients)[provider := r.cls])
        && (!r.Loaded? ==> loadedClients == old(loadedClients))
        && availabilityCache == Record(old(availabilityCache), packageImportable, provider)
        && probes == old(probes) + ProbeOf(old(availabilityCache), provider)
    {
      if provider in loadedClients {
        return Loaded(loadedClients[provider]);
      }
      var info := InfoOf(provider);
      if info.None? {
        return UnknownProvider(provider);
      }
      var available := IsProviderAvailable(provider);
      if !available {
        return MissingDependency(provider, info.value.package, info.value.installCommand);
      }
      var imported := importModule(info.value.moduleName);
      if imported.ImportFails? {
        return MissingDependency(provider, info.value.package, info.value.installCommand);
      }
      if imported.ImportRaises? {
        return Raised(imported.text);
      }
      if info.value.className !in imported.names {
        return ClassNotFound(info.value.className, info.value.moduleName);
      }
      var cls := ClientClass(info.value.moduleName, info.value.className);
      loadedClients := loadedClients[provider := cls];
      r := Loaded(cls);
    }

    /** `validate_provider_setup`: invalid for an unknown or unavailable provider;
        otherwise valid exactly when the client class loads. Whatever
        `load_client_class` raises, an exception other than `ImportError` from
        the module import included, is caught and its text reported. */
    method ValidateProviderSetup(provider: string) returns (v: Validation)
      requires Valid()
      modifies this
      ensures Valid()
      ensures InfoOf(provider).None? ==>
        v == Validation(false, Some("Unknown provider: " + provider), Some("Available providers: " + ProviderListText), None)
      ensures InfoOf(provider).Some? && !Available(packageImportable, provider) ==>
        v == Validation(false, Some("Missing dependency for " + provider),
          Some("Install with: " + InfoOf(provider).value.installCommand), None)
      ensures Available(packageImportable, provider) ==>
        var info := InfoOf(provider).value;
        var imported := importModule(info.moduleName);
        (v.valid <==> provider in old(loadedClients) || (imported.Imported? && info.className in imported.names))
      ensures v.valid ==> v == Validation(true, None, None, Some("Provider " + provider + " is properly configured"))
      ensures Available(packageImportable, provider) && provider !in old(loadedClients) ==>
        var imported := importModule(InfoOf(provider).value.moduleName);
        imported.ImportRaises? ==> !v.valid && v.error == Some("Failed to load " + provider + " client: " + imported.text)
      ensures !v.valid && Available(packageImportable, provider) ==>
        v == Validation(false,
          Some("Failed to load " + provider + " client: "
            + ErrorText(LoadOutcome(old(loadedClients), packageImportable, importModule, provider))),
          Some("Try reinstalling: " + InfoOf(provider).value.installCommand), None)
      ensures v.valid ==>
        && InfoOf(provider).Some?
        && loadedClients == old(loadedClients)[provider := ClientClass(InfoOf(provider).value.moduleName, InfoOf(provider).value.className)]
      ensures !v.valid ==> loadedClients == old(loadedClients)
      ensures availabilityCache == Record(old(availabilityCache), packageImportable, provider)
      ensures probes == old(probes) + ProbeOf(old(availabilityCache), provider)
    {
      var info := InfoOf(provider);
      if info.None? {
        return Validation(false, Some("Unknown provider: " + provider), Some("Available providers: " + ProviderListText), None);
      }
      var available := IsProviderAvailable(provider);
      if !available {
        return Validation(false, Some("Missing dependency for " + provider),
          Some("Install with: " + info.value.installCommand), None);
      }
      var r := LoadClientClass(provider);
      if r.Loaded? {
        v := Validation(true, None, None, Some("Provider " + provider + " is properly configured"));
      } else {
        v := Validation(false, Some("Failed to load " + provider + " client: " + ErrorText(r)),
          Some("Try reinstalling: " + info.value.installCommand), None);
      }
    }
  }

  /** The suggestions `install_suggestions` gives: one per table provider, in input
      order, unknown names skipped. */
  function Suggestions(providers: seq<string>): (r: seq<string>)
    ensures |r| <= |providers|
  {
    if providers == [] then []
    else
      var p := providers[|providers| - 1];
      Suggestions(providers[..|providers| - 1])
        + (if InfoOf(p).Some? then ["For " + p + ": " + InfoOf(p).value.installCommand] else [])
  }

  /** Suggestions for a concatenation are the suggestions of each part, in order. */
  lemma {:induction false} SuggestionsConcat(a: seq<string>, b: seq<string>)
    ensures Suggestions(a + b) == Suggestions(a) + Suggestions(b)
    decreases |b|
  {
    if b == [] {
      assert a + b == a;
    } else {
      var init, last := b[..|b| - 1], b[|b| - 1];
      SuggestionsConcat(a, init);
      assert (a + b)[..|a + b| - 1] == a + init;
      assert b[..|b| - 1] == init;
    }
  }

  /** A single name yields its suggestion when it is in the table and nothing otherwise. */
  lemma SuggestionOfOne(p: string)
    ensures InfoOf(p).Some? ==> Suggestions([p]) == ["For " + p + ": " + InfoOf(p).value.installCommand]
    ensures InfoOf(p).None? ==> Suggestions([p]) == []
  {
    assert [p][..0] == [];
  }

  /** `install_suggestions`. */
  method InstallSuggestions(providers: seq<string>) returns (suggestions: seq<string>)
    ensures suggestions == Suggestions(providers)
  {
    suggestions := [];
    var i := 0;
    while i < |providers|
      invariant 0 <= i <= |providers|
      invariant suggestions == Suggestions(providers[..i])
    {
      var p := providers[i];
      assert providers[..i + 1][..i] == providers[..i];
      var info := InfoOf(p);
      if info.Some? {
        suggestions := suggestions + ["For " + p + ": " + info.value.installCommand];
      }
      i := i + 1;
    }
    assert providers[..i] == providers;
  }
}

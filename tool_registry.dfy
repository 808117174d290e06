/** The YAML-driven tool registry: lookups over the loaded `tools` mapping and a cache of
    created tool instances. */
module ToolRegistry {
  import opened Text

  /** One tool's entry in the YAML file. Each known key is `None` when absent; `enabled`
      holds the truth value of whatever the key maps to; `otherKeys` are keys the registry
      never reads. */
  datatype Entry = Entry(
    enabled: Option<bool>,
    name: Option<string>,
    description: Option<string>,
    useCases: Option<seq<string>>,
    classModule: Option<string>,
    className: Option<string>,
    factoryFunction: Option<string>,
    config: Option<map<string, string>>,
    otherKeys: set<string>)

  /** A dict is true in Python exactly when it has a key. */
  predicate Truthy(e: Entry) {
    e.enabled.Some? || e.name.Some? || e.description.Some? || e.useCases.Some?
    || e.classModule.Some? || e.className.Some? || e.factoryFunction.Some? || e.config.Some?
    || e.otherKeys != {}
  }

  /** The `tools` mapping, in file order (dict order). */
  type ToolsTable = seq<(string, Entry)>

  predicate DistinctNames(t: ToolsTable) {
    forall i, j :: 0 <= i < j < |t| ==> t[i].0 != t[j].0
  }

  /** The outcome of opening and parsing the file: unreadable or not YAML, or parsed with
      the value of its top-level `tools` key (`None` when the key is absent or the document is empty). */
  datatype ConfigFile = Unreadable | Parsed(tools: Option<ToolsTable>)

  /** `_load_config()`: the `tools` mapping, or {} when loading fails or the key is absent.
      A parsed mapping is a dict, so its names are distinct (a repeated YAML key keeps its last value). */
  function LoadConfig(file: ConfigFile): (t: ToolsTable)
    requires file.Parsed? && file.tools.Some? ==> DistinctNames(file.tools.value)
    ensures DistinctNames(t)
    ensures file.Parsed? && file.tools.Some? ==> t == file.tools.value
    ensures !(file.Parsed? && file.tools.Some?) ==> t == []
  {
    match file
    case Unreadable => []
    case Parsed(None) => []
    case Parsed(Some(tools)) => tools
  }

  /** `dict.get(name)` on the tools mapping. */
  function Lookup(t: ToolsTable, name: string): (r: Option<Entry>)
    ensures r.None? <==> forall i :: 0 <= i < |t| ==> t[i].0 != name
    ensures r.Some? ==> exists i :: 0 <= i < |t| && t[i] == (name, r.value)
  {
    if t == [] then None
    else if t[0].0 == name then Some(t[0].1)
    else
      var r := Lookup(t[1..], name);
      assert r.Some? ==> exists i :: 1 <= i < |t| && t[i] == (name, r.value) by {
        if r.Some? {
          var i :| 0 <= i < |t[1..]| && t[1..][i] == (name, r.value);
          assert t[i + 1] == (name, r.value);
        }
      }
      r
  }

  /** In a table without repeated names, the entry found under a name is the one stored there. */
  lemma LookupAt(t: ToolsTable, i: int)
    requires DistinctNames(t) && 0 <= i < |t|
    ensures Lookup(t, t[i].0) == Some(t[i].1)
  {
    var r := Lookup(t, t[i].0);
    var j :| 0 <= j < |t| && t[j] == (t[i].0, r.value);
  }

  /** `config.get('enabled', True)` */
  function EnabledOrDefault(e: Entry): bool
  {
    match e.enabled
    case Some(b) => b
    case None => true
  }

  /** `get_available_tools()`: the entries whose `enabled` is absent or true, in order. */
  function AvailableTools(t: ToolsTable): (r: ToolsTable)
    ensures |r| <= |t|
    ensures forall p :: p in r <==> p in t && EnabledOrDefault(p.1)
  {
    if t == [] then []
    else (if EnabledOrDefault(t[0].1) then [t[0]] else []) + AvailableTools(t[1..])
  }

  /** `is_tool_enabled(name)`: false for an unknown name and for an empty entry, otherwise
      the entry's `enabled`, true when absent. */
  function IsToolEnabled(t: ToolsTable, name: string): bool
  {
    match Lookup(t, name)
    case None => false
    case Some(e) => if Truthy(e) then EnabledOrDefault(e) else false
  }

  /** An entry with no keys at all: listed as available, yet reported as not enabled. */
  const EmptyEntry: Entry := Entry(None, None, None, None, None, None, None, None, {})

  /** For the table `{"foo": {}}`, the tool is available but not enabled. */
  lemma EnabledDisagreesWithAvailable()
    ensures ("foo", EmptyEntry) in AvailableTools([("foo", EmptyEntry)])
    ensures !IsToolEnabled([("foo", EmptyEntry)], "foo")
  {
    assert [("foo", EmptyEntry)][0] == ("foo", EmptyEntry);
  }

  /** `is_tool_enabled` as evidently intended: known and `enabled` absent or true. */
  function IsToolEnabledIntended(t: ToolsTable, name: string): bool
  {
    match Lookup(t, name)
    case None => false
    case Some(e) => EnabledOrDefault(e)
  }

  /** The intended check agrees with `get_available_tools()` for every name. */
  lemma {:induction false} EnabledIntendedIffAvailable(t: ToolsTable, name: string)
    requires DistinctNames(t)
    ensures IsToolEnabledIntended(t, name) <==> exists e :: (name, e) in AvailableTools(t)
  {
    if IsToolEnabledIntended(t, name) {
      var e := Lookup(t, name).value;
      var i :| 0 <= i < |t| && t[i] == (name, e);
      assert (name, e) in t;
      assert (name, e) in AvailableTools(t);
    }
    if exists e :: (name, e) in AvailableTools(t) {
      var e :| (name, e) in AvailableTools(t);
      var i :| 0 <= i < |t| && t[i] == (name, e);
      LookupAt(t, i);
    }
  }

  /** The shipped check implies the intended one and differs only on empty entries. */
  lemma EnabledMatchesIntendedOnNonEmpty(t: ToolsTable, name: string)
    ensures IsToolEnabled(t, name) ==> IsToolEnabledIntended(t, name)
    ensures Lookup(t, name).Some? && Truthy(Lookup(t, name).value) ==>
              (IsToolEnabled(t, name) <==> IsToolEnabledIntended(t, name))
  {
  }

  /** The module-path rewrite: a path starting with '.' is prefixed with the package name. */
  function ResolveModulePath(package: string, path: string): (r: string)
    ensures |path| <= |r| && r[|r| - |path|..] == path
    ensures StartsWith(path, ".") ==> r == package + path
    ensures !StartsWith(path, ".") ==> r == path
  {
    if StartsWith(path, ".") then package + path else path
  }

  /** With a package name that is itself absolute, every resolved path is absolute. */
  lemma ResolvedIsAbsolute(package: string, path: string)
    requires package != [] && package[0] != '.'
    requires path != []
    ensures !StartsWith(ResolveModulePath(package, path), ".")
  {
  }

  /** `get_tool_class(name)`: `importClass(module, class)` stands for importing the module and
      reading the class from it, `None` when either fails. */
  function GetToolClass<C>(t: ToolsTable, name: string, package: string,
                           importClass: (string, string) -> Option<C>): (r: Option<C>)
    ensures r.Some? ==> Lookup(t, name).Some? && Truthy(Lookup(t, name).value)
    ensures r.Some? ==> Lookup(t, name).value.classModule.Some? && Lookup(t, name).value.className.Some?
    ensures Lookup(t, name).Some? && Truthy(Lookup(t, name).value) &&
            Lookup(t, name).value.classModule.Some? && Lookup(t, name).value.className.Some? ==>
              var e := Lookup(t, name).value;
              r == importClass(ResolveModulePath(package, e.classModule.value), e.className.value)
  {
    match Lookup(t, name)
    case None => None
    case Some(e) =>
      if !Truthy(e) || e.classModule.None? || e.className.None? then None
      else importClass(ResolveModulePath(package, e.classModule.value), e.className.value)
  }

  /** Creating an instance when the cache misses: `build(module, factory, config)` stands for
      importing the module, finding the factory and calling it with the entry's `config`
      ({} when absent), `None` when any of it raises. */
  function Create<T>(t: ToolsTable, name: string, package: string,
                     build: (string, string, map<string, string>) -> Option<T>): (r: Option<T>)
    ensures r.Some? ==> Lookup(t, name).Some? && Truthy(Lookup(t, name).value)
    ensures r.Some? ==> Lookup(t, name).value.classModule.Some? && Lookup(t, name).value.factoryFunction.Some?
    ensures Lookup(t, name).Some? && Truthy(Lookup(t, name).value) &&
            Lookup(t, name).value.classModule.Some? && Lookup(t, name).value.factoryFunction.Some? ==>
              var e := Lookup(t, name).value;
              r == build(ResolveModulePath(package, e.classModule.value), e.factoryFunction.value,
                         if e.config.Some? then e.config.value else map[])
  {
    match Lookup(t, name)
    case None => None
    case Some(e) =>
      if !Truthy(e) || e.classModule.None? || e.factoryFunction.None? then None
      else
        var config := if e.config.Some? then e.config.value else map[];
        build(ResolveModulePath(package, e.classModule.value), e.factoryFunction.value, config)
  }

  /** One entry of `get_tool_description_for_selection()`. */
  datatype Description = Description(name: string, description: string, useCases: seq<string>)

  function Describe(key: string, e: Entry): (d: Description)
    ensures d.name == (if e.name.Some? then e.name.value else key)
    ensures d.description == (if e.description.Some? then e.description.value else "")
    ensures d.useCases == (if e.useCases.Some? then e.useCases.value else [])
  {
    Description(
      if e.name.Some? then e.name.value else key,
      if e.description.Some? then e.description.value else "",
      if e.useCases.Some? then e.useCases.value else [])
  }

  /** The loop of `get_tool_description_for_selection()`: one description per entry, in order. */
  method DescribeAll(available: ToolsTable) returns (r: seq<Description>)
    ensures |r| == |available|
    ensures forall i :: 0 <= i < |r| ==> r[i] == Describe(available[i].0, available[i].1)
  {
    r := [];
    var i := 0;
    while i < |available|
      invariant 0 <= i <= |available|
      invariant |r| == i
      invariant forall k :: 0 <= k < i ==> r[k] == Describe(available[k].0, available[k].1)
    {
      r := r + [Describe(available[i].0, available[i].1)];
      i := i + 1;
    }
  }

  /** `ToolRegistry`: the loaded configuration and the instance cache. */
  class Registry<T> {
    const toolsConfig: ToolsTable
    var instances: map<string, T>

    /** `ToolRegistry(config_path)`; the file's outcome is a parameter. */
    constructor (file: ConfigFile)
      requires file.Parsed? && file.tools.Some? ==> DistinctNames(file.tools.value)
      ensures DistinctNames(toolsConfig)
      ensures toolsConfig == LoadConfig(file)
      ensures instances == map[]
    {
      toolsConfig := LoadConfig(file);
      instances := map[];
    }

    /** `create_tool_instance(name)`: a cached instance is returned as is; otherwise a
        successful creation is cached under the name, and a failed one leaves the cache alone. */
    method CreateToolInstance(name: string, package: string,
                              build: (string, string, map<string, string>) -> Option<T>)
      returns (r: Option<T>)
      modifies this
      ensures name in old(instances) ==> r == Some(old(instances)[name]) && instances == old(instances)
      ensures name !in old(instances) ==> r == Create(toolsConfig, name, package, build)
      ensures name !in old(instances) && r.Some? ==> instances == old(instances)[name := r.value]
      ensures name !in old(instances) && r.None? ==> instances == old(instances)
    {
      if name in instances {
        return Some(instances[name]);
      }
      r := Create(toolsConfig, name, package, build);
      if r.Some? {
        instances := instances[name := r.value];
      }
    }

    /** `get_tool_instance(name)` */
    method GetToolInstance(name: string, package: string,
                           build: (string, string, map<string, string>) -> Option<T>)
      returns (r: Option<T>)
      modifies this
      ensures name in old(instances) ==> r == Some(old(instances)[name]) && instances == old(instances)
      ensures name !in old(instances) ==> r == Create(toolsConfig, name, package, build)
      ensures name !in old(instances) && r.Some? ==> instances == old(instances)[name := r.value]
      ensures name !in old(instances) && r.None? ==> instances == old(instances)
    {
      r := CreateToolInstance(name, package, build);
    }

    /** `get_tool_description_for_selection()`: one description per available tool, in order. */
    method GetToolDescriptionForSelection() returns (r: seq<Description>)
      ensures |r| == |AvailableTools(toolsConfig)|
      ensures forall i :: 0 <= i < |r| ==>
                r[i] == Describe(AvailableTools(toolsConfig)[i].0, AvailableTools(toolsConfig)[i].1)
    {
      r := DescribeAll(AvailableTools(toolsConfig));
    }
  }

  /** Two creations in a row with the same name return the same instance, whatever the
      second `build` would produce. */
  method CachedInstanceIsStable<T>(reg: Registry<T>, name: string, package: string,
                                   build1: (string, string, map<string, string>) -> Option<T>,
                                   build2: (string, string, map<string, string>) -> Option<T>)
    returns (first: Option<T>, second: Option<T>)
    modifies reg
    ensures first.Some? ==> second == first
  {
    first := reg.CreateToolInstance(name, package, build1);
    second := reg.CreateToolInstance(name, package, build2);
  }
}

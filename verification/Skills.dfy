/** The skill registry as a value: the loaded skills in insertion order and the derived tables that
    must agree with them. */
module Skills {
  import opened Common

  /** What a skill file does when it is imported: whether the import runs through, the names in
      its tool list ("" for an unnamed entry), whether the module meets the protocol, the tools
      whose contract cannot be resolved, and whether its capability descriptor can be built. */
  datatype Source = Source(
    importable: bool, tools: seq<string>, wellFormed: bool, badContracts: set<string>, descriptorOk: bool)

  /** An imported module under its unique key in the module table. */
  datatype Module = Module(key: nat, source: Source)

  datatype Skill = Skill(name: string, body: Module)

  datatype Origin = App | AppSpace

  datatype Registry = Registry(
    skills: seq<Skill>,
    toolIndex: map<string, string>,
    contracts: map<string, Module>,   // the module each tool's contract was resolved with
    origins: map<string, Origin>,
    errors: set<string>,
    moduleKeys: map<string, nat>,
    sysModules: set<nat>,
    nextKey: nat,
    appFiles: map<string, Source>,
    spaceFiles: map<string, Source>)

  // ---------------------------------------------------------------- an insertion-ordered dictionary

  predicate Has(skills: seq<Skill>, name: string) {
    exists i :: 0 <= i < |skills| && skills[i].name == name
  }

  ghost predicate DistinctNames(skills: seq<Skill>) {
    forall i, j :: 0 <= i < j < |skills| ==> skills[i].name != skills[j].name
  }

  function Position(skills: seq<Skill>, name: string): (i: nat)
    ensures i <= |skills|
    ensures i < |skills| ==> skills[i].name == name
    ensures forall k :: 0 <= k < i ==> skills[k].name != name
  {
    if skills == [] then 0
    else if skills[0].name == name then 0
    else
      var i := Position(skills[1..], name);
      assert forall k :: 1 <= k < i + 1 ==> skills[k] == skills[1..][k - 1];
      i + 1
  }

  /** Assignment to a key: in place when it exists, at the end otherwise. */
  function With(skills: seq<Skill>, name: string, m: Module): seq<Skill> {
    var i := Position(skills, name);
    if i < |skills| then skills[i := Skill(name, m)] else skills + [Skill(name, m)]
  }

  function Without(skills: seq<Skill>, name: string): seq<Skill> {
    var i := Position(skills, name);
    if i < |skills| then skills[..i] + skills[i + 1..] else skills
  }

  // ---------------------------------------------------------------- what the tables must be

  predicate Offers(skill: Skill, tool: string) {
    tool != "" && tool in skill.body.source.tools
  }

  ghost predicate NoConflict(skills: seq<Skill>) {
    forall i, j, tool :: 0 <= i < j < |skills| && Offers(skills[i], tool) ==> !Offers(skills[j], tool)
  }

  predicate Resolves(skill: Skill) {
    forall tool :: tool in skill.body.source.tools && tool != "" ==> tool !in skill.body.source.badContracts
  }

  ghost predicate Loadable(skills: seq<Skill>) {
    NoConflict(skills) && forall i :: 0 <= i < |skills| ==> Resolves(skills[i])
  }

  /** A table after every named tool has been entered with the same value. */
  function Enter<V>(table: map<string, V>, tools: seq<string>, v: V): map<string, V> {
    if tools == [] then table
    else
      var tool := tools[|tools| - 1];
      var entered := Enter(table, tools[..|tools| - 1], v);
      if tool == "" then entered else entered[tool := v]
  }

  lemma {:induction false} EnterMeaning<V>(table: map<string, V>, tools: seq<string>, v: V, tool: string)
    ensures tool in Enter(table, tools, v) <==> tool in table || (tool != "" && tool in tools)
    ensures tool != "" && tool in tools ==> Enter(table, tools, v)[tool] == v
    ensures (tool == "" || tool !in tools) && tool in table ==> Enter(table, tools, v)[tool] == table[tool]
  {
    if tools != [] {
      EnterMeaning(table, tools[..|tools| - 1], v, tool);
      assert tools == tools[..|tools| - 1] + [tools[|tools| - 1]];
    }
  }

  function IndexOf(skills: seq<Skill>): map<string, string> {
    if skills == [] then map[]
    else
      var last := skills[|skills| - 1];
      Enter(IndexOf(skills[..|skills| - 1]), last.body.source.tools, last.name)
  }

  function ContractsOf(skills: seq<Skill>): map<string, Module> {
    if skills == [] then map[]
    else
      var last := skills[|skills| - 1];
      Enter(ContractsOf(skills[..|skills| - 1]), last.body.source.tools, last.body)
  }

  /** Linear search: the first loaded skill that offers the tool. */
  function Search(skills: seq<Skill>, tool: string): Option<Skill> {
    if skills == [] then None
    else if Offers(skills[0], tool) then Some(skills[0])
    else Search(skills[1..], tool)
  }

  lemma {:induction false} SearchMeaning(skills: seq<Skill>, tool: string)
    ensures Search(skills, tool).None? <==> forall i :: 0 <= i < |skills| ==> !Offers(skills[i], tool)
    ensures Search(skills, tool).Some? ==>
              Search(skills, tool).value in skills && Offers(Search(skills, tool).value, tool)
  {
    if skills != [] && !Offers(skills[0], tool) {
      SearchMeaning(skills[1..], tool);
      assert forall i :: 1 <= i < |skills| ==> skills[i] == skills[1..][i - 1];
    }
  }

  /** The index holds exactly the offered tools, each under a skill that offers it. */
  lemma {:induction false} IndexMeaning(skills: seq<Skill>, tool: string)
    ensures tool in IndexOf(skills) <==> exists i :: 0 <= i < |skills| && Offers(skills[i], tool)
    ensures tool in IndexOf(skills) ==>
              exists i :: 0 <= i < |skills| && Offers(skills[i], tool) && IndexOf(skills)[tool] == skills[i].name
  {
    if skills != [] {
      var n := |skills| - 1;
      var init := skills[..n];
      IndexMeaning(init, tool);
      EnterMeaning(IndexOf(init), skills[n].body.source.tools, skills[n].name, tool);
      assert forall i :: 0 <= i < n ==> init[i] == skills[i];
    }
  }

  lemma {:induction false} ContractsMeaning(skills: seq<Skill>, tool: string)
    ensures tool in ContractsOf(skills) <==> exists i :: 0 <= i < |skills| && Offers(skills[i], tool)
    ensures tool in ContractsOf(skills) ==>
              exists i :: 0 <= i < |skills| && Offers(skills[i], tool) && ContractsOf(skills)[tool] == skills[i].body
  {
    if skills != [] {
      var n := |skills| - 1;
      var init := skills[..n];
      ContractsMeaning(init, tool);
      EnterMeaning(ContractsOf(init), skills[n].body.source.tools, skills[n].body, tool);
      assert forall i :: 0 <= i < n ==> init[i] == skills[i];
    }
  }

  /** Without conflicts the index is linear search, and the contract comes from the same module. */
  lemma IndexIsSearch(skills: seq<Skill>, tool: string)
    requires NoConflict(skills)
    ensures tool in IndexOf(skills) <==> Search(skills, tool).Some?
    ensures tool in IndexOf(skills) ==> IndexOf(skills)[tool] == Search(skills, tool).value.name
    ensures tool in ContractsOf(skills) <==> Search(skills, tool).Some?
    ensures tool in ContractsOf(skills) ==> ContractsOf(skills)[tool] == Search(skills, tool).value.body
  {
    IndexMeaning(skills, tool);
    ContractsMeaning(skills, tool);
    SearchMeaning(skills, tool);
  }

  // ---------------------------------------------------------------- operations

  predicate Accepts(source: Source) {
    source.importable && source.wellFormed && source.descriptorOk
  }

  ghost predicate CanLoad(r: Registry, name: string, source: Source) {
    Accepts(source) && Loadable(With(r.skills, name, Module(r.nextKey, source)))
  }

  function SkillsChanged(r: Registry, skills: seq<Skill>): Registry {
    r.(skills := skills, toolIndex := IndexOf(skills), contracts := ContractsOf(skills))
  }

  function KeyOf(r: Registry, name: string): set<nat> {
    if name in r.moduleKeys then {r.moduleKeys[name]} else {}
  }

  /** A file imported, validated and registered under a new module key. */
  function Loaded(r: Registry, name: string, source: Source, origin: Origin): Registry {
    SkillsChanged(r, With(r.skills, name, Module(r.nextKey, source))).(
      origins := r.origins[name := origin],
      errors := r.errors - {name},
      moduleKeys := r.moduleKeys[name := r.nextKey],
      sysModules := r.sysModules + {r.nextKey} - KeyOf(r, name),
      nextKey := r.nextKey + 1)
  }

  /** A failed attempt: nothing but the spent key, and the error where the operation records one. */
  function Rejected(r: Registry, errors: set<string>): Registry {
    r.(nextKey := r.nextKey + 1, errors := r.errors + errors)
  }

  datatype File = File(name: string, source: Source)

  ghost function ScannedFile(r: Registry, file: File, origin: Origin): Registry {
    if Has(r.skills, file.name) then r
    else if CanLoad(r, file.name, file.source) then Loaded(r, file.name, file.source, origin)
    else Rejected(r, {file.name})
  }

  ghost function Scanned(r: Registry, files: seq<File>, origin: Origin): Registry {
    if files == [] then r
    else ScannedFile(Scanned(r, files[..|files| - 1], origin), files[|files| - 1], origin)
  }

  /** The file a reload takes: the application's own directory first. */
  function FileFor(r: Registry, name: string): Option<(Source, Origin)> {
    if name in r.appFiles then Some((r.appFiles[name], App))
    else if name in r.spaceFiles then Some((r.spaceFiles[name], AppSpace))
    else None
  }

  ghost function Reloaded(r: Registry, name: string): Registry {
    match FileFor(r, name)
    case None => r
    case Some((source, origin)) =>
      if CanLoad(r, name, source) then Loaded(r, name, source, origin) else Rejected(r, {name})
  }

  /** `gate` says that every check before the write passed: path, name, source and test gates. */
  ghost function ExternalRegistered(r: Registry, name: string, source: Source, gate: bool): Registry {
    if !gate || (name in r.origins && r.origins[name].App?) then r
    else if CanLoad(r, name, source) then
      Loaded(r, name, source, AppSpace).(spaceFiles := r.spaceFiles[name := source])
    else Rejected(r, {}).(spaceFiles := r.spaceFiles - {name})
  }

  function Removed(r: Registry, name: string): Registry {
    SkillsChanged(r, Without(r.skills, name)).(
      origins := r.origins - {name}, errors := r.errors - {name},
      moduleKeys := r.moduleKeys - {name}, sysModules := r.sysModules - KeyOf(r, name))
  }

  function ExternalUnregistered(r: Registry, name: string): Registry {
    if !Has(r.skills, name) || !(name in r.origins && r.origins[name].AppSpace?) then r else Removed(r, name)
  }

  datatype Operation =
    | Discover(appListing: seq<File>, spaceListing: seq<File>)
    | Reload(name: string)
    | RegisterExternal(name: string, source: Source, gate: bool)
    | UnregisterExternal(name: string)
    | EditFiles(appFiles: map<string, Source>, spaceFiles: map<string, Source>)

  ghost function Perform(r: Registry, op: Operation): Registry {
    match op
    case Discover(appListing, spaceListing) => Scanned(Scanned(r, appListing, App), spaceListing, AppSpace)
    case Reload(name) => Reloaded(r, name)
    case RegisterExternal(name, source, gate) => ExternalRegistered(r, name, source, gate)
    case UnregisterExternal(name) => ExternalUnregistered(r, name)
    case EditFiles(appFiles, spaceFiles) => r.(appFiles := appFiles, spaceFiles := spaceFiles)
  }

  function Empty(appFiles: map<string, Source>, spaceFiles: map<string, Source>): Registry {
    Registry([], map[], map[], map[], {}, map[], {}, 0, appFiles, spaceFiles)
  }

  ghost function PerformAll(
    appFiles: map<string, Source>, spaceFiles: map<string, Source>, ops: seq<Operation>
  ): Registry
  {
    if ops == [] then Empty(appFiles, spaceFiles)
    else Perform(PerformAll(appFiles, spaceFiles, ops[..|ops| - 1]), ops[|ops| - 1])
  }

  // ---------------------------------------------------------------- the invariant

  /** Every loaded skill is tracked under its own module key, and nothing else is tracked. */
  ghost predicate KeysMatch(r: Registry) {
    && (forall skill :: skill in r.skills ==>
          skill.name in r.moduleKeys && r.moduleKeys[skill.name] == skill.body.key)
    && (forall name :: name in r.moduleKeys ==> Has(r.skills, name))
  }

  ghost predicate OriginsMatch(r: Registry) {
    forall name :: name in r.origins <==> Has(r.skills, name)
  }

  predicate HeldBy(moduleKeys: map<string, nat>, key: nat) {
    exists name :: name in moduleKeys && moduleKeys[name] == key
  }

  /** The module table holds exactly the tracked keys, each for one skill. */
  ghost predicate TableMatches(r: Registry) {
    && (forall a, b :: a in r.moduleKeys && b in r.moduleKeys && r.moduleKeys[a] == r.moduleKeys[b] ==> a == b)
    && (forall key :: key in r.sysModules <==> HeldBy(r.moduleKeys, key))
    && (forall key :: key in r.sysModules ==> key < r.nextKey)
  }

  ghost predicate Consistent(r: Registry) {
    && DistinctNames(r.skills) && Loadable(r.skills)
    && (forall skill :: skill in r.skills ==> Accepts(skill.body.source))
    && r.toolIndex == IndexOf(r.skills) && r.contracts == ContractsOf(r.skills)
    && KeysMatch(r) && OriginsMatch(r) && TableMatches(r)
  }

  /** `skills'` holds the same skills except under `name`, which it maps to `m` if there is one. */
  ghost predicate DiffersAt(skills: seq<Skill>, skills': seq<Skill>, name: string, m: Option<Module>) {
    && (forall skill :: skill in skills' <==>
          (skill.name == name && m == Some(skill.body)) || (skill.name != name && skill in skills))
    && (forall other :: Has(skills', other) <==> if other == name then m.Some? else Has(skills, other))
  }

  lemma WithMeaning(skills: seq<Skill>, name: string, m: Module)
    requires DistinctNames(skills)
    ensures DistinctNames(With(skills, name, m)) && DiffersAt(skills, With(skills, name, m), name, Some(m))
  {
    var i, skills' := Position(skills, name), With(skills, name, m);
    if i < |skills| {
      assert skills'[i] == Skill(name, m);
      forall skill | skill in skills && skill.name != name
        ensures skill in skills'
      {
        var k :| 0 <= k < |skills| && skills[k] == skill;
        assert skills'[k] == skill;
      }
      forall other | Has(skills, other)
        ensures Has(skills', other)
      {
        var k :| 0 <= k < |skills| && skills[k].name == other;
        assert skills'[k].name == other;
      }
    } else {
      assert skills'[|skills|] == Skill(name, m);
      assert forall k :: 0 <= k < |skills| ==> skills'[k] == skills[k];
    }
  }

  lemma WithKeepsNamesDistinct(skills: seq<Skill>, name: string, m: Module)
    requires DistinctNames(skills)
    ensures DistinctNames(With(skills, name, m))
  {
  }

  lemma WithoutMembers(skills: seq<Skill>, name: string)
    requires DistinctNames(skills)
    ensures DistinctNames(Without(skills, name))
    ensures forall skill :: skill in Without(skills, name) <==> skill in skills && skill.name != name
  {
    var i, skills' := Position(skills, name), Without(skills, name);
    if i < |skills| {
      assert forall k :: 0 <= k < i ==> skills'[k] == skills[k];
      assert forall k :: i <= k < |skills'| ==> skills'[k] == skills[k + 1];
      forall skill | skill in skills && skill.name != name
        ensures skill in skills'
      {
        var k :| 0 <= k < |skills| && skills[k] == skill;
        assert skills'[if k < i then k else k - 1] == skill;
      }
    }
  }

  lemma WithoutMeaning(skills: seq<Skill>, name: string)
    requires DistinctNames(skills)
    ensures DistinctNames(Without(skills, name)) && DiffersAt(skills, Without(skills, name), name, None)
  {
    var skills' := Without(skills, name);
    WithoutMembers(skills, name);
    forall other
      ensures Has(skills', other) <==> Has(skills, other) && other != name
    {
      HasMeaning(skills, other);
      HasMeaning(skills', other);
    }
  }

  lemma HasMeaning(skills: seq<Skill>, name: string)
    ensures Has(skills, name) <==> exists skill :: skill in skills && skill.name == name
  {
    if Has(skills, name) {
      var i :| 0 <= i < |skills| && skills[i].name == name;
      assert skills[i] in skills;
    }
  }

  /** A skill of the list with the same name and the same source, under whatever module key. */
  predicate Counterpart(skills: seq<Skill>, skill: Skill) {
    exists i :: 0 <= i < |skills| && skills[i].name == skill.name && skills[i].body.source == skill.body.source
  }

  /** Any selection of loadable skills is loadable: a rebuild after a removal, or of the previous
      skills after a failed registration, cannot fail. */
  lemma SelectionIsLoadable(skills: seq<Skill>, selection: seq<Skill>)
    requires Loadable(skills) && DistinctNames(selection)
    requires forall skill :: skill in selection ==> Counterpart(skills, skill)
    ensures Loadable(selection)
  {
    forall i, j, tool | 0 <= i < j < |selection| && Offers(selection[i], tool)
      ensures !Offers(selection[j], tool)
    {
      assert selection[i] in selection && selection[j] in selection;
      var a :| 0 <= a < |skills| && skills[a].name == selection[i].name
               && skills[a].body.source == selection[i].body.source;
      var b :| 0 <= b < |skills| && skills[b].name == selection[j].name
               && skills[b].body.source == selection[j].body.source;
      assert a != b;
      assert !(Offers(skills[a], tool) && Offers(skills[b], tool));
    }
    forall i | 0 <= i < |selection|
      ensures Resolves(selection[i])
    {
      assert selection[i] in selection;
      var a :| 0 <= a < |skills| && skills[a].name == selection[i].name
               && skills[a].body.source == selection[i].body.source;
      assert Resolves(skills[a]);
    }
  }

  lemma RemovalIsLoadable(skills: seq<Skill>, name: string)
    requires Loadable(skills) && DistinctNames(skills)
    ensures DistinctNames(Without(skills, name)) && Loadable(Without(skills, name))
  {
    WithoutMembers(skills, name);
    SelectionIsLoadable(skills, Without(skills, name));
  }

  /** Undoing a registration: popping a new name, or putting the old module back, restores the
      dictionary with its order. */
  lemma RegistrationUndone(skills: seq<Skill>, name: string, m: Module, previous: Module)
    requires DistinctNames(skills)
    ensures !Has(skills, name) ==> Without(With(skills, name, m), name) == skills
    ensures Skill(name, previous) in skills ==> With(With(skills, name, m), name, previous) == skills
  {
    var i := Position(skills, name);
    var changed := With(skills, name, m);
    assert changed[i].name == name;
    assert forall k :: 0 <= k < i ==> changed[k] == skills[k];
    assert Position(changed, name) == i;
  }

  lemma LoadKeepsTable(r: Registry, name: string, source: Source, origin: Origin)
    requires TableMatches(r)
    ensures TableMatches(Loaded(r, name, source, origin))
  {
    var r' := Loaded(r, name, source, origin);
    forall key
      ensures key in r'.sysModules <==> HeldBy(r'.moduleKeys, key)
    {
      if key == r.nextKey {
        assert r'.moduleKeys[name] == key;
      } else if HeldBy(r.moduleKeys, key) {
        var n :| n in r.moduleKeys && r.moduleKeys[n] == key;
        assert n != name ==> r'.moduleKeys[n] == key;
      }
    }
  }

  lemma LoadKeepsKeys(r: Registry, r': Registry, name: string, m: Module)
    requires KeysMatch(r) && DiffersAt(r.skills, r'.skills, name, Some(m))
    requires r'.moduleKeys == r.moduleKeys[name := m.key]
    ensures KeysMatch(r')
  {
  }

  lemma LoadKeepsConsistent(r: Registry, name: string, source: Source, origin: Origin)
    requires Consistent(r) && CanLoad(r, name, source)
    ensures Consistent(Loaded(r, name, source, origin))
  {
    var m := Module(r.nextKey, source);
    WithMeaning(r.skills, name, m);
    LoadKeepsTable(r, name, source, origin);
    LoadKeepsKeys(r, Loaded(r, name, source, origin), name, m);
  }

  lemma RemovalKeepsTable(r: Registry, name: string)
    requires TableMatches(r)
    ensures TableMatches(Removed(r, name))
  {
    var r' := Removed(r, name);
    forall key
      ensures key in r'.sysModules <==> HeldBy(r'.moduleKeys, key)
    {
      if HeldBy(r.moduleKeys, key) {
        var n :| n in r.moduleKeys && r.moduleKeys[n] == key;
        assert n != name ==> n in r'.moduleKeys && r'.moduleKeys[n] == key;
      }
    }
  }

  lemma RemovalKeepsKeys(r: Registry, r': Registry, name: string)
    requires KeysMatch(r) && OriginsMatch(r) && DiffersAt(r.skills, r'.skills, name, None)
    requires r'.moduleKeys == r.moduleKeys - {name} && r'.origins == r.origins - {name}
    ensures KeysMatch(r') && OriginsMatch(r')
    ensures (forall skill :: skill in r.skills ==> Accepts(skill.body.source)) ==>
              forall skill :: skill in r'.skills ==> Accepts(skill.body.source)
  {
  }

  lemma RemovalKeepsConsistent(r: Registry, name: string)
    requires Consistent(r)
    ensures Consistent(Removed(r, name))
  {
    var r' := Removed(r, name);
    assert DistinctNames(r'.skills) && DiffersAt(r.skills, r'.skills, name, None) by {
      WithoutMeaning(r.skills, name);
    }
    assert Loadable(r'.skills) by {
      RemovalIsLoadable(r.skills, name);
    }
    RemovalKeepsTable(r, name);
    RemovalKeepsKeys(r, r', name);
  }

  /** The next module key is new, and reloading trackers agree with the loaded skills. */
  lemma NextKeyIsFresh(r: Registry, name: string)
    requires Consistent(r)
    ensures r.nextKey !in r.sysModules
    ensures name in r.moduleKeys ==> r.moduleKeys[name] != r.nextKey
    ensures name in r.origins <==> Has(r.skills, name)
    ensures DistinctNames(r.skills) && Loadable(r.skills)
    ensures r.toolIndex == IndexOf(r.skills) && r.contracts == ContractsOf(r.skills)
  {
    if name in r.moduleKeys {
      assert HeldBy(r.moduleKeys, r.moduleKeys[name]);
    }
  }

  lemma {:induction false} ScanKeepsConsistent(r: Registry, files: seq<File>, origin: Origin)
    requires Consistent(r)
    ensures Consistent(Scanned(r, files, origin))
  {
    if files != [] {
      var before, file := Scanned(r, files[..|files| - 1], origin), files[|files| - 1];
      ScanKeepsConsistent(r, files[..|files| - 1], origin);
      if CanLoad(before, file.name, file.source) {
        LoadKeepsConsistent(before, file.name, file.source, origin);
      }
    }
  }

  lemma ReloadKeepsConsistent(r: Registry, name: string)
    requires Consistent(r)
    ensures Consistent(Reloaded(r, name))
  {
    var file := FileFor(r, name);
    if file.Some? && CanLoad(r, name, file.value.0) {
      LoadKeepsConsistent(r, name, file.value.0, file.value.1);
    }
  }

  lemma RegistrationKeepsConsistent(r: Registry, name: string, source: Source, gate: bool)
    requires Consistent(r)
    ensures Consistent(ExternalRegistered(r, name, source, gate))
  {
    if CanLoad(r, name, source) {
      LoadKeepsConsistent(r, name, source, AppSpace);
    }
  }

  lemma PerformKeepsConsistent(r: Registry, op: Operation)
    requires Consistent(r)
    ensures Consistent(Perform(r, op))
  {
    match op
    case Discover(appListing, spaceListing) =>
      ScanKeepsConsistent(r, appListing, App);
      ScanKeepsConsistent(Scanned(r, appListing, App), spaceListing, AppSpace);
    case Reload(name) => ReloadKeepsConsistent(r, name);
    case RegisterExternal(name, source, gate) => RegistrationKeepsConsistent(r, name, source, gate);
    case UnregisterExternal(name) => RemovalKeepsConsistent(r, name);
    case EditFiles(_, _) =>
  }

  lemma {:induction false} EveryRunIsConsistent(
    appFiles: map<string, Source>, spaceFiles: map<string, Source>, ops: seq<Operation>)
    ensures Consistent(PerformAll(appFiles, spaceFiles, ops))
  {
    if ops != [] {
      EveryRunIsConsistent(appFiles, spaceFiles, ops[..|ops| - 1]);
      PerformKeepsConsistent(PerformAll(appFiles, spaceFiles, ops[..|ops| - 1]), ops[|ops| - 1]);
    }
  }

  // ---------------------------------------------------------------- what that means

  /** The registries that some sequence of successful and failing discoveries, reloads,
      registrations, removals and file edits leads to. */
  ghost predicate Reachable(r: Registry) {
    exists appFiles, spaceFiles, ops :: PerformAll(appFiles, spaceFiles, ops) == r
  }

  lemma ReachableIsConsistent(r: Registry)
    requires Reachable(r)
    ensures Consistent(r)
  {
    var appFiles, spaceFiles, ops :| PerformAll(appFiles, spaceFiles, ops) == r;
    EveryRunIsConsistent(appFiles, spaceFiles, ops);
  }

  /** A tool lookup is linear search over the loaded skills, the contract table agrees, and no
      tool belongs to two skills. */
  lemma LookupIsLinearSearch(r: Registry, tool: string)
    requires Reachable(r)
    ensures var found := Search(r.skills, tool);
            && (tool in r.toolIndex <==> found.Some?) && (tool in r.contracts <==> found.Some?)
            && (found.Some? ==> r.toolIndex[tool] == found.value.name && r.contracts[tool] == found.value.body)
    ensures forall i, j :: 0 <= i < j < |r.skills| ==> !(Offers(r.skills[i], tool) && Offers(r.skills[j], tool))
  {
    ReachableIsConsistent(r);
    IndexIsSearch(r.skills, tool);
  }

  /** The module table holds the modules of the loaded skills and no others: neither a failed
      import nor a replaced module stays behind. */
  lemma NoModuleLeaks(r: Registry, key: nat)
    requires Reachable(r)
    ensures key in r.sysModules <==> exists i :: 0 <= i < |r.skills| && r.skills[i].body.key == key
  {
    ReachableIsConsistent(r);
    if key in r.sysModules {
      var name :| name in r.moduleKeys && r.moduleKeys[name] == key;
      var i :| 0 <= i < |r.skills| && r.skills[i].name == name;
      assert r.skills[i] in r.skills;
    }
    if i :| 0 <= i < |r.skills| && r.skills[i].body.key == key {
      assert r.skills[i] in r.skills;
      assert HeldBy(r.moduleKeys, key);
    }
  }

  /** What only a successful load or a removal may change. */
  predicate SameTables(a: Registry, b: Registry) {
    a.skills == b.skills && a.toolIndex == b.toolIndex && a.contracts == b.contracts
    && a.origins == b.origins && a.moduleKeys == b.moduleKeys && a.sysModules == b.sysModules
  }

  /** A skill that came from the application itself gives way only to a reload of its own name;
      it turns into an app-space skill exactly when that reload finds its file gone and a loadable
      app-space file of the same name. */
  lemma BuiltinsYieldOnlyToReload(r: Registry, op: Operation, name: string)
    requires Consistent(r) && name in r.origins && r.origins[name].App?
    ensures name in Perform(r, op).origins
    ensures Perform(r, op).origins[name].AppSpace? <==>
            && op == Reload(name) && name !in r.appFiles && name in r.spaceFiles && CanLoad(r, name, r.spaceFiles[name])
  {
    if op.Discover? {
      ScanKeepsOrigin(r, op.appListing, App, name);
      ScanKeepsConsistent(r, op.appListing, App);
      ScanKeepsOrigin(Scanned(r, op.appListing, App), op.spaceListing, AppSpace, name);
    } else {
      SingleOperationKeepsBuiltin(r, op, name);
    }
  }

  lemma ReloadOnBuiltin(r: Registry, reloaded: string, name: string)
    requires name in r.origins && r.origins[name].App?
    ensures name in Reloaded(r, reloaded).origins
    ensures Reloaded(r, reloaded).origins[name].AppSpace? <==>
            && reloaded == name && name !in r.appFiles && name in r.spaceFiles && CanLoad(r, name, r.spaceFiles[name])
  {
  }

  lemma SingleOperationKeepsBuiltin(r: Registry, op: Operation, name: string)
    requires !op.Discover? && name in r.origins && r.origins[name].App?
    ensures name in Perform(r, op).origins
    ensures Perform(r, op).origins[name].AppSpace? <==>
            && op == Reload(name) && name !in r.appFiles && name in r.spaceFiles && CanLoad(r, name, r.spaceFiles[name])
  {
    match op
    case Reload(reloaded) => ReloadOnBuiltin(r, reloaded, name);
    case RegisterExternal(_, _, _) =>
    case UnregisterExternal(_) =>
    case EditFiles(_, _) =>
  }

  lemma ScannedFileKeepsOrigin(r: Registry, file: File, origin: Origin, name: string)
    requires OriginsMatch(r) && name in r.origins
    ensures var r' := ScannedFile(r, file, origin); name in r'.origins && r'.origins[name] == r.origins[name]
  {
  }

  /** First come, first served: a scan never replaces a loaded skill. */
  lemma {:induction false} ScanKeepsOrigin(r: Registry, files: seq<File>, origin: Origin, name: string)
    requires Consistent(r) && name in r.origins
    ensures var r' := Scanned(r, files, origin); name in r'.origins && r'.origins[name] == r.origins[name]
  {
    if files != [] {
      var n := |files| - 1;
      ScanKeepsOrigin(r, files[..n], origin, name);
      ScanKeepsConsistent(r, files[..n], origin);
      ScannedFileKeepsOrigin(Scanned(r, files[..n], origin), files[n], origin, name);
    }
  }

  /** The registration gets past its gates and writes the file. */
  predicate Attempted(r: Registry, name: string, gate: bool) {
    gate && !(name in r.origins && r.origins[name].App?)
  }

  /** A registration that does not load restores everything but the file: a skill of that name
      can be found on disk afterwards exactly when the registration was never attempted and the
      file was there, or it loaded, or the application has a file of that name. */
  lemma FileSurvivesExactly(r: Registry, name: string, source: Source, gate: bool)
    requires Consistent(r)
    ensures var r' := ExternalRegistered(r, name, source, gate);
            && (FileFor(r', name).Some? <==>
                  if Attempted(r, name, gate) then CanLoad(r, name, source) || name in r.appFiles
                  else FileFor(r, name).Some?)
            && (!CanLoad(r, name, source) ==>
                  SameTables(r', r)
                  && (r'.spaceFiles == r.spaceFiles <==> !Attempted(r, name, gate) || name !in r.spaceFiles))
  {
    var r' := ExternalRegistered(r, name, source, gate);
    if Attempted(r, name, gate) && !CanLoad(r, name, source) && name !in r.spaceFiles {
      assert r.spaceFiles - {name} == r.spaceFiles;
    }
  }

  /** A reload would find a file and load it. */
  ghost predicate Reloadable(r: Registry, name: string) {
    var file := FileFor(r, name);
    file.Some? && CanLoad(r, name, file.value.0)
  }

  /** Replacing a skill by one of the same source, under another key, stays loadable. */
  lemma ReplacingIsLoadable(skills: seq<Skill>, name: string, m: Module, again: Module)
    requires DistinctNames(skills) && Loadable(With(skills, name, m)) && again.source == m.source
    ensures Loadable(With(With(skills, name, m), name, again))
  {
    var once := With(skills, name, m);
    var twice := With(once, name, again);
    WithMeaning(skills, name, m);
    WithMeaning(once, name, again);
    forall skill | skill in twice
      ensures Counterpart(once, skill)
    {
      var same := if skill == Skill(name, again) then Skill(name, m) else skill;
      var i :| 0 <= i < |once| && once[i] == same;
    }
    SelectionIsLoadable(once, twice);
  }

  lemma LoadedIsReloadable(r: Registry, name: string, source: Source)
    requires DistinctNames(r.skills) && name !in r.appFiles && CanLoad(r, name, source)
    ensures Reloadable(Loaded(r, name, source, AppSpace).(spaceFiles := r.spaceFiles[name := source]), name)
  {
    ReplacingIsLoadable(r.skills, name, Module(r.nextKey, source), Module(r.nextKey + 1, source));
  }

  lemma RejectedIsNotReloadable(r: Registry, name: string)
    requires name !in r.appFiles
    ensures !Reloadable(Rejected(r, {}).(spaceFiles := r.spaceFiles - {name}), name)
  {
  }

  /** What that means for a later reload of a name the application has no file for: after an
      attempted registration it works exactly when the registration did; otherwise the registration
      changed nothing about it. */
  lemma ReloadWorksExactly(r: Registry, name: string, source: Source, gate: bool)
    requires Consistent(r) && name !in r.appFiles
    ensures Reloadable(ExternalRegistered(r, name, source, gate), name) <==>
              if Attempted(r, name, gate) then CanLoad(r, name, source) else Reloadable(r, name)
  {
    if Attempted(r, name, gate) {
      if CanLoad(r, name, source) {
        LoadedIsReloadable(r, name, source);
      } else {
        RejectedIsNotReloadable(r, name);
      }
    }
  }

  const PLAIN: Source := Source(true, [], true, {}, true)
  const BROKEN: Source := Source(false, [], true, {}, true)

  lemma AloneIsLoadable(name: string, m: Module)
    requires m.source == PLAIN
    ensures With([], name, m) == [Skill(name, m)] && Loadable([Skill(name, m)])
    ensures With([Skill(name, m)], name, m.(key := m.key + 1)) == [Skill(name, m.(key := m.key + 1))]
    ensures Loadable([Skill(name, m.(key := m.key + 1))])
  {
  }

  /** A registry in which that happened: registered, then updated with a file that does not import.
      The skill is still loaded, but no reload finds it any more. */
  lemma StrandedSkill() returns (r: Registry)
    ensures Reachable(r) && Has(r.skills, "notes")
    ensures "notes" in r.origins && r.origins["notes"] == AppSpace
    ensures FileFor(r, "notes").None? && Reloaded(r, "notes") == r
  {
    var good, bad := RegisterExternal("notes", PLAIN, true), RegisterExternal("notes", BROKEN, true);
    var first := Perform(Empty(map[], map[]), good);
    r := Perform(first, bad);
    AloneIsLoadable("notes", Module(0, PLAIN));
    assert first.skills[0].name == "notes";
    ReachedInTwo(map[], map[], good, bad);
  }

  lemma ReachedInTwo(appFiles: map<string, Source>, spaceFiles: map<string, Source>, a: Operation, b: Operation)
    ensures Reachable(Perform(Perform(Empty(appFiles, spaceFiles), a), b))
  {
    assert PerformAll(appFiles, spaceFiles, []) == Empty(appFiles, spaceFiles);
    ReachedThen(Empty(appFiles, spaceFiles), a);
    ReachedThen(Perform(Empty(appFiles, spaceFiles), a), b);
  }

  lemma ReachedThen(r: Registry, op: Operation)
    requires Reachable(r)
    ensures Reachable(Perform(r, op))
  {
    var appFiles, spaceFiles, ops :| PerformAll(appFiles, spaceFiles, ops) == r;
    assert (ops + [op])[..|ops|] == ops;
    assert PerformAll(appFiles, spaceFiles, ops + [op]) == Perform(r, op);
  }

  /** A registry in which a built-in skill has turned into an app-space one: its own file is gone,
      an app-space file of its name is there, and somebody reloads it. */
  lemma BuiltinReplaced() returns (before: Registry, after: Registry)
    ensures Reachable(before) && Reachable(after) && after == Perform(before, Reload("notes"))
    ensures "notes" in before.origins && before.origins["notes"] == App
    ensures "notes" in after.origins && after.origins["notes"] == AppSpace
  {
    var scan := Discover([File("notes", PLAIN)], []);
    var edit := EditFiles(map[], map["notes" := PLAIN]);
    AloneIsLoadable("notes", Module(0, PLAIN));
    var start := Empty(map["notes" := PLAIN], map[]);
    ScanOfOne(start, File("notes", PLAIN));
    before := Perform(Perform(start, scan), edit);
    ReachedInTwo(map["notes" := PLAIN], map[], scan, edit);
    after := Perform(before, Reload("notes"));
    ReachedThen(before, Reload("notes"));
  }

  lemma ScanOfOne(r: Registry, file: File)
    ensures Perform(r, Discover([file], [])) == ScannedFile(r, file, App)
  {
    assert [file][..0] == [];
    assert Scanned(r, [file][..0], App) == r;
    assert Scanned(r, [file], App) == ScannedFile(r, file, App);
  }

  /** Two lists with the same names and sources, in any order, have the same index. */
  lemma IndexIgnoresOrder(a: seq<Skill>, b: seq<Skill>, tool: string)
    requires NoConflict(a)
    requires forall skill :: skill in b ==> Counterpart(a, skill)
    requires forall skill :: skill in a ==> Counterpart(b, skill)
    ensures tool in IndexOf(a) <==> tool in IndexOf(b)
    ensures tool in IndexOf(a) ==> IndexOf(a)[tool] == IndexOf(b)[tool]
  {
    IndexMeaning(a, tool);
    IndexMeaning(b, tool);
    if tool in IndexOf(b) {
      var j :| 0 <= j < |b| && Offers(b[j], tool) && IndexOf(b)[tool] == b[j].name;
      assert b[j] in b;
      var k :| 0 <= k < |a| && a[k].name == b[j].name && a[k].body.source == b[j].body.source;
      assert Offers(a[k], tool);
      var i :| 0 <= i < |a| && Offers(a[i], tool) && IndexOf(a)[tool] == a[i].name;
      assert i == k;
    }
    if tool in IndexOf(a) {
      var i :| 0 <= i < |a| && Offers(a[i], tool);
      assert a[i] in a;
      var j :| 0 <= j < |b| && b[j].name == a[i].name && b[j].body.source == a[i].body.source;
      assert Offers(b[j], tool);
    }
  }

  /** Removing a skill and putting it back under a new key leaves the same names and sources. */
  lemma ReAddedHasCounterparts(skills: seq<Skill>, name: string, previous: Module, m: Module)
    requires DistinctNames(skills) && Skill(name, previous) in skills && m.source == previous.source
    ensures var skills' := With(Without(skills, name), name, m);
            && DistinctNames(skills')
            && (forall skill :: skill in skills' ==> Counterpart(skills, skill))
            && (forall skill :: skill in skills ==> Counterpart(skills', skill))
  {
    var skills' := With(Without(skills, name), name, m);
    WithoutMeaning(skills, name);
    WithMeaning(Without(skills, name), name, m);
    var at :| 0 <= at < |skills| && skills[at] == Skill(name, previous);
    forall skill | skill in skills'
      ensures Counterpart(skills, skill)
    {
      if skill.name == name {
        assert skills[at].name == name;
      } else {
        var i :| 0 <= i < |skills| && skills[i] == skill;
      }
    }
    forall skill | skill in skills
      ensures Counterpart(skills', skill)
    {
      if skill.name == name {
        var i :| 0 <= i < |skills'| && skills'[i] == Skill(name, m);
        var k :| 0 <= k < |skills| && skills[k] == skill;
        assert k == at;
      } else {
        var i :| 0 <= i < |skills'| && skills'[i] == skill;
      }
    }
  }

  /** Round trip: unregistering an app-space skill keeps its file, and a reload brings every tool
      lookup back to what it was. */
  lemma ReloadUndoesRemoval(r: Registry, name: string, m: Module, tool: string, r': Registry)
    requires Consistent(r) && Skill(name, m) in r.skills
    requires name in r.origins && r.origins[name].AppSpace?
    requires name !in r.appFiles && name in r.spaceFiles && r.spaceFiles[name] == m.source
    requires r' == Reloaded(ExternalUnregistered(r, name), name)
    ensures tool in r'.toolIndex <==> tool in r.toolIndex
    ensures tool in r.toolIndex ==> r'.toolIndex[tool] == r.toolIndex[tool]
    ensures name in r'.origins && r'.origins[name].AppSpace?
  {
    assert Has(r.skills, name);
    var gone := Removed(r, name);
    var again := Module(r.nextKey, m.source);
    var skills' := With(Without(r.skills, name), name, again);
    ReAddedHasCounterparts(r.skills, name, m, again);
    SelectionIsLoadable(r.skills, skills');
    assert CanLoad(gone, name, m.source);
    IndexIgnoresOrder(r.skills, skills', tool);
  }

  /** Loading one more skill keeps the list loadable exactly when none of its tools is indexed
      already and all its contracts resolve. */
  lemma LoadableExtends(skills: seq<Skill>, skill: Skill)
    requires Loadable(skills)
    ensures Loadable(skills + [skill]) <==>
            Resolves(skill) && forall tool :: Offers(skill, tool) ==> tool !in IndexOf(skills)
  {
    var skills' := skills + [skill];
    var n := |skills|;
    assert forall i :: 0 <= i < n ==> skills'[i] == skills[i];
    assert skills'[n] == skill;
    forall tool
      ensures Offers(skill, tool) && tool in IndexOf(skills) ==> !NoConflict(skills')
    {
      IndexMeaning(skills, tool);
      if Offers(skill, tool) && tool in IndexOf(skills) {
        var i :| 0 <= i < n && Offers(skills[i], tool);
        assert Offers(skills'[i], tool) && Offers(skills'[n], tool);
      }
    }
    if Resolves(skill) && forall tool :: Offers(skill, tool) ==> tool !in IndexOf(skills) {
      forall i, j, tool | 0 <= i < j <= n && Offers(skills'[i], tool)
        ensures !Offers(skills'[j], tool)
      {
        IndexMeaning(skills, tool);
        assert Offers(skills[i], tool);
      }
    }
  }
}

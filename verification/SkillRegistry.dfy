/** The registry that updates its tables in place and rolls them back when a load fails. */
module Registries {
  import opened Common
  import opened Skills

  class SkillRegistry {
    var skills: seq<Skill>
    var toolIndex: map<string, string>
    var contracts: map<string, Module>
    var origins: map<string, Origin>
    var errors: set<string>
    var moduleKeys: map<string, nat>
    var sysModules: set<nat>
    var nextKey: nat
    var appFiles: map<string, Source>
    var spaceFiles: map<string, Source>

    function Snapshot(): Registry
      reads this
    {
      Registry(skills, toolIndex, contracts, origins, errors, moduleKeys, sysModules, nextKey, appFiles, spaceFiles)
    }

    ghost predicate Valid()
      reads this
    {
      Consistent(Snapshot())
    }

    /** What a rebuild relies on and restores. */
    ghost predicate Settled()
      reads this
    {
      DistinctNames(skills) && Loadable(skills) && toolIndex == IndexOf(skills) && contracts == ContractsOf(skills)
    }

    constructor (appFiles: map<string, Source>, spaceFiles: map<string, Source>)
      ensures Snapshot() == Empty(appFiles, spaceFiles) && Valid()
    {
      skills, toolIndex, contracts, origins := [], map[], map[], map[];
      errors, moduleKeys, sysModules, nextKey := {}, map[], {}, 0;
      this.appFiles, this.spaceFiles := appFiles, spaceFiles;
    }

    /** One skill's tools added to tables under construction; fails on a tool of another skill or
        an unresolvable contract. */
    static method AddTools(index: map<string, string>, contracts: map<string, Module>, skill: Skill)
      returns (ok: bool, index': map<string, string>, contracts': map<string, Module>)
      requires forall tool :: tool in index ==> index[tool] != skill.name
      ensures ok <==> Resolves(skill) && forall tool :: Offers(skill, tool) ==> tool !in index
      ensures ok ==> index' == Enter(index, skill.body.source.tools, skill.name)
      ensures ok ==> contracts' == Enter(contracts, skill.body.source.tools, skill.body)
    {
      index', contracts' := index, contracts;
      var tools := skill.body.source.tools;
      for i := 0 to |tools|
        invariant forall k :: 0 <= k < i && tools[k] != "" ==>
                    tools[k] !in index && tools[k] !in skill.body.source.badContracts
        invariant index' == Enter(index, tools[..i], skill.name)
        invariant contracts' == Enter(contracts, tools[..i], skill.body)
      {
        var tool := tools[i];
        assert tools[..i + 1][..i] == tools[..i];
        if tool != "" {
          EnterMeaning(index, tools[..i], skill.name, tool);
          if tool in index' && index'[tool] != skill.name {
            assert Offers(skill, tool) && tool in index;
            return false, index', contracts';
          }
          if tool in skill.body.source.badContracts {
            assert !Resolves(skill);
            return false, index', contracts';
          }
          index', contracts' := index'[tool := skill.name], contracts'[tool := skill.body];
        }
      }
      assert tools[..|tools|] == tools;
      ok := true;
    }

    /** The tables are swapped in only when every skill went through. */
    method RebuildToolIndex() returns (ok: bool)
      requires DistinctNames(skills)
      modifies this`toolIndex, this`contracts
      ensures ok <==> Loadable(skills)
      ensures ok ==> toolIndex == IndexOf(skills) && contracts == ContractsOf(skills)
      ensures !ok ==> toolIndex == old(toolIndex) && contracts == old(contracts)
    {
      var index: map<string, string>, found: map<string, Module> := map[], map[];
      for i := 0 to |skills|
        invariant Loadable(skills[..i])
        invariant index == IndexOf(skills[..i]) && found == ContractsOf(skills[..i])
        invariant toolIndex == old(toolIndex) && contracts == old(contracts)
      {
        NamesInIndex(skills, i);
        PrefixMustBeLoadable(skills, i + 1);
        LoadableExtends(skills[..i], skills[i]);
        assert skills[..i + 1] == skills[..i] + [skills[i]];
        ok, index, found := AddTools(index, found, skills[i]);
        if !ok {
          return false;
        }
      }
      assert skills[..|skills|] == skills;
      toolIndex, contracts, ok := index, found, true;
    }

    /** Puts the dictionary back after a failed registration and rebuilds the tables from it. */
    method UndoRegistration(name: string, m: Module, replaced: Option<Module>, ghost before: seq<Skill>)
      requires DistinctNames(before) && Loadable(before) && skills == With(before, name, m)
      requires match replaced case None => !Has(before, name) case Some(o) => Skill(name, o) in before
      modifies this`skills, this`toolIndex, this`contracts
      ensures skills == before && toolIndex == IndexOf(before) && contracts == ContractsOf(before)
    {
      RegistrationUndone(before, name, m, if replaced.Some? then replaced.value else m);
      if replaced.None? {
        skills := Without(skills, name);
      } else {
        skills := With(skills, name, replaced.value);
      }
      var restored := RebuildToolIndex();
      assert restored;
    }

    /** Registers an imported module under a name; when the rebuild or the descriptor fails, the
        dictionary, its order and both tables are back as they were and the module is discarded. */
    method RegisterModule(name: string, m: Module) returns (ok: bool)
      requires Settled()
      modifies this`skills, this`toolIndex, this`contracts, this`sysModules, this`moduleKeys, this`errors
      ensures ok <==> Loadable(With(old(skills), name, m)) && m.source.descriptorOk
      ensures skills == if ok then With(old(skills), name, m) else old(skills)
      ensures toolIndex == IndexOf(skills) && contracts == ContractsOf(skills)
      ensures moduleKeys == if ok then old(moduleKeys)[name := m.key] else old(moduleKeys)
      ensures errors == if ok then old(errors) - {name} else old(errors)
      ensures sysModules == old(sysModules)
                            - if !ok then {m.key}
                              else if name in old(moduleKeys) && old(moduleKeys)[name] != m.key
                              then {old(moduleKeys)[name]}
                              else {}
    {
      ghost var before := skills;
      var i := Position(skills, name);
      var replaced := if i < |skills| then Some(skills[i].body) else None;
      assert i < |skills| ==> skills[i] in skills;
      WithKeepsNamesDistinct(skills, name, m);
      skills := With(skills, name, m);
      ok := RebuildToolIndex();
      if !ok || !m.source.descriptorOk {
        UndoRegistration(name, m, replaced, before);
        sysModules := sysModules - {m.key};
        return false;
      }
      KeepModule(name, m.key);
    }

    /** Notes the module of a registered skill and discards the one it replaces. */
    method KeepModule(name: string, key: nat)
      modifies this`sysModules, this`moduleKeys, this`errors
      ensures moduleKeys == old(moduleKeys)[name := key] && errors == old(errors) - {name}
      ensures sysModules == old(sysModules) - if name in old(moduleKeys) && old(moduleKeys)[name] != key
                                              then {old(moduleKeys)[name]} else {}
    {
      if name in moduleKeys && moduleKeys[name] != key {
        sysModules := sysModules - {moduleKeys[name]};
      }
      moduleKeys := moduleKeys[name := key];
      errors := errors - {name};
    }

    /** Imports a file under a fresh key, validates and registers it. */
    method LoadFile(name: string, source: Source) returns (ok: bool)
      requires Settled() && nextKey !in sysModules && (name in moduleKeys ==> moduleKeys[name] != nextKey)
      modifies this`skills, this`toolIndex, this`contracts, this`sysModules, this`moduleKeys, this`errors, this`nextKey
      ensures ok <==> CanLoad(old(Snapshot()), name, source)
      ensures ok ==> forall origin :: Snapshot().(origins := old(origins)[name := origin])
                                      == Loaded(old(Snapshot()), name, source, origin)
      ensures !ok ==> Snapshot() == Rejected(old(Snapshot()), {})
    {
      var key := nextKey;
      nextKey := key + 1;
      if !source.importable {
        return false;
      }
      sysModules := sysModules + {key};
      if !source.wellFormed {
        sysModules := sysModules - {key};
        return false;
      }
      ok := RegisterModule(name, Module(key, source));
    }

    /** A load, and the origin it gives the skill when it succeeds. */
    method LoadAs(name: string, source: Source, origin: Origin) returns (ok: bool)
      requires Valid()
      modifies this
      ensures ok <==> CanLoad(old(Snapshot()), name, source)
      ensures Snapshot() == if ok then Loaded(old(Snapshot()), name, source, origin) else Rejected(old(Snapshot()), {})
    {
      NextKeyIsFresh(Snapshot(), name);
      ok := LoadFile(name, source);
      if ok {
        origins := origins[name := origin];
      }
    }

    /** First come, first served; a file that fails to load costs only itself. */
    method ScanFile(file: File, origin: Origin)
      requires Valid()
      modifies this
      ensures Snapshot() == ScannedFile(old(Snapshot()), file, origin)
    {
      if Has(skills, file.name) {
        return;
      }
      var ok := LoadAs(file.name, file.source, origin);
      if !ok {
        errors := errors + {file.name};
      }
    }

    method ScanDir(files: seq<File>, origin: Origin)
      requires Valid()
      modifies this
      ensures Valid() && Snapshot() == Scanned(old(Snapshot()), files, origin)
    {
      for i := 0 to |files|
        invariant Snapshot() == Scanned(old(Snapshot()), files[..i], origin)
      {
        assert files[..i + 1][..i] == files[..i];
        ScanKeepsConsistent(old(Snapshot()), files[..i], origin);
        ScanFile(files[i], origin);
      }
      assert files[..|files|] == files;
      ScanKeepsConsistent(old(Snapshot()), files, origin);
    }

    method Discover(appListing: seq<File>, spaceListing: seq<File>)
      requires Valid()
      modifies this
      ensures Valid()
      ensures Snapshot() == Scanned(Scanned(old(Snapshot()), appListing, App), spaceListing, AppSpace)
    {
      ScanDir(appListing, App);
      ScanDir(spaceListing, AppSpace);
    }

    method ReloadSkill(name: string) returns (ok: bool)
      requires Valid()
      modifies this
      ensures Valid() && Snapshot() == Reloaded(old(Snapshot()), name)
      ensures ok <==> Reloadable(old(Snapshot()), name)
    {
      var file := FileFor(Snapshot(), name);
      if file.None? {
        return false;
      }
      var (source, origin) := file.value;
      ok := ReloadFrom(name, source, origin);
      ReloadKeepsConsistent(old(Snapshot()), name);
    }

    /** After a failed reload the old module, its origin and both tables are put back once more;
        the branch that would empty the index is proved unreachable. */
    method ReloadFrom(name: string, source: Source, origin: Origin) returns (ok: bool)
      requires Valid()
      modifies this
      ensures ok <==> CanLoad(old(Snapshot()), name, source)
      ensures Snapshot() == if ok then Loaded(old(Snapshot()), name, source, origin)
                            else Rejected(old(Snapshot()), {name})
    {
      NextKeyIsFresh(Snapshot(), name);
      ok := LoadAs(name, source, origin);
      if !ok {
        errors := errors + {name};
        var rebuilt := RestoreAfterFailure(name);
        assert rebuilt;
      }
    }


    /** The recovery part of a reload: the origin of an unloaded skill is dropped and the tables
        are rebuilt, which in a valid registry changes nothing and always succeeds. */
    method RestoreAfterFailure(name: string) returns (rebuilt: bool)
      requires Settled() && (name in origins ==> Has(skills, name))
      modifies this`origins, this`toolIndex, this`contracts
      ensures rebuilt && Snapshot() == old(Snapshot())
    {
      if !Has(skills, name) {
        origins := origins - {name};
      }
      rebuilt := RebuildToolIndex();
    }

    /** The fast lane: the file is written first and deleted again when it does not load. */
    method RegisterExternalSkill(name: string, source: Source, gate: bool) returns (ok: bool)
      requires Valid()
      modifies this
      ensures Valid() && Snapshot() == ExternalRegistered(old(Snapshot()), name, source, gate)
      ensures ok <==> Attempted(old(Snapshot()), name, gate) && CanLoad(old(Snapshot()), name, source)
    {
      if name in origins && origins[name].App? {
        return false;
      }
      if !gate {
        return false;
      }
      ok := LoadAs(name, source, AppSpace);
      spaceFiles := if ok then spaceFiles[name := source] else spaceFiles - {name};
      RegistrationKeepsConsistent(old(Snapshot()), name, source, gate);
    }

    /** The rebuild after a removal cannot fail, so its fallback never empties the index. */
    method UnregisterExternalSkill(name: string) returns (ok: bool)
      requires Valid()
      modifies this
      ensures Valid() && Snapshot() == ExternalUnregistered(old(Snapshot()), name)
      ensures ok <==> Has(old(skills), name) && name in old(origins) && old(origins)[name].AppSpace?
    {
      if !Has(skills, name) || !(name in origins && origins[name].AppSpace?) {
        return false;
      }
      RemovalKeepsConsistent(Snapshot(), name);
      RemovalIsLoadable(skills, name);
      Remove(name);
      ok := true;
    }

    method Remove(name: string)
      requires DistinctNames(Without(skills, name)) && Loadable(Without(skills, name))
      modifies this
      ensures Snapshot() == Removed(old(Snapshot()), name)
    {
      ghost var rest := Without(skills, name);
      skills := Without(skills, name);
      origins := origins - {name};
      errors := errors - {name};
      Untrack(name);
      RebuildLoadable(rest);
    }

    /** A rebuild that cannot fail. */
    method RebuildLoadable(ghost loaded: seq<Skill>)
      requires skills == loaded && DistinctNames(loaded) && Loadable(loaded)
      modifies this`toolIndex, this`contracts
      ensures toolIndex == IndexOf(loaded) && contracts == ContractsOf(loaded)
    {
      var rebuilt := RebuildToolIndex();
      assert rebuilt;
    }

    method Untrack(name: string)
      modifies this`moduleKeys, this`sysModules
      ensures moduleKeys == old(moduleKeys) - {name}
      ensures sysModules == old(sysModules) - KeyOf(old(Snapshot()), name)
    {
      if name in moduleKeys {
        sysModules := sysModules - {moduleKeys[name]};
      }
      moduleKeys := moduleKeys - {name};
    }
  }

  /** The index of a prefix never names a later skill. */
  lemma NamesInIndex(skills: seq<Skill>, i: nat)
    requires i < |skills| && DistinctNames(skills)
    ensures forall tool :: tool in IndexOf(skills[..i]) ==> IndexOf(skills[..i])[tool] != skills[i].name
  {
    forall tool | tool in IndexOf(skills[..i])
      ensures IndexOf(skills[..i])[tool] != skills[i].name
    {
      IndexMeaning(skills[..i], tool);
    }
  }

  lemma PrefixMustBeLoadable(skills: seq<Skill>, i: nat)
    requires i <= |skills|
    ensures Loadable(skills) ==> Loadable(skills[..i])
  {
  }
}

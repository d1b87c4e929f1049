/** core/path_manager.go: which paths survive a configuration reload, and under which configuration. */
module PathReload {
  import opened Wrappers
  import opened PathConf
  import PathState

  // pathConfCanBeUpdated: the clone of the old configuration takes every hot field of the new one.
  predicate CanBeUpdated(old_: Conf, new_: Conf) {
    new_ == old_.(name := new_.name, regexp := new_.regexp, record := new_.record, camera := new_.camera)
  }

  lemma CanBeUpdatedIsAnEquivalence(a: Conf, b: Conf, c: Conf)
    ensures CanBeUpdated(a, b) <==> a.cold == b.cold
    ensures CanBeUpdated(a, a)
    ensures CanBeUpdated(a, b) ==> CanBeUpdated(b, a)
    ensures CanBeUpdated(a, b) && CanBeUpdated(b, c) ==> CanBeUpdated(a, c)
  {
  }

  // The reload is one that the state machine of a path allows.
  lemma UpdateIsEnabled(path: PathState.State, a: Conf, b: Conf)
    requires path.conf == a.Actor() && CanBeUpdated(a, b) && b.Actor().Valid()
    ensures path.Enabled(PathState.ReloadConf(b.Actor()))
  {
  }

  // A path of the manager's map: the manager's part, the path's own configuration, and the
  // configurations that reloadConf goroutines are still trying to hand over.
  datatype Path = Path(id: nat, confName: string, conf: Conf, reloads: multiset<Conf>)

  // The path's configuration, present and future, differs from the manager's in hot fields only.
  ghost predicate InSync(pa: Path, conf: Conf) {
    && pa.conf.cold == conf.cold
    && forall c :: c in pa.reloads ==> c.cold == conf.cold
  }

  ghost predicate PathOk(env: Env, confs: map<string, Conf>, name: string, pa: Path) {
    && pa.confName in confs
    && IsLookup(env, confs, name, Found(confs[pa.confName]))
    && InSync(pa, confs[pa.confName])
  }

  // The first loop of doReloadConf puts k into its set of configurations to recreate, or to reload.
  ghost predicate Changed(confs: map<string, Conf>, newConfs: map<string, Conf>, k: string, updatable: bool) {
    k in confs && k in newConfs && newConfs[k] != confs[k] && CanBeUpdated(confs[k], newConfs[k]) == updatable
  }

  // What becomes of a path when newConfs replaces confs: it is closed only if it cannot take the
  // configuration that it now resolves to; otherwise it stays itself and is sent that configuration,
  // unless it is the one it had.
  ghost predicate Updated(env: Env, confs: map<string, Conf>, newConfs: map<string, Conf>, name: string,
      was: Path, now: Option<Path>)
    requires was.confName in confs
  {
    match now
    case None =>
      exists r :: IsLookup(env, newConfs, name, r) && (r.Found? ==> !CanBeUpdated(confs[was.confName], r.conf))
    case Some(pa) =>
      && pa.confName in newConfs
      && IsLookup(env, newConfs, name, Found(newConfs[pa.confName]))
      && CanBeUpdated(confs[was.confName], newConfs[pa.confName])
      && pa == was.(confName := pa.confName,
                    reloads := if newConfs[pa.confName] == confs[was.confName] then was.reloads
                               else was.reloads + multiset{newConfs[pa.confName]})
  }

  function Entry(paths: map<string, Path>, name: string): Option<Path> {
    if name in paths then Some(paths[name]) else None
  }

  lemma UpdatedIsOk(env: Env, confs: map<string, Conf>, newConfs: map<string, Conf>, name: string, was: Path, now: Path)
    requires PathOk(env, confs, name, was) && Updated(env, confs, newConfs, name, was, Some(now))
    ensures PathOk(env, newConfs, name, now) && now.id == was.id && now.conf == was.conf
  {
  }

  // A path lives on if and only if its name resolves to a configuration with the same cold fields as the one it had,
  // whatever the name of that configuration, as long as the two catch-all aliases do not compete for it.
  lemma PathSurvivesExactly(env: Env, confs: map<string, Conf>, newConfs: map<string, Conf>, name: string,
      was: Path, now: Option<Path>)
    requires WellNamed(newConfs) && !Ambiguous(env, newConfs, name)
    requires was.confName in confs && Updated(env, confs, newConfs, name, was, now)
    ensures now.Some? <==>
              exists k :: k in newConfs && IsLookup(env, newConfs, name, Found(newConfs[k]))
                          && newConfs[k].cold == confs[was.confName].cold
  {
    hide IsLookup, Ambiguous;
    ChoiceIsUniqueExactly(env, newConfs, name);
  }

  // A reloadConf goroutine meets the path.
  function Delivered(pa: Path, conf: Conf): Path {
    pa.(conf := conf, reloads := pa.reloads - multiset{conf})
  }

  // The path has the configuration that it is filed under, and no other is on its way.
  ghost predicate IsCurrent(confs: map<string, Conf>, pa: Path) {
    pa.confName in confs && pa.conf == confs[pa.confName] && pa.reloads == multiset{}
  }

  // A reload of a path that had its configuration brings it the new one, in one delivery if that is another one.
  lemma ReloadReachesThePath(env: Env, confs: map<string, Conf>, newConfs: map<string, Conf>, name: string,
      was: Path, now: Path)
    requires IsCurrent(confs, was) && Updated(env, confs, newConfs, name, was, Some(now))
    ensures var conf := newConfs[now.confName];
            if conf == was.conf then IsCurrent(newConfs, now)
            else now.reloads == multiset{conf} && IsCurrent(newConfs, Delivered(now, conf))
  {
  }

  // Two reloads in a row: nothing keeps the goroutine of the first one from coming last. The path then has the
  // configuration it is filed under if and only if that of the second reload is the last one to be delivered.
  lemma TwoReloadsReachThePathExactly(env: Env, confs: map<string, Conf>, first: map<string, Conf>,
      second: map<string, Conf>, name: string, was: Path, once: Path, twice: Path, c: Conf, d: Conf)
    requires IsCurrent(confs, was)
    requires Updated(env, confs, first, name, was, Some(once)) && Updated(env, first, second, name, once, Some(twice))
    requires first[once.confName] != was.conf && second[twice.confName] != first[once.confName]
    requires c in twice.reloads && d in Delivered(twice, c).reloads
    ensures Delivered(Delivered(twice, c), d).reloads == multiset{}
    ensures IsCurrent(second, Delivered(Delivered(twice, c), d)) <==> d == second[twice.confName]
    ensures (c == first[once.confName] && d == second[twice.confName])
         || (c == second[twice.confName] && d == first[once.confName])
  {
    assert twice.reloads == multiset{first[once.confName], second[twice.confName]};
  }

  class PathManager {
    const env: Env
    var pathConfs: map<string, Conf>
    var paths: map<string, Path>
    var nextId: nat
    ghost var coldOf: map<nat, Cold> // the cold fields each path was created with

    ghost predicate Valid()
      reads this
    {
      && WellNamed(pathConfs)
      && (forall n :: n in paths ==> PathOk(env, pathConfs, n, paths[n]))
      && (forall n :: n in paths ==> paths[n].id in coldOf && coldOf[paths[n].id] == paths[n].conf.cold)
      && (forall i :: i in coldOf ==> i < nextId)
    }

    // Paths may come and go; each that was ever created keeps its identity and its cold fields.
    twostate predicate Stable()
      reads this
    {
      && old(nextId) <= nextId
      && (forall i :: i in old(coldOf) ==> i in coldOf && coldOf[i] == old(coldOf)[i])
      && (forall n :: n in paths && paths[n].id < old(nextId) ==> n in old(paths) && old(paths)[n].id == paths[n].id)
    }

    constructor (env: Env)
      ensures Valid() && paths == map[] && pathConfs == map[]
    {
      this.env := env;
      pathConfs, paths, nextId, coldOf := map[], map[], 0, map[];
    }

    method CreatePath(conf: Conf, name: string)
      requires Valid() && name !in paths
      requires conf.name in pathConfs && pathConfs[conf.name] == conf && IsLookup(env, pathConfs, name, Found(conf))
      modifies this`paths, this`nextId, this`coldOf
      ensures Valid() && Stable()
      ensures paths == old(paths)[name := Path(old(nextId), conf.name, conf, multiset{})]
    {
      paths := paths[name := Path(nextId, conf.name, conf, multiset{})];
      coldOf := coldOf[nextId := conf.cold];
      nextId := nextId + 1;
    }

    // A reloadConf goroutine meets the path; these goroutines run in any order.
    method DeliverReload(name: string, conf: Conf)
      requires Valid() && name in paths && conf in paths[name].reloads
      modifies this`paths
      ensures Valid() && Stable()
      ensures paths == old(paths)[name := Delivered(old(paths)[name], conf)]
      ensures CanBeUpdated(old(paths)[name].conf, paths[name].conf)
    {
      var pa := paths[name];
      paths := paths[name := pa.(conf := conf, reloads := pa.reloads - multiset{conf})];
      assert forall c :: c in paths[name].reloads ==> c in pa.reloads;
    }

    // The arm of chRemovePath: a path that ends deletes its own entry and no other path's.
    method RemovePath(name: string, id: nat)
      requires Valid()
      modifies this`paths
      ensures Valid() && Stable()
      ensures forall n :: n in paths <==> n in old(paths) && (n == name ==> old(paths)[n].id != id)
      ensures forall n :: n in paths ==> paths[n] == old(paths)[n]
    {
      hide PathOk;
      if name in paths && paths[name].id == id {
        paths := paths - {name};
      }
    }

    // The first loop: compare the configurations that keep their name.
    method Compare(newPaths: map<string, Conf>) returns (toRecreate: set<string>, toReload: set<string>)
      ensures forall k :: k in toRecreate <==> Changed(pathConfs, newPaths, k, false)
      ensures forall k :: k in toReload <==> Changed(pathConfs, newPaths, k, true)
    {
      toRecreate, toReload := {}, {};
      var left := pathConfs.Keys;
      while left != {}
        invariant left <= pathConfs.Keys
        invariant forall k :: k in toRecreate <==> k !in left && Changed(pathConfs, newPaths, k, false)
        invariant forall k :: k in toReload <==> k !in left && Changed(pathConfs, newPaths, k, true)
        decreases left
      {
        var k :| k in left;
        left := left - {k};
        if k in newPaths {
          if newPaths[k] != pathConfs[k] {
            if CanBeUpdated(pathConfs[k], newPaths[k]) {
              toReload := toReload + {k};
            } else {
              toRecreate := toRecreate + {k};
            }
          }
        }
      }
    }

    // The body of the second loop; None: doClosePath.
    method UpdatePath(newPaths: map<string, Conf>, toRecreate: set<string>, toReload: set<string>,
        name: string, pa: Path)
      returns (now: Option<Path>)
      requires WellNamed(pathConfs) && WellNamed(newPaths) && PathOk(env, pathConfs, name, pa)
      requires forall k :: k in toRecreate <==> Changed(pathConfs, newPaths, k, false)
      requires forall k :: k in toReload <==> Changed(pathConfs, newPaths, k, true)
      ensures Updated(env, pathConfs, newPaths, name, pa, now)
    {
      var found := FindPathConf(env, newPaths, name);
      if !found.Found? {
        return None;
      }
      var newConf := found.conf;
      assert newConf.name in newPaths && newPaths[newConf.name] == newConf;
      hide IsLookup;
      if newConf.name != pa.confName {
        if CanBeUpdated(pathConfs[pa.confName], newConf) {
          return Some(pa.(confName := newConf.name, reloads := pa.reloads + multiset{newConf}));
        }
        return None;
      }
      if newConf.name in toRecreate {
        return None;
      }
      if newConf.name in toReload {
        return Some(pa.(reloads := pa.reloads + multiset{newConf}));
      }
      return Some(pa);
    }

    ghost predicate Processed(newPaths: map<string, Conf>, was: map<string, Path>, n: string, now: Option<Path>)
      requires n in was && was[n].confName in pathConfs
      reads this`pathConfs
    {
      Updated(env, pathConfs, newPaths, n, was[n], now)
    }

    // The second loop: close, rename or reload every existing path.
    method UpdatePaths(newPaths: map<string, Conf>, toRecreate: set<string>, toReload: set<string>)
      requires Valid() && WellNamed(newPaths)
      requires forall k :: k in toRecreate <==> Changed(pathConfs, newPaths, k, false)
      requires forall k :: k in toReload <==> Changed(pathConfs, newPaths, k, true)
      modifies this`paths
      ensures paths.Keys <= old(paths).Keys
      ensures forall n :: n in old(paths) ==> Processed(newPaths, old(paths), n, Entry(paths, n))
    {
      hide Updated, Changed, PathOk, WellNamed;
      NamesOk();
      var left := paths.Keys;
      while left != {}
        invariant left <= paths.Keys <= old(paths).Keys
        invariant forall n :: n in left ==> paths[n] == old(paths)[n]
        invariant forall n :: n in old(paths) && n !in left ==> Processed(newPaths, old(paths), n, Entry(paths, n))
        decreases left
      {
        var n :| n in left;
        left := left - {n};
        var now := UpdatePath(newPaths, toRecreate, toReload, n, paths[n]);
        ghost var before := paths;
        match now {
          case None => paths := paths - {n};
          case Some(pa) => paths := paths[n := pa];
        }
        assert Entry(paths, n) == now;
        assert forall m :: m != n ==> Entry(paths, m) == Entry(before, m);
        hide Entry, Processed;
      }
    }

    // The third loop: every configuration without a regular expression gets its path.
    method CreateStaticPaths()
      requires Valid()
      modifies this`paths, this`nextId, this`coldOf
      ensures Valid() && Stable()
      ensures forall k :: k in pathConfs && pathConfs[k].regexp.None? ==> k in paths
      ensures forall n :: n in old(paths) ==> n in paths && paths[n] == old(paths)[n]
      ensures forall n :: n in paths && n !in old(paths) ==> paths[n].id >= old(nextId)
    {
      hide PathOk;
      var left := pathConfs.Keys;
      while left != {}
        invariant left <= pathConfs.Keys && Valid() && Stable()
        invariant forall n :: n in old(paths) ==> n in paths && paths[n] == old(paths)[n]
        invariant forall n :: n in paths && n !in old(paths) ==> paths[n].id >= old(nextId)
        invariant forall k :: k in pathConfs && k !in left && pathConfs[k].regexp.None? ==> k in paths
        decreases left
      {
        var k :| k in left;
        left := left - {k};
        if pathConfs[k].regexp.None? {
          if k !in paths {
            CreatePath(pathConfs[k], k);
          }
        }
      }
    }

    // What the first two loops do together.
    method ProcessPaths(newPaths: map<string, Conf>)
      requires Valid() && WellNamed(newPaths)
      modifies this`paths
      ensures paths.Keys <= old(paths).Keys
      ensures forall n :: n in old(paths) ==> Processed(newPaths, old(paths), n, Entry(paths, n))
      ensures forall n :: n in paths ==>
                PathOk(env, newPaths, n, paths[n])
                && paths[n].id == old(paths)[n].id && paths[n].conf == old(paths)[n].conf
    {
      hide Updated, Changed, PathOk, WellNamed;
      NamesOk();
      ghost var oldPaths := paths;
      var toRecreate, toReload := Compare(newPaths);
      UpdatePaths(newPaths, toRecreate, toReload);
      forall n | n in paths
        ensures PathOk(env, newPaths, n, paths[n])
        ensures paths[n].id == oldPaths[n].id && paths[n].conf == oldPaths[n].conf
      {
        assert Processed(newPaths, oldPaths, n, Entry(paths, n));
        UpdatedIsOk(env, pathConfs, newPaths, n, oldPaths[n], paths[n]);
      }
    }

    method DoReloadConf(newPaths: map<string, Conf>)
      requires Valid() && WellNamed(newPaths)
      modifies this
      // every path resolves, under the new configurations, to the one it is filed under
      ensures Valid() && Stable() && pathConfs == newPaths
      // every configuration without a regular expression has its path
      ensures forall k :: k in newPaths && newPaths[k].regexp.None? ==> k in paths
      // each old path was kept, updated or closed as Updated says
      ensures forall n :: n in old(paths) ==>
                old(paths)[n].confName in old(pathConfs)
                && Updated(env, old(pathConfs), newPaths, n, old(paths)[n],
                           if n in paths && paths[n].id < old(nextId) then Some(paths[n]) else None)
    {
      hide Updated, Changed, PathOk;
      NamesOk();
      ghost var oldConfs, oldPaths := pathConfs, paths;
      ProcessPaths(newPaths);
      ghost var kept := paths;
      assert forall n :: n in oldPaths ==> Updated(env, oldConfs, newPaths, n, oldPaths[n], Entry(kept, n)) by {
        assert forall n :: n in oldPaths ==> Processed(newPaths, oldPaths, n, Entry(kept, n));
      }
      pathConfs := newPaths;
      CreateStaticPaths();
    }

    lemma NamesOk()
      requires Valid()
      ensures forall n :: n in paths ==> paths[n].confName in pathConfs
    {
    }
  }
}

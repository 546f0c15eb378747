/** One package environment, `pkg_env` (env.py lines 36-132): its fields, its
    construction and `load`, the lookup of a package by name in this environment
    and, on a miss, in its parent environments. */
module Env {
  import opened Python
  import opened LookupPath
  import opened PkgConfig

  /** The helpers `load` relies on whose bodies are not part of this model: the name
      parser of `pkg.py` and the environment's resolver and media helpers, which may
      answer differently for each environment. */
  datatype Oracles<M> = Oracles(
    parse: string -> Parsed,                               // pkg_info.parse_pkg_name
    channelOf: (PkgEnv, Option<string>) -> Option<string>, // get_pkg_channel_from_version
    exactOf: (PkgEnv, string) -> Option<string>,           // get_exact_version_from_installed
    mediaAt: (PkgEnv, string) -> Option<M>)                // try_load_pkg_media_info

  /** One observable step of a `load`: a helper call on an environment, or the
      search loop of `env` calling `parent.load(name, False)`. */
  datatype Event =
    | Consult(env: PkgEnv, query: Query)
    | MediaLookup(env: PkgEnv, path: string)
    | ParentLoad(env: PkgEnv, parent: PkgEnv, name: string)

  class PkgEnv {
    var pkgDir: string
    var pkgObjDir: string
    var isStrict: bool
    var parentEnvs: Option<seq<PkgEnv>>
    var cfgPath: Option<string>
    var prefixs: Option<seq<string>>

    /** `pkg_env(cfg_path)`: the defaults, then the configuration at `cfgPath`. */
    constructor (cfgPath: Option<string>, io: CfgIo)
      ensures pkgDir == "" && pkgObjDir == "" && parentEnvs == None
      ensures this.cfgPath == cfgPath
      ensures Settings(isStrict, prefixs) == ApplyCfg(Defaults, cfgPath, io)
    {
      pkgDir := "";
      pkgObjDir := "";
      isStrict := Defaults.isStrict;
      parentEnvs := None;
      this.cfgPath := cfgPath;
      prefixs := Defaults.prefixs;
      new;
      LoadPkgCfg(cfgPath, io);
    }

    /** `_load_pkg_cfg`: overwrite `is_strict` and `prefixs` from the configuration. */
    method LoadPkgCfg(cfgPath: Option<string>, io: CfgIo)
      modifies this`isStrict, this`prefixs
      ensures Settings(isStrict, prefixs) == ApplyCfg(old(Settings(isStrict, prefixs)), cfgPath, io)
    {
      if cfgPath.None? {
        return;
      }
      if |cfgPath.value| < 1 {
        return;
      }
      var read := io.read(cfgPath.value);
      if read.ReadFailed? {
        return;
      }
      if read.cfg.NonEmpty() && read.cfg.env.Some? {
        var env := read.cfg.env.value;
        if env.isStrict.Some? {
          isStrict := env.isStrict.value;
        }
        if env.prefixs.Some? {
          prefixs := Some(io.preprocess(env.prefixs.value));
        }
      }
    }

    /** `load(pkg_name, search_parent)`, with the helper calls it makes, in order.
        Lines 52-70 are the pure `PlanLookup`; the rest is the lookup and the parent loop. */
    method Load<M>(name: string, searchParent: bool, o: Oracles<M>)
      returns (r: Outcome<Option<M>>, trace: seq<Event>)
      decreases if searchParent then 1 else 0, 0
      ensures (r, trace) == LoadSpec(this, name, searchParent, o)
    {
      var plan := LocalPlan(this, name, o);
      trace := Consults(this, plan.queries);
      if plan.path.None? {
        return Returned(None), trace;
      }
      var path := plan.path.value;
      var media := o.mediaAt(this, path);
      trace := trace + [MediaLookup(this, path)];
      if media.None? && searchParent {
        if parentEnvs.None? {
          return Raised(NotIterable), trace;
        }
        var searched;
        r, searched := SearchParents(parentEnvs.value, name, o);
        trace := trace + searched;
      } else {
        r := Returned(None);
      }
    }

    /** The loop of lines 75-78 over `ps`, asking each parent for `name` without
        letting it search its own parents. */
    method SearchParents<M>(ps: seq<PkgEnv>, name: string, o: Oracles<M>)
      returns (r: Outcome<Option<M>>, searched: seq<Event>)
      decreases 0, 1
      ensures (r, searched) == SearchSpec(this, ps, name, o)
    {
      r, searched := Returned(None), [];
      var i := 0;
      assert ps[0..] == ps;
      ghost var whole := SearchSpec(this, ps, name, o);
      assert [] + whole.1 == whole.1;
      assert Prefixed([], whole) == whole;
      // the loop leaves at the first parent whose load does not miss
      while i < |ps| && IsMiss(r)
        invariant 0 <= i <= |ps|
        invariant IsMiss(r) ==>
          SearchSpec(this, ps, name, o) == Prefixed(searched, SearchSpec(this, ps[i..], name, o))
        invariant !IsMiss(r) ==> SearchSpec(this, ps, name, o) == (r, searched)
      {
        var res, t := ps[i].Load(name, false, o);
        assert ps[i..][0] == ps[i] && ps[i..][1..] == ps[i + 1..];
        var tried := [ParentLoad(this, ps[i], name)] + t;
        ghost var here := SearchSpec(this, ps[i..], name, o);
        ghost var rest := SearchSpec(this, ps[i + 1..], name, o);
        assert IsMiss(res) ==> here == Prefixed(tried, rest);
        assert !IsMiss(res) ==> here == (res, tried);
        assert searched + (tried + rest.1) == (searched + tried) + rest.1;
        searched := searched + tried;
        r := res;
        i := i + 1;
      }
      assert IsMiss(r) ==> ps[i..] == [] && r == Returned(None) && searched + [] == searched;
    }
  }

  /** The call that did not raise and found nothing. */
  predicate IsMiss<M>(r: Outcome<Option<M>>) {
    r.Returned? && r.value.None?
  }

  /** The path and resolver calls of lines 52-70 for environment `e`. */
  function LocalPlan<M>(e: PkgEnv, name: string, o: Oracles<M>): (plan: Plan)
    reads e
  {
    PlanLookup(e.pkgDir, e.pkgObjDir, o.parse(name), v => o.channelOf(e, v), v => o.exactOf(e, v))
  }

  /** The resolver calls as events on `e`. */
  function Consults(e: PkgEnv, qs: seq<Query>): (t: seq<Event>)
  {
    if qs == [] then [] else [Consult(e, qs[0])] + Consults(e, qs[1..])
  }

  /** A search result whose trace is preceded by `t`. */
  function Prefixed<M>(t: seq<Event>, s: (Outcome<Option<M>>, seq<Event>)): (r: (Outcome<Option<M>>, seq<Event>)) {
    (s.0, t + s.1)
  }

  /** What `e.load(name, sp)` returns, and the helper calls it makes, as written
      (lines 48-81): a local hit is not returned, and a miss with `sp` iterates
      `parent_envs`, which raises when that is `None`. */
  function LoadSpec<M>(e: PkgEnv, name: string, sp: bool, o: Oracles<M>): (r: (Outcome<Option<M>>, seq<Event>))
    reads e, if sp && e.parentEnvs.Some? then e.parentEnvs.value else []
    decreases if sp then 1 else 0, 0
  {
    var plan := LocalPlan(e, name, o);
    var consulted := Consults(e, plan.queries);
    if plan.path.None? then (Returned(None), consulted)
    else
      var local := consulted + [MediaLookup(e, plan.path.value)];
      if o.mediaAt(e, plan.path.value).Some? || !sp then (Returned(None), local)
      else if e.parentEnvs.None? then (Raised(NotIterable), local)
      else Prefixed(local, SearchSpec(e, e.parentEnvs.value, name, o))
  }

  /** The loop of lines 75-78: each parent in order is asked for `name` without
      searching further; the first answer that is not a miss ends the search. */
  function SearchSpec<M>(e: PkgEnv, ps: seq<PkgEnv>, name: string, o: Oracles<M>): (r: (Outcome<Option<M>>, seq<Event>))
    reads ps
    decreases 0, |ps|
  {
    if ps == [] then (Returned(None), [])
    else
      var (res, t) := LoadSpec(ps[0], name, false, o);
      var tried := [ParentLoad(e, ps[0], name)] + t;
      match res
      case Returned(None) => Prefixed(tried, SearchSpec(e, ps[1..], name, o))
      case _ => (res, tried)
  }

  /** The parents asked, in order, by the `ParentLoad` events of a trace. */
  function ParentsTried(t: seq<Event>): (ps: seq<PkgEnv>)
  {
    if t == [] then []
    else (if t[0].ParentLoad? then [t[0].parent] else []) + ParentsTried(t[1..])
  }

  /** The number of media lookups in a trace. */
  function MediaLookups(t: seq<Event>): (n: nat)
  {
    if t == [] then 0
    else (if t[0].MediaLookup? then 1 else 0) + MediaLookups(t[1..])
  }

  /** The number of resolver-helper calls (channel or exact version) in a trace, on any environment. */
  function Resolutions(t: seq<Event>): (n: nat)
  {
    if t == [] then 0
    else (if t[0].Consult? then 1 else 0) + Resolutions(t[1..])
  }

  lemma {:induction false} CountsConcat(a: seq<Event>, b: seq<Event>)
    ensures ParentsTried(a + b) == ParentsTried(a) + ParentsTried(b)
    ensures MediaLookups(a + b) == MediaLookups(a) + MediaLookups(b)
    ensures Resolutions(a + b) == Resolutions(a) + Resolutions(b)
  {
    if a == [] {
      assert a + b == b;
    } else {
      assert (a + b)[0] == a[0] && (a + b)[1..] == a[1..] + b;
      CountsConcat(a[1..], b);
    }
  }

  /** Resolver calls are neither parent calls nor media lookups. */
  lemma {:induction false} ConsultsCountNothing(e: PkgEnv, qs: seq<Query>)
    ensures ParentsTried(Consults(e, qs)) == [] && MediaLookups(Consults(e, qs)) == 0
  {
    if qs != [] {
      ConsultsCountNothing(e, qs[1..]);
      CountsConcat([Consult(e, qs[0])], Consults(e, qs[1..]));
    }
  }

  /** The events of the local part of `load`: the resolver calls and at most one media lookup. */
  lemma LocalEventsCount(e: PkgEnv, qs: seq<Query>, path: string)
    ensures ParentsTried(Consults(e, qs) + [MediaLookup(e, path)]) == []
    ensures MediaLookups(Consults(e, qs) + [MediaLookup(e, path)]) == 1
  {
    ConsultsCountNothing(e, qs);
    CountsConcat(Consults(e, qs), [MediaLookup(e, path)]);
  }

  /** `load(name, False)` returns None, calls no parent and looks up media at most once. */
  lemma OneHopLoad<M>(e: PkgEnv, name: string, o: Oracles<M>)
    ensures LoadSpec(e, name, false, o).0 == Returned(None)
    ensures ParentsTried(LoadSpec(e, name, false, o).1) == []
    ensures MediaLookups(LoadSpec(e, name, false, o).1) <= 1
  {
    var plan := LocalPlan(e, name, o);
    ConsultsCountNothing(e, plan.queries);
    if plan.path.Some? {
      LocalEventsCount(e, plan.queries, plan.path.value);
    }
  }

  /** As written, the parent loop never stops early: every parent is asked, in list
      order, nothing is found, and there is at most one media lookup per parent. */
  lemma {:induction false} SearchTriesEveryParent<M>(e: PkgEnv, ps: seq<PkgEnv>, id: string, o: Oracles<M>)
    ensures SearchSpec(e, ps, id, o).0 == Returned(None)
    ensures ParentsTried(SearchSpec(e, ps, id, o).1) == ps
    ensures MediaLookups(SearchSpec(e, ps, id, o).1) <= |ps|
    decreases |ps|
  {
    if ps != [] {
      var (r, t) := LoadSpec(ps[0], id, false, o);
      OneHopLoad(ps[0], id, o);
      SearchTriesEveryParent(e, ps[1..], id, o);
      var rest := SearchSpec(e, ps[1..], id, o).1;
      CountsConcat([ParentLoad(e, ps[0], id)], t);
      CountsConcat([ParentLoad(e, ps[0], id)] + t, rest);
      assert [ps[0]] + ps[1..] == ps;
    }
  }

  /** The state in which `load` searches the parents: the path was built and the local lookup missed. */
  predicate LocalMiss<M>(e: PkgEnv, name: string, o: Oracles<M>)
    reads e
  {
    var plan := LocalPlan(e, name, o);
    plan.path.Some? && o.mediaAt(e, plan.path.value).None?
  }

  /** As written, `load` never returns media: a local hit is dropped at line 81 and a
      parent asked with `False` behaves the same way. */
  lemma LoadNeverReturnsMedia<M>(e: PkgEnv, name: string, sp: bool, o: Oracles<M>)
    ensures LoadSpec(e, name, sp, o).0 == Returned(None) || LoadSpec(e, name, sp, o).0 == Raised(NotIterable)
  {
    if sp && LocalMiss(e, name, o) && e.parentEnvs.Some? {
      SearchTriesEveryParent(e, e.parentEnvs.value, name, o);
    }
  }

  /** `load` raises exactly when it has to iterate a `parent_envs` that is still `None`. */
  lemma RaisesIffParentsUnset<M>(e: PkgEnv, name: string, sp: bool, o: Oracles<M>)
    ensures LoadSpec(e, name, sp, o).0.Raised? <==> sp && LocalMiss(e, name, o) && e.parentEnvs.None?
  {
    if sp && LocalMiss(e, name, o) && e.parentEnvs.Some? {
      SearchTriesEveryParent(e, e.parentEnvs.value, name, o);
    }
  }

  /** With `search_parent`, the parents are asked, in list order and each once, exactly
      when the local lookup missed; in all there are at most `1 + |parents|` media lookups. */
  lemma ParentSearchBounded<M>(e: PkgEnv, name: string, o: Oracles<M>)
    ensures ParentsTried(LoadSpec(e, name, true, o).1)
         == if LocalMiss(e, name, o) && e.parentEnvs.Some? then e.parentEnvs.value else []
    ensures MediaLookups(LoadSpec(e, name, true, o).1)
         <= 1 + if e.parentEnvs.Some? then |e.parentEnvs.value| else 0
  {
    var plan := LocalPlan(e, name, o);
    ConsultsCountNothing(e, plan.queries);
    if plan.path.Some? {
      var local := Consults(e, plan.queries) + [MediaLookup(e, plan.path.value)];
      LocalEventsCount(e, plan.queries, plan.path.value);
      if LocalMiss(e, name, o) && e.parentEnvs.Some? {
        var ps := e.parentEnvs.value;
        SearchTriesEveryParent(e, ps, name, o);
        CountsConcat(local, SearchSpec(e, ps, name, o).1);
      }
    }
  }

  /** A content id makes the lookup path `pkg_obj_dir + "." + pkg_id + "/" + cid`, looked up
      first, with no channel or version resolution on this environment. */
  lemma ContentIdSkipsResolution<M>(e: PkgEnv, name: string, sp: bool, o: Oracles<M>)
    requires o.parse(name).cid.Some?
    ensures var p := o.parse(name);
            var t := LoadSpec(e, name, sp, o).1;
            |t| >= 1 && t[0] == MediaLookup(e, e.pkgObjDir + "." + p.pkgId + "/" + p.cid.value)
  {
  }

  /** An unresolved version string ends `load` after the two resolver calls: no media
      lookup and no parent search, whatever `search_parent` says. */
  lemma VersionMissReturnsAtOnce<M>(e: PkgEnv, name: string, sp: bool, o: Oracles<M>)
    requires o.parse(name).cid.None? && o.parse(name).versionStr.Some?
    requires o.exactOf(e, o.parse(name).versionStr.value).None?
    ensures var v := o.parse(name).versionStr.value;
            LoadSpec(e, name, sp, o) == (Returned(None), [Consult(e, ChannelOf(Some(v))), Consult(e, ExactVersionOf(v))])
  {
    var v := o.parse(name).versionStr.value;
    var qs := [ChannelOf(Some(v)), ExactVersionOf(v)];
    assert qs[1..] == [ExactVersionOf(v)] && qs[1..][1..] == [];
    assert Consults(e, qs[1..]) == [Consult(e, ExactVersionOf(v))];
    assert Consults(e, qs) == [Consult(e, ChannelOf(Some(v))), Consult(e, ExactVersionOf(v))];
  }

  /** A name the parser gives a content id causes no resolver call anywhere in the
      trace: not on this environment, and not on the parents, which are asked for the
      same name and so take the content-id path too. */
  lemma {:induction false} ContentIdNoResolutionAnywhere<M>(e: PkgEnv, name: string, sp: bool, o: Oracles<M>)
    requires o.parse(name).cid.Some?
    ensures Resolutions(LoadSpec(e, name, sp, o).1) == 0
    decreases if sp then 1 else 0, 0
  {
    var path := LocalPlan(e, name, o).path.value;
    assert Consults(e, []) == [];
    CountsConcat([], [MediaLookup(e, path)]);
    if sp && LocalMiss(e, name, o) && e.parentEnvs.Some? {
      SearchNoResolution(e, e.parentEnvs.value, name, o);
      CountsConcat([MediaLookup(e, path)], SearchSpec(e, e.parentEnvs.value, name, o).1);
    }
  }

  lemma {:induction false} SearchNoResolution<M>(e: PkgEnv, ps: seq<PkgEnv>, name: string, o: Oracles<M>)
    requires o.parse(name).cid.Some?
    ensures Resolutions(SearchSpec(e, ps, name, o).1) == 0
    decreases 0, |ps|
  {
    if ps != [] {
      var (res, t) := LoadSpec(ps[0], name, false, o);
      ContentIdNoResolutionAnywhere(ps[0], name, false, o);
      SearchNoResolution(e, ps[1..], name, o);
      CountsConcat([ParentLoad(e, ps[0], name)], t);
      CountsConcat([ParentLoad(e, ps[0], name)] + t, SearchSpec(e, ps[1..], name, o).1);
    }
  }

  /** As written, a local hit is dropped: `load` returns None and asks no parent. */
  lemma LocalHitIsDropped<M>(e: PkgEnv, name: string, sp: bool, o: Oracles<M>)
    requires LocalPlan(e, name, o).path.Some?
    requires o.mediaAt(e, LocalPlan(e, name, o).path.value).Some?
    ensures LoadSpec(e, name, sp, o).0 == Returned(None)
    ensures ParentsTried(LoadSpec(e, name, sp, o).1) == []
  {
    var plan := LocalPlan(e, name, o);
    LocalEventsCount(e, plan.queries, plan.path.value);
  }

  /** `load` as its call sites are written: line 72 passes `(pkg_id, pkg_path)` to
      `try_load_pkg_media_info`, which declares one parameter besides `self`, so every
      run that gets past the version check raises TypeError there (as would line 76,
      which passes three arguments to `load`). */
  function LoadAsWritten<M>(e: PkgEnv, name: string, o: Oracles<M>): (r: Outcome<Option<M>>)
    reads e
    ensures r.Returned? <==> LocalPlan(e, name, o).path.None?
  {
    if LocalPlan(e, name, o).path.None? then Returned(None) else Raised(TooManyArguments)
  }

  /** As written, loading by content id never reaches a lookup: it raises TypeError. */
  lemma ContentIdLoadRaisesAsWritten<M>(e: PkgEnv, name: string, o: Oracles<M>)
    requires o.parse(name).cid.Some?
    ensures LoadAsWritten(e, name, o) == Raised(TooManyArguments)
  {
  }
}

/** The environment registry `pkg_env_mgr` (env.py lines 10-34): a singleton whose
    `get_env` memoises one `pkg_env` per configuration path. */
module EnvMgr {
  import opened Python
  import opened PkgConfig
  import opened Env

  class PkgEnvMgr {
    var pkgEnvs: map<string, PkgEnv>

    /** The object `super().__new__(cls)` allocates (line 14), with an empty registry. */
    constructor ()
      ensures pkgEnvs == map[]
    {
      pkgEnvs := map[];
    }

    /** `__init__` (line 18): the registry is replaced by an empty one. */
    method Init()
      modifies this
      ensures pkgEnvs == map[]
    {
      pkgEnvs := map[];
    }

    /** `get_env(cfg_path)`: the stored environment for a known path; otherwise a new
        `pkg_env(cfg_path)`, stored under that path. No other entry changes. */
    method GetEnv(cfgPath: string, io: CfgIo) returns (e: PkgEnv)
      modifies this
      ensures cfgPath in pkgEnvs && pkgEnvs[cfgPath] == e
      ensures cfgPath in old(pkgEnvs) ==> e == old(pkgEnvs)[cfgPath] && pkgEnvs == old(pkgEnvs)
      ensures cfgPath !in old(pkgEnvs) ==> fresh(e) && pkgEnvs == old(pkgEnvs)[cfgPath := e]
      ensures cfgPath !in old(pkgEnvs) ==>
                e.pkgDir == "" && e.pkgObjDir == "" && e.parentEnvs == None &&
                e.cfgPath == Some(cfgPath) &&
                Settings(e.isStrict, e.prefixs) == ApplyCfg(Defaults, Some(cfgPath), io)
    {
      if cfgPath in pkgEnvs {
        e := pkgEnvs[cfgPath];
      } else {
        e := new PkgEnv(Some(cfgPath), io);
        pkgEnvs := pkgEnvs[cfgPath := e];
      }
    }

    /** `get_env` as written: line 26 assigns the name `pkg_env`, which makes it local to
        the whole method, so the call `pkg_env(cfg_path)` reads it before it is bound and
        raises UnboundLocalError; nothing is stored. */
    method GetEnvAsWritten(cfgPath: string) returns (r: Outcome<PkgEnv>)
      ensures cfgPath in pkgEnvs ==> r == Returned(pkgEnvs[cfgPath])
      ensures cfgPath !in pkgEnvs ==> r == Raised(UnboundLocal)
    {
      if cfgPath in pkgEnvs {
        r := Returned(pkgEnvs[cfgPath]);
      } else {
        r := Raised(UnboundLocal);
      }
    }
  }

  /** The class object `pkg_env_mgr` itself, holding the class attribute `_instance`. */
  class PkgEnvMgrClass {
    var instance: PkgEnvMgr?

    /** The class definition: `_instance = None` (line 11). */
    constructor ()
      ensures instance == null
    {
      instance := null;
    }

    /** `__new__` (lines 12-15): the first call allocates the instance, later calls return it. */
    method New() returns (m: PkgEnvMgr)
      modifies this
      ensures instance == m
      ensures old(instance) != null ==> m == old(instance)
      ensures old(instance) == null ==> fresh(m) && m.pkgEnvs == map[]
    {
      if instance == null {
        instance := new PkgEnvMgr();
      }
      m := instance;
    }

    /** `pkg_env_mgr()`: `__new__` and then `__init__`, so every call yields the same
        object, and every call also empties its registry. */
    method Call() returns (m: PkgEnvMgr)
      modifies this, instance
      ensures instance == m
      ensures old(instance) != null ==> m == old(instance)
      ensures old(instance) == null ==> fresh(m)
      ensures m.pkgEnvs == map[]
    {
      m := New();
      m.Init();
    }
  }

  /** `pkg_env_mgr()` twice with two `get_env` calls between them: both calls with one
      path return the identical environment, the second `pkg_env_mgr()` returns the very
      registry the lookups used (the instance cached before, if there was one), and that
      registry is left empty. */
  method SameKeySameInstance(cls: PkgEnvMgrClass, cfgPath: string, io: CfgIo)
      returns (mgr: PkgEnvMgr, first: PkgEnv, second: PkgEnv, again: PkgEnvMgr)
    modifies cls, cls.instance
    ensures old(cls.instance) != null ==> mgr == old(cls.instance)
    ensures first == second
    ensures again == mgr && cls.instance == mgr
    ensures mgr.pkgEnvs == map[]
  {
    mgr := cls.Call();
    first := mgr.GetEnv(cfgPath, io);
    second := mgr.GetEnv(cfgPath, io);
    again := cls.Call();
  }
}

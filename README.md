# Package environment lookup

A Dafny model of the package-lookup core in `src/component/package_manager/env.py`:

- `pkg_env` holds a package directory, an object directory, a strictness flag, optional
  prefixes and an optional list of parent environments. Its `load(pkg_name, search_parent)`
  parses the name into `(pkg_id, version_str, cid)` and builds a lookup path. A content id
  gives `pkg_obj_dir + "." + pkg_id + "/" + cid`. Otherwise the path is
  `pkg_dir + pkg_id[#channel][#version]`, and an unresolved version string ends the call at
  once. After the local media lookup, a miss with `search_parent` asks each parent in
  order with `search_parent=False`.
- `_load_pkg_cfg` is meant to overwrite `is_strict` and `prefixs` from a configuration
  document, only for a non-empty path that can be read and only for keys the document
  supplies. As written it raises AttributeError on every readable non-empty document
  (`cfg.env` on a dictionary), so no value is ever applied; the model states that
  (`PkgConfig.ApplyCfgAsWritten`) and uses the corrected reading (see Findings).
- `pkg_env_mgr` is a singleton (`__new__` caches the instance). Its `get_env` memoises one
  environment per configuration path.

Modules: `Python` (None and call outcomes), `LookupPath` (the pure path construction of
lines 52-70), `PkgConfig` (configuration application), `Env` (the `PkgEnv` class, the
specification of `load` and its lemmas) and `EnvMgr` (the registry and its class object).

The helpers whose bodies are only `pass` have no semantics here. They are
arrow-typed fields of `Env.Oracles` and `PkgConfig.CfgIo`, so every result holds for
every behaviour of them. This covers `pkg_info.parse_pkg_name`,
`get_pkg_channel_from_version`, `get_exact_version_from_installed`,
`try_load_pkg_media_info`, `_preprocess_prefixs` and the file read `toml.load`. The media
record type is a type parameter `M`. `load` also returns a trace of the helper
calls it made (`Env.Event`), which is how "no resolution on the content-id path" and
"at most one lookup per parent" are stated.

Behaviour kept exactly as the code has it, and stated by lemmas:
- A successful local lookup is dropped: line 72 stores it, and the code then falls
  through to `return None` at line 81 (`Env.LocalHitIsDropped`). So a parent asked with
  `False` also returns None, the parent loop never stops early, and `load` never returns
  media (`Env.LoadNeverReturnsMedia`).
- `parent_envs` starts as `None` (line 41) and is iterated at line 75. That raises
  TypeError exactly when a search is due (`Env.RaisesIffParentsUnset`).
- Every `pkg_env_mgr()` call returns the cached object, but `__init__` empties its
  registry each time (`EnvMgr.PkgEnvMgrClass.Call`).
- With no version string, the channel helper is called with `None` (lines 53-54).

Things a reader of the package manager might expect that this code does not do:
- The object path is `pkg_obj_dir + "." + pkg_id + "/" + cid`, not `object_dir/pkg_id/cid`.
- An unresolved version returns None rather than a distinct "version not found" error.
- The local hit is not returned.
- Strict mode verifies nothing.
- There is no `reset()`.

## Model

| member | source | states |
|---|---|---|
| LookupPath.PlanLookup | src/component/package_manager/env.py:52-70 | no path exactly when there is no cid, a version string is given, and the exact-version helper returns None; a cid means no channel or version helper is called; otherwise the channel helper is called first with the version string (None included), and the exact-version helper only when a version string is given |
| LookupPath.VersionedPathForm | src/component/package_manager/env.py:53-68 | without a cid, the path is `pkg_dir + pkg_id` followed by `#channel` if the channel helper returned one and `#version` if a version was resolved, in that order |
| LookupPath.ContentIdPath | src/component/package_manager/env.py:69-70 | with a cid, the plan is the path `pkg_obj_dir + "." + pkg_id + "/" + cid` with no resolver call, whatever the resolver helpers answer |
| PkgConfig.DocOf | src/component/package_manager/env.py:114-124 | a document is read exactly when the path is not None, is non-empty and the read succeeds, and it is the document that read returned |
| PkgConfig.EnvOf | src/component/package_manager/env.py:113-127 | a configuration section applies exactly when the path is not None, is non-empty, reads successfully, and the document has an `env` section; it is that document's own `env` section |
| PkgConfig.ApplyCfg | src/component/package_manager/env.py:113-132 | a supplied `is_strict` is written, and a supplied `prefixs` is written after preprocessing; neither field changes to anything the configuration does not supply |
| PkgConfig.NoConfigKeepsSettings | src/component/package_manager/env.py:114-124 | a None path, an empty path or a failed read leaves every setting unchanged |
| PkgConfig.SuppliedStrictWins | src/component/package_manager/env.py:128-129 | when a section applies, `is_strict` becomes the supplied value if present and keeps its previous value otherwise |
| PkgConfig.SuppliedPrefixsWin | src/component/package_manager/env.py:131-132 | when a section applies, `prefixs` becomes the preprocessed supplied list if present and keeps its previous value otherwise |
| PkgConfig.ApplyCfgIdempotent | src/component/package_manager/env.py:126-132 | applying the same configuration twice equals applying it once |
| PkgConfig.ApplyCfgAsWritten | src/component/package_manager/env.py:120-127 | as written, `_load_pkg_cfg` raises AttributeError exactly when a document was read and is non-empty, and otherwise returns with the settings unchanged |
| PkgConfig.NoSettingAppliedAsWritten | src/component/package_manager/env.py:126-132 | as written, whenever the corrected reading would change a setting, the code raises instead |
| Env.PkgEnv.constructor | src/component/package_manager/env.py:37-46 | empty `pkg_dir` and `pkg_obj_dir`, `parent_envs` None, `cfg_path` stored, and strictness/prefixes equal to the defaults (`is_strict` true, no prefixes) after the configuration is applied |
| Env.PkgEnv.LoadPkgCfg | src/component/package_manager/env.py:113-132 | the new `is_strict`/`prefixs` are `ApplyCfg` of the old ones; no other field changes |
| Env.PkgEnv.Load | src/component/package_manager/env.py:48-81 | the result and the sequence of helper and parent calls are exactly those `LoadSpec` gives for this environment, name and flag |
| Env.PkgEnv.SearchParents | src/component/package_manager/env.py:75-78 | the loop over the parents returns the first result that is not a miss, and the calls made up to it, as `SearchSpec` defines them |
| Env.OneHopLoad | src/component/package_manager/env.py:72-81 | `load(name, False)` returns None, calls no parent and looks up media at most once |
| Env.SearchTriesEveryParent | src/component/package_manager/env.py:75-78 | as written the loop asks every parent, in list order and each once; it finds nothing and makes at most one media lookup per parent |
| Env.LoadNeverReturnsMedia | src/component/package_manager/env.py:72-81 | `load` either returns None or raises the iteration TypeError; it never returns media |
| Env.RaisesIffParentsUnset | src/component/package_manager/env.py:73-75 | `load` raises exactly when `search_parent` is set, the local lookup missed, and `parent_envs` is None |
| Env.ParentSearchBounded | src/component/package_manager/env.py:73-78 | with `search_parent`, the parents asked are the whole parent list, in order, exactly when the local lookup missed, and no parent otherwise; there are at most `1 + len(parent_envs)` media lookups |
| Env.ContentIdSkipsResolution | src/component/package_manager/env.py:69-72 | with a cid, the first call `load` makes is the media lookup of `pkg_obj_dir + "." + pkg_id + "/" + cid`, with no channel or version helper call on this environment |
| Env.ContentIdNoResolutionAnywhere | src/component/package_manager/env.py:52-78 | with a cid, the whole trace, parents included, holds no channel or exact-version helper call |
| Env.SearchNoResolution | src/component/package_manager/env.py:75-78 | with a cid, asking the parents makes no channel or exact-version helper call |
| Env.VersionMissReturnsAtOnce | src/component/package_manager/env.py:59-64 | an unresolved version string returns None after just the channel and exact-version calls: no media lookup and no parent search, for either flag |
| Env.LocalHitIsDropped | src/component/package_manager/env.py:72-81 | a local hit still yields None, and no parent is asked |
| Env.LoadAsWritten | src/component/package_manager/env.py:72 | as the call site is written, `load` returns only on the unresolved-version path and raises TypeError on every other path |
| Env.ContentIdLoadRaisesAsWritten | src/component/package_manager/env.py:69-72 | as written, loading by content id raises TypeError |
| EnvMgr.PkgEnvMgr.constructor | src/component/package_manager/env.py:12-14 | a newly allocated registry holds no environments |
| EnvMgr.PkgEnvMgr.Init | src/component/package_manager/env.py:17-18 | `__init__` leaves the registry empty |
| EnvMgr.PkgEnvMgr.GetEnv | src/component/package_manager/env.py:22-28 | a known path returns the stored instance and changes nothing; a new path stores a fresh environment constructed from that path under it, and changes no other entry; afterwards the path maps to the returned instance |
| EnvMgr.PkgEnvMgr.GetEnvAsWritten | src/component/package_manager/env.py:22-28 | as written, a known path returns the stored instance and a new path raises UnboundLocalError |
| EnvMgr.PkgEnvMgrClass.constructor | src/component/package_manager/env.py:10-11 | the class starts with no cached instance |
| EnvMgr.PkgEnvMgrClass.New | src/component/package_manager/env.py:12-15 | the first call allocates the instance and caches it; later calls return the cached one |
| EnvMgr.PkgEnvMgrClass.Call | src/component/package_manager/env.py:12-18 | `pkg_env_mgr()` always yields the cached instance, and its registry is empty afterwards |
| EnvMgr.SameKeySameInstance | src/component/package_manager/env.py:12-28 | two `get_env` calls with one path return the identical environment; the second `pkg_env_mgr()` returns the registry those calls used (the previously cached one, if any), now emptied |

## Left out

- The bodies of the helpers that are only `pass` have no semantics here; they are parameters. This covers `get_exact_version_from_installed`, `get_pkg_channel_from_version`, `try_load_pkg_media_info` and `_preprocess_prefixs`. `get_pkg_media_info`, `get_installed_pkg_info`, `lookup`, `get_installer`, `is_valied_media`, `do_pkg_media_trans`, `get_user_env` and `get_system_env` are not called by the modelled code and are not modelled.
- `pkg_info.parse_pkg_name` lives in `pkg.py`, which is not part of this model. It is a parameter, and its triple is the input of the path construction.
- Reading the TOML file is a parameter that fails or yields a document. Logging is not modelled.
- The truthiness test `if cfg.env:` is folded into the optional `env` section: an empty `env` table supplies no key either way, and it counts only towards the document being non-empty.
- `index_dbs` is set to None and read only by helpers outside this model, so it is not a field of the model.
- The return annotation `-> pkg_env` at line 22 names `pkg_env` before that class is defined, which would fail when the module is imported. The model starts from a loaded module.
- The registry is not thread-safe. Concurrent callers, installation and media transfer are not modelled.
- An exception raised by a helper is not modelled; helpers always return.
- Env.PkgEnv.Load: models the call sites as corrected (see Findings). The media helper gets the path only. A parent is asked with `load(pkg_name, False)`, so it receives the same version string and content id as this environment.
- Env.PkgEnv.constructor: applies the configuration with the corrected reading (`PkgConfig.ApplyCfg`); as written, constructing from a readable non-empty document raises (see Findings).

## Findings

| source | as written | input that shows it | evidently intended | confidence | as-written member | corrected member |
|---|---|---|---|---|---|---|
| src/component/package_manager/env.py:26 | `pkg_env = pkg_env(cfg_path)` makes `pkg_env` a local of `get_env`, so the call reads it before it is bound | `get_env("a.toml")` on an empty registry raises UnboundLocalError | build `pkg_env(cfg_path)`, store it under the path, return it | not executed | EnvMgr.PkgEnvMgr.GetEnvAsWritten | EnvMgr.PkgEnvMgr.GetEnv |
| src/component/package_manager/env.py:72-76 | `try_load_pkg_media_info(pkg_id, pkg_path)` passes two arguments to a method that declares one (line 92), and `parent_env.load(pkg_id, cid, False)` passes three to `load(pkg_name, search_parent)` (line 48); both raise TypeError | `load(name)` for any name with a content id raises at line 72 | `try_load_pkg_media_info(pkg_path)`, and `parent_env.load(pkg_name, False)` so the parent sees the same `pkg_id`, version and `cid` | not executed | Env.LoadAsWritten | Env.PkgEnv.Load |
| src/component/package_manager/env.py:127 | `toml.load` returns a dictionary, so `cfg.env` raises AttributeError once `if cfg:` holds; only line 121 is inside the `try` | `pkg_env("a.toml")` where the file holds `[env]` with `is_strict = false` raises instead of setting `is_strict` | read the `env` table and its keys as key lookups | not executed | PkgConfig.ApplyCfgAsWritten | PkgConfig.ApplyCfg |

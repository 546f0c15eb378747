/** Applying a package configuration document to an environment's settings:
    `pkg_env._load_pkg_cfg` (env.py lines 113-132). Reading the TOML file is an
    input: it either fails or yields the document. */
module PkgConfig {
  import opened Python

  /** The `env` table of a configuration document; a key that is absent is `None`. */
  datatype EnvSection = EnvSection(isStrict: Option<bool>, prefixs: Option<seq<string>>)

  /** A configuration document: its `env` table when there is a non-empty one, and the
      number of its other top-level keys (an empty `env` table counts among them). */
  datatype Config = Config(env: Option<EnvSection>, otherKeys: nat) {
    /** Python truthiness of the dictionary `toml.load` returns: it has some key. */
    predicate NonEmpty() {
      env.Some? || otherKeys > 0
    }
  }

  /** What reading the file at a path gives. */
  datatype ReadResult = ReadFailed | Read(cfg: Config)

  /** The file read (`toml.load`) and the prefix preprocessing helper, both outside this model. */
  datatype CfgIo = CfgIo(read: string -> ReadResult, preprocess: seq<string> -> seq<string>)

  /** The environment fields `_load_pkg_cfg` may overwrite; `prefixs == None` when the
      attribute was never set. */
  datatype Settings = Settings(isStrict: bool, prefixs: Option<seq<string>>)

  /** The values `pkg_env.__init__` gives these fields before the configuration is applied. */
  const Defaults := Settings(true, None)

  /** The document read at `cfgPath`, if any: none for a `None` or empty path or a failed read. */
  function DocOf(cfgPath: Option<string>, io: CfgIo): (r: Option<Config>)
    ensures r.Some? <==> cfgPath.Some? && |cfgPath.value| >= 1 && io.read(cfgPath.value).Read?
    ensures r.Some? ==> r.value == io.read(cfgPath.value).cfg
  {
    if cfgPath.None? then None
    else if |cfgPath.value| < 1 then None
    else match io.read(cfgPath.value)
      case ReadFailed => None
      case Read(cfg) => Some(cfg)
  }

  /** The `env` section that applies, if any: the `env` table of a document that was read. */
  function EnvOf(cfgPath: Option<string>, io: CfgIo): (r: Option<EnvSection>)
    ensures r.Some? <==>
              cfgPath.Some? && |cfgPath.value| >= 1 &&
              io.read(cfgPath.value).Read? && io.read(cfgPath.value).cfg.env.Some?
    ensures r.Some? ==> r == io.read(cfgPath.value).cfg.env
  {
    match DocOf(cfgPath, io)
    case None => None
    case Some(cfg) => if cfg.NonEmpty() then cfg.env else None
  }

  /** The settings after `_load_pkg_cfg(cfgPath)`, with the document read as a mapping. */
  function ApplyCfg(s: Settings, cfgPath: Option<string>, io: CfgIo): (r: Settings)
    // a supplied value is written ...
    ensures EnvOf(cfgPath, io).Some? && EnvOf(cfgPath, io).value.isStrict.Some? ==>
              r.isStrict == EnvOf(cfgPath, io).value.isStrict.value
    ensures EnvOf(cfgPath, io).Some? && EnvOf(cfgPath, io).value.prefixs.Some? ==>
              r.prefixs == Some(io.preprocess(EnvOf(cfgPath, io).value.prefixs.value))
    // ... and a field changes only to a value the configuration supplies
    ensures r.isStrict != s.isStrict ==>
              EnvOf(cfgPath, io).Some? && EnvOf(cfgPath, io).value.isStrict == Some(r.isStrict)
    ensures r.prefixs != s.prefixs ==>
              EnvOf(cfgPath, io).Some? && EnvOf(cfgPath, io).value.prefixs.Some? &&
              r.prefixs == Some(io.preprocess(EnvOf(cfgPath, io).value.prefixs.value))
  {
    match EnvOf(cfgPath, io)
    case None => s
    case Some(env) =>
      var strict := if env.isStrict.Some? then env.isStrict.value else s.isStrict;
      var prefixs := if env.prefixs.Some? then Some(io.preprocess(env.prefixs.value)) else s.prefixs;
      Settings(strict, prefixs)
  }

  /** A `None` or empty path, or a file that cannot be read, leaves every setting as it was. */
  lemma NoConfigKeepsSettings(s: Settings, cfgPath: Option<string>, io: CfgIo)
    requires cfgPath.None? || cfgPath == Some("") || io.read(cfgPath.value) == ReadFailed
    ensures ApplyCfg(s, cfgPath, io) == s
  {
  }

  /** A supplied `is_strict` always wins; an absent one keeps the previous value. */
  lemma SuppliedStrictWins(s: Settings, cfgPath: Option<string>, io: CfgIo)
    requires EnvOf(cfgPath, io).Some?
    ensures ApplyCfg(s, cfgPath, io).isStrict == EnvOf(cfgPath, io).value.isStrict.GetOr(s.isStrict)
  {
  }

  /** A supplied `prefixs` list is preprocessed and stored; an absent one keeps the previous value. */
  lemma SuppliedPrefixsWin(s: Settings, cfgPath: Option<string>, io: CfgIo)
    requires EnvOf(cfgPath, io).Some?
    ensures ApplyCfg(s, cfgPath, io).prefixs ==
              if EnvOf(cfgPath, io).value.prefixs.Some?
              then Some(io.preprocess(EnvOf(cfgPath, io).value.prefixs.value))
              else s.prefixs
  {
  }

  /** Applying the same configuration twice is the same as applying it once. */
  lemma ApplyCfgIdempotent(s: Settings, cfgPath: Option<string>, io: CfgIo)
    ensures ApplyCfg(ApplyCfg(s, cfgPath, io), cfgPath, io) == ApplyCfg(s, cfgPath, io)
  {
  }

  /** `_load_pkg_cfg` as written: `toml.load` returns a dictionary, so once `if cfg:`
      holds, the attribute access `cfg.env` at line 127 raises AttributeError, outside
      the `try` of lines 120-124. */
  function ApplyCfgAsWritten(s: Settings, cfgPath: Option<string>, io: CfgIo): (r: Outcome<Settings>)
    ensures r.Raised? <==> DocOf(cfgPath, io).Some? && DocOf(cfgPath, io).value.NonEmpty()
    ensures r.Returned? ==> r.value == s
  {
    match DocOf(cfgPath, io)
    case None => Returned(s)
    case Some(cfg) => if cfg.NonEmpty() then Raised(NoAttribute) else Returned(s)
  }

  /** As written, no configuration value is ever applied: whenever the corrected
      `ApplyCfg` would change a setting, the code as written raises instead. */
  lemma NoSettingAppliedAsWritten(s: Settings, cfgPath: Option<string>, io: CfgIo)
    requires ApplyCfg(s, cfgPath, io) != s
    ensures ApplyCfgAsWritten(s, cfgPath, io) == Raised(NoAttribute)
  {
  }
}

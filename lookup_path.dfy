/** The pure part of `pkg_env.load` (env.py lines 52-70): from the parsed package
    name it decides which resolver helpers are consulted and which lookup path is
    built, or that no exact version is installed. */
module LookupPath {
  import opened Python

  /** The triple `pkg_info.parse_pkg_name` returns: package id, version string, content id. */
  datatype Parsed = Parsed(pkgId: string, versionStr: Option<string>, cid: Option<string>)

  /** A call of one of the environment's resolver helpers, with its argument. */
  datatype Query =
    | ChannelOf(arg: Option<string>)     // get_pkg_channel_from_version(arg)
    | ExactVersionOf(versionStr: string) // get_exact_version_from_installed(versionStr)

  /** The resolver calls made, in order, and the path to look up;
      `path == None` is the "no matching version" early return. */
  datatype Plan = Plan(queries: seq<Query>, path: Option<string>)

  /** The path and resolver calls of lines 52-70. */
  function PlanLookup(pkgDir: string, pkgObjDir: string, p: Parsed,
                      channelOf: Option<string> -> Option<string>,
                      exactOf: string -> Option<string>): (r: Plan)
    // the only way to get no path is an unresolved version string
    ensures r.path.None? <==>
              p.cid.None? && p.versionStr.Some? && exactOf(p.versionStr.value).None?
    // a content id bypasses channel and version resolution; otherwise the channel
    // helper is asked first, with the version string (even when that is None), and
    // the exact-version helper only when a version string is given
    ensures r.queries == if p.cid.Some? then [] else
              [ChannelOf(p.versionStr)] +
              (if p.versionStr.Some? then [ExactVersionOf(p.versionStr.value)] else [])
  {
    if p.cid.None? then
      if p.versionStr.None? then
        var channel := channelOf(None);
        Plan([ChannelOf(None)],
             Some(if channel.None? then pkgDir + p.pkgId else pkgDir + p.pkgId + "#" + channel.value))
      else
        var v := p.versionStr.value;
        var channel := channelOf(Some(v));
        var theVersion := exactOf(v);
        var queries := [ChannelOf(Some(v)), ExactVersionOf(v)];
        if theVersion.None? then
          Plan(queries, None)
        else if channel.None? then
          Plan(queries, Some(pkgDir + p.pkgId + "#" + theVersion.value))
        else
          Plan(queries, Some(pkgDir + p.pkgId + "#" + channel.value + "#" + theVersion.value))
    else
      Plan([], Some(pkgObjDir + "." + p.pkgId + "/" + p.cid.value))
  }

  /** The tags that are present, in order. */
  function Present(tags: seq<Option<string>>): (r: seq<string>)
    ensures |r| <= |tags|
  {
    if tags == [] then []
    else if tags[0].Some? then [tags[0].value] + Present(tags[1..])
    else Present(tags[1..])
  }

  /** The versioned form `<base>[#<tag>]...`: each tag follows a `#`. */
  function Tagged(base: string, tags: seq<string>): (r: string)
    decreases |tags|
  {
    if tags == [] then base else Tagged(base + "#" + tags[0], tags[1..])
  }

  /** Without a content id, the path is `pkg_dir + pkg_id[#channel][#version]`, where
      the channel is what the channel helper returned and the version is the
      resolved exact version (only when a version string was given). */
  lemma VersionedPathForm(pkgDir: string, pkgObjDir: string, p: Parsed,
                          channelOf: Option<string> -> Option<string>,
                          exactOf: string -> Option<string>)
    requires p.cid.None?
    ensures var r := PlanLookup(pkgDir, pkgObjDir, p, channelOf, exactOf);
            var version := if p.versionStr.Some? then exactOf(p.versionStr.value) else None;
            r.path.Some? ==>
              r.path.value == Tagged(pkgDir + p.pkgId, Present([channelOf(p.versionStr), version]))
  {
    var base := pkgDir + p.pkgId;
    var channel := channelOf(p.versionStr);
    if p.versionStr.Some? {
      var version := exactOf(p.versionStr.value);
      if version.Some? {
        if channel.Some? {
          assert Present([channel, version]) == [channel.value, version.value];
          assert Tagged(base, [channel.value, version.value])
              == Tagged(base + "#" + channel.value + "#" + version.value, []);
        } else {
          assert Present([channel, version]) == [version.value];
        }
      }
    } else {
      if channel.Some? {
        assert Present([channel, None]) == [channel.value];
      } else {
        assert Present([channel, None]) == [];
      }
    }
  }

  /** With a content id the path is `pkg_obj_dir + "." + pkg_id + "/" + cid`,
      whatever the resolver helpers would answer. */
  lemma ContentIdPath(pkgDir: string, pkgObjDir: string, p: Parsed,
                      channelOf: Option<string> -> Option<string>, exactOf: string -> Option<string>,
                      channelOf': Option<string> -> Option<string>, exactOf': string -> Option<string>)
    requires p.cid.Some?
    ensures PlanLookup(pkgDir, pkgObjDir, p, channelOf, exactOf)
         == PlanLookup(pkgDir, pkgObjDir, p, channelOf', exactOf')
         == Plan([], Some(pkgObjDir + "." + p.pkgId + "/" + p.cid.value))
  {
  }
}

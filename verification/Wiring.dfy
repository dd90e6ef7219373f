/** From configuration to key sources, and from sources to signing or verifying plugins. */
module Wiring {
  import opened Wrappers
  import opened Config
  import opened Sources

  /** Private sources feed signers, public ones feed verifiers; the builders differ in nothing else. */
  datatype Role = Signer | Verifier

  /** A cached source and the usage its fetch asks for. */
  datatype SourceSpec = SourceSpec(usage: Usage, policy: Policy)

  datatype SourceSet = SourceSet(eddsa: map<Usage, SourceSpec>, es: map<Usage, SourceSpec>, rsa: map<Usage, SourceSpec>)

  /** Presets are named by their algorithm; an ECDSA plugin built after a missed lookup has none. */
  datatype Plugin =
    | EdDSAPlugin(source: SourceSpec)
    | EcdsaPlugin(source: SourceSpec, ecdsaPreset: Option<Alg>)
    | RsaPlugin(source: SourceSpec, rsaPreset: Alg)

  type Plugins = map<Usage, seq<Plugin>>

  predicate IsEcdsa(alg: Alg) {
    alg.ES256? || alg.ES384? || alg.ES512?
  }

  predicate IsRsa(alg: Alg) {
    alg.RS256? || alg.RS384? || alg.RS512? || alg.PS256? || alg.PS384? || alg.PS512?
  }

  /** `JwsPresetsEcdsa` and `JwsPresetsRsa`. */
  function EcdsaPreset(alg: Alg): Option<Alg> {
    if IsEcdsa(alg) then Some(alg) else None
  }

  function RsaPreset(alg: Alg): Option<Alg> {
    if IsRsa(alg) then Some(alg) else None
  }

  function SpecOf(role: Role, usage: Usage, c: UsageConfig): SourceSpec {
    SourceSpec(usage, PolicyFor(role.Verifier?, c.key))
  }

  datatype Family = EdwardsFamily | EcdsaFamily | RsaFamily

  function FamilyOf(alg: Alg): Option<Family> {
    if alg.EdDSA? then Some(EdwardsFamily)
    else if IsEcdsa(alg) then Some(EcdsaFamily)
    else if IsRsa(alg) then Some(RsaFamily)
    else None
  }

  /** The bucket holds the usages of `done` whose algorithm is of the family, each with its own source. */
  predicate IsBucket(role: Role, keys: KeysConfig, done: set<Usage>, family: Family, bucket: map<Usage, SourceSpec>) {
    && (forall u :: u in bucket ==>
                      && u in done && u in keys && FamilyOf(keys[u].alg) == Some(family)
                      && bucket[u] == SpecOf(role, u, keys[u]))
    && (forall u :: u in done && u in keys && FamilyOf(keys[u].alg) == Some(family) ==> u in bucket)
  }

  predicate Bucketed(role: Role, keys: KeysConfig, done: set<Usage>, s: SourceSet) {
    && IsBucket(role, keys, done, EdwardsFamily, s.eddsa)
    && IsBucket(role, keys, done, EcdsaFamily, s.es)
    && IsBucket(role, keys, done, RsaFamily, s.rsa)
  }

  /** One usage more: its family's bucket gets its source, the others stay. */
  lemma BucketGrows(
    role: Role, keys: KeysConfig, done: set<Usage>, family: Family, bucket: map<Usage, SourceSpec>, u: Usage)
    requires IsBucket(role, keys, done, family, bucket) && u in keys
    ensures IsBucket(role, keys, done + {u}, family,
                     if FamilyOf(keys[u].alg) == Some(family) then bucket[u := SpecOf(role, u, keys[u])] else bucket)
  {
  }

  /** Fails exactly when some usage has an unregistered algorithm, in whatever order the map is walked. */
  method NewJwkSources(role: Role, keys: KeysConfig) returns (r: Result<SourceSet, Error>)
    ensures r.Ok? <==> forall u :: u in keys ==> Registered(keys[u].alg)
    ensures r.Err? ==> r.error == UnknownAlgorithm
    ensures r.Ok? ==> Bucketed(role, keys, keys.Keys, r.value)
    ensures r.Ok? ==> forall u :: u in keys ==>
              && (u in r.value.eddsa <==> keys[u].alg.EdDSA?)
              && (u in r.value.es <==> keys[u].alg.ES256? || keys[u].alg.ES384? || keys[u].alg.ES512?)
              && (u in r.value.rsa <==>
                    || keys[u].alg.RS256? || keys[u].alg.RS384? || keys[u].alg.RS512?
                    || keys[u].alg.PS256? || keys[u].alg.PS384? || keys[u].alg.PS512?)
    ensures r.Ok? ==> r.value.eddsa.Keys + r.value.es.Keys + r.value.rsa.Keys == keys.Keys
    ensures r.Ok? ==> forall u :: u in r.value.eddsa ==>
              r.value.eddsa[u].usage == u && r.value.eddsa[u].policy.cache == keys[u].key.cache
    ensures r.Ok? ==> forall u :: u in r.value.es ==>
              r.value.es[u].usage == u && r.value.es[u].policy.cache == keys[u].key.cache
    ensures r.Ok? ==> forall u :: u in r.value.rsa ==>
              r.value.rsa[u].usage == u && r.value.rsa[u].policy.cache == keys[u].key.cache
  {
    var output := SourceSet(map[], map[], map[]);
    var todo := keys.Keys;
    ghost var done: set<Usage> := {};
    while todo != {}
      invariant done + todo == keys.Keys
      invariant forall u :: u in done ==> Registered(keys[u].alg)
      invariant Bucketed(role, keys, done, output)
      decreases todo
    {
      var usage :| usage in todo;
      var source := SpecOf(role, usage, keys[usage]);
      BucketGrows(role, keys, done, EdwardsFamily, output.eddsa, usage);
      BucketGrows(role, keys, done, EcdsaFamily, output.es, usage);
      BucketGrows(role, keys, done, RsaFamily, output.rsa, usage);
      match keys[usage].alg {
        case EdDSA => output := output.(eddsa := output.eddsa[usage := source]);
        case ES256 | ES384 | ES512 => output := output.(es := output.es[usage := source]);
        case RS256 | RS384 | RS512 | PS256 | PS384 | PS512 => output := output.(rsa := output.rsa[usage := source]);
        case OtherAlg(_) => return Err(UnknownAlgorithm);
      }
      todo := todo - {usage};
      done := done + {usage};
    }
    assert done == keys.Keys;
    WhatBucketsHold(role, keys, output);
    return Ok(output);
  }

  lemma WhatBucketsHold(role: Role, keys: KeysConfig, s: SourceSet)
    requires Bucketed(role, keys, keys.Keys, s) && forall u :: u in keys ==> Registered(keys[u].alg)
    ensures forall u :: u in keys ==>
              && (u in s.eddsa <==> keys[u].alg.EdDSA?)
              && (u in s.es <==> keys[u].alg.ES256? || keys[u].alg.ES384? || keys[u].alg.ES512?)
              && (u in s.rsa <==>
                    || keys[u].alg.RS256? || keys[u].alg.RS384? || keys[u].alg.RS512?
                    || keys[u].alg.PS256? || keys[u].alg.PS384? || keys[u].alg.PS512?)
    ensures s.eddsa.Keys + s.es.Keys + s.rsa.Keys == keys.Keys
  {
    forall u | u in keys ensures u in s.eddsa.Keys + s.es.Keys + s.rsa.Keys {
      assert Registered(keys[u].alg);
    }
  }

  /** What the three loops give a usage, given the buckets it stands in. */
  function PluginsOf(s: SourceSet, keys: KeysConfig, u: Usage): seq<Plugin>
    requires u in keys
  {
    (if u in s.eddsa then [EdDSAPlugin(s.eddsa[u])] else [])
    + (if u in s.es then [EcdsaPlugin(s.es[u], EcdsaPreset(keys[u].alg))] else [])
    + (if u in s.rsa && RsaPreset(keys[u].alg).Some? then [RsaPlugin(s.rsa[u], RsaPreset(keys[u].alg).value)] else [])
  }

  function At(output: Plugins, u: Usage): seq<Plugin> {
    if u in output then output[u] else []
  }

  /** `output` is `base` with one more plugin at the end for each usage of `done`. */
  predicate Extends(base: Plugins, output: Plugins, done: set<Usage>, plugins: map<Usage, Plugin>) {
    && done <= plugins.Keys
    && output.Keys == base.Keys + done
    && forall u :: u in output ==> output[u] == At(base, u) + (if u in done then [plugins[u]] else [])
  }

  lemma ExtendsMore(base: Plugins, output: Plugins, done: set<Usage>, plugins: map<Usage, Plugin>, u: Usage)
    requires Extends(base, output, done, plugins) && u in plugins && u !in done
    ensures Extends(base, output[u := At(output, u) + [plugins[u]]], done + {u}, plugins)
  {
  }

  function EdDSAPlugins(s: SourceSet): map<Usage, Plugin> {
    map u | u in s.eddsa :: EdDSAPlugin(s.eddsa[u])
  }

  function EcdsaPlugins(s: SourceSet, keys: KeysConfig): map<Usage, Plugin>
    requires s.es.Keys <= keys.Keys
  {
    map u | u in s.es :: EcdsaPlugin(s.es[u], EcdsaPreset(keys[u].alg))
  }

  function RsaPlugins(s: SourceSet, keys: KeysConfig): map<Usage, Plugin>
    requires s.rsa.Keys <= keys.Keys
  {
    map u | u in s.rsa && RsaPreset(keys[u].alg).Some? :: RsaPlugin(s.rsa[u], RsaPreset(keys[u].alg).value)
  }

  /** The first loop of the builder. */
  method WireEdDSA(sources: SourceSet) returns (output: Plugins)
    ensures Extends(map[], output, sources.eddsa.Keys, EdDSAPlugins(sources))
  {
    output := map[];
    var todo := sources.eddsa.Keys;
    ghost var done: set<Usage> := {};
    while todo != {}
      invariant done !! todo && done + todo == sources.eddsa.Keys
      invariant Extends(map[], output, done, EdDSAPlugins(sources))
      decreases todo
    {
      var usage :| usage in todo;
      ExtendsMore(map[], output, done, EdDSAPlugins(sources), usage);
      assert At(output, usage) == [];
      output := output[usage := [EdDSAPlugin(sources.eddsa[usage])]];
      todo, done := todo - {usage}, done + {usage};
    }
    assert done == sources.eddsa.Keys;
  }

  /** The second loop: the preset lookup is not guarded. */
  method WireEcdsa(sources: SourceSet, keys: KeysConfig, base: Plugins) returns (output: Plugins)
    requires sources.es.Keys <= keys.Keys
    ensures Extends(base, output, sources.es.Keys, EcdsaPlugins(sources, keys))
  {
    output := base;
    var todo := sources.es.Keys;
    ghost var done: set<Usage> := {};
    while todo != {}
      invariant done !! todo && done + todo == sources.es.Keys
      invariant Extends(base, output, done, EcdsaPlugins(sources, keys))
      decreases todo
    {
      var usage :| usage in todo;
      ExtendsMore(base, output, done, EcdsaPlugins(sources, keys), usage);
      output := output[usage := At(output, usage) + [EcdsaPlugin(sources.es[usage], EcdsaPreset(keys[usage].alg))]];
      todo, done := todo - {usage}, done + {usage};
    }
    assert done == sources.es.Keys;
  }

  /** The third loop: a missing preset is an error. */
  method WireRsa(sources: SourceSet, keys: KeysConfig, base: Plugins) returns (r: Result<Plugins, Error>)
    requires sources.rsa.Keys <= keys.Keys
    ensures r.Ok? <==> forall u :: u in sources.rsa ==> RsaPreset(keys[u].alg).Some?
    ensures r.Err? ==> r.error == PresetUnknown
    ensures r.Ok? ==> Extends(base, r.value, sources.rsa.Keys, RsaPlugins(sources, keys))
  {
    var output := base;
    var todo := sources.rsa.Keys;
    ghost var done: set<Usage> := {};
    while todo != {}
      invariant done !! todo && done + todo == sources.rsa.Keys
      invariant Extends(base, output, done, RsaPlugins(sources, keys))
      decreases todo
    {
      var usage :| usage in todo;
      var preset := RsaPreset(keys[usage].alg);
      if preset.None? {
        return Err(PresetUnknown);
      }
      ExtendsMore(base, output, done, RsaPlugins(sources, keys), usage);
      output := output[usage := At(output, usage) + [RsaPlugin(sources.rsa[usage], preset.value)]];
      todo, done := todo - {usage}, done + {usage};
    }
    assert done == sources.rsa.Keys;
    return Ok(output);
  }

  /** Producers and recipients: one loop per bucket; only the RSA lookup is guarded. */
  method NewJwkPlugins(sources: SourceSet, keys: KeysConfig) returns (r: Result<Plugins, Error>)
    requires sources.es.Keys + sources.rsa.Keys <= keys.Keys
    ensures r.Ok? <==> forall u :: u in sources.rsa ==> RsaPreset(keys[u].alg).Some?
    ensures r.Err? ==> r.error == PresetUnknown
    ensures r.Ok? ==> Wired(sources, keys, r.value)
  {
    var eddsa := WireEdDSA(sources);
    var es := WireEcdsa(sources, keys, eddsa);
    r := WireRsa(sources, keys, es);
    if r.Ok? {
      ThreeLoops(sources, keys, eddsa, es, r.value);
    }
  }

  predicate Wired(sources: SourceSet, keys: KeysConfig, output: Plugins)
    requires sources.es.Keys + sources.rsa.Keys <= keys.Keys
  {
    && output.Keys == sources.eddsa.Keys + sources.es.Keys + sources.rsa.Keys
    && forall u :: u in output && u in keys ==> output[u] == PluginsOf(sources, keys, u)
  }

  lemma ThreeLoops(sources: SourceSet, keys: KeysConfig, eddsa: Plugins, es: Plugins, output: Plugins)
    requires sources.es.Keys + sources.rsa.Keys <= keys.Keys
    requires Extends(map[], eddsa, sources.eddsa.Keys, EdDSAPlugins(sources))
    requires Extends(eddsa, es, sources.es.Keys, EcdsaPlugins(sources, keys))
    requires Extends(es, output, sources.rsa.Keys, RsaPlugins(sources, keys))
    ensures Wired(sources, keys, output)
  {
    forall u | u in output && u in keys ensures output[u] == PluginsOf(sources, keys, u) {
      assert output[u] == At(es, u) + (if u in sources.rsa then [RsaPlugins(sources, keys)[u]] else []);
      assert At(es, u) == At(eddsa, u) + (if u in sources.es then [EcdsaPlugins(sources, keys)[u]] else []);
      assert At(eddsa, u) == if u in sources.eddsa then [EdDSAPlugins(sources)[u]] else [];
    }
  }

  /** The plugin an algorithm calls for. */
  function PluginFor(alg: Alg, source: SourceSpec): Plugin
    requires Registered(alg)
  {
    match alg
    case EdDSA => EdDSAPlugin(source)
    case ES256 | ES384 | ES512 => EcdsaPlugin(source, Some(alg))
    case _ => RsaPlugin(source, alg)
  }

  /** The buckets partition the usages: no preset lookup misses, each usage has one plugin, over its own source. */
  lemma OnePluginPerUsage(role: Role, keys: KeysConfig, s: SourceSet, u: Usage)
    requires (forall v :: v in keys ==> Registered(keys[v].alg)) && Bucketed(role, keys, keys.Keys, s) && u in keys
    ensures s.eddsa.Keys !! s.es.Keys && s.eddsa.Keys !! s.rsa.Keys && s.es.Keys !! s.rsa.Keys
    ensures s.eddsa.Keys + s.es.Keys + s.rsa.Keys == keys.Keys
    ensures u in s.rsa ==> RsaPreset(keys[u].alg) == Some(keys[u].alg)
    ensures u in s.es ==> EcdsaPreset(keys[u].alg) == Some(keys[u].alg)
    ensures PluginsOf(s, keys, u) == [PluginFor(keys[u].alg, SpecOf(role, u, keys[u]))]
  {
    forall v | v in keys ensures v in s.eddsa.Keys + s.es.Keys + s.rsa.Keys {
      assert Registered(keys[v].alg);
    }
  }

  /**
   Sources and plugins together. The only failure is an unregistered algorithm; otherwise every
   usage has exactly the one plugin of its algorithm, over a source that fetches that usage.
   */
  method Wire(role: Role, keys: KeysConfig) returns (r: Result<Plugins, Error>)
    ensures r.Ok? <==> forall u :: u in keys ==> Registered(keys[u].alg)
    ensures r.Err? ==> r.error == UnknownAlgorithm
    ensures r.Ok? ==> r.value.Keys == keys.Keys
                      && forall u :: u in keys ==> r.value[u] == [PluginFor(keys[u].alg, SpecOf(role, u, keys[u]))]
    ensures r.Ok? ==> forall u :: u in keys ==>
              && |r.value[u]| == 1
              && var plugin, alg := r.value[u][0], keys[u].alg;
                 && plugin.source.usage == u && plugin.source.policy.cache == keys[u].key.cache
                 && (plugin.source.policy.refreshOnUnknown <==> role.Verifier?)
                 && (role.Verifier? ==> plugin.source.policy.interval == keys[u].key.unknownKeyIdInterval)
                 && (plugin.EdDSAPlugin? <==> alg.EdDSA?)
                 && (plugin.EcdsaPlugin? <==> alg.ES256? || alg.ES384? || alg.ES512?)
                 && (plugin.EcdsaPlugin? ==> plugin.ecdsaPreset == Some(alg))
                 && (plugin.RsaPlugin? ==> plugin.rsaPreset == alg)
  {
    var sources := NewJwkSources(role, keys);
    if sources.Err? {
      return Err(sources.error);
    }
    forall u | u in keys
      ensures PluginsOf(sources.value, keys, u) == [PluginFor(keys[u].alg, SpecOf(role, u, keys[u]))]
    {
      OnePluginPerUsage(role, keys, sources.value, u);
    }
    if u: Usage :| u in keys {
      OnePluginPerUsage(role, keys, sources.value, u);
    }
    r := NewJwkPlugins(sources.value, keys);
  }
}

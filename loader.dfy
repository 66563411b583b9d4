/**
 * The layered load of config.go. A caller-owned target object is decoded from
 * a base document, then from each override file and each override byte blob
 * in order, then from the environment when that is enabled. Every layer
 * writes into the same object and the first failure ends the load, with the
 * writes made so far left in place.
 *
 * The YAML decoder, `yaml.Unmarshal`, the file system and the environment
 * stage are external; they are the fields of a `Collaborators` value passed in. A decode is
 * described by its `Effect`: the fields it assigned and the error it returned.
 */
module Loader {
  import opened Wrappers
  import opened Options

  /** The path of a field in the target structure, outermost field first. */
  type FieldPath = seq<string>

  /** A scalar field value. */
  datatype Value = Str(s: string) | Bool(b: bool) | Float(x: real)

  /** The fields of a target object that hold a value; an absent path still has its zero value. */
  type Fields = map<FieldPath, Value>

  /** What one stage did: the fields it assigned, and its error (`None` for nil). */
  datatype Effect = Effect(written: Fields, err: Option<string>)

  /** The result of a load: the target's fields afterwards, and the error returned. */
  datatype Outcome = Outcome(fields: Fields, err: Option<string>)

  /**
   * The external collaborators: reading a file, decoding a document with a
   * `yaml.Decoder` (with unknown keys rejected when the flag is set),
   * `yaml.Unmarshal`, and the environment stage (fields, prefix, lookup).
   * The two YAML entry points are separate because they differ: on a
   * document with no content the decoder returns `io.EOF` and `Unmarshal`
   * returns nil.
   */
  datatype Collaborators = Collaborators(
    readFile: string -> Result<Bytes, string>,
    decode: (Bytes, bool) -> Effect,
    unmarshal: Bytes -> Effect,
    envigo: (Fields, string, Getter) -> Effect)

  /** The caller-allocated configuration object that every layer mutates in place. */
  class Target {
    var fields: Fields

    /** A zero-valued object, as `&Config{}`. */
    constructor ()
      ensures fields == map[]
    {
      fields := map[];
    }
  }

  /** The header every error of `LoadConfig` carries. */
  const LoadConfigPrefix := "LoadConfig error: "

  /** The header every error of `LoadConfigBytes` carries. */
  const LoadConfigBytesPrefix := "LoadConfigBytes error: "

  const OverridePrefix := "override error: "

  const EnvigoPrefix := "envigo error: "

  // The specification of one layer and of the pipeline

  /** The bytes the decoder is given: patched iff a patch hook is set. */
  function PatchedBytes(b: Bytes, opts: LoadConfigOptions): Bytes {
    if opts.yamlPatchBytes.Some? then opts.yamlPatchBytes.value(b) else b
  }

  /** One document decoded with the options: patched first, strict iff keys are validated. */
  function DecodeBytes(b: Bytes, opts: LoadConfigOptions, c: Collaborators): Effect {
    c.decode(PatchedBytes(b, opts), opts.yamlValidateKeys)
  }

  /** One file read and decoded; a read error is returned as it is, with nothing written. */
  function DecodeFile(path: string, opts: LoadConfigOptions, c: Collaborators): Effect {
    match c.readFile(path)
    case Failure(e) => Effect(map[], Some(e))
    case Success(b) => DecodeBytes(b, opts, c)
  }

  /** The file override layers, in the order they were added. */
  function FileLayers(opts: LoadConfigOptions, c: Collaborators): (r: seq<Effect>)
    ensures |r| == |opts.overrideConfigFiles|
    ensures forall i :: 0 <= i < |r| ==> r[i] == DecodeFile(opts.overrideConfigFiles[i], opts, c)
  {
    var files := opts.overrideConfigFiles;
    seq(|files|, i requires 0 <= i < |files| => DecodeFile(files[i], opts, c))
  }

  /** The byte override layers, in the order they were added. */
  function BlobLayers(opts: LoadConfigOptions, c: Collaborators): (r: seq<Effect>)
    ensures |r| == |opts.overrideConfigBytes|
    ensures forall j :: 0 <= j < |r| ==> r[j] == DecodeBytes(opts.overrideConfigBytes[j], opts, c)
  {
    var blobs := opts.overrideConfigBytes;
    seq(|blobs|, j requires 0 <= j < |blobs| => DecodeBytes(blobs[j], opts, c))
  }

  /** The override layers in the order `applyOpts` runs them: every file override, then every byte override. */
  function OverrideLayers(opts: LoadConfigOptions, c: Collaborators): (r: seq<Effect>)
    ensures |r| == |opts.overrideConfigFiles| + |opts.overrideConfigBytes|
    ensures forall i :: 0 <= i < |opts.overrideConfigFiles| ==>
      r[i] == DecodeFile(opts.overrideConfigFiles[i], opts, c)
    ensures forall j :: 0 <= j < |opts.overrideConfigBytes| ==>
      r[|opts.overrideConfigFiles| + j] == DecodeBytes(opts.overrideConfigBytes[j], opts, c)
  {
    FileLayers(opts, c) + BlobLayers(opts, c)
  }

  /** The layers written one after the other onto `fields`, up to and including the first that fails. */
  function RunLayers(fields: Fields, layers: seq<Effect>): Outcome
    decreases |layers|
  {
    if |layers| == 0 then Outcome(fields, None)
    else
      var next := fields + layers[0].written;
      if layers[0].err.Some? then Outcome(next, layers[0].err) else RunLayers(next, layers[1..])
  }

  /** `applyOpts`: the override layers, then the environment stage if enabled; errors get the stage's header. */
  function ApplyOptsResult(fields: Fields, opts: LoadConfigOptions, c: Collaborators): Outcome {
    var overridden := RunLayers(fields, OverrideLayers(opts, c));
    if overridden.err.Some? then Outcome(overridden.fields, Some(OverridePrefix + overridden.err.value))
    else if !opts.envOverride then overridden
    else
      var env := c.envigo(overridden.fields, opts.envPrefix, opts.envGetter);
      Outcome(overridden.fields + env.written, if env.err.Some? then Some(EnvigoPrefix + env.err.value) else None)
  }

  /** A load from a base layer: the base, then `applyOpts`; every error gets the call site's header. */
  function Load(fields: Fields, base: Effect, opts: LoadConfigOptions, c: Collaborators, header: string): Outcome {
    var decoded := fields + base.written;
    if base.err.Some? then Outcome(decoded, Some(header + base.err.value))
    else
      var applied := ApplyOptsResult(decoded, opts, c);
      Outcome(applied.fields, if applied.err.Some? then Some(header + applied.err.value) else None)
  }

  /** `LoadConfig` on a target holding `fields`; `environ` is the process environment. */
  function LoadConfigResult(fields: Fields, configFile: string, environ: Getter, optFuncs: seq<OptFunc>, c: Collaborators): Outcome {
    var opts := ApplyAll(Defaults(environ), optFuncs);
    Load(fields, DecodeFile(configFile, opts, c), opts, c, LoadConfigPrefix)
  }

  /** `LoadConfigBytes` on a target holding `fields`. */
  function LoadConfigBytesResult(fields: Fields, configBytes: Bytes, environ: Getter, optFuncs: seq<OptFunc>, c: Collaborators): Outcome {
    var opts := ApplyAll(Defaults(environ), optFuncs);
    Load(fields, DecodeBytes(configBytes, opts, c), opts, c, LoadConfigBytesPrefix)
  }

  /** A file read and unmarshalled as `LoadConfigFile` does it: no patch, no key validation, no further layers. */
  function PlainFileResult(fields: Fields, configFile: string, c: Collaborators): Outcome {
    match c.readFile(configFile)
    case Failure(e) => Outcome(fields, Some(e))
    case Success(b) =>
      var decoded := c.unmarshal(b);
      Outcome(fields + decoded.written, decoded.err)
  }

  // The pipeline, acting on the target in place

  /** `LoadConfigFile`: read the file and unmarshal it into the target; no options, no overrides, no environment. */
  method LoadConfigFile(configFile: string, config: Target, c: Collaborators) returns (err: Option<string>)
    modifies config
    ensures Outcome(config.fields, err) == PlainFileResult(old(config.fields), configFile, c)
  {
    var read := c.readFile(configFile);
    if read.Failure? {
      return Some(read.error);
    }
    var decoded := c.unmarshal(read.value);
    config.fields := config.fields + decoded.written;
    err := decoded.err;
  }

  /** `loadConfigBytesOpts`: patch if a hook is set, then decode into the target, strictly iff keys are validated. */
  method LoadConfigBytesOpts(configBytes: Bytes, config: Target, opts: LoadConfigOptions, c: Collaborators)
    returns (err: Option<string>)
    modifies config
    ensures config.fields == old(config.fields) + DecodeBytes(configBytes, opts, c).written
    ensures err == DecodeBytes(configBytes, opts, c).err
  {
    var b := configBytes;
    if opts.yamlPatchBytes.Some? {
      b := opts.yamlPatchBytes.value(b);
    }
    var decoded := c.decode(b, opts.yamlValidateKeys);
    config.fields := config.fields + decoded.written;
    err := decoded.err;
  }

  /** `loadConfigFileOpts`: read the file, then decode it into the target. */
  method LoadConfigFileOpts(configFile: string, config: Target, opts: LoadConfigOptions, c: Collaborators)
    returns (err: Option<string>)
    modifies config
    ensures config.fields == old(config.fields) + DecodeFile(configFile, opts, c).written
    ensures err == DecodeFile(configFile, opts, c).err
  {
    var read := c.readFile(configFile);
    if read.Failure? {
      return Some(read.error);
    }
    err := LoadConfigBytesOpts(read.value, config, opts, c);
  }

  /** The first loop of `applyOpts`: every file override in order, stopping at the first error. */
  method ApplyFileOverrides(config: Target, opts: LoadConfigOptions, c: Collaborators) returns (err: Option<string>)
    modifies config
    ensures Outcome(config.fields, err) == RunLayers(old(config.fields), FileLayers(opts, c))
  {
    ghost var layers := FileLayers(opts, c);
    var files := opts.overrideConfigFiles;
    for i := 0 to |files|
      invariant RunLayers(old(config.fields), layers[..i]) == Outcome(config.fields, None)
    {
      var e := LoadConfigFileOpts(files[i], config, opts, c);
      RunLayersExtend(old(config.fields), layers[..i], layers[i]);
      assert layers[..i] + [layers[i]] == layers[..i + 1];
      if e.Some? {
        RunLayersFailed(old(config.fields), layers[..i + 1], layers[i + 1..]);
        assert layers[..i + 1] + layers[i + 1..] == layers;
        return e;
      }
    }
    assert layers[..|files|] == layers;
    return None;
  }

  /** The second loop of `applyOpts`: every byte override in order, stopping at the first error. */
  method ApplyBlobOverrides(config: Target, opts: LoadConfigOptions, c: Collaborators) returns (err: Option<string>)
    modifies config
    ensures Outcome(config.fields, err) == RunLayers(old(config.fields), BlobLayers(opts, c))
  {
    ghost var layers := BlobLayers(opts, c);
    var blobs := opts.overrideConfigBytes;
    for j := 0 to |blobs|
      invariant RunLayers(old(config.fields), layers[..j]) == Outcome(config.fields, None)
    {
      var e := LoadConfigBytesOpts(blobs[j], config, opts, c);
      RunLayersExtend(old(config.fields), layers[..j], layers[j]);
      assert layers[..j] + [layers[j]] == layers[..j + 1];
      if e.Some? {
        RunLayersFailed(old(config.fields), layers[..j + 1], layers[j + 1..]);
        assert layers[..j + 1] + layers[j + 1..] == layers;
        return e;
      }
    }
    assert layers[..|blobs|] == layers;
    return None;
  }

  /** `applyOpts`: file overrides, byte overrides, then the environment, returning at the first error. */
  method ApplyOpts(config: Target, opts: LoadConfigOptions, c: Collaborators) returns (err: Option<string>)
    modifies config
    ensures Outcome(config.fields, err) == ApplyOptsResult(old(config.fields), opts, c)
  {
    RunLayersAppend(config.fields, FileLayers(opts, c), BlobLayers(opts, c));
    var e := ApplyFileOverrides(config, opts, c);
    if e.Some? {
      return Some(OverridePrefix + e.value);
    }
    e := ApplyBlobOverrides(config, opts, c);
    if e.Some? {
      return Some(OverridePrefix + e.value);
    }
    if opts.envOverride {
      var env := c.envigo(config.fields, opts.envPrefix, opts.envGetter);
      config.fields := config.fields + env.written;
      if env.err.Some? {
        return Some(EnvigoPrefix + env.err.value);
      }
    }
    return None;
  }

  /** `LoadConfig`: resolve the options, decode the base file, apply the options' layers. */
  method LoadConfig(configFile: string, config: Target, environ: Getter, optFuncs: seq<OptFunc>, c: Collaborators)
    returns (err: Option<string>)
    modifies config
    ensures Outcome(config.fields, err) == LoadConfigResult(old(config.fields), configFile, environ, optFuncs, c)
  {
    var opts := GetOpts(environ, optFuncs);
    var e := LoadConfigFileOpts(configFile, config, opts, c);
    if e.Some? {
      return Some(LoadConfigPrefix + e.value);
    }
    e := ApplyOpts(config, opts, c);
    if e.Some? {
      return Some(LoadConfigPrefix + e.value);
    }
    return None;
  }

  /** `LoadConfigBytes`: resolve the options, decode the base bytes, apply the options' layers. */
  method LoadConfigBytes(configFileBytes: Bytes, config: Target, environ: Getter, optFuncs: seq<OptFunc>, c: Collaborators)
    returns (err: Option<string>)
    modifies config
    ensures Outcome(config.fields, err) == LoadConfigBytesResult(old(config.fields), configFileBytes, environ, optFuncs, c)
  {
    var opts := GetOpts(environ, optFuncs);
    var e := LoadConfigBytesOpts(configFileBytes, config, opts, c);
    if e.Some? {
      return Some(LoadConfigBytesPrefix + e.value);
    }
    e := ApplyOpts(config, opts, c);
    if e.Some? {
      return Some(LoadConfigBytesPrefix + e.value);
    }
    return None;
  }

  // Properties of the layer pipeline

  /** After layers that all succeeded, one more layer is written on top and its error is the result's. */
  lemma {:induction false} RunLayersExtend(fields: Fields, layers: seq<Effect>, next: Effect)
    requires RunLayers(fields, layers).err.None?
    ensures RunLayers(fields, layers + [next]) == Outcome(RunLayers(fields, layers).fields + next.written, next.err)
    decreases |layers|
  {
    if |layers| > 0 {
      assert (layers + [next])[1..] == layers[1..] + [next];
      RunLayersExtend(fields + layers[0].written, layers[1..], next);
    } else {
      assert layers + [next] == [next];
    }
  }

  /** Once a layer has failed, later layers are not applied. */
  lemma {:induction false} RunLayersFailed(fields: Fields, layers: seq<Effect>, later: seq<Effect>)
    requires RunLayers(fields, layers).err.Some?
    ensures RunLayers(fields, layers + later) == RunLayers(fields, layers)
    decreases |layers|
  {
    assert |layers| > 0;
    if layers[0].err.None? {
      assert (layers + later)[1..] == layers[1..] + later;
      RunLayersFailed(fields + layers[0].written, layers[1..], later);
    }
  }

  /** Running `a + b` is running `a`, then, if that succeeded, running `b` on its result. */
  lemma {:induction false} RunLayersAppend(fields: Fields, a: seq<Effect>, b: seq<Effect>)
    ensures var first := RunLayers(fields, a);
      RunLayers(fields, a + b) == if first.err.Some? then first else RunLayers(first.fields, b)
    decreases |a|
  {
    if |a| == 0 {
      assert a + b == b;
    } else if a[0].err.None? {
      assert (a + b)[1..] == a[1..] + b;
      RunLayersAppend(fields + a[0].written, a[1..], b);
    }
  }

  /** The pipeline succeeds iff every layer does. */
  lemma {:induction false} RunLayersSucceedsIff(fields: Fields, layers: seq<Effect>)
    ensures RunLayers(fields, layers).err.None? <==> forall j :: 0 <= j < |layers| ==> layers[j].err.None?
    decreases |layers|
  {
    if |layers| > 0 {
      RunLayersSucceedsIff(fields + layers[0].written, layers[1..]);
      assert forall j :: 1 <= j < |layers| ==> layers[j] == layers[1..][j - 1];
    }
  }

  /**
   * The first failing layer ends the pipeline: its error is the result, its
   * writes and those of the layers before it remain, and no later layer is applied.
   */
  lemma FirstFailureStops(fields: Fields, layers: seq<Effect>, k: nat)
    requires k < |layers| && layers[k].err.Some?
    requires forall j :: 0 <= j < k ==> layers[j].err.None?
    ensures RunLayers(fields, layers) == Outcome(RunLayers(fields, layers[..k]).fields + layers[k].written, layers[k].err)
  {
    RunLayersSucceedsIff(fields, layers[..k]);
    RunLayersExtend(fields, layers[..k], layers[k]);
    assert layers[..k] + [layers[k]] == layers[..k + 1];
    RunLayersFailed(fields, layers[..k + 1], layers[k + 1..]);
    assert layers[..k + 1] + layers[k + 1..] == layers;
  }

  /** All the writes of the layers merged, a later layer's value winning over an earlier one's. */
  function MergedWrites(layers: seq<Effect>): Fields
    decreases |layers|
  {
    if |layers| == 0 then map[] else layers[0].written + MergedWrites(layers[1..])
  }

  /** When every layer succeeds, the result is the starting fields overlaid with all the writes. */
  lemma {:induction false} RunLayersMerges(fields: Fields, layers: seq<Effect>)
    requires forall j :: 0 <= j < |layers| ==> layers[j].err.None?
    ensures RunLayers(fields, layers) == Outcome(fields + MergedWrites(layers), None)
    decreases |layers|
  {
    if |layers| > 0 {
      var w, rest := layers[0].written, layers[1..];
      assert forall j :: 0 <= j < |rest| ==> rest[j] == layers[j + 1];
      RunLayersMerges(fields + w, rest);
      assert (fields + w) + MergedWrites(rest) == fields + (w + MergedWrites(rest));
    }
  }

  /** A field that the last layer to write it set keeps that layer's value. */
  lemma {:induction false} LastWriterWins(fields: Fields, layers: seq<Effect>, p: FieldPath, k: nat)
    requires forall j :: 0 <= j < |layers| ==> layers[j].err.None?
    requires k < |layers| && p in layers[k].written
    requires forall j :: k < j < |layers| ==> p !in layers[j].written
    ensures p in RunLayers(fields, layers).fields
    ensures RunLayers(fields, layers).fields[p] == layers[k].written[p]
    decreases |layers|
  {
    if k > 0 {
      var rest := layers[1..];
      assert forall j :: 0 <= j < |rest| ==> rest[j] == layers[j + 1];
      LastWriterWins(fields + layers[0].written, rest, p, k - 1);
    } else {
      UnwrittenKeepsValue(fields + layers[0].written, layers[1..], p);
    }
  }

  /** A field no layer writes keeps the value (or the absence) it had before. */
  lemma {:induction false} UnwrittenKeepsValue(fields: Fields, layers: seq<Effect>, p: FieldPath)
    requires forall j :: 0 <= j < |layers| ==> p !in layers[j].written
    ensures p in RunLayers(fields, layers).fields <==> p in fields
    ensures p in fields ==> RunLayers(fields, layers).fields[p] == fields[p]
    decreases |layers|
  {
    if |layers| > 0 && layers[0].err.None? {
      var rest := layers[1..];
      assert forall j :: 0 <= j < |rest| ==> rest[j] == layers[j + 1];
      UnwrittenKeepsValue(fields + layers[0].written, rest, p);
    }
  }

  /** Applying the same successful layers again changes nothing. */
  lemma RunLayersIdempotent(fields: Fields, layers: seq<Effect>)
    requires forall j :: 0 <= j < |layers| ==> layers[j].err.None?
    ensures RunLayers(RunLayers(fields, layers).fields, layers) == RunLayers(fields, layers)
  {
    RunLayersMerges(fields, layers);
    var w := MergedWrites(layers);
    RunLayersMerges(fields + w, layers);
    assert (fields + w) + w == fields + w;
  }

  // Properties of applyOpts and of the two load entry points

  /** The patch hook, when set, is applied to the document before the decoder sees it, and the key strictness is passed through. */
  lemma PatchBeforeDecode(b: Bytes, opts: LoadConfigOptions, c: Collaborators, patch: Patch)
    ensures DecodeBytes(b, opts.(yamlPatchBytes := Some(patch)), c) == c.decode(patch(b), opts.yamlValidateKeys)
    ensures DecodeBytes(b, opts.(yamlPatchBytes := None), c) == c.decode(b, opts.yamlValidateKeys)
  {
  }

  /** With the environment stage disabled, the lookup and the stage itself play no part. */
  lemma EnvDisabledIgnoresEnvironment(fields: Fields, opts: LoadConfigOptions, c: Collaborators,
                                      envigo: (Fields, string, Getter) -> Effect, getter: Getter)
    requires !opts.envOverride
    ensures ApplyOptsResult(fields, opts, c) == ApplyOptsResult(fields, opts.(envGetter := getter), c.(envigo := envigo))
  {
    var opts', c' := opts.(envGetter := getter), c.(envigo := envigo);
    forall i | 0 <= i < |opts.overrideConfigFiles|
      ensures FileLayers(opts', c')[i] == FileLayers(opts, c)[i]
    {
      var path := opts.overrideConfigFiles[i];
      assert c'.readFile(path) == c.readFile(path);
    }
    forall j | 0 <= j < |opts.overrideConfigBytes|
      ensures BlobLayers(opts', c')[j] == BlobLayers(opts, c)[j]
    {
    }
    assert FileLayers(opts', c') == FileLayers(opts, c);
    assert BlobLayers(opts', c') == BlobLayers(opts, c);
  }

  /** With the environment stage enabled and everything before it succeeding, its writes win over every earlier layer. */
  lemma EnvWins(fields: Fields, opts: LoadConfigOptions, c: Collaborators, p: FieldPath)
    requires opts.envOverride
    requires forall j :: 0 <= j < |OverrideLayers(opts, c)| ==> OverrideLayers(opts, c)[j].err.None?
    ensures var overridden := fields + MergedWrites(OverrideLayers(opts, c));
      var env := c.envigo(overridden, opts.envPrefix, opts.envGetter);
      ApplyOptsResult(fields, opts, c).fields == overridden + env.written
      && (p in env.written ==> ApplyOptsResult(fields, opts, c).fields[p] == env.written[p])
  {
    RunLayersMerges(fields, OverrideLayers(opts, c));
  }

  /** A base layer that fails ends the load: no override or environment stage runs, and the base error gets only the header. */
  lemma BaseFailureStops(fields: Fields, base: Effect, opts: LoadConfigOptions, c: Collaborators, header: string)
    requires base.err.Some?
    ensures Load(fields, base, opts, c, header) == Outcome(fields + base.written, Some(header + base.err.value))
  {
  }

  /**
   * The first failing override layer ends the load: the error is the layer's
   * own, under "override error: " and then the call site's header, and the
   * environment stage does not run.
   */
  lemma OverrideFailureStops(fields: Fields, base: Effect, opts: LoadConfigOptions, c: Collaborators, header: string, k: nat)
    requires base.err.None?
    requires k < |OverrideLayers(opts, c)| && OverrideLayers(opts, c)[k].err.Some?
    requires forall j :: 0 <= j < k ==> OverrideLayers(opts, c)[j].err.None?
    ensures var layers := OverrideLayers(opts, c);
      Load(fields, base, opts, c, header) ==
        Outcome(RunLayers(fields + base.written, layers[..k]).fields + layers[k].written,
                Some(header + OverridePrefix + layers[k].err.value))
  {
    var e := OverrideLayers(opts, c)[k].err.value;
    FirstFailureStops(fields + base.written, OverrideLayers(opts, c), k);
    assert header + (OverridePrefix + e) == header + OverridePrefix + e;
  }

  /**
   * An environment stage that fails after every other layer succeeded: its
   * error comes under "envigo error: " and then the call site's header, and
   * its writes remain.
   */
  lemma EnvFailure(fields: Fields, base: Effect, opts: LoadConfigOptions, c: Collaborators, header: string)
    requires base.err.None? && opts.envOverride
    requires forall j :: 0 <= j < |OverrideLayers(opts, c)| ==> OverrideLayers(opts, c)[j].err.None?
    ensures var overridden := fields + base.written + MergedWrites(OverrideLayers(opts, c));
      var env := c.envigo(overridden, opts.envPrefix, opts.envGetter);
      env.err.Some? ==>
        Load(fields, base, opts, c, header) == Outcome(overridden + env.written, Some(header + EnvigoPrefix + env.err.value))
  {
    RunLayersMerges(fields + base.written, OverrideLayers(opts, c));
    var overridden := fields + base.written + MergedWrites(OverrideLayers(opts, c));
    var env := c.envigo(overridden, opts.envPrefix, opts.envGetter);
    if env.err.Some? {
      assert header + (EnvigoPrefix + env.err.value) == header + EnvigoPrefix + env.err.value;
    }
  }

  /**
   * A load succeeds iff the base, every override and (when enabled) the
   * environment stage succeed; the fields are then the old ones overlaid with
   * the base, the overrides in order, and the environment's writes.
   */
  lemma LoadSucceeds(fields: Fields, base: Effect, opts: LoadConfigOptions, c: Collaborators, header: string)
    ensures var layers := OverrideLayers(opts, c);
      var overridden := fields + base.written + MergedWrites(layers);
      var env := c.envigo(overridden, opts.envPrefix, opts.envGetter);
      Load(fields, base, opts, c, header).err.None? <==>
        base.err.None? && (forall j :: 0 <= j < |layers| ==> layers[j].err.None?) && (opts.envOverride ==> env.err.None?)
    ensures var layers := OverrideLayers(opts, c);
      var overridden := fields + base.written + MergedWrites(layers);
      var env := c.envigo(overridden, opts.envPrefix, opts.envGetter);
      Load(fields, base, opts, c, header).err.None? ==>
        Load(fields, base, opts, c, header).fields == if opts.envOverride then overridden + env.written else overridden
  {
    var layers := OverrideLayers(opts, c);
    RunLayersSucceedsIff(fields + base.written, layers);
    if base.err.None? && forall j :: 0 <= j < |layers| ==> layers[j].err.None? {
      RunLayersMerges(fields + base.written, layers);
    }
  }

  /** Every error `LoadConfig` returns starts with its header; likewise for `LoadConfigBytes`. */
  lemma ErrorsCarryCallSite(fields: Fields, configFile: string, configBytes: Bytes, environ: Getter, optFuncs: seq<OptFunc>, c: Collaborators)
    ensures var r := LoadConfigResult(fields, configFile, environ, optFuncs, c);
      r.err.Some? ==> exists e :: r.err.value == LoadConfigPrefix + e
    ensures var r := LoadConfigBytesResult(fields, configBytes, environ, optFuncs, c);
      r.err.Some? ==> exists e :: r.err.value == LoadConfigBytesPrefix + e
  {
  }

  /**
   * Where `yaml.Unmarshal` agrees with the lenient decoder on the file's
   * contents, `LoadConfigFile` is `LoadConfig` with key validation and the
   * environment stage switched off: the same fields, and the same error
   * without the header.
   */
  lemma PlainFileIsLenientLoad(fields: Fields, configFile: string, environ: Getter, c: Collaborators)
    requires c.readFile(configFile).Success? ==>
      c.unmarshal(c.readFile(configFile).value) == c.decode(c.readFile(configFile).value, false)
    ensures var plain := PlainFileResult(fields, configFile, c);
      var full := LoadConfigResult(fields, configFile, environ, [YAMLValidateKeys(false), DisableEnvOverride], c);
      full.fields == plain.fields
      && (full.err.Some? <==> plain.err.Some?)
      && (plain.err.Some? ==> full.err.value == LoadConfigPrefix + plain.err.value)
  {
    var opts := ApplyAll(Defaults(environ), [YAMLValidateKeys(false), DisableEnvOverride]);
    assert [YAMLValidateKeys(false), DisableEnvOverride][..1] == [YAMLValidateKeys(false)];
    assert [YAMLValidateKeys(false)][..0] == [];
    assert opts == Defaults(environ).(yamlValidateKeys := false, envOverride := false);
    assert OverrideLayers(opts, c) == [];
  }
}

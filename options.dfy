/**
 * The functional options of config.go: a record of load options, the option
 * functions that change it, and `getOpts`, which starts from the defaults and
 * applies the option functions in call order.
 */
module Options {
  import opened Wrappers

  /** A document buffer, modelled as the text it holds. */
  type Bytes = string

  /** An environment lookup (`envigo.EnvGetter`): the value of a variable, if set. */
  type Getter = string -> Option<string>

  /** The pre-decode byte patch hook. */
  type Patch = Bytes -> Bytes

  /** `LoadConfigOptions`; `None` for the patch stands for a nil function. */
  datatype LoadConfigOptions = LoadConfigOptions(
    envOverride: bool,
    envPrefix: string,
    envGetter: Getter,
    overrideConfigFiles: seq<string>,
    overrideConfigBytes: seq<Bytes>,
    yamlValidateKeys: bool,
    yamlPatchBytes: Option<Patch>)

  /** The option functions a caller can pass, one constructor per option constructor of the source. */
  datatype OptFunc =
    | DisableEnvOverride
    | EnvPrefix(prefix: string)
    | EnvGetter(getter: Getter)
    | OverrideConfigFile(configFile: string)
    | OverrideConfigBytes(configBytes: Bytes)
    | YAMLValidateKeys(validate: bool)
    | YAMLPatchBytes(patch: Option<Patch>)

  /**
   * What running one option function does to the options: each option sets
   * or extends its own field and leaves every other field as it was.
   */
  function Apply(opts: LoadConfigOptions, f: OptFunc): (r: LoadConfigOptions)
    ensures r.envOverride == (opts.envOverride && !f.DisableEnvOverride?)
    ensures r.envPrefix == if f.EnvPrefix? then f.prefix else opts.envPrefix
    ensures r.envGetter == if f.EnvGetter? then f.getter else opts.envGetter
    ensures r.overrideConfigFiles == opts.overrideConfigFiles + FileOf(f)
    ensures r.overrideConfigBytes == opts.overrideConfigBytes + BlobOf(f)
    ensures r.yamlValidateKeys == if f.YAMLValidateKeys? then f.validate else opts.yamlValidateKeys
    ensures r.yamlPatchBytes == if f.YAMLPatchBytes? then f.patch else opts.yamlPatchBytes
  {
    match f
    case DisableEnvOverride => opts.(envOverride := false)
    case EnvPrefix(p) => opts.(envPrefix := p)
    case EnvGetter(g) => opts.(envGetter := g)
    case OverrideConfigFile(path) =>
      if path != "" then opts.(overrideConfigFiles := opts.overrideConfigFiles + [path]) else opts
    case OverrideConfigBytes(b) => opts.(overrideConfigBytes := opts.overrideConfigBytes + [b])
    case YAMLValidateKeys(v) => opts.(yamlValidateKeys := v)
    case YAMLPatchBytes(p) => opts.(yamlPatchBytes := p)
  }

  /** The options before any option function runs; `environ` is the process environment lookup. */
  function Defaults(environ: Getter): LoadConfigOptions {
    LoadConfigOptions(true, "", environ, [], [], true, None)
  }

  /** The option functions applied in call order. */
  function ApplyAll(opts: LoadConfigOptions, fs: seq<OptFunc>): LoadConfigOptions
    decreases |fs|
  {
    if |fs| == 0 then opts else Apply(ApplyAll(opts, fs[..|fs| - 1]), fs[|fs| - 1])
  }

  /** `getOpts`: the defaults, then every option function in call order. */
  method GetOpts(environ: Getter, optFuncs: seq<OptFunc>) returns (opts: LoadConfigOptions)
    ensures opts == ApplyAll(Defaults(environ), optFuncs)
  {
    opts := LoadConfigOptions(
      envOverride := true,
      envPrefix := "",
      envGetter := environ,
      overrideConfigFiles := [],
      overrideConfigBytes := [],
      yamlValidateKeys := true,
      yamlPatchBytes := None);
    for i := 0 to |optFuncs|
      invariant opts == ApplyAll(Defaults(environ), optFuncs[..i])
    {
      assert optFuncs[..i + 1][..i] == optFuncs[..i];
      opts := Apply(opts, optFuncs[i]);
    }
    assert optFuncs[..|optFuncs|] == optFuncs;
  }

  // Properties of the option functions

  /** With no option functions: env override on, empty prefix, strict keys, no overrides, no patch. */
  lemma NoOptionsGivesDefaults(environ: Getter)
    ensures var opts := ApplyAll(Defaults(environ), []);
      && opts.envOverride && opts.envPrefix == "" && opts.envGetter == environ
      && opts.overrideConfigFiles == [] && opts.overrideConfigBytes == []
      && opts.yamlValidateKeys && opts.yamlPatchBytes == None
  {
  }

  /** Applying `fs + gs` is applying `fs`, then `gs`. */
  lemma {:induction false} ApplyAllAppend(opts: LoadConfigOptions, fs: seq<OptFunc>, gs: seq<OptFunc>)
    ensures ApplyAll(opts, fs + gs) == ApplyAll(ApplyAll(opts, fs), gs)
    decreases |gs|
  {
    if |gs| == 0 {
      assert fs + gs == fs;
    } else {
      var init := gs[..|gs| - 1];
      assert (fs + gs)[..|fs + gs| - 1] == fs + init;
      ApplyAllAppend(opts, fs, init);
    }
  }

  /** The override file path one option function adds: its path, unless it is empty or another option. */
  function FileOf(f: OptFunc): seq<string> {
    if f.OverrideConfigFile? && f.configFile != "" then [f.configFile] else []
  }

  /** The override blob one option function adds. */
  function BlobOf(f: OptFunc): seq<Bytes> {
    if f.OverrideConfigBytes? then [f.configBytes] else []
  }

  /** The non-empty override file paths among the option functions, in call order. */
  function NonEmptyFiles(fs: seq<OptFunc>): seq<string> {
    if |fs| == 0 then [] else FileOf(fs[0]) + NonEmptyFiles(fs[1..])
  }

  /** The override byte blobs among the option functions, in call order. */
  function Blobs(fs: seq<OptFunc>): seq<Bytes> {
    if |fs| == 0 then [] else BlobOf(fs[0]) + Blobs(fs[1..])
  }

  lemma {:induction false} NonEmptyFilesAppend(fs: seq<OptFunc>, gs: seq<OptFunc>)
    ensures NonEmptyFiles(fs + gs) == NonEmptyFiles(fs) + NonEmptyFiles(gs)
  {
    if |fs| == 0 {
      assert fs + gs == gs;
    } else {
      assert (fs + gs)[0] == fs[0] && (fs + gs)[1..] == fs[1..] + gs;
      NonEmptyFilesAppend(fs[1..], gs);
      assert NonEmptyFiles(fs + gs) == FileOf(fs[0]) + (NonEmptyFiles(fs[1..]) + NonEmptyFiles(gs));
    }
  }

  lemma {:induction false} BlobsAppend(fs: seq<OptFunc>, gs: seq<OptFunc>)
    ensures Blobs(fs + gs) == Blobs(fs) + Blobs(gs)
  {
    if |fs| == 0 {
      assert fs + gs == gs;
    } else {
      assert (fs + gs)[0] == fs[0] && (fs + gs)[1..] == fs[1..] + gs;
      BlobsAppend(fs[1..], gs);
      assert Blobs(fs + gs) == BlobOf(fs[0]) + (Blobs(fs[1..]) + Blobs(gs));
    }
  }

  /** The file paths of all option functions but the last, then the last one's. */
  lemma {:induction false} NonEmptyFilesSnoc(fs: seq<OptFunc>)
    requires |fs| > 0
    ensures NonEmptyFiles(fs) == NonEmptyFiles(fs[..|fs| - 1]) + FileOf(fs[|fs| - 1])
    decreases |fs|
  {
    var n := |fs| - 1;
    if n == 0 {
      assert fs[1..] == [] && fs[..n] == [];
    } else {
      var tail := fs[1..];
      NonEmptyFilesSnoc(tail);
      assert tail[..|tail| - 1] == fs[..n][1..] && tail[|tail| - 1] == fs[n] && fs[..n][0] == fs[0];
    }
  }

  /**
   * File overrides are appended in call order, and an empty path is skipped:
   * the list is the one already there followed by the non-empty paths passed.
   */
  lemma {:induction false} OverrideFilesInOrder(opts: LoadConfigOptions, fs: seq<OptFunc>)
    ensures ApplyAll(opts, fs).overrideConfigFiles == opts.overrideConfigFiles + NonEmptyFiles(fs)
    decreases |fs|
  {
    if |fs| > 0 {
      var init, last := fs[..|fs| - 1], fs[|fs| - 1];
      OverrideFilesInOrder(opts, init);
      assert ApplyAll(opts, fs) == Apply(ApplyAll(opts, init), last);
      NonEmptyFilesSnoc(fs);
    }
  }

  /** The blobs of all option functions but the last, then the last one's. */
  lemma {:induction false} BlobsSnoc(fs: seq<OptFunc>)
    requires |fs| > 0
    ensures Blobs(fs) == Blobs(fs[..|fs| - 1]) + BlobOf(fs[|fs| - 1])
    decreases |fs|
  {
    var n := |fs| - 1;
    if n == 0 {
      assert fs[1..] == [] && fs[..n] == [];
    } else {
      var tail := fs[1..];
      BlobsSnoc(tail);
      assert tail[..|tail| - 1] == fs[..n][1..] && tail[|tail| - 1] == fs[n] && fs[..n][0] == fs[0];
    }
  }

  /** Byte overrides are always appended, in call order. */
  lemma {:induction false} OverrideBytesInOrder(opts: LoadConfigOptions, fs: seq<OptFunc>)
    ensures ApplyAll(opts, fs).overrideConfigBytes == opts.overrideConfigBytes + Blobs(fs)
    decreases |fs|
  {
    if |fs| > 0 {
      var init, last := fs[..|fs| - 1], fs[|fs| - 1];
      OverrideBytesInOrder(opts, init);
      assert ApplyAll(opts, fs) == Apply(ApplyAll(opts, init), last);
      BlobsSnoc(fs);
    }
  }

  /** `OverrideConfigFile("")` leaves the options as they are. */
  lemma EmptyOverrideFileIsSkipped(opts: LoadConfigOptions)
    ensures Apply(opts, OverrideConfigFile("")) == opts
  {
  }

  /** Option functions that do not set the prefix leave it alone. */
  lemma {:induction false} PrefixUntouched(opts: LoadConfigOptions, gs: seq<OptFunc>)
    requires forall k :: 0 <= k < |gs| ==> !gs[k].EnvPrefix?
    ensures ApplyAll(opts, gs).envPrefix == opts.envPrefix
    decreases |gs|
  {
    if |gs| > 0 {
      PrefixUntouched(opts, gs[..|gs| - 1]);
    }
  }

  /** The last `EnvPrefix` passed wins. */
  lemma LastPrefixWins(opts: LoadConfigOptions, fs: seq<OptFunc>, prefix: string, gs: seq<OptFunc>)
    requires forall k :: 0 <= k < |gs| ==> !gs[k].EnvPrefix?
    ensures ApplyAll(opts, fs + [EnvPrefix(prefix)] + gs).envPrefix == prefix
  {
    ApplyAllAppend(opts, fs + [EnvPrefix(prefix)], gs);
    ApplyAllAppend(opts, fs, [EnvPrefix(prefix)]);
    PrefixUntouched(ApplyAll(opts, fs + [EnvPrefix(prefix)]), gs);
  }

  /** Option functions that do not set key validation leave it alone. */
  lemma {:induction false} ValidateKeysUntouched(opts: LoadConfigOptions, gs: seq<OptFunc>)
    requires forall k :: 0 <= k < |gs| ==> !gs[k].YAMLValidateKeys?
    ensures ApplyAll(opts, gs).yamlValidateKeys == opts.yamlValidateKeys
    decreases |gs|
  {
    if |gs| > 0 {
      ValidateKeysUntouched(opts, gs[..|gs| - 1]);
    }
  }

  /** The last `YAMLValidateKeys` passed wins. */
  lemma LastValidateKeysWins(opts: LoadConfigOptions, fs: seq<OptFunc>, validate: bool, gs: seq<OptFunc>)
    requires forall k :: 0 <= k < |gs| ==> !gs[k].YAMLValidateKeys?
    ensures ApplyAll(opts, fs + [YAMLValidateKeys(validate)] + gs).yamlValidateKeys == validate
  {
    ApplyAllAppend(opts, fs + [YAMLValidateKeys(validate)], gs);
    ApplyAllAppend(opts, fs, [YAMLValidateKeys(validate)]);
    ValidateKeysUntouched(ApplyAll(opts, fs + [YAMLValidateKeys(validate)]), gs);
  }

  /** Environment override stays on iff it was on and no `DisableEnvOverride` is passed. */
  lemma {:induction false} EnvOverrideOff(opts: LoadConfigOptions, fs: seq<OptFunc>)
    ensures ApplyAll(opts, fs).envOverride <==>
      opts.envOverride && forall k :: 0 <= k < |fs| ==> !fs[k].DisableEnvOverride?
    decreases |fs|
  {
    if |fs| > 0 {
      var init := fs[..|fs| - 1];
      EnvOverrideOff(opts, init);
      assert forall k :: 0 <= k < |init| ==> init[k] == fs[k];
    }
  }

  /** Option functions that do not set the patch hook leave it alone. */
  lemma {:induction false} PatchUntouched(opts: LoadConfigOptions, gs: seq<OptFunc>)
    requires forall k :: 0 <= k < |gs| ==> !gs[k].YAMLPatchBytes?
    ensures ApplyAll(opts, gs).yamlPatchBytes == opts.yamlPatchBytes
    decreases |gs|
  {
    if |gs| > 0 {
      PatchUntouched(opts, gs[..|gs| - 1]);
    }
  }

  /**
   * The last `YAMLPatchBytes` passed decides the hook, a nil patch included;
   * with none passed the hook stays nil.
   */
  lemma PatchIsLastPassed(environ: Getter, fs: seq<OptFunc>, patch: Option<Patch>, gs: seq<OptFunc>)
    requires forall k :: 0 <= k < |gs| ==> !gs[k].YAMLPatchBytes?
    ensures ApplyAll(Defaults(environ), fs + [YAMLPatchBytes(patch)] + gs).yamlPatchBytes == patch
    ensures (forall k :: 0 <= k < |fs| ==> !fs[k].YAMLPatchBytes?) ==> ApplyAll(Defaults(environ), fs).yamlPatchBytes == None
  {
    var opts := Defaults(environ);
    ApplyAllAppend(opts, fs + [YAMLPatchBytes(patch)], gs);
    ApplyAllAppend(opts, fs, [YAMLPatchBytes(patch)]);
    PatchUntouched(ApplyAll(opts, fs + [YAMLPatchBytes(patch)]), gs);
    if forall k :: 0 <= k < |fs| ==> !fs[k].YAMLPatchBytes? {
      PatchUntouched(opts, fs);
    }
  }
}

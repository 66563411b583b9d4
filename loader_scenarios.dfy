/**
 * The scenarios of config_test.go, stated against the load pipeline with a
 * small world standing in for the collaborators: a directory of files, a
 * decoder that knows the test documents, and an environment stage that fills
 * the four fields of the test `Config` from the lookup.
 *
 * The test structure is `Config{Key string; Do bool; Pi float64; Section *Section{SectionKey string}}`.
 */
module LoaderScenarios {
  import opened Wrappers
  import opened Options
  import opened Loader

  const KeyPath: FieldPath := ["Key"]
  const DoPath: FieldPath := ["Do"]
  const PiPath: FieldPath := ["Pi"]
  const SectionKeyPath: FieldPath := ["Section", "SectionKey"]

  // The test documents

  const TestConfig := "\nkey: \"value\"\ndo: true\npi: 3.14\nsection:\n  sectionkey: \"sectionvalue\"\n"
  const TestConfigUnknownKey := "\nkey: \"value\"\ndo: true\npi: 3.14\nsection:\n  sectionkey: \"sectionvalue\"\nunknown: \"value\"\n"
  const OverrideConfig1 := "\ndo: false\n"
  const OverrideConfig2 := "\nsection:\n  sectionkey: sectionvalueoverride\n"
  const InvalidConfig := "\nkey\n"
  /** `TestConfig` after the test's patch replaces `key: "value"` by `key: "patchedvalue"`. */
  const PatchedTestConfig := "\nkey: \"patchedvalue\"\ndo: true\npi: 3.14\nsection:\n  sectionkey: \"sectionvalue\"\n"

  const UnknownFieldError := "yaml: unmarshal errors:\n  line 7: field unknown not found in type configutils_test.Config"
  const InvalidError := "yaml: unmarshal errors:\n  line 2: cannot unmarshal !!str `key` into configutils_test.Config"

  /** The fields `TestConfig` sets. */
  const TestFields: Fields := map[KeyPath := Str("value"), DoPath := Bool(true), PiPath := Float(3.14),
                                  SectionKeyPath := Str("sectionvalue")]

  /** The fields the patched test document sets. */
  const PatchedFields: Fields := TestFields[KeyPath := Str("patchedvalue")]

  /** The decoder on the test documents and on an empty one; anything else is the invalid document. */
  function Decode(b: Bytes, strict: bool): Effect {
    if b == "" then Effect(map[], Some("EOF"))
    else if b == TestConfig then Effect(TestFields, None)
    else if b == TestConfigUnknownKey then Effect(TestFields, if strict then Some(UnknownFieldError) else None)
    else if b == OverrideConfig1 then Effect(map[DoPath := Bool(false)], None)
    else if b == OverrideConfig2 then Effect(map[SectionKeyPath := Str("sectionvalueoverride")], None)
    else if b == PatchedTestConfig then Effect(PatchedFields, None)
    else Effect(map[], Some(InvalidError))
  }

  /** `yaml.Unmarshal`: nothing to do on an empty document, otherwise the lenient decoder. */
  function Unmarshal(b: Bytes): Effect {
    if b == "" then Effect(map[], None) else Decode(b, false)
  }

  /** The test's patch hook on the documents it is given. */
  function PatchKey(b: Bytes): Bytes {
    if b == TestConfig then PatchedTestConfig else b
  }

  // The environment stage

  datatype Kind = Text | Flag | Number

  /** A field the environment stage fills: its path, its variable name and its type. */
  datatype EnvField = EnvField(path: FieldPath, name: string, kind: Kind)

  const ConfigEnvFields := [EnvField(KeyPath, "KEY", Text), EnvField(DoPath, "DO", Flag),
                            EnvField(PiPath, "PI", Number), EnvField(SectionKeyPath, "SECTION_SECTIONKEY", Text)]

  /** The variable looked up for a field: the name, under the prefix and an underscore when there is one. */
  function VarName(prefix: string, name: string): string {
    if prefix == "" then name else prefix + "_" + name
  }

  function BoolError(name: string, v: string): string {
    "envigo " + name + " parse bool error: strconv.ParseBool: parsing \"" + v + "\": invalid syntax"
  }

  function FloatError(name: string, v: string): string {
    "envigo " + name + " parse float error: strconv.ParseFloat: parsing \"" + v + "\": invalid syntax"
  }

  /** A variable's text as a value of the field's type; only the texts the tests use are parsed. */
  function ParseValue(v: string, kind: Kind, name: string): Result<Value, string> {
    match kind
    case Text => Success(Str(v))
    case Flag =>
      if v == "true" then Success(Bool(true))
      else if v == "false" then Success(Bool(false))
      else Failure(BoolError(name, v))
    case Number =>
      if v == "3.14" then Success(Float(3.14))
      else Failure(FloatError(name, v))
  }

  /** The fields set from the lookup, in declaration order, stopping at the first that does not parse. */
  function EnvWalk(specs: seq<EnvField>, prefix: string, getenv: Getter): Effect
    decreases |specs|
  {
    if |specs| == 0 then Effect(map[], None)
    else
      var f := specs[0];
      var name := VarName(prefix, f.name);
      match getenv(name)
      case None => EnvWalk(specs[1..], prefix, getenv)
      case Some(v) =>
        match ParseValue(v, f.kind, name)
        case Failure(e) => Effect(map[], Some(e))
        case Success(x) =>
          var rest := EnvWalk(specs[1..], prefix, getenv);
          Effect(map[f.path := x] + rest.written, rest.err)
  }

  function Envigo(fields: Fields, prefix: string, getenv: Getter): Effect {
    EnvWalk(ConfigEnvFields, prefix, getenv)
  }

  // The world of one test

  /** The files the tests write into their temporary directory. */
  const ConfigFile := "/tmp/configutils-1/config.yaml"
  const Override1File := "/tmp/configutils-1/override1.yaml"
  const Override2File := "/tmp/configutils-1/override2.yaml"
  const InvalidFile := "/tmp/configutils-1/invalidconfig.yaml"

  /** The operating system's error for a missing file. */
  function NotFound(path: string): string {
    "open " + path + ": no such file or directory"
  }

  /** Reading a file of the directory. */
  function ReadFile(files: map<string, Bytes>, path: string): Result<Bytes, string> {
    if path in files then Success(files[path]) else Failure(NotFound(path))
  }

  function World(files: map<string, Bytes>): Collaborators {
    Collaborators(p => ReadFile(files, p), Decode, Unmarshal, Envigo)
  }

  /** The test process's environment: none of the variables the tests look up is set. */
  function Environ(k: string): Option<string> {
    None
  }

  function Getenv(k: string): Option<string> {
    if k == "DO" then Some("false") else if k == "SECTION_SECTIONKEY" then Some("sectionvalueoverride") else None
  }

  function PrefixedGetenv(k: string): Option<string> {
    if k == "MYAPP_DO" then Some("false") else if k == "MYAPP_SECTION_SECTIONKEY" then Some("sectionvalueoverride") else None
  }

  function BadPiGetenv(k: string): Option<string> {
    if k == "PI" then Some("3,14") else None
  }

  /** The writes of the lookups that set `DO` to `false` and `SECTION_SECTIONKEY` to `sectionvalueoverride`. */
  const EnvWrites: Fields := map[DoPath := Bool(false)] + map[SectionKeyPath := Str("sectionvalueoverride")]

  /** The test document's fields after `do` and the section key were overridden. */
  const OverriddenFields: Fields := TestFields[DoPath := Bool(false)][SectionKeyPath := Str("sectionvalueoverride")]

  /** `envigo PI parse float error: strconv.ParseFloat: parsing "3,14": invalid syntax` */
  const BadPiError := FloatError("PI", "3,14")

  // Facts about the world

  lemma EmptyOverlay(m: Fields)
    ensures map[] + m == m
  {
  }

  lemma OverlayEmpty(m: Fields)
    ensures m + map[] == m
  {
  }

  lemma OverlayOne(m: Fields, p: FieldPath, v: Value)
    ensures m + map[p := v] == m[p := v]
  {
  }

  lemma OverlayAssoc(a: Fields, b: Fields, c: Fields)
    ensures a + (b + c) == a + b + c
  {
  }

  /** The overrides (or the environment) on top of the test document give `OverriddenFields`. */
  lemma OverriddenFieldsMerge()
    ensures TestFields + map[DoPath := Bool(false)] + map[SectionKeyPath := Str("sectionvalueoverride")] == OverriddenFields
    ensures TestFields + EnvWrites == OverriddenFields
  {
    OverlayOne(TestFields, DoPath, Bool(false));
    OverlayOne(TestFields[DoPath := Bool(false)], SectionKeyPath, Str("sectionvalueoverride"));
    OverlayAssoc(TestFields, map[DoPath := Bool(false)], map[SectionKeyPath := Str("sectionvalueoverride")]);
  }

  /** What the decoder makes of each test document. */
  lemma DecodeTable(strict: bool)
    ensures Decode(TestConfig, strict) == Effect(TestFields, None)
    ensures Decode(TestConfigUnknownKey, strict) == Effect(TestFields, if strict then Some(UnknownFieldError) else None)
    ensures Decode(PatchedTestConfig, strict) == Effect(PatchedFields, None)
    ensures Decode(OverrideConfig1, strict) == Effect(map[DoPath := Bool(false)], None)
    ensures Decode(OverrideConfig2, strict) == Effect(map[SectionKeyPath := Str("sectionvalueoverride")], None)
    ensures Decode(InvalidConfig, strict) == Effect(map[], Some(InvalidError))
  {
  }

  /** A file of the directory, read and decoded without a patch, is its contents decoded. */
  lemma FileDecode(files: map<string, Bytes>, path: string, opts: LoadConfigOptions)
    requires path in files && opts.yamlPatchBytes == None
    ensures DecodeFile(path, opts, World(files)) == Decode(files[path], opts.yamlValidateKeys)
  {
    assert World(files).readFile(path) == Success(files[path]);
  }

  /** With no variable set, the environment stage writes nothing and succeeds. */
  lemma UnsetEnvironment(fields: Fields, prefix: string, getenv: Getter)
    requires forall k :: getenv(k) == None
    ensures Envigo(fields, prefix, getenv) == Effect(map[], None)
  {
    var s := ConfigEnvFields;
    assert EnvWalk(s[3..], prefix, getenv) == EnvWalk(s[4..], prefix, getenv);
    assert EnvWalk(s[2..], prefix, getenv) == EnvWalk(s[3..], prefix, getenv);
    assert EnvWalk(s[1..], prefix, getenv) == EnvWalk(s[2..], prefix, getenv);
  }

  /** A lookup that sets `DO` and `SECTION_SECTIONKEY` (under the stage's prefix) and nothing else the stage reads. */
  lemma OverridingEnvironment(fields: Fields, prefix: string, getenv: Getter)
    requires getenv(VarName(prefix, "KEY")) == None && getenv(VarName(prefix, "PI")) == None
    requires getenv(VarName(prefix, "DO")) == Some("false")
    requires getenv(VarName(prefix, "SECTION_SECTIONKEY")) == Some("sectionvalueoverride")
    ensures Envigo(fields, prefix, getenv) == Effect(EnvWrites, None)
  {
    var s := ConfigEnvFields;
    var sk := map[SectionKeyPath := Str("sectionvalueoverride")];
    assert s[3..][0] == s[3] && s[3..][1..] == s[4..] && |s[4..]| == 0;
    assert ParseValue("sectionvalueoverride", Text, VarName(prefix, "SECTION_SECTIONKEY")) == Success(Str("sectionvalueoverride"));
    assert EnvWalk(s[3..], prefix, getenv) == Effect(sk + map[], None);
    OverlayEmpty(sk);
    assert s[2..][0] == s[2] && s[2..][1..] == s[3..];
    assert EnvWalk(s[2..], prefix, getenv) == Effect(sk, None);
    assert s[1..][0] == s[1] && s[1..][1..] == s[2..];
    assert ParseValue("false", Flag, VarName(prefix, "DO")) == Success(Bool(false));
    assert EnvWalk(s[1..], prefix, getenv) == Effect(EnvWrites, None);
  }

  /** The unprefixed lookup of the env override tests. */
  lemma PlainLookups()
    ensures Getenv(VarName("", "KEY")) == None && Getenv(VarName("", "PI")) == None
    ensures Getenv(VarName("", "DO")) == Some("false")
    ensures Getenv(VarName("", "SECTION_SECTIONKEY")) == Some("sectionvalueoverride")
  {
  }

  /** The prefixed lookup of the env override tests, under `MYAPP`. */
  lemma PrefixedLookups()
    ensures PrefixedGetenv(VarName("MYAPP", "KEY")) == None && PrefixedGetenv(VarName("MYAPP", "PI")) == None
    ensures PrefixedGetenv(VarName("MYAPP", "DO")) == Some("false")
    ensures PrefixedGetenv(VarName("MYAPP", "SECTION_SECTIONKEY")) == Some("sectionvalueoverride")
  {
    assert VarName("MYAPP", "DO") == "MYAPP_DO" && VarName("MYAPP", "KEY") == "MYAPP_KEY";
    assert VarName("MYAPP", "PI") == "MYAPP_PI" && VarName("MYAPP", "SECTION_SECTIONKEY") == "MYAPP_SECTION_SECTIONKEY";
  }

  /** A lookup with `PI` set to a text that is not a number: the stage fails before writing anything. */
  lemma BadNumberEnvironment(fields: Fields)
    ensures Envigo(fields, "", BadPiGetenv) == Effect(map[], Some(BadPiError))
  {
    var s := ConfigEnvFields;
    assert BadPiGetenv("KEY") == None && BadPiGetenv("DO") == None && BadPiGetenv("PI") == Some("3,14");
    assert "3,14"[1] != "3.14"[1];
    assert EnvWalk(s[1..], "", BadPiGetenv) == EnvWalk(s[2..], "", BadPiGetenv);
  }

  /** The two override layers of the override tests, on top of the test document. */
  lemma TwoOverrides()
    ensures RunLayers(TestFields, [Effect(map[DoPath := Bool(false)], None), Effect(map[SectionKeyPath := Str("sectionvalueoverride")], None)])
      == Outcome(OverriddenFields, None)
  {
    var layers := [Effect(map[DoPath := Bool(false)], None), Effect(map[SectionKeyPath := Str("sectionvalueoverride")], None)];
    var next := TestFields + map[DoPath := Bool(false)];
    assert layers[1..][0] == layers[1] && layers[1..][1..] == [];
    assert RunLayers(next, layers[1..]) == Outcome(next + map[SectionKeyPath := Str("sectionvalueoverride")], None);
    OverriddenFieldsMerge();
  }

  /** A load with a successful base and no override layers: only the environment stage, if enabled, follows. */
  lemma EnvOnlyLoad(fields: Fields, base: Effect, opts: LoadConfigOptions, c: Collaborators, header: string)
    requires base.err.None? && OverrideLayers(opts, c) == []
    ensures var decoded := fields + base.written;
      var env := c.envigo(decoded, opts.envPrefix, opts.envGetter);
      Load(fields, base, opts, c, header) ==
        if !opts.envOverride then Outcome(decoded, None)
        else Outcome(decoded + env.written, if env.err.Some? then Some(header + (EnvigoPrefix + env.err.value)) else None)
  {
  }

  /** A load of the test document followed by the two override layers, with an environment that sets nothing. */
  lemma OverriddenLoad(opts: LoadConfigOptions, c: Collaborators, header: string)
    requires OverrideLayers(opts, c) == OverrideEffects
    requires c.envigo(OverriddenFields, opts.envPrefix, opts.envGetter) == Effect(map[], None)
    ensures Load(map[], Effect(TestFields, None), opts, c, header) == Outcome(OverriddenFields, None)
  {
    EmptyOverlay(TestFields);
    TwoOverrides();
    OverlayEmpty(OverriddenFields);
    assert ApplyOptsResult(TestFields, opts, c) == Outcome(OverriddenFields, None);
  }

  lemma ApplyOne(opts: LoadConfigOptions, f: OptFunc)
    ensures ApplyAll(opts, [f]) == Apply(opts, f)
  {
    assert [f][..0] == [];
  }

  lemma ApplyTwo(opts: LoadConfigOptions, f: OptFunc, g: OptFunc)
    ensures ApplyAll(opts, [f, g]) == Apply(Apply(opts, f), g)
  {
    assert [f, g][..1] == [f];
    ApplyOne(opts, f);
  }

  // LoadConfig (config_test.go)

  lemma LoadConfigLoads()
    ensures LoadConfigResult(map[], ConfigFile, Environ, [], World(map[ConfigFile := TestConfig]))
      == Outcome(TestFields, None)
  {
    var files := map[ConfigFile := TestConfig];
    var opts := Defaults(Environ);
    FileDecode(files, ConfigFile, opts);
    DecodeTable(true);
    EnvOnlyLoad(map[], Effect(TestFields, None), opts, World(files), LoadConfigPrefix);
    UnsetEnvironment(TestFields, "", Environ);
    EmptyOverlay(TestFields);
    OverlayEmpty(TestFields);
  }

  lemma LoadConfigValidatesKeys()
    ensures LoadConfigResult(map[], ConfigFile, Environ, [], World(map[ConfigFile := TestConfigUnknownKey]))
      == Outcome(TestFields, Some(LoadConfigPrefix + UnknownFieldError))
  {
    var files := map[ConfigFile := TestConfigUnknownKey];
    FileDecode(files, ConfigFile, Defaults(Environ));
    DecodeTable(true);
    EmptyOverlay(TestFields);
  }

  lemma LoadConfigIgnoresUnknownKeys()
    ensures LoadConfigResult(map[], ConfigFile, Environ, [YAMLValidateKeys(false)], World(map[ConfigFile := TestConfigUnknownKey]))
      == Outcome(TestFields, None)
  {
    var files := map[ConfigFile := TestConfigUnknownKey];
    var opts := Defaults(Environ).(yamlValidateKeys := false);
    ApplyOne(Defaults(Environ), YAMLValidateKeys(false));
    FileDecode(files, ConfigFile, opts);
    DecodeTable(false);
    EnvOnlyLoad(map[], Effect(TestFields, None), opts, World(files), LoadConfigPrefix);
    UnsetEnvironment(TestFields, "", Environ);
    EmptyOverlay(TestFields);
    OverlayEmpty(TestFields);
  }

  lemma LoadConfigPatches()
    ensures LoadConfigResult(map[], ConfigFile, Environ, [YAMLPatchBytes(Some(PatchKey))], World(map[ConfigFile := TestConfig]))
      == Outcome(PatchedFields, None)
  {
    var files := map[ConfigFile := TestConfig];
    var c := World(files);
    var opts := Defaults(Environ).(yamlPatchBytes := Some(PatchKey));
    ApplyOne(Defaults(Environ), YAMLPatchBytes(Some(PatchKey)));
    assert c.readFile(ConfigFile) == Success(TestConfig);
    assert PatchKey(TestConfig) == PatchedTestConfig;
    DecodeTable(true);
    EnvOnlyLoad(map[], Effect(PatchedFields, None), opts, c, LoadConfigPrefix);
    UnsetEnvironment(PatchedFields, "", Environ);
    EmptyOverlay(PatchedFields);
    OverlayEmpty(PatchedFields);
  }

  lemma LoadConfigEnvOverride()
    ensures LoadConfigResult(map[], ConfigFile, Environ, [EnvGetter(Getenv)], World(map[ConfigFile := TestConfig]))
      == Outcome(OverriddenFields, None)
  {
    var files := map[ConfigFile := TestConfig];
    var opts := Defaults(Environ).(envGetter := Getenv);
    ApplyOne(Defaults(Environ), EnvGetter(Getenv));
    FileDecode(files, ConfigFile, opts);
    DecodeTable(true);
    EnvOnlyLoad(map[], Effect(TestFields, None), opts, World(files), LoadConfigPrefix);
    PlainLookups();
    OverridingEnvironment(TestFields, "", Getenv);
    OverriddenFieldsMerge();
    EmptyOverlay(TestFields);
  }

  lemma LoadConfigEnvOverridePrefix()
    ensures LoadConfigResult(map[], ConfigFile, Environ, [EnvGetter(PrefixedGetenv), EnvPrefix("MYAPP")],
                             World(map[ConfigFile := TestConfig]))
      == Outcome(OverriddenFields, None)
  {
    var files := map[ConfigFile := TestConfig];
    var opts := Defaults(Environ).(envGetter := PrefixedGetenv).(envPrefix := "MYAPP");
    ApplyTwo(Defaults(Environ), EnvGetter(PrefixedGetenv), EnvPrefix("MYAPP"));
    FileDecode(files, ConfigFile, opts);
    DecodeTable(true);
    EnvOnlyLoad(map[], Effect(TestFields, None), opts, World(files), LoadConfigPrefix);
    PrefixedLookups();
    OverridingEnvironment(TestFields, "MYAPP", PrefixedGetenv);
    OverriddenFieldsMerge();
    EmptyOverlay(TestFields);
  }

  lemma LoadConfigWithoutEnvOverride()
    ensures LoadConfigResult(map[], ConfigFile, Environ, [EnvGetter(Getenv), DisableEnvOverride],
                             World(map[ConfigFile := TestConfig]))
      == Outcome(TestFields, None)
  {
    var files := map[ConfigFile := TestConfig];
    var opts := Defaults(Environ).(envGetter := Getenv).(envOverride := false);
    ApplyTwo(Defaults(Environ), EnvGetter(Getenv), DisableEnvOverride);
    FileDecode(files, ConfigFile, opts);
    DecodeTable(true);
    EnvOnlyLoad(map[], Effect(TestFields, None), opts, World(files), LoadConfigPrefix);
    EmptyOverlay(TestFields);
  }

  /** The directory of the file override test. */
  const OverrideFiles := map[ConfigFile := TestConfig, Override1File := OverrideConfig1, Override2File := OverrideConfig2]

  /** The two override documents decoded: `Do` set to `false`, then `Section.SectionKey` overridden. */
  const OverrideEffects := [Effect(map[DoPath := Bool(false)], None), Effect(map[SectionKeyPath := Str("sectionvalueoverride")], None)]

  lemma TwoFileOptions()
    ensures ApplyAll(Defaults(Environ), [OverrideConfigFile(Override1File), OverrideConfigFile(Override2File)])
      == Defaults(Environ).(overrideConfigFiles := [Override1File, Override2File])
  {
    ApplyTwo(Defaults(Environ), OverrideConfigFile(Override1File), OverrideConfigFile(Override2File));
  }

  /** In the override test's directory, the base decodes to the test fields and the override files to their layers. */
  lemma FileOverrideLayers(opts: LoadConfigOptions)
    requires opts == Defaults(Environ).(overrideConfigFiles := [Override1File, Override2File])
    ensures DecodeFile(ConfigFile, opts, World(OverrideFiles)) == Effect(TestFields, None)
    ensures OverrideLayers(opts, World(OverrideFiles)) == OverrideEffects
  {
    var files := OverrideFiles;
    assert Override1File[27] != Override2File[27];
    assert files[ConfigFile] == TestConfig && files[Override1File] == OverrideConfig1 && files[Override2File] == OverrideConfig2;
    FileDecode(files, ConfigFile, opts);
    FileDecode(files, Override1File, opts);
    FileDecode(files, Override2File, opts);
    DecodeTable(true);
  }

  lemma LoadConfigFileOverride()
    ensures LoadConfigResult(map[], ConfigFile, Environ, [OverrideConfigFile(Override1File), OverrideConfigFile(Override2File)],
                             World(map[ConfigFile := TestConfig, Override1File := OverrideConfig1, Override2File := OverrideConfig2]))
      == Outcome(OverriddenFields, None)
  {
    var c := World(OverrideFiles);
    var opts := Defaults(Environ).(overrideConfigFiles := [Override1File, Override2File]);
    TwoFileOptions();
    FileOverrideLayers(opts);
    UnsetEnvironment(OverriddenFields, "", Environ);
    OverriddenLoad(opts, c, LoadConfigPrefix);
  }

  lemma LoadConfigMissingFile()
    ensures LoadConfigResult(map[], ConfigFile, Environ, [], World(map[])) == Outcome(map[], Some(LoadConfigPrefix + NotFound(ConfigFile)))
  {
    assert World(map[]).readFile(ConfigFile) == Failure(NotFound(ConfigFile));
    EmptyOverlay(map[]);
  }

  lemma LoadConfigInvalid()
    ensures LoadConfigResult(map[], InvalidFile, Environ, [], World(map[InvalidFile := InvalidConfig]))
      == Outcome(map[], Some(LoadConfigPrefix + InvalidError))
  {
    FileDecode(map[InvalidFile := InvalidConfig], InvalidFile, Defaults(Environ));
    DecodeTable(true);
    EmptyOverlay(map[]);
  }

  lemma LoadConfigInvalidOverride()
    ensures LoadConfigResult(map[], ConfigFile, Environ, [OverrideConfigFile(InvalidFile)],
                             World(map[ConfigFile := TestConfig, InvalidFile := InvalidConfig]))
      == Outcome(TestFields, Some(LoadConfigPrefix + (OverridePrefix + InvalidError)))
  {
    var files := map[ConfigFile := TestConfig, InvalidFile := InvalidConfig];
    var c := World(files);
    var opts := Defaults(Environ).(overrideConfigFiles := [InvalidFile]);
    ApplyOne(Defaults(Environ), OverrideConfigFile(InvalidFile));
    assert files[ConfigFile] == TestConfig && files[InvalidFile] == InvalidConfig;
    FileDecode(files, ConfigFile, opts);
    FileDecode(files, InvalidFile, opts);
    DecodeTable(true);
    assert OverrideLayers(opts, c) == [Effect(map[], Some(InvalidError))];
    EmptyOverlay(TestFields);
    OverlayEmpty(TestFields);
  }

  lemma LoadConfigBadEnvironment()
    ensures LoadConfigResult(map[], ConfigFile, Environ, [EnvGetter(BadPiGetenv)], World(map[ConfigFile := TestConfig]))
      == Outcome(TestFields, Some(LoadConfigPrefix + (EnvigoPrefix + BadPiError)))
  {
    var files := map[ConfigFile := TestConfig];
    var opts := Defaults(Environ).(envGetter := BadPiGetenv);
    ApplyOne(Defaults(Environ), EnvGetter(BadPiGetenv));
    FileDecode(files, ConfigFile, opts);
    DecodeTable(true);
    EnvOnlyLoad(map[], Effect(TestFields, None), opts, World(files), LoadConfigPrefix);
    BadNumberEnvironment(TestFields);
    EmptyOverlay(TestFields);
    OverlayEmpty(TestFields);
  }

  // LoadConfigBytes (config_test.go)

  lemma LoadConfigBytesLoads()
    ensures LoadConfigBytesResult(map[], TestConfig, Environ, [], World(map[])) == Outcome(TestFields, None)
  {
    DecodeTable(true);
    EnvOnlyLoad(map[], Effect(TestFields, None), Defaults(Environ), World(map[]), LoadConfigBytesPrefix);
    UnsetEnvironment(TestFields, "", Environ);
    EmptyOverlay(TestFields);
    OverlayEmpty(TestFields);
  }

  lemma LoadConfigBytesValidatesKeys()
    ensures LoadConfigBytesResult(map[], TestConfigUnknownKey, Environ, [], World(map[]))
      == Outcome(TestFields, Some(LoadConfigBytesPrefix + UnknownFieldError))
  {
    DecodeTable(true);
    EmptyOverlay(TestFields);
  }

  lemma LoadConfigBytesIgnoresUnknownKeys()
    ensures LoadConfigBytesResult(map[], TestConfigUnknownKey, Environ, [YAMLValidateKeys(false)], World(map[]))
      == Outcome(TestFields, None)
  {
    var opts := Defaults(Environ).(yamlValidateKeys := false);
    ApplyOne(Defaults(Environ), YAMLValidateKeys(false));
    DecodeTable(false);
    EnvOnlyLoad(map[], Effect(TestFields, None), opts, World(map[]), LoadConfigBytesPrefix);
    UnsetEnvironment(TestFields, "", Environ);
    EmptyOverlay(TestFields);
    OverlayEmpty(TestFields);
  }

  lemma LoadConfigBytesPatches()
    ensures LoadConfigBytesResult(map[], TestConfig, Environ, [YAMLPatchBytes(Some(PatchKey))], World(map[]))
      == Outcome(PatchedFields, None)
  {
    var opts := Defaults(Environ).(yamlPatchBytes := Some(PatchKey));
    ApplyOne(Defaults(Environ), YAMLPatchBytes(Some(PatchKey)));
    assert PatchKey(TestConfig) == PatchedTestConfig;
    DecodeTable(true);
    EnvOnlyLoad(map[], Effect(PatchedFields, None), opts, World(map[]), LoadConfigBytesPrefix);
    UnsetEnvironment(PatchedFields, "", Environ);
    EmptyOverlay(PatchedFields);
    OverlayEmpty(PatchedFields);
  }

  lemma LoadConfigBytesEnvOverride()
    ensures LoadConfigBytesResult(map[], TestConfig, Environ, [EnvGetter(Getenv)], World(map[]))
      == Outcome(OverriddenFields, None)
  {
    var opts := Defaults(Environ).(envGetter := Getenv);
    ApplyOne(Defaults(Environ), EnvGetter(Getenv));
    DecodeTable(true);
    EnvOnlyLoad(map[], Effect(TestFields, None), opts, World(map[]), LoadConfigBytesPrefix);
    PlainLookups();
    OverridingEnvironment(TestFields, "", Getenv);
    OverriddenFieldsMerge();
    EmptyOverlay(TestFields);
  }

  lemma LoadConfigBytesEnvOverridePrefix()
    ensures LoadConfigBytesResult(map[], TestConfig, Environ, [EnvGetter(PrefixedGetenv), EnvPrefix("MYAPP")], World(map[]))
      == Outcome(OverriddenFields, None)
  {
    var opts := Defaults(Environ).(envGetter := PrefixedGetenv).(envPrefix := "MYAPP");
    ApplyTwo(Defaults(Environ), EnvGetter(PrefixedGetenv), EnvPrefix("MYAPP"));
    DecodeTable(true);
    EnvOnlyLoad(map[], Effect(TestFields, None), opts, World(map[]), LoadConfigBytesPrefix);
    PrefixedLookups();
    OverridingEnvironment(TestFields, "MYAPP", PrefixedGetenv);
    OverriddenFieldsMerge();
    EmptyOverlay(TestFields);
  }

  lemma LoadConfigBytesWithoutEnvOverride()
    ensures LoadConfigBytesResult(map[], TestConfig, Environ, [EnvGetter(Getenv), DisableEnvOverride], World(map[]))
      == Outcome(TestFields, None)
  {
    var opts := Defaults(Environ).(envGetter := Getenv).(envOverride := false);
    ApplyTwo(Defaults(Environ), EnvGetter(Getenv), DisableEnvOverride);
    DecodeTable(true);
    EnvOnlyLoad(map[], Effect(TestFields, None), opts, World(map[]), LoadConfigBytesPrefix);
    EmptyOverlay(TestFields);
  }

  lemma TwoBlobOptions()
    ensures ApplyAll(Defaults(Environ), [OverrideConfigBytes(OverrideConfig1), OverrideConfigBytes(OverrideConfig2)])
      == Defaults(Environ).(overrideConfigBytes := [OverrideConfig1, OverrideConfig2])
  {
    ApplyTwo(Defaults(Environ), OverrideConfigBytes(OverrideConfig1), OverrideConfigBytes(OverrideConfig2));
  }

  /** The override blobs decode to their layers. */
  lemma BlobOverrideLayers(opts: LoadConfigOptions)
    requires opts == Defaults(Environ).(overrideConfigBytes := [OverrideConfig1, OverrideConfig2])
    ensures DecodeBytes(TestConfig, opts, World(map[])) == Effect(TestFields, None)
    ensures OverrideLayers(opts, World(map[])) == OverrideEffects
  {
    var c := World(map[]);
    DecodeTable(true);
    assert DecodeBytes(OverrideConfig1, opts, c) == OverrideEffects[0];
    assert DecodeBytes(OverrideConfig2, opts, c) == OverrideEffects[1];
    assert FileLayers(opts, c) == [];
    assert BlobLayers(opts, c) == OverrideEffects;
    assert OverrideLayers(opts, c) == [] + OverrideEffects;
  }

  lemma LoadConfigBytesOverride()
    ensures LoadConfigBytesResult(map[], TestConfig, Environ, [OverrideConfigBytes(OverrideConfig1), OverrideConfigBytes(OverrideConfig2)],
                                  World(map[]))
      == Outcome(OverriddenFields, None)
  {
    var c := World(map[]);
    var opts := Defaults(Environ).(overrideConfigBytes := [OverrideConfig1, OverrideConfig2]);
    TwoBlobOptions();
    BlobOverrideLayers(opts);
    UnsetEnvironment(OverriddenFields, "", Environ);
    OverriddenLoad(opts, c, LoadConfigBytesPrefix);
  }

  lemma LoadConfigBytesInvalid()
    ensures LoadConfigBytesResult(map[], InvalidConfig, Environ, [], World(map[]))
      == Outcome(map[], Some(LoadConfigBytesPrefix + InvalidError))
  {
    DecodeTable(true);
    EmptyOverlay(map[]);
  }

  lemma LoadConfigBytesInvalidOverride()
    ensures LoadConfigBytesResult(map[], TestConfig, Environ, [OverrideConfigBytes(InvalidConfig)], World(map[]))
      == Outcome(TestFields, Some(LoadConfigBytesPrefix + (OverridePrefix + InvalidError)))
  {
    var opts := Defaults(Environ).(overrideConfigBytes := [InvalidConfig]);
    ApplyOne(Defaults(Environ), OverrideConfigBytes(InvalidConfig));
    DecodeTable(true);
    assert OverrideLayers(opts, World(map[])) == [Effect(map[], Some(InvalidError))];
    EmptyOverlay(TestFields);
    OverlayEmpty(TestFields);
  }

  lemma LoadConfigBytesBadEnvironment()
    ensures LoadConfigBytesResult(map[], TestConfig, Environ, [EnvGetter(BadPiGetenv)], World(map[]))
      == Outcome(TestFields, Some(LoadConfigBytesPrefix + (EnvigoPrefix + BadPiError)))
  {
    var opts := Defaults(Environ).(envGetter := BadPiGetenv);
    ApplyOne(Defaults(Environ), EnvGetter(BadPiGetenv));
    DecodeTable(true);
    EnvOnlyLoad(map[], Effect(TestFields, None), opts, World(map[]), LoadConfigBytesPrefix);
    BadNumberEnvironment(TestFields);
    EmptyOverlay(TestFields);
    OverlayEmpty(TestFields);
  }

  // LoadConfigFile against LoadConfig

  /**
   * An empty file: `LoadConfigFile` succeeds without writing anything, while
   * `LoadConfig` without key validation or environment fails with the
   * decoder's `EOF`.
   */
  lemma EmptyFileDiffers()
    ensures PlainFileResult(map[], ConfigFile, World(map[ConfigFile := ""])) == Outcome(map[], None)
    ensures LoadConfigResult(map[], ConfigFile, Environ, [YAMLValidateKeys(false), DisableEnvOverride], World(map[ConfigFile := ""]))
      == Outcome(map[], Some(LoadConfigPrefix + "EOF"))
  {
    var files := map[ConfigFile := ""];
    var opts := Defaults(Environ).(yamlValidateKeys := false).(envOverride := false);
    ApplyTwo(Defaults(Environ), YAMLValidateKeys(false), DisableEnvOverride);
    assert World(files).readFile(ConfigFile) == Success("");
    FileDecode(files, ConfigFile, opts);
    EmptyOverlay(map[]);
  }
}

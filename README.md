# go-configutils in Dafny

This project models the core of `go-configutils`, a small Go library for loading YAML
configuration into a caller-owned structure. It has two parts.

* **The root-key filter** (`yaml.go`). `YAMLRemoveRootKeys` and `YAMLKeepRootKeys` filter a
  YAML document as plain text. They split it into lines and track one `isIgnoring` flag, which
  is recomputed only at root lines (non-empty, no leading white space). Each line is either
  kept or replaced by the empty line, so the line count never changes. Remove mode blanks the
  sections of the listed keys. Keep mode blanks every other section.
* **The layered loader** (`config.go`):
  * Option functions build a `LoadConfigOptions` record.
    `getOpts` starts from the defaults and applies the option functions in call order.
  * `LoadConfig` / `LoadConfigBytes` decode a base document into the target object. Then, in
    `applyOpts`, they decode every override file, then every override byte blob, then apply
    environment variables when that is enabled.
  * Every layer writes into the same object in place.
  * The first error ends the load. The fields already written stay written.
  * An error is wrapped in the stage's header (`override error: `, `envigo error: `) and then
    the call site's header (`LoadConfig error: `, `LoadConfigBytes error: `).

Files:

| file | module | contents |
|---|---|---|
| `wrappers.dfy` | `Wrappers` | `Option`, `Result` |
| `strings.dfy` | `Strings` | the parts of Go's `strings`/`unicode` the filter uses: the White_Space set, `TrimLeftFunc(IsSpace)`, `TrimSpace`, `HasPrefix`, one-character `Split` and `Join`, with their round trip |
| `yaml.dfy` | `Yaml` | the filter as an imperative method over an array of lines, its specification function, and its properties |
| `yaml_scenarios.dfy` | `YamlScenarios` | the two cases of `yaml_test.go` |
| `options.dfy` | `Options` | the options record, the option functions, `getOpts`, and last-one-wins properties |
| `loader.dfy` | `Loader` | the target object (a class mutated in place), the load stages as methods, the specification functions they are proved against, and the pipeline's properties |
| `loader_scenarios.dfy` | `LoaderScenarios` | the cases of `config_test.go`, in a world of stub collaborators |

How the Go entities are modelled:

* **Documents.** A document (`[]byte`) is the text it holds (`string`). The filter converts
  the bytes to a string before working on them.
* **Target object.** The object written by the decoder and by the environment stage is a
  `Target` class with one field. That field maps a field path (e.g. `["Section", "SectionKey"]`)
  to a scalar value. A path that is absent still has its Go zero value.
* **Decoder.** The YAML decoder, `yaml.Unmarshal`, the file reader and the environment stage are functions passed
  in as a `Collaborators` value.
  * A decode or environment run is described by its `Effect`: the fields it assigned and the
    error it returned.
  * The fields are written even when an error comes back. The decoder keeps decoding after an
    unknown-field error, and the environment stage keeps the variables it had already applied.
  * One stage's writes replace earlier values of the same paths and leave every other path
    alone. This is the "merge by presence" precedence between layers, written as map overlay
    `+`.
* **Option functions.** The option functions (closures over `*LoadConfigOptions`) are the
  constructors of `OptFunc`, and `Apply` is what each closure does. A nil `YAMLPatchBytes` is
  `None`.

## Model

| member | source | states |
|---|---|---|
| `Strings.TrimLeftSpace` | yaml.go:23 | the result is a suffix of the line; everything dropped is white space; the result is empty or starts with a non-space character |
| `Strings.TrimSpace` | yaml.go:22 | the trimmed line is empty iff the line is all white space |
| `Strings.Split` | yaml.go:17 | splitting gives at least one piece, and no piece contains the separator |
| `Strings.JoinSplit` | yaml.go:17-41 | joining the pieces of a split gives the text back |
| `Strings.SplitJoin` | yaml.go:17-41 | splitting a join of separator-free lines gives the same lines (count and contents) |
| `Yaml.RootLine` | yaml.go:22-23 | the emptiness and left-trim test classifies a line as root exactly when `IsRoot` holds |
| `Yaml.RootLineTest` | yaml.go:22-23 | "left-trim leaves the line unchanged and the trimmed line is non-empty" iff the first character exists and is not white space |
| `Yaml.MatchesSomeKey` | yaml.go:28-33 | the early-exit loop over the keys finds a match iff some key followed by `:` is a prefix of the line |
| `Yaml.FilterRootKeys` | yaml.go:16-42 | the in-place loop over the array of lines, with the `isIgnoring` flag, returns exactly `Filter`: line `i` is blanked iff the flag at `i`, reversed in keep mode, is set |
| `Yaml.RemoveRootKeys` | yaml.go:8-10 | `YAMLRemoveRootKeys` is the filter in remove mode |
| `Yaml.KeepRootKeys` | yaml.go:12-14 | `YAMLKeepRootKeys` is the filter in keep mode |
| `Yaml.LinesOfFilter` | yaml.go:17-41 | the output split into lines is exactly the filtered lines, so the line count is preserved |
| `Yaml.BlankedOrKept` | yaml.go:36-38 | every output line is the input line at the same position or the empty line |
| `Yaml.RemoveKeepComplement` | yaml.go:36-38 | remove and keep mode are complements at every line: the flag decides which one keeps the line and which one blanks it |
| `Yaml.FlagOfLastRoot` | yaml.go:19-34 | the flag at line `i` is set iff there is a last root line at or before `i` and that line starts with a listed key and `:` |
| `Yaml.NonRootInherits` | yaml.go:25 | a blank or indented line leaves the flag as the previous line had it |
| `Yaml.BeforeFirstRoot` | yaml.go:19 | lines before the first root line have the flag off: kept by remove, blanked by keep |
| `Yaml.UnmatchedKeyFlag` | yaml.go:28-33 | adding a key that starts no line leaves the flag unchanged at every line |
| `Yaml.UnmatchedKeyNoEffect` | yaml.go:16-42 | adding a key that starts no line leaves the output of either mode unchanged |
| `Yaml.NoKeysNoFlag` | yaml.go:26-33 | with an empty key list the flag is never set |
| `Yaml.RemoveNoKeys` | yaml.go:8-10 | with no keys, remove returns the document unchanged |
| `Yaml.KeepNoKeys` | yaml.go:12-14 | with no keys, keep blanks every line and keeps the line count |
| `YamlScenarios.DocumentFlags` | yaml_test.go:12-23 | in the test document the flag is set exactly on lines 4 to 8 (the `key2` and `key3` sections) |
| `YamlScenarios.RemoveScenario` | yaml_test.go:11-34 | removing `key2`, `key3`, `key3x` blanks the `key2`/`key3` sections and keeps every other line |
| `YamlScenarios.KeepScenario` | yaml_test.go:38-63 | keeping `key2`, `key3`, `key3x` keeps only those sections and blanks the rest |
| `Options.Apply` | config.go:23-65 | each option function changes only its own field: `DisableEnvOverride` turns env override off, `EnvPrefix`, `EnvGetter`, `YAMLValidateKeys` and `YAMLPatchBytes` (nil included) replace theirs, `OverrideConfigFile` appends a non-empty path and `OverrideConfigBytes` appends its blob |
| `Options.GetOpts` | config.go:99-115 | the defaults, then every option function in call order (`ApplyAll`) |
| `Options.NoOptionsGivesDefaults` | config.go:100-108 | with no options: env override on, empty prefix, the process environment, no overrides, strict keys, no patch |
| `Options.ApplyAllAppend` | config.go:110-112 | applying `fs + gs` is applying `fs`, then `gs` |
| `Options.OverrideFilesInOrder` | config.go:41-47 | override files are appended in call order, each empty path skipped |
| `Options.OverrideBytesInOrder` | config.go:49-53 | override blobs are always appended, in call order |
| `Options.EmptyOverrideFileIsSkipped` | config.go:43-45 | `OverrideConfigFile("")` changes nothing |
| `Options.LastPrefixWins` | config.go:29-33 | the last `EnvPrefix` passed decides the prefix |
| `Options.LastValidateKeysWins` | config.go:55-59 | the last `YAMLValidateKeys` passed decides strictness |
| `Options.EnvOverrideOff` | config.go:23-27 | env override is on iff no `DisableEnvOverride` is passed |
| `Options.PatchIsLastPassed` | config.go:61-65 | the last `YAMLPatchBytes` passed decides the hook, a nil patch included; with none passed the hook stays nil |
| `Loader.Target.constructor` | config_test.go:76 | a fresh target holds no written field (`&Config{}`) |
| `Loader.OverrideLayers` | config.go:118-128 | the layers are every override file in order, then every override blob in order |
| `Loader.LoadConfigFile` | config.go:67-74 | read the file (its error returned as is), then `yaml.Unmarshal` of its contents into the target, with no patch and no key validation |
| `Loader.LoadConfigBytesOpts` | config.go:85-97 | the target gains the decoder's writes on the patched bytes (patched iff a hook is set), decoded strictly iff keys are validated, and the decoder's error is returned |
| `Loader.LoadConfigFileOpts` | config.go:76-83 | a read error is returned with the target untouched; otherwise as `LoadConfigBytesOpts` on the contents |
| `Loader.ApplyFileOverrides` | config.go:118-122 | the loop over the override files leaves the target and error of running their layers in order, stopping at the first error |
| `Loader.ApplyBlobOverrides` | config.go:124-128 | the same for the loop over the override blobs |
| `Loader.ApplyOpts` | config.go:117-137 | the in-place loops give `ApplyOptsResult`: files, then blobs, then the environment if enabled, stopping at the first error and wrapping it in its stage's header |
| `Loader.LoadConfig` | config.go:139-155 | the target and error are `LoadConfigResult`: options resolved, base file decoded, then `applyOpts`, every error under `LoadConfig error: ` |
| `Loader.LoadConfigBytes` | config.go:157-173 | the same for a byte document, under `LoadConfigBytes error: ` |
| `Loader.RunLayersExtend` | config.go:118-128 | after layers that all succeeded, one more layer is written on top and its error is the result |
| `Loader.RunLayersFailed` | config.go:118-128 | once a layer has failed, no later layer is applied |
| `Loader.RunLayersAppend` | config.go:118-128 | running the file layers then the blob layers is running all of them in one sequence: a failure among the files skips every blob |
| `Loader.RunLayersSucceedsIff` | config.go:118-128 | the override stage succeeds iff every layer does |
| `Loader.FirstFailureStops` | config.go:118-128 | the first failing layer's error is the result; its writes and earlier ones remain; later layers do not run |
| `Loader.RunLayersMerges` | config.go:118-128 | when every layer succeeds, the fields are the old ones overlaid with all writes, later layers winning |
| `Loader.LastWriterWins` | config.go:118-128 | a field takes the value of the last layer that writes it |
| `Loader.UnwrittenKeepsValue` | config.go:118-128 | a field no layer writes keeps its value (merge by presence) |
| `Loader.RunLayersIdempotent` | config.go:118-128 | applying the same successful layers twice gives the same fields as once |
| `Loader.PatchBeforeDecode` | config.go:86-94 | with a hook the decoder sees the patched bytes; without one it sees the bytes as given; strictness is passed through either way |
| `Loader.EnvDisabledIgnoresEnvironment` | config.go:130-134 | with env override off, neither the lookup nor the environment stage affects the result |
| `Loader.EnvWins` | config.go:130-134 | with env override on and the overrides successful, the environment's writes win over every earlier layer |
| `Loader.BaseFailureStops` | config.go:146-148 | a failing base layer ends the load: no override or environment stage runs, and the error gets only the call-site header |
| `Loader.OverrideFailureStops` | config.go:117-155 | the first failing override ends the load with header + `override error: ` + its error, and the environment does not run |
| `Loader.EnvFailure` | config.go:130-155 | an environment failure after all else succeeded gives header + `envigo error: ` + its error, and its writes remain |
| `Loader.LoadSucceeds` | config.go:139-173 | a load succeeds iff the base, every override and (if enabled) the environment succeed; the fields are then the base, overrides and environment writes overlaid in that order |
| `Loader.ErrorsCarryCallSite` | config.go:139-173 | every error of `LoadConfig` starts with `LoadConfig error: `, every error of `LoadConfigBytes` with `LoadConfigBytes error: ` |
| `Loader.PlainFileIsLenientLoad` | config.go:67-74 | where `yaml.Unmarshal` agrees with the lenient decoder on the file, `LoadConfigFile` gives the same fields as `LoadConfig` with key validation and env override off, and the same error without the header |
| `LoaderScenarios.UnsetEnvironment` | config_test.go:71-88 | with no variable set, the environment stage writes nothing and succeeds |
| `LoaderScenarios.OverridingEnvironment` | config_test.go:125-153 | a lookup that sets `DO` and `SECTION_SECTIONKEY` makes the environment stage write exactly those two fields |
| `LoaderScenarios.BadNumberEnvironment` | config_test.go:275-293 | `PI=3,14` makes the environment stage fail with the float parse error before writing anything |
| `LoaderScenarios.LoadConfigLoads` | config_test.go:71-88 | `LoadConfig` of the test document fills all four fields and succeeds |
| `LoaderScenarios.LoadConfigValidatesKeys` | config_test.go:90-99 | an unknown key fails the strict default load with the unknown-field error |
| `LoaderScenarios.LoadConfigIgnoresUnknownKeys` | config_test.go:101-109 | with `YAMLValidateKeys(false)` the same document loads |
| `LoaderScenarios.LoadConfigPatches` | config_test.go:111-123 | the patch hook's output is what is decoded: `Key` is `patchedvalue` |
| `LoaderScenarios.LoadConfigEnvOverride` | config_test.go:125-153 | `DO` and `SECTION_SECTIONKEY` override `Do` and `Section.SectionKey` |
| `LoaderScenarios.LoadConfigEnvOverridePrefix` | config_test.go:155-183 | with prefix `MYAPP` the variables `MYAPP_DO`, `MYAPP_SECTION_SECTIONKEY` are used |
| `LoaderScenarios.LoadConfigWithoutEnvOverride` | config_test.go:185-213 | with `DisableEnvOverride` the set variables are not applied |
| `LoaderScenarios.LoadConfigFileOverride` | config_test.go:215-238 | two override files applied in order override `Do` and `Section.SectionKey` |
| `LoaderScenarios.LoadConfigMissingFile` | config_test.go:240-248 | a missing base file gives `LoadConfig error: open <path>: no such file or directory` |
| `LoaderScenarios.LoadConfigInvalid` | config_test.go:250-259 | an invalid document gives the decoder's `yaml: unmarshal errors` error under the header |
| `LoaderScenarios.LoadConfigInvalidOverride` | config_test.go:261-273 | an invalid override file gives `LoadConfig error: override error: ` + the decoder's error, keeping the base fields |
| `LoaderScenarios.LoadConfigBadEnvironment` | config_test.go:275-293 | `PI=3,14` gives `LoadConfig error: envigo error: envigo PI parse float error: ...` |
| `LoaderScenarios.LoadConfigBytesLoads` | config_test.go:297-311 | `LoadConfigBytes` of the test document fills all four fields |
| `LoaderScenarios.LoadConfigBytesValidatesKeys` | config_test.go:313-319 | an unknown key fails the strict default load |
| `LoaderScenarios.LoadConfigBytesIgnoresUnknownKeys` | config_test.go:321-326 | with `YAMLValidateKeys(false)` it loads |
| `LoaderScenarios.LoadConfigBytesPatches` | config_test.go:328-337 | the patched document is decoded |
| `LoaderScenarios.LoadConfigBytesEnvOverride` | config_test.go:339-364 | environment override of `Do` and `Section.SectionKey` |
| `LoaderScenarios.LoadConfigBytesEnvOverridePrefix` | config_test.go:366-391 | the same under prefix `MYAPP` |
| `LoaderScenarios.LoadConfigBytesWithoutEnvOverride` | config_test.go:393-418 | with env override disabled the variables are ignored |
| `LoaderScenarios.LoadConfigBytesOverride` | config_test.go:420-434 | two override blobs applied in order |
| `LoaderScenarios.LoadConfigBytesInvalid` | config_test.go:436-442 | an invalid document gives the decoder's error under `LoadConfigBytes error: ` |
| `LoaderScenarios.LoadConfigBytesInvalidOverride` | config_test.go:444-450 | an invalid override blob gives `LoadConfigBytes error: override error: ` + the decoder's error |
| `LoaderScenarios.LoadConfigBytesBadEnvironment` | config_test.go:452-467 | `PI=3,14` gives `LoadConfigBytes error: envigo error: envigo PI parse float error: ...` |
| `LoaderScenarios.EmptyFileDiffers` | config.go:67-97 | on an empty file `LoadConfigFile` succeeds (`Unmarshal` returns nil) while lenient `LoadConfig` fails with `LoadConfig error: EOF` (the decoder returns `io.EOF`) |

## Left out

- YAML decoding (`gopkg.in/yaml.v3`, including `KnownFields`) is a parameter, the `decode` field of `Collaborators`. It is not implemented. The scenarios use a table decoder that knows only the test documents and gives their decoded fields and errors.
- `yaml.Unmarshal`, used by `LoadConfigFile`, is a parameter of its own (`unmarshal`), separate from the decoder, because the two differ on a document with no content: the decoder returns `io.EOF`, `Unmarshal` returns nil. The scenarios' `Unmarshal` does just that on an empty document and otherwise decodes leniently.
- Loader.PlainFileIsLenientLoad: holds only under the hypothesis that `unmarshal` and the lenient `decode` agree on the file's contents; on an empty or comment-only document they do not, and `LoaderScenarios.EmptyFileDiffers` shows the two calls then disagree.
- File reading (`ioutil.ReadFile`) is a parameter (`readFile`). The scenarios read from a map and give the operating system's "no such file or directory" text for a missing path.
- The `envigo` package is a parameter (`envigo`). Its reflection walk, its derivation of variable names and its value parsing are not modelled. The scenarios use a stub for the four test fields: they are looked up as `KEY`, `DO`, `PI`, `SECTION_SECTIONKEY` under `prefix_`. The stub parses only `true`, `false` and `3.14`, and reproduces the error text the tests compare against.
- `envigo.EnvironGetter()`, the process environment, is the `environ` parameter of `GetOpts`, `LoadConfig`, `LoadConfigBytes` and their specification functions. The scenarios assume an environment with none of the test variables set.
- The reflection loops that unwrap a pointer to a pointer (config.go:142-144, 160-162) have no counterpart. The target is always the object itself.
- The target is a map from field paths to scalar values. Nested pointers allocated by the decoder, slices and maps inside the configuration, and a decoder whose writes depend on the target's current content are not modelled.
- `Float` holds a Dafny `real`. `float64` rounding and `strconv.ParseFloat` are not modelled.
- Documents are sequences of characters, not bytes. A document with invalid UTF-8 cannot be represented. In the source, `string(b)` copies such bytes unchanged, `strings.Split` and `strings.Join` work byte by byte, and `TrimLeftFunc` reads an invalid byte as U+FFFD, which is not white space, so the filter keeps the invalid bytes of kept lines as they were.
- Error values are strings. `%w` wrapping (`errors.Is`/`errors.As` on the wrapped error) is represented only by the prefixed text.
- `LoadConfigOptions` is a value that `GetOpts` rebuilds, not a pointer that each closure mutates. Nothing else holds that pointer during `getOpts`, so no aliasing is lost.
- Option closures built by callers other than the seven option functions are not represented: `OptFunc` has one constructor per option function.
- Root lines: a root line is defined as "non-empty, first character not white space", which is the source's own test (`TrimLeftFunc(line, IsSpace) == line && TrimSpace(line) != ""`, proved equivalent in `Yaml.RootLineTest`). Flush-left continuation lines (for example in block scalars) therefore count as root lines, as in the source.

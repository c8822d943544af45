# build-kit webpack configuration core, in Dafny

This project models the core of `build-kit`, a TypeScript toolkit that assembles
webpack configurations. The model covers three parts:

- **`flattenObject`** (`lib/common/utils.ts`). It turns a nested asset record into
  a flat list of its string, number and boolean leaves. The model is
  `Utils.Flatten` over an explicit JavaScript value type (`Utils.Value`). It is
  proved against a reference reading of the tree: its leaves in depth-first,
  key-enumeration order.
- **The keep-builds cleaning plugin**
  (`lib/webpack/plugins/webpack-cleaning-assets-keeping-builds-plugin.ts`).
  - Its constructor merges the keep-list.
  - `processOutput` writes a rolling history of the last `keepBuilds + 1` builds'
    asset lists.
  - `deleteBuilds` removes every file of the output directory that is neither on
    the keep-list nor named in that history.

  The plugin is a class (`CleaningPlugin.CleaningAssetsKeepingBuildsPlugin`). The
  output directory is an object whose entry map `DeleteBuilds` changes in place.
  Each method is proved against a pure function (`HistoryToWrite`, `Reconcile`),
  and the properties of those functions are proved as lemmas.
- **`WebpackConfigBuilder`** (`lib/builders/webpack-config-builder.ts`). This is a
  fluent builder whose setters update its fields. `build` rewrites its
  configuration record in a fixed order: file names, asset cleaning, asset file,
  plugins, optimization, module rules, then validation. It is the class
  `ConfigBuilder.WebpackConfigBuilder`. Its class invariant `Valid()` states two
  things:
  - the configuration's entry map mirrors the list of added entries;
  - `DEBUG` and `PRODUCTION` are always defined.

  The default module rules and default configuration come from
  `configuration-files/webpack-config.ts`.

Files:

- `wrappers.dfy`: `Option` and `Result`.
- `utils.dfy`, `utils_test.dfy`: the flattener, and the repository's own test
  record.
- `cleaning_plugin.dfy`, `cleaning_plugin_test.dfy`: the plugin, and two worked
  examples.
- `config_builder.dfy`: the builder.

Environment inputs are parameters:
- the directory listing, the parsed history file and `process.env.NODE_ENV`;
- `process.exit(1)` after a logged error becomes a `Failure` result that
  leaves the state unchanged.

Some behaviour of the code is easy to misread; the model follows the code:

- `flattenObject` keeps duplicates. De-duplication happens afterwards, in
  `processOutput` (`Utils.FlattenSpec`, `UtilsTest.AssetRecordFlattens`).
- A `null` inside the record does not reach the "Unsupported type" branch.
  `typeof null` is `"object"`, so `Object.values(null)` throws a `TypeError`
  without logging (`NullHasNoValues`).
- Deletion is not fail-soft. `deleteBuilds` has no `try`/`catch`, so a listed path
  whose `lstat` fails ends the pass (`MissingEntry`). Any deletion already made
  stays made.
- The history file is not checked for shape. Only text that is not JSON makes
  `JSON.parse` throw (`HistoryNotJson`).
- The glob `**/*` is used without the `dot` option. It does not list dotfiles,
  so the default `.keep.json` is never a deletion candidate, whatever the
  keep-list says.

## Model

| member | source | states |
|---|---|---|
| Utils.FlattenSpec | lib/common/utils.ts:6-33 | flattening succeeds exactly when every leaf of the tree is a string, number or boolean, and then returns every leaf in depth-first, key order with duplicates kept; otherwise it fails with the first other leaf's error |
| Utils.FlattenReadsLeaves | lib/common/utils.ts:10-30 | the recursive flattener equals reading the tree's leaves left to right (array branch, object-through-values branch, scalar branch) |
| Utils.FlattenAllReadsLeaves | lib/common/utils.ts:11-12 | `subject.map(flattenObject).flat()` reads the leaves of the items in order |
| Utils.FlattenPropsReadsLeaves | lib/common/utils.ts:15-16 | an object's values are flattened one after the other, in enumeration order |
| Utils.CollectSpec | lib/common/utils.ts:19-25 | reading leaves succeeds iff all are scalars, yields them all in order, and otherwise fails with the first non-scalar's error |
| Utils.CollectAppend | lib/common/utils.ts:28-30 | reading a concatenation of leaves is the concatenation of the readings, the first failure winning |
| Utils.JoinIsAssociative | lib/common/utils.ts:28-30 | pushing partial results is associative, so nesting depth does not change the output |
| Utils.JoinEmpty | lib/common/utils.ts:28-30 | an empty partial result is neutral on both sides |
| Utils.FlattenBaseCases | lib/common/utils.ts:18-25 | a scalar flattens to the one-element list, an empty array or object to the empty list, an unsupported kind to "Unsupported type", null to the `Object.values` TypeError |
| Utils.FlattenArrayConcat | lib/common/utils.ts:11-12 | an array flattens to the concatenation of its parts' flattenings |
| Utils.ObjectFlattensItsValues | lib/common/utils.ts:15-16 | an object flattens exactly as the array of its values |
| Utils.FlattenIsIdempotent | lib/common/utils.ts:6-33 | the output is flat: flattening it again returns it unchanged |
| Utils.FlattenLiftedList | lib/common/utils.ts:11-12 | a flat list of scalars flattens to itself |
| Utils.Lift | lib/common/utils.ts:19-20 | a flattened element read back as a JavaScript value is a scalar with the same content |
| UtilsTest.AssetRecordFlattens | tests/common/utils.test.ts:4-82 | the test's nested asset record flattens to exactly the expected list of 28 paths, in entry and key order |
| UtilsTest.StoreLocatorFlattens | tests/common/utils.test.ts:7-15 | the first entry flattens to the first seven expected paths |
| UtilsTest.ProductGridFlattens | tests/common/utils.test.ts:16-33 | the second entry flattens to its six own paths followed by the eight svg files of its nested array |
| UtilsTest.SharedFilesAppearTwice | tests/common/utils.test.ts:51-81 | the expected list has 28 entries, and the font and icon files two entries share appear at both positions (no de-duplication) |
| UtilsTest.ChunksFlattens | tests/common/utils.test.ts:42-48 | the chunk entry keyed by the empty string flattens to the last three expected paths |
| CleaningPlugin.CleaningAssetsKeepingBuildsPlugin.constructor | lib/webpack/plugins/webpack-cleaning-assets-keeping-builds-plugin.ts:17-32 | given settings override the defaults (".keep.json", 0 builds); the keep-list is the default manifest pattern, then the caller's entries, then the history file name |
| CleaningPlugin.CleaningAssetsKeepingBuildsPlugin.HistoryFileIsKept | lib/webpack/plugins/webpack-cleaning-assets-keeping-builds-plugin.ts:30-31 | the history file is on the keep-list of every pass |
| CleaningPlugin.LowerSuffixLength | lib/webpack/plugins/webpack-cleaning-assets-keeping-builds-plugin.ts:21 | the lower-case suffix is never longer than the name |
| CleaningPlugin.AssetsManifestPatternMeaning | lib/webpack/plugins/webpack-cleaning-assets-keeping-builds-plugin.ts:21 | the concrete matcher holds exactly when some position holds "assets." followed only by one or more lower-case letters to the end (`/assets\.[a-z]+$/`) |
| CleaningPlugin.LowerSuffixIsMaximal | lib/webpack/plugins/webpack-cleaning-assets-keeping-builds-plugin.ts:21 | any all-lower-case suffix preceded by a non-lower-case character, or by nothing, is the one the matcher measures |
| CleaningPlugin.LowerSuffixIsLower | lib/webpack/plugins/webpack-cleaning-assets-keeping-builds-plugin.ts:21 | the measured suffix is all lower case and cannot be extended |
| CleaningPlugin.ManifestNameMatches | lib/webpack/plugins/webpack-cleaning-assets-keeping-builds-plugin.ts:21 | a file named "assets." plus a non-empty lower-case extension matches, in any directory |
| CleaningPlugin.AssetsManifestRejects | lib/webpack/plugins/webpack-cleaning-assets-keeping-builds-plugin.ts:21 | ".keep.json", "assets.json5" and "assets." do not match |
| CleaningPlugin.WithoutDigitKeysSpec | lib/webpack/plugins/webpack-cleaning-assets-keeping-builds-plugin.ts:58-62 | exactly the top-level entries whose key is not one decimal digit survive, never more entries than before |
| CleaningPlugin.WithoutDigitKeysKeepsOrder | lib/webpack/plugins/webpack-cleaning-assets-keeping-builds-plugin.ts:58-62 | the surviving entries keep their order: dropping digit keys distributes over concatenation, and one entry survives exactly when its key is not a single digit |
| CleaningPlugin.CleaningAssetsKeepingBuildsPlugin.DropDigitKeys | lib/webpack/plugins/webpack-cleaning-assets-keeping-builds-plugin.ts:59-62 | the deletion loop leaves exactly the record that `WithoutDigitKeys` describes |
| CleaningPlugin.IndexOf | lib/webpack/plugins/webpack-cleaning-assets-keeping-builds-plugin.ts:68 | `indexOf` is -1 iff the value is absent, and otherwise the first position holding it |
| CleaningPlugin.FirstOccurrencesInSpec | lib/webpack/plugins/webpack-cleaning-assets-keeping-builds-plugin.ts:68 | the filter over a prefix keeps the prefix's values, each at its first position, in increasing first-position order |
| CleaningPlugin.UniqueSpec | lib/webpack/plugins/webpack-cleaning-assets-keeping-builds-plugin.ts:67-68 | de-duplication leaves no value twice, the same set of values, in order of first occurrence |
| CleaningPlugin.NextHistory | lib/webpack/plugins/webpack-cleaning-assets-keeping-builds-plugin.ts:70-78 | the new generation comes first, then the stored ones in stored order, at most `keepBuilds + 1` generations |
| CleaningPlugin.HistoryToWriteSpec | lib/webpack/plugins/webpack-cleaning-assets-keeping-builds-plugin.ts:57-81 | `processOutput` fails exactly when the record cannot be flattened or the stored file is not JSON; otherwise it returns the generation without repeats, in first-occurrence order and with the same paths, then the stored generations in order, with exactly min(stored + 1, `keepBuilds` + 1) generations |
| CleaningPlugin.HistoryWindow | lib/webpack/plugins/webpack-cleaning-assets-keeping-builds-plugin.ts:70-78 | after n successive builds from no history the file holds min(n, keepBuilds + 1) generations, most recent first |
| CleaningPlugin.CleaningAssetsKeepingBuildsPlugin.ProcessOutput | lib/webpack/plugins/webpack-cleaning-assets-keeping-builds-plugin.ts:57-81 | the callback returns exactly the history `HistoryToWrite` describes |
| CleaningPlugin.NamesOfKeeps | lib/webpack/plugins/webpack-cleaning-assets-keeping-builds-plugin.ts:99 | every path string of a stored generation becomes a literal keep entry |
| CleaningPlugin.StoredNamesKeep | lib/webpack/plugins/webpack-cleaning-assets-keeping-builds-plugin.ts:97-100 | `.flat()` over all stored generations keeps every path of every generation |
| CleaningPlugin.KeepListProtects | lib/webpack/plugins/webpack-cleaning-assets-keeping-builds-plugin.ts:94-100 | every path named in any stored generation is kept by the pass |
| CleaningPlugin.NewestBuildIsKept | lib/webpack/plugins/webpack-cleaning-assets-keeping-builds-plugin.ts:57-100 | every path that the latest build wrote to the history is kept by the next pass, for any `keepBuilds` of at least 0 |
| CleaningPlugin.ReconcileDeletesExactlyUnkept | lib/webpack/plugins/webpack-cleaning-assets-keeping-builds-plugin.ts:107-116 | over a listing of existing entries, the pass succeeds and removes exactly the listed paths that are neither kept nor directories, leaving every other entry as it was |
| CleaningPlugin.ReconcileKeepsProtected | lib/webpack/plugins/webpack-cleaning-assets-keeping-builds-plugin.ts:110-112 | a kept path or a directory survives any pass, even one that ends early |
| CleaningPlugin.SecondPassDeletesNothing | lib/webpack/plugins/webpack-cleaning-assets-keeping-builds-plugin.ts:107-116 | a second pass over what the first left deletes nothing |
| CleaningPlugin.NothingLeftToDelete | lib/webpack/plugins/webpack-cleaning-assets-keeping-builds-plugin.ts:107-116 | a listing of only kept paths and directories changes nothing |
| CleaningPlugin.CleaningAssetsKeepingBuildsPlugin.DeleteBuilds | lib/webpack/plugins/webpack-cleaning-assets-keeping-builds-plugin.ts:90-117 | a history that is not JSON aborts before any deletion; otherwise the outcome and the directory afterwards are what `Reconcile` gives for the keep-list plus stored paths |
| CleaningPluginTest.DuplicatedPathHistory | lib/webpack/plugins/webpack-cleaning-assets-keeping-builds-plugin.ts:57-81 | a record naming "x.js" under two entries writes one generation with "x.js" only at its first position |
| CleaningPluginTest.ScenarioDeletesOnlyUnkept | lib/webpack/plugins/webpack-cleaning-assets-keeping-builds-plugin.ts:90-117 | with a text-file pattern and a history naming "a.js", only "b.js" is deleted; "c.txt", "a.js", a directory and the unlisted history file stay |
| ConfigBuilder.TemplatesRender | lib/builders/webpack-config-builder.ts:368-408 | the fourteen file-name templates render to the strings the builder sets |
| ConfigBuilder.FilenamesHashing | lib/builders/webpack-config-builder.ts:368-408 | with hashing on every file name carries `[contenthash]` and with it off none does; the asset-module name carries `[hash]` only when hashing is off; fonts, icons and images keep their sub-directories |
| ConfigBuilder.WebpackConfigBuilder.ApplyFilenames | lib/builders/webpack-config-builder.ts:368-408 | sets the three output names, the CSS extractor name and the three generator names for the current hashing flag, nothing else |
| ConfigBuilder.FirstLoaderIndex | lib/builders/webpack-config-builder.ts:287 | the index of the first `{loader}` entry with that name, or -1 when there is none |
| ConfigBuilder.WithoutTsLoader | lib/builders/webpack-config-builder.ts:531 | the filter keeps exactly the entries that are not a ts-loader record |
| ConfigBuilder.WithoutTsLoaderKeepsOrder | lib/builders/webpack-config-builder.ts:531 | the remaining loaders keep their order: the filter distributes over concatenation, and one entry survives exactly when it is not ts-loader |
| ConfigBuilder.PrepareRuleShape | lib/builders/webpack-config-builder.ts:523-540 | preparing a rule changes at most its name (dropped unless in debug mode) and, for the JavaScript rule, its loaders |
| ConfigBuilder.PreparedRulesSpec | lib/builders/webpack-config-builder.ts:520-545 | the emitted rules are the five rules in record order, each keeping its shape |
| ConfigBuilder.DefaultJavaScriptRulePrepared | lib/builders/webpack-config-builder.ts:524-532 | on the default JavaScript rule, ts-loader stays exactly when declarations are on and babel-loader keeps its options exactly when default babel options are on |
| ConfigBuilder.WebpackConfigBuilder.ApplyModulesRules | lib/builders/webpack-config-builder.ts:520-545 | writes the prepared copy of the rules and leaves the builder's own rules untouched |
| ConfigBuilder.SetBabelOptionsAsWritten | lib/builders/webpack-config-builder.ts:286-305 | with no `use` list the `.filter` call throws; with no babel-loader the error is reported; a bare name at `use[0]` cannot take options; otherwise only `use[0]` changes, receiving the setter's result for the babel-loader options |
| ConfigBuilder.SetBabelOptionsAsWrittenHitsTsLoader | lib/builders/webpack-config-builder.ts:303 | as written, on the default rule, the babel options go to ts-loader and babel-loader keeps its old options |
| ConfigBuilder.SetBabelOptionsIntended | lib/builders/webpack-config-builder.ts:286-305 | the corrected setter: fails exactly when there is no `use` list or no babel-loader; otherwise only the babel-loader entry's options change, to the setter's result |
| ConfigBuilder.WebpackConfigBuilder.SetBabelOptions | lib/builders/webpack-config-builder.ts:286-305 | updates the JavaScript rule as the code does (`SetBabelOptionsAsWritten`), or leaves everything unchanged on an error |
| ConfigBuilder.DeclarationPlugins | lib/builders/webpack-config-builder.ts:170-183 | one declarations plugin per entry, in entry order, writing `<outputName>.d.ts` |
| ConfigBuilder.Builtins | lib/builders/webpack-config-builder.ts:559 | the default initializers are taken in declaration order |
| ConfigBuilder.Customs | lib/builders/webpack-config-builder.ts:560 | the user initializers follow in `addPlugin` order |
| ConfigBuilder.ExpandAppend | lib/builders/webpack-config-builder.ts:567-576 | initializing a concatenation of initializers pushes the concatenation of their plugins |
| ConfigBuilder.ExpandStep | lib/builders/webpack-config-builder.ts:567-576 | one more initializer appends its spread result |
| ConfigBuilder.ExpandCustoms | lib/builders/webpack-config-builder.ts:567-576 | the user initializers push their plugins, array results spliced in place |
| ConfigBuilder.ExpandDefaults | lib/builders/webpack-config-builder.ts:155-184 | the defaults push the duplicate checker, the CSS extractor with the current CSS name, then the declarations plugins if still registered |
| ConfigBuilder.PluginOrder | lib/builders/webpack-config-builder.ts:553-576 | the plugins pushed are the defaults (when enabled) followed by the user plugins in `addPlugin` order |
| ConfigBuilder.WebpackConfigBuilder.PushPlugins | lib/builders/webpack-config-builder.ts:569-575 | appends the plugins in order |
| ConfigBuilder.WebpackConfigBuilder.InitializeAll | lib/builders/webpack-config-builder.ts:567-576 | the loop appends exactly `Expand` of the initializers |
| ConfigBuilder.WebpackConfigBuilder.ApplyPlugins | lib/builders/webpack-config-builder.ts:553-583 | drops the declarations initializer for good when declarations are off, then appends the expanded plugins and a DefinePlugin when the environment is non-empty |
| ConfigBuilder.AssetFileIsKeptByCleaning | lib/builders/webpack-config-builder.ts:659 | the asset file of any lower-case format matches the keep-builds plugin's default pattern |
| ConfigBuilder.WrapProps | lib/builders/webpack-config-builder.ts:668-675 | every asset-type value that is not an array becomes a one-element array, keys and order kept |
| ConfigBuilder.WrapItems | lib/builders/webpack-config-builder.ts:668-675 | an array entry's non-array elements are wrapped, length kept |
| ConfigBuilder.NormalizeAssetsSpec | lib/builders/webpack-config-builder.ts:666-676 | the loops fail exactly on a non-empty string entry (strict-mode index assignment); otherwise keys stay in order, every non-array member of an object or array entry becomes a one-element array, array members stay as they are, and other entries are unchanged |
| ConfigBuilder.NormalizeAssetsPointwise | lib/builders/webpack-config-builder.ts:666-676 | the outer loop treats each entry on its own, in key order, and fails exactly when some entry does |
| ConfigBuilder.NormalizeIsIdempotent | lib/builders/webpack-config-builder.ts:666-690 | normalizing a normalized record changes nothing |
| ConfigBuilder.AssetFileText | lib/builders/webpack-config-builder.ts:692-698 | the "json" format returns the JSON itself; any other format wraps it in the PHP `json_decode` statement |
| ConfigBuilder.WebpackConfigBuilder.ApplyAssetFile | lib/builders/webpack-config-builder.ts:645-703 | pushes the asset-file plugin (path or "./", `assets.<format>`) exactly when enabled |
| ConfigBuilder.OptimizationFor | lib/builders/webpack-config-builder.ts:590-618 | minimizing is on exactly when enabled, with the default and CSS minimizers; off means no minimizer list |
| ConfigBuilder.WebpackConfigBuilder.ApplyOptimization | lib/builders/webpack-config-builder.ts:590-618 | replaces the optimization record by `OptimizationFor` the flag |
| ConfigBuilder.WebpackConfigBuilder.ApplyAssetCleaning | lib/builders/webpack-config-builder.ts:625-638 | sets `output.clean` only when cleaning is enabled and a keep callback was given |
| ConfigBuilder.EntryMapKeys | lib/builders/webpack-config-builder.ts:201-211 | the entry map has a key exactly when some `addEntry` used that output name |
| ConfigBuilder.EntryMapLastWins | lib/builders/webpack-config-builder.ts:201-211 | an output name added for the last time maps to the input path of that `addEntry` |
| ConfigBuilder.WebpackConfigBuilder.AddEntry | lib/builders/webpack-config-builder.ts:201-211 | records the entry and maps its output name to its input path, keeping the invariant |
| ConfigBuilder.WebpackConfigBuilder.AddPlugin | lib/builders/webpack-config-builder.ts:219-223 | appends the initializer |
| ConfigBuilder.WebpackConfigBuilder.AddEnvironmentVariable | lib/builders/webpack-config-builder.ts:232-236 | sets or overrides one environment variable |
| ConfigBuilder.WebpackConfigBuilder.EnableDefaultPlugins | lib/builders/webpack-config-builder.ts:243-246 | sets the flag only |
| ConfigBuilder.WebpackConfigBuilder.EnableOptimization | lib/builders/webpack-config-builder.ts:253-256 | sets the flag only |
| ConfigBuilder.WebpackConfigBuilder.EnableOutputCleaning | lib/builders/webpack-config-builder.ts:263-266 | sets the flag only |
| ConfigBuilder.WebpackConfigBuilder.SetAssetCleaningWhitelist | lib/builders/webpack-config-builder.ts:275-279 | stores the keep callback |
| ConfigBuilder.WebpackConfigBuilder.EnableDefaultBabelOptions | lib/builders/webpack-config-builder.ts:316-319 | sets the flag only |
| ConfigBuilder.WebpackConfigBuilder.EnableFilenamesHash | lib/builders/webpack-config-builder.ts:327-331 | sets the flag only |
| ConfigBuilder.WebpackConfigBuilder.EnableTypescriptDeclaration | lib/builders/webpack-config-builder.ts:334-337 | sets the flag only |
| ConfigBuilder.WebpackConfigBuilder.DebugRulesName | lib/builders/webpack-config-builder.ts:344-347 | sets the flag only |
| ConfigBuilder.WebpackConfigBuilder.EnableAssetFile | lib/builders/webpack-config-builder.ts:356-360 | sets the flag and the format |
| ConfigBuilder.StripLeadingDot | lib/builders/webpack-config-builder.ts:470 | one leading dot is removed and nothing else changes |
| ConfigBuilder.CheckOutputPath | lib/builders/webpack-config-builder.ts:429-464 | accepted exactly when the string, or the object's `absolute`, is present and absolute; a missing `absolute` is its own error |
| ConfigBuilder.WebpackConfigBuilder.SetOutputPath | lib/builders/webpack-config-builder.ts:429-480 | on a bad path nothing changes; otherwise `output.path` is set, and a non-empty relative path also sets the public path without its leading dot and adds a dev-server static entry |
| ConfigBuilder.WebpackConfigBuilder.SetStats | lib/builders/webpack-config-builder.ts:487-491 | replaces the stats record only |
| ConfigBuilder.WebpackConfigBuilder.AddDevServerStatic | lib/builders/webpack-config-builder.ts:506-513 | appends one static entry |
| ConfigBuilder.InitialEnvironment | lib/builders/webpack-config-builder.ts:60-63 | the environment defines exactly DEBUG and PRODUCTION, from NODE_ENV being "production" |
| ConfigBuilder.WebpackConfigBuilder.constructor | lib/builders/webpack-config-builder.ts:60-185 | the builder starts from the default configuration and rules, the documented flag defaults, the three default plugins and no entries |
| ConfigBuilder.WebpackConfigBuilder.Validate | lib/builders/webpack-config-builder.ts:710-718 | fails exactly when there is no output path and NODE_ENV is not "test" |
| ConfigBuilder.WebpackConfigBuilder.ApplyOutputSteps | lib/builders/webpack-config-builder.ts:734-740 | after filenames, cleaning and asset file, the output fields, the clean plugin and the asset-file plugins are as those steps set them |
| ConfigBuilder.WebpackConfigBuilder.ApplyPluginAndRuleSteps | lib/builders/webpack-config-builder.ts:741-746 | after plugins, optimization and rules, the plugin list, optimization and rules are as those steps set them |
| ConfigBuilder.WebpackConfigBuilder.Build | lib/builders/webpack-config-builder.ts:733-756 | states every field of the configuration after the six steps, and fails exactly when validation does |
| ConfigBuilder.FreshBuildPluginOrder | lib/builders/webpack-config-builder.ts:733-746 | on a fresh builder the plugins are the asset-file plugin, the defaults, the user plugins, then a DefinePlugin that is always present |

## Left out

- JSON serialization: `JSON.stringify` and `JSON.parse` are not modelled. The history file arrives already parsed, or as "not JSON". The asset-file text takes the JSON text as a parameter.
- CleaningPlugin.CleaningAssetsKeepingBuildsPlugin.DropDigitKeys: `processOutput` deletes the single-digit keys from the caller's `assets` object in place. The model returns a copy without them, so the caller's record is not modelled as changed.
- CleaningPlugin.HistoryToWrite: `keepBuilds` is a JavaScript `number`, and `slice(0, keepBuilds + 1)` truncates a fractional value and treats `NaN` as 0. The model takes an integer.
- HistoryToWriteSpec: a history file that is valid JSON but not an array of arrays (spreading a non-iterable throws, a string spreads into characters) is not modelled. `HistoryFile` has only the two shapes.
- Numbers are mathematical integers. Floating point and `NaN` inside asset records are not modelled.
- Key enumeration order (integer-like keys first) is taken as given: `Obj` lists properties in the order the engine enumerates them.
- The file system: `existsSync`, `readFileSync`, `glob.sync`, `lstatSync` and `unlinkSync` are replaced by an in-memory map and a listing that the caller gives. An `unlink` that fails, for example for lack of permission, is not modelled: every listed path that is neither kept nor a directory is deleted. A listing that names a deleted file twice ends the pass at the second occurrence, whose `lstat` finds no entry (`MissingEntry`).
- webpack itself: compiler hooks, `AssetsPlugin`, `MiniCssExtractPlugin` and the other foreign plugins are tokens carrying the options the code gives them. `addKeepFileGeneration`'s other `AssetsPlugin` options are not modelled.
- Regular expressions: only `/assets\.[a-z]+$/` is modelled concretely. A caller's `RegExp` is an opaque test. A stateful `/g` regular expression's `lastIndex` is not modelled.
- CleaningAssetsKeepingBuildsPlugin.constructor: the constructor also writes the merged keep-list back into the caller's settings object. That aliasing is not modelled. A property explicitly set to `undefined` (which the object spread copies over a default) is not modelled either; a setting is present or absent.
- Logging (`Logger`, `console.log`) and the dev-server warning of `validate` on `process.argv` including "serve" are not modelled. The warning has no effect on the configuration.
- Fluent chaining (`return this`) is implicit: each method changes the builder it is called on.
- ConfigBuilder.WebpackConfigBuilder.InitializeAll: the source pushes each initializer's plugins before it calls the next initializer. The model calls them all, then pushes the plugins one by one in the same order. Initializers are pure functions here, so the final plugin list is the same.
- ConfigBuilder.WebpackConfigBuilder.SetOutputPath: a string argument is wrapped into a new object, but an object argument is the caller's own. The code writes the relative path without its leading dot back into that object. This aliasing is not modelled; the caller's argument is a value.
- ConfigBuilder.WebpackConfigBuilder.GetModulesRules: it returns a live reference in the source. Changes a caller makes through that reference are not modelled, and it carries no contract.
- ConfigBuilder.PrepareRule: `applyModulesRules` throws a `TypeError` when default babel options are off and the JavaScript rule has no babel-loader. The rules can reach that state only through the live reference above, so the model removes nothing in that case.
- The contents of `BabelConfig()`, the PostCSS setup and the default configuration's loader options are opaque descriptions.
- `Path.isAbsolute` is the POSIX one: a path is absolute when it starts with "/". Windows drive paths are not modelled.
- ConfigBuilder.NormalizeAssetsSpec: the source assigns into the asset record in place. The model returns the normalized copy, which is what the callback serializes. Index assignment into a non-empty string is modelled as the strict-mode `TypeError` of compiled ES modules.
- `lib/Builders/WebpackConfigBuilder.ts` and `ConfigurationFiles/Webpack/DefaultConfig.ts` are an older copy of the builder. They are not part of this model.

## Findings

| source | as written | input that shows it | evidently intended | confidence | as-written member | corrected member |
|---|---|---|---|---|---|---|
| lib/builders/webpack-config-builder.ts:303 | `setBabelOptions` reads the options of the first babel-loader entry but writes the setter's result into `use[0]` | the default JavaScript rule, whose `use` is `[ts-loader, babel-loader]`: ts-loader receives the babel options and babel-loader keeps its old ones | write the result into the babel-loader entry it found | not executed | ConfigBuilder.SetBabelOptionsAsWrittenHitsTsLoader | ConfigBuilder.SetBabelOptionsIntended |

The builder's own `SetBabelOptions` follows the code as written. `SetBabelOptionsIntended` is the corrected setter, with its own contract.

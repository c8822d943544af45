/**
 * The fluent webpack configuration builder of lib/builders/webpack-config-builder.ts.
 *
 * The builder accumulates settings in its fields through setters, and `build`
 * rewrites its configuration record by a fixed sequence of steps: file names,
 * asset cleaning, the asset-file plugin, the plugin list, optimization and the
 * module rules, followed by a validation of the output path.
 *
 * Plugins built by foreign libraries are tokens; loader options, regular
 * expressions and the stats record are opaque descriptions; the process
 * environment is a parameter and `process.exit` an error outcome.
 */
module ConfigBuilder {
  import opened Wrappers
  import opened Utils
  import CleaningPlugin

  // ---------------------------------------------------------------------------
  // File name templates
  // ---------------------------------------------------------------------------

  /** One piece of a webpack file name template: literal text or a placeholder. */
  datatype Piece = Text(text: string) | NamePh | IdPh | ContentHashPh | HashPh | ExtPh

  type Template = seq<Piece>

  function PieceText(p: Piece): string {
    match p
    case Text(t) => t
    case NamePh => "[name]"
    case IdPh => "[id]"
    case ContentHashPh => "[contenthash]"
    case HashPh => "[hash]"
    case ExtPh => "[ext]"
  }

  /** The template as the string webpack receives. */
  function Render(t: Template): string {
    if t == [] then "" else PieceText(t[0]) + Render(t[1..])
  }

  const ChunkHashed: Template := [IdPh, Text("."), ContentHashPh, Text(".chunk.min.js")]
  const ChunkPlain: Template := [IdPh, Text("."), NamePh, Text(".chunk.js")]
  const MainHashed: Template := [NamePh, Text("."), ContentHashPh, Text(".min.js")]
  const MainPlain: Template := [NamePh, Text(".js")]
  const AssetHashed: Template := [NamePh, Text("."), ContentHashPh, Text(".asset.min"), ExtPh]
  const AssetPlain: Template := [NamePh, Text("."), HashPh, Text(".asset"), ExtPh]
  const CssHashed: Template := [NamePh, Text("."), ContentHashPh, Text(".min.css")]
  const CssPlain: Template := [NamePh, Text(".css")]
  const FontHashed: Template := [Text("fonts/"), NamePh, Text("."), ContentHashPh, ExtPh]
  const FontPlain: Template := [Text("fonts/"), NamePh, ExtPh]
  const IconsHashed: Template := [Text("icons/"), NamePh, Text("."), ContentHashPh, ExtPh]
  const IconsPlain: Template := [Text("icons/"), NamePh, ExtPh]
  const ImagesHashed: Template := [Text("img/"), NamePh, Text("."), ContentHashPh, ExtPh]
  const ImagesPlain: Template := [Text("img/"), NamePh, ExtPh]

  lemma RenderOne(a: Piece)
    ensures Render([a]) == PieceText(a)
  {
    assert [a][1..] == [];
  }

  lemma RenderTwo(a: Piece, b: Piece)
    ensures Render([a, b]) == PieceText(a) + PieceText(b)
  {
    assert [a, b][1..] == [b];
    RenderOne(b);
  }

  lemma RenderThree(a: Piece, b: Piece, c: Piece)
    ensures Render([a, b, c]) == PieceText(a) + (PieceText(b) + PieceText(c))
  {
    assert [a, b, c][1..] == [b, c];
    RenderTwo(b, c);
  }

  lemma RenderFour(a: Piece, b: Piece, c: Piece, d: Piece)
    ensures Render([a, b, c, d]) == PieceText(a) + (PieceText(b) + (PieceText(c) + PieceText(d)))
  {
    assert [a, b, c, d][1..] == [b, c, d];
    RenderThree(b, c, d);
  }

  lemma RenderFive(a: Piece, b: Piece, c: Piece, d: Piece, e: Piece)
    ensures Render([a, b, c, d, e]) == PieceText(a) + (PieceText(b) + (PieceText(c) + (PieceText(d) + PieceText(e))))
  {
    assert [a, b, c, d, e][1..] == [b, c, d, e];
    RenderFour(b, c, d, e);
  }

  lemma ChunkHashedRenders()
    ensures Render(ChunkHashed) == "[id].[contenthash].chunk.min.js"
  {
    RenderFour(IdPh, Text("."), ContentHashPh, Text(".chunk.min.js"));
  }

  lemma ChunkPlainRenders()
    ensures Render(ChunkPlain) == "[id].[name].chunk.js"
  {
    RenderFour(IdPh, Text("."), NamePh, Text(".chunk.js"));
  }

  lemma MainHashedRenders()
    ensures Render(MainHashed) == "[name].[contenthash].min.js"
  {
    RenderFour(NamePh, Text("."), ContentHashPh, Text(".min.js"));
  }

  lemma MainPlainRenders()
    ensures Render(MainPlain) == "[name].js"
  {
    RenderTwo(NamePh, Text(".js"));
  }

  lemma AssetHashedRenders()
    ensures Render(AssetHashed) == "[name].[contenthash].asset.min[ext]"
  {
    RenderFive(NamePh, Text("."), ContentHashPh, Text(".asset.min"), ExtPh);
  }

  lemma AssetPlainRenders()
    ensures Render(AssetPlain) == "[name].[hash].asset[ext]"
  {
    RenderFive(NamePh, Text("."), HashPh, Text(".asset"), ExtPh);
  }

  lemma CssHashedRenders()
    ensures Render(CssHashed) == "[name].[contenthash].min.css"
  {
    RenderFour(NamePh, Text("."), ContentHashPh, Text(".min.css"));
  }

  lemma CssPlainRenders()
    ensures Render(CssPlain) == "[name].css"
  {
    RenderTwo(NamePh, Text(".css"));
  }

  lemma FontHashedRenders()
    ensures Render(FontHashed) == "fonts/[name].[contenthash][ext]"
  {
    RenderFive(Text("fonts/"), NamePh, Text("."), ContentHashPh, ExtPh);
  }

  lemma FontPlainRenders()
    ensures Render(FontPlain) == "fonts/[name][ext]"
  {
    RenderThree(Text("fonts/"), NamePh, ExtPh);
  }

  lemma IconsHashedRenders()
    ensures Render(IconsHashed) == "icons/[name].[contenthash][ext]"
  {
    RenderFive(Text("icons/"), NamePh, Text("."), ContentHashPh, ExtPh);
  }

  lemma IconsPlainRenders()
    ensures Render(IconsPlain) == "icons/[name][ext]"
  {
    RenderThree(Text("icons/"), NamePh, ExtPh);
  }

  lemma ImagesHashedRenders()
    ensures Render(ImagesHashed) == "img/[name].[contenthash][ext]"
  {
    RenderFive(Text("img/"), NamePh, Text("."), ContentHashPh, ExtPh);
  }

  lemma ImagesPlainRenders()
    ensures Render(ImagesPlain) == "img/[name][ext]"
  {
    RenderThree(Text("img/"), NamePh, ExtPh);
  }

  /** The templates render to the file names written in the builder's source. */
  lemma TemplatesRender()
    ensures Render(ChunkHashed) == "[id].[contenthash].chunk.min.js" && Render(ChunkPlain) == "[id].[name].chunk.js"
    ensures Render(MainHashed) == "[name].[contenthash].min.js" && Render(MainPlain) == "[name].js"
    ensures Render(AssetHashed) == "[name].[contenthash].asset.min[ext]" && Render(AssetPlain) == "[name].[hash].asset[ext]"
    ensures Render(CssHashed) == "[name].[contenthash].min.css" && Render(CssPlain) == "[name].css"
    ensures Render(FontHashed) == "fonts/[name].[contenthash][ext]" && Render(FontPlain) == "fonts/[name][ext]"
    ensures Render(IconsHashed) == "icons/[name].[contenthash][ext]" && Render(IconsPlain) == "icons/[name][ext]"
    ensures Render(ImagesHashed) == "img/[name].[contenthash][ext]" && Render(ImagesPlain) == "img/[name][ext]"
  {
    ChunkHashedRenders();
    ChunkPlainRenders();
    MainHashedRenders();
    MainPlainRenders();
    AssetHashedRenders();
    AssetPlainRenders();
    CssHashedRenders();
    CssPlainRenders();
    FontHashedRenders();
    FontPlainRenders();
    IconsHashedRenders();
    IconsPlainRenders();
    ImagesHashedRenders();
    ImagesPlainRenders();
  }

  /** The seven file names `applyFilenames` sets. */
  datatype Filenames = Filenames(chunk: Template, main: Template, asset: Template, css: Template,
                                 font: Template, icons: Template, images: Template)
  {
    function Fields(): seq<Template> {
      [chunk, main, asset, css, font, icons, images]
    }
  }

  function FilenamesFor(hashed: bool): Filenames {
    if hashed then Filenames(ChunkHashed, MainHashed, AssetHashed, CssHashed, FontHashed, IconsHashed, ImagesHashed)
    else Filenames(ChunkPlain, MainPlain, AssetPlain, CssPlain, FontPlain, IconsPlain, ImagesPlain)
  }

  /**
   * With hashing every file name carries `[contenthash]`, without it none does;
   * the asset-module name still carries `[hash]` when hashing is off, and the
   * font, icon and image names keep their sub-directory either way.
   */
  lemma FilenamesHashing(hashed: bool)
    ensures forall t :: t in FilenamesFor(hashed).Fields() ==> (ContentHashPh in t <==> hashed)
    ensures HashPh in FilenamesFor(hashed).asset <==> !hashed
    ensures FilenamesFor(hashed).font[0] == Text("fonts/")
    ensures FilenamesFor(hashed).icons[0] == Text("icons/")
    ensures FilenamesFor(hashed).images[0] == Text("img/")
  {
  }

  // ---------------------------------------------------------------------------
  // Module rules
  // ---------------------------------------------------------------------------

  /** Loader options are opaque to the builder. */
  datatype LoaderOptions = LoaderOptions(description: string)

  /** An element of a rule's `use` list: a bare loader name or a `{loader, options}` record. */
  datatype UseEntry = Plain(name: string) | Configured(loader: string, options: Option<LoaderOptions>)

  datatype Rule = Rule(name: Option<string>, test: string, use: Option<seq<UseEntry>>,
                       assetType: Option<string>, generatorFilename: Option<Template>, exclude: Option<string>)

  /** The five rules, in the key order of the builder's record. */
  datatype ModuleRules = ModuleRules(javaScript: Rule, css: Rule, font: Rule, images: Rule, icons: Rule)
  {
    function Values(): seq<Rule> {
      [javaScript, css, font, images, icons]
    }
  }

  const JavaScriptRuleName: string := "JavaScript"
  const TsLoader: UseEntry := Configured("ts-loader", Some(LoaderOptions("transpileOnly, compilerOptions.declaration")))
  const BabelLoader: UseEntry := Configured("babel-loader", Some(LoaderOptions("BabelConfig()")))

  const DefaultJavaScriptRule: Rule :=
    Rule(Some(JavaScriptRuleName), @"\.(ts)|(js)$", Some([TsLoader, BabelLoader]), None, None, Some("node_modules"))
  const DefaultCssRule: Rule :=
    Rule(Some("CSS"), @"\.(css|sass|scss)$/i",
         Some([Plain("style-loader"),
               Configured("MiniCssExtractPlugin.loader", Some(LoaderOptions("esModule: false"))),
               Configured("css-loader", Some(LoaderOptions("esModule: false"))),
               Configured("postcss-loader", Some(LoaderOptions("postcss-scss, import, tailwind nesting, tailwind, autoprefixer"))),
               Plain("sass-loader")]),
         None, None, None)
  const DefaultFontRule: Rule :=
    Rule(Some("Font"), @"\.(woff(2)?|ttf|eot)(\?v=\d+\.\d+\.\d+)?$", None, Some("asset/resource"), Some(FontHashed), None)
  const DefaultIconsRule: Rule :=
    Rule(Some("Icons"), @"\.(svg)?$", None, Some("asset/resource"), Some(IconsHashed), None)
  const DefaultImagesRule: Rule :=
    Rule(Some("Images"), @"\.(jpg|png)?$", None, Some("asset/resource"), Some(ImagesHashed), None)

  const DefaultModuleRules: ModuleRules :=
    ModuleRules(DefaultJavaScriptRule, DefaultCssRule, DefaultFontRule, DefaultImagesRule, DefaultIconsRule)

  predicate IsLoader(u: UseEntry, loader: string) {
    u.Configured? && u.loader == loader
  }

  /** `use.filter(l => l.loader === loader)[0]` as an index; -1 when there is none. */
  function FirstLoaderIndex(use: seq<UseEntry>, loader: string): (k: int)
    ensures -1 <= k < |use|
    ensures k >= 0 ==> IsLoader(use[k], loader) && forall j :: 0 <= j < k ==> !IsLoader(use[j], loader)
    ensures k == -1 ==> forall j :: 0 <= j < |use| ==> !IsLoader(use[j], loader)
  {
    if use == [] then -1
    else if IsLoader(use[0], loader) then 0
    else
      var k := FirstLoaderIndex(use[1..], loader);
      if k == -1 then -1 else k + 1
  }

  /** `delete use.filter(babel-loader)[0].options`. */
  function WithoutBabelOptions(use: seq<UseEntry>): seq<UseEntry>
  {
    var k := FirstLoaderIndex(use, "babel-loader");
    if k == -1 then use else use[k := Configured("babel-loader", None)]
  }

  /** `use.filter(l => l.loader !== "ts-loader")`: bare names have no `loader` and stay. */
  function WithoutTsLoader(use: seq<UseEntry>): (r: seq<UseEntry>)
    ensures forall u :: u in r <==> u in use && !IsLoader(u, "ts-loader")
    ensures |r| <= |use|
  {
    if use == [] then []
    else (if IsLoader(use[0], "ts-loader") then [] else [use[0]]) + WithoutTsLoader(use[1..])
  }

  /**
   * The filter keeps the remaining loaders in their order: it distributes over
   * concatenation, and a single entry survives exactly when it is not ts-loader.
   */
  lemma {:induction false} WithoutTsLoaderKeepsOrder(a: seq<UseEntry>, b: seq<UseEntry>)
    ensures WithoutTsLoader(a + b) == WithoutTsLoader(a) + WithoutTsLoader(b)
    ensures |a| == 1 ==> WithoutTsLoader(a) == if IsLoader(a[0], "ts-loader") then [] else a
  {
    if |a| == 1 {
      assert a[1..] == [];
    }
    if a == [] {
      assert a + b == b;
    } else {
      assert (a + b)[0] == a[0];
      assert (a + b)[1..] == a[1..] + b;
      WithoutTsLoaderKeepsOrder(a[1..], b);
    }
  }

  /** What `applyModulesRules` does to one rule of the clone. */
  function PrepareRule(rule: Rule, babelDefaults: bool, declarations: bool, debugNames: bool): Rule
  {
    var babelDone :=
      if rule.name == Some(JavaScriptRuleName) && !babelDefaults && rule.use.Some?
      then rule.(use := Some(WithoutBabelOptions(rule.use.value))) else rule;
    var tsDone :=
      if rule.name == Some(JavaScriptRuleName) && !declarations && babelDone.use.Some?
      then babelDone.(use := Some(WithoutTsLoader(babelDone.use.value))) else babelDone;
    if debugNames then tsDone else tsDone.(name := None)
  }

  /** The rule list `applyModulesRules` writes into the configuration. */
  function PreparedRules(rules: ModuleRules, babelDefaults: bool, declarations: bool, debugNames: bool): seq<Rule>
  {
    var vs := rules.Values();
    [PrepareRule(vs[0], babelDefaults, declarations, debugNames),
     PrepareRule(vs[1], babelDefaults, declarations, debugNames),
     PrepareRule(vs[2], babelDefaults, declarations, debugNames),
     PrepareRule(vs[3], babelDefaults, declarations, debugNames),
     PrepareRule(vs[4], babelDefaults, declarations, debugNames)]
  }

  /** `prepared` is `original` with at most its name and, for the JavaScript rule, its loaders changed. */
  predicate KeepsRuleShape(prepared: Rule, original: Rule, debugNames: bool) {
    && prepared.name == (if debugNames then original.name else None)
    && prepared.test == original.test && prepared.assetType == original.assetType
    && prepared.generatorFilename == original.generatorFilename && prepared.exclude == original.exclude
    && (original.name != Some(JavaScriptRuleName) ==> prepared.use == original.use)
  }

  lemma PrepareRuleShape(rule: Rule, babelDefaults: bool, declarations: bool, debugNames: bool)
    ensures KeepsRuleShape(PrepareRule(rule, babelDefaults, declarations, debugNames), rule, debugNames)
  {
  }

  /**
   * The emitted rules follow the record's order; `name` survives only in debug
   * mode; only the rule named "JavaScript" has its loaders touched; test,
   * type, generator and exclusion are copied unchanged.
   */
  lemma PreparedRulesSpec(rules: ModuleRules, babelDefaults: bool, declarations: bool, debugNames: bool)
    ensures |PreparedRules(rules, babelDefaults, declarations, debugNames)| == 5
    ensures forall i :: 0 <= i < 5 ==>
      KeepsRuleShape(PreparedRules(rules, babelDefaults, declarations, debugNames)[i], rules.Values()[i], debugNames)
  {
    var vs := rules.Values();
    forall i | 0 <= i < 5
      ensures KeepsRuleShape(PreparedRules(rules, babelDefaults, declarations, debugNames)[i], vs[i], debugNames)
    {
      PrepareRuleShape(vs[i], babelDefaults, declarations, debugNames);
    }
  }

  /**
   * On the default JavaScript rule: ts-loader stays exactly when declarations
   * are on, and the babel loader keeps its options exactly when the default
   * babel options are on.
   */
  lemma DefaultJavaScriptRulePrepared(babelDefaults: bool, declarations: bool, debugNames: bool)
    ensures PrepareRule(DefaultJavaScriptRule, babelDefaults, declarations, debugNames).use ==
      Some((if declarations then [TsLoader] else [])
           + [if babelDefaults then BabelLoader else Configured("babel-loader", None)])
  {
    var use := [TsLoader, BabelLoader];
    var bare := Configured("babel-loader", None);
    assert FirstLoaderIndex(use, "babel-loader") == 1 by {
      assert use[1..] == [BabelLoader];
    }
    var stripped := use[1 := bare];
    assert stripped == [TsLoader, bare];
    assert WithoutTsLoader([BabelLoader]) == [BabelLoader] by {
      assert [BabelLoader][1..] == [];
    }
    assert WithoutTsLoader([bare]) == [bare] by {
      assert [bare][1..] == [];
    }
    assert WithoutTsLoader(use) == [BabelLoader] by {
      assert use[1..] == [BabelLoader];
    }
    assert WithoutTsLoader(stripped) == [bare] by {
      assert stripped[1..] == [bare];
    }
    var babelDone := if babelDefaults then use else stripped;
    assert PrepareRule(DefaultJavaScriptRule, babelDefaults, declarations, debugNames).use ==
      Some(if declarations then babelDone else WithoutTsLoader(babelDone));
    assert [TsLoader] + [BabelLoader] == use && [TsLoader] + [bare] == stripped;
    assert [] + [BabelLoader] == [BabelLoader] && [] + [bare] == [bare];
  }

  // ---------------------------------------------------------------------------
  // setBabelOptions
  // ---------------------------------------------------------------------------

  datatype BuilderError =
    | MissingAbsolutePath
    | NotAbsolutePath(path: string)
    | FilterOnUndefined
    | BabelLoaderNotFound
    | OptionsOnString(name: string)
    | OutputPathNotDefined
    | ReadOnlyStringIndex(assetKey: string)

  /**
   * `setBabelOptions` as written: it finds the first babel-loader entry, passes
   * its options to the setter, and writes the result into `use[0]`. With no
   * `use` list, `.filter` on `undefined` throws a `TypeError` before anything is
   * logged; with no babel-loader the error is logged and the process exits; a
   * bare loader name at `use[0]` cannot take an `options` property.
   */
  function SetBabelOptionsAsWritten(rule: Rule, setter: Option<LoaderOptions> -> LoaderOptions): (r: Result<Rule, BuilderError>)
    ensures rule.use.None? ==> r == Failure(FilterOnUndefined)
    ensures rule.use.Some? ==>
      var use, k := rule.use.value, FirstLoaderIndex(rule.use.value, "babel-loader");
      && (k == -1 ==> r == Failure(BabelLoaderNotFound))
      && (k >= 0 && use[0].Plain? ==> r == Failure(OptionsOnString(use[0].name)))
      && (k >= 0 && use[0].Configured? ==>
            && r.Success? && r.value.use.Some? && |r.value.use.value| == |use|
            && r.value.use.value[0] == Configured(use[0].loader, Some(setter(use[k].options)))
            && (forall j :: 0 < j < |use| ==> r.value.use.value[j] == use[j])
            && r.value.(use := None) == rule.(use := None))
  {
    if rule.use.None? then Failure(FilterOnUndefined)
    else
      var use := rule.use.value;
      var k := FirstLoaderIndex(use, "babel-loader");
      if k == -1 then Failure(BabelLoaderNotFound)
      else if use[0].Plain? then Failure(OptionsOnString(use[0].name))
      else Success(rule.(use := Some(use[0 := Configured(use[0].loader, Some(setter(use[k].options)))])))
  }

  /**
   * On the default JavaScript rule the code as written gives the babel options
   * to ts-loader and leaves the babel loader's own options as they were.
   */
  lemma SetBabelOptionsAsWrittenHitsTsLoader(setter: Option<LoaderOptions> -> LoaderOptions)
    ensures SetBabelOptionsAsWritten(DefaultJavaScriptRule, setter) ==
      Success(DefaultJavaScriptRule.(use := Some([Configured("ts-loader", Some(setter(BabelLoader.options))), BabelLoader])))
  {
    var use := [TsLoader, BabelLoader];
    assert FirstLoaderIndex(use, "babel-loader") == 1 by {
      assert use[1..] == [BabelLoader];
    }
    assert use[1].options == BabelLoader.options;
    assert use[0 := Configured("ts-loader", Some(setter(BabelLoader.options)))] ==
      [Configured("ts-loader", Some(setter(BabelLoader.options))), BabelLoader];
  }

  /** `setBabelOptions` as intended: the setter's result replaces the options of the babel loader it was given. */
  function SetBabelOptionsIntended(rule: Rule, setter: Option<LoaderOptions> -> LoaderOptions): (r: Result<Rule, BuilderError>)
    ensures r.Failure? <==> rule.use.None? || FirstLoaderIndex(rule.use.value, "babel-loader") == -1
    ensures rule.use.None? ==> r == Failure(FilterOnUndefined)
    ensures r.Success? ==>
      var use, k := rule.use.value, FirstLoaderIndex(rule.use.value, "babel-loader");
      && r.value.use.Some? && |r.value.use.value| == |use|
      && r.value.use.value[k] == Configured("babel-loader", Some(setter(use[k].options)))
      && (forall j :: 0 <= j < |use| && j != k ==> r.value.use.value[j] == use[j])
      && r.value.(use := None) == rule.(use := None)
  {
    if rule.use.None? then Failure(FilterOnUndefined)
    else
      var use := rule.use.value;
      var k := FirstLoaderIndex(use, "babel-loader");
      if k == -1 then Failure(BabelLoaderNotFound)
      else Success(rule.(use := Some(use[k := Configured("babel-loader", Some(setter(use[k].options)))])))
  }

  // ---------------------------------------------------------------------------
  // Plugins
  // ---------------------------------------------------------------------------

  datatype EntryPoint = EntryPoint(inputPath: string, outputName: string)

  /** Plugin instances built by foreign constructors, as tokens carrying the options the builder gives them. */
  datatype Plugin =
    | AssetsFile(path: string, filename: string, format: string)
    | DuplicatePackageChecker
    | MiniCssExtract(cssFilename: Template)
    | BundleDeclarations(entry: string, outFile: string)
    | Define(definitions: map<string, Value>)
    | External(description: string)

  /** What an initializer's `init` returns: one plugin or an array of them. */
  datatype InitResult = Single(plugin: Plugin) | Many(plugins: seq<Plugin>)

  /** A user initializer: its options and its `init` function. */
  datatype Initializer = Initializer(options: Option<Value>, init: Option<Value> -> InitResult)

  datatype DefaultPlugin = DuplicatePackageCheckerDefault | MiniCssExtractDefault | BundleDeclarationsDefault

  /** An element of the list `applyPlugins` initializes. */
  datatype PluginInitializer = Builtin(plugin: DefaultPlugin) | Custom(initializer: Initializer)

  /** The declarations initializer: one plugin per entry, in entry order. */
  function DeclarationPlugins(entries: seq<EntryPoint>): (ps: seq<Plugin>)
    ensures |ps| == |entries|
    ensures forall i :: 0 <= i < |ps| ==> ps[i] == BundleDeclarations(entries[i].inputPath, entries[i].outputName + ".d.ts")
  {
    if entries == [] then []
    else
      [BundleDeclarations(entries[0].inputPath, entries[0].outputName + ".d.ts")] + DeclarationPlugins(entries[1..])
  }

  function Initialize(p: PluginInitializer, miniCssFilename: Template, entries: seq<EntryPoint>): InitResult
  {
    match p
    case Builtin(DuplicatePackageCheckerDefault) => Single(DuplicatePackageChecker)
    case Builtin(MiniCssExtractDefault) => Single(MiniCssExtract(miniCssFilename))
    case Builtin(BundleDeclarationsDefault) => Many(DeclarationPlugins(entries))
    case Custom(i) => i.init(i.options)
  }

  /** An array result is spread in element order; a single plugin is pushed as is. */
  function Spread(r: InitResult): seq<Plugin> {
    match r
    case Single(p) => [p]
    case Many(ps) => ps
  }

  /** The plugins pushed for a list of initializers, one after the other. */
  function Expand(initializers: seq<PluginInitializer>, miniCssFilename: Template, entries: seq<EntryPoint>): seq<Plugin>
  {
    if initializers == [] then []
    else
      var n := |initializers|;
      Expand(initializers[..n - 1], miniCssFilename, entries) + Spread(Initialize(initializers[n - 1], miniCssFilename, entries))
  }

  lemma {:induction false} ExpandAppend(xs: seq<PluginInitializer>, ys: seq<PluginInitializer>, miniCssFilename: Template, entries: seq<EntryPoint>)
    ensures Expand(xs + ys, miniCssFilename, entries) == Expand(xs, miniCssFilename, entries) + Expand(ys, miniCssFilename, entries)
  {
    if ys != [] {
      var n := |ys|;
      assert (xs + ys)[..|xs + ys| - 1] == xs + ys[..n - 1];
      ExpandAppend(xs, ys[..n - 1], miniCssFilename, entries);
    } else {
      assert xs + ys == xs;
    }
  }

  lemma ExpandStep(initializers: seq<PluginInitializer>, i: nat, miniCssFilename: Template, entries: seq<EntryPoint>)
    requires i < |initializers|
    ensures Expand(initializers[..i + 1], miniCssFilename, entries) ==
      Expand(initializers[..i], miniCssFilename, entries) + Spread(Initialize(initializers[i], miniCssFilename, entries))
  {
    assert initializers[..i + 1][..i] == initializers[..i];
  }

  /** The default plugins still registered, in declaration order. */
  function DefaultPluginsOf(declarationsRegistered: bool): seq<DefaultPlugin> {
    [DuplicatePackageCheckerDefault, MiniCssExtractDefault] + (if declarationsRegistered then [BundleDeclarationsDefault] else [])
  }

  function Builtins(ds: seq<DefaultPlugin>): (r: seq<PluginInitializer>)
    ensures |r| == |ds| && forall i :: 0 <= i < |ds| ==> r[i] == Builtin(ds[i])
  {
    if ds == [] then [] else [Builtin(ds[0])] + Builtins(ds[1..])
  }

  function Customs(users: seq<Initializer>): (r: seq<PluginInitializer>)
    ensures |r| == |users| && forall i :: 0 <= i < |users| ==> r[i] == Custom(users[i])
  {
    if users == [] then [] else [Custom(users[0])] + Customs(users[1..])
  }

  /** The defaults when enabled, then the user initializers in `addPlugin` order. */
  function PluginsToInitialize(defaultsEnabled: bool, declarationsRegistered: bool, users: seq<Initializer>): seq<PluginInitializer>
  {
    (if defaultsEnabled then Builtins(DefaultPluginsOf(declarationsRegistered)) else []) + Customs(users)
  }

  /** The plugins the user initializers yield, each array spliced in place. */
  function UserPlugins(users: seq<Initializer>): seq<Plugin>
  {
    if users == [] then [] else Spread(users[0].init(users[0].options)) + UserPlugins(users[1..])
  }

  lemma ExpandSingle(p: PluginInitializer, miniCssFilename: Template, entries: seq<EntryPoint>)
    ensures Expand([p], miniCssFilename, entries) == Spread(Initialize(p, miniCssFilename, entries))
  {
    assert [p][..0] == [];
  }

  lemma {:induction false} ExpandCustoms(users: seq<Initializer>, miniCssFilename: Template, entries: seq<EntryPoint>)
    ensures Expand(Customs(users), miniCssFilename, entries) == UserPlugins(users)
  {
    if users != [] {
      var head, tail := [Custom(users[0])], Customs(users[1..]);
      assert Customs(users) == head + tail;
      ExpandAppend(head, tail, miniCssFilename, entries);
      ExpandCustoms(users[1..], miniCssFilename, entries);
      ExpandSingle(Custom(users[0]), miniCssFilename, entries);
      assert Expand(head, miniCssFilename, entries) == Spread(users[0].init(users[0].options));
    }
  }

  lemma ExpandDefaults(declarationsRegistered: bool, miniCssFilename: Template, entries: seq<EntryPoint>)
    ensures Expand(Builtins(DefaultPluginsOf(declarationsRegistered)), miniCssFilename, entries) ==
      [DuplicatePackageChecker, MiniCssExtract(miniCssFilename)] + (if declarationsRegistered then DeclarationPlugins(entries) else [])
  {
    var a, b, c := Builtin(DuplicatePackageCheckerDefault), Builtin(MiniCssExtractDefault), Builtin(BundleDeclarationsDefault);
    var two := [a, b];
    assert Expand([a], miniCssFilename, entries) == [DuplicatePackageChecker] by {
      assert [a][..0] == [];
    }
    assert Expand(two, miniCssFilename, entries) == [DuplicatePackageChecker, MiniCssExtract(miniCssFilename)] by {
      assert two[..1] == [a];
    }
    if declarationsRegistered {
      assert Builtins(DefaultPluginsOf(true)) == [a, b, c];
      assert [a, b, c][..2] == two;
    } else {
      assert Builtins(DefaultPluginsOf(false)) == two;
      assert DefaultPluginsOf(false) == [DuplicatePackageCheckerDefault, MiniCssExtractDefault] + [];
    }
  }

  /**
   * The plugins `applyPlugins` pushes: the duplicate checker and the CSS
   * extractor with the current CSS file name, one declarations plugin per entry
   * if that initializer is still registered, then the user plugins spliced in
   * `addPlugin` order.
   */
  lemma PluginOrder(defaultsEnabled: bool, declarationsRegistered: bool, users: seq<Initializer>,
                    miniCssFilename: Template, entries: seq<EntryPoint>)
    ensures Expand(PluginsToInitialize(defaultsEnabled, declarationsRegistered, users), miniCssFilename, entries) ==
      (if defaultsEnabled
       then [DuplicatePackageChecker, MiniCssExtract(miniCssFilename)]
            + (if declarationsRegistered then DeclarationPlugins(entries) else [])
       else [])
      + UserPlugins(users)
  {
    var defaults := if defaultsEnabled then Builtins(DefaultPluginsOf(declarationsRegistered)) else [];
    ExpandAppend(defaults, Customs(users), miniCssFilename, entries);
    ExpandCustoms(users, miniCssFilename, entries);
    if defaultsEnabled {
      ExpandDefaults(declarationsRegistered, miniCssFilename, entries);
    }
  }

  /** The DefinePlugin pushed last when the environment has any value. */
  function DefineFor(environment: map<string, Value>): seq<Plugin> {
    if |environment| > 0 then [Define(environment)] else []
  }

  /** The asset-file plugin `applyAssetFile` pushes when the asset file is enabled. */
  function AssetFilePlugins(enabled: bool, format: string, outputPath: Option<string>): seq<Plugin> {
    if !enabled then []
    else [AssetsFile(if outputPath.Some? && outputPath.value != "" then outputPath.value else "./", "assets." + format, format)]
  }

  /** The asset file of any lower-case format is kept by the keep-builds plugin's default pattern. */
  lemma AssetFileIsKeptByCleaning(format: string)
    requires |format| > 0 && CleaningPlugin.AllLower(format)
    ensures CleaningPlugin.MatchesAssetsManifest("assets." + format)
  {
    CleaningPlugin.ManifestNameMatches("", format);
    assert "" + "assets." + format == "assets." + format;
  }

  // ---------------------------------------------------------------------------
  // The asset file's processOutput
  // ---------------------------------------------------------------------------

  function WrapIfNotArray(v: Value): Value {
    if v.Arr? then v else Arr([v])
  }

  function WrapProps(props: seq<Prop>): (r: seq<Prop>)
    ensures |r| == |props|
    ensures forall i :: 0 <= i < |r| ==> r[i] == Prop(props[i].key, WrapIfNotArray(props[i].value))
  {
    if props == [] then [] else [Prop(props[0].key, WrapIfNotArray(props[0].value))] + WrapProps(props[1..])
  }

  function WrapItems(items: seq<Value>): (r: seq<Value>)
    ensures |r| == |items|
    ensures forall i :: 0 <= i < |r| ==> r[i] == WrapIfNotArray(items[i])
  {
    if items == [] then [] else [WrapIfNotArray(items[0])] + WrapItems(items[1..])
  }

  /**
   * The inner `for...in` over one entry: an object or array has every
   * non-array member wrapped; a non-empty string has index keys that cannot be
   * assigned in strict mode; other values have no keys.
   */
  function NormalizeEntry(key: string, v: Value): Result<Value, BuilderError>
  {
    match v
    case Obj(props) => Success(Obj(WrapProps(props)))
    case Arr(items) => Success(Arr(WrapItems(items)))
    case Str(s) => if s == "" then Success(v) else Failure(ReadOnlyStringIndex(key))
    case _ => Success(v)
  }

  /** The asset record after the normalizing loops, or the error that stops them. */
  function NormalizeAssets(assets: seq<Prop>): Result<seq<Prop>, BuilderError>
  {
    if assets == [] then Success([])
    else
      match NormalizeEntry(assets[0].key, assets[0].value)
      case Failure(e) => Failure(e)
      case Success(v) =>
        match NormalizeAssets(assets[1..])
        case Failure(e) => Failure(e)
        case Success(rest) => Success([Prop(assets[0].key, v)] + rest)
  }

  /** Every member of an object or array entry is an array afterwards. */
  predicate IsNormalized(assets: seq<Prop>) {
    forall i :: 0 <= i < |assets| ==>
      && (assets[i].value.Obj? ==> forall j :: 0 <= j < |assets[i].value.props| ==> assets[i].value.props[j].value.Arr?)
      && (assets[i].value.Arr? ==> forall j :: 0 <= j < |assets[i].value.items| ==> assets[i].value.items[j].Arr?)
  }

  /**
   * Normalizing keeps the keys in order and wraps each non-array member of an
   * object or array entry into a one-element array, leaving array members and
   * other entries alone; it fails only on a non-empty string entry.
   */
  lemma {:induction false} NormalizeAssetsSpec(assets: seq<Prop>)
    ensures NormalizeAssets(assets).Failure? <==> exists i :: 0 <= i < |assets| && assets[i].value.Str? && assets[i].value.s != ""
    ensures NormalizeAssets(assets).Success? ==>
      var r := NormalizeAssets(assets).value;
      && |r| == |assets|
      && IsNormalized(r)
      && forall i :: 0 <= i < |r| ==>
           && r[i].key == assets[i].key
           && (assets[i].value.Obj? ==> r[i].value == Obj(WrapProps(assets[i].value.props)))
           && (assets[i].value.Arr? ==> r[i].value == Arr(WrapItems(assets[i].value.items)))
           && (!assets[i].value.Obj? && !assets[i].value.Arr? ==> r[i].value == assets[i].value)
  {
    NormalizeAssetsPointwise(assets);
    forall i | 0 <= i < |assets|
      ensures NormalizeEntry(assets[i].key, assets[i].value).Failure? <==> assets[i].value.Str? && assets[i].value.s != ""
    {
    }
    if NormalizeAssets(assets).Success? {
      var r := NormalizeAssets(assets).value;
      forall i | 0 <= i < |r|
        ensures r[i].value.Obj? ==> forall j :: 0 <= j < |r[i].value.props| ==> r[i].value.props[j].value.Arr?
        ensures r[i].value.Arr? ==> forall j :: 0 <= j < |r[i].value.items| ==> r[i].value.items[j].Arr?
      {
        assert NormalizeEntry(assets[i].key, assets[i].value) == Success(r[i].value);
      }
    }
  }

  /** The record is normalized entry by entry, and the first failing entry stops it. */
  lemma {:induction false} NormalizeAssetsPointwise(assets: seq<Prop>)
    ensures NormalizeAssets(assets).Failure? <==> exists i :: 0 <= i < |assets| && NormalizeEntry(assets[i].key, assets[i].value).Failure?
    ensures NormalizeAssets(assets).Success? ==>
      var r := NormalizeAssets(assets).value;
      && |r| == |assets|
      && forall i :: 0 <= i < |r| ==> r[i].key == assets[i].key && NormalizeEntry(assets[i].key, assets[i].value) == Success(r[i].value)
  {
    if assets != [] {
      NormalizeAssetsPointwise(assets[1..]);
      if exists i :: 0 <= i < |assets[1..]| && NormalizeEntry(assets[1..][i].key, assets[1..][i].value).Failure? {
        var i :| 0 <= i < |assets[1..]| && NormalizeEntry(assets[1..][i].key, assets[1..][i].value).Failure?;
        assert assets[i + 1] == assets[1..][i];
      }
      if exists i :: 0 <= i < |assets| && NormalizeEntry(assets[i].key, assets[i].value).Failure? {
        var i :| 0 <= i < |assets| && NormalizeEntry(assets[i].key, assets[i].value).Failure?;
        if i > 0 { assert assets[1..][i - 1] == assets[i]; }
      }
      if NormalizeAssets(assets).Success? {
        var r := NormalizeAssets(assets).value;
        var rest := NormalizeAssets(assets[1..]).value;
        assert r == [r[0]] + rest;
        forall i | 0 <= i < |r|
          ensures r[i].key == assets[i].key && NormalizeEntry(assets[i].key, assets[i].value) == Success(r[i].value)
        {
          if i > 0 { assert r[i] == rest[i - 1]; assert assets[1..][i - 1] == assets[i]; }
        }
      }
    }
  }

  /** Normalizing a normalized record changes nothing. */
  lemma {:induction false} NormalizeIsIdempotent(assets: seq<Prop>)
    requires NormalizeAssets(assets).Success?
    ensures NormalizeAssets(NormalizeAssets(assets).value) == NormalizeAssets(assets)
  {
    if assets != [] {
      NormalizeIsIdempotent(assets[1..]);
      var v := NormalizeEntry(assets[0].key, assets[0].value).value;
      var rest := NormalizeAssets(assets[1..]).value;
      var r := [Prop(assets[0].key, v)] + rest;
      assert r[0] == Prop(assets[0].key, v) && r[1..] == rest;
      match v
      case Obj(props) =>
        assert assets[0].value.Obj? && props == WrapProps(assets[0].value.props);
        assert WrapProps(props) == props by {
          forall i | 0 <= i < |props| ensures WrapProps(props)[i] == props[i] {
            assert props[i].value.Arr?;
          }
        }
      case Arr(items) =>
        assert assets[0].value.Arr? && items == WrapItems(assets[0].value.items);
        assert WrapItems(items) == items by {
          forall i | 0 <= i < |items| ensures WrapItems(items)[i] == items[i] {
            assert items[i].Arr?;
          }
        }
      case _ =>
    }
  }

  const PhpPrefix: string := "<?php $assetsContent = json_decode('"
  const PhpSuffix: string := "', true);"

  /** The asset file's text: the JSON itself, or a PHP statement decoding it. */
  function AssetFileText(format: string, json: string): (text: string)
    ensures format == "json" ==> text == json
    ensures format != "json" ==>
      && |text| == |PhpPrefix| + |json| + |PhpSuffix|
      && text[..|PhpPrefix|] == PhpPrefix
      && text[|PhpPrefix|..|PhpPrefix| + |json|] == json
      && text[|PhpPrefix| + |json|..] == PhpSuffix
  {
    if format == "json" then json else PhpPrefix + json + PhpSuffix
  }

  // ---------------------------------------------------------------------------
  // Configuration
  // ---------------------------------------------------------------------------

  datatype StaticEntry = StaticEntry(publicPath: string, directory: string)

  datatype Clean = Clean(keep: string -> bool)

  datatype Minimizer = WebpackDefaults | CssMinimizer(discardComments: bool)

  datatype Optimization = Optimization(minimize: bool, minimizer: Option<seq<Minimizer>>)

  /** The stats record is passed through untouched. */
  datatype Stats = Stats(description: string)

  datatype Output = Output(path: Option<string>, publicPath: Option<string>, chunkFilename: Template,
                           filename: Template, assetModuleFilename: Template, clean: Option<Clean>)

  datatype Configuration = Configuration(stats: Stats, rules: seq<Rule>, plugins: seq<Plugin>, entry: map<string, string>,
                                         devServerStatic: seq<StaticEntry>, output: Output, optimization: Option<Optimization>)

  const DefaultStats: Stats := Stats("assets, moduleAssets, version, errorStack, performance, errorDetails, builtAt, cached, colors, timings, outputPath")

  const DefaultConfiguration: Configuration :=
    Configuration(DefaultStats, [], [], map[], [], Output(None, None, ChunkHashed, MainHashed, AssetHashed, None), None)

  function OptimizationFor(enabled: bool): (o: Optimization)
    ensures o.minimize == enabled
    ensures enabled ==> o.minimizer == Some([WebpackDefaults, CssMinimizer(true)])
    ensures !enabled ==> o.minimizer.None?
  {
    if enabled then Optimization(true, Some([WebpackDefaults, CssMinimizer(true)])) else Optimization(false, None)
  }

  /** `output.clean` is set only when cleaning is enabled and a keep callback was given. */
  function CleanFor(current: Option<Clean>, enabled: bool, keepAssets: Option<string -> bool>): Option<Clean> {
    if enabled && keepAssets.Some? then Some(Clean(keepAssets.value)) else current
  }

  /** The entry map that a sequence of `addEntry` calls builds from `{}`. */
  function EntryMap(entries: seq<EntryPoint>): map<string, string>
  {
    if entries == [] then map[]
    else
      var last := entries[|entries| - 1];
      EntryMap(entries[..|entries| - 1])[last.outputName := last.inputPath]
  }

  /** The entry map names exactly the added output names. */
  lemma {:induction false} EntryMapKeys(entries: seq<EntryPoint>)
    ensures forall name :: name in EntryMap(entries) <==> exists i :: 0 <= i < |entries| && entries[i].outputName == name
  {
    if entries != [] {
      var n := |entries|;
      var prefix := entries[..n - 1];
      var last := entries[n - 1];
      EntryMapKeys(prefix);
      assert EntryMap(entries) == EntryMap(prefix)[last.outputName := last.inputPath];
      forall name ensures name in EntryMap(entries) <==> exists i :: 0 <= i < n && entries[i].outputName == name {
        if name in EntryMap(entries) && name != last.outputName {
          assert name in EntryMap(prefix);
          var i :| 0 <= i < |prefix| && prefix[i].outputName == name;
          assert entries[i].outputName == name;
        } else if name in EntryMap(entries) {
          assert entries[n - 1].outputName == name;
        }
        if exists i :: 0 <= i < n && entries[i].outputName == name {
          var i :| 0 <= i < n && entries[i].outputName == name;
          if i < n - 1 {
            assert prefix[i].outputName == name;
          }
        }
      }
    }
  }

  /** Each added output name maps to the input path of its last `addEntry`. */
  lemma {:induction false} EntryMapLastWins(entries: seq<EntryPoint>)
    ensures forall i :: 0 <= i < |entries| && (forall j :: i < j < |entries| ==> entries[j].outputName != entries[i].outputName) ==>
      entries[i].outputName in EntryMap(entries) && EntryMap(entries)[entries[i].outputName] == entries[i].inputPath
  {
    if entries != [] {
      var n := |entries|;
      var prefix := entries[..n - 1];
      var last := entries[n - 1];
      EntryMapLastWins(prefix);
      assert EntryMap(entries) == EntryMap(prefix)[last.outputName := last.inputPath];
      forall i | 0 <= i < n && (forall j :: i < j < n ==> entries[j].outputName != entries[i].outputName)
        ensures entries[i].outputName in EntryMap(entries) && EntryMap(entries)[entries[i].outputName] == entries[i].inputPath
      {
        if i < n - 1 {
          assert prefix[i] == entries[i];
          assert entries[i].outputName != last.outputName;
          forall j | i < j < |prefix| ensures prefix[j].outputName != prefix[i].outputName {
            assert prefix[j] == entries[j];
          }
        }
      }
    }
  }

  // ---------------------------------------------------------------------------
  // setOutputPath
  // ---------------------------------------------------------------------------

  /** A bare string, or `{relative?, absolute}` whose `absolute` may be missing at run time. */
  datatype OutputPathArgument = PathString(path: string) | PathObject(relative: Option<string>, absolute: Option<string>)

  /** `Path.isAbsolute` on POSIX. */
  predicate IsAbsolute(p: string) {
    |p| > 0 && p[0] == '/'
  }

  /** `replace(/^\./, '')`: one leading dot removed. */
  function StripLeadingDot(s: string): (r: string)
    ensures |s| > 0 && s[0] == '.' ==> s == "." + r
    ensures !(|s| > 0 && s[0] == '.') ==> r == s
  {
    if |s| > 0 && s[0] == '.' then s[1..] else s
  }

  /** The absolute path `setOutputPath` accepts, or the fatal error it reports. */
  function CheckOutputPath(arg: OutputPathArgument): (r: Result<string, BuilderError>)
    ensures r.Success? <==> (arg.PathString? && IsAbsolute(arg.path)) || (arg.PathObject? && arg.absolute.Some? && IsAbsolute(arg.absolute.value))
    ensures r.Success? ==> r.value == (if arg.PathString? then arg.path else arg.absolute.value)
    ensures arg.PathObject? && arg.absolute.None? ==> r == Failure(MissingAbsolutePath)
  {
    var absolute := if arg.PathString? then Some(arg.path) else arg.absolute;
    if absolute.None? then Failure(MissingAbsolutePath)
    else if !IsAbsolute(absolute.value) then Failure(NotAbsolutePath(absolute.value))
    else Success(absolute.value)
  }

  /** The relative path, when one is given and is not the empty string. */
  function RelativeOf(arg: OutputPathArgument): Option<string> {
    if arg.PathObject? && arg.relative.Some? && arg.relative.value != "" then arg.relative else None
  }

  // ---------------------------------------------------------------------------
  // The builder
  // ---------------------------------------------------------------------------

  /** The `process.env.NODE_ENV`-derived variables every builder starts with. */
  function InitialEnvironment(nodeEnv: Option<string>): (env: map<string, Value>)
    ensures env.Keys == {"DEBUG", "PRODUCTION"}
    ensures env["DEBUG"] == Bool(nodeEnv != Some("production")) && env["PRODUCTION"] == Bool(nodeEnv == Some("production"))
  {
    map["DEBUG" := Bool(nodeEnv != Some("production")), "PRODUCTION" := Bool(nodeEnv == Some("production"))]
  }

  class WebpackConfigBuilder {
    var configuration: Configuration
    var moduleRules: ModuleRules
    /** The options of the default CSS extractor's initializer. */
    var miniCssFilename: Template
    /** Whether the declarations initializer is still among the default plugins. */
    var declarationsRegistered: bool
    var environment: map<string, Value>
    var defaultPluginsEnabled: bool
    var defaultBabelOptionsEnabled: bool
    var optimizationEnabled: bool
    var debugRulesNamesEnabled: bool
    var outputCleaningEnabled: bool
    var assetFileEnabled: bool
    var assetFileFormat: string
    var typeScriptDeclarationsEnabled: bool
    var plugins: seq<Initializer>
    var hashFilenamesEnabled: bool
    var keepAssets: Option<string -> bool>
    var entries: seq<EntryPoint>

    /** The entry map mirrors the entry list, and DEBUG and PRODUCTION are always defined. */
    ghost predicate Valid()
      reads this
    {
      && configuration.entry == EntryMap(entries)
      && "DEBUG" in environment && "PRODUCTION" in environment
    }

    constructor (nodeEnv: Option<string>)
      ensures Valid()
      ensures configuration == DefaultConfiguration && moduleRules == DefaultModuleRules
      ensures miniCssFilename == CssHashed && declarationsRegistered
      ensures environment == InitialEnvironment(nodeEnv)
      ensures defaultPluginsEnabled && defaultBabelOptionsEnabled && optimizationEnabled && !debugRulesNamesEnabled
      ensures !outputCleaningEnabled && assetFileEnabled && assetFileFormat == "json"
      ensures typeScriptDeclarationsEnabled && hashFilenamesEnabled
      ensures plugins == [] && keepAssets.None? && entries == []
    {
      configuration := DefaultConfiguration;
      moduleRules := DefaultModuleRules;
      miniCssFilename := CssHashed;
      declarationsRegistered := true;
      environment := InitialEnvironment(nodeEnv);
      defaultPluginsEnabled := true;
      defaultBabelOptionsEnabled := true;
      optimizationEnabled := true;
      debugRulesNamesEnabled := false;
      outputCleaningEnabled := false;
      assetFileEnabled := true;
      assetFileFormat := "json";
      typeScriptDeclarationsEnabled := true;
      plugins := [];
      hashFilenamesEnabled := true;
      keepAssets := None;
      entries := [];
    }

    method AddEntry(inputPath: string, outputName: string)
      requires Valid()
      modifies this`configuration, this`entries
      ensures Valid()
      ensures entries == old(entries) + [EntryPoint(inputPath, outputName)]
      ensures configuration == old(configuration).(entry := old(configuration.entry)[outputName := inputPath])
    {
      configuration := configuration.(entry := configuration.entry[outputName := inputPath]);
      entries := entries + [EntryPoint(inputPath, outputName)];
      assert entries[..|entries| - 1] == old(entries);
    }

    method AddPlugin(initializer: Initializer)
      modifies this`plugins
      ensures plugins == old(plugins) + [initializer]
    {
      plugins := plugins + [initializer];
    }

    method AddEnvironmentVariable(key: string, value: Value)
      requires Valid()
      modifies this`environment
      ensures Valid()
      ensures environment == old(environment)[key := value]
    {
      environment := environment[key := value];
    }

    method EnableDefaultPlugins(enable: bool)
      modifies this`defaultPluginsEnabled
      ensures defaultPluginsEnabled == enable
    {
      defaultPluginsEnabled := enable;
    }

    method EnableOptimization(enable: bool)
      modifies this`optimizationEnabled
      ensures optimizationEnabled == enable
    {
      optimizationEnabled := enable;
    }

    method EnableOutputCleaning(enable: bool)
      modifies this`outputCleaningEnabled
      ensures outputCleaningEnabled == enable
    {
      outputCleaningEnabled := enable;
    }

    method SetAssetCleaningWhitelist(keep: string -> bool)
      modifies this`keepAssets
      ensures keepAssets == Some(keep)
    {
      keepAssets := Some(keep);
    }

    /**
     * Passes the babel loader's options to the setter and stores the result in
     * the first loader entry, as the code does, or reports the error.
     */
    method SetBabelOptions(setter: Option<LoaderOptions> -> LoaderOptions) returns (r: Result<(), BuilderError>)
      modifies this`moduleRules
      ensures var updated := SetBabelOptionsAsWritten(old(moduleRules.javaScript), setter);
        && (r.Failure? <==> updated.Failure?)
        && (updated.Success? ==> moduleRules == old(moduleRules).(javaScript := updated.value))
        && (updated.Failure? ==> moduleRules == old(moduleRules))
    {
      var updated := SetBabelOptionsAsWritten(moduleRules.javaScript, setter);
      if updated.Failure? {
        return Failure(updated.error);
      }
      moduleRules := moduleRules.(javaScript := updated.value);
      r := Success(());
    }

    method EnableDefaultBabelOptions(enabled: bool)
      modifies this`defaultBabelOptionsEnabled
      ensures defaultBabelOptionsEnabled == enabled
    {
      defaultBabelOptionsEnabled := enabled;
    }

    method EnableFilenamesHash(enabled: bool)
      modifies this`hashFilenamesEnabled
      ensures hashFilenamesEnabled == enabled
    {
      hashFilenamesEnabled := enabled;
    }

    method EnableTypescriptDeclaration(enabled: bool)
      modifies this`typeScriptDeclarationsEnabled
      ensures typeScriptDeclarationsEnabled == enabled
    {
      typeScriptDeclarationsEnabled := enabled;
    }

    method DebugRulesName(enabled: bool)
      modifies this`debugRulesNamesEnabled
      ensures debugRulesNamesEnabled == enabled
    {
      debugRulesNamesEnabled := enabled;
    }

    /** The format defaults to "json" at the call site. */
    method EnableAssetFile(enabled: bool, fileFormat: string)
      modifies this`assetFileEnabled, this`assetFileFormat
      ensures assetFileEnabled == enabled && assetFileFormat == fileFormat
    {
      assetFileEnabled := enabled;
      assetFileFormat := fileFormat;
    }

    method ApplyFilenames()
      requires Valid()
      modifies this`configuration, this`miniCssFilename, this`moduleRules
      ensures Valid()
      ensures var f := FilenamesFor(hashFilenamesEnabled);
        && configuration == old(configuration).(output := old(configuration.output).(chunkFilename := f.chunk, filename := f.main, assetModuleFilename := f.asset))
        && miniCssFilename == f.css
        && moduleRules == old(moduleRules).(
             font := old(moduleRules.font).(generatorFilename := Some(f.font)),
             icons := old(moduleRules.icons).(generatorFilename := Some(f.icons)),
             images := old(moduleRules.images).(generatorFilename := Some(f.images)))
    {
      var f := FilenamesFor(hashFilenamesEnabled);
      configuration := configuration.(output := configuration.output.(chunkFilename := f.chunk));
      configuration := configuration.(output := configuration.output.(filename := f.main));
      configuration := configuration.(output := configuration.output.(assetModuleFilename := f.asset));
      miniCssFilename := f.css;
      moduleRules := moduleRules.(font := moduleRules.font.(generatorFilename := Some(f.font)));
      moduleRules := moduleRules.(icons := moduleRules.icons.(generatorFilename := Some(f.icons)));
      moduleRules := moduleRules.(images := moduleRules.images.(generatorFilename := Some(f.images)));
    }

    /** Sets `output.path`, and for a relative path also the public path and a dev-server static entry. */
    method SetOutputPath(arg: OutputPathArgument) returns (r: Result<(), BuilderError>)
      requires Valid()
      modifies this`configuration
      ensures Valid()
      ensures r.Failure? <==> CheckOutputPath(arg).Failure?
      ensures r.Failure? ==> configuration == old(configuration)
      ensures r.Success? && RelativeOf(arg).None? ==>
        configuration == old(configuration).(output := old(configuration.output).(path := Some(CheckOutputPath(arg).value)))
      ensures r.Success? && RelativeOf(arg).Some? ==>
        var absolute, publicPath := CheckOutputPath(arg).value, StripLeadingDot(RelativeOf(arg).value);
        configuration == old(configuration).(
          output := old(configuration.output).(path := Some(absolute), publicPath := Some(publicPath)),
          devServerStatic := old(configuration.devServerStatic) + [StaticEntry(publicPath, absolute)])
    {
      var checked := CheckOutputPath(arg);
      if checked.Failure? {
        return Failure(checked.error);
      }
      var absolute := checked.value;
      configuration := configuration.(output := configuration.output.(path := Some(absolute)));
      var relative := RelativeOf(arg);
      if relative.Some? {
        var publicPath := StripLeadingDot(relative.value);
        configuration := configuration.(output := configuration.output.(publicPath := Some(publicPath)));
        AddDevServerStatic(StaticEntry(publicPath, absolute));
      }
      r := Success(());
    }

    method SetStats(stats: Stats)
      requires Valid()
      modifies this`configuration
      ensures Valid()
      ensures configuration == old(configuration).(stats := stats)
    {
      configuration := configuration.(stats := stats);
    }

    /** The builder's own rules (a live reference in the source). */
    function GetModulesRules(): ModuleRules
      reads this
    {
      moduleRules
    }

    method AddDevServerStatic(entry: StaticEntry)
      requires Valid()
      modifies this`configuration
      ensures Valid()
      ensures configuration == old(configuration).(devServerStatic := old(configuration.devServerStatic) + [entry])
    {
      configuration := configuration.(devServerStatic := configuration.devServerStatic + [entry]);
    }

    /** Writes the prepared copy of the five rules; the builder's own rules stay as they were. */
    method ApplyModulesRules()
      requires Valid()
      modifies this`configuration
      ensures Valid()
      ensures configuration == old(configuration).(rules := PreparedRules(GetModulesRules(), defaultBabelOptionsEnabled, typeScriptDeclarationsEnabled, debugRulesNamesEnabled))
    {
      var rules := PreparedRules(GetModulesRules(), defaultBabelOptionsEnabled, typeScriptDeclarationsEnabled, debugRulesNamesEnabled);
      configuration := configuration.(rules := rules);
    }

    /** Pushes the elements of an array result one by one. */
    method PushPlugins(ps: seq<Plugin>)
      modifies this`configuration
      ensures configuration == old(configuration).(plugins := old(configuration.plugins) + ps)
    {
      var j := 0;
      while j < |ps|
        invariant 0 <= j <= |ps|
        invariant configuration == old(configuration).(plugins := old(configuration.plugins) + ps[..j])
      {
        configuration := configuration.(plugins := configuration.plugins + [ps[j]]);
        assert ps[..j + 1] == ps[..j] + [ps[j]];
        j := j + 1;
      }
      assert ps[..j] == ps;
    }

    /**
     * The loop of `applyPlugins`: each initializer is called in order and the
     * plugins it returns are pushed one by one.
     */
    method InitializeAll(initializers: seq<PluginInitializer>)
      modifies this`configuration
      ensures configuration == old(configuration).(plugins := old(configuration.plugins) + Expand(initializers, miniCssFilename, entries))
    {
      var initialized: seq<Plugin> := [];
      var i := 0;
      while i < |initializers|
        invariant 0 <= i <= |initializers|
        invariant initialized == Expand(initializers[..i], miniCssFilename, entries)
        invariant configuration == old(configuration)
      {
        var result := Initialize(initializers[i], miniCssFilename, entries);
        ExpandStep(initializers, i, miniCssFilename, entries);
        initialized := initialized + Spread(result);
        i := i + 1;
      }
      assert initialized == Expand(initializers, miniCssFilename, entries) by {
        assert initializers[..i] == initializers;
      }
      PushPlugins(initialized);
    }

    /**
     * Drops the declarations initializer for good when declarations are off,
     * then pushes the initialized plugins and a DefinePlugin.
     */
    method ApplyPlugins()
      requires Valid()
      modifies this`configuration, this`declarationsRegistered
      ensures Valid()
      ensures declarationsRegistered == (old(declarationsRegistered) && typeScriptDeclarationsEnabled)
      ensures configuration == old(configuration).(plugins := old(configuration.plugins)
        + Expand(PluginsToInitialize(defaultPluginsEnabled, declarationsRegistered, plugins), miniCssFilename, entries)
        + DefineFor(environment))
    {
      if !typeScriptDeclarationsEnabled {
        declarationsRegistered := false;
      }
      var initializers := PluginsToInitialize(defaultPluginsEnabled, declarationsRegistered, plugins);
      InitializeAll(initializers);
      if |environment| > 0 {
        configuration := configuration.(plugins := configuration.plugins + [Define(environment)]);
      }
    }

    method ApplyOptimization()
      requires Valid()
      modifies this`configuration
      ensures Valid()
      ensures configuration == old(configuration).(optimization := Some(OptimizationFor(optimizationEnabled)))
    {
      if !optimizationEnabled {
        configuration := configuration.(optimization := Some(Optimization(false, None)));
        return;
      }
      configuration := configuration.(optimization := Some(Optimization(true, Some([WebpackDefaults, CssMinimizer(true)]))));
    }

    method ApplyAssetCleaning()
      requires Valid()
      modifies this`configuration
      ensures Valid()
      ensures configuration == old(configuration).(output := old(configuration.output).(clean := CleanFor(old(configuration.output.clean), outputCleaningEnabled, keepAssets)))
    {
      if !outputCleaningEnabled {
        return;
      }
      if keepAssets.Some? {
        configuration := configuration.(output := configuration.output.(clean := Some(Clean(keepAssets.value))));
      }
    }

    method ApplyAssetFile()
      requires Valid()
      modifies this`configuration
      ensures Valid()
      ensures configuration == old(configuration).(plugins := old(configuration.plugins) + AssetFilePlugins(assetFileEnabled, assetFileFormat, old(configuration.output.path)))
    {
      if !assetFileEnabled {
        return;
      }
      var outputPath := configuration.output.path;
      var path := if outputPath.Some? && outputPath.value != "" then outputPath.value else "./";
      configuration := configuration.(plugins := configuration.plugins + [AssetsFile(path, "assets." + assetFileFormat, assetFileFormat)]);
    }

    /** A missing output path is fatal unless NODE_ENV is "test". */
    method Validate(nodeEnv: Option<string>) returns (r: Result<(), BuilderError>)
      ensures r.Failure? <==> configuration.output.path.None? && nodeEnv != Some("test")
      ensures r.Failure? ==> r.error == OutputPathNotDefined
    {
      if configuration.output.path.None? && nodeEnv != Some("test") {
        return Failure(OutputPathNotDefined);
      }
      r := Success(());
    }

    /** The first three steps of `build`: file names, asset cleaning and the asset-file plugin. */
    method ApplyOutputSteps()
      requires Valid()
      modifies this`configuration, this`miniCssFilename, this`moduleRules
      ensures Valid()
      ensures var f := FilenamesFor(hashFilenamesEnabled);
        && miniCssFilename == f.css
        && moduleRules == old(moduleRules).(
             font := old(moduleRules.font).(generatorFilename := Some(f.font)),
             icons := old(moduleRules.icons).(generatorFilename := Some(f.icons)),
             images := old(moduleRules.images).(generatorFilename := Some(f.images)))
      ensures var f := FilenamesFor(hashFilenamesEnabled);
        configuration == old(configuration).(
          output := old(configuration.output).(chunkFilename := f.chunk, filename := f.main, assetModuleFilename := f.asset,
                                               clean := CleanFor(old(configuration.output.clean), outputCleaningEnabled, keepAssets)),
          plugins := old(configuration.plugins) + AssetFilePlugins(assetFileEnabled, assetFileFormat, old(configuration.output.path)))
    {
      ApplyFilenames();
      ApplyAssetCleaning();
      ApplyAssetFile();
    }

    /** The last three steps of `build`: plugins, optimization and module rules. */
    method ApplyPluginAndRuleSteps()
      requires Valid()
      modifies this`configuration, this`declarationsRegistered
      ensures Valid()
      ensures declarationsRegistered == (old(declarationsRegistered) && typeScriptDeclarationsEnabled)
      ensures configuration == old(configuration).(
        plugins := old(configuration.plugins)
          + Expand(PluginsToInitialize(defaultPluginsEnabled, declarationsRegistered, plugins), miniCssFilename, entries)
          + DefineFor(environment),
        optimization := Some(OptimizationFor(optimizationEnabled)),
        rules := PreparedRules(moduleRules, defaultBabelOptionsEnabled, typeScriptDeclarationsEnabled, debugRulesNamesEnabled))
    {
      ApplyPlugins();
      ApplyOptimization();
      ApplyModulesRules();
    }

    /** Runs the six steps in their fixed order, then validates. */
    method Build(nodeEnv: Option<string>) returns (r: Result<Configuration, BuilderError>)
      requires Valid()
      modifies this`configuration, this`miniCssFilename, this`moduleRules, this`declarationsRegistered
      ensures Valid()
      ensures var f := FilenamesFor(hashFilenamesEnabled);
        && miniCssFilename == f.css
        && moduleRules == old(moduleRules).(
             font := old(moduleRules.font).(generatorFilename := Some(f.font)),
             icons := old(moduleRules.icons).(generatorFilename := Some(f.icons)),
             images := old(moduleRules.images).(generatorFilename := Some(f.images)))
      ensures declarationsRegistered == (old(declarationsRegistered) && typeScriptDeclarationsEnabled)
      ensures configuration.stats == old(configuration.stats) && configuration.entry == old(configuration.entry)
      ensures configuration.devServerStatic == old(configuration.devServerStatic)
      ensures var f := FilenamesFor(hashFilenamesEnabled);
        configuration.output == old(configuration.output).(chunkFilename := f.chunk, filename := f.main, assetModuleFilename := f.asset,
                                                           clean := CleanFor(old(configuration.output.clean), outputCleaningEnabled, keepAssets))
      ensures configuration.plugins == old(configuration.plugins)
        + AssetFilePlugins(assetFileEnabled, assetFileFormat, old(configuration.output.path))
        + Expand(PluginsToInitialize(defaultPluginsEnabled, declarationsRegistered, plugins), FilenamesFor(hashFilenamesEnabled).css, entries)
        + DefineFor(environment)
      ensures configuration.optimization == Some(OptimizationFor(optimizationEnabled))
      ensures configuration.rules == PreparedRules(moduleRules, defaultBabelOptionsEnabled, typeScriptDeclarationsEnabled, debugRulesNamesEnabled)
      ensures r.Failure? <==> configuration.output.path.None? && nodeEnv != Some("test")
      ensures r.Success? ==> r.value == configuration
    {
      ApplyOutputSteps();
      ApplyPluginAndRuleSteps();
      var valid := Validate(nodeEnv);
      if valid.Failure? {
        return Failure(valid.error);
      }
      r := Success(configuration);
    }
  }

  /**
   * On a fresh builder the plugin list after `build` is: the asset-file plugin
   * if enabled, the default plugins if enabled (declarations only while they
   * are on), the user plugins in `addPlugin` order, and a final DefinePlugin,
   * which is always there because DEBUG and PRODUCTION are always defined.
   */
  lemma FreshBuildPluginOrder(assetFileEnabled: bool, format: string, outputPath: Option<string>, defaultsEnabled: bool,
                              declarations: bool, users: seq<Initializer>, hashed: bool, entries: seq<EntryPoint>,
                              environment: map<string, Value>)
    requires "DEBUG" in environment
    ensures var css := FilenamesFor(hashed).css;
      DefaultConfiguration.plugins
        + AssetFilePlugins(assetFileEnabled, format, outputPath)
        + Expand(PluginsToInitialize(defaultsEnabled, true && declarations, users), css, entries)
        + DefineFor(environment)
      == (if assetFileEnabled then [AssetsFile(if outputPath.Some? && outputPath.value != "" then outputPath.value else "./", "assets." + format, format)] else [])
         + (if defaultsEnabled then [DuplicatePackageChecker, MiniCssExtract(css)] + (if declarations then DeclarationPlugins(entries) else []) else [])
         + UserPlugins(users)
         + [Define(environment)]
  {
    PluginOrder(defaultsEnabled, declarations, users, FilenamesFor(hashed).css, entries);
    assert |environment| > 0 by { assert "DEBUG" in environment.Keys; }
  }
}

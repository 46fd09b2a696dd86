/** What each feature step of the scaffolder does to the project directory,
    as a function from the tree before the step to the tree after it, or to
    the exception that stopped the step. */
module Steps {
  import opened Errors
  import opened Json
  import opened Disk
  import opened Configs
  import opened Fetch
  import opened Dispatch

  // Files and directories, relative to the project root.

  const EslintRc: Path := [".eslintrc.json"]
  const EditorConfig: Path := [".editorconfig"]
  const PrettierRc: Path := [".prettierrc"]
  const Vscode: Path := [".vscode"]
  const VscodeSettingsPath: Path := [".vscode", "settings.json"]
  const SrcPages: Path := ["src", "pages"]
  const Pages: Path := ["pages"]
  const Styles: Path := ["styles"]
  const TsConfig: Path := ["tsconfig.json"]
  const CommitlintConfig: Path := ["commitlint.config.js"]
  const BabelRc: Path := [".babelrc"]
  const DocumentPath: Path := ["src", "pages", "_document.tsx"]
  const AppPath: Path := ["src", "pages", "_app.tsx"]
  const SrcStyles: Path := ["src", "styles"]
  const GlobalStylesPath: Path := ["src", "styles", "global.ts"]
  const ThemePath: Path := ["src", "styles", "theme.ts"]
  const StyledDtsPath: Path := ["styled-components.d.ts"]
  const StorybookMainPath: Path := [".storybook", "main.js"]
  const SrcStories: Path := ["src", "stories"]
  const Templates: Path := ["generators", "templates"]
  const PlopfilePath: Path := ["generators", "plopfile.js"]
  const ComponentTemplatePath: Path := ["generators", "templates", "Component.tsx.hbs"]
  const StoriesTemplatePath: Path := ["generators", "templates", "stories.tsx.hbs"]
  const StylesTemplatePath: Path := ["generators", "templates", "styles.ts.hbs"]
  const PackageJson: Path := ["package.json"]

  /** The files base_create_next writes. */
  const BaseWrites: set<Path> := {EditorConfig, PrettierRc, EslintRc, VscodeSettingsPath, TsConfig}

  /** The files add_styled_components writes. */
  const StyledWrites: set<Path> := {BabelRc, DocumentPath, AppPath, GlobalStylesPath, ThemePath, StyledDtsPath}

  /** The files add_plop writes. */
  const PlopWrites: set<Path> :=
    {PlopfilePath, ComponentTemplatePath, StoriesTemplatePath, StylesTemplatePath, PackageJson}

  // Fixed contents. The long text files are opaque placeholders.

  /** The line break and indentation the .editorconfig literal carries
      between its lines. */
  const EditorConfigBreak: string := "\n          "
  const EditorConfigText: string :=
    "root = true" + EditorConfigBreak + "[*]" + EditorConfigBreak + "indent_style = space"
    + EditorConfigBreak + "indent_size = 2" + EditorConfigBreak + "end_of_line = lf"
    + EditorConfigBreak + "charset = utf-8" + EditorConfigBreak + "trim_trailing_whitespace = true"
    + EditorConfigBreak + "insert_final_newline = true"
  const PrettierConfig: Json :=
    Obj(map["trailingComma" := Str("none"), "semi" := Bool(false), "singleQuote" := Bool(true)])
  const VscodeSettings: Json :=
    Obj(map["editor.formatOnSave" := Bool(false),
            "editor.codeActionsOnSave" := Obj(map["source.fixAll.eslint" := Bool(true)])])
  const CommitlintText: string := "{ module.exports = {extends: ['@commitlint/config-conventional']} }"
  const GlobalStylesFallback: string := "<built-in GlobalStyles module>"
  const ThemeFallback: string := "export default {} "
  const StyledDtsText: string := "<DefaultTheme declaration for styled-components>"

  /** After a create_file_by_text_fromUrl that did not raise: `p` holds the
      body if the status was 200, and is as it was otherwise. */
  ghost predicate Fetched(before: Tree, after: Tree, network: Network, remote: Remote, p: Path)
  {
    remote in network
    && At(after, p) == (if network[remote].status == OK then Some(Text(network[remote].body)) else At(before, p))
  }

  /** Every path outside `changed` holds what it held before. */
  ghost predicate SameElsewhere(before: Tree, after: Tree, changed: set<Path>)
  {
    forall q :: q !in changed ==> At(after, q) == At(before, q)
  }

  /** create_file_by_text_fromUrl: the file is written with the body only on
      status 200; any other status leaves the tree alone. */
  function FetchFile(t: Tree, network: Network, remote: Remote, target: Path): (r: Result<Tree>)
    requires target != []
    ensures remote !in network ==> r == Err(ConnectionFailed(remote))
    ensures remote in network && network[remote].status != OK ==> r == Ok(t)
    ensures remote in network && network[remote].status == OK ==>
              (r.Ok? <==> target !in t.dirs && (|target| == 1 || target[..|target| - 1] in t.dirs))
    ensures r.Ok? ==> Fetched(t, r.value, network, remote, target)
    ensures r.Ok? ==> r.value.dirs == t.dirs && SameElsewhere(t, r.value, {target})
  {
    if remote !in network then Err(ConnectionFailed(remote))
    else if network[remote].status == OK then WriteFile(t, target, Text(network[remote].body))
    else Ok(t)
  }

  lemma FetchFileValid(t: Tree, network: Network, remote: Remote, target: Path)
    requires Valid(t) && target != [] && FetchFile(t, network, remote, target).Ok?
    ensures Valid(FetchFile(t, network, remote, target).value)
  {
    if network[remote].status == OK {
      WriteFileValid(t, target, Text(network[remote].body));
    }
  }

  // base_create_next

  /** The configuration files base_create_next writes: .editorconfig,
      .prettierrc, .vscode/settings.json and the rewritten .eslintrc.json. The
      shell commands in between do not touch the tree, so the retry after
      `yarn eslint --init` reads the same .eslintrc.json and fails the same way. */
  function BaseConfigFiles(t: Tree): Result<Tree>
  {
    var eslint :- ReadJson(t, EslintRc);
    var t1 :- WriteFile(t, EditorConfig, Text(EditorConfigText));
    var config :- BaseEslint(eslint);
    var t2 :- WriteFile(t1, PrettierRc, JsonDoc(PrettierConfig));
    var t3 :- MakeDirs(t2, Vscode);
    var t4 :- WriteFile(t3, EslintRc, JsonDoc(config));
    WriteFile(t4, VscodeSettingsPath, JsonDoc(VscodeSettings))
  }

  /** The layout base_create_next leaves: src/pages is created and the
      generator's pages/ and styles/ go, with everything in them. */
  function BaseLayout(t: Tree): (r: Result<Tree>)
    ensures Pages !in t.dirs || Styles !in t.dirs ==> r.Err?
    ensures r.Ok? ==> forall p :: At(r.value, p) == if Under(p, Pages) || Under(p, Styles) then None else At(t, p)
    ensures r.Ok? ==> r.value.dirs == set q | q in t.dirs + Prefixes(SrcPages) && !Under(q, Pages) && !Under(q, Styles)
  {
    var t1 :- MakeDirs(t, SrcPages);
    var t2 :- RemoveTree(t1, Pages);
    RemoveTree(t2, Styles)
  }

  /** `compilerOptions.baseUrl` set in tsconfig.json. */
  function BaseTsConfig(t: Tree): (r: Result<Tree>)
    ensures r.Ok? <==> var tsconfig := ReadJson(t, TsConfig);
                       tsconfig.Ok? && SetBaseUrl(tsconfig.value).Ok? && TsConfig !in t.dirs
    ensures r.Ok? ==> r.value == Tree(t.files[TsConfig := JsonDoc(SetBaseUrl(ReadJson(t, TsConfig).value).value)], t.dirs)
  {
    var tsconfig :- ReadJson(t, TsConfig);
    var options :- SetBaseUrl(tsconfig);
    WriteFile(t, TsConfig, JsonDoc(options))
  }

  /** The tree after base_create_next. */
  function AfterBase(t: Tree): Result<Tree>
  {
    var t1 :- BaseConfigFiles(t);
    var t2 :- BaseLayout(t1);
    BaseTsConfig(t2)
  }

  // add_eslint_importer

  /** The tree after add_eslint_importer. */
  function AfterEslintImporter(t: Tree): (r: Result<Tree>)
    ensures r.Ok? <==> var config := ReadJson(t, EslintRc);
                       config.Ok? && AddImportHelpers(config.value).Ok? && EslintRc !in t.dirs
    ensures r.Ok? ==> r.value == Tree(t.files[EslintRc := JsonDoc(AddImportHelpers(ReadJson(t, EslintRc).value).value)], t.dirs)
  {
    var config :- ReadJson(t, EslintRc);
    var patched :- AddImportHelpers(config);
    WriteFile(t, EslintRc, JsonDoc(patched))
  }

  // The commitlint configuration of __auto_create_next_app

  /** The tree after commitlint.config.js is written. */
  function AfterCommitlint(t: Tree): (r: Result<Tree>)
    ensures r.Ok? <==> CommitlintConfig !in t.dirs
    ensures r.Ok? ==> r.value == Tree(t.files[CommitlintConfig := Text(CommitlintText)], t.dirs)
  {
    WriteFile(t, CommitlintConfig, Text(CommitlintText))
  }

  // add_styled_components

  /** The .babelrc add_styled_components starts from: the loaded value, or an
      empty object when the file is missing or unreadable. */
  function LoadBabel(t: Tree): (r: Json)
    ensures ReadJson(t, BabelRc).Err? <==> r == Obj(map[]) && !(BabelRc in t.files && t.files[BabelRc] == JsonDoc(r))
    ensures BabelRc in t.files && t.files[BabelRc].JsonDoc? ==> r == t.files[BabelRc].doc
  {
    var loaded := ReadJson(t, BabelRc);
    if loaded.Ok? then loaded.value else Obj(map[])
  }

  /** The .babelrc part of add_styled_components. */
  function StyledBabelRc(t: Tree): Result<Tree>
  {
    var babel :- StyledBabel(LoadBabel(t));
    WriteFile(t, BabelRc, JsonDoc(babel))
  }

  /** The page part of add_styled_components: the two templates of src/pages. */
  function StyledPages(t: Tree, network: Network): Result<Tree>
  {
    var t1 :- FetchFile(t, network, DocumentTemplate, DocumentPath);
    FetchFile(t1, network, AppTemplate, AppPath)
  }

  /** The style part of add_styled_components: src/styles with global.ts and
      theme.ts, and the type declaration at the root. */
  function StyledModules(t: Tree, network: Network): Result<Tree>
  {
    var t1 :- MakeDirs(t, SrcStyles);
    var globalStyles :- TextOr(network, GlobalStylesTemplate, GlobalStylesFallback);
    var t2 :- WriteFile(t1, GlobalStylesPath, Text(globalStyles));
    var theme :- TextOr(network, ThemeTemplate, ThemeFallback);
    var t3 :- WriteFile(t2, ThemePath, Text(theme));
    WriteFile(t3, StyledDtsPath, Text(StyledDtsText))
  }

  /** The tree after add_styled_components. */
  function AfterStyled(t: Tree, network: Network): Result<Tree>
  {
    var t1 :- StyledBabelRc(t);
    var t2 :- StyledPages(t1, network);
    StyledModules(t2, network)
  }

  // add_storybook

  /** The tree after add_storybook. */
  function AfterStorybook(t: Tree, network: Network): Result<Tree>
  {
    var t1 :- FetchFile(t, network, StorybookMainTemplate, StorybookMainPath);
    RemoveTree(t1, SrcStories)
  }

  // add_plop

  /** The tree after add_plop. */
  function AfterPlop(t: Tree, network: Network): Result<Tree>
  {
    var t1 :- MakeDirs(t, Templates);
    var t2 :- FetchFile(t1, network, PlopfileTemplate, PlopfilePath);
    var t3 :- FetchFile(t2, network, ComponentTemplate, ComponentTemplatePath);
    var t4 :- FetchFile(t3, network, StoriesTemplate, StoriesTemplatePath);
    var t5 :- FetchFile(t4, network, StylesTemplate, StylesTemplatePath);
    var package :- ReadJson(t5, PackageJson);
    var patched :- AddGenerateScript(package);
    WriteFile(t5, PackageJson, JsonDoc(patched))
  }

  // add_material_ui

  /** The tree after the alias block of add_material_ui. */
  function AfterAlias(t: Tree): (r: Result<Tree>)
    ensures r.Ok? <==> var package := ReadJson(t, PackageJson);
                       package.Ok? && AliasStyledEngine(package.value).Ok? && PackageJson !in t.dirs
    ensures r.Ok? ==> r.value == Tree(t.files[PackageJson := JsonDoc(AliasStyledEngine(ReadJson(t, PackageJson).value).value)], t.dirs)
  {
    var package :- ReadJson(t, PackageJson);
    var patched :- AliasStyledEngine(package);
    WriteFile(t, PackageJson, JsonDoc(patched))
  }

  // __auto_create_next_app

  /** The first half of the auto sequence: the base project, the import
      helpers and the commitlint configuration. */
  function AfterSetup(t: Tree): Result<Tree>
  {
    var t1 :- AfterBase(t);
    var t2 :- AfterEslintImporter(t1);
    AfterCommitlint(t2)
  }

  /** The second half of the auto sequence: styled-components, Storybook and
      Plop. add_material_ui contributes nothing to the tree: the name it
      tests for is never in the installed list. */
  function AfterFeatures(t: Tree, network: Network): Result<Tree>
  {
    var t1 :- AfterStyled(t, network);
    var t2 :- AfterStorybook(t1, network);
    AfterPlop(t2, network)
  }

  /** The tree after a complete auto sequence. */
  function AfterAuto(t: Tree, network: Network): Result<Tree>
  {
    var t1 :- AfterSetup(t);
    AfterFeatures(t1, network)
  }

  // What base_create_next leaves in the tree.

  /** The configuration half of base_create_next stops on an unreadable
      .eslintrc.json, whose exception it passes on, and on an existing .vscode. */
  lemma BaseConfigFailures(t: Tree)
    ensures ReadJson(t, EslintRc).Err? ==> BaseConfigFiles(t) == Err(ReadJson(t, EslintRc).error)
    ensures Vscode in t.dirs ==> BaseConfigFiles(t).Err?
  {
    var eslint := ReadJson(t, EslintRc);
    if eslint.Ok? && Vscode in t.dirs {
      var t1 := WriteFile(t, EditorConfig, Text(EditorConfigText));
      var config := BaseEslint(eslint.value);
      if t1.Ok? && config.Ok? {
        var t2 := WriteFile(t1.value, PrettierRc, JsonDoc(PrettierConfig));
        if t2.Ok? {
          assert MakeDirs(t2.value, Vscode).Err?;
        }
      }
    }
  }

  lemma BaseConfigPathsDistinct()
    ensures EditorConfig != PrettierRc && EditorConfig != EslintRc && EditorConfig != VscodeSettingsPath
    ensures PrettierRc != EslintRc && PrettierRc != VscodeSettingsPath && EslintRc != VscodeSettingsPath
  {
    DistinctHead(EditorConfig, PrettierRc);
    DistinctHead(EditorConfig, EslintRc);
    DistinctHead(PrettierRc, EslintRc);
  }

  /** The four configuration files hold their new contents: .eslintrc.json
      the loaded configuration with the base rules, the others fixed values. */
  lemma BaseConfigWrites(t: Tree)
    ensures var r := BaseConfigFiles(t);
            r.Ok? ==>
              var eslint := ReadJson(t, EslintRc);
              && eslint.Ok? && BaseEslint(eslint.value).Ok?
              && At(r.value, EslintRc) == Some(JsonDoc(BaseEslint(eslint.value).value))
              && At(r.value, EditorConfig) == Some(Text(EditorConfigText))
              && At(r.value, PrettierRc) == Some(JsonDoc(PrettierConfig))
              && At(r.value, VscodeSettingsPath) == Some(JsonDoc(VscodeSettings))
  {
    var r := BaseConfigFiles(t);
    if r.Ok? {
      var eslint := ReadJson(t, EslintRc);
      var t1 := WriteFile(t, EditorConfig, Text(EditorConfigText));
      var config := BaseEslint(eslint.value);
      var t2 := WriteFile(t1.value, PrettierRc, JsonDoc(PrettierConfig));
      var t3 := MakeDirs(t2.value, Vscode);
      var t4 := WriteFile(t3.value, EslintRc, JsonDoc(config.value));
      assert r == WriteFile(t4.value, VscodeSettingsPath, JsonDoc(VscodeSettings));
      BaseConfigPathsDistinct();
    }
  }

  /** Only those four files change, and .vscode is the one new directory. */
  lemma BaseConfigFrame(t: Tree)
    ensures var r := BaseConfigFiles(t);
            r.Ok? ==>
              && SameElsewhere(t, r.value, {EditorConfig, PrettierRc, EslintRc, VscodeSettingsPath})
              && r.value.dirs == t.dirs + Prefixes(Vscode)
  {
    var r := BaseConfigFiles(t);
    if r.Ok? {
      var eslint := ReadJson(t, EslintRc);
      var t1 := WriteFile(t, EditorConfig, Text(EditorConfigText));
      var config := BaseEslint(eslint.value);
      var t2 := WriteFile(t1.value, PrettierRc, JsonDoc(PrettierConfig));
      var t3 := MakeDirs(t2.value, Vscode);
      var t4 := WriteFile(t3.value, EslintRc, JsonDoc(config.value));
      assert r == WriteFile(t4.value, VscodeSettingsPath, JsonDoc(VscodeSettings));
    }
  }

  /** The files base_create_next writes lie outside pages/ and styles/. */
  lemma BaseWritesOutsideRemoved()
    ensures forall p :: p in BaseWrites ==> !Under(p, Pages) && !Under(p, Styles)
  {
    forall p | p in BaseWrites
      ensures !Under(p, Pages) && !Under(p, Styles)
    {
      DistinctHead(p, Pages);
      DistinctHead(p, Styles);
    }
  }

  /** base_create_next stops at the first failing call: an unreadable
      .eslintrc.json, an existing .vscode, or a missing pages or styles
      directory from the generator. */
  lemma BaseFailures(t: Tree)
    ensures ReadJson(t, EslintRc).Err? ==> AfterBase(t) == Err(ReadJson(t, EslintRc).error)
    ensures Vscode in t.dirs ==> AfterBase(t).Err?
    ensures Pages !in t.dirs ==> AfterBase(t).Err?
    ensures Styles !in t.dirs ==> AfterBase(t).Err?
  {
    BaseConfigFailures(t);
    var t1 := BaseConfigFiles(t);
    if t1.Ok? {
      BaseConfigFrame(t);
      PrefixesOfEntry(Vscode);
    }
  }

  /** The three parts of base_create_next put together, on trees. */
  lemma BaseCompose(t: Tree, t1: Tree, t2: Tree, r: Tree, eslint: Json, tsconfig: Json)
    requires At(t1, EslintRc) == Some(JsonDoc(eslint))
    requires At(t1, EditorConfig) == Some(Text(EditorConfigText))
    requires At(t1, PrettierRc) == Some(JsonDoc(PrettierConfig))
    requires At(t1, VscodeSettingsPath) == Some(JsonDoc(VscodeSettings))
    requires SameElsewhere(t, t1, {EditorConfig, PrettierRc, EslintRc, VscodeSettingsPath})
    requires t1.dirs == t.dirs + Prefixes(Vscode)
    requires forall p :: At(t2, p) == if Under(p, Pages) || Under(p, Styles) then None else At(t1, p)
    requires t2.dirs == set q | q in t1.dirs + Prefixes(SrcPages) && !Under(q, Pages) && !Under(q, Styles)
    requires r == Tree(t2.files[TsConfig := JsonDoc(tsconfig)], t2.dirs)
    ensures At(t2, TsConfig) == At(t, TsConfig)
    ensures At(r, EslintRc) == Some(JsonDoc(eslint))
    ensures At(r, TsConfig) == Some(JsonDoc(tsconfig))
    ensures At(r, EditorConfig) == Some(Text(EditorConfigText))
    ensures At(r, PrettierRc) == Some(JsonDoc(PrettierConfig))
    ensures At(r, VscodeSettingsPath) == Some(JsonDoc(VscodeSettings))
    ensures forall p :: p !in BaseWrites ==>
              At(r, p) == if Under(p, Pages) || Under(p, Styles) then None else At(t, p)
    ensures r.dirs == set q | q in t.dirs + Prefixes(Vscode) + Prefixes(SrcPages)
                              && !Under(q, Pages) && !Under(q, Styles)
  {
    BaseWritesOutsideRemoved();
    BaseConfigPathsDistinct();
    assert TsConfig !in {EditorConfig, PrettierRc, EslintRc, VscodeSettingsPath} by {
      DistinctHead(TsConfig, EditorConfig);
      DistinctHead(TsConfig, PrettierRc);
      DistinctHead(TsConfig, EslintRc);
      DistinctHead(TsConfig, VscodeSettingsPath);
    }
    assert TsConfig in BaseWrites;
  }

  /** After base_create_next the five configuration files hold their new
      contents, pages/ and styles/ are gone with everything in them, and
      nothing else changed. */
  lemma BaseEffect(t: Tree)
    ensures var r := AfterBase(t);
            r.Ok? ==>
              var eslint := ReadJson(t, EslintRc);
              var tsconfig := ReadJson(t, TsConfig);
              && eslint.Ok? && BaseEslint(eslint.value).Ok?
              && tsconfig.Ok? && SetBaseUrl(tsconfig.value).Ok?
              && At(r.value, EslintRc) == Some(JsonDoc(BaseEslint(eslint.value).value))
              && At(r.value, TsConfig) == Some(JsonDoc(SetBaseUrl(tsconfig.value).value))
              && At(r.value, EditorConfig) == Some(Text(EditorConfigText))
              && At(r.value, PrettierRc) == Some(JsonDoc(PrettierConfig))
              && At(r.value, VscodeSettingsPath) == Some(JsonDoc(VscodeSettings))
              && (forall p :: p !in BaseWrites ==>
                    At(r.value, p) == if Under(p, Pages) || Under(p, Styles) then None else At(t, p))
              && r.value.dirs == set q | q in t.dirs + Prefixes(Vscode) + Prefixes(SrcPages)
                                       && !Under(q, Pages) && !Under(q, Styles)
  {
    var r := AfterBase(t);
    if r.Ok? {
      var t1 := BaseConfigFiles(t);
      var t2 := BaseLayout(t1.value);
      assert r == BaseTsConfig(t2.value);
      BaseConfigWrites(t);
      BaseConfigFrame(t);
      var tsconfig := ReadJson(t2.value, TsConfig);
      BaseCompose(t, t1.value, t2.value, r.value, BaseEslint(ReadJson(t, EslintRc).value).value,
                  SetBaseUrl(tsconfig.value).value);
    }
  }

  /** base_create_next keeps the tree well formed. */
  lemma BaseValid(t: Tree)
    requires Valid(t) && AfterBase(t).Ok?
    ensures Valid(AfterBase(t).value)
  {
    var eslint := ReadJson(t, EslintRc).value;
    var t1 := WriteFile(t, EditorConfig, Text(EditorConfigText)).value;
    WriteFileValid(t, EditorConfig, Text(EditorConfigText));
    var config := BaseEslint(eslint).value;
    var t2 := WriteFile(t1, PrettierRc, JsonDoc(PrettierConfig)).value;
    WriteFileValid(t1, PrettierRc, JsonDoc(PrettierConfig));
    var t3 := MakeDirs(t2, Vscode).value;
    MakeDirsValid(t2, Vscode);
    var t4 := WriteFile(t3, EslintRc, JsonDoc(config)).value;
    WriteFileValid(t3, EslintRc, JsonDoc(config));
    var t5 := WriteFile(t4, VscodeSettingsPath, JsonDoc(VscodeSettings)).value;
    WriteFileValid(t4, VscodeSettingsPath, JsonDoc(VscodeSettings));
    var t6 := MakeDirs(t5, SrcPages).value;
    MakeDirsValid(t5, SrcPages);
    var t7 := RemoveTree(t6, Pages).value;
    RemoveTreeValid(t6, Pages);
    var t8 := RemoveTree(t7, Styles).value;
    RemoveTreeValid(t7, Styles);
    var options := SetBaseUrl(ReadJson(t8, TsConfig).value).value;
    WriteFileValid(t8, TsConfig, JsonDoc(options));
  }

  // What add_styled_components leaves in the tree.

  /** The files add_styled_components writes are pairwise different. */
  lemma StyledPathsDistinct()
    ensures BabelRc != DocumentPath && BabelRc != AppPath && BabelRc != GlobalStylesPath
    ensures BabelRc != ThemePath && BabelRc != StyledDtsPath
    ensures DocumentPath != AppPath && DocumentPath != GlobalStylesPath && DocumentPath != ThemePath
    ensures DocumentPath != StyledDtsPath && AppPath != GlobalStylesPath && AppPath != ThemePath
    ensures AppPath != StyledDtsPath && GlobalStylesPath != ThemePath && GlobalStylesPath != StyledDtsPath
    ensures ThemePath != StyledDtsPath
  {
    assert GlobalStylesPath[2] != ThemePath[2];
    assert DocumentPath[2] != AppPath[2];
    assert DocumentPath[1] != GlobalStylesPath[1];
  }

  /** The steps of add_styled_components put together, on trees. */
  lemma StyledCompose(t: Tree, t1: Tree, t2: Tree, t3: Tree, t4: Tree, t5: Tree, t6: Tree, r: Tree,
                      network: Network, babel: Json, globalStyles: string, theme: string)
    requires t1 == Tree(t.files[BabelRc := JsonDoc(babel)], t.dirs)
    requires Fetched(t1, t2, network, DocumentTemplate, DocumentPath) && t2.dirs == t1.dirs
    requires SameElsewhere(t1, t2, {DocumentPath})
    requires Fetched(t2, t3, network, AppTemplate, AppPath) && t3.dirs == t2.dirs
    requires SameElsewhere(t2, t3, {AppPath})
    requires t4 == Tree(t3.files, t3.dirs + Prefixes(SrcStyles))
    requires t5 == Tree(t4.files[GlobalStylesPath := Text(globalStyles)], t4.dirs)
    requires t6 == Tree(t5.files[ThemePath := Text(theme)], t5.dirs)
    requires r == Tree(t6.files[StyledDtsPath := Text(StyledDtsText)], t6.dirs)
    ensures At(r, BabelRc) == Some(JsonDoc(babel))
    ensures Fetched(t, r, network, DocumentTemplate, DocumentPath)
    ensures Fetched(t, r, network, AppTemplate, AppPath)
    ensures At(r, GlobalStylesPath) == Some(Text(globalStyles))
    ensures At(r, ThemePath) == Some(Text(theme))
    ensures At(r, StyledDtsPath) == Some(Text(StyledDtsText))
    ensures SameElsewhere(t, r, StyledWrites)
    ensures r.dirs == t.dirs + Prefixes(SrcStyles)
  {
    StyledPathsDistinct();
    assert At(r, DocumentPath) == At(t2, DocumentPath);
    assert At(t1, DocumentPath) == At(t, DocumentPath);
    assert At(r, AppPath) == At(t3, AppPath);
    assert At(t2, AppPath) == At(t, AppPath);
    assert At(r, BabelRc) == At(t1, BabelRc);
    forall q | q !in StyledWrites
      ensures At(r, q) == At(t, q)
    {
      assert At(r, q) == At(t3, q);
      assert At(t3, q) == At(t2, q);
    }
  }

  /** After add_styled_components .babelrc holds the styled configuration,
      the two page templates are fetched, global.ts and theme.ts hold the
      fetched text or the built-in fallback, the type declaration is written,
      src/styles is new, and nothing else changed. */
  lemma StyledEffect(t: Tree, network: Network)
    ensures var r := AfterStyled(t, network);
            r.Ok? ==>
              var babel := StyledBabel(LoadBabel(t));
              var globalStyles := TextOr(network, GlobalStylesTemplate, GlobalStylesFallback);
              var theme := TextOr(network, ThemeTemplate, ThemeFallback);
              && babel.Ok? && globalStyles.Ok? && theme.Ok?
              && At(r.value, BabelRc) == Some(JsonDoc(babel.value))
              && Fetched(t, r.value, network, DocumentTemplate, DocumentPath)
              && Fetched(t, r.value, network, AppTemplate, AppPath)
              && At(r.value, GlobalStylesPath) == Some(Text(globalStyles.value))
              && At(r.value, ThemePath) == Some(Text(theme.value))
              && At(r.value, StyledDtsPath) == Some(Text(StyledDtsText))
              && SameElsewhere(t, r.value, StyledWrites)
              && r.value.dirs == t.dirs + Prefixes(SrcStyles)
  {
    var r := AfterStyled(t, network);
    if r.Ok? {
      var babel := StyledBabel(LoadBabel(t)).value;
      var t1 := WriteFile(t, BabelRc, JsonDoc(babel)).value;
      var t2 := FetchFile(t1, network, DocumentTemplate, DocumentPath).value;
      var t3 := FetchFile(t2, network, AppTemplate, AppPath).value;
      var t4 := MakeDirs(t3, SrcStyles).value;
      var globalStyles := TextOr(network, GlobalStylesTemplate, GlobalStylesFallback).value;
      var t5 := WriteFile(t4, GlobalStylesPath, Text(globalStyles)).value;
      var theme := TextOr(network, ThemeTemplate, ThemeFallback).value;
      var t6 := WriteFile(t5, ThemePath, Text(theme)).value;
      assert r == WriteFile(t6, StyledDtsPath, Text(StyledDtsText));
      StyledCompose(t, t1, t2, t3, t4, t5, t6, r.value, network, babel, globalStyles, theme);
    }
  }

  /** add_styled_components fails on a .babelrc that is not an object, on an
      unreachable template URL, and when src/styles already exists. */
  lemma StyledFailures(t: Tree, network: Network)
    ensures !LoadBabel(t).Obj? ==> AfterStyled(t, network) == Err(WrongType("presets"))
    ensures DocumentTemplate !in network || AppTemplate !in network ==> AfterStyled(t, network).Err?
    ensures GlobalStylesTemplate !in network || ThemeTemplate !in network ==> AfterStyled(t, network).Err?
    ensures SrcStyles in t.dirs ==> AfterStyled(t, network).Err?
  {
  }

  /** add_styled_components keeps the tree well formed. */
  lemma StyledValid(t: Tree, network: Network)
    requires Valid(t) && AfterStyled(t, network).Ok?
    ensures Valid(AfterStyled(t, network).value)
  {
    var babel := StyledBabel(LoadBabel(t)).value;
    var t1 := WriteFile(t, BabelRc, JsonDoc(babel)).value;
    WriteFileValid(t, BabelRc, JsonDoc(babel));
    var t2 := FetchFile(t1, network, DocumentTemplate, DocumentPath).value;
    FetchFileValid(t1, network, DocumentTemplate, DocumentPath);
    var t3 := FetchFile(t2, network, AppTemplate, AppPath).value;
    FetchFileValid(t2, network, AppTemplate, AppPath);
    var t4 := MakeDirs(t3, SrcStyles).value;
    MakeDirsValid(t3, SrcStyles);
    var globalStyles := TextOr(network, GlobalStylesTemplate, GlobalStylesFallback).value;
    var t5 := WriteFile(t4, GlobalStylesPath, Text(globalStyles)).value;
    WriteFileValid(t4, GlobalStylesPath, Text(globalStyles));
    var theme := TextOr(network, ThemeTemplate, ThemeFallback).value;
    var t6 := WriteFile(t5, ThemePath, Text(theme)).value;
    WriteFileValid(t5, ThemePath, Text(theme));
    WriteFileValid(t6, StyledDtsPath, Text(StyledDtsText));
  }

  // What add_storybook leaves in the tree.

  /** After add_storybook .storybook/main.js is fetched and src/stories is
      gone with everything in it; add_storybook fails when the URL is
      unreachable or src/stories does not exist. */
  lemma StorybookEffect(t: Tree, network: Network)
    ensures var r := AfterStorybook(t, network);
            && (StorybookMainTemplate !in network ==> r == Err(ConnectionFailed(StorybookMainTemplate)))
            && (SrcStories !in t.dirs ==> r.Err?)
            && (r.Ok? ==>
                  && Fetched(t, r.value, network, StorybookMainTemplate, StorybookMainPath)
                  && (forall p :: p != StorybookMainPath ==>
                        At(r.value, p) == if Under(p, SrcStories) then None else At(t, p))
                  && r.value.dirs == set q | q in t.dirs && !Under(q, SrcStories))
  {
    var r := AfterStorybook(t, network);
    if r.Ok? {
      var t1 := FetchFile(t, network, StorybookMainTemplate, StorybookMainPath).value;
      assert r == RemoveTree(t1, SrcStories);
      assert !Under(StorybookMainPath, SrcStories) by {
        assert StorybookMainPath[..2][0] != SrcStories[0];
      }
    }
  }

  /** add_storybook keeps the tree well formed. */
  lemma StorybookValid(t: Tree, network: Network)
    requires Valid(t) && AfterStorybook(t, network).Ok?
    ensures Valid(AfterStorybook(t, network).value)
  {
    var t1 := FetchFile(t, network, StorybookMainTemplate, StorybookMainPath).value;
    FetchFileValid(t, network, StorybookMainTemplate, StorybookMainPath);
    RemoveTreeValid(t1, SrcStories);
  }

  // What add_plop leaves in the tree.

  /** The files add_plop writes are pairwise different. */
  lemma PlopPathsDistinct()
    ensures PlopfilePath != ComponentTemplatePath && PlopfilePath != StoriesTemplatePath
    ensures PlopfilePath != StylesTemplatePath && PlopfilePath != PackageJson
    ensures ComponentTemplatePath != StoriesTemplatePath && ComponentTemplatePath != StylesTemplatePath
    ensures ComponentTemplatePath != PackageJson && StoriesTemplatePath != StylesTemplatePath
    ensures StoriesTemplatePath != PackageJson && StylesTemplatePath != PackageJson
  {
    assert ComponentTemplatePath[2] != StoriesTemplatePath[2];
    assert ComponentTemplatePath[2] != StylesTemplatePath[2];
    assert StoriesTemplatePath[2] != StylesTemplatePath[2];
  }

  /** The steps of add_plop put together, on trees. */
  lemma PlopCompose(t: Tree, t1: Tree, t2: Tree, t3: Tree, t4: Tree, t5: Tree, r: Tree,
                    network: Network, package: Json)
    requires t1 == Tree(t.files, t.dirs + Prefixes(Templates))
    requires Fetched(t1, t2, network, PlopfileTemplate, PlopfilePath) && t2.dirs == t1.dirs
    requires SameElsewhere(t1, t2, {PlopfilePath})
    requires Fetched(t2, t3, network, ComponentTemplate, ComponentTemplatePath) && t3.dirs == t2.dirs
    requires SameElsewhere(t2, t3, {ComponentTemplatePath})
    requires Fetched(t3, t4, network, StoriesTemplate, StoriesTemplatePath) && t4.dirs == t3.dirs
    requires SameElsewhere(t3, t4, {StoriesTemplatePath})
    requires Fetched(t4, t5, network, StylesTemplate, StylesTemplatePath) && t5.dirs == t4.dirs
    requires SameElsewhere(t4, t5, {StylesTemplatePath})
    requires r == Tree(t5.files[PackageJson := JsonDoc(package)], t5.dirs)
    ensures At(t5, PackageJson) == At(t, PackageJson)
    ensures At(r, PackageJson) == Some(JsonDoc(package))
    ensures Fetched(t, r, network, PlopfileTemplate, PlopfilePath)
    ensures Fetched(t, r, network, ComponentTemplate, ComponentTemplatePath)
    ensures Fetched(t, r, network, StoriesTemplate, StoriesTemplatePath)
    ensures Fetched(t, r, network, StylesTemplate, StylesTemplatePath)
    ensures SameElsewhere(t, r, PlopWrites)
    ensures r.dirs == t.dirs + Prefixes(Templates)
  {
    PlopPathsDistinct();
    assert At(r, PlopfilePath) == At(t2, PlopfilePath);
    assert At(r, ComponentTemplatePath) == At(t3, ComponentTemplatePath);
    assert At(t2, ComponentTemplatePath) == At(t, ComponentTemplatePath);
    assert At(r, StoriesTemplatePath) == At(t4, StoriesTemplatePath);
    assert At(t3, StoriesTemplatePath) == At(t, StoriesTemplatePath);
    assert At(r, StylesTemplatePath) == At(t5, StylesTemplatePath);
    assert At(t4, StylesTemplatePath) == At(t, StylesTemplatePath);
  }

  /** After add_plop the four generator files are fetched, package.json has
      the `generate` script, generators/templates is new, and nothing else
      changed; add_plop fails at once when generators/templates exists. */
  lemma PlopEffect(t: Tree, network: Network)
    ensures Templates in t.dirs ==> AfterPlop(t, network) == Err(FileExists(Templates))
    ensures var r := AfterPlop(t, network);
            r.Ok? ==>
              var package := ReadJson(t, PackageJson);
              && package.Ok? && AddGenerateScript(package.value).Ok?
              && At(r.value, PackageJson) == Some(JsonDoc(AddGenerateScript(package.value).value))
              && Fetched(t, r.value, network, PlopfileTemplate, PlopfilePath)
              && Fetched(t, r.value, network, ComponentTemplate, ComponentTemplatePath)
              && Fetched(t, r.value, network, StoriesTemplate, StoriesTemplatePath)
              && Fetched(t, r.value, network, StylesTemplate, StylesTemplatePath)
              && SameElsewhere(t, r.value, PlopWrites)
              && r.value.dirs == t.dirs + Prefixes(Templates)
  {
    var r := AfterPlop(t, network);
    if r.Ok? {
      var t1 := MakeDirs(t, Templates).value;
      var t2 := FetchFile(t1, network, PlopfileTemplate, PlopfilePath).value;
      var t3 := FetchFile(t2, network, ComponentTemplate, ComponentTemplatePath).value;
      var t4 := FetchFile(t3, network, StoriesTemplate, StoriesTemplatePath).value;
      var t5 := FetchFile(t4, network, StylesTemplate, StylesTemplatePath).value;
      var package := ReadJson(t5, PackageJson).value;
      var patched := AddGenerateScript(package).value;
      assert r == WriteFile(t5, PackageJson, JsonDoc(patched));
      PlopCompose(t, t1, t2, t3, t4, t5, r.value, network, patched);
    }
  }

  /** add_plop keeps the tree well formed. */
  lemma PlopValid(t: Tree, network: Network)
    requires Valid(t) && AfterPlop(t, network).Ok?
    ensures Valid(AfterPlop(t, network).value)
  {
    var t1 := MakeDirs(t, Templates).value;
    MakeDirsValid(t, Templates);
    var t2 := FetchFile(t1, network, PlopfileTemplate, PlopfilePath).value;
    FetchFileValid(t1, network, PlopfileTemplate, PlopfilePath);
    var t3 := FetchFile(t2, network, ComponentTemplate, ComponentTemplatePath).value;
    FetchFileValid(t2, network, ComponentTemplate, ComponentTemplatePath);
    var t4 := FetchFile(t3, network, StoriesTemplate, StoriesTemplatePath).value;
    FetchFileValid(t3, network, StoriesTemplate, StoriesTemplatePath);
    var t5 := FetchFile(t4, network, StylesTemplate, StylesTemplatePath).value;
    FetchFileValid(t4, network, StylesTemplate, StylesTemplatePath);
    var patched := AddGenerateScript(ReadJson(t5, PackageJson).value).value;
    WriteFileValid(t5, PackageJson, JsonDoc(patched));
  }

  // Running a step twice.

  /** The base project cannot be built over its own output: .vscode exists
      and pages/ is gone. */
  lemma BaseTwiceFails(t: Tree)
    requires AfterBase(t).Ok?
    ensures AfterBase(AfterBase(t).value).Err?
  {
    BaseEffect(t);
    BaseFailures(AfterBase(t).value);
    assert Pages !in AfterBase(t).value.dirs;
  }

  /** add_styled_components fails when run again: src/styles exists. */
  lemma StyledTwiceFails(t: Tree, network: Network)
    requires AfterStyled(t, network).Ok?
    ensures AfterStyled(AfterStyled(t, network).value, network).Err?
  {
    StyledEffect(t, network);
    assert SrcStyles in Prefixes(SrcStyles) by {
      assert SrcStyles[..2] == SrcStyles;
    }
    StyledFailures(AfterStyled(t, network).value, network);
  }

  /** add_plop fails when run again: generators/templates exists. */
  lemma PlopTwiceFails(t: Tree, network: Network)
    requires AfterPlop(t, network).Ok?
    ensures AfterPlop(AfterPlop(t, network).value, network) == Err(FileExists(Templates))
  {
    PlopEffect(t, network);
    assert Templates in Prefixes(Templates) by {
      assert Templates[..2] == Templates;
    }
    PlopEffect(AfterPlop(t, network).value, network);
  }

  // What __auto_create_next_app leaves in the tree.

  /** package.json lies outside everything the first half of the auto
      sequence writes or removes. */
  lemma SetupPathsDistinct()
    ensures PackageJson !in BaseWrites && !Under(PackageJson, Pages) && !Under(PackageJson, Styles)
    ensures PackageJson != EslintRc && PackageJson != CommitlintConfig && CommitlintConfig != EslintRc
  {
    DistinctHead(PackageJson, Pages);
    DistinctHead(PackageJson, Styles);
    DistinctHead(PackageJson, TsConfig);
    DistinctHead(PackageJson, EslintRc);
    DistinctHead(PackageJson, EditorConfig);
    DistinctHead(PackageJson, PrettierRc);
    DistinctHead(PackageJson, CommitlintConfig);
    DistinctHead(CommitlintConfig, EslintRc);
  }

  /** The first half of the auto sequence put together, on trees. */
  lemma SetupCompose(t: Tree, t1: Tree, t2: Tree, r: Tree, eslint: Json)
    requires forall p :: p !in BaseWrites ==>
               At(t1, p) == if Under(p, Pages) || Under(p, Styles) then None else At(t, p)
    requires t2 == Tree(t1.files[EslintRc := JsonDoc(eslint)], t1.dirs)
    requires r == Tree(t2.files[CommitlintConfig := Text(CommitlintText)], t2.dirs)
    ensures At(r, EslintRc) == Some(JsonDoc(eslint))
    ensures At(r, CommitlintConfig) == Some(Text(CommitlintText))
    ensures At(r, PackageJson) == At(t, PackageJson)
  {
    SetupPathsDistinct();
    assert At(r, PackageJson) == At(t1, PackageJson);
  }

  /** What the first half of the auto sequence leaves: .eslintrc.json with
      the base rules and the import helpers, the commitlint configuration,
      and package.json as it was. */
  lemma SetupEffect(t: Tree)
    ensures var r := AfterSetup(t);
            r.Ok? ==>
              var eslint := ReadJson(t, EslintRc);
              && eslint.Ok? && BaseEslint(eslint.value).Ok?
              && AddImportHelpers(BaseEslint(eslint.value).value).Ok?
              && At(r.value, EslintRc) == Some(JsonDoc(AddImportHelpers(BaseEslint(eslint.value).value).value))
              && At(r.value, CommitlintConfig) == Some(Text(CommitlintText))
              && At(r.value, PackageJson) == At(t, PackageJson)
  {
    var r := AfterSetup(t);
    if r.Ok? {
      var t1 := AfterBase(t).value;
      var t2 := AfterEslintImporter(t1).value;
      assert r == AfterCommitlint(t2);
      BaseEffect(t);
      var eslint := ReadJson(t, EslintRc).value;
      assert ReadJson(t1, EslintRc) == Ok(BaseEslint(eslint).value);
      ImportHelpersAfterBase(eslint);
      SetupCompose(t, t1, t2, r.value, AddImportHelpers(BaseEslint(eslint).value).value);
    }
  }

  /** The second half of the auto sequence put together, on trees. */
  lemma FeaturesCompose(t: Tree, t1: Tree, t2: Tree, r: Tree, package: Json)
    requires SameElsewhere(t, t1, StyledWrites) && t1.dirs == t.dirs + Prefixes(SrcStyles)
    requires forall p :: p != StorybookMainPath ==>
               At(t2, p) == if Under(p, SrcStories) then None else At(t1, p)
    requires t2.dirs == set q | q in t1.dirs && !Under(q, SrcStories)
    requires At(r, PackageJson) == Some(JsonDoc(package))
    requires SameElsewhere(t2, r, PlopWrites) && r.dirs == t2.dirs + Prefixes(Templates)
    ensures At(r, EslintRc) == At(t, EslintRc)
    ensures At(r, CommitlintConfig) == At(t, CommitlintConfig)
    ensures At(t2, PackageJson) == At(t, PackageJson)
    ensures SrcStyles in r.dirs && Templates in r.dirs
  {
    StyledPathsDistinct();
    PlopPathsDistinct();
    assert EslintRc !in StyledWrites && EslintRc !in PlopWrites by {
      DistinctHead(EslintRc, PlopfilePath);
      DistinctHead(EslintRc, PackageJson);
      DistinctHead(EslintRc, BabelRc);
      DistinctHead(EslintRc, StyledDtsPath);
    }
    assert CommitlintConfig !in StyledWrites && CommitlintConfig !in PlopWrites by {
      DistinctHead(CommitlintConfig, PackageJson);
      DistinctHead(CommitlintConfig, BabelRc);
      DistinctHead(CommitlintConfig, StyledDtsPath);
      DistinctHead(CommitlintConfig, PlopfilePath);
    }
    assert PackageJson !in StyledWrites && PackageJson != StorybookMainPath by {
      DistinctHead(PackageJson, StyledDtsPath);
      DistinctHead(PackageJson, BabelRc);
    }
    assert SrcStyles in Prefixes(SrcStyles) && !Under(SrcStyles, SrcStories) by {
      assert SrcStyles[..2] == SrcStyles;
      assert SrcStyles[1] != SrcStories[1];
    }
    assert Templates in Prefixes(Templates) by {
      assert Templates[..2] == Templates;
    }
  }

  /** What the second half of the auto sequence leaves: package.json with the
      `generate` script, .eslintrc.json and the commitlint configuration as
      they were, and the src/styles and generators/templates directories. */
  lemma FeaturesEffect(t: Tree, network: Network)
    ensures var r := AfterFeatures(t, network);
            r.Ok? ==>
              var package := ReadJson(t, PackageJson);
              && package.Ok? && AddGenerateScript(package.value).Ok?
              && At(r.value, PackageJson) == Some(JsonDoc(AddGenerateScript(package.value).value))
              && At(r.value, EslintRc) == At(t, EslintRc)
              && At(r.value, CommitlintConfig) == At(t, CommitlintConfig)
              && SrcStyles in r.value.dirs && Templates in r.value.dirs
  {
    var r := AfterFeatures(t, network);
    if r.Ok? {
      var t1 := AfterStyled(t, network).value;
      var t2 := AfterStorybook(t1, network).value;
      assert r == AfterPlop(t2, network);
      StyledEffect(t, network);
      StorybookEffect(t1, network);
      PlopEffect(t2, network);
      FeaturesCompose(t, t1, t2, r.value, AddGenerateScript(ReadJson(t2, PackageJson).value).value);
    }
  }

  /** A complete auto sequence leaves .eslintrc.json with the base rules and
      the import-helpers plugin, package.json with the `generate` script and
      no styled-engine alias, the commitlint configuration, and the
      src/styles and generators/templates directories. */
  lemma AutoEffect(t: Tree, network: Network)
    ensures var r := AfterAuto(t, network);
            r.Ok? ==>
              var eslint := ReadJson(t, EslintRc);
              var package := ReadJson(t, PackageJson);
              && eslint.Ok? && BaseEslint(eslint.value).Ok?
              && AddImportHelpers(BaseEslint(eslint.value).value).Ok?
              && At(r.value, EslintRc) == Some(JsonDoc(AddImportHelpers(BaseEslint(eslint.value).value).value))
              && package.Ok? && AddGenerateScript(package.value).Ok?
              && At(r.value, PackageJson) == Some(JsonDoc(AddGenerateScript(package.value).value))
              && At(r.value, CommitlintConfig) == Some(Text(CommitlintText))
              && SrcStyles in r.value.dirs && Templates in r.value.dirs
  {
    var r := AfterAuto(t, network);
    if r.Ok? {
      var t1 := AfterSetup(t).value;
      assert r == AfterFeatures(t1, network);
      SetupEffect(t);
      FeaturesEffect(t1, network);
    }
  }

  // A whole run of __run__.

  /** The tree after one step; add_material_ui leaves it as it is, since the
      name its alias block tests for is never installed (NeverStyledComponent). */
  function Apply(step: Step, t: Tree, network: Network): Result<Tree>
  {
    match step
    case Base => AfterBase(t)
    case EslintImporter => AfterEslintImporter(t)
    case Commitlint => AfterCommitlint(t)
    case StyledComponents => AfterStyled(t, network)
    case Storybook => AfterStorybook(t, network)
    case Plop => AfterPlop(t, network)
    case MaterialUi => Ok(t)
  }

  /** The steps one after another; the first exception ends the run. */
  function Perform(steps: seq<Step>, t: Tree, network: Network): Result<Tree>
    decreases |steps|
  {
    if steps == [] then Ok(t)
    else
      var t1 :- Apply(steps[0], t, network);
      Perform(steps[1..], t1, network)
  }

  /** The option steps of __run__: e, then s, then p, each when its letter
      occurs in the string. */
  function AfterOptions(t: Tree, network: Network, options: string): Result<Tree>
  {
    if |options| == 0 then Ok(t)
    else
      var t1 :- if 'e' in options then AfterEslintImporter(t) else Ok(t);
      var t2 :- if 's' in options then AfterStyled(t1, network) else Ok(t1);
      if 'p' in options then AfterPlop(t2, network) else Ok(t2)
  }

  /** The tree after __run__: the auto sequence or the base project, then the options. */
  function AfterRun(t: Tree, network: Network, auto: bool, options: string): Result<Tree>
  {
    var t1 :- if auto then AfterAuto(t, network) else AfterBase(t);
    AfterOptions(t1, network, options)
  }

  /** Running two lists of steps is running their concatenation. */
  lemma {:induction false} PerformAppend(first: seq<Step>, second: seq<Step>, t: Tree, network: Network)
    ensures var r := Perform(first, t, network);
            Perform(first + second, t, network) == if r.Err? then r else Perform(second, r.value, network)
    decreases |first|
  {
    if first == [] {
      assert first + second == second;
    } else {
      assert (first + second)[0] == first[0];
      assert (first + second)[1..] == first[1..] + second;
      var t1 := Apply(first[0], t, network);
      if t1.Ok? {
        PerformAppend(first[1..], second, t1.value, network);
      }
    }
  }

  /** One step on its own. */
  lemma PerformOne(step: Step, t: Tree, network: Network)
    ensures Perform([step], t, network) == Apply(step, t, network)
  {
    assert [step][1..] == [];
  }

  /** The auto sequence, step by step, is __auto_create_next_app. */
  lemma PerformAuto(t: Tree, network: Network)
    ensures Perform(AutoSteps, t, network) == AfterAuto(t, network)
  {
    var setup, features := [Base] + ([EslintImporter] + [Commitlint]), [StyledComponents] + ([Storybook] + ([Plop] + [MaterialUi]));
    assert AutoSteps == setup + features;
    PerformAppend(setup, features, t, network);
    PerformSetup(t, network);
    var r := AfterSetup(t);
    if r.Ok? {
      PerformFeatures(r.value, network);
    }
  }

  /** The first half of the auto sequence, step by step. */
  lemma PerformSetup(t: Tree, network: Network)
    ensures Perform([Base] + ([EslintImporter] + [Commitlint]), t, network) == AfterSetup(t)
  {
    PerformThree([Base], [EslintImporter], [Commitlint], t, network);
    PerformOne(Base, t, network);
    SetupApply(t, network);
    var r1 := AfterBase(t);
    if r1.Ok? {
      PerformOne(EslintImporter, r1.value, network);
      SetupApply(r1.value, network);
      var r2 := AfterEslintImporter(r1.value);
      if r2.Ok? {
        PerformOne(Commitlint, r2.value, network);
        SetupApply(r2.value, network);
      }
    }
  }

  /** What each set-up step does to a tree. */
  lemma SetupApply(t: Tree, network: Network)
    ensures Apply(Base, t, network) == AfterBase(t)
    ensures Apply(EslintImporter, t, network) == AfterEslintImporter(t)
    ensures Apply(Commitlint, t, network) == AfterCommitlint(t)
  {
  }

  /** The second half of the auto sequence, step by step. */
  lemma PerformFeatures(t: Tree, network: Network)
    ensures Perform([StyledComponents] + ([Storybook] + ([Plop] + [MaterialUi])), t, network)
            == AfterFeatures(t, network)
  {
    PerformFour(StyledComponents, Storybook, Plop, MaterialUi, t, network);
    FeaturesByStep(t, network);
  }

  /** The second half of the auto sequence is its four steps, applied in turn. */
  lemma FeaturesByStep(t: Tree, network: Network)
    ensures AfterFeatures(t, network)
            == var t1 :- Apply(StyledComponents, t, network);
               var t2 :- Apply(Storybook, t1, network);
               var t3 :- Apply(Plop, t2, network);
               Apply(MaterialUi, t3, network)
  {
    FeatureApply(t, network);
    var r1 := AfterStyled(t, network);
    if r1.Ok? {
      FeatureApply(r1.value, network);
      var r2 := AfterStorybook(r1.value, network);
      if r2.Ok? {
        FeatureApply(r2.value, network);
        var r3 := AfterPlop(r2.value, network);
        if r3.Ok? {
          FeatureApply(r3.value, network);
        }
      }
    }
  }

  /** What each feature step does to a tree. */
  lemma FeatureApply(t: Tree, network: Network)
    ensures Apply(StyledComponents, t, network) == AfterStyled(t, network)
    ensures Apply(Storybook, t, network) == AfterStorybook(t, network)
    ensures Apply(Plop, t, network) == AfterPlop(t, network)
    ensures Apply(MaterialUi, t, network) == Ok(t)
  {
  }

  /** Four steps one after another, whatever they are. */
  lemma PerformFour(a: Step, b: Step, c: Step, d: Step, t: Tree, network: Network)
    ensures Perform([a] + ([b] + ([c] + [d])), t, network)
            == var t1 :- Apply(a, t, network);
               var t2 :- Apply(b, t1, network);
               var t3 :- Apply(c, t2, network);
               Apply(d, t3, network)
  {
    PerformAppend([a], [b] + ([c] + [d]), t, network);
    PerformOne(a, t, network);
    var r1 := Apply(a, t, network);
    if r1.Ok? {
      PerformAppend([b], [c] + [d], r1.value, network);
      PerformOne(b, r1.value, network);
      var r2 := Apply(b, r1.value, network);
      if r2.Ok? {
        PerformAppend([c], [d], r2.value, network);
        PerformOne(c, r2.value, network);
        var r3 := Apply(c, r2.value, network);
        if r3.Ok? {
          PerformOne(d, r3.value, network);
        }
      }
    }
  }

  /** The option steps, step by step, are the option part of __run__. */
  lemma PerformOptions(t: Tree, network: Network, options: string)
    ensures Perform(OptionSteps(options), t, network) == AfterOptions(t, network, options)
  {
    if |options| > 0 {
      var e := if 'e' in options then [EslintImporter] else [];
      var s := if 's' in options then [StyledComponents] else [];
      var p := if 'p' in options then [Plop] else [];
      assert OptionSteps(options) == e + (s + p);
      PerformThree(e, s, p, t, network);
      PerformOptional('e' in options, EslintImporter, t, network);
      SetupApply(t, network);
      var r1 := Perform(e, t, network);
      if r1.Ok? {
        PerformOptional('s' in options, StyledComponents, r1.value, network);
        FeatureApply(r1.value, network);
        var r2 := Perform(s, r1.value, network);
        if r2.Ok? {
          PerformOptional('p' in options, Plop, r2.value, network);
          FeatureApply(r2.value, network);
        }
      }
    }
  }

  /** Three runs of steps one after another, whatever they hold. */
  lemma PerformThree(first: seq<Step>, second: seq<Step>, third: seq<Step>, t: Tree, network: Network)
    ensures Perform(first + (second + third), t, network)
            == var t1 :- Perform(first, t, network);
               var t2 :- Perform(second, t1, network);
               Perform(third, t2, network)
  {
    PerformAppend(first, second + third, t, network);
    var r1 := Perform(first, t, network);
    if r1.Ok? {
      PerformAppend(second, third, r1.value, network);
    }
  }

  /** A step that runs only when selected. */
  lemma PerformOptional(selected: bool, step: Step, t: Tree, network: Network)
    ensures Perform(if selected then [step] else [], t, network)
            == if selected then Apply(step, t, network) else Ok(t)
  {
    if selected {
      PerformOne(step, t, network);
    }
  }

  /** __run__ performs exactly the steps of its plan, in order: the tree it
      leaves, or the exception it stops at, is that of the plan's steps. */
  lemma RunFollowsPlan(t: Tree, network: Network, auto: bool, options: string)
    ensures AfterRun(t, network, auto, options) == Perform(Plan(auto, options), t, network)
  {
    var head := if auto then AutoSteps else [Base];
    PerformAppend(head, OptionSteps(options), t, network);
    if auto {
      PerformAuto(t, network);
    } else {
      PerformOne(Base, t, network);
    }
    var r := if auto then AfterAuto(t, network) else AfterBase(t);
    if r.Ok? {
      PerformOptions(r.value, network, options);
    }
  }

  /** An auto run with option s or p always ends in an exception: the auto
      sequence already created src/styles and generators/templates, and
      os.makedirs raises on an existing directory. */
  lemma AutoRunWithOptionFails(t: Tree, network: Network, options: string)
    requires 's' in options || 'p' in options
    ensures AfterRun(t, network, true, options).Err?
  {
    var first := AfterAuto(t, network);
    if first.Ok? {
      AutoEffect(t, network);
      var t1 := if 'e' in options then AfterEslintImporter(first.value) else Ok(first.value);
      if t1.Ok? {
        assert t1.value.dirs == first.value.dirs;
        if 's' in options {
          StyledFailures(t1.value, network);
        } else {
          PlopEffect(t1.value, network);
        }
      }
    }
  }

  /** An auto run with option e and no other option runs the importer a second
      time on the configuration the auto sequence left: `plugins` ends up
      holding the import-helpers plugin twice. */
  lemma AutoRunWithEslintTwice(t: Tree, network: Network, options: string)
    requires 'e' in options && 's' !in options && 'p' !in options
    ensures var r := AfterRun(t, network, true, options);
            r.Ok? ==>
              var eslint := ReadJson(t, EslintRc);
              && eslint.Ok? && BaseEslint(eslint.value).Ok?
              && var once := AddImportHelpers(BaseEslint(eslint.value).value);
              && once.Ok? && AddImportHelpers(once.value).Ok?
              && var twice := AddImportHelpers(once.value).value;
              && At(r.value, EslintRc) == Some(JsonDoc(twice))
              && twice.fields["plugins"] == Arr([Str(ImportHelpersPlugin), Str(ImportHelpersPlugin)])
  {
    var r := AfterRun(t, network, true, options);
    if r.Ok? {
      var first := AfterAuto(t, network).value;
      AutoEffect(t, network);
      var eslint := ReadJson(t, EslintRc).value;
      var base := BaseEslint(eslint).value;
      ImportHelpersAfterBase(eslint);
      ImportHelpersTwice(base);
      assert r == AfterEslintImporter(first);
      assert base.fields["plugins"].items == [];
    }
  }
}

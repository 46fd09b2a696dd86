/** The edits each feature makes to a loaded JSON configuration before it is
    written back: .eslintrc.json, tsconfig.json, .babelrc and package.json.
    Each edit fails exactly where the Python item access or `append` would raise. */
module Configs {
  import opened Errors
  import opened Json

  // .eslintrc.json after base_create_next

  const BaseRules: map<string, Json> := map[
    "react/prop-types" := Str("off"),
    "react/react-in-js-scope" := Str("off"),
    "@typescript-eslint/explicit-module-boundary-types" := Str("off")]

  const ReactSettings: Json := Obj(map["react" := Obj(map["version" := Str("detect")])])

  const BaseExtends: seq<Json> := [Str("next/core-web-vitals"), Str("plugin:prettier/recommended")]

  const BaseKeys: set<string> := {"rules", "settings", "extends", "plugins"}

  /** base_create_next: `rules`, `settings`, `extends` and `plugins` are replaced. */
  function BaseEslint(config: Json): (r: Result<Json>)
    ensures r.Ok? <==> config.Obj?
    ensures r.Err? ==> r.error == WrongType("rules")
  {
    if !config.Obj? then Err(WrongType("rules"))
    else
      Ok(Obj(config.fields["rules" := Obj(BaseRules)]
                          ["settings" := ReactSettings]
                          ["extends" := Arr(BaseExtends)]
                          ["plugins" := Arr([])]))
  }

  /** The replaced keys hold the base values, and every other key is kept. */
  lemma BaseEslintResult(config: Json)
    requires BaseEslint(config).Ok?
    ensures var r := BaseEslint(config).value; r.Obj? && r.fields.Keys == config.fields.Keys + BaseKeys
    ensures var r := BaseEslint(config).value; r.fields["rules"] == Obj(BaseRules)
    ensures var r := BaseEslint(config).value; r.fields["settings"] == ReactSettings
    ensures var r := BaseEslint(config).value; r.fields["extends"] == Arr(BaseExtends)
    ensures var r := BaseEslint(config).value; r.fields["plugins"] == Arr([])
    ensures var r := BaseEslint(config).value; KeepsOthers(config.fields, r.fields, BaseKeys)
  {
  }

  /** The base configuration switches off three distinct rules. */
  lemma BaseRulesOff()
    ensures |BaseRules| == 3
    ensures forall rule :: rule in BaseRules ==> BaseRules[rule] == Str("off")
  {
  }

  // tsconfig.json after base_create_next

  /** `tsconfig_json['compilerOptions']['baseUrl'] = "src"`. */
  function SetBaseUrl(tsconfig: Json): (r: Result<Json>)
    ensures r.Ok? <==> tsconfig.Obj? && "compilerOptions" in tsconfig.fields
                       && tsconfig.fields["compilerOptions"].Obj?
  {
    var options :- Get(tsconfig, "compilerOptions");
    if !options.Obj? then Err(WrongType("baseUrl"))
    else Ok(Obj(tsconfig.fields["compilerOptions" := Obj(options.fields["baseUrl" := Str("src")])]))
  }

  /** Only `compilerOptions.baseUrl` changes. */
  lemma SetBaseUrlResult(tsconfig: Json)
    requires SetBaseUrl(tsconfig).Ok?
    ensures var r := SetBaseUrl(tsconfig).value;
            && r.Obj? && r.fields.Keys == tsconfig.fields.Keys
            && KeepsOthers(tsconfig.fields, r.fields, {"compilerOptions"})
    ensures var r := SetBaseUrl(tsconfig).value;
            var before := tsconfig.fields["compilerOptions"].fields;
            var after := r.fields["compilerOptions"];
            && after.Obj? && after.fields.Keys == before.Keys + {"baseUrl"}
            && after.fields["baseUrl"] == Str("src")
            && KeepsOthers(before, after.fields, {"baseUrl"})
  {
  }

  // .eslintrc.json after add_eslint_importer

  const ImportHelpersPlugin: string := "eslint-plugin-import-helpers"

  const ImportOrderRule: string := "import-helpers/order-imports"

  const ImportOrderSetting: Json := Arr([
    Str("warn"),
    Obj(map[
      "newlinesBetween" := Str("always"),
      "groups" := Arr([Str("module"), Str("/^@shared/"),
                       Arr([Str("parent"), Str("sibling"), Str("index")])]),
      "alphabetize" := Obj(map["order" := Str("asc"), "ignoreCase" := Bool(true)])])])

  /** add_eslint_importer: the plugin goes at the end of `plugins` and one rule is set. */
  function AddImportHelpers(config: Json): (r: Result<Json>)
    ensures r.Ok? <==> && config.Obj?
                       && "plugins" in config.fields && config.fields["plugins"].Arr?
                       && "rules" in config.fields && config.fields["rules"].Obj?
  {
    var plugins :- Get(config, "plugins");
    if !plugins.Arr? then Err(WrongType("plugins"))
    else
      var rules :- Get(config, "rules");
      if !rules.Obj? then Err(WrongType(ImportOrderRule))
      else
        Ok(Obj(config.fields["plugins" := Arr(plugins.items + [Str(ImportHelpersPlugin)])]
                            ["rules" := Obj(rules.fields[ImportOrderRule := ImportOrderSetting])]))
  }

  /** The plugin is appended after the existing ones and the order rule is set; nothing else changes. */
  lemma AddImportHelpersResult(config: Json)
    requires AddImportHelpers(config).Ok?
    ensures var r := AddImportHelpers(config).value;
            && r.Obj? && r.fields.Keys == config.fields.Keys
            && KeepsOthers(config.fields, r.fields, {"plugins", "rules"})
    ensures var r := AddImportHelpers(config).value;
            var before := config.fields["plugins"].items;
            var after := r.fields["plugins"];
            && after.Arr? && |after.items| == |before| + 1
            && after.items[..|before|] == before
            && after.items[|before|] == Str(ImportHelpersPlugin)
    ensures var r := AddImportHelpers(config).value;
            var before := config.fields["rules"].fields;
            var after := r.fields["rules"];
            && after.Obj? && after.fields.Keys == before.Keys + {ImportOrderRule}
            && after.fields[ImportOrderRule] == ImportOrderSetting
            && KeepsOthers(before, after.fields, {ImportOrderRule})
  {
  }

  // .babelrc after add_styled_components

  const StyledPluginName: string := "babel-plugin-styled-components"

  /** One `[name, {ssr, displayName}]` entry of a Babel plugin list. */
  function StyledPlugin(enabled: bool): Json
  {
    Arr([Str(StyledPluginName), Obj(map["ssr" := Bool(enabled), "displayName" := Bool(enabled)])])
  }

  const BabelPresets: Json := Arr([Str("next/babel"), Str("@babel/preset-typescript")])

  const BabelKeys: set<string> := {"presets", "plugins", "env"}

  /** add_styled_components: `presets`, `plugins` and `env` are replaced; the
      plugin is on (ssr and displayName true) except under `env.test`. */
  function StyledBabel(babel: Json): (r: Result<Json>)
    ensures r.Ok? <==> babel.Obj?
    ensures r.Err? ==> r.error == WrongType("presets")
  {
    if !babel.Obj? then Err(WrongType("presets"))
    else
      Ok(Obj(babel.fields["presets" := BabelPresets]
                         ["plugins" := Arr([StyledPlugin(true)])]
                         ["env" := Obj(map["test" := Obj(map["plugins" := Arr([StyledPlugin(false)])])])]))
  }

  /** The three replaced keys hold the styled-components setup; every other key is kept. */
  lemma StyledBabelResult(babel: Json)
    requires StyledBabel(babel).Ok?
    ensures var r := StyledBabel(babel).value;
            && r.Obj? && r.fields.Keys == babel.fields.Keys + BabelKeys
            && KeepsOthers(babel.fields, r.fields, BabelKeys)
    ensures var r := StyledBabel(babel).value; r.fields["presets"] == BabelPresets
    ensures var r := StyledBabel(babel).value; r.fields["plugins"] == Arr([StyledPlugin(true)])
    ensures var r := StyledBabel(babel).value; r.fields["env"] == Obj(map["test" := Obj(map["plugins" := Arr([StyledPlugin(false)])])])
  {
  }

  // package.json after add_plop and add_material_ui

  const GenerateScript: string := "yarn plop --plopfile generators/plopfile.js"

  /** add_plop: `package_json["scripts"]["generate"]` is set. */
  function AddGenerateScript(package: Json): (r: Result<Json>)
    ensures r.Ok? <==> package.Obj? && "scripts" in package.fields && package.fields["scripts"].Obj?
  {
    var scripts :- Get(package, "scripts");
    if !scripts.Obj? then Err(WrongType("generate"))
    else Ok(Obj(package.fields["scripts" := Obj(scripts.fields["generate" := Str(GenerateScript)])]))
  }

  /** Only `scripts.generate` changes. */
  lemma AddGenerateScriptResult(package: Json)
    requires AddGenerateScript(package).Ok?
    ensures var r := AddGenerateScript(package).value;
            && r.Obj? && r.fields.Keys == package.fields.Keys
            && KeepsOthers(package.fields, r.fields, {"scripts"})
    ensures var r := AddGenerateScript(package).value;
            var before := package.fields["scripts"].fields;
            var after := r.fields["scripts"];
            && after.Obj? && after.fields.Keys == before.Keys + {"generate"}
            && after.fields["generate"] == Str(GenerateScript)
            && KeepsOthers(before, after.fields, {"generate"})
  {
  }

  const StyledEngineAlias: Json := Obj(map["@mui/styled-engine" := Str("@mui/styled-engine-sc")])

  /** add_material_ui: `alias` is replaced by the styled-engine mapping. */
  function AliasStyledEngine(package: Json): (r: Result<Json>)
    ensures r.Ok? <==> package.Obj?
  {
    if !package.Obj? then Err(WrongType("alias"))
    else Ok(Obj(package.fields["alias" := StyledEngineAlias]))
  }

  /** Only `alias` changes. */
  lemma AliasStyledEngineResult(package: Json)
    requires AliasStyledEngine(package).Ok?
    ensures var r := AliasStyledEngine(package).value;
            && r.Obj? && r.fields.Keys == package.fields.Keys + {"alias"}
            && r.fields["alias"] == StyledEngineAlias
            && KeepsOthers(package.fields, r.fields, {"alias"})
  {
  }

  // How the edits combine

  /** Re-running base_create_next's edit on its own output changes nothing more. */
  lemma BaseEslintIdempotent(config: Json)
    requires BaseEslint(config).Ok?
    ensures BaseEslint(BaseEslint(config).value) == BaseEslint(config)
  {
    var once := BaseEslint(config).value;
    assert BaseEslint(once).value.fields == once.fields;
  }

  lemma SetBaseUrlIdempotent(tsconfig: Json)
    requires SetBaseUrl(tsconfig).Ok?
    ensures SetBaseUrl(SetBaseUrl(tsconfig).value) == SetBaseUrl(tsconfig)
  {
    var once := SetBaseUrl(tsconfig).value;
    assert SetBaseUrl(once).value.fields["compilerOptions"] == once.fields["compilerOptions"];
    assert SetBaseUrl(once).value.fields == once.fields;
  }

  lemma StyledBabelIdempotent(babel: Json)
    requires StyledBabel(babel).Ok?
    ensures StyledBabel(StyledBabel(babel).value) == StyledBabel(babel)
  {
    var once := StyledBabel(babel).value;
    assert StyledBabel(once).value.fields == once.fields;
  }

  lemma AddGenerateScriptIdempotent(package: Json)
    requires AddGenerateScript(package).Ok?
    ensures AddGenerateScript(AddGenerateScript(package).value) == AddGenerateScript(package)
  {
    var once := AddGenerateScript(package).value;
    assert AddGenerateScript(once).value.fields["scripts"] == once.fields["scripts"];
    assert AddGenerateScript(once).value.fields == once.fields;
  }

  /** The importer is not idempotent: run twice (an auto run with option `e`)
      it appends the plugin twice, while the rule is set to the same value. */
  lemma ImportHelpersTwice(config: Json)
    requires AddImportHelpers(config).Ok?
    ensures var once := AddImportHelpers(config).value;
            var twice := AddImportHelpers(once);
            && twice.Ok?
            && twice.value.fields["plugins"].items
               == config.fields["plugins"].items + [Str(ImportHelpersPlugin), Str(ImportHelpersPlugin)]
            && twice.value.fields["rules"] == once.fields["rules"]
  {
    var before := config.fields["plugins"].items;
    var once := AddImportHelpers(config).value;
    var twice := AddImportHelpers(once).value;
    var mid := once.fields["plugins"].items;
    assert mid == before + [Str(ImportHelpersPlugin)];
    assert twice.fields["plugins"].items == mid + [Str(ImportHelpersPlugin)];
  }

  /** After base_create_next the importer cannot fail, and leaves exactly one
      plugin and the three base rules plus its own. */
  lemma ImportHelpersAfterBase(config: Json)
    requires config.Obj?
    ensures var next := AddImportHelpers(BaseEslint(config).value);
            && next.Ok?
            && next.value.fields["plugins"] == Arr([Str(ImportHelpersPlugin)])
            && next.value.fields["rules"].fields.Keys == BaseRules.Keys + {ImportOrderRule}
  {
    var base := BaseEslint(config).value;
    assert base.fields["plugins"].items == [];
  }

  /** add_plop and add_material_ui touch disjoint keys of package.json, so
      their order does not matter. */
  lemma ScriptAndAliasCommute(package: Json)
    requires AddGenerateScript(package).Ok?
    ensures AliasStyledEngine(package).Ok?
    ensures AddGenerateScript(AliasStyledEngine(package).value).Ok?
    ensures AliasStyledEngine(AddGenerateScript(package).value)
            == AddGenerateScript(AliasStyledEngine(package).value)
  {
    var scripts := package.fields["scripts"];
    var generated := Obj(scripts.fields["generate" := Str(GenerateScript)]);
    assert package.fields["alias" := StyledEngineAlias]["scripts"] == scripts;
    assert package.fields["scripts" := generated]["alias" := StyledEngineAlias]
        == package.fields["alias" := StyledEngineAlias]["scripts" := generated];
  }
}

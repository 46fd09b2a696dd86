# auto_builder `CreateApp`, modelled in Dafny

`CreateApp` scaffolds a Next.js project. It runs `yarn create next-app`, then
layers features onto the project by rewriting its configuration files. The
features are ESLint import helpers, styled-components, Storybook, Plop and
Material UI. This project models the feature-composition layer of
`src/create_app.py`:

- `__run__` decides which steps run: the auto sequence or the base project,
  then the `e`, `s` and `p` options.
- `__auto_create_next_app` fixes the order of the auto sequence.
- Every `add_*` step appends the name of its feature to `installed`, and
  `add_material_ui` reads that list back.
- The read-modify-write edits of `.eslintrc.json`, `tsconfig.json`, `.babelrc`
  and `package.json`.
- `create_file_by_text_fromUrl`, which writes a file only on HTTP status 200.

Modules:

- `Errors`: paths, the fixed remote addresses, and the exceptions a run can
  raise, collected in a `Result` type.
- `Json`: JSON values as `json.load` returns them, and Python's
  `value[key]` on them.
- `Disk`: the project directory as a map from path to content plus a set of
  directories. It gives `open`/`json.load`, `open(…, 'w')`, `os.makedirs` and
  `shutil.rmtree` as functions that fail the way Python raises. A well-formed
  tree is an invariant that every operation keeps.
- `Fetch`: `requests.get` seen as a network input, mapping each address to a
  status and a body, and the inline fetch with a built-in fallback.
- `Configs`: each JSON edit as a function, with what it changes and what it
  keeps, and how the edits combine.
- `Steps`: what each step of the scaffolder leaves in the tree, as a function
  of the tree before it. Also a reference semantics: `Perform` runs a list of
  steps, and `__run__` is proved to perform exactly its plan.
- `Dispatch`: which steps a run performs, in which order, and the names they
  append to `installed`.
- `CreateApp`: the class `App`. It has the project directory `disk`, the
  `installed` list, a log of shell commands and a log of pages opened in the
  browser. Each log entry is a `Command`, and `Line` gives the shell line it
  stands for. `Run` stands for `__run__`. `Shell` stands for `os.system`, and
  `FetchToFile` for `create_file_by_text_fromUrl`. `BaseCreateNext`,
  `AddEslintImporter`, `AddStyledComponents`, `AddStorybook`, `AddPlop`,
  `AddMaterialUi` and `AutoCreateNextApp` stand for the Python methods of
  the same names. The remaining methods split a Python method into its
  parts:
  - `base_create_next` splits into `WriteBaseConfig`, `ArrangeSourceLayout`
    and `PointTsConfigAtSrc`.
  - `add_styled_components` splits into `WriteStyledBabel`,
    `FetchStyledPages` and `WriteStyleModules`.
  - `__auto_create_next_app` splits into `SetUpProject` (the base project,
    the import helpers, commitlint) and `AddFeatures` (styled-components,
    Storybook, Plop, Material UI).
  - The `try` block of `__run__` splits into `CreateProject` (the auto
    sequence or the base project) and `ApplyOptions` (the option block).

  Each step method (every method except `Run`, `Shell` and the constructor)
  is proved against its `Steps` function: it raises exactly when that
  function fails, with the same exception, and on success leaves the tree the
  function computes. `Run` returns the status instead: 0 exactly when the
  sub-command is given and `AfterRun` succeeds. `Shell` only appends to the
  command log, and the constructor sets up the initial state.

Behaviour the model takes from the code, where a reading of the feature
design would suggest otherwise:

- Options always run in the fixed order e, s, p. The order and repetition of
  letters in the string do not matter. Options also run after an auto run, so
  `-a -o e` appends the import-helpers plugin twice.
- `add_material_ui` tests for the exact name `"Styled Component"`. No step
  appends that name (`add_styled_components` appends `"Styled Components"`),
  so the `alias` block of `package.json` is never written and
  `@mui/styled-engine` is never installed.
- `create_file_by_text_fromUrl` writes nothing on a status other than 200:
  there is no fallback text for these files. Only `global.ts` and `theme.ts`
  have a built-in fallback. A `requests.get` that raises is not caught: it
  ends the run.
- Every exception that escapes a step ends the run with status 1. No step is
  skipped and the run does not continue. Two exceptions are caught inside
  their steps. A failed first load of `.eslintrc.json` installs eslint, runs
  `eslint --init` and loads the file again. A failed load of `.babelrc`
  starts from an empty object. `os.makedirs` has no `exist_ok`, so an existing
  directory is fatal. As a result, an auto run with option `s` or `p` always
  fails, because the auto sequence already created `src/styles` and
  `generators/templates`.

## Model

| member | source | states |
|---|---|---|
| Fetch.TextOr | src/create_app.py:256-294 | The inline fetch of global.ts and theme.ts raises exactly when the address is unreachable. Otherwise it gives the body on status 200 and the built-in fallback on any other status. |
| Disk.ReadJson | src/create_app.py:109-110 | open and json.load succeed exactly when the path holds a JSON document, and return that document. A path that is neither a file nor a directory raises FileNotFound. |
| Disk.WriteFile | src/create_app.py:168-171 | open(p, 'w') succeeds exactly when p is not a directory and its parent directory exists. The result maps p to the new content and changes nothing else. |
| Disk.MakeDirs | src/create_app.py:159 | os.makedirs adds p and all its ancestors as directories, files unchanged. An existing directory raises FileExists. |
| Disk.MakeDirsSucceeds | src/create_app.py:173 | os.makedirs succeeds exactly when p is new and no file stands where p or an ancestor should be. |
| Disk.RemoveTree | src/create_app.py:174-175 | shutil.rmtree succeeds exactly when p is a directory. The directories below p go and every other directory stays. |
| Disk.RemoveTreeFiles | src/create_app.py:322 | After shutil.rmtree no file under p remains and every other file is unchanged. |
| Disk.WriteFileValid | src/create_app.py:168-171 | A write keeps the tree well formed. |
| Disk.MakeDirsValid | src/create_app.py:173 | os.makedirs keeps the tree well formed. |
| Disk.RemoveTreeValid | src/create_app.py:174-175 | shutil.rmtree keeps the tree well formed. |
| Configs.BaseEslint | src/create_app.py:131-141 | The base edit of .eslintrc.json succeeds exactly when the loaded value is an object, and otherwise raises at `rules`. |
| Configs.BaseEslintResult | src/create_app.py:131-141 | rules, settings, extends and plugins hold exactly the base values (plugins empty). Every other top-level key is kept with its value, and no key is dropped. |
| Configs.BaseRulesOff | src/create_app.py:131-134 | The base rules are three distinct rules, all "off". |
| Configs.SetBaseUrl | src/create_app.py:176-179 | The tsconfig edit succeeds exactly when compilerOptions exists and is an object. |
| Configs.SetBaseUrlResult | src/create_app.py:179 | Only compilerOptions.baseUrl changes, to "src". Every other top-level key and every other compiler option is kept. |
| Configs.AddImportHelpers | src/create_app.py:206-207 | The importer edit succeeds exactly when plugins is a list and rules an object. |
| Configs.AddImportHelpersResult | src/create_app.py:193-207 | plugins grows by exactly one entry, with the old entries unchanged and the import-helpers plugin last. rules gains exactly the order-imports rule, and every other rule and top-level key is kept. |
| Configs.StyledBabel | src/create_app.py:233-235 | The .babelrc edit succeeds exactly when the value is an object, and otherwise raises at `presets`. |
| Configs.StyledBabelResult | src/create_app.py:233-235 | presets, plugins and env hold the fixed values: ssr and displayName are true in plugins and false under env.test. Every other key is kept. |
| Configs.AddGenerateScript | src/create_app.py:353 | The package.json edit succeeds exactly when scripts exists and is an object. |
| Configs.AddGenerateScriptResult | src/create_app.py:353 | Only scripts.generate changes, to the plop command. Every other script and key is kept. |
| Configs.AliasStyledEngine | src/create_app.py:365-367 | The alias edit succeeds exactly when package.json holds an object. |
| Configs.AliasStyledEngineResult | src/create_app.py:365-367 | alias is replaced by the styled-engine mapping, and every other key is kept. |
| Configs.BaseEslintIdempotent | src/create_app.py:131-141 | The base ESLint edit applied to its own output changes nothing. |
| Configs.SetBaseUrlIdempotent | src/create_app.py:179 | The baseUrl edit applied to its own output changes nothing. |
| Configs.StyledBabelIdempotent | src/create_app.py:233-235 | The .babelrc edit applied to its own output changes nothing. |
| Configs.AddGenerateScriptIdempotent | src/create_app.py:353 | The generate-script edit applied to its own output changes nothing. |
| Configs.ImportHelpersTwice | src/create_app.py:206-207 | The importer edit is not idempotent. Run twice, it appends the plugin twice and leaves rules as after one run. |
| Configs.ImportHelpersAfterBase | src/create_app.py:206-207 | After the base edit the importer cannot fail. It leaves exactly one plugin, and the three base rules plus its own. |
| Configs.ScriptAndAliasCommute | src/create_app.py:353-367 | The add_plop and add_material_ui edits touch disjoint keys of package.json, so applying them in either order gives the same result. |
| Steps.FetchFile | src/create_app.py:214-222 | create_file_by_text_fromUrl raises when the address is unreachable. On status 200 it writes the body to the target, and on any other status it leaves the tree unchanged. Every other path is kept. |
| Steps.FetchFileValid | src/create_app.py:214-222 | The fetch keeps the tree well formed. |
| Steps.BaseConfigFiles | src/create_app.py:108-171 | The configuration part of base_create_next, in source order: load .eslintrc.json, write .editorconfig, apply the base edit, write .prettierrc, create .vscode, write .eslintrc.json and .vscode/settings.json. The first exception stops it. Its meaning is stated by Steps.BaseConfigFailures, Steps.BaseConfigWrites and Steps.BaseConfigFrame. |
| Steps.AfterBase | src/create_app.py:102-181 | The tree after base_create_next: the configuration part, then the source layout, then tsconfig.json, stopping at the first exception. Its meaning is stated by Steps.BaseEffect, Steps.BaseFailures, Steps.BaseValid and Steps.BaseTwiceFails. |
| Steps.StyledBabelRc | src/create_app.py:227-237 | The .babelrc part of add_styled_components: the Babel edit of the loaded document (Steps.LoadBabel), written back. Its meaning is stated by Steps.StyledEffect and Steps.StyledFailures. |
| Steps.StyledPages | src/create_app.py:241-252 | The page part of add_styled_components: _document.tsx, then _app.tsx, fetched into src/pages (Steps.FetchFile). Its meaning is stated by Steps.StyledEffect. |
| Steps.StyledModules | src/create_app.py:254-310 | The style part of add_styled_components: create src/styles, write global.ts and theme.ts from the fetch or the fallback (Fetch.TextOr), then the type declaration. Its meaning is stated by Steps.StyledEffect and Steps.StyledFailures. |
| Steps.AfterStyled | src/create_app.py:225-310 | The tree after add_styled_components: its .babelrc, page and style parts in order. Its meaning is stated by Steps.StyledEffect, Steps.StyledFailures, Steps.StyledValid and Steps.StyledTwiceFails. |
| Steps.AfterStorybook | src/create_app.py:314-323 | The tree after add_storybook: main.js fetched, then src/stories removed. Its meaning is stated by Steps.StorybookEffect and Steps.StorybookValid. |
| Steps.AfterPlop | src/create_app.py:325-357 | The tree after add_plop: generators/templates created, four templates fetched, then package.json given the generate script. Its meaning is stated by Steps.PlopEffect, Steps.PlopValid and Steps.PlopTwiceFails. |
| Steps.AfterSetup | src/create_app.py:85-91 | The first half of __auto_create_next_app: the base project, the import helpers, then commitlint.config.js. Its meaning is stated by Steps.SetupEffect and Steps.PerformSetup. |
| Steps.AfterFeatures | src/create_app.py:94-97 | The second half of __auto_create_next_app: styled-components, Storybook, then Plop. Material UI leaves the tree as it is. Its meaning is stated by Steps.FeaturesEffect and Steps.PerformFeatures. |
| Steps.AfterAuto | src/create_app.py:85-97 | The tree after __auto_create_next_app: the first half, then the second. Its meaning is stated by Steps.AutoEffect and Steps.PerformAuto. |
| Steps.AfterOptions | src/create_app.py:59-65 | The option block of __run__: nothing for an empty string, else the importer, styled-components and Plop, each when its letter occurs, in that order. Its meaning is stated by Steps.PerformOptions. |
| Steps.AfterRun | src/create_app.py:53-65 | The tree after the try block of __run__: the auto sequence or the base project, then the options. Its meaning is stated by Steps.RunFollowsPlan, Steps.AutoRunWithOptionFails and Steps.AutoRunWithEslintTwice. |
| Steps.Apply | src/create_app.py:53-97 | The tree after one step: each step's After function, with Material UI leaving the tree as it is (Dispatch.NeverStyledComponent). Its meaning is stated by Steps.PerformSetup, Steps.PerformFeatures, Steps.PerformOptions and Steps.RunFollowsPlan: performing the plan's steps with Apply gives the source-shaped AfterRun. Dispatch.NeverStyledComponent justifies the Material UI arm. |
| Steps.Perform | src/create_app.py:50-68 | Steps run one after another, and the first exception ends the run. Its meaning is stated by Steps.PerformAppend and Steps.RunFollowsPlan. |
| Steps.BaseLayout | src/create_app.py:173-175 | Creating src/pages and removing pages/ and styles/ fails when either directory is missing. On success exactly the files under them are gone, and the directories are the old ones plus src/pages, minus the removed trees. |
| Steps.BaseTsConfig | src/create_app.py:176-181 | The tsconfig step succeeds exactly when the file loads, the edit applies and the path is not a directory. It writes the edited document and changes nothing else. |
| Steps.BaseConfigFailures | src/create_app.py:108-159 | An unreadable .eslintrc.json stops the configuration part with that exception, the retry reading the same tree. An existing .vscode stops it too. |
| Steps.BaseConfigWrites | src/create_app.py:120-171 | After the configuration part, .eslintrc.json holds the base edit of the loaded document, and .editorconfig, .prettierrc and .vscode/settings.json their fixed contents. |
| Steps.BaseConfigFrame | src/create_app.py:120-171 | The configuration part changes only those four files and adds only .vscode. |
| Steps.BaseFailures | src/create_app.py:102-181 | base_create_next raises on an unreadable .eslintrc.json (with that exception), an existing .vscode, or a missing pages or styles directory. |
| Steps.BaseEffect | src/create_app.py:102-181 | After base_create_next, .eslintrc.json and tsconfig.json hold their edited documents and the three fixed files their contents. pages/ and styles/ are gone, and every other path is unchanged. |
| Steps.BaseValid | src/create_app.py:102-181 | base_create_next keeps the tree well formed. |
| Steps.AfterEslintImporter | src/create_app.py:189-210 | add_eslint_importer succeeds exactly when .eslintrc.json loads, the edit applies and the path is not a directory. It rewrites that file only. |
| Steps.AfterCommitlint | src/create_app.py:89-91 | Writing commitlint.config.js succeeds unless that path is a directory, and changes only that file. |
| Steps.LoadBabel | src/create_app.py:227-231 | .babelrc starts as the loaded document, or as an empty object exactly when the load raises. |
| Steps.StyledEffect | src/create_app.py:225-310 | After add_styled_components, .babelrc holds the edited document and both pages are fetched. global.ts and theme.ts hold the fetched text or the fallback, the type declaration is written, src/styles is new, and nothing else changed. |
| Steps.StyledFailures | src/create_app.py:225-310 | add_styled_components fails on a .babelrc that is not an object, on an unreachable template, and on an existing src/styles. |
| Steps.StyledValid | src/create_app.py:225-310 | add_styled_components keeps the tree well formed. |
| Steps.StorybookEffect | src/create_app.py:314-323 | add_storybook raises on an unreachable template or a missing src/stories. On success main.js is fetched and src/stories is gone with everything in it, and nothing else changed. |
| Steps.StorybookValid | src/create_app.py:314-323 | add_storybook keeps the tree well formed. |
| Steps.PlopEffect | src/create_app.py:325-356 | add_plop fails at once on an existing generators/templates. On success the four generator files are fetched, package.json carries the generate script, and nothing else changed. |
| Steps.PlopValid | src/create_app.py:325-356 | add_plop keeps the tree well formed. |
| Steps.AfterAlias | src/create_app.py:361-369 | The alias block succeeds exactly when package.json loads as an object and is not a directory. It rewrites that file only, with the alias edit. |
| Steps.BaseTwiceFails | src/create_app.py:159-175 | base_create_next over its own output raises. |
| Steps.StyledTwiceFails | src/create_app.py:254 | add_styled_components run a second time raises, because src/styles exists. |
| Steps.PlopTwiceFails | src/create_app.py:328 | add_plop run a second time raises FileExists for generators/templates. |
| Steps.SetupEffect | src/create_app.py:85-91 | The first half of the auto sequence leaves .eslintrc.json with the base edit and the import helpers, and writes the commitlint file. package.json is left as it was. |
| Steps.FeaturesEffect | src/create_app.py:94-97 | The second half leaves package.json with only the generate-script edit: the alias is never added. .eslintrc.json and the commitlint file are left as they were. src/styles and generators/templates exist. |
| Steps.AutoEffect | src/create_app.py:85-100 | A complete auto sequence leaves the combined result: base edit plus import helpers in .eslintrc.json, the generate script in package.json, and the commitlint file. |
| Steps.PerformAppend | src/create_app.py:50-68 | Running two lists of steps equals running their concatenation. The first exception ends the run. |
| Steps.PerformSetup | src/create_app.py:86-91 | The set-up steps run one by one are the first half of the auto sequence. |
| Steps.PerformFeatures | src/create_app.py:94-97 | The feature steps run one by one are the second half of the auto sequence. |
| Steps.PerformAuto | src/create_app.py:85-97 | The auto step list run one by one is __auto_create_next_app. |
| Steps.PerformOptions | src/create_app.py:59-65 | The option step list run one by one is the option block of __run__. |
| Steps.RunFollowsPlan | src/create_app.py:53-65 | __run__ leaves exactly the tree, or raises exactly the exception, of its plan's steps performed in order. |
| Steps.AutoRunWithOptionFails | src/create_app.py:53-65 | An auto run with option s or p always raises. |
| Steps.AutoRunWithEslintTwice | src/create_app.py:53-65 | An auto run with option e alone leaves .eslintrc.json with the importer edit applied twice, so plugins holds the import-helpers plugin twice. |
| Dispatch.OptionSteps | src/create_app.py:59-65 | The steps the options string selects: none for an empty string, else e, s and p in that order, each when its letter occurs. Its meaning is stated by Dispatch.OptionStepsOrdered and Dispatch.OptionStepsIgnoreOrder. |
| Dispatch.Plan | src/create_app.py:53-65 | Every step a run performs when nothing fails. This is `AutoSteps`, the seven steps of __auto_create_next_app at lines 85-97, or the base project alone, followed by the option steps. Its meaning is stated by Dispatch.PlanHead, Dispatch.AutoWithEslintOption and Steps.RunFollowsPlan. |
| Dispatch.Label | src/create_app.py:211-371 | The name each step appends to installed: "Eslint" at line 211, "Styled Components" at 312, "Storybook" at 323, "Plop" at 357, "Material UI" at 371. The base and commitlint steps append nothing. Its meaning is stated by Dispatch.AutoLabels and Dispatch.OptionLabels. |
| Dispatch.Labels | src/create_app.py:42-371 | installed after the given steps, starting from the empty list of line 42. Its meaning is stated by Dispatch.LabelsAppend, Dispatch.LabelsAreFeatureNames, Dispatch.AutoLabels and Dispatch.OptionLabels. |
| Dispatch.LabelsAreFeatureNames | src/create_app.py:211-371 | installed only ever holds the five feature names. |
| Dispatch.PlanHead | src/create_app.py:53-56 | A run starts with the base project: alone without auto, or as the head of the seven-step auto sequence. The options follow. |
| Dispatch.OptionStepsOrdered | src/create_app.py:59-65 | Options run in the fixed order e, s, p, each at most once. A step runs exactly when its letter occurs in the string. |
| Dispatch.OptionStepsIgnoreOrder | src/create_app.py:59-65 | Two option strings with the same letters select the same steps, whatever their order or repetition. |
| Dispatch.AutoWithEslintOption | src/create_app.py:53-65 | With auto and e the importer is in the plan exactly twice: second in the auto sequence and first after it. |
| Dispatch.OptionLabels | src/create_app.py:59-65 | The options append "Eslint", "Styled Components" and "Plop", each when its letter is selected, in that order. |
| Dispatch.AutoLabels | src/create_app.py:85-97 | A complete auto sequence records Eslint, Styled Components, Storybook, Plop and Material UI, in that order. |
| Dispatch.LabelsAppend | src/create_app.py:42 | installed starts empty and only grows by appends. The names recorded by two runs of steps, one after the other, are the first run's names followed by the second's. |
| Dispatch.NeverStyledComponent | src/create_app.py:361 | No sequence of steps ever records the name "Styled Component" that add_material_ui tests for. |
| CreateApp.App.constructor | src/create_app.py:42 | The scaffolder starts from the generated tree with no features installed, no commands issued and no pages opened. |
| CreateApp.App.Shell | src/create_app.py:89 | os.system appends the command to the log and nothing else. |
| CreateApp.App.FetchToFile | src/create_app.py:214-222 | The method follows FetchFile and changes nothing when it raises. It opens the secondary page exactly when the status is not 200 and a secondary page is given. |
| CreateApp.App.BaseCreateNext | src/create_app.py:102-184 | The method follows AfterBase and issues the base commands. On an unreadable .eslintrc.json it issues the eslint install and init, leaves the tree unchanged and raises. |
| CreateApp.App.WriteBaseConfig | src/create_app.py:108-171 | The method follows BaseConfigFiles and issues the four lint and prettier installs, or only the eslint retry when the load raises. |
| CreateApp.App.ArrangeSourceLayout | src/create_app.py:173-175 | The method follows BaseLayout. |
| CreateApp.App.PointTsConfigAtSrc | src/create_app.py:176-181 | The method follows BaseTsConfig. |
| CreateApp.App.AddEslintImporter | src/create_app.py:186-212 | The method follows AfterEslintImporter and logs the install. It appends "Eslint" exactly when it succeeds, and leaves the tree unchanged when it raises. |
| CreateApp.App.AddStyledComponents | src/create_app.py:225-312 | The method follows AfterStyled and appends "Styled Components" exactly on success. A .babelrc that is not an object leaves the tree unchanged. On success both packages are installed, and the _document.js example is opened exactly when the template's status is not 200. |
| CreateApp.App.WriteStyledBabel | src/create_app.py:227-237 | The method follows StyledBabelRc and changes nothing when it raises. |
| CreateApp.App.FetchStyledPages | src/create_app.py:241-252 | The method follows StyledPages, with the example page opened exactly when _document.tsx is not served. |
| CreateApp.App.WriteStyleModules | src/create_app.py:254-310 | The method follows StyledModules. |
| CreateApp.App.AddStorybook | src/create_app.py:314-323 | The method follows AfterStorybook, logs `npx sb init`, opens no page, and appends "Storybook" exactly on success. |
| CreateApp.App.AddPlop | src/create_app.py:325-357 | The method follows AfterPlop, logs the install, and appends "Plop" exactly on success. |
| CreateApp.App.AddMaterialUi | src/create_app.py:359-371 | The alias block runs exactly when "Styled Component" is in installed; otherwise the tree is unchanged. "Material UI" is appended exactly on success. |
| CreateApp.App.SetUpProject | src/create_app.py:85-91 | The method follows AfterSetup. On success it records "Eslint" and issues the base, import-helper and commitlint commands in order. |
| CreateApp.App.AddFeatures | src/create_app.py:94-97 | The method follows AfterFeatures. On success it records the four feature names and issues their commands in order. |
| CreateApp.App.AutoCreateNextApp | src/create_app.py:85-100 | The method follows AfterAuto. On success installed gains the five auto names and the log gains every auto command, ending with `cls` and `code .`. |
| CreateApp.App.CreateProject | src/create_app.py:53-57 | The method follows the auto sequence or base_create_next, and on success installed holds their names. |
| CreateApp.App.ApplyOptions | src/create_app.py:59-65 | The method follows the option block, and on success installed gains the names of the selected options in e, s, p order. |
| CreateApp.App.Run | src/create_app.py:42-71 | Status 0 (a normal return) exactly when the sub-command is given and the plan completes. Then the tree is AfterRun's and installed holds the plan's names. Any other run exits with status 1. Without the sub-command neither the tree nor the command log changes. |

## Left out

- Console output (`print`, the argparse help text, `-v/--version`) is not modelled. `sys.exit(1)` becomes status 1 of `Run`.
- `__load_ini_file`, `configparser` and `logging` are not modelled. The run starts as if the ini file loaded.
- argparse is reduced to `Run`'s parameters: whether the sub-command was given, `auto`, and `options`. `slugify` of the name is not modelled: the project name is a parameter used as given.
- `os.chdir` and `os.path.abspath` are not modelled: all paths are relative to one fixed project root.
- Shell commands are only logged. They have no effect on the tree: the constructor's tree stands for what the generator and `npx sb init` produced. So the retry after `yarn eslint --init` reads the same `.eslintrc.json`, and fails the same way.
- `requests.get` is an input map from address to status and body. Any transport failure is an address outside the map. The request of `plolpfile.js` keeps its spelling in `Fetch.Address`.
- `webbrowser.open` is a log of opened pages.
- The long literal texts are opaque placeholders: the global-styles fallback and `styled-components.d.ts`. JSON formatting (`indent=4`) and number precision are not modelled either: a file is a JSON document or plain text.
- Python's exception classes collapse into the `Error` datatype. The model keeps where a run stops, not the exact exception class.
- CreateApp.App.AutoCreateNextApp and CreateApp.App.AddFeatures require that installed does not hold "Styled Component". Every run meets this (Dispatch.NeverStyledComponent). The alias branch is modelled in CreateApp.App.AddMaterialUi alone.
- Steps.Apply: Material UI contributes no change to the tree, because its alias block never runs (Dispatch.NeverStyledComponent). The alias itself is modelled in CreateApp.App.AddMaterialUi and Steps.AfterAlias.
- CreateApp.App.Run: when a run fails with status 1, the contract does not say which files the steps before the exception already wrote, nor what installed holds.
- CreateApp.App.CreateProject, CreateApp.App.ApplyOptions, CreateApp.App.AutoCreateNextApp, CreateApp.App.SetUpProject and CreateApp.App.AddFeatures: on an exception, the contracts state only the exception and, where it applies, that installed kept its old entries. The partial writes are left unstated.
- CreateApp.App.AddStyledComponents, CreateApp.App.AddStorybook, CreateApp.App.AddPlop, CreateApp.App.BaseCreateNext and CreateApp.App.WriteStyleModules: the files written before an exception are left unstated. Only success, the exception and installed are pinned.

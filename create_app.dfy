/** The CreateApp scaffolder: one object that runs the feature steps over the
    project directory, logs the shell commands it issues, the pages it opens
    in the browser, and records the features it installed. */
module CreateApp {
  import opened Errors
  import opened Json
  import opened Disk
  import opened Configs
  import opened Fetch
  import opened Dispatch
  import opened Steps

  /** The shell commands the scaffolder passes to os.system. */
  datatype Command =
    | CreateNextApp(projectName: string)
    | InstallEslint | InitEslint | InstallReactLint | InstallHooksLint | InstallPrettier | InstallPrettierLint
    | InstallImportHelpers | InstallCommitlint | InstallStyledTypes | InstallStyled | InitStorybook
    | InstallPlop | InstallMui | InstallStyledEngine | ClearScreen | OpenEditor

  /** The command line each command stands for. */
  function Line(command: Command): string
  {
    match command
    case CreateNextApp(projectName) => "yarn create next-app " + projectName + " --typescript"
    case InstallEslint => "yarn add -D eslint"
    case InitEslint => "yarn eslint --init"
    case InstallReactLint =>
      "yarn add eslint-plugin-react@latest @typescript-eslint/eslint-plugin@latest @typescript-eslint/parser@latest -D"
    case InstallHooksLint => "yarn add eslint-plugin-react-hooks --dev"
    case InstallPrettier => "yarn add --dev --exact prettier"
    case InstallPrettierLint => "yarn add -D eslint-plugin-prettier eslint-config-prettier"
    case InstallImportHelpers => "yarn add -D eslint-plugin-import-helpers"
    case InstallCommitlint => "yarn add -D @commitlint/config-conventional @commitlint/cli"
    case InstallStyledTypes => "yarn add -D @types/styled-components babel-plugin-styled-components"
    case InstallStyled => "yarn add styled-components"
    case InitStorybook => "npx sb init"
    case InstallPlop => "yarn add -D plop"
    case InstallMui => "yarn add @mui/material @emotion/react @emotion/styled"
    case InstallStyledEngine => "yarn add @mui/styled-engine"
    case ClearScreen => "cls"
    case OpenEditor => "code ."
  }

  /** The commands a successful base_create_next issues. */
  function BaseCommands(projectName: string): seq<Command>
  {
    [CreateNextApp(projectName), InstallReactLint, InstallHooksLint, InstallPrettier, InstallPrettierLint]
  }

  /** The commands a successful __auto_create_next_app issues. */
  function AutoCommands(projectName: string): seq<Command>
  {
    BaseCommands(projectName)
    + [InstallImportHelpers, InstallCommitlint, InstallStyledTypes, InstallStyled,
       InitStorybook, InstallPlop, InstallMui, ClearScreen, OpenEditor]
  }

  /** The commands of base_create_next, appended one call at a time. */
  lemma BaseCommandsInOrder(log: seq<Command>, projectName: string)
    ensures log + [CreateNextApp(projectName)]
                + [InstallReactLint, InstallHooksLint, InstallPrettier, InstallPrettierLint]
            == log + BaseCommands(projectName)
  {
  }

  /** The commands of __auto_create_next_app, appended one call at a time. */
  lemma AutoCommandsInOrder(log: seq<Command>, projectName: string)
    ensures log + BaseCommands(projectName) + [InstallImportHelpers] + [InstallCommitlint]
                + [InstallStyledTypes, InstallStyled] + [InitStorybook] + [InstallPlop] + [InstallMui]
                + [ClearScreen] + [OpenEditor]
            == log + AutoCommands(projectName)
  {
  }

  /** The names of __auto_create_next_app, appended one call at a time. */
  lemma AutoInstalledInOrder(names: seq<string>)
    ensures names + ["Eslint"] + ["Styled Components"] + ["Storybook"] + ["Plop"] + ["Material UI"]
            == names + AutoInstalled
  {
  }

  /** The names the selected options append, one completed step at a time. */
  lemma OptionNames(names: seq<string>, withE: seq<string>, withS: seq<string>, withP: seq<string>, options: string)
    requires withE == names + (if 'e' in options then ["Eslint"] else [])
    requires withS == withE + (if 's' in options then ["Styled Components"] else [])
    requires withP == withS + (if 'p' in options then ["Plop"] else [])
    ensures withP == names + Labels(OptionSteps(options))
  {
    var e: seq<string> := if 'e' in options then ["Eslint"] else [];
    var s: seq<string> := if 's' in options then ["Styled Components"] else [];
    var p: seq<string> := if 'p' in options then ["Plop"] else [];
    OptionLabels(options);
    assert withP == names + (e + s + p);
  }

  class App {
    const projectName: string
    const network: Network
    var disk: Tree
    var installed: seq<string>
    var commands: seq<Command>
    var browsed: seq<Remote>

    /** The project directory is a well-formed tree. */
    ghost predicate Valid()
      reads this`disk
    {
      Disk.Valid(disk)
    }

    /** The call raised exactly when the step's function fails, with the
        same exception, and on success the tree is the function's result. */
    ghost predicate Follows(err: Option<Error>, r: Result<Tree>)
      reads this`disk
    {
      && (err.None? <==> r.Ok?)
      && (err.Some? ==> err.value == r.error)
      && (r.Ok? ==> disk == r.value)
    }

    constructor (projectName: string, network: Network, generated: Tree)
      requires Disk.Valid(generated)
      ensures Valid()
      ensures this.projectName == projectName && this.network == network && disk == generated
      ensures installed == [] && commands == [] && browsed == []
    {
      this.projectName := projectName;
      this.network := network;
      disk := generated;
      installed, commands, browsed := [], [], [];
    }

    /** os.system: the command is logged and its exit status ignored. */
    method Shell(command: Command)
      modifies this`commands
      ensures commands == old(commands) + [command]
    {
      commands := commands + [command];
    }

    /** create_file_by_text_fromUrl: the file is written with the body only
        on status 200; on any other status the secondary page, if given, is
        opened in the browser. */
    method FetchToFile(remote: Remote, target: Path, secondary: Option<Remote>) returns (err: Option<Error>)
      requires Valid() && target != []
      modifies this`disk, this`browsed
      ensures Valid()
      ensures Follows(err, FetchFile(old(disk), network, remote, target))
      ensures err.Some? ==> disk == old(disk)
      ensures if remote in network && network[remote].status != OK && secondary.Some?
              then browsed == old(browsed) + [secondary.value]
              else browsed == old(browsed)
    {
      if remote !in network {
        return Some(ConnectionFailed(remote));
      }
      var response := network[remote];
      if response.status == OK {
        var written := WriteFile(disk, target, Text(response.body));
        if written.Err? {
          return Some(written.error);
        }
        disk := written.value;
        WriteFileValid(old(disk), target, Text(response.body));
      } else if secondary.Some? {
        browsed := browsed + [secondary.value];
      }
      return None;
    }

    /** base_create_next: the Next.js project with ESLint, Prettier, the
        VS Code settings, src/pages and the tsconfig base URL. */
    method BaseCreateNext() returns (err: Option<Error>)
      requires Valid()
      modifies this`disk, this`commands
      ensures Valid()
      ensures Follows(err, AfterBase(old(disk)))
      ensures err.None? ==> commands == old(commands) + BaseCommands(projectName)
      ensures ReadJson(old(disk), EslintRc).Err? ==>
                && disk == old(disk)
                && commands == old(commands) + [CreateNextApp(projectName), InstallEslint, InitEslint]
    {
      Shell(CreateNextApp(projectName));
      err := WriteBaseConfig();
      if err.Some? {
        return;
      }
      ghost var configured := disk;
      err := ArrangeSourceLayout();
      if err.Some? {
        return;
      }
      err := PointTsConfigAtSrc();
      if err.Some? {
        return;
      }
      assert AfterBase(old(disk)) == BaseTsConfig(BaseLayout(configured).value);
      BaseCommandsInOrder(old(commands), projectName);
    }

    /** The configuration part of base_create_next: .eslintrc.json is loaded
        (after `yarn eslint --init` if the first load raises; the second load
        sees the same tree), .editorconfig, .prettierrc and
        .vscode/settings.json are written and the rewritten .eslintrc.json is
        stored. */
    method WriteBaseConfig() returns (err: Option<Error>)
      requires Valid()
      modifies this`disk, this`commands
      ensures Valid()
      ensures Follows(err, BaseConfigFiles(old(disk)))
      ensures err.None? ==>
                commands == old(commands) + [InstallReactLint, InstallHooksLint, InstallPrettier, InstallPrettierLint]
      ensures ReadJson(old(disk), EslintRc).Err? ==>
                disk == old(disk) && commands == old(commands) + [InstallEslint, InitEslint]
    {
      var eslint := ReadJson(disk, EslintRc);
      if eslint.Err? {
        Shell(InstallEslint);
        Shell(InitEslint);
        eslint := ReadJson(disk, EslintRc);
        if eslint.Err? {
          return Some(eslint.error);
        }
      }
      var r := WriteFile(disk, EditorConfig, Text(EditorConfigText));
      if r.Err? {
        return Some(r.error);
      }
      WriteFileValid(disk, EditorConfig, Text(EditorConfigText));
      disk := r.value;
      var config := BaseEslint(eslint.value);
      if config.Err? {
        return Some(config.error);
      }
      Shell(InstallReactLint);
      Shell(InstallHooksLint);
      r := WriteFile(disk, PrettierRc, JsonDoc(PrettierConfig));
      if r.Err? {
        return Some(r.error);
      }
      WriteFileValid(disk, PrettierRc, JsonDoc(PrettierConfig));
      disk := r.value;
      Shell(InstallPrettier);
      Shell(InstallPrettierLint);
      r := MakeDirs(disk, Vscode);
      if r.Err? {
        return Some(r.error);
      }
      MakeDirsValid(disk, Vscode);
      disk := r.value;
      r := WriteFile(disk, EslintRc, JsonDoc(config.value));
      WriteFileValid(disk, EslintRc, JsonDoc(config.value));
      disk := r.value;
      r := WriteFile(disk, VscodeSettingsPath, JsonDoc(VscodeSettings));
      if r.Err? {
        return Some(r.error);
      }
      WriteFileValid(disk, VscodeSettingsPath, JsonDoc(VscodeSettings));
      disk := r.value;
      return None;
    }

    /** The layout part of base_create_next: src/pages is created and the
        generator's pages/ and styles/ are removed. */
    method ArrangeSourceLayout() returns (err: Option<Error>)
      requires Valid()
      modifies this`disk
      ensures Valid()
      ensures Follows(err, BaseLayout(old(disk)))
    {
      var r := MakeDirs(disk, SrcPages);
      if r.Err? {
        return Some(r.error);
      }
      MakeDirsValid(disk, SrcPages);
      disk := r.value;
      r := RemoveTree(disk, Pages);
      if r.Err? {
        return Some(r.error);
      }
      RemoveTreeValid(disk, Pages);
      disk := r.value;
      r := RemoveTree(disk, Styles);
      if r.Err? {
        return Some(r.error);
      }
      RemoveTreeValid(disk, Styles);
      disk := r.value;
      return None;
    }

    /** The last part of base_create_next: `compilerOptions.baseUrl` is set
        in tsconfig.json. */
    method PointTsConfigAtSrc() returns (err: Option<Error>)
      requires Valid()
      modifies this`disk
      ensures Valid()
      ensures Follows(err, BaseTsConfig(old(disk)))
    {
      var tsconfig := ReadJson(disk, TsConfig);
      if tsconfig.Err? {
        return Some(tsconfig.error);
      }
      var options := SetBaseUrl(tsconfig.value);
      if options.Err? {
        return Some(options.error);
      }
      var r := WriteFile(disk, TsConfig, JsonDoc(options.value));
      WriteFileValid(disk, TsConfig, JsonDoc(options.value));
      disk := r.value;
      return None;
    }

    /** add_eslint_importer. */
    method AddEslintImporter() returns (err: Option<Error>)
      requires Valid()
      modifies this`disk, this`installed, this`commands
      ensures Valid()
      ensures Follows(err, AfterEslintImporter(old(disk)))
      ensures err.Some? ==> disk == old(disk)
      ensures commands == old(commands) + [InstallImportHelpers]
      ensures if err.None? then installed == old(installed) + ["Eslint"] else installed == old(installed)
    {
      Shell(InstallImportHelpers);
      var config := ReadJson(disk, EslintRc);
      if config.Err? {
        return Some(config.error);
      }
      var patched := AddImportHelpers(config.value);
      if patched.Err? {
        return Some(patched.error);
      }
      var r := WriteFile(disk, EslintRc, JsonDoc(patched.value));
      WriteFileValid(disk, EslintRc, JsonDoc(patched.value));
      disk := r.value;
      installed := installed + ["Eslint"];
      return None;
    }

    /** add_styled_components. */
    method AddStyledComponents() returns (err: Option<Error>)
      requires Valid()
      modifies this`disk, this`installed, this`commands, this`browsed
      ensures Valid()
      ensures Follows(err, AfterStyled(old(disk), network))
      ensures !LoadBabel(old(disk)).Obj? ==> disk == old(disk) && commands == old(commands) + [InstallStyledTypes]
      ensures if err.None? then installed == old(installed) + ["Styled Components"] else installed == old(installed)
      ensures err.None? ==>
                && commands == old(commands) + [InstallStyledTypes, InstallStyled]
                && if network[DocumentTemplate].status != OK
                   then browsed == old(browsed) + [DocumentExample]
                   else browsed == old(browsed)
    {
      Shell(InstallStyledTypes);
      err := WriteStyledBabel();
      if err.Some? {
        return;
      }
      Shell(InstallStyled);
      err := FetchStyledPages();
      if err.Some? {
        return;
      }
      err := WriteStyleModules();
      if err.Some? {
        return;
      }
      installed := installed + ["Styled Components"];
    }

    /** The .babelrc part of add_styled_components: an unreadable file counts
        as an empty configuration. */
    method WriteStyledBabel() returns (err: Option<Error>)
      requires Valid()
      modifies this`disk
      ensures Valid()
      ensures Follows(err, StyledBabelRc(old(disk)))
      ensures err.Some? ==> disk == old(disk)
    {
      var babel := LoadBabel(disk);
      var patched := StyledBabel(babel);
      if patched.Err? {
        return Some(patched.error);
      }
      var r := WriteFile(disk, BabelRc, JsonDoc(patched.value));
      if r.Err? {
        return Some(r.error);
      }
      WriteFileValid(disk, BabelRc, JsonDoc(patched.value));
      disk := r.value;
      return None;
    }

    /** The page part of add_styled_components; a _document.tsx template that
        is not served opens the upstream example instead. */
    method FetchStyledPages() returns (err: Option<Error>)
      requires Valid()
      modifies this`disk, this`browsed
      ensures Valid()
      ensures Follows(err, StyledPages(old(disk), network))
      ensures err.None? ==>
                if network[DocumentTemplate].status != OK
                then browsed == old(browsed) + [DocumentExample]
                else browsed == old(browsed)
    {
      err := FetchToFile(DocumentTemplate, DocumentPath, Some(DocumentExample));
      if err.Some? {
        return;
      }
      err := FetchToFile(AppTemplate, AppPath, None);
    }

    /** The style part of add_styled_components: global.ts and theme.ts fall
        back to built-in text when their template is not served. */
    method WriteStyleModules() returns (err: Option<Error>)
      requires Valid()
      modifies this`disk
      ensures Valid()
      ensures Follows(err, StyledModules(old(disk), network))
    {
      var r := MakeDirs(disk, SrcStyles);
      if r.Err? {
        return Some(r.error);
      }
      MakeDirsValid(disk, SrcStyles);
      disk := r.value;
      var globalStyles := TextOr(network, GlobalStylesTemplate, GlobalStylesFallback);
      if globalStyles.Err? {
        return Some(globalStyles.error);
      }
      r := WriteFile(disk, GlobalStylesPath, Text(globalStyles.value));
      if r.Err? {
        return Some(r.error);
      }
      WriteFileValid(disk, GlobalStylesPath, Text(globalStyles.value));
      disk := r.value;
      var theme := TextOr(network, ThemeTemplate, ThemeFallback);
      if theme.Err? {
        return Some(theme.error);
      }
      r := WriteFile(disk, ThemePath, Text(theme.value));
      if r.Err? {
        return Some(r.error);
      }
      WriteFileValid(disk, ThemePath, Text(theme.value));
      disk := r.value;
      r := WriteFile(disk, StyledDtsPath, Text(StyledDtsText));
      if r.Err? {
        return Some(r.error);
      }
      WriteFileValid(disk, StyledDtsPath, Text(StyledDtsText));
      disk := r.value;
      return None;
    }

    /** add_storybook. */
    method AddStorybook() returns (err: Option<Error>)
      requires Valid()
      modifies this`disk, this`installed, this`commands, this`browsed
      ensures Valid()
      ensures Follows(err, AfterStorybook(old(disk), network))
      ensures commands == old(commands) + [InitStorybook]
      ensures browsed == old(browsed)
      ensures if err.None? then installed == old(installed) + ["Storybook"] else installed == old(installed)
    {
      Shell(InitStorybook);
      err := FetchToFile(StorybookMainTemplate, StorybookMainPath, None);
      if err.Some? {
        return;
      }
      var r := RemoveTree(disk, SrcStories);
      if r.Err? {
        return Some(r.error);
      }
      RemoveTreeValid(disk, SrcStories);
      disk := r.value;
      installed := installed + ["Storybook"];
      return None;
    }

    /** add_plop. */
    method AddPlop() returns (err: Option<Error>)
      requires Valid()
      modifies this`disk, this`installed, this`commands, this`browsed
      ensures Valid()
      ensures Follows(err, AfterPlop(old(disk), network))
      ensures commands == old(commands) + [InstallPlop]
      ensures browsed == old(browsed)
      ensures if err.None? then installed == old(installed) + ["Plop"] else installed == old(installed)
    {
      Shell(InstallPlop);
      var r := MakeDirs(disk, Templates);
      if r.Err? {
        return Some(r.error);
      }
      MakeDirsValid(disk, Templates);
      disk := r.value;
      err := FetchToFile(PlopfileTemplate, PlopfilePath, None);
      if err.Some? {
        return;
      }
      err := FetchToFile(ComponentTemplate, ComponentTemplatePath, None);
      if err.Some? {
        return;
      }
      err := FetchToFile(StoriesTemplate, StoriesTemplatePath, None);
      if err.Some? {
        return;
      }
      err := FetchToFile(StylesTemplate, StylesTemplatePath, None);
      if err.Some? {
        return;
      }
      var package := ReadJson(disk, PackageJson);
      if package.Err? {
        return Some(package.error);
      }
      var patched := AddGenerateScript(package.value);
      if patched.Err? {
        return Some(patched.error);
      }
      r := WriteFile(disk, PackageJson, JsonDoc(patched.value));
      WriteFileValid(disk, PackageJson, JsonDoc(patched.value));
      disk := r.value;
      installed := installed + ["Plop"];
      return None;
    }

    /** add_material_ui: the alias block runs only when the exact name
        "Styled Component" is already in `installed`. */
    method AddMaterialUi() returns (err: Option<Error>)
      requires Valid()
      modifies this`disk, this`installed, this`commands
      ensures Valid()
      ensures if "Styled Component" in old(installed)
              then commands == old(commands) + [InstallMui, InstallStyledEngine] && Follows(err, AfterAlias(old(disk)))
              else commands == old(commands) + [InstallMui] && Follows(err, Ok(old(disk)))
      ensures err.Some? ==> disk == old(disk)
      ensures if err.None? then installed == old(installed) + ["Material UI"] else installed == old(installed)
    {
      Shell(InstallMui);
      if "Styled Component" in installed {
        Shell(InstallStyledEngine);
        var package := ReadJson(disk, PackageJson);
        if package.Err? {
          return Some(package.error);
        }
        var patched := AliasStyledEngine(package.value);
        if patched.Err? {
          return Some(patched.error);
        }
        var r := WriteFile(disk, PackageJson, JsonDoc(patched.value));
        WriteFileValid(disk, PackageJson, JsonDoc(patched.value));
        disk := r.value;
      }
      installed := installed + ["Material UI"];
      return None;
    }

    /** The first half of __auto_create_next_app: the base project, the
        import helpers and the commitlint configuration. */
    method SetUpProject() returns (err: Option<Error>)
      requires Valid()
      modifies this`disk, this`installed, this`commands
      ensures Valid()
      ensures Follows(err, AfterSetup(old(disk)))
      ensures err.None? ==>
                && installed == old(installed) + ["Eslint"]
                && commands == old(commands) + BaseCommands(projectName) + [InstallImportHelpers] + [InstallCommitlint]
      ensures err.Some? ==> old(installed) <= installed
    {
      err := BaseCreateNext();
      if err.Some? {
        return;
      }
      err := AddEslintImporter();
      if err.Some? {
        return;
      }
      Shell(InstallCommitlint);
      var r := WriteFile(disk, CommitlintConfig, Text(CommitlintText));
      if r.Err? {
        return Some(r.error);
      }
      WriteFileValid(disk, CommitlintConfig, Text(CommitlintText));
      disk := r.value;
      return None;
    }

    /** The second half of __auto_create_next_app: styled-components,
        Storybook, Plop and Material UI, whose aliasing never applies. */
    method AddFeatures() returns (err: Option<Error>)
      requires Valid() && "Styled Component" !in installed
      modifies this`disk, this`installed, this`commands, this`browsed
      ensures Valid()
      ensures Follows(err, AfterFeatures(old(disk), network))
      ensures err.None? ==>
                && installed == old(installed) + ["Styled Components"] + ["Storybook"] + ["Plop"] + ["Material UI"]
                && commands == old(commands) + [InstallStyledTypes, InstallStyled] + [InitStorybook] + [InstallPlop] + [InstallMui]
      ensures err.Some? ==> old(installed) <= installed
    {
      err := AddStyledComponents();
      if err.Some? {
        return;
      }
      err := AddStorybook();
      if err.Some? {
        return;
      }
      err := AddPlop();
      if err.Some? {
        return;
      }
      assert "Styled Component" !in installed;
      err := AddMaterialUi();
    }

    /** __auto_create_next_app: every feature, in the fixed order, with the
        commitlint configuration after the import helpers. */
    method AutoCreateNextApp() returns (err: Option<Error>)
      requires Valid() && "Styled Component" !in installed
      modifies this`disk, this`installed, this`commands, this`browsed
      ensures Valid()
      ensures Follows(err, AfterAuto(old(disk), network))
      ensures err.None? ==>
                && installed == old(installed) + AutoInstalled
                && commands == old(commands) + AutoCommands(projectName)
      ensures err.Some? ==> old(installed) <= installed
    {
      err := SetUpProject();
      if err.Some? {
        return;
      }
      assert "Styled Component" !in installed;
      err := AddFeatures();
      if err.Some? {
        return;
      }
      AutoCommandsInOrder(old(commands), projectName);
      AutoInstalledInOrder(old(installed));
      Shell(ClearScreen);
      Shell(OpenEditor);
    }

    /** The first part of __run__: the auto sequence when `auto` is set,
        the base project otherwise (two separate tests of the flag). */
    method CreateProject(auto: bool) returns (err: Option<Error>)
      requires Valid() && installed == []
      modifies this`disk, this`installed, this`commands, this`browsed
      ensures Valid()
      ensures Follows(err, if auto then AfterAuto(old(disk), network) else AfterBase(old(disk)))
      ensures err.None? ==> installed == Labels(if auto then AutoSteps else [Base])
    {
      err := None;
      if auto {
        err := AutoCreateNextApp();
        if err.Some? {
          return;
        }
        AutoLabels();
        assert installed == AutoInstalled;
      }
      if !auto {
        err := BaseCreateNext();
        if err.Some? {
          return;
        }
        LabelsSnoc([], Base);
        assert [] + [Base] == [Base];
      }
    }

    /** The option part of __run__: add_eslint_importer, add_styled_components
        and add_plop, in that order, each when its letter is in `options`. */
    method ApplyOptions(options: string) returns (err: Option<Error>)
      requires Valid()
      modifies this`disk, this`installed, this`commands, this`browsed
      ensures Valid()
      ensures Follows(err, AfterOptions(old(disk), network, options))
      ensures err.None? ==> installed == old(installed) + Labels(OptionSteps(options))
    {
      if |options| == 0 {
        return None;
      }
      ghost var t0 := disk;
      ghost var names := installed;
      if 'e' in options {
        err := AddEslintImporter();
        if err.Some? {
          return;
        }
      }
      ghost var t1 := disk;
      assert t1 == (if 'e' in options then AfterEslintImporter(t0) else Ok(t0)).value;
      ghost var withE := installed;
      if 's' in options {
        err := AddStyledComponents();
        if err.Some? {
          return;
        }
      }
      ghost var t2 := disk;
      assert t2 == (if 's' in options then AfterStyled(t1, network) else Ok(t1)).value;
      ghost var withS := installed;
      if 'p' in options {
        err := AddPlop();
        if err.Some? {
          return;
        }
      }
      OptionNames(names, withE, withS, installed, options);
      return None;
    }

    /** __run__ after argument parsing: `installed` starts empty, the project
        is created, the options are applied, and any exception ends the
        program with status 1. Without the create-next-app sub-command only
        the help is printed, and the status is 1 as well. */
    method Run(subcommand: bool, auto: bool, options: string) returns (status: int)
      requires Valid()
      modifies this`disk, this`installed, this`commands, this`browsed
      ensures Valid()
      ensures status == 0 || status == 1
      ensures status == 0 <==> subcommand && AfterRun(old(disk), network, auto, options).Ok?
      ensures status == 0 ==>
                && disk == AfterRun(old(disk), network, auto, options).value
                && installed == Labels(Plan(auto, options))
      ensures !subcommand ==> disk == old(disk) && commands == old(commands)
    {
      installed := [];
      if !subcommand {
        return 1;
      }
      var err := CreateProject(auto);
      if err.Some? {
        return 1;
      }
      err := ApplyOptions(options);
      if err.Some? {
        return 1;
      }
      LabelsAppend(if auto then AutoSteps else [Base], OptionSteps(options));
      return 0;
    }
  }
}

/**
 * NimBuildConfiguration of project/nimbuildconfiguration.cpp: the default compiler options and
 * the target project file with their "set only if different" setters, the initializer that
 * configures the build and clean steps, the build generator and the default build directory.
 */
module BuildConfig {
  import opened Host
  import opened Text
  import opened CompilerStep

  /** The initializer's switch: Release and Debug keep their name, every other type is Empty. */
  function OptionsFor(buildType: BuildType): (options: DefaultBuildOptions)
    ensures options == ReleaseOptions <==> buildType == Release
    ensures options == DebugOptions <==> buildType == Debug
    ensures options == EmptyOptions <==> buildType != Release && buildType != Debug
  {
    match buildType
    case Release => ReleaseOptions
    case Debug => DebugOptions
    case _ => EmptyOptions
  }

  /** The project files the `.toml` filter keeps, in project order. */
  function TomlFiles(files: seq<Path>): (toml: seq<Path>)
    ensures |toml| <= |files|
    ensures forall f :: f in toml <==> f in files && EndsWith(f, ".toml")
    ensures files != [] && EndsWith(files[0], ".toml") ==> toml != [] && toml[0] == files[0]
    decreases |files|
  {
    if files == [] then []
    else (if EndsWith(files[0], ".toml") then [files[0]] else []) + TomlFiles(files[1..])
  }

  /**
   * When TomlFiles is not empty, its first element is the first `.toml` file of the project:
   * every file before it has another suffix.
   */
  lemma {:induction false} FirstToml(files: seq<Path>)
    requires TomlFiles(files) != []
    ensures exists i :: 0 <= i < |files| && files[i] == TomlFiles(files)[0]
              && (forall j :: 0 <= j < i ==> !EndsWith(files[j], ".toml"))
    decreases |files|
  {
    if !EndsWith(files[0], ".toml") {
      FirstToml(files[1..]);
      var i :| 0 <= i < |files[1..]| && files[1..][i] == TomlFiles(files[1..])[0]
               && (forall j :: 0 <= j < i ==> !EndsWith(files[1..][j], ".toml"));
      assert files[i + 1] == TomlFiles(files)[0];
      forall j | 0 <= j < i + 1
        ensures !EndsWith(files[j], ".toml")
      {
        if j > 0 {
          assert files[j] == files[1..][j - 1];
        }
      }
    } else {
      assert files[0] == TomlFiles(files)[0];
    }
  }

  /**
   * What defaultBuildDirectory needs from its surroundings: the build directory template after
   * macro expansion for a configuration name and build type, the absolute-path test, and the
   * directory of the project file.
   */
  datatype DirectoryHost = DirectoryHost(expand: (string, BuildType) -> string, isAbsolute: string -> bool, projectDir: Path)

  /** defaultBuildDirectory: an absolute expansion as is, a relative one under the project directory. */
  function DefaultBuildDirectory(h: DirectoryHost, name: string, buildType: BuildType): (dir: Path)
    ensures h.isAbsolute(h.expand(name, buildType)) ==> dir == h.expand(name, buildType)
    ensures !h.isAbsolute(h.expand(name, buildType)) ==> dir == PathAppended(h.projectDir, h.expand(name, buildType))
  {
    var expanded := h.expand(name, buildType);
    if h.isAbsolute(expanded) then expanded else PathAppended(h.projectDir, expanded)
  }

  /** A relative expansion lands inside the project directory (or is the directory itself when empty). */
  lemma RelativeBuildDirectory(h: DirectoryHost, name: string, buildType: BuildType)
    requires !h.isAbsolute(h.expand(name, buildType))
    ensures StartsWith(DefaultBuildDirectory(h, name, buildType), h.projectDir)
    ensures EndsWith(DefaultBuildDirectory(h, name, buildType), h.expand(name, buildType))
    ensures h.expand(name, buildType) != "" ==> Below(DefaultBuildDirectory(h, name, buildType), h.projectDir)
    ensures h.expand(name, buildType) == "" ==> DefaultBuildDirectory(h, name, buildType) == h.projectDir
  {
    var e := h.expand(name, buildType);
    if e == "" {
      assert DefaultBuildDirectory(h, name, buildType) == h.projectDir;
      assert h.projectDir[|h.projectDir| - |e|..] == e;
    }
  }

  /** ProjectExplorer::BuildInfo, the part the generator fills in ("" where it leaves a field unset). */
  datatype BuildInfo = BuildInfo(buildType: BuildType, typeName: string, displayName: string, buildDirectory: Path)

  /** The factory's build generator: one Debug and one Release info. */
  function BuildInfos(h: DirectoryHost, forSetup: bool): seq<BuildInfo>
  {
    [OneBuild(h, forSetup, Debug, "Debug"), OneBuild(h, forSetup, Release, "Release")]
  }

  function OneBuild(h: DirectoryHost, forSetup: bool, buildType: BuildType, typeName: string): BuildInfo
  {
    if forSetup then BuildInfo(buildType, typeName, typeName, DefaultBuildDirectory(h, typeName, buildType))
    else BuildInfo(buildType, typeName, "", "")
  }

  /**
   * Exactly two infos, Debug then Release, named after their type; the display name and the
   * build directory are filled in only for a setup.
   */
  lemma BuildInfosShape(h: DirectoryHost, forSetup: bool)
    ensures var infos := BuildInfos(h, forSetup);
            && |infos| == 2
            && infos[0].buildType == Debug && infos[0].typeName == "Debug"
            && infos[1].buildType == Release && infos[1].typeName == "Release"
            && (forall i :: 0 <= i < 2 ==>
                  (forSetup ==> infos[i].displayName == infos[i].typeName
                                && infos[i].buildDirectory == DefaultBuildDirectory(h, infos[i].typeName, infos[i].buildType))
                  && (!forSetup ==> infos[i].displayName == "" && infos[i].buildDirectory == ""))
  {
  }

  /** toMap: the options as an integer and the target file as a string, under their keys. */
  function ConfigToMap(base: VariantMap, optionsKey: string, targetKey: string, options: DefaultBuildOptions, target: Path): VariantMap
  {
    base[optionsKey := VInt(options)][targetKey := VString(target)]
  }

  /** The options and the target file survive toMap followed by fromMap. */
  lemma ConfigRoundTrip(base: VariantMap, optionsKey: string, targetKey: string, options: DefaultBuildOptions, target: Path)
    requires optionsKey != targetKey
    ensures IntAt(ConfigToMap(base, optionsKey, targetKey, options, target), optionsKey) == options
    ensures StringAt(ConfigToMap(base, optionsKey, targetKey, options, target), targetKey) == target
  {
  }

  /**
   * The configuration object. `compiler` is the kit toolchain's compiler command (None when the
   * compiler step's asserts on target, kit or toolchain fail); `buildStep` and `cleanStep` are
   * the compiler steps of the build and clean lists (null when missing). The signal fields list
   * defaultCompilerOptionsChanged and targetNimFileChanged, and count processParametersChanged,
   * which both are connected to.
   */
  class NimBuildConfiguration {
    const compiler: Option<Path>
    const projectFile: Path
    const optionsKey: string
    const targetKey: string
    const buildStep: NimCompilerBuildStep?
    const cleanStep: NimCompilerBuildStep?
    var defaultOptions: DefaultBuildOptions
    var targetNimFile: Path
    var buildDirectory: Path
    var optionsChanged: seq<DefaultBuildOptions>
    var targetChanged: seq<Path>
    var parametersChanged: nat

    /** The build and the clean step are different objects. */
    predicate Valid()
      reads this
    {
      buildStep != null && cleanStep != null ==> buildStep != cleanStep
    }

    /** What the compiler steps' updateCommand reads from this configuration. */
    function Source(): Option<CommandSource>
      reads this
    {
      if compiler.Some? then Some(CommandSource(compiler.value, defaultOptions, buildDirectory, projectFile)) else None
    }

    constructor (compiler: Option<Path>, projectFile: Path, optionsKey: string, targetKey: string,
                 buildStep: NimCompilerBuildStep?, cleanStep: NimCompilerBuildStep?)
      requires buildStep != null && cleanStep != null ==> buildStep != cleanStep
      ensures Valid()
      ensures this.compiler == compiler && this.projectFile == projectFile
      ensures this.optionsKey == optionsKey && this.targetKey == targetKey
      ensures this.buildStep == buildStep && this.cleanStep == cleanStep
      ensures defaultOptions == EmptyOptions && targetNimFile == "" && buildDirectory == ""
      ensures optionsChanged == [] && targetChanged == [] && parametersChanged == 0
    {
      this.compiler := compiler;
      this.projectFile := projectFile;
      this.optionsKey := optionsKey;
      this.targetKey := targetKey;
      this.buildStep := buildStep;
      this.cleanStep := cleanStep;
      defaultOptions := EmptyOptions;
      targetNimFile := "";
      buildDirectory := "";
      optionsChanged := [];
      targetChanged := [];
      parametersChanged := 0;
    }

    /**
     * The command a step with `options` gets from its updateProcessParameters now: built from this
     * configuration when there is a compiler, and `previous` when the step's asserts fail.
     */
    function Rebuilt(options: seq<string>, previous: Option<CommandLine>): Option<CommandLine>
      reads this
    {
      if compiler.Some? then Some(CommandLine(compiler.value, Arguments(options, Source().value))) else previous
    }

    /**
     * Since the pre-state, `step` ran updateProcessParameters `times` times and nothing else
     * happened to it: its options are as they were and its command is rebuilt from the
     * configuration as it is now (or untouched when `times` is 0).
     */
    twostate predicate Notified(step: NimCompilerBuildStep, times: nat)
      reads this, step
    {
      && step.userCompilerOptions == old(step.userCompilerOptions)
      && step.optionsChanged == old(step.optionsChanged)
      && step.parametersChanged == old(step.parametersChanged) + times
      && step.command == if times == 0 then old(step.command) else Rebuilt(step.userCompilerOptions, old(step.command))
    }

    /**
     * A signal the compiler steps are connected to (buildDirectoryChanged, or processParametersChanged)
     * reaching them: each existing step runs updateProcessParameters.
     */
    method NotifySteps()
      requires Valid()
      modifies buildStep, cleanStep
      ensures buildStep != null ==> Notified(buildStep, 1)
      ensures cleanStep != null ==> Notified(cleanStep, 1)
    {
      if buildStep != null {
        buildStep.UpdateProcessParameters(Source());
      }
      if cleanStep != null {
        cleanStep.UpdateProcessParameters(Source());
      }
    }

    /**
     * setBuildDirectory of the base class, as the steps see it: an equal directory changes
     * nothing; another is stored and buildDirectoryChanged makes each step update its parameters.
     */
    method SetBuildDirectory(directory: Path)
      requires Valid()
      modifies this`buildDirectory, buildStep, cleanStep
      ensures buildDirectory == directory
      ensures var n := if old(buildDirectory) == directory then 0 else 1;
              (buildStep != null ==> Notified(buildStep, n)) && (cleanStep != null ==> Notified(cleanStep, n))
    {
      if buildDirectory == directory {
        return;
      }
      buildDirectory := directory;
      NotifySteps();
    }

    /**
     * setDefaultCompilerOptions: equal options are a no-op; others are stored and signalled once,
     * and the processParametersChanged that follows makes each step update its parameters.
     */
    method SetDefaultCompilerOptions(options: DefaultBuildOptions)
      requires Valid()
      modifies this`defaultOptions, this`optionsChanged, this`parametersChanged, buildStep, cleanStep
      ensures defaultOptions == options
      ensures old(defaultOptions) == options ==> optionsChanged == old(optionsChanged) && parametersChanged == old(parametersChanged)
      ensures old(defaultOptions) != options ==> optionsChanged == old(optionsChanged) + [options] && parametersChanged == old(parametersChanged) + 1
      ensures var n := if old(defaultOptions) == options then 0 else 1;
              (buildStep != null ==> Notified(buildStep, n)) && (cleanStep != null ==> Notified(cleanStep, n))
    {
      if defaultOptions == options {
        return;
      }
      defaultOptions := options;
      optionsChanged := optionsChanged + [options];
      parametersChanged := parametersChanged + 1;
      NotifySteps();
    }

    /**
     * setTargetNimFile: an equal file is a no-op; another is stored and signalled once, and the
     * processParametersChanged that follows makes each step update its parameters.
     */
    method SetTargetNimFile(target: Path)
      requires Valid()
      modifies this`targetNimFile, this`targetChanged, this`parametersChanged, buildStep, cleanStep
      ensures targetNimFile == target
      ensures old(targetNimFile) == target ==> targetChanged == old(targetChanged) && parametersChanged == old(parametersChanged)
      ensures old(targetNimFile) != target ==> targetChanged == old(targetChanged) + [target] && parametersChanged == old(parametersChanged) + 1
      ensures var n := if old(targetNimFile) == target then 0 else 1;
              (buildStep != null ==> Notified(buildStep, n)) && (cleanStep != null ==> Notified(cleanStep, n))
    {
      if target == targetNimFile {
        return;
      }
      targetNimFile := target;
      targetChanged := targetChanged + [target];
      parametersChanged := parametersChanged + 1;
      NotifySteps();
    }

    /**
     * updateTargetNimFile over the project's files: a non-empty target stays; otherwise the first
     * `.toml` file becomes the target, and without one the target stays empty.
     */
    method UpdateTargetNimFile(files: seq<Path>)
      requires Valid()
      modifies this`targetNimFile, this`targetChanged, this`parametersChanged, buildStep, cleanStep
      ensures old(targetNimFile) != "" || TomlFiles(files) == [] ==>
                targetNimFile == old(targetNimFile) && targetChanged == old(targetChanged) && parametersChanged == old(parametersChanged)
      ensures old(targetNimFile) == "" && TomlFiles(files) != [] ==>
                targetNimFile == TomlFiles(files)[0] && targetChanged == old(targetChanged) + [targetNimFile]
                && parametersChanged == old(parametersChanged) + 1
      ensures var n := if old(targetNimFile) == "" && TomlFiles(files) != [] then 1 else 0;
              (buildStep != null ==> Notified(buildStep, n)) && (cleanStep != null ==> Notified(cleanStep, n))
    {
      if targetNimFile != "" {
        return;
      }
      var toml := TomlFiles(files);
      if toml != [] {
        assert toml[0] in toml;
        assert EndsWith(toml[0], ".toml");
        SetTargetNimFile(toml[0]);
      }
    }

    /**
     * The initializer for a build of type `buildType`, with `directory` its default build
     * directory and `files` the project's files. It sets the directory, which the existing steps
     * follow when it changes; without both compiler steps it stops there. Otherwise it maps the
     * build type to the default options, gives the build step the options ["build"] and the clean
     * step ["clean"], and, when the project has a `.toml` file, makes the first one the target
     * (whatever target was set before). Every processParametersChanged on the way reaches both steps.
     */
    method Initialize(buildType: BuildType, directory: Path, files: seq<Path>)
      requires Valid()
      modifies this`buildDirectory, this`defaultOptions, this`optionsChanged, this`targetNimFile, this`targetChanged, this`parametersChanged
      modifies buildStep, cleanStep
      ensures buildDirectory == directory
      ensures buildStep == null || cleanStep == null ==>
                defaultOptions == old(defaultOptions) && targetNimFile == old(targetNimFile) && optionsChanged == old(optionsChanged)
                && targetChanged == old(targetChanged) && parametersChanged == old(parametersChanged)
      ensures buildStep == null || cleanStep == null ==>
                var n := if old(buildDirectory) == directory then 0 else 1;
                (buildStep != null ==> Notified(buildStep, n)) && (cleanStep != null ==> Notified(cleanStep, n))
      ensures buildStep != null && cleanStep != null ==>
                var directoryNew := old(buildDirectory) != directory;
                var optionsNew := old(defaultOptions) != OptionsFor(buildType);
                var targetNew := TomlFiles(files) != [] && TomlFiles(files)[0] != old(targetNimFile);
                var updates := (if directoryNew then 1 else 0) + (if optionsNew then 1 else 0) + 1 + (if targetNew then 1 else 0);
                && optionsChanged == old(optionsChanged) + (if optionsNew then [OptionsFor(buildType)] else [])
                && targetChanged == old(targetChanged) + (if targetNew then [TomlFiles(files)[0]] else [])
                && parametersChanged == old(parametersChanged) + (if optionsNew then 1 else 0) + (if targetNew then 1 else 0)
                && buildStep.parametersChanged == old(buildStep.parametersChanged) + updates
                && cleanStep.parametersChanged == old(cleanStep.parametersChanged) + updates
                && (compiler.None? ==> buildStep.command == old(buildStep.command) && cleanStep.command == old(cleanStep.command))
      ensures buildStep != null && cleanStep != null ==>
                && defaultOptions == OptionsFor(buildType)
                && buildStep.userCompilerOptions == ["build"]
                && cleanStep.userCompilerOptions == ["clean"]
                && buildStep.optionsChanged == old(buildStep.optionsChanged) + [["build"]]
                && cleanStep.optionsChanged == old(cleanStep.optionsChanged) + [["clean"]]
                && (compiler.Some? ==>
                      buildStep.command == Some(CommandLine(compiler.value, Arguments(["build"], Source().value)))
                      && cleanStep.command == Some(CommandLine(compiler.value, Arguments(["clean"], Source().value))))
                && targetNimFile == (if TomlFiles(files) != [] then TomlFiles(files)[0] else old(targetNimFile))
    {
      SetBuildDirectory(directory);
      if buildStep == null || cleanStep == null {
        return;
      }
      ConfigureSteps(buildType, files);
    }

    /** The initializer once both steps are found: options, the steps' own options, then the target. */
    method ConfigureSteps(buildType: BuildType, files: seq<Path>)
      requires Valid() && buildStep != null && cleanStep != null
      modifies this`defaultOptions, this`optionsChanged, this`targetNimFile, this`targetChanged, this`parametersChanged
      modifies buildStep, cleanStep
      ensures var optionsNew := old(defaultOptions) != OptionsFor(buildType);
              var targetNew := TomlFiles(files) != [] && TomlFiles(files)[0] != old(targetNimFile);
              var updates := (if optionsNew then 1 else 0) + 1 + (if targetNew then 1 else 0);
              && optionsChanged == old(optionsChanged) + (if optionsNew then [OptionsFor(buildType)] else [])
              && targetChanged == old(targetChanged) + (if targetNew then [TomlFiles(files)[0]] else [])
              && parametersChanged == old(parametersChanged) + (if optionsNew then 1 else 0) + (if targetNew then 1 else 0)
              && buildStep.parametersChanged == old(buildStep.parametersChanged) + updates
              && cleanStep.parametersChanged == old(cleanStep.parametersChanged) + updates
              && (compiler.None? ==> buildStep.command == old(buildStep.command) && cleanStep.command == old(cleanStep.command))
      ensures && defaultOptions == OptionsFor(buildType)
              && buildStep.userCompilerOptions == ["build"]
              && cleanStep.userCompilerOptions == ["clean"]
              && buildStep.optionsChanged == old(buildStep.optionsChanged) + [["build"]]
              && cleanStep.optionsChanged == old(cleanStep.optionsChanged) + [["clean"]]
              && (compiler.Some? ==>
                    buildStep.command == Some(CommandLine(compiler.value, Arguments(["build"], Source().value)))
                    && cleanStep.command == Some(CommandLine(compiler.value, Arguments(["clean"], Source().value))))
              && targetNimFile == (if TomlFiles(files) != [] then TomlFiles(files)[0] else old(targetNimFile))
    {
      SetDefaultCompilerOptions(OptionsFor(buildType));
      buildStep.SetUserCompilerOptions(["build"], Source());
      cleanStep.SetUserCompilerOptions(["clean"], Source());
      var toml := TomlFiles(files);
      if toml != [] {
        SetTargetNimFile(toml[0]);
      }
    }

    /**
     * fromMap: the options read as an integer, the target file as a string (missing keys read as
     * 0 and ""), then the base classes' fromMap results, `projectOk` first.
     */
    method FromMap(m: VariantMap, projectOk: bool, buildOk: bool) returns (ok: bool)
      modifies this`defaultOptions, this`targetNimFile
      ensures defaultOptions == IntAt(m, optionsKey) && targetNimFile == StringAt(m, targetKey)
      ensures ok <==> projectOk && buildOk
    {
      defaultOptions := IntAt(m, optionsKey);
      targetNimFile := StringAt(m, targetKey);
      if !projectOk {
        return false;
      }
      ok := buildOk;
    }

    /** toMap, over the map the base class produced. */
    method ToMap(base: VariantMap) returns (m: VariantMap)
      ensures m == ConfigToMap(base, optionsKey, targetKey, defaultOptions, targetNimFile)
    {
      m := base[optionsKey := VInt(defaultOptions)];
      m := m[targetKey := VString(targetNimFile)];
    }
  }
}

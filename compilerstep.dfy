/**
 * NimCompilerBuildStep of project/nimcompilerbuildstep.cpp: the cargo invocation built from the
 * user's options and the build configuration, and the options' persistence as one '|'-joined
 * string.
 */
module CompilerStep {
  import opened Host
  import opened Text

  /**
   * What updateCommand reads from its surroundings: the toolchain's compiler command, the build
   * configuration's default options and build directory, and the project file.
   */
  datatype CommandSource = CommandSource(compiler: Path, options: DefaultBuildOptions, buildDirectory: Path, projectFile: Path)

  /** The options that are not empty, in their order (the `if (!arg.isEmpty())` filter). */
  function NonEmpty(xs: seq<string>): (ys: seq<string>)
    ensures |ys| <= |xs|
    ensures forall i :: 0 <= i < |ys| ==> ys[i] != ""
    ensures forall x :: x in ys <==> x in xs && x != ""
    decreases |xs|
  {
    if xs == [] then [] else (if xs[0] == "" then [] else [xs[0]]) + NonEmpty(xs[1..])
  }

  /** Filtering distributes over concatenation, so it keeps the order of the options. */
  lemma {:induction false} NonEmptyConcat(xs: seq<string>, ys: seq<string>)
    ensures NonEmpty(xs + ys) == NonEmpty(xs) + NonEmpty(ys)
    decreases |xs|
  {
    if xs == [] {
      assert xs + ys == ys;
    } else {
      assert (xs + ys)[1..] == xs[1..] + ys;
      NonEmptyConcat(xs[1..], ys);
    }
  }

  /** Options with no empty string pass through unchanged. */
  lemma {:induction false} NonEmptyKeepsAll(xs: seq<string>)
    requires forall i :: 0 <= i < |xs| ==> xs[i] != ""
    ensures NonEmpty(xs) == xs
    decreases |xs|
  {
    if xs != [] {
      NonEmptyKeepsAll(xs[1..]);
    }
  }

  /** The argument list updateCommand gives cargo. */
  function Arguments(options: seq<string>, src: CommandSource): seq<string>
  {
    NonEmpty(options) + (if src.options == ReleaseOptions then ["--release"] else [])
    + ["--target-dir=" + src.buildDirectory, "--manifest-path=" + src.projectFile]
  }

  /**
   * The arguments in order: the non-empty user options, then "--release" exactly when the
   * configuration asks for a release build, then the target directory, and the manifest last.
   */
  lemma ArgumentsOrder(options: seq<string>, src: CommandSource)
    ensures var a := Arguments(options, src);
            var n := |NonEmpty(options)|;
            && |a| == n + (if src.options == ReleaseOptions then 3 else 2)
            && a[..n] == NonEmpty(options)
            && (a[n] == "--release" <==> src.options == ReleaseOptions)
            && a[|a| - 2] == "--target-dir=" + src.buildDirectory
            && a[|a| - 1] == "--manifest-path=" + src.projectFile
  {
    var a := Arguments(options, src);
    var n := |NonEmpty(options)|;
    if src.options != ReleaseOptions {
      assert a[n] == "--target-dir=" + src.buildDirectory;
      assert a[n][2] == 't' != "--release"[2];
    }
  }

  /** The loop of updateCommand: the compiler command with its arguments appended one by one. */
  method ComposeCommand(options: seq<string>, src: CommandSource) returns (cmd: CommandLine)
    ensures cmd == CommandLine(src.compiler, Arguments(options, src))
  {
    var args: seq<string> := [];
    for i := 0 to |options|
      invariant args == NonEmpty(options[..i])
    {
      assert options[..i + 1] == options[..i] + [options[i]];
      NonEmptyConcat(options[..i], [options[i]]);
      if options[i] != "" {
        args := args + [options[i]];
      }
    }
    assert options[..|options|] == options;
    if src.options == ReleaseOptions {
      args := args + ["--release"];
    }
    args := args + ["--target-dir=" + src.buildDirectory];
    args := args + ["--manifest-path=" + src.projectFile];
    cmd := CommandLine(src.compiler, args);
  }

  /** toMap: the options joined with '|' under `key`. */
  function OptionsToMap(base: VariantMap, key: string, options: seq<string>): VariantMap
  {
    base[key := VString(Join(options, "|"))]
  }

  /** fromMap: the string under `key` split on '|' (a missing key reads as the empty string). */
  function OptionsFromMap(m: VariantMap, key: string): seq<string>
  {
    Split(StringAt(m, key), '|')
  }

  /** A non-empty list of options without '|' survives toMap followed by fromMap. */
  lemma OptionsRoundTrip(base: VariantMap, key: string, options: seq<string>)
    requires |options| >= 1 && NoneContains(options, '|')
    ensures OptionsFromMap(OptionsToMap(base, key, options), key) == options
  {
    SplitJoin(options, '|');
  }

  /**
   * The empty list comes back as one empty option, which the command drops: for any options
   * without '|', the stored and restored options give the same cargo arguments.
   */
  lemma OptionsRoundTripCommand(base: VariantMap, key: string, options: seq<string>, src: CommandSource)
    requires NoneContains(options, '|')
    ensures options == [] ==> OptionsFromMap(OptionsToMap(base, key, options), key) == [""]
    ensures Arguments(OptionsFromMap(OptionsToMap(base, key, options), key), src) == Arguments(options, src)
  {
    if options == [] {
      assert Split("", '|') == [""];
    } else {
      OptionsRoundTrip(base, key, options);
    }
  }

  /** A stored string survives fromMap followed by toMap, whatever it holds. */
  lemma StoredOptionsRoundTrip(m: VariantMap, key: string)
    requires key in m && m[key].VString?
    ensures OptionsToMap(m, key, OptionsFromMap(m, key)) == m
  {
    JoinSplit(m[key].s, '|');
  }

  /**
   * The step object: its user options, the command line of its process parameters, the
   * userCompilerOptionsChanged signals it has emitted and the number of processParametersChanged
   * signals. `optionsKey` is Constants::C_NIMCOMPILERBUILDSTEP_USERCOMPILEROPTIONS.
   */
  class NimCompilerBuildStep {
    const optionsKey: string
    var userCompilerOptions: seq<string>
    var command: Option<CommandLine>
    var optionsChanged: seq<seq<string>>
    var parametersChanged: nat

    constructor (optionsKey: string, src: Option<CommandSource>)
      ensures this.optionsKey == optionsKey && userCompilerOptions == [] && optionsChanged == [] && parametersChanged == 1
      ensures command == if src.Some? then Some(CommandLine(src.value.compiler, Arguments([], src.value))) else None
    {
      this.optionsKey := optionsKey;
      userCompilerOptions := [];
      command := None;
      optionsChanged := [];
      parametersChanged := 0;
      new;
      UpdateProcessParameters(src);
    }

    /**
     * updateCommand: `src` is None when one of its QTC_ASSERTs fails (no Nim build configuration,
     * target, kit or toolchain), and then the command line stays as it was.
     */
    method UpdateCommand(src: Option<CommandSource>)
      modifies this`command
      ensures command == if src.Some? then Some(CommandLine(src.value.compiler, Arguments(userCompilerOptions, src.value))) else old(command)
    {
      if src.None? {
        return;
      }
      var cmd := ComposeCommand(userCompilerOptions, src.value);
      command := Some(cmd);
    }

    /**
     * updateProcessParameters: the command as above, then processParametersChanged. The working
     * directory and the environment it also refreshes are not part of this model.
     */
    method UpdateProcessParameters(src: Option<CommandSource>)
      modifies this`command, this`parametersChanged
      ensures command == if src.Some? then Some(CommandLine(src.value.compiler, Arguments(userCompilerOptions, src.value))) else old(command)
      ensures parametersChanged == old(parametersChanged) + 1
    {
      UpdateCommand(src);
      parametersChanged := parametersChanged + 1;
    }

    /** setUserCompilerOptions: stores the options, always signals, and rebuilds the command. */
    method SetUserCompilerOptions(options: seq<string>, src: Option<CommandSource>)
      modifies this
      ensures userCompilerOptions == options && optionsChanged == old(optionsChanged) + [options]
      ensures command == if src.Some? then Some(CommandLine(src.value.compiler, Arguments(options, src.value))) else old(command)
      ensures parametersChanged == old(parametersChanged) + 1
    {
      userCompilerOptions := options;
      optionsChanged := optionsChanged + [options];
      UpdateProcessParameters(src);
    }

    /** toMap, over the map the base class produced. */
    method ToMap(base: VariantMap) returns (m: VariantMap)
      ensures m == OptionsToMap(base, optionsKey, userCompilerOptions)
    {
      m := base[optionsKey := VString(Join(userCompilerOptions, "|"))];
    }

    /** fromMap: restores the options, rebuilds the command, and reports success. */
    method FromMap(m: VariantMap, src: Option<CommandSource>) returns (ok: bool)
      modifies this
      ensures ok && userCompilerOptions == OptionsFromMap(m, optionsKey) && optionsChanged == old(optionsChanged)
      ensures command == if src.Some? then Some(CommandLine(src.value.compiler, Arguments(userCompilerOptions, src.value))) else old(command)
      ensures parametersChanged == old(parametersChanged) + 1
    {
      userCompilerOptions := Split(StringAt(m, optionsKey), '|');
      UpdateProcessParameters(src);
      ok := true;
    }
  }
}

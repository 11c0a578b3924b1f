/**
 * NimbleBuildStep of project/nimblebuildstep.cpp: the arguments of the `nimble build` step, their
 * default per build type, their "set only if different" setter and their persistence. The line
 * parser this file carries is the same code as the compiler step's and is modelled once, in
 * module LineMachine.
 */
module NimbleStep {
  import opened Host

  /** Constants::C_NIMBLEBUILDSTEP_ARGUMENTS. */
  const ArgumentsKey: string := "Nim.NimbleBuildStep.Arguments"

  const DebuggerArgument: string := "--debugger:native"

  /**
   * defaultArguments: `buildType` is the build configuration's build type, None when there is no
   * build configuration (the QTC_ASSERT's fallback). Only a Debug configuration asks for the native
   * debugger; every other case yields no arguments.
   */
  function DefaultArguments(buildType: Option<BuildType>): (args: string)
    ensures args == DebuggerArgument <==> buildType == Some(Debug)
    ensures args != DebuggerArgument ==> args == ""
  {
    match buildType
    case None => ""
    case Some(Debug) => DebuggerArgument
    case Some(_) => ""
  }

  /** The command line of init and onArgumentsChanged: `nimble build <arguments>`. */
  function NimbleCommand(nimble: Path, arguments: string): (cmd: CommandLine)
    ensures cmd.executable == nimble && |cmd.arguments| == 2
    ensures cmd.arguments[0] == "build" && cmd.arguments[1] == arguments
  {
    CommandLine(nimble, ["build", arguments])
  }

  /** toMap, over the map the base class produced. */
  function ArgumentsToMap(base: VariantMap, arguments: string): VariantMap
  {
    base[ArgumentsKey := VString(arguments)]
  }

  /** fromMap: the stored value, or the default when the key is absent. */
  function ArgumentsFromMap(m: VariantMap, buildType: Option<BuildType>): string
  {
    if ArgumentsKey in m then VariantToString(m[ArgumentsKey]) else DefaultArguments(buildType)
  }

  /** Stored arguments come back as they were, whatever the build type. */
  lemma ArgumentsRoundTrip(base: VariantMap, arguments: string, buildType: Option<BuildType>)
    ensures ArgumentsFromMap(ArgumentsToMap(base, arguments), buildType) == arguments
  {
  }

  /** A map without the key restores the default arguments, and writing them back stores them. */
  lemma MissingArgumentsDefault(m: VariantMap, buildType: Option<BuildType>)
    requires ArgumentsKey !in m
    ensures ArgumentsFromMap(m, buildType) == DefaultArguments(buildType)
    ensures ArgumentsToMap(m, ArgumentsFromMap(m, buildType))[ArgumentsKey] == VString(DefaultArguments(buildType))
  {
  }

  /**
   * The step object. `nimble` is what QStandardPaths::findExecutable("nimble") finds; `connected`
   * says whether the constructor got past its QTC_ASSERT and connected argumentsChanged to
   * onArgumentsChanged. `command` is the process parameters' command line, None until one is set,
   * and `argumentsChanged` lists the argumentsChanged signals emitted.
   */
  class NimbleBuildStep {
    const nimble: Path
    const connected: bool
    var arguments: string
    var command: Option<CommandLine>
    var argumentsChanged: seq<string>

    /**
     * The constructor: without a build configuration it returns early with empty arguments;
     * otherwise it resets the arguments to their default, which signals only for a Debug one.
     */
    constructor (nimble: Path, buildType: Option<BuildType>)
      ensures this.nimble == nimble && connected == buildType.Some?
      ensures arguments == DefaultArguments(buildType)
      ensures argumentsChanged == if buildType == Some(Debug) then [DebuggerArgument] else []
      ensures command == if buildType == Some(Debug) then Some(NimbleCommand(nimble, DebuggerArgument)) else None
    {
      this.nimble := nimble;
      connected := buildType.Some?;
      arguments := "";
      command := None;
      argumentsChanged := [];
      new;
      if buildType.Some? {
        ResetArguments(buildType);
      }
    }

    /** onArgumentsChanged: the command line follows the arguments. */
    method OnArgumentsChanged()
      modifies this`command
      ensures command == Some(NimbleCommand(nimble, arguments))
    {
      command := Some(CommandLine(nimble, ["build", arguments]));
    }

    /**
     * setArguments: equal arguments change nothing and signal nothing; different ones are stored
     * and signalled once, and the connected slot then rebuilds the command line.
     */
    method SetArguments(args: string)
      modifies this`arguments, this`argumentsChanged, this`command
      ensures arguments == args
      ensures old(arguments) == args ==> argumentsChanged == old(argumentsChanged) && command == old(command)
      ensures old(arguments) != args ==> argumentsChanged == old(argumentsChanged) + [args]
      ensures old(arguments) != args ==> command == if connected then Some(NimbleCommand(nimble, args)) else old(command)
    {
      if arguments == args {
        return;
      }
      arguments := args;
      argumentsChanged := argumentsChanged + [args];
      if connected {
        OnArgumentsChanged();
      }
    }

    /** resetArguments, also run on every buildTypeChanged. */
    method ResetArguments(buildType: Option<BuildType>)
      modifies this`arguments, this`argumentsChanged, this`command
      ensures arguments == DefaultArguments(buildType)
      ensures old(arguments) == arguments ==> argumentsChanged == old(argumentsChanged) && command == old(command)
      ensures old(arguments) != arguments ==> argumentsChanged == old(argumentsChanged) + [arguments]
      ensures old(arguments) != arguments ==> command == if connected then Some(NimbleCommand(nimble, arguments)) else old(command)
    {
      SetArguments(DefaultArguments(buildType));
    }

    /**
     * init: sets the command line from the current arguments and returns what the base class's
     * init returns (`baseInit`).
     */
    method Init(baseInit: bool) returns (ok: bool)
      modifies this`command
      ensures ok == baseInit && command == Some(NimbleCommand(nimble, arguments))
    {
      command := Some(CommandLine(nimble, ["build", arguments]));
      ok := baseInit;
    }

    /** fromMap: restores the arguments without signalling and without touching the command. */
    method FromMap(m: VariantMap, buildType: Option<BuildType>, baseFromMap: bool) returns (ok: bool)
      modifies this`arguments
      ensures ok == baseFromMap && arguments == ArgumentsFromMap(m, buildType)
    {
      arguments := if ArgumentsKey in m then VariantToString(m[ArgumentsKey]) else DefaultArguments(buildType);
      ok := baseFromMap;
    }

    /** toMap. */
    method ToMap(base: VariantMap) returns (m: VariantMap)
      ensures m == ArgumentsToMap(base, arguments)
    {
      m := base[ArgumentsKey := VString(arguments)];
    }
  }

  /** Setting the same arguments twice signals once: the second call changes nothing. */
  method SetArgumentsTwice(step: NimbleBuildStep, args: string)
    modifies step
    ensures step.arguments == args && step.command == (if old(step.arguments) == args || !step.connected then old(step.command) else Some(NimbleCommand(step.nimble, args)))
    ensures step.argumentsChanged == old(step.argumentsChanged) + (if old(step.arguments) == args then [] else [args])
  {
    step.SetArguments(args);
    step.SetArguments(args);
  }
}

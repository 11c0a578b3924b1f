/**
 * Types shared by the whole model: paths, build types, command lines, task severities,
 * and the persisted key/value settings of the host IDE (QVariantMap).
 */
module Host {
  import opened Text

  /** The text of a Utils::FilePath; the empty string is the empty path. */
  type Path = string

  datatype Option<T> = None | Some(value: T)

  /** The value of an option as a list of at most one element. */
  function OptionToSeq<T>(o: Option<T>): seq<T>
  {
    if o.Some? then [o.value] else []
  }

  /** ProjectExplorer::BuildConfiguration::BuildType. */
  datatype BuildType = BuildUnknown | Debug | Profile | Release

  /**
   * NimBuildConfiguration::DefaultBuildOptions, stored as the integer the settings map holds.
   * The enum's declaration is not part of this model; the values follow the order Empty, Debug,
   * Release of the build-type enum declared beside it.
   */
  type DefaultBuildOptions = int
  const EmptyOptions: DefaultBuildOptions := 0
  const DebugOptions: DefaultBuildOptions := 1
  const ReleaseOptions: DefaultBuildOptions := 2

  /** ProjectExplorer::Task::TaskType, restricted to the values this plugin produces. */
  datatype TaskType = Unknown | Error | Warning

  /** Utils::CommandLine: an executable and its argument list. */
  datatype CommandLine = CommandLine(executable: Path, arguments: seq<string>)

  /** The two value kinds the plugin stores in a QVariantMap. */
  datatype Variant = VString(s: string) | VInt(i: int)

  /** A persisted settings map (QVariantMap). */
  type VariantMap = map<string, Variant>

  /** QVariant::toString(): a string as it is, an integer in decimal. */
  function VariantToString(v: Variant): string
  {
    match v
    case VString(s) => s
    case VInt(i) => IntToDecimal(i)
  }

  /** QVariant::toInt(): an integer as it is, a string through QString::toInt (0 on failure). */
  function VariantToInt(v: Variant): int
  {
    match v
    case VString(s) => ParseInt32(s)
    case VInt(i) => i
  }

  /** `map[key].toString()`: a missing key reads as an invalid QVariant, whose string is empty. */
  function StringAt(m: VariantMap, key: string): string
  {
    if key in m then VariantToString(m[key]) else ""
  }

  /** `map[key].toInt()`: a missing key reads as 0. */
  function IntAt(m: VariantMap, key: string): int
  {
    if key in m then VariantToInt(m[key]) else 0
  }

  /**
   * `p` names something inside the directory `dir`: it is `dir` followed by more text, and a '/'
   * separates the two unless `dir` is empty or already ends with one.
   */
  predicate Below(p: Path, dir: Path)
  {
    |dir| < |p| && p[..|dir|] == dir && (dir == "" || dir[|dir| - 1] == '/' || p[|dir|] == '/')
  }

  /**
   * Utils::FilePath::pathAppended: an empty string leaves the path as it is; otherwise a '/' is
   * inserted unless the path is empty or already ends with one.
   */
  function PathAppended(dir: Path, s: string): (p: Path)
    ensures s == "" ==> p == dir
    ensures s != "" ==> EndsWith(p, s) && StartsWith(p, dir)
    ensures s != "" ==> Below(p, dir)
    ensures s != "" && dir != "" && dir[|dir| - 1] != '/' ==> p == dir + "/" + s
    ensures s != "" && (dir == "" || dir[|dir| - 1] == '/') ==> p == dir + s
  {
    if s == "" then dir
    else if dir == "" || dir[|dir| - 1] == '/' then dir + s
    else dir + "/" + s
  }
}

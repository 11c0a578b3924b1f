/**
 * NimbleBuildSystem of project/nimblebuildsystem.cpp: the choice of the project's own package in
 * cargo's metadata, the binaries it lists, the run targets and tasks derived from them, the
 * single-run guard, the change filters, and the actions the project tree allows.
 */
module NimbleSystem {
  import opened Host
  import opened Text
  import opened Scanner

  /**
   * A JSON value as Qt's JSON classes present it; JUndefined is what a lookup of a missing key
   * or index yields. Numbers are kept as integers.
   */
  datatype Json =
    | JUndefined
    | JNull
    | JBool(b: bool)
    | JNumber(n: int)
    | JString(s: string)
    | JArray(items: seq<Json>)
    | JObject(fields: map<string, Json>)

  /** `value[key]`: the member of an object, undefined for a missing key or a non-object. */
  function Member(v: Json, key: string): Json
  {
    if v.JObject? && key in v.fields then v.fields[key] else JUndefined
  }

  /** `value[i]`: the element of an array, undefined out of range or for a non-array. */
  function Element(v: Json, i: nat): Json
  {
    if v.JArray? && i < |v.items| then v.items[i] else JUndefined
  }

  /** `toArray()`: the elements of an array, none for anything else. */
  function ToArray(v: Json): seq<Json>
  {
    if v.JArray? then v.items else []
  }

  /** `toString()`: the text of a string, empty for anything else. */
  function ToStr(v: Json): string
  {
    if v.JString? then v.s else ""
  }

  /** The arguments of the metadata query, in this order. */
  function MetadataArgs(manifest: Path): (args: seq<string>)
    ensures |args| == 5
    ensures args[0] == "metadata" && args[1] == "--no-deps" && args[2] == "--offline"
    ensures args[3] == "--manifest-path=" + manifest && args[4] == "--format-version=1"
  {
    ["metadata", "--no-deps", "--offline", "--manifest-path=" + manifest, "--format-version=1"]
  }

  function Packages(doc: Json): seq<Json>
  {
    ToArray(Member(doc, "packages"))
  }

  function ManifestPath(package: Json): string
  {
    ToStr(Member(package, "manifest_path"))
  }

  /** The packages whose manifest is `path`, in document order. */
  function OwnPackages(packages: seq<Json>, path: string): (own: seq<Json>)
    ensures |own| <= |packages|
    ensures forall p :: p in own <==> p in packages && ManifestPath(p) == path
    ensures packages != [] && ManifestPath(packages[0]) == path ==> own != [] && own[0] == packages[0]
    decreases |packages|
  {
    if packages == [] then []
    else (if ManifestPath(packages[0]) == path then [packages[0]] else []) + OwnPackages(packages[1..], path)
  }

  /** The package parseMetadata takes is the first in the document whose manifest is `path`. */
  lemma {:induction false} FirstOwnPackage(packages: seq<Json>, path: string)
    requires OwnPackages(packages, path) != []
    ensures exists i :: 0 <= i < |packages| && packages[i] == OwnPackages(packages, path)[0]
              && ManifestPath(packages[i]) == path
              && (forall j :: 0 <= j < i ==> ManifestPath(packages[j]) != path)
    decreases |packages|
  {
    if ManifestPath(packages[0]) != path {
      assert OwnPackages(packages, path) == OwnPackages(packages[1..], path);
      FirstOwnPackage(packages[1..], path);
      var i :| 0 <= i < |packages[1..]| && packages[1..][i] == OwnPackages(packages[1..], path)[0]
               && ManifestPath(packages[1..][i]) == path
               && (forall j :: 0 <= j < i ==> ManifestPath(packages[1..][j]) != path);
      assert packages[i + 1] == OwnPackages(packages, path)[0];
      forall j | 0 <= j < i + 1
        ensures ManifestPath(packages[j]) != path
      {
        if j > 0 {
          assert packages[j] == packages[1..][j - 1];
        }
      }
    } else {
      assert packages[0] == OwnPackages(packages, path)[0];
    }
  }

  /** The first kind of a target, and its name. */
  function Kind(target: Json): string
  {
    ToStr(Element(Member(target, "kind"), 0))
  }

  function Name(target: Json): string
  {
    ToStr(Member(target, "name"))
  }

  /** The names of the targets whose first kind is "bin", in document order. */
  function Bins(targets: seq<Json>): seq<string>
    decreases |targets|
  {
    if targets == [] then [] else (if Kind(targets[0]) == "bin" then [Name(targets[0])] else []) + Bins(targets[1..])
  }

  /**
   * Bins goes target by target: a "bin" target contributes its name and any other target
   * nothing, and the contributions are concatenated in order.
   */
  lemma {:induction false} BinsConcat(xs: seq<Json>, ys: seq<Json>)
    ensures Bins(xs + ys) == Bins(xs) + Bins(ys)
    decreases |xs|
  {
    if xs == [] {
      assert xs + ys == ys;
    } else {
      var head := if Kind(xs[0]) == "bin" then [Name(xs[0])] else [];
      assert (xs + ys)[0] == xs[0];
      assert (xs + ys)[1..] == xs[1..] + ys;
      BinsConcat(xs[1..], ys);
      assert Bins(xs + ys) == head + (Bins(xs[1..]) + Bins(ys));
      assert head + (Bins(xs[1..]) + Bins(ys)) == (head + Bins(xs[1..])) + Bins(ys);
    }
  }

  lemma BinsOne(t: Json)
    ensures Bins([t]) == if Kind(t) == "bin" then [Name(t)] else []
  {
    assert [t][1..] == [];
  }

  /** Every listed binary is the name of a "bin" target. */
  lemma {:induction false} BinsAreBinTargets(targets: seq<Json>)
    ensures |Bins(targets)| <= |targets|
    ensures forall b :: b in Bins(targets) ==> exists t :: t in targets && Kind(t) == "bin" && Name(t) == b
    decreases |targets|
  {
    if targets != [] {
      BinsAreBinTargets(targets[1..]);
      forall b | b in Bins(targets)
        ensures exists t :: t in targets && Kind(t) == "bin" && Name(t) == b
      {
        if Kind(targets[0]) == "bin" && b == Name(targets[0]) {
          assert targets[0] in targets;
        } else {
          assert b in Bins(targets[1..]);
          var t :| t in targets[1..] && Kind(t) == "bin" && Name(t) == b;
          assert t in targets;
        }
      }
    }
  }

  /** NimbleMetadata. */
  datatype NimbleMetadata = NimbleMetadata(projectName: string, bin: seq<string>)

  const NoMetadata := NimbleMetadata("", [])

  /** The loop over a package's targets, appending the name of every "bin" target. */
  method CollectBins(targets: seq<Json>) returns (bin: seq<string>)
    ensures bin == Bins(targets)
  {
    bin := [];
    for i := 0 to |targets|
      invariant bin == Bins(targets[..i])
    {
      assert targets[..i + 1] == targets[..i] + [targets[i]];
      BinsConcat(targets[..i], [targets[i]]);
      BinsOne(targets[i]);
      if Kind(targets[i]) == "bin" {
        bin := bin + [Name(targets[i])];
      }
    }
    assert targets[..|targets|] == targets;
  }

  /** The metadata of one package: its name and its binaries. */
  function MetadataOf(package: Json): NimbleMetadata
  {
    NimbleMetadata(ToStr(Member(package, "name")), Bins(ToArray(Member(package, "targets"))))
  }

  /**
   * parseMetadata after the process has run, as written: it takes element 0 of the filtered
   * package list unchecked, so it is defined only when some package has the given manifest.
   */
  method ParseMetadataAsWritten(doc: Json, path: Path) returns (m: NimbleMetadata)
    requires OwnPackages(Packages(doc), path) != []
    ensures m == MetadataOf(OwnPackages(Packages(doc), path)[0])
  {
    var own := OwnPackages(Packages(doc), path);
    var package := own[0];
    var bin := CollectBins(ToArray(Member(package, "targets")));
    m := NimbleMetadata(ToStr(Member(package, "name")), bin);
  }

  /**
   * parseMetadata with the missing case handled: with no package for the manifest it returns
   * the empty metadata it starts from; otherwise the same result as the code as written.
   */
  method ParseMetadata(doc: Json, path: Path) returns (m: NimbleMetadata)
    ensures OwnPackages(Packages(doc), path) == [] ==> m == NoMetadata
    ensures OwnPackages(Packages(doc), path) != [] ==> m == MetadataOf(OwnPackages(Packages(doc), path)[0])
  {
    var own := OwnPackages(Packages(doc), path);
    if own == [] {
      return NoMetadata;
    }
    m := ParseMetadataAsWritten(doc, path);
  }

  /**
   * cargo reports each package's manifest as the path of its Cargo.toml file. No package then
   * matches a path that does not name such a file, such as the project directory.
   */
  lemma {:induction false} DirectoryNeverMatches(packages: seq<Json>, dir: Path)
    requires forall p :: p in packages ==> EndsWith(ManifestPath(p), "/Cargo.toml")
    requires !EndsWith(dir, "/Cargo.toml")
    ensures OwnPackages(packages, dir) == []
    decreases |packages|
  {
    if packages != [] {
      assert packages[0] in packages;
      DirectoryNeverMatches(packages[1..], dir);
    }
  }

  /**
   * A project in /p whose manifest is /p/Cargo.toml: asking for the project directory, as
   * updateProject does, finds no package, while asking for the project file finds it.
   */
  lemma ProjectDirectoryMissesOwnPackage()
    ensures var package := JObject(map["manifest_path" := JString("/p/Cargo.toml"), "name" := JString("p")]);
            var doc := JObject(map["packages" := JArray([package])]);
            && OwnPackages(Packages(doc), "/p") == []
            && OwnPackages(Packages(doc), "/p/Cargo.toml") == [package]
  {
    var package := JObject(map["manifest_path" := JString("/p/Cargo.toml"), "name" := JString("p")]);
    var doc := JObject(map["packages" := JArray([package])]);
    assert Packages(doc) == [package];
    assert ManifestPath(package) == "/p/Cargo.toml";
    assert "/p/Cargo.toml" != "/p" by {
      assert |"/p/Cargo.toml"| != |"/p"|;
    }
    assert [package][1..] == [];
  }

  /** ProjectExplorer::BuildTargetInfo, the fields updateProject sets. */
  datatype BuildTargetInfo = BuildTargetInfo(displayName: string, targetFilePath: Path, projectFilePath: Path, workingDirectory: Path, buildKey: string)

  /** NimbleTask. */
  datatype NimbleTask = NimbleTask(name: string, description: string)

  function TargetOf(bin: string, buildDir: Path, projectFile: Path, exeSuffix: string): BuildTargetInfo
  {
    BuildTargetInfo(bin, PathAppended(buildDir, bin + exeSuffix), projectFile, buildDir, bin)
  }

  /**
   * The run targets: with an active build configuration (its build directory `buildDir`), one
   * per binary, in order, named and keyed by it, running from the build directory an executable
   * inside it; without one, none. `exeSuffix` is the host's executable suffix.
   */
  function TargetsFor(bins: seq<string>, buildDir: Option<Path>, projectFile: Path, exeSuffix: string): (targets: seq<BuildTargetInfo>)
    ensures buildDir.None? ==> targets == []
    ensures buildDir.Some? ==> |targets| == |bins|
    ensures buildDir.Some? ==> forall i :: 0 <= i < |targets| ==>
              && targets[i].displayName == bins[i] && targets[i].buildKey == bins[i]
              && targets[i].projectFilePath == projectFile && targets[i].workingDirectory == buildDir.value
              && StartsWith(targets[i].targetFilePath, buildDir.value)
              && EndsWith(targets[i].targetFilePath, bins[i] + exeSuffix)
              && (bins[i] + exeSuffix != "" ==> Below(targets[i].targetFilePath, buildDir.value))
  {
    match buildDir
    case None => []
    case Some(dir) => seq(|bins|, i requires 0 <= i < |bins| => TargetOf(bins[i], dir, projectFile, exeSuffix))
  }

  /** The tasks: one per binary, in order, with the binary as name and description; none without an active configuration. */
  function TasksFor(bins: seq<string>, active: bool): (tasks: seq<NimbleTask>)
    ensures !active ==> tasks == []
    ensures active ==> |tasks| == |bins| && forall i :: 0 <= i < |tasks| ==> tasks[i].name == bins[i] && tasks[i].description == bins[i]
  {
    if active then seq(|bins|, i requires 0 <= i < |bins| => NimbleTask(bins[i], bins[i])) else []
  }

  /** The i-th target and the i-th task belong to the same binary. */
  lemma TargetsMatchTasks(bins: seq<string>, buildDir: Option<Path>, projectFile: Path, exeSuffix: string)
    ensures var targets := TargetsFor(bins, buildDir, projectFile, exeSuffix);
            var tasks := TasksFor(bins, buildDir.Some?);
            |targets| == |tasks| && forall i :: 0 <= i < |tasks| ==> targets[i].buildKey == tasks[i].name
  {
  }

  /** The file-change filter: only a change of the project file asks for a parse. */
  function ReparseOnFileChange(path: Path, projectFile: Path): (reparse: bool)
    ensures reparse <==> path == projectFile
  {
    path == projectFile
  }

  /** The directory-change filter: every directory except the project root asks for a parse. */
  function ReparseOnDirectoryChange(dir: Path, projectDir: Path): (reparse: bool)
    ensures reparse <==> dir != projectDir
  {
    dir != projectDir
  }

  /** ProjectExplorer::ProjectAction. */
  datatype ProjectAction =
    | InheritedFromParent | AddSubProject | AddExistingProject | RemoveSubProject | AddNewFile
    | AddExistingFile | AddExistingDirectory | RemoveFile | EraseFile | Rename | DuplicateFile
    | HidePathActions | HideFileActions | HideFolderActions | HasSubProjectRunConfigurations

  /** The kinds of project tree node supportsAction tells apart. */
  datatype NodeKind = FileNodeKind | FolderNodeKind | ProjectNodeKind | OtherNodeKind

  /**
   * supportsAction: files may be renamed and removed, folders and projects may get new or
   * existing files and lose files, and any other node gets the base class's answer `base`.
   */
  function SupportsAction(kind: NodeKind, action: ProjectAction, base: (NodeKind, ProjectAction) -> bool): (supported: bool)
    ensures kind == FileNodeKind ==> (supported <==> action == Rename || action == RemoveFile)
    ensures kind == FolderNodeKind || kind == ProjectNodeKind ==>
              (supported <==> action == AddNewFile || action == RemoveFile || action == AddExistingFile)
    ensures kind == OtherNodeKind ==> supported == base(kind, action)
  {
    match kind
    case FileNodeKind => action == Rename || action == RemoveFile
    case FolderNodeKind => action == AddNewFile || action == RemoveFile || action == AddExistingFile
    case ProjectNodeKind => action == AddNewFile || action == RemoveFile || action == AddExistingFile
    case OtherNodeKind => base(kind, action)
  }

  /** Removing files is the one action files, folders and projects all allow. */
  lemma RemoveFileEverywhere(kind: NodeKind, base: (NodeKind, ProjectAction) -> bool)
    requires kind != OtherNodeKind
    ensures SupportsAction(kind, RemoveFile, base)
    ensures kind == FileNodeKind <==> SupportsAction(kind, Rename, base)
    ensures kind == FileNodeKind <==> !SupportsAction(kind, AddNewFile, base)
  {
  }

  /**
   * The build system: the project, its scanner, the run targets, the tasks with the number of
   * tasksChanged signals, whether the parse guard is held, and counts of scans started, delayed
   * parses requested and buildSystemUpdated signals.
   */
  class NimbleBuildSystem {
    const projectDir: Path
    const projectFile: Path
    const exeSuffix: string
    const scanner: NimProjectScanner
    var targets: seq<BuildTargetInfo>
    var displayName: string
    var tasks: seq<NimbleTask>
    var tasksChanged: nat
    var guardHeld: bool
    var scansStarted: nat
    var parseRequests: nat
    var updates: nat

    /** The constructor ends by asking for a delayed parse. */
    constructor (projectDir: Path, projectFile: Path, exeSuffix: string, scanner: NimProjectScanner)
      ensures this.projectDir == projectDir && this.projectFile == projectFile && this.exeSuffix == exeSuffix && this.scanner == scanner
      ensures targets == [] && displayName == "" && tasks == [] && tasksChanged == 0
      ensures !guardHeld && scansStarted == 0 && parseRequests == 1 && updates == 0
    {
      this.projectDir := projectDir;
      this.projectFile := projectFile;
      this.exeSuffix := exeSuffix;
      this.scanner := scanner;
      targets := [];
      displayName := "";
      tasks := [];
      tasksChanged := 0;
      guardHeld := false;
      scansStarted := 0;
      parseRequests := 1;
      updates := 0;
    }

    /**
     * triggerParsing: while a run holds the guard the request is dropped, nothing is queued;
     * otherwise the guard is taken and a scan starts.
     */
    method TriggerParsing()
      modifies this`guardHeld, this`scansStarted
      ensures guardHeld
      ensures scansStarted == old(scansStarted) + (if old(guardHeld) then 0 else 1)
    {
      if guardHeld {
        return;
      }
      guardHeld := true;
      scansStarted := scansStarted + 1;
    }

    /**
     * updateProject, run when the scan finishes, with `doc` the metadata cargo printed and
     * `buildDir` the active build configuration's build directory (None without one). It reads
     * the package of the project file, sets the targets and the project's display name, replaces
     * the tasks and signals only when they differ, releases the guard and signals the update.
     */
    method UpdateProject(doc: Json, buildDir: Option<Path>)
      modifies this`targets, this`displayName, this`tasks, this`tasksChanged, this`guardHeld, this`updates
      ensures var metadata := if OwnPackages(Packages(doc), projectFile) == [] then NoMetadata
                              else MetadataOf(OwnPackages(Packages(doc), projectFile)[0]);
              && targets == TargetsFor(metadata.bin, buildDir, projectFile, exeSuffix)
              && displayName == metadata.projectName
              && tasks == TasksFor(metadata.bin, buildDir.Some?)
      ensures tasksChanged == old(tasksChanged) + (if tasks == old(tasks) then 0 else 1)
      ensures !guardHeld && updates == old(updates) + 1
    {
      var metadata := ParseMetadata(doc, projectFile);
      ApplyMetadata(metadata, buildDir);
    }

    /** The part of updateProject after the metadata is read: targets, name and tasks, then the guard. */
    method ApplyMetadata(metadata: NimbleMetadata, buildDir: Option<Path>)
      modifies this`targets, this`displayName, this`tasks, this`tasksChanged, this`guardHeld, this`updates
      ensures targets == TargetsFor(metadata.bin, buildDir, projectFile, exeSuffix)
      ensures displayName == metadata.projectName
      ensures tasks == TasksFor(metadata.bin, buildDir.Some?)
      ensures tasksChanged == old(tasksChanged) + (if tasks == old(tasks) then 0 else 1)
      ensures !guardHeld && updates == old(updates) + 1
    {
      targets := TargetsFor(metadata.bin, buildDir, projectFile, exeSuffix);
      var newTasks := TasksFor(metadata.bin, buildDir.Some?);
      displayName := metadata.projectName;
      if newTasks != tasks {
        tasks := newTasks;
        tasksChanged := tasksChanged + 1;
      }
      guardHeld := false;
      updates := updates + 1;
    }

    /** The project file's change notification. */
    method OnFileChanged(path: Path)
      modifies this`parseRequests
      ensures parseRequests == old(parseRequests) + (if path == projectFile then 1 else 0)
    {
      if ReparseOnFileChange(path, projectFile) {
        parseRequests := parseRequests + 1;
      }
    }

    /** A watched directory's change notification. */
    method OnDirectoryChanged(dir: Path)
      modifies this`parseRequests
      ensures parseRequests == old(parseRequests) + (if dir != projectDir then 1 else 0)
    {
      if ReparseOnDirectoryChange(dir, projectDir) {
        parseRequests := parseRequests + 1;
      }
    }

    /** The scanner's requestReparse, connected to requestDelayedParse. */
    method OnReparseRequested()
      modifies this`parseRequests
      ensures parseRequests == old(parseRequests) + 1
    {
      parseRequests := parseRequests + 1;
    }

    /** addFiles: handed to the scanner, whose requestReparse asks this system for a delayed parse. */
    method AddFiles(files: seq<Path>) returns (ok: bool)
      modifies scanner`reparseRequests, this`parseRequests
      ensures ok && scanner.reparseRequests == old(scanner.reparseRequests) + 1
      ensures parseRequests == old(parseRequests) + 1
    {
      ok := scanner.AddFiles(files);
      OnReparseRequested();
    }

    /** removeFiles: handed to the scanner, whose requestReparse asks this system for a delayed parse. */
    method RemoveFiles(files: seq<Path>) returns (r: RemovedFilesFromProject)
      modifies scanner`reparseRequests, this`parseRequests
      ensures r == Ok && scanner.reparseRequests == old(scanner.reparseRequests) + 1
      ensures parseRequests == old(parseRequests) + 1
    {
      r := scanner.RemoveFiles(files);
      OnReparseRequested();
    }

    /** renameFile: handed to the scanner, whose requestReparse asks this system for a delayed parse. */
    method RenameFile(from: Path, to: Path) returns (ok: bool)
      modifies scanner`reparseRequests, this`parseRequests
      ensures ok && scanner.reparseRequests == old(scanner.reparseRequests) + 1
      ensures parseRequests == old(parseRequests) + 1
    {
      ok := scanner.RenameFile(from, to);
      OnReparseRequested();
    }

    /** deleteFiles: reports success and does nothing. */
    method DeleteFiles(files: seq<Path>) returns (ok: bool)
      ensures ok
    {
      ok := true;
    }
  }

  /** Two triggers in a row start one scan: the second is dropped while the first holds the guard. */
  method TriggerTwice(system: NimbleBuildSystem)
    modifies system
    requires !system.guardHeld
    ensures system.guardHeld && system.scansStarted == old(system.scansStarted) + 1
  {
    system.TriggerParsing();
    system.TriggerParsing();
  }

  /**
   * A second update from the same metadata finds the same tasks and signals nothing: two updates
   * end in the state one update reaches, tasksChanged included, and only `updates` counts both.
   */
  method UpdateTwice(system: NimbleBuildSystem, doc: Json, buildDir: Option<Path>)
    modifies system
    ensures var metadata := if OwnPackages(Packages(doc), system.projectFile) == [] then NoMetadata
                            else MetadataOf(OwnPackages(Packages(doc), system.projectFile)[0]);
            && system.targets == TargetsFor(metadata.bin, buildDir, system.projectFile, system.exeSuffix)
            && system.displayName == metadata.projectName
            && system.tasks == TasksFor(metadata.bin, buildDir.Some?)
    ensures system.tasksChanged == old(system.tasksChanged) + (if system.tasks == old(system.tasks) then 0 else 1)
    ensures !system.guardHeld && system.updates == old(system.updates) + 2
    ensures system.tasksChanged <= old(system.tasksChanged) + 1
    ensures system.tasks == old(system.tasks) ==> system.tasksChanged == old(system.tasksChanged)
  {
    system.UpdateProject(doc, buildDir);
    var afterFirst := system.tasksChanged;
    system.UpdateProject(doc, buildDir);
    assert system.tasksChanged == afterFirst;
  }
}

/**
 * NimProjectScanner of project/nimbuildsystem.cpp: what happens when a tree scan finishes (the
 * nodes of non-`.toml` files are disabled, the watched directories follow the scanned ones, and
 * the project tree is replaced only when its file set changed), the scan filter, the file
 * operations that only request a reparse, and the compiler directory of a kit.
 */
module Scanner {
  import opened Host
  import opened Text

  /** The scanner's filter: a file it holds true for is left out of the scan result. */
  predicate ScanExcludes(path: Path)
  {
    EndsWith(path, ".toml.user")
  }

  /** The files a scan keeps out of those it finds, in order. */
  function Scanned(found: seq<Path>): (kept: seq<Path>)
    ensures |kept| <= |found|
    ensures forall p :: p in kept <==> p in found && !ScanExcludes(p)
    decreases |found|
  {
    if found == [] then []
    else (if ScanExcludes(found[0]) then [] else [found[0]]) + Scanned(found[1..])
  }

  /** A ProjectExplorer::FileNode: its file, the directory holding it, and whether it is enabled. */
  class FileNode {
    const path: Path
    const directory: Path
    var enabled: bool

    constructor (path: Path, directory: Path)
      ensures this.path == path && this.directory == directory && enabled
    {
      this.path := path;
      this.directory := directory;
      enabled := true;
    }
  }

  /** The directories of the nodes. */
  function DirsOf(nodes: seq<FileNode>): set<Path>
  {
    set i | 0 <= i < |nodes| :: nodes[i].directory
  }

  /** The files of the nodes. */
  function FilesOf(nodes: seq<FileNode>): set<Path>
  {
    set i | 0 <= i < |nodes| :: nodes[i].path
  }

  /** What one synchronisation does: directories to watch, directories to drop, and whether the tree is rebuilt. */
  datatype SyncPlan = SyncPlan(added: set<Path>, removed: set<Path>, replaceTree: bool)

  /** The plan for watched directories `watched`, project files `projectFiles` and a scan with `fsDirs` and `fsFiles`. */
  function Plan(watched: set<Path>, projectFiles: set<Path>, fsDirs: set<Path>, fsFiles: set<Path>): SyncPlan
  {
    SyncPlan(fsDirs - watched, watched - fsDirs, fsFiles != projectFiles)
  }

  /** The watched directories after carrying out a plan. */
  function Watched(watched: set<Path>, plan: SyncPlan): set<Path>
  {
    (watched + plan.added) - plan.removed
  }

  /**
   * The added and removed directories are disjoint, a directory both watched and scanned is
   * touched by neither, afterwards exactly the scanned directories are watched, and the tree is
   * rebuilt exactly when the scanned files differ from the project's.
   */
  lemma PlanProperties(watched: set<Path>, projectFiles: set<Path>, fsDirs: set<Path>, fsFiles: set<Path>)
    ensures var p := Plan(watched, projectFiles, fsDirs, fsFiles);
            && p.added * p.removed == {}
            && (forall d :: d in watched && d in fsDirs ==> d !in p.added && d !in p.removed)
            && Watched(watched, p) == fsDirs
            && (p.replaceTree <==> fsFiles != projectFiles)
  {
  }

  /** A second synchronisation with the same scan adds nothing, removes nothing and keeps the tree. */
  lemma PlanIdempotent(watched: set<Path>, projectFiles: set<Path>, fsDirs: set<Path>, fsFiles: set<Path>)
    ensures var p := Plan(watched, projectFiles, fsDirs, fsFiles);
            var q := Plan(Watched(watched, p), if p.replaceTree then fsFiles else projectFiles, fsDirs, fsFiles);
            q == SyncPlan({}, {}, false)
  {
    PlanProperties(watched, projectFiles, fsDirs, fsFiles);
  }

  /** ProjectExplorer::RemovedFilesFromProject. */
  datatype RemovedFilesFromProject = Ok | Wildcard | Error

  /**
   * The scanner: the directories its watcher watches, the file nodes of the project tree, and
   * the number of tree replacements, finished signals and requestReparse signals.
   */
  class NimProjectScanner {
    var watched: set<Path>
    var rootNodes: seq<FileNode>
    var treeReplacements: nat
    var finishedCount: nat
    var reparseRequests: nat

    constructor ()
      ensures watched == {} && rootNodes == [] && treeReplacements == 0 && finishedCount == 0 && reparseRequests == 0
    {
      watched := {};
      rootNodes := [];
      treeReplacements := 0;
      finishedCount := 0;
      reparseRequests := 0;
    }

    /** The files of the project tree. */
    function ProjectFiles(): set<Path>
      reads this
    {
      FilesOf(rootNodes)
    }

    /**
     * The TreeScanner::finished handler for the scanned nodes `scan` (distinct objects, each
     * owned once): every node not ending in `.toml` is disabled and the others keep their state,
     * the watcher ends up watching exactly the scanned directories, the tree is replaced by the
     * scanned nodes exactly when the file sets differ, and finished is signalled in every case.
     */
    method OnScanFinished(scan: seq<FileNode>) returns (plan: SyncPlan)
      requires forall i, j :: 0 <= i < j < |scan| ==> scan[i] != scan[j]
      modifies this, set i | 0 <= i < |scan| :: scan[i]
      ensures forall i :: 0 <= i < |scan| ==> scan[i].enabled == (old(scan[i].enabled) && EndsWith(scan[i].path, ".toml"))
      ensures plan == Plan(old(watched), old(ProjectFiles()), DirsOf(scan), FilesOf(scan))
      ensures watched == Watched(old(watched), plan) && watched == DirsOf(scan)
      ensures rootNodes == if plan.replaceTree then scan else old(rootNodes)
      ensures treeReplacements == old(treeReplacements) + (if plan.replaceTree then 1 else 0)
      ensures finishedCount == old(finishedCount) + 1 && reparseRequests == old(reparseRequests)
    {
      for i := 0 to |scan|
        invariant forall j :: 0 <= j < i ==> scan[j].enabled == (old(scan[j].enabled) && EndsWith(scan[j].path, ".toml"))
        invariant forall j :: i <= j < |scan| ==> scan[j].enabled == old(scan[j].enabled)
        invariant unchanged(this)
      {
        if !EndsWith(scan[i].path, ".toml") {
          scan[i].enabled := false;
        }
      }
      var fsDirs := DirsOf(scan);
      var added := fsDirs - watched;
      var removed := watched - fsDirs;
      watched := watched + added;
      watched := watched - removed;
      var fsFiles := FilesOf(scan);
      var replace := fsFiles != FilesOf(rootNodes);
      plan := SyncPlan(added, removed, replace);
      PlanProperties(old(watched), old(ProjectFiles()), fsDirs, fsFiles);
      if replace {
        rootNodes := scan;
        treeReplacements := treeReplacements + 1;
      }
      finishedCount := finishedCount + 1;
    }

    /** addFiles: only asks for a reparse, and reports success. */
    method AddFiles(files: seq<Path>) returns (ok: bool)
      modifies this`reparseRequests
      ensures ok && reparseRequests == old(reparseRequests) + 1
    {
      reparseRequests := reparseRequests + 1;
      ok := true;
    }

    /** removeFiles: only asks for a reparse, and reports Ok. */
    method RemoveFiles(files: seq<Path>) returns (r: RemovedFilesFromProject)
      modifies this`reparseRequests
      ensures r == Ok && reparseRequests == old(reparseRequests) + 1
    {
      reparseRequests := reparseRequests + 1;
      r := Ok;
    }

    /** renameFile: only asks for a reparse, and reports success. */
    method RenameFile(from: Path, to: Path) returns (ok: bool)
      modifies this`reparseRequests
      ensures ok && reparseRequests == old(reparseRequests) + 1
    {
      reparseRequests := reparseRequests + 1;
      ok := true;
    }
  }

  /**
   * Two synchronisations with the same scan: the second one watches nothing new, drops nothing
   * and leaves the tree alone, though it still signals finished.
   */
  method SyncTwice(scanner: NimProjectScanner, scan: seq<FileNode>) returns (first: SyncPlan, second: SyncPlan)
    requires forall i, j :: 0 <= i < j < |scan| ==> scan[i] != scan[j]
    modifies scanner, set i | 0 <= i < |scan| :: scan[i]
    ensures second == SyncPlan({}, {}, false)
    ensures scanner.treeReplacements == old(scanner.treeReplacements) + (if first.replaceTree then 1 else 0)
    ensures scanner.finishedCount == old(scanner.finishedCount) + 2
  {
    first := scanner.OnScanFinished(scan);
    assert scanner.ProjectFiles() == if first.replaceTree then FilesOf(scan) else old(scanner.ProjectFiles());
    second := scanner.OnScanFinished(scan);
    PlanIdempotent(old(scanner.watched), old(scanner.ProjectFiles()), DirsOf(scan), FilesOf(scan));
  }

  /**
   * nimPathFromKit: `compiler` is the kit's Nim toolchain compiler command, None without a
   * toolchain; `absoluteDir` is FilePath::absolutePath, the directory holding a file. No
   * toolchain and an empty command both give the empty path.
   */
  function NimPathFromKit(compiler: Option<Path>, absoluteDir: Path -> Path): (dir: Path)
    ensures compiler.None? || compiler.value == "" ==> dir == ""
    ensures compiler.Some? && compiler.value != "" ==> dir == absoluteDir(compiler.value)
  {
    match compiler
    case None => ""
    case Some(command) => if command == "" then "" else absoluteDir(command)
  }
}

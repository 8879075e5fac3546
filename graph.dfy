/** The project graph the traversal engine builds (src/graph.rs). */
module Graph {
  import opened Wrappers
  import opened Types

  /** File-system paths, as text. */
  type Path = string

  /** A source file: its path, the hex digest of its text, and its snapshot when it parsed. */
  datatype FileNode = FileNode(path: Path, hash: string, snapshot: Option<RustFileSnapshot>)

  /** A module: its name, its search directory, its defining file, and its child modules in declaration order. */
  datatype ModuleNode = ModuleNode(
    name: string,
    path: Option<Path>,
    file: Option<FileNode>,
    submodules: seq<ModuleNode>)

  /** A crate: package name and version, root directory and root module. */
  datatype CrateNode = CrateNode(name: string, version: string, path: Path, rootModule: ModuleNode)

  /** The whole scan: the project root and its crates in discovery order. */
  datatype ProjectGraph = ProjectGraph(rootPath: Path, crates: seq<CrateNode>)
}

/**
 * The traversal engine (src/engine.rs): from a project root, find the
 * crates through the Cargo manifest, resolve each crate's module tree file
 * by file, and snapshot every file.
 *
 * The file system, the manifest reader, the Rust parser and the digest are
 * the engine's environment, given as an `Env` value.  The functions
 * `FileNodeOf`, `ResolveModule`, `CrateOf`, `ProjectCrates` and `ScanOf`
 * say what the engine computes; the methods of `TraversalEngine` compute it
 * with the loops of the source and are proved to agree with them.
 */
module Engine {
  import opened Wrappers
  import opened Types
  import opened Graph
  import opened Syntax
  import opened Text
  import Visitor

  // ----- The environment -----

  datatype Package = Package(name: string, version: Option<string>)
  datatype Workspace = Workspace(members: seq<string>)

  /** The two parts of a Cargo manifest the engine reads. */
  datatype Manifest = Manifest(package: Option<Package>, workspace: Option<Workspace>)

  /**
   * What the engine can observe.  `files` and `dirs` are the existing paths;
   * `text` maps each readable file to its text; `listing` gives the entries
   * of each readable directory in the order the platform yields them;
   * `manifests` maps each manifest path that reads and parses to its
   * contents; `parse` is the Rust parser and `digest` the hex SHA-256 of a
   * text.
   */
  datatype Env = Env(
    files: set<Path>,
    dirs: set<Path>,
    text: map<Path, string>,
    listing: map<Path, seq<Path>>,
    manifests: map<Path, Manifest>,
    parse: string -> Option<File>,
    digest: string -> string)
  {
    /** `Path::exists` */
    predicate Exists(p: Path) {
      p in files || p in dirs
    }

    /** `fs::read_to_string(p).unwrap_or_default()` */
    function Read(p: Path): string {
      if p in text then text[p] else ""
    }

    /** Every path that exists; the module walk never visits a file outside it twice on one branch. */
    function Universe(): set<Path> {
      files + dirs
    }
  }

  /** `Path::join` for a relative name. */
  function Join(base: Path, name: string): Path {
    base + "/" + name
  }

  // ----- Files: digest, snapshot, impl merge -----

  /** `.iter().position(|x| key(x) == name)`: the first index whose key is `name`. */
  function Position<T>(xs: seq<T>, key: T -> string, name: string): (r: Option<nat>)
    ensures r.Some? ==> r.value < |xs| && key(xs[r.value]) == name
    ensures r.Some? ==> forall j :: 0 <= j < r.value ==> key(xs[j]) != name
    ensures r.None? ==> forall j :: 0 <= j < |xs| ==> key(xs[j]) != name
  {
    if xs == [] then None
    else if key(xs[0]) == name then Some(0)
    else match Position(xs[1..], key, name)
      case Some(k) => Some(k + 1)
      case None => None
  }

  function StructName(s: StructSnapshot): string { s.name }

  function EnumName(e: EnumSnapshot): string { e.name }

  /** The first struct of a name, as `merge_impl_methods` looks it up. */
  function StructPosition(structs: seq<StructSnapshot>, name: string): Option<nat> {
    Position(structs, StructName, name)
  }

  /** The first enum of a name, as `merge_impl_methods` looks it up. */
  function EnumPosition(enums: seq<EnumSnapshot>, name: string): Option<nat> {
    Position(enums, EnumName, name)
  }

  /** One step of the merge: the impl's methods go to the first struct of its
      target name, else to the first enum of that name, else nowhere. */
  function MergeOne(structs: seq<StructSnapshot>, enums: seq<EnumSnapshot>, impl: ImplSnapshot)
    : (seq<StructSnapshot>, seq<EnumSnapshot>)
  {
    match StructPosition(structs, impl.forType)
    case Some(k) => (structs[k := structs[k].(methods := structs[k].methods + impl.methods)], enums)
    case None =>
      match EnumPosition(enums, impl.forType)
      case Some(k) => (structs, enums[k := enums[k].(methods := enums[k].methods + impl.methods)])
      case None => (structs, enums)
  }

  /** The merge loop of `create_file_node`, one impl after another in file order. */
  function MergeImpls(structs: seq<StructSnapshot>, enums: seq<EnumSnapshot>, impls: seq<ImplSnapshot>)
    : (seq<StructSnapshot>, seq<EnumSnapshot>)
  {
    if impls == [] then (structs, enums)
    else
      var (s, e) := MergeImpls(structs, enums, impls[..|impls| - 1]);
      MergeOne(s, e, impls[|impls| - 1])
  }

  /** The snapshot of a file that parsed to `items`. */
  function SnapshotOf(path: Path, items: File): RustFileSnapshot {
    var c := Visitor.Walk(items);
    var (structs, enums) := MergeImpls(c.structs, c.enums, c.impls);
    RustFileSnapshot(path, c.functions, structs, c.traits, enums, c.impls)
  }

  /** What `create_file_node` returns for `path`. */
  function FileNodeOf(env: Env, path: Path): FileNode {
    var content := env.Read(path);
    FileNode(path, env.digest(content),
      match env.parse(content)
      case Some(items) => Some(SnapshotOf(path, items))
      case None => None)
  }

  // ----- Module resolution -----

  /**
   * Where `mod m;` declared in a file whose search directory is `dir` is
   * looked for: `dir/m.rs`, which keeps `dir` as the child's search
   * directory, and failing that `dir/m/mod.rs`, which makes `dir/m` the
   * child's search directory.  Returns the child's file and search directory.
   */
  function Candidate(env: Env, dir: Path, m: string): (r: Option<(Path, Path)>)
    ensures r.Some? <==> env.Exists(Join(dir, m + ".rs")) || env.Exists(Join(Join(dir, m), "mod.rs"))
    ensures env.Exists(Join(dir, m + ".rs")) ==> r == Some((Join(dir, m + ".rs"), dir))
    ensures !env.Exists(Join(dir, m + ".rs")) && env.Exists(Join(Join(dir, m), "mod.rs"))
            ==> r == Some((Join(Join(dir, m), "mod.rs"), Join(dir, m)))
    ensures r.Some? ==> r.value.0 in env.Universe()
  {
    var p1 := Join(dir, m + ".rs");
    var p2 := Join(Join(dir, m), "mod.rs");
    if env.Exists(p1) then Some((p1, dir))
    else if env.Exists(p2) then Some((p2, Join(dir, m)))
    else None
  }

  /**
   * The module tree rooted at `file`.  `visiting` holds the files on the
   * path from the crate root down to this one (this one included): a
   * child whose file is already on that path is not resolved again.
   */
  function ResolveModule(env: Env, name: string, file: Path, dir: Path, visiting: set<Path>): ModuleNode
    requires file in visiting
    decreases env.Universe() - visiting, 1, 0
  {
    var node := FileNodeOf(env, file);
    var submodules :=
      match env.parse(env.Read(file))
      case Some(items) => ResolveChildren(env, items, dir, visiting)
      case None => [];
    ModuleNode(name, Some(dir), Some(node), submodules)
  }

  /** The children declared by `items`, in declaration order. */
  function ResolveChildren(env: Env, items: seq<Item>, dir: Path, visiting: set<Path>): seq<ModuleNode>
    decreases env.Universe() - visiting, 0, |items|
  {
    if items == [] then []
    else ResolveChildren(env, items[..|items| - 1], dir, visiting) + ChildOf(env, items[|items| - 1], dir, visiting)
  }

  /** The child one item declares: only a body-less `mod m;` whose file is found and not already on the path. */
  function ChildOf(env: Env, item: Item, dir: Path, visiting: set<Path>): seq<ModuleNode>
    decreases env.Universe() - visiting, 0, 0
  {
    if item.Mod? && !item.hasBody then
      match Candidate(env, dir, item.ident)
      case Some((f, d)) => if f in visiting then [] else [ResolveModule(env, item.ident, f, d, visiting + {f})]
      case None => []
    else []
  }

  // ----- Crates and the project -----

  /** What `scan_crate` returns for the crate rooted at `crateRoot`. */
  function CrateOf(env: Env, crateRoot: Path): (r: Option<CrateNode>)
    ensures var cargo := Join(crateRoot, "Cargo.toml");
            var src := Join(crateRoot, "src");
            r.Some? <==> cargo in env.manifests && env.manifests[cargo].package.Some?
                         && (env.Exists(Join(src, "lib.rs")) || env.Exists(Join(src, "main.rs")))
    ensures r.Some? ==>
              var pkg := env.manifests[Join(crateRoot, "Cargo.toml")].package.value;
              var src := Join(crateRoot, "src");
              var entry := if env.Exists(Join(src, "lib.rs")) then Join(src, "lib.rs") else Join(src, "main.rs");
              && r.value.name == pkg.name
              && r.value.version == (if pkg.version.Some? then pkg.version.value else "0.0.0")
              && r.value.path == crateRoot
              && r.value.rootModule == ResolveModule(env, "crate", entry, src, {entry})
              && r.value.rootModule.name == "crate"
              && r.value.rootModule.path == Some(src)
              && r.value.rootModule.file == Some(FileNodeOf(env, entry))
  {
    var cargo := Join(crateRoot, "Cargo.toml");
    if cargo !in env.manifests then None
    else match env.manifests[cargo].package
      case None => None
      case Some(pkg) =>
        var src := Join(crateRoot, "src");
        var lib := Join(src, "lib.rs");
        var main := Join(src, "main.rs");
        var rootFile := if env.Exists(lib) then Some(lib) else if env.Exists(main) then Some(main) else None;
        match rootFile
        case None => None
        case Some(f) => Some(CrateNode(pkg.name, pkg.version.GetOr("0.0.0"), crateRoot, ResolveModule(env, "crate", f, src, {f})))
  }

  /** `member.split('*').next()`: the text before the first `*`. */
  function GlobPrefix(member: string): string {
    member[..IndexOf(member, '*')]
  }

  /** The crates found among directory entries: each directory entry that holds a `Cargo.toml`, in listing order. */
  function GlobCrates(env: Env, entries: seq<Path>): seq<CrateNode> {
    if entries == [] then []
    else
      var e := entries[|entries| - 1];
      GlobCrates(env, entries[..|entries| - 1]) + EntryCrates(env, e)
  }

  /** The crate a directory entry contributes: none unless it is a directory holding a `Cargo.toml` that scans. */
  function EntryCrates(env: Env, e: Path): seq<CrateNode> {
    if e in env.dirs && env.Exists(Join(e, "Cargo.toml")) then OptionToSeq(CrateOf(env, e)) else []
  }

  lemma GlobCratesStep(env: Env, entries: seq<Path>, j: nat)
    requires j < |entries|
    ensures GlobCrates(env, entries[..j + 1]) == GlobCrates(env, entries[..j]) + EntryCrates(env, entries[j])
  {
    assert entries[..j + 1][..j] == entries[..j];
  }

  /** The directory entries a path lists, none when it cannot be read. */
  function Entries(env: Env, dir: Path): seq<Path> {
    if dir in env.listing then env.listing[dir] else []
  }

  /** The crates one workspace member contributes. */
  function MemberCrates(env: Env, root: Path, member: string): seq<CrateNode> {
    var memberPath := Join(root, member);
    if env.Exists(memberPath) then OptionToSeq(CrateOf(env, memberPath))
    else if '*' in member then
      var parent := Join(root, GlobPrefix(member));
      if env.Exists(parent) then GlobCrates(env, Entries(env, parent)) else []
    else []
  }

  function WorkspaceCrates(env: Env, root: Path, members: seq<string>): seq<CrateNode> {
    if members == [] then []
    else WorkspaceCrates(env, root, members[..|members| - 1]) + MemberCrates(env, root, members[|members| - 1])
  }

  /** The root manifest, or one with neither package nor workspace when it does not parse. */
  function RootManifest(env: Env, root: Path): Manifest {
    var cargo := Join(root, "Cargo.toml");
    if cargo in env.manifests then env.manifests[cargo] else Manifest(None, None)
  }

  /** The crates `scan_cargo_project` finds. */
  function ProjectCrates(env: Env, root: Path): seq<CrateNode> {
    var manifest := RootManifest(env, root);
    if manifest.workspace.Some? then WorkspaceCrates(env, root, manifest.workspace.value.members)
    else if manifest.package.Some? then OptionToSeq(CrateOf(env, root))
    else []
  }

  /** What `scan` returns. */
  function ScanOf(env: Env, root: Path): ProjectGraph {
    if env.Exists(Join(root, "Cargo.toml")) then ProjectGraph(root, ProjectCrates(env, root))
    else ProjectGraph(root, [])
  }

  // ----- The engine -----

  datatype TraversalEngine = TraversalEngine(root: Path)
  {
    /** `scan`: an empty graph without a root manifest, the project's crates otherwise. */
    method Scan(env: Env) returns (graph: ProjectGraph)
      ensures graph == ScanOf(env, root)
      ensures graph.rootPath == root
      ensures !env.Exists(Join(root, "Cargo.toml")) ==> graph.crates == []
    {
      var cargoPath := Join(root, "Cargo.toml");
      if env.Exists(cargoPath) {
        graph := ScanCargoProject(env, cargoPath);
      } else {
        graph := ProjectGraph(root, []);
      }
    }

    /** `scan_cargo_project`: workspace members when there is a workspace, else the root package. */
    method ScanCargoProject(env: Env, cargoPath: Path) returns (graph: ProjectGraph)
      requires cargoPath == Join(root, "Cargo.toml")
      ensures graph == ProjectGraph(root, ProjectCrates(env, root))
    {
      var manifest := if cargoPath in env.manifests then env.manifests[cargoPath] else Manifest(None, None);
      var crates: seq<CrateNode> := [];
      if manifest.workspace.Some? {
        var members := manifest.workspace.value.members;
        for i := 0 to |members|
          invariant crates == WorkspaceCrates(env, root, members[..i])
        {
          assert members[..i + 1][..i] == members[..i];
          crates := ScanMember(env, members[i], crates);
        }
        assert members[..|members|] == members;
      } else if manifest.package.Some? {
        var crateNode := ScanCrate(env, root);
        if crateNode.Some? {
          crates := crates + [crateNode.value];
        }
      }
      graph := ProjectGraph(root, crates);
    }

    /** One iteration of the member loop: pushes the crates `member` names onto `crates`. */
    method ScanMember(env: Env, member: string, crates: seq<CrateNode>) returns (result: seq<CrateNode>)
      ensures result == crates + MemberCrates(env, root, member)
    {
      result := crates;
      var memberPath := Join(root, member);
      if env.Exists(memberPath) {
        var crateNode := ScanCrate(env, memberPath);
        if crateNode.Some? {
          result := result + [crateNode.value];
        }
      } else if '*' in member {
        var prefix := GlobPrefix(member);
        var parent := Join(root, prefix);
        if env.Exists(parent) {
          result := ScanEntries(env, Entries(env, parent), result);
        }
      }
    }

    /** The loop over a glob's directory entries: pushes the crate of each entry that has a manifest. */
    method ScanEntries(env: Env, entries: seq<Path>, crates: seq<CrateNode>) returns (result: seq<CrateNode>)
      ensures result == crates + GlobCrates(env, entries)
    {
      result := crates;
      for j := 0 to |entries|
        invariant result == crates + GlobCrates(env, entries[..j])
      {
        var found := ScanEntry(env, entries[j]);
        GlobCratesStep(env, entries, j);
        result := result + found;
      }
      assert entries[..|entries|] == entries;
    }

    /** One directory entry of a glob: scanned when it is a directory holding a `Cargo.toml`. */
    method ScanEntry(env: Env, entry: Path) returns (found: seq<CrateNode>)
      ensures found == EntryCrates(env, entry)
    {
      found := [];
      if entry in env.dirs && env.Exists(Join(entry, "Cargo.toml")) {
        var crateNode := ScanCrate(env, entry);
        if crateNode.Some? {
          found := [crateNode.value];
        }
      }
    }

    /** `scan_crate`: the crate's package data and its module tree from `src/lib.rs`, else `src/main.rs`. */
    method ScanCrate(env: Env, crateRoot: Path) returns (r: Option<CrateNode>)
      ensures r == CrateOf(env, crateRoot)
    {
      var cargoPath := Join(crateRoot, "Cargo.toml");
      if cargoPath !in env.manifests {
        return None;
      }
      var package := env.manifests[cargoPath].package;
      if package.None? {
        return None;
      }
      var name := package.value.name;
      var version := if package.value.version.Some? then package.value.version.value else "0.0.0";
      var srcPath := Join(crateRoot, "src");
      var libRs := Join(srcPath, "lib.rs");
      var mainRs := Join(srcPath, "main.rs");
      var rootFile: Option<Path> := if env.Exists(libRs) then Some(libRs)
                                    else if env.Exists(mainRs) then Some(mainRs)
                                    else None;
      if rootFile.Some? {
        var rootModule := ScanModule(env, "crate", rootFile.value, srcPath, {rootFile.value});
        r := Some(CrateNode(name, version, crateRoot, rootModule));
      } else {
        r := None;
      }
    }

    /** `scan_module`: the file's node, then one child per resolvable body-less `mod m;`, recursively. */
    method ScanModule(env: Env, name: string, filePath: Path, searchDir: Path, visiting: set<Path>)
      returns (node: ModuleNode)
      requires filePath in visiting
      ensures node == ResolveModule(env, name, filePath, searchDir, visiting)
      decreases env.Universe() - visiting, 1, 0
    {
      var fileNode := CreateFileNode(env, filePath);
      var submodules: seq<ModuleNode> := [];
      if fileNode.snapshot.Some? {
        var content := env.Read(filePath);
        var ast := env.parse(content);
        if ast.Some? {
          var items := ast.value;
          for i := 0 to |items|
            invariant submodules == ResolveChildren(env, items[..i], searchDir, visiting)
          {
            assert items[..i + 1][..i] == items[..i];
            var item := items[i];
            if item.Mod? && !item.hasBody {
              var modName := item.ident;
              var p1 := Join(searchDir, modName + ".rs");
              var p2 := Join(Join(searchDir, modName), "mod.rs");
              if env.Exists(p1) {
                if p1 !in visiting {
                  var child := ScanModule(env, modName, p1, searchDir, visiting + {p1});
                  submodules := submodules + [child];
                }
              } else if env.Exists(p2) {
                if p2 !in visiting {
                  var child := ScanModule(env, modName, p2, Join(searchDir, modName), visiting + {p2});
                  submodules := submodules + [child];
                }
              }
            }
          }
          assert items[..|items|] == items;
        }
      }
      node := ModuleNode(name, Some(searchDir), Some(fileNode), submodules);
    }

    /** `create_file_node`: digest the text, and when it parses, snapshot it and merge impl methods into their types. */
    method CreateFileNode(env: Env, path: Path) returns (node: FileNode)
      ensures node == FileNodeOf(env, path)
    {
      var content := env.Read(path);
      var hash := env.digest(content);
      var snapshot: Option<RustFileSnapshot> := None;
      var parsed := env.parse(content);
      if parsed.Some? {
        var visitor := new Visitor.SnapshotVisitor();
        visitor.VisitItems(parsed.value);
        ghost var walked := Visitor.Walk(parsed.value);
        assert visitor.Lists() == walked by {
          walked.ThenEmpty();
        }
        MergeImplMethods(visitor);
        snapshot := Some(RustFileSnapshot(path, visitor.functions, visitor.structs, visitor.traits, visitor.enums, visitor.impls));
      }
      node := FileNode(path, hash, snapshot);
    }
  }

  /** The merge loop of `create_file_node`, updating the visitor's struct and enum lists in place. */
  method MergeImplMethods(visitor: Visitor.SnapshotVisitor)
    modifies visitor
    ensures (visitor.structs, visitor.enums) == MergeImpls(old(visitor.structs), old(visitor.enums), visitor.impls)
    ensures visitor.functions == old(visitor.functions) && visitor.traits == old(visitor.traits)
    ensures visitor.impls == old(visitor.impls)
  {
    ghost var structs0, enums0 := visitor.structs, visitor.enums;
    for j := 0 to |visitor.impls|
      invariant visitor.functions == old(visitor.functions) && visitor.traits == old(visitor.traits)
      invariant visitor.impls == old(visitor.impls)
      invariant (visitor.structs, visitor.enums) == MergeImpls(structs0, enums0, visitor.impls[..j])
    {
      assert visitor.impls[..j + 1][..j] == visitor.impls[..j];
      var implSnap := visitor.impls[j];
      var structIdx := StructPosition(visitor.structs, implSnap.forType);
      if structIdx.Some? {
        var k := structIdx.value;
        visitor.structs := visitor.structs[k := visitor.structs[k].(methods := visitor.structs[k].methods + implSnap.methods)];
      } else {
        var enumIdx := EnumPosition(visitor.enums, implSnap.forType);
        if enumIdx.Some? {
          var k := enumIdx.value;
          visitor.enums := visitor.enums[k := visitor.enums[k].(methods := visitor.enums[k].methods + implSnap.methods)];
        }
      }
    }
    assert visitor.impls[..|visitor.impls|] == visitor.impls;
  }

  // ----- Properties of the impl merge -----

  /** The methods the impls of a file contribute to a type named `name`: those of every impl targeting `name`, in file order. */
  function MethodsFor(impls: seq<ImplSnapshot>, name: string): seq<string> {
    if impls == [] then []
    else
      var last := impls[|impls| - 1];
      MethodsFor(impls[..|impls| - 1], name) + (if last.forType == name then last.methods else [])
  }

  /** First-position searches only look at the keys. */
  lemma PositionFollowsKeys<T>(a: seq<T>, b: seq<T>, key: T -> string, name: string)
    requires |a| == |b| && forall k :: 0 <= k < |a| ==> key(a[k]) == key(b[k])
    ensures Position(a, key, name) == Position(b, key, name)
  {
    var pa, pb := Position(a, key, name), Position(b, key, name);
    if pa.Some? && pb.Some? {
      assert !(pa.value < pb.value) && !(pb.value < pa.value);
    }
  }

  /** One merge step keeps every struct's name and fields and appends the impl's methods to the struct `MergeOne` picks. */
  lemma MergeOneStructs(structs: seq<StructSnapshot>, enums: seq<EnumSnapshot>, impl: ImplSnapshot)
    ensures var s := MergeOne(structs, enums, impl).0;
      && |s| == |structs|
      && forall k :: 0 <= k < |s| ==>
            && s[k].name == structs[k].name && s[k].fields == structs[k].fields
            && s[k].methods == structs[k].methods
                 + (if StructPosition(structs, impl.forType) == Some(k) then impl.methods else [])
  {
    assert forall k :: 0 <= k < |structs| ==> structs[k].methods + [] == structs[k].methods;
  }

  /** One merge step keeps every enum's name and variants and appends the impl's methods to the enum `MergeOne` picks. */
  lemma MergeOneEnums(structs: seq<StructSnapshot>, enums: seq<EnumSnapshot>, impl: ImplSnapshot)
    ensures var e := MergeOne(structs, enums, impl).1;
      && |e| == |enums|
      && forall k :: 0 <= k < |e| ==>
            && e[k].name == enums[k].name && e[k].variants == enums[k].variants
            && e[k].methods == enums[k].methods
                 + (if StructPosition(structs, impl.forType).None? && EnumPosition(enums, impl.forType) == Some(k)
                    then impl.methods else [])
  {
    assert forall k :: 0 <= k < |enums| ==> enums[k].methods + [] == enums[k].methods;
  }

  lemma MergeImplsLast(structs: seq<StructSnapshot>, enums: seq<EnumSnapshot>, impls: seq<ImplSnapshot>)
    requires impls != []
    ensures var before := MergeImpls(structs, enums, impls[..|impls| - 1]);
            MergeImpls(structs, enums, impls) == MergeOne(before.0, before.1, impls[|impls| - 1])
  {
  }

  /**
   * After the merge, every struct keeps its name, its fields and its place;
   * the first struct of each name gains the methods of every impl targeting
   * that name, in file order; every other struct gains nothing.
   */
  lemma {:induction false} MergedStructs(structs: seq<StructSnapshot>, enums: seq<EnumSnapshot>, impls: seq<ImplSnapshot>)
    ensures var s := MergeImpls(structs, enums, impls).0;
      && |s| == |structs|
      && forall k :: 0 <= k < |s| ==>
            && s[k].name == structs[k].name && s[k].fields == structs[k].fields
            && s[k].methods == structs[k].methods
                 + (if StructPosition(structs, structs[k].name) == Some(k) then MethodsFor(impls, structs[k].name) else [])
  {
    MergedStructNames(structs, enums, impls);
    forall k | 0 <= k < |structs|
      ensures MergeImpls(structs, enums, impls).0[k] == structs[k].(methods := structs[k].methods
                 + (if StructPosition(structs, structs[k].name) == Some(k) then MethodsFor(impls, structs[k].name) else []))
    {
      MergedStructAt(structs, enums, impls, k);
    }
  }

  /** The merge never renames, adds or removes a struct. */
  lemma {:induction false} MergedStructNames(structs: seq<StructSnapshot>, enums: seq<EnumSnapshot>, impls: seq<ImplSnapshot>)
    ensures |MergeImpls(structs, enums, impls).0| == |structs|
    ensures forall k :: 0 <= k < |structs| ==> MergeImpls(structs, enums, impls).0[k].name == structs[k].name
  {
    if impls != [] {
      var prefix := impls[..|impls| - 1];
      MergedStructNames(structs, enums, prefix);
      var before := MergeImpls(structs, enums, prefix);
      MergeOneStructs(before.0, before.1, impls[|impls| - 1]);
      MergeImplsLast(structs, enums, impls);
    }
  }

  lemma {:induction false} MergedStructAt(structs: seq<StructSnapshot>, enums: seq<EnumSnapshot>, impls: seq<ImplSnapshot>, k: nat)
    requires k < |structs|
    ensures |MergeImpls(structs, enums, impls).0| == |structs|
    ensures MergeImpls(structs, enums, impls).0[k] == structs[k].(methods := structs[k].methods
                 + (if StructPosition(structs, structs[k].name) == Some(k) then MethodsFor(impls, structs[k].name) else []))
  {
    var n := structs[k].name;
    if impls == [] {
      assert structs[k].methods + [] == structs[k].methods;
    } else {
      var prefix := impls[..|impls| - 1];
      var impl := impls[|impls| - 1];
      var ft := impl.forType;
      var s0 := MergeImpls(structs, enums, prefix).0;
      var gained := if StructPosition(structs, ft) == Some(k) then impl.methods else [];
      assert |MergeImpls(structs, enums, impls).0| == |structs|
          && MergeImpls(structs, enums, impls).0[k] == s0[k].(methods := s0[k].methods + gained) by {
        var e0 := MergeImpls(structs, enums, prefix).1;
        MergedStructNames(structs, enums, prefix);
        PositionFollowsKeys(s0, structs, StructName, ft);
        MergeOneStructs(s0, e0, impl);
        MergeImplsLast(structs, enums, impls);
      }
      MergedStructAt(structs, enums, prefix, k);
      assert MethodsFor(impls, n) == MethodsFor(prefix, n) + (if ft == n then impl.methods else []);
      if StructPosition(structs, n) == Some(k) {
        assert gained == (if ft == n then impl.methods else []);
      } else {
        assert gained == [];
      }
    }
  }

  /**
   * After the merge, every enum keeps its name, its variants and its place;
   * the first enum of a name that no struct has gains the methods of every
   * impl targeting that name, in file order; every other enum gains nothing.
   */
  lemma {:induction false} MergedEnums(structs: seq<StructSnapshot>, enums: seq<EnumSnapshot>, impls: seq<ImplSnapshot>)
    ensures var e := MergeImpls(structs, enums, impls).1;
      && |e| == |enums|
      && forall k :: 0 <= k < |e| ==>
            && e[k].name == enums[k].name && e[k].variants == enums[k].variants
            && e[k].methods == enums[k].methods
                 + (if StructPosition(structs, enums[k].name).None? && EnumPosition(enums, enums[k].name) == Some(k)
                    then MethodsFor(impls, enums[k].name) else [])
  {
    MergedEnumNames(structs, enums, impls);
    forall k | 0 <= k < |enums|
      ensures MergeImpls(structs, enums, impls).1[k] == enums[k].(methods := enums[k].methods
                 + (if StructPosition(structs, enums[k].name).None? && EnumPosition(enums, enums[k].name) == Some(k)
                    then MethodsFor(impls, enums[k].name) else []))
    {
      MergedEnumAt(structs, enums, impls, k);
    }
  }

  /** The merge never renames, adds or removes an enum. */
  lemma {:induction false} MergedEnumNames(structs: seq<StructSnapshot>, enums: seq<EnumSnapshot>, impls: seq<ImplSnapshot>)
    ensures |MergeImpls(structs, enums, impls).1| == |enums|
    ensures forall k :: 0 <= k < |enums| ==> MergeImpls(structs, enums, impls).1[k].name == enums[k].name
  {
    if impls != [] {
      var prefix := impls[..|impls| - 1];
      MergedEnumNames(structs, enums, prefix);
      var before := MergeImpls(structs, enums, prefix);
      MergeOneEnums(before.0, before.1, impls[|impls| - 1]);
      MergeImplsLast(structs, enums, impls);
    }
  }

  lemma {:induction false} MergedEnumAt(structs: seq<StructSnapshot>, enums: seq<EnumSnapshot>, impls: seq<ImplSnapshot>, k: nat)
    requires k < |enums|
    ensures |MergeImpls(structs, enums, impls).1| == |enums|
    ensures MergeImpls(structs, enums, impls).1[k] == enums[k].(methods := enums[k].methods
                 + (if StructPosition(structs, enums[k].name).None? && EnumPosition(enums, enums[k].name) == Some(k)
                    then MethodsFor(impls, enums[k].name) else []))
  {
    var n := enums[k].name;
    if impls == [] {
      assert enums[k].methods + [] == enums[k].methods;
    } else {
      var prefix := impls[..|impls| - 1];
      var impl := impls[|impls| - 1];
      var ft := impl.forType;
      var e0 := MergeImpls(structs, enums, prefix).1;
      var gained := if StructPosition(structs, ft).None? && EnumPosition(enums, ft) == Some(k) then impl.methods else [];
      assert |MergeImpls(structs, enums, impls).1| == |enums|
          && MergeImpls(structs, enums, impls).1[k] == e0[k].(methods := e0[k].methods + gained) by {
        var s0 := MergeImpls(structs, enums, prefix).0;
        MergedStructNames(structs, enums, prefix);
        MergedEnumNames(structs, enums, prefix);
        PositionFollowsKeys(s0, structs, StructName, ft);
        PositionFollowsKeys(e0, enums, EnumName, ft);
        MergeOneEnums(s0, e0, impl);
        MergeImplsLast(structs, enums, impls);
      }
      MergedEnumAt(structs, enums, prefix, k);
      assert MethodsFor(impls, n) == MethodsFor(prefix, n) + (if ft == n then impl.methods else []);
      if StructPosition(structs, n).None? && EnumPosition(enums, n) == Some(k) {
        assert gained == (if ft == n then impl.methods else []);
      } else {
        assert gained == [];
      }
    }
  }

  // ----- Properties of module resolution -----

  /** The names of the body-less `mod m;` declarations among `items`, in order. */
  function DeclaredModules(items: seq<Item>): seq<string> {
    if items == [] then []
    else
      var last := items[|items| - 1];
      DeclaredModules(items[..|items| - 1]) + (if last.Mod? && !last.hasBody then [last.ident] else [])
  }

  /** A declared module `m` gets a child when one of its two candidate files exists and is not already on the path. */
  predicate Resolvable(env: Env, dir: Path, visiting: set<Path>, m: string) {
    Candidate(env, dir, m).Some? && Candidate(env, dir, m).value.0 !in visiting
  }

  /** The body-less module declarations that resolve, in declaration order. */
  function ResolvableDeclared(env: Env, items: seq<Item>, dir: Path, visiting: set<Path>): seq<string> {
    if items == [] then []
    else
      var last := items[|items| - 1];
      ResolvableDeclared(env, items[..|items| - 1], dir, visiting)
        + (if last.Mod? && !last.hasBody && Resolvable(env, dir, visiting, last.ident) then [last.ident] else [])
  }

  function ModuleNames(nodes: seq<ModuleNode>): seq<string> {
    if nodes == [] then [] else ModuleNames(nodes[..|nodes| - 1]) + [nodes[|nodes| - 1].name]
  }

  lemma {:induction false} ModuleNamesAppend(a: seq<ModuleNode>, b: seq<ModuleNode>)
    ensures ModuleNames(a + b) == ModuleNames(a) + ModuleNames(b)
    decreases |b|
  {
    if b == [] {
      assert a + b == a;
    } else {
      ModuleNamesAppend(a, b[..|b| - 1]);
      assert (a + b)[..|a + b| - 1] == a + b[..|b| - 1];
    }
  }

  /**
   * The children of a file are exactly its resolvable body-less module
   * declarations: a child's name is declared and resolvable, every
   * resolvable declaration has a child, and each child is the module tree
   * of the file the two-candidate rule picks for it. The children's names
   * are the resolvable declarations in declaration order, one child per
   * declaration.
   */
  lemma {:induction false} ChildrenFollowDeclarations(env: Env, items: seq<Item>, dir: Path, visiting: set<Path>)
    ensures var kids := ResolveChildren(env, items, dir, visiting);
      && |kids| <= |DeclaredModules(items)|
      && ModuleNames(kids) == ResolvableDeclared(env, items, dir, visiting)
      && (forall m :: m in ModuleNames(kids) <==> m in DeclaredModules(items) && Resolvable(env, dir, visiting, m))
      && (forall k :: 0 <= k < |kids| ==>
            && Resolvable(env, dir, visiting, kids[k].name)
            && var (f, d) := Candidate(env, dir, kids[k].name).value;
               kids[k] == ResolveModule(env, kids[k].name, f, d, visiting + {f}))
    decreases |items|
  {
    if items != [] {
      var prefix := items[..|items| - 1];
      var last := items[|items| - 1];
      ChildrenFollowDeclarations(env, prefix, dir, visiting);
      var before := ResolveChildren(env, prefix, dir, visiting);
      var extra := ChildOf(env, last, dir, visiting);
      ModuleNamesAppend(before, extra);
      if last.Mod? && !last.hasBody && Resolvable(env, dir, visiting, last.ident) {
        var (f, d) := Candidate(env, dir, last.ident).value;
        var child := ResolveModule(env, last.ident, f, d, visiting + {f});
        assert extra == [child];
        assert child.name == last.ident;
        assert ModuleNames(extra) == ModuleNames(extra[..0]) + [last.ident];
        assert extra[..0] == [];
      } else {
        assert extra == [];
        assert ModuleNames(extra) == [];
      }
      assert before + extra == ResolveChildren(env, items, dir, visiting);
    }
  }

  /** Every node has a search directory and a file node, and a file's snapshot records that file's path. */
  predicate WellFormedTree(m: ModuleNode)
    decreases m
  {
    && m.path.Some? && m.file.Some?
    && (m.file.value.snapshot.Some? ==> m.file.value.snapshot.value.path == m.file.value.path)
    && forall c :: c in m.submodules ==> WellFormedTree(c)
  }

  /** No file occurs twice on any branch from `m` down, nor in `above`. */
  predicate NoRepeatedFile(m: ModuleNode, above: set<Path>)
    decreases m
  {
    && m.file.Some? && m.file.value.path !in above
    && forall c :: c in m.submodules ==> NoRepeatedFile(c, above + {m.file.value.path})
  }

  /**
   * A resolved module tree is well formed and never revisits a file along a
   * branch: its root is `file`, searched in `dir`, and no file below it is
   * one of the files above it.
   */
  lemma {:induction false} ResolvedTreeShape(env: Env, name: string, file: Path, dir: Path, visiting: set<Path>)
    requires file in visiting
    ensures var r := ResolveModule(env, name, file, dir, visiting);
      && r.name == name && r.path == Some(dir) && r.file == Some(FileNodeOf(env, file))
      && WellFormedTree(r) && NoRepeatedFile(r, visiting - {file})
    decreases env.Universe() - visiting, 1, 0
  {
    var r := ResolveModule(env, name, file, dir, visiting);
    match env.parse(env.Read(file)) {
      case Some(items) =>
        ChildrenShape(env, items, dir, visiting);
        assert visiting - {file} + {file} == visiting;
      case None =>
    }
  }

  lemma {:induction false} ChildrenShape(env: Env, items: seq<Item>, dir: Path, visiting: set<Path>)
    ensures forall c :: c in ResolveChildren(env, items, dir, visiting) ==> WellFormedTree(c) && NoRepeatedFile(c, visiting)
    decreases env.Universe() - visiting, 0, |items|
  {
    if items != [] {
      var last := items[|items| - 1];
      ChildrenShape(env, items[..|items| - 1], dir, visiting);
      if last.Mod? && !last.hasBody {
        match Candidate(env, dir, last.ident) {
          case Some((f, d)) =>
            if f !in visiting {
              ResolvedTreeShape(env, last.ident, f, d, visiting + {f});
              assert visiting + {f} - {f} == visiting;
            }
          case None =>
        }
      }
    }
  }

  // ----- Properties of crate discovery -----

  /**
   * Every crate the project scan finds has a manifest with a package section,
   * and is that manifest's crate: it is the root package, a workspace member
   * path, or a directory listed under a member glob's prefix.
   */
  lemma {:induction false} CrateProvenance(env: Env, root: Path)
    ensures forall c :: c in ProjectCrates(env, root) ==>
      && Join(c.path, "Cargo.toml") in env.manifests
      && env.manifests[Join(c.path, "Cargo.toml")].package.Some?
      && CrateOf(env, c.path) == Some(c)
      && (c.path == root || exists member :: member in RootManifest(env, root).workspace.value.members && FromMember(env, root, member, c.path))
  {
    var manifest := RootManifest(env, root);
    if manifest.workspace.Some? {
      WorkspaceProvenance(env, root, manifest.workspace.value.members);
    }
  }

  /** `path` is the member's own directory, or a directory listed under its glob prefix. */
  predicate FromMember(env: Env, root: Path, member: string, path: Path) {
    path == Join(root, member) || path in Entries(env, Join(root, GlobPrefix(member)))
  }

  lemma {:induction false} WorkspaceProvenance(env: Env, root: Path, members: seq<string>)
    ensures forall c :: c in WorkspaceCrates(env, root, members) ==>
      && CrateOf(env, c.path) == Some(c)
      && exists member :: member in members && FromMember(env, root, member, c.path)
  {
    if members != [] {
      var prefix := members[..|members| - 1];
      var member := members[|members| - 1];
      WorkspaceProvenance(env, root, prefix);
      var parent := Join(root, GlobPrefix(member));
      GlobProvenance(env, Entries(env, parent));
      forall c | c in MemberCrates(env, root, member)
        ensures CrateOf(env, c.path) == Some(c) && FromMember(env, root, member, c.path)
      {
      }
    }
  }

  lemma {:induction false} GlobProvenance(env: Env, entries: seq<Path>)
    ensures forall c :: c in GlobCrates(env, entries) ==> CrateOf(env, c.path) == Some(c) && c.path in entries
  {
    if entries != [] {
      GlobProvenance(env, entries[..|entries| - 1]);
    }
  }

  /** Without a workspace section, the project is at most the root package. */
  lemma PackageOnlyProject(env: Env, root: Path)
    requires RootManifest(env, root).workspace.None?
    ensures |ProjectCrates(env, root)| <= 1
    ensures forall c :: c in ProjectCrates(env, root) ==> c.path == root
    ensures RootManifest(env, root).package.Some? && CrateOf(env, root).Some? <==> ProjectCrates(env, root) != []
  {
  }

  /** A root manifest that cannot be read or parsed yields no crates. */
  lemma UnreadableManifestNoCrates(env: Env, root: Path)
    requires Join(root, "Cargo.toml") !in env.manifests
    ensures ProjectCrates(env, root) == []
    ensures ScanOf(env, root).crates == []
  {
  }

  /** Only the text before the first `*` of a glob member matters: two globs with the same prefix find the same crates. */
  lemma GlobSuffixIgnored(env: Env, root: Path, m1: string, m2: string)
    requires '*' in m1 && '*' in m2 && GlobPrefix(m1) == GlobPrefix(m2)
    requires !env.Exists(Join(root, m1)) && !env.Exists(Join(root, m2))
    ensures MemberCrates(env, root, m1) == MemberCrates(env, root, m2)
  {
  }

  /** A member path that exists is scanned as a crate directly, and its glob is never expanded, even when the scan finds no crate. */
  lemma ExistingMemberNoGlob(env: Env, root: Path, member: string)
    requires env.Exists(Join(root, member))
    ensures MemberCrates(env, root, member) == OptionToSeq(CrateOf(env, Join(root, member)))
    ensures CrateOf(env, Join(root, member)).None? ==> MemberCrates(env, root, member) == []
  {
  }

  /** With a workspace section, the root package is not scanned for itself: every crate comes from a member. */
  lemma WorkspaceOnlyMembers(env: Env, root: Path)
    requires RootManifest(env, root).workspace.Some?
    ensures forall c :: c in ProjectCrates(env, root) ==>
      exists member :: member in RootManifest(env, root).workspace.value.members && FromMember(env, root, member, c.path)
  {
    WorkspaceProvenance(env, root, RootManifest(env, root).workspace.value.members);
  }

  /** A member that does not exist and has no `*` is skipped. */
  lemma MissingMemberSkipped(env: Env, root: Path, member: string)
    requires !env.Exists(Join(root, member)) && '*' !in member
    ensures MemberCrates(env, root, member) == []
  {
  }
}

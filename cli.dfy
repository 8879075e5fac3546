/**
 * The command-line driver (src/main.rs): flattening the project graph into
 * the list of snapshots that linting and output work on, choosing the
 * output style from the preset flags and the per-field options, and reading
 * the AI provider names.
 */
module Cli {
  import opened Wrappers
  import opened Text
  import opened Types
  import opened Graph
  import Output
  import opened AiLinting

  // ----- Flattening the graph -----

  /** Whether some ignore pattern occurs in the path. */
  predicate Ignored(path: string, ignore: seq<string>) {
    exists k :: 0 <= k < |ignore| && Contains(path, ignore[k])
  }

  /** The snapshot a module contributes by itself: its file's, unless the file is ignored or did not parse. */
  function OwnSnapshot(m: ModuleNode, ignore: seq<string>): seq<RustFileSnapshot> {
    match m.file
    case None => []
    case Some(f) => if Ignored(f.path, ignore) then [] else OptionToSeq(f.snapshot)
  }

  /** `OwnSnapshot` as a function value, for a fixed ignore list. */
  function OwnSnapshotOf(ignore: seq<string>): ModuleNode -> seq<RustFileSnapshot> {
    (m: ModuleNode) => OwnSnapshot(m, ignore)
  }

  /** What `collect_snapshots` appends for a module tree. */
  function Flatten(m: ModuleNode, ignore: seq<string>): seq<RustFileSnapshot>
    decreases m, 1
  {
    OwnSnapshot(m, ignore) + FlattenAll(m.submodules, ignore)
  }

  function FlattenAll(ms: seq<ModuleNode>, ignore: seq<string>): seq<RustFileSnapshot>
    decreases ms, 0
  {
    if ms == [] then []
    else FlattenAll(ms[..|ms| - 1], ignore) + Flatten(ms[|ms| - 1], ignore)
  }

  /** Every module of a tree, each before its submodules, siblings in order. */
  function Modules(m: ModuleNode): seq<ModuleNode>
    decreases m, 1
  {
    [m] + ModulesAll(m.submodules)
  }

  function ModulesAll(ms: seq<ModuleNode>): seq<ModuleNode>
    decreases ms, 0
  {
    if ms == [] then []
    else ModulesAll(ms[..|ms| - 1]) + Modules(ms[|ms| - 1])
  }

  /** `collect_snapshots`: appends the tree's snapshots to `snapshots`. */
  method CollectSnapshots(m: ModuleNode, snapshots: seq<RustFileSnapshot>, ignore: seq<string>)
    returns (result: seq<RustFileSnapshot>)
    ensures result == snapshots + Flatten(m, ignore)
    decreases m
  {
    result := snapshots;
    match m.file {
      case Some(f) =>
        if !Ignored(f.path, ignore) {
          match f.snapshot {
            case Some(snap) => result := result + [snap];
            case None =>
          }
        }
      case None =>
    }
    assert result == snapshots + OwnSnapshot(m, ignore);
    ghost var own := result;
    for i := 0 to |m.submodules|
      invariant result == own + FlattenAll(m.submodules[..i], ignore)
    {
      assert m.submodules[..i + 1][..i] == m.submodules[..i];
      AppendAssociative(own, FlattenAll(m.submodules[..i], ignore), Flatten(m.submodules[i], ignore));
      result := CollectSnapshots(m.submodules[i], result, ignore);
    }
    assert m.submodules[..|m.submodules|] == m.submodules;
    AppendAssociative(snapshots, OwnSnapshot(m, ignore), FlattenAll(m.submodules, ignore));
  }

  /** A crate's snapshots, for a fixed ignore list. */
  function CrateSnapshotsOf(ignore: seq<string>): CrateNode -> seq<RustFileSnapshot> {
    (c: CrateNode) => Flatten(c.rootModule, ignore)
  }

  /** The loop in `main` over the crates of the graph. */
  method CollectAll(graph: ProjectGraph, ignore: seq<string>) returns (snapshots: seq<RustFileSnapshot>)
    ensures snapshots == ConcatMap(CrateSnapshotsOf(ignore), graph.crates)
  {
    snapshots := [];
    for i := 0 to |graph.crates|
      invariant snapshots == ConcatMap(CrateSnapshotsOf(ignore), graph.crates[..i])
    {
      assert graph.crates[..i + 1][..i] == graph.crates[..i];
      snapshots := CollectSnapshots(graph.crates[i].rootModule, snapshots, ignore);
    }
    assert graph.crates[..|graph.crates|] == graph.crates;
  }

  // ----- Properties of the flattening -----

  /** Flattening is pre-order: each module's own snapshot, taken over the modules in pre-order. */
  lemma {:induction false} FlattenIsPreorder(m: ModuleNode, ignore: seq<string>)
    ensures Flatten(m, ignore) == ConcatMap(OwnSnapshotOf(ignore), Modules(m))
    decreases m, 1
  {
    var f := OwnSnapshotOf(ignore);
    FlattenAllIsPreorder(m.submodules, ignore);
    ConcatMapAppend(f, [m], ModulesAll(m.submodules));
    ConcatMapSingle(f, m);
  }

  lemma {:induction false} FlattenAllIsPreorder(ms: seq<ModuleNode>, ignore: seq<string>)
    ensures FlattenAll(ms, ignore) == ConcatMap(OwnSnapshotOf(ignore), ModulesAll(ms))
    decreases ms, 0
  {
    if ms != [] {
      var init := ms[..|ms| - 1];
      var last := ms[|ms| - 1];
      FlattenAllIsPreorder(init, ignore);
      FlattenIsPreorder(last, ignore);
      ConcatMapAppend(OwnSnapshotOf(ignore), ModulesAll(init), Modules(last));
    }
  }

  /** The snapshot of a module's file, whatever its path. */
  function ParsedSnapshot(m: ModuleNode): seq<RustFileSnapshot> {
    match m.file
    case None => []
    case Some(f) => OptionToSeq(f.snapshot)
  }

  /** With no ignore patterns, every parsed file of the tree appears once, in pre-order. */
  lemma NoPatternsEveryParsedFile(m: ModuleNode)
    ensures Flatten(m, []) == ConcatMap(ParsedSnapshot, Modules(m))
  {
    var ms := Modules(m);
    FlattenIsPreorder(m, []);
    forall i | 0 <= i < |ms|
      ensures OwnSnapshotOf([])(ms[i]) == ParsedSnapshot(ms[i])
    {
    }
    ConcatMapCongruent(OwnSnapshotOf([]), ParsedSnapshot, ms);
  }

  /** The empty pattern occurs in every path, so it ignores every file. */
  lemma {:induction false} EmptyPatternIgnoresAll(m: ModuleNode, ignore: seq<string>)
    requires "" in ignore
    ensures Flatten(m, ignore) == []
    decreases m, 1
  {
    if m.file.Some? {
      var k :| 0 <= k < |ignore| && ignore[k] == "";
      ContainsEmpty(m.file.value.path);
      assert Contains(m.file.value.path, ignore[k]);
    }
    EmptyPatternIgnoresAllIn(m.submodules, ignore);
  }

  lemma {:induction false} EmptyPatternIgnoresAllIn(ms: seq<ModuleNode>, ignore: seq<string>)
    requires "" in ignore
    ensures FlattenAll(ms, ignore) == []
    decreases ms, 0
  {
    if ms != [] {
      EmptyPatternIgnoresAllIn(ms[..|ms| - 1], ignore);
      EmptyPatternIgnoresAll(ms[|ms| - 1], ignore);
    }
  }

  /**
   * A submodule's snapshots all reach the result of its parent, whether or
   * not the parent's own file is ignored.
   */
  lemma SubmodulesStillVisited(m: ModuleNode, k: nat, ignore: seq<string>)
    requires k < |m.submodules|
    ensures multiset(Flatten(m.submodules[k], ignore)) <= multiset(Flatten(m, ignore))
  {
    FlattenAllHolds(m.submodules, k, ignore);
  }

  lemma {:induction false} FlattenAllHolds(ms: seq<ModuleNode>, k: nat, ignore: seq<string>)
    requires k < |ms|
    ensures multiset(Flatten(ms[k], ignore)) <= multiset(FlattenAll(ms, ignore))
  {
    var init := ms[..|ms| - 1];
    if k < |ms| - 1 {
      FlattenAllHolds(init, k, ignore);
      assert init[k] == ms[k];
    }
  }

  /** Adding ignore patterns can only remove snapshots. */
  lemma {:induction false} MorePatternsFewerSnapshots(m: ModuleNode, ignore: seq<string>, extra: seq<string>)
    ensures multiset(Flatten(m, ignore + extra)) <= multiset(Flatten(m, ignore))
    decreases m, 1
  {
    if m.file.Some? && Ignored(m.file.value.path, ignore) {
      var k :| 0 <= k < |ignore| && Contains(m.file.value.path, ignore[k]);
      assert (ignore + extra)[k] == ignore[k];
    }
    MorePatternsFewerSnapshotsIn(m.submodules, ignore, extra);
  }

  lemma {:induction false} MorePatternsFewerSnapshotsIn(ms: seq<ModuleNode>, ignore: seq<string>, extra: seq<string>)
    ensures multiset(FlattenAll(ms, ignore + extra)) <= multiset(FlattenAll(ms, ignore))
    decreases ms, 0
  {
    if ms != [] {
      MorePatternsFewerSnapshotsIn(ms[..|ms| - 1], ignore, extra);
      MorePatternsFewerSnapshots(ms[|ms| - 1], ignore, extra);
    }
  }

  /** Snapshots of several crates come crate after crate, in the graph's order. */
  lemma CratesInOrder(root: Path, xs: seq<CrateNode>, ys: seq<CrateNode>, ignore: seq<string>)
    ensures ConcatMap(CrateSnapshotsOf(ignore), ProjectGraph(root, xs + ys).crates)
            == ConcatMap(CrateSnapshotsOf(ignore), xs) + ConcatMap(CrateSnapshotsOf(ignore), ys)
  {
    ConcatMapAppend(CrateSnapshotsOf(ignore), xs, ys);
  }

  // ----- The output style -----

  /** The style flags and options of the command line. */
  datatype StyleArgs = StyleArgs(
    plain: bool, tree: bool, compact: bool, verbose: bool, minimal: bool,
    grid: bool, markdown: bool, html: bool, badges: bool, monochrome: bool,
    layout: Option<Output.Layout>, detail: Option<Output.Detail>,
    color: Option<Output.ColorMode>, symbols: Option<Output.SymbolSet>)

  /** The preset flags in priority order, each with its style. */
  function PresetTable(args: StyleArgs): seq<(bool, Output.OutputStyle)> {
    [(args.tree, Output.TreeStyle), (args.compact, Output.CompactStyle), (args.verbose, Output.VerboseStyle),
     (args.minimal, Output.MinimalStyle), (args.grid, Output.GridStyle), (args.markdown, Output.MarkdownStyle),
     (args.html, Output.HtmlStyle), (args.badges, Output.BadgesStyle), (args.monochrome, Output.MonochromeStyle),
     (args.plain, Output.DefaultStyle)]
  }

  /** The style of the first set flag in the table, or the default style. */
  function FirstFlagged(table: seq<(bool, Output.OutputStyle)>): Output.OutputStyle {
    if table == [] then Output.DefaultStyle
    else if table[0].0 then table[0].1
    else FirstFlagged(table[1..])
  }

  /** `resolve_output_style`: a preset chosen by the first set flag, then each given option overriding its own field. */
  method ResolveOutputStyle(args: StyleArgs) returns (style: Output.OutputStyle)
    ensures style.layout == args.layout.GetOr(FirstFlagged(PresetTable(args)).layout)
    ensures style.detail == args.detail.GetOr(FirstFlagged(PresetTable(args)).detail)
    ensures style.color == args.color.GetOr(FirstFlagged(PresetTable(args)).color)
    ensures style.symbols == args.symbols.GetOr(FirstFlagged(PresetTable(args)).symbols)
    ensures args.layout.None? && args.detail.None? && args.color.None? && args.symbols.None?
            ==> style == FirstFlagged(PresetTable(args))
  {
    if args.tree {
      style := Output.TreeStyle;
    } else if args.compact {
      style := Output.CompactStyle;
    } else if args.verbose {
      style := Output.VerboseStyle;
    } else if args.minimal {
      style := Output.MinimalStyle;
    } else if args.grid {
      style := Output.GridStyle;
    } else if args.markdown {
      style := Output.MarkdownStyle;
    } else if args.html {
      style := Output.HtmlStyle;
    } else if args.badges {
      style := Output.BadgesStyle;
    } else if args.monochrome {
      style := Output.MonochromeStyle;
    } else if args.plain {
      style := Output.DefaultStyle;
    } else {
      style := Output.DefaultStyle;
    }
    assert style == FirstFlagged(PresetTable(args)) by {
      PresetChain(args);
    }
    if args.layout.Some? {
      style := style.(layout := args.layout.value);
    }
    if args.detail.Some? {
      style := style.(detail := args.detail.value);
    }
    if args.color.Some? {
      style := style.(color := args.color.value);
    }
    if args.symbols.Some? {
      style := style.(symbols := args.symbols.value);
    }
  }

  /** The table lookup agrees with the chain of flag tests. */
  lemma PresetChain(args: StyleArgs)
    ensures FirstFlagged(PresetTable(args)) ==
      if args.tree then Output.TreeStyle
      else if args.compact then Output.CompactStyle
      else if args.verbose then Output.VerboseStyle
      else if args.minimal then Output.MinimalStyle
      else if args.grid then Output.GridStyle
      else if args.markdown then Output.MarkdownStyle
      else if args.html then Output.HtmlStyle
      else if args.badges then Output.BadgesStyle
      else if args.monochrome then Output.MonochromeStyle
      else Output.DefaultStyle
  {
    var t9 := [(args.plain, Output.DefaultStyle)];
    var t8 := [(args.monochrome, Output.MonochromeStyle)] + t9;
    var t7 := [(args.badges, Output.BadgesStyle)] + t8;
    var t6 := [(args.html, Output.HtmlStyle)] + t7;
    var t5 := [(args.markdown, Output.MarkdownStyle)] + t6;
    var t4 := [(args.grid, Output.GridStyle)] + t5;
    var t3 := [(args.minimal, Output.MinimalStyle)] + t4;
    var t2 := [(args.verbose, Output.VerboseStyle)] + t3;
    var t1 := [(args.compact, Output.CompactStyle)] + t2;
    var t0 := [(args.tree, Output.TreeStyle)] + t1;
    assert t0 == PresetTable(args);
    assert FirstFlagged(t9) == Output.DefaultStyle by {
      FirstFlaggedCons(args.plain, Output.DefaultStyle, []);
    }
    FirstFlaggedCons(args.monochrome, Output.MonochromeStyle, t9);
    FirstFlaggedCons(args.badges, Output.BadgesStyle, t8);
    FirstFlaggedCons(args.html, Output.HtmlStyle, t7);
    FirstFlaggedCons(args.markdown, Output.MarkdownStyle, t6);
    FirstFlaggedCons(args.grid, Output.GridStyle, t5);
    FirstFlaggedCons(args.minimal, Output.MinimalStyle, t4);
    FirstFlaggedCons(args.verbose, Output.VerboseStyle, t3);
    FirstFlaggedCons(args.compact, Output.CompactStyle, t2);
    FirstFlaggedCons(args.tree, Output.TreeStyle, t1);
  }

  /** The first entry decides when its flag is set; otherwise the rest of the table does. */
  lemma FirstFlaggedCons(flag: bool, style: Output.OutputStyle, rest: seq<(bool, Output.OutputStyle)>)
    ensures FirstFlagged([(flag, style)] + rest) == if flag then style else FirstFlagged(rest)
  {
    assert ([(flag, style)] + rest)[1..] == rest;
  }

  /** With no preset flag, or only `--plain`, the preset is the default style. */
  lemma PlainIsDefault(args: StyleArgs)
    requires !args.tree && !args.compact && !args.verbose && !args.minimal && !args.grid
    requires !args.markdown && !args.html && !args.badges && !args.monochrome
    ensures FirstFlagged(PresetTable(args)) == Output.DefaultStyle
  {
    PresetChain(args);
  }

  /** `--tree` beats every other preset flag. */
  lemma TreeFlagWins(args: StyleArgs)
    requires args.tree
    ensures FirstFlagged(PresetTable(args)) == Output.TreeStyle
  {
  }

  // ----- Provider names -----

  /** The provider chosen by `--ai-provider` and `--ai-model`; any other name ends the program. */
  function AiProviderOf(name: string, model: Option<string>): (r: Result<AIProvider, string>)
    ensures r.Ok? <==> name == "openai" || name == "google"
    ensures r.Ok? ==> (r.value.OpenAI? <==> name == "openai")
    ensures r.Ok? ==> r.value.model == model.GetOr(if name == "openai" then "gpt-4" else "gemini-pro")
    ensures r.Err? ==> r.error == "Unknown AI provider: " + name + ". Use 'openai' or 'google'."
  {
    if name == "openai" then Ok(OpenAI(model.GetOr("gpt-4")))
    else if name == "google" then Ok(Google(model.GetOr("gemini-pro")))
    else Err("Unknown AI provider: " + name + ". Use 'openai' or 'google'.")
  }

  /** The provider chosen by `--layman`: the name is lower-cased first, and `gemini` also means Google. */
  function LaymanProviderOf(name: string, model: Option<string>): (r: Result<AIProvider, string>)
    ensures r.Ok? <==> ToLower(name) == "openai" || ToLower(name) == "google" || ToLower(name) == "gemini"
    ensures r.Ok? ==> (r.value.OpenAI? <==> ToLower(name) == "openai")
    ensures r.Ok? ==> r.value.model == model.GetOr(if ToLower(name) == "openai" then "gpt-4" else "gemini-pro")
    ensures r.Err? ==> r.error == "Unknown provider: " + name + ". Use 'openai' or 'google'."
  {
    var lower := ToLower(name);
    if lower == "openai" then Ok(OpenAI(model.GetOr("gpt-4")))
    else if lower == "google" || lower == "gemini" then Ok(Google(model.GetOr("gemini-pro")))
    else Err("Unknown provider: " + name + ". Use 'openai' or 'google'.")
  }

  /** Lower-casing leaves a string without upper-case letters unchanged. */
  lemma ToLowerOfLower(s: string)
    requires forall i :: 0 <= i < |s| ==> !IsAsciiUpper(s[i])
    ensures ToLower(s) == s
  {
  }

  /** Every name `--ai-provider` accepts, `--layman` accepts too, choosing the same provider. */
  lemma LaymanAcceptsProviderNames(name: string, model: Option<string>)
    requires AiProviderOf(name, model).Ok?
    ensures LaymanProviderOf(name, model) == AiProviderOf(name, model)
  {
    ToLowerOfLower(name);
  }

  /** `--layman` ignores case, which `--ai-provider` does not. */
  lemma LaymanIgnoresCase(model: Option<string>)
    ensures LaymanProviderOf("Gemini", model) == Ok(Google(model.GetOr("gemini-pro")))
    ensures AiProviderOf("Gemini", model).Err?
  {
    assert ToLower("Gemini") == "gemini" by {
      assert ToLower("Gemini")[0] == 'g';
    }
  }
}

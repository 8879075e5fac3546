/**
 * Rendering snapshots as text (src/output.rs): four layouts (plain, tree,
 * grid, compact), three levels of detail, three colour modes and three
 * symbol sets, with named presets.
 *
 * For each layout a function says what text is produced and a method of
 * `OutputRenderer` builds it by appending, as the source does, and is proved
 * to produce that text.  The tree and badge glyphs are a parameter `g`:
 * `Intended` holds the box-drawing characters and emoji, `AsWritten` the
 * characters the source file actually holds (see README, Findings).
 */
module Output {
  import opened Text
  import opened Types
  import Wrappers

  datatype Layout = Plain | Tree | Grid | Compact
  datatype Detail = Minimal | Standard | Verbose
  datatype ColorMode = None | Standard | Badges
  datatype SymbolSet = None | Ascii | Unicode

  datatype OutputStyle = OutputStyle(layout: Layout, detail: Detail, color: ColorMode, symbols: SymbolSet)

  // ----- Presets -----

  const DefaultStyle := OutputStyle(Layout.Plain, Detail.Standard, ColorMode.None, SymbolSet.None)
  const TreeStyle := OutputStyle(Layout.Tree, Detail.Standard, ColorMode.Standard, SymbolSet.Unicode)
  const CompactStyle := OutputStyle(Layout.Compact, Detail.Minimal, ColorMode.None, SymbolSet.None)
  const VerboseStyle := OutputStyle(Layout.Tree, Detail.Verbose, ColorMode.Standard, SymbolSet.Unicode)
  const MinimalStyle := OutputStyle(Layout.Plain, Detail.Minimal, ColorMode.None, SymbolSet.None)
  const GridStyle := OutputStyle(Layout.Grid, Detail.Standard, ColorMode.None, SymbolSet.Ascii)
  const MarkdownStyle := OutputStyle(Layout.Plain, Detail.Standard, ColorMode.None, SymbolSet.Ascii)
  const HtmlStyle := OutputStyle(Layout.Tree, Detail.Standard, ColorMode.None, SymbolSet.None)
  const BadgesStyle := OutputStyle(Layout.Plain, Detail.Standard, ColorMode.Badges, SymbolSet.Unicode)
  const MonochromeStyle := OutputStyle(Layout.Tree, Detail.Standard, ColorMode.None, SymbolSet.Unicode)

  // ----- Glyphs -----

  /** The non-ASCII decorations: three tree symbols, the file and section icons, and the badge icons. */
  datatype Glyphs = Glyphs(
    branch: string, pipe: string, last: string,
    page: string, wrench: string, crane: string, puzzle: string,
    folder: string, package: string)

  /** The box-drawing characters and emoji the layouts are designed around. */
  const Intended := Glyphs(
    "\U{251C}\U{2500}\U{2500}", "\U{2502}  ", "\U{2514}\U{2500}\U{2500}",
    "\U{1F4C4}", "\U{1F527}", "\U{1F3D7}\U{FE0F}", "\U{1F9E9}",
    "\U{1F4C1}", "\U{1F4E6}")

  /**
   * The characters output.rs holds in their place: the UTF-8 bytes of each
   * intended glyph read one by one as Windows-1252, with the bytes that
   * code page leaves undefined missing.
   */
  const AsWritten := Glyphs(
    "\U{00E2}\U{201D}\U{0153}\U{00E2}\U{201D}\U{20AC}\U{00E2}\U{201D}\U{20AC}",
    "\U{00E2}\U{201D}\U{201A}  ",
    "\U{00E2}\U{201D}\U{201D}\U{00E2}\U{201D}\U{20AC}\U{00E2}\U{201D}\U{20AC}",
    "\U{00F0}\U{0178}\U{201C}\U{201E}", "\U{00F0}\U{0178}\U{201D}\U{00A7}",
    "\U{00F0}\U{0178}\U{2014}\U{00EF}\U{00B8}", "\U{00F0}\U{0178}\U{00A7}\U{00A9}",
    "\U{00F0}\U{0178}\U{201C}", "\U{00F0}\U{0178}\U{201C}\U{00A6}")

  // ----- Grid frame -----

  /** `n` dashes. */
  function Dashes(n: nat): (r: string)
    ensures |r| == n
    ensures forall i :: 0 <= i < n ==> r[i] == '-'
  {
    if n == 0 then "" else "-" + Dashes(n - 1)
  }

  /** The grid's top, middle and bottom rule: a dash under each column, `+` at each column edge. */
  const GridBorder := "+" + Dashes(22) + "+" + Dashes(10) + "+" + Dashes(10) + "+" + Dashes(10) + "+\n"
  /** The column titles, each padded to its column's width. */
  const GridHeading := "| File" + Spaces(17) + "| Functions| Structs" + Spaces(2) + "| Enums" + Spaces(4) + "|\n"

  /** `truncate`: a string longer than `max` keeps its first `max - 3` characters followed by `...`. */
  function Truncate(s: string, max: nat): (r: string)
    requires max >= 3
    ensures |r| <= max
    ensures |s| <= max ==> r == s
    ensures |s| > max ==> |r| == max && r == s[..max - 3] + "..."
  {
    if |s| <= max then s else s[..max - 3] + "..."
  }

  /** The names of a function's local variables, in order. */
  function VariableNames(vars: seq<(string, Wrappers.Option<string>)>): seq<string> {
    if vars == [] then [] else VariableNames(vars[..|vars| - 1]) + [vars[|vars| - 1].0]
  }

  /** One row of the grid: the file's last path segment and its three counts, each in its column. */
  function GridRow(s: RustFileSnapshot): string {
    "| " + PadRight(Truncate(LastSegment(s.path), 20), 20)
      + " | " + PadRight(NatToString(|s.functions|), 8)
      + " | " + PadRight(NatToString(|s.structs|), 8)
      + " | " + PadRight(NatToString(|s.enums|), 8) + " |\n"
  }

  /** The three heading lines of the grid. */
  const GridHeader := GridBorder + GridHeading + GridBorder

  /** The heading followed by one row per file. */
  function GridLines(snapshots: seq<RustFileSnapshot>): string {
    if snapshots == [] then GridHeader
    else GridLines(snapshots[..|snapshots| - 1]) + GridRow(snapshots[|snapshots| - 1])
  }

  /** One more file adds its row. */
  lemma GridLinesStep(snapshots: seq<RustFileSnapshot>, i: nat)
    requires i < |snapshots|
    ensures GridLines(snapshots[..i + 1]) == GridLines(snapshots[..i]) + GridRow(snapshots[i])
  {
    assert snapshots[..i + 1][..i] == snapshots[..i];
  }

  /** What `render_grid` returns. */
  function GridText(snapshots: seq<RustFileSnapshot>): string {
    GridLines(snapshots) + GridBorder
  }

  /** One line of the compact layout. */
  function CompactLine(s: RustFileSnapshot): string {
    LastSegment(s.path) + ": f=" + NatToString(|s.functions|) + " s=" + NatToString(|s.structs|)
      + " e=" + NatToString(|s.enums|) + "\n"
  }

  /** What `render_compact` returns. */
  function CompactText(snapshots: seq<RustFileSnapshot>): string {
    ConcatMap(CompactLine, snapshots)
  }

  datatype OutputRenderer = OutputRenderer(style: OutputStyle)
  {
    // ----- Formatting one item -----

    /** `format_path`; the colour of the standard mode is not part of the text modelled. */
    function FormatPath(g: Glyphs, path: string): string {
      match style.color
      case Standard => path
      case Badges => g.folder + " " + path
      case None => path
    }

    function FormatSectionHeader(g: Glyphs, name: string): string {
      match style.color
      case Badges =>
        var icon := if name == "Functions" then g.wrench
                    else if name == "Structs" then g.crane
                    else if name == "Enums" then g.puzzle
                    else g.package;
        "  " + icon + " " + name + ":\n"
      case _ => "  " + name + ":\n"
    }

    function FormatFunction(f: FunctionSnapshot): string {
      match style.detail
      case Minimal => "    " + f.name + "\n"
      case Standard => "    " + f.name + " (args: " + NatToString(|f.args|) + ")\n"
      case Verbose => "    " + f.name + " (args: " + NatToString(|f.args|) + ", vars: " + NatToString(|f.variables|) + ")\n"
    }

    function FormatFunctionInline(f: FunctionSnapshot): string {
      match style.detail
      case Minimal => f.name
      case Standard => f.name + ": args [" + JoinWith(f.args, ", ") + "]"
      case Verbose => f.name + ": args [" + JoinWith(f.args, ", ") + "], variables [" + JoinWith(VariableNames(f.variables), ", ") + "]"
    }

    function FormatStruct(s: StructSnapshot): string {
      match style.detail
      case Minimal => "    " + s.name + "\n"
      case Standard => "    " + s.name + " (fields: " + NatToString(|s.fields|) + ")\n"
      case Verbose => "    " + s.name + " (fields: " + NatToString(|s.fields|) + ", methods: " + NatToString(|s.methods|) + ")\n"
    }

    function FormatStructInline(s: StructSnapshot): string {
      match style.detail
      case Minimal => s.name
      case Standard => s.name + ": fields [" + JoinWith(s.fields, ", ") + "]"
      case Verbose => s.name + ": fields [" + JoinWith(s.fields, ", ") + "], methods [" + JoinWith(s.methods, ", ") + "]"
    }

    function FormatEnum(e: EnumSnapshot): string {
      match style.detail
      case Minimal => "    " + e.name + "\n"
      case Standard => "    " + e.name + " (variants: " + NatToString(|e.variants|) + ")\n"
      case Verbose => "    " + e.name + " (variants: " + NatToString(|e.variants|) + ", methods: " + NatToString(|e.methods|) + ")\n"
    }

    function FormatEnumInline(e: EnumSnapshot): string {
      match style.detail
      case Minimal => e.name
      case Standard => e.name + ": variants [" + JoinWith(e.variants, ", ") + "]"
      case Verbose => e.name + ": variants [" + JoinWith(e.variants, ", ") + "], methods [" + JoinWith(e.methods, ", ") + "]"
    }

    // ----- Plain layout -----

    function PlainFunctions(fs: seq<FunctionSnapshot>): string {
      if fs == [] then "" else PlainFunctions(fs[..|fs| - 1]) + FormatFunction(fs[|fs| - 1])
    }

    function PlainStructs(ss: seq<StructSnapshot>): string {
      if ss == [] then "" else PlainStructs(ss[..|ss| - 1]) + FormatStruct(ss[|ss| - 1])
    }

    function PlainEnums(es: seq<EnumSnapshot>): string {
      if es == [] then "" else PlainEnums(es[..|es| - 1]) + FormatEnum(es[|es| - 1])
    }

    /** The titled list of a file's functions in the plain layout, absent when it declares none. */
    function PlainFunctionsSection(g: Glyphs, fs: seq<FunctionSnapshot>): string {
      if fs == [] then "" else FormatSectionHeader(g, "Functions") + PlainFunctions(fs)
    }

    function PlainStructsSection(g: Glyphs, ss: seq<StructSnapshot>): string {
      if ss == [] then "" else FormatSectionHeader(g, "Structs") + PlainStructs(ss)
    }

    function PlainEnumsSection(g: Glyphs, es: seq<EnumSnapshot>): string {
      if es == [] then "" else FormatSectionHeader(g, "Enums") + PlainEnums(es)
    }

    /** One file in the plain layout: its path, a section per non-empty kind, and a blank line. */
    function PlainBlock(g: Glyphs, s: RustFileSnapshot): string {
      FormatPath(g, s.path) + "\n"
        + PlainFunctionsSection(g, s.functions)
        + PlainStructsSection(g, s.structs)
        + PlainEnumsSection(g, s.enums)
        + "\n"
    }

    /** What `render_plain` returns. */
    function PlainText(g: Glyphs, snapshots: seq<RustFileSnapshot>): string {
      ConcatMap(s => PlainBlock(g, s), snapshots)
    }

    // ----- Tree layout -----

    /** The branch, continuation and last-branch symbols of the symbol set. */
    function TreeSymbols(g: Glyphs): (string, string, string) {
      match style.symbols
      case Unicode => (g.branch, g.pipe, g.last)
      case Ascii => ("|--", "|  ", "`--")
      case None => ("", "  ", "")
    }

    function TreeFunctions(pipe: string, fs: seq<FunctionSnapshot>): string {
      if fs == [] then ""
      else TreeFunctions(pipe, fs[..|fs| - 1]) + pipe + "  - " + FormatFunctionInline(fs[|fs| - 1]) + "\n"
    }

    function TreeStructs(pipe: string, ss: seq<StructSnapshot>): string {
      if ss == [] then ""
      else TreeStructs(pipe, ss[..|ss| - 1]) + pipe + "  - " + FormatStructInline(ss[|ss| - 1]) + "\n"
    }

    function TreeEnums(pipe: string, es: seq<EnumSnapshot>): string {
      if es == [] then ""
      else TreeEnums(pipe, es[..|es| - 1]) + pipe + "  - " + FormatEnumInline(es[|es| - 1]) + "\n"
    }

    /** The line that opens a file in the tree layout: branch symbol, file icon, path. */
    function TreeHead(g: Glyphs, s: RustFileSnapshot): string {
      TreeSymbols(g).0 + " " + g.page + (" " + FormatPath(g, s.path) + "\n")
    }

    /** One file in the tree layout: its opening line, then a titled list per non-empty kind. */
    function TreeBlock(g: Glyphs, s: RustFileSnapshot): string {
      var pipe := TreeSymbols(g).1;
      TreeHead(g, s)
        + (if s.functions == [] then "" else pipe + "  " + g.wrench + " Functions:\n" + TreeFunctions(pipe, s.functions))
        + (if s.structs == [] then "" else pipe + "  " + g.crane + " Structs:\n" + TreeStructs(pipe, s.structs))
        + (if s.enums == [] then "" else pipe + "  " + g.puzzle + " Enums:\n" + TreeEnums(pipe, s.enums))
    }

    /** What `render_tree` returns. */
    function TreeText(g: Glyphs, snapshots: seq<RustFileSnapshot>): string {
      ConcatMap(s => TreeBlock(g, s), snapshots)
    }

    /** What `render` returns: the text of the style's layout. */
    function RenderText(g: Glyphs, snapshots: seq<RustFileSnapshot>): string {
      match style.layout
      case Plain => PlainText(g, snapshots)
      case Tree => TreeText(g, snapshots)
      case Grid => GridText(snapshots)
      case Compact => CompactText(snapshots)
    }

    // ----- The renderer -----

    /** `render`: the text of the style's layout, drawn with the intended glyphs. */
    method Render(snapshots: seq<RustFileSnapshot>) returns (output: string)
      ensures output == RenderText(Intended, snapshots)
    {
      match style.layout {
        case Plain => output := RenderPlain(snapshots);
        case Tree => output := RenderTree(snapshots);
        case Grid => output := RenderGrid(snapshots);
        case Compact => output := RenderCompact(snapshots);
      }
    }

    /** `render_plain` */
    method RenderPlain(snapshots: seq<RustFileSnapshot>) returns (output: string)
      ensures output == PlainText(Intended, snapshots)
    {
      output := "";
      for i := 0 to |snapshots|
        invariant output == PlainText(Intended, snapshots[..i])
      {
        assert snapshots[..i + 1][..i] == snapshots[..i];
        var block := PlainFileBlock(snapshots[i]);
        output := output + block;
      }
      assert snapshots[..|snapshots|] == snapshots;
    }

    /** The text `render_plain` appends for one file. */
    method PlainFileBlock(snapshot: RustFileSnapshot) returns (block: string)
      ensures block == PlainBlock(Intended, snapshot)
    {
      block := FormatPath(Intended, snapshot.path) + "\n";
      var section := "";
      if snapshot.functions != [] {
        var lines := PlainFunctionLines(snapshot.functions);
        section := FormatSectionHeader(Intended, "Functions") + lines;
      }
      block := block + section;
      section := "";
      if snapshot.structs != [] {
        var lines := PlainStructLines(snapshot.structs);
        section := FormatSectionHeader(Intended, "Structs") + lines;
      }
      block := block + section;
      section := "";
      if snapshot.enums != [] {
        var lines := PlainEnumLines(snapshot.enums);
        section := FormatSectionHeader(Intended, "Enums") + lines;
      }
      block := block + section;
      block := block + "\n";
    }

    method PlainFunctionLines(fs: seq<FunctionSnapshot>) returns (text: string)
      ensures text == PlainFunctions(fs)
    {
      text := "";
      for j := 0 to |fs|
        invariant text == PlainFunctions(fs[..j])
      {
        assert fs[..j + 1][..j] == fs[..j];
        text := text + FormatFunction(fs[j]);
      }
      assert fs[..|fs|] == fs;
    }

    method PlainStructLines(ss: seq<StructSnapshot>) returns (text: string)
      ensures text == PlainStructs(ss)
    {
      text := "";
      for j := 0 to |ss|
        invariant text == PlainStructs(ss[..j])
      {
        assert ss[..j + 1][..j] == ss[..j];
        text := text + FormatStruct(ss[j]);
      }
      assert ss[..|ss|] == ss;
    }

    method PlainEnumLines(es: seq<EnumSnapshot>) returns (text: string)
      ensures text == PlainEnums(es)
    {
      text := "";
      for j := 0 to |es|
        invariant text == PlainEnums(es[..j])
      {
        assert es[..j + 1][..j] == es[..j];
        text := text + FormatEnum(es[j]);
      }
      assert es[..|es|] == es;
    }

    /** `render_tree` */
    method RenderTree(snapshots: seq<RustFileSnapshot>) returns (output: string)
      ensures output == TreeText(Intended, snapshots)
    {
      output := "";
      for i := 0 to |snapshots|
        invariant output == TreeText(Intended, snapshots[..i])
      {
        assert snapshots[..i + 1][..i] == snapshots[..i];
        var block := TreeFileBlock(snapshots[i]);
        output := output + block;
      }
      assert snapshots[..|snapshots|] == snapshots;
    }

    /** The text `render_tree` appends for one file. */
    method TreeFileBlock(snapshot: RustFileSnapshot) returns (block: string)
      ensures block == TreeBlock(Intended, snapshot)
    {
      var pipe := TreeSymbols(Intended).1;
      block := TreeHead(Intended, snapshot);
      var section := "";
      if snapshot.functions != [] {
        var lines := TreeFunctionLines(pipe, snapshot.functions);
        section := pipe + "  " + Intended.wrench + " Functions:\n" + lines;
      }
      block := block + section;
      section := "";
      if snapshot.structs != [] {
        var lines := TreeStructLines(pipe, snapshot.structs);
        section := pipe + "  " + Intended.crane + " Structs:\n" + lines;
      }
      block := block + section;
      section := "";
      if snapshot.enums != [] {
        var lines := TreeEnumLines(pipe, snapshot.enums);
        section := pipe + "  " + Intended.puzzle + " Enums:\n" + lines;
      }
      block := block + section;
    }

    method TreeFunctionLines(pipe: string, fs: seq<FunctionSnapshot>) returns (text: string)
      ensures text == TreeFunctions(pipe, fs)
    {
      text := "";
      for j := 0 to |fs|
        invariant text == TreeFunctions(pipe, fs[..j])
      {
        assert fs[..j + 1][..j] == fs[..j];
        text := text + pipe + "  - " + FormatFunctionInline(fs[j]) + "\n";
      }
      assert fs[..|fs|] == fs;
    }

    method TreeStructLines(pipe: string, ss: seq<StructSnapshot>) returns (text: string)
      ensures text == TreeStructs(pipe, ss)
    {
      text := "";
      for j := 0 to |ss|
        invariant text == TreeStructs(pipe, ss[..j])
      {
        assert ss[..j + 1][..j] == ss[..j];
        text := text + pipe + "  - " + FormatStructInline(ss[j]) + "\n";
      }
      assert ss[..|ss|] == ss;
    }

    method TreeEnumLines(pipe: string, es: seq<EnumSnapshot>) returns (text: string)
      ensures text == TreeEnums(pipe, es)
    {
      text := "";
      for j := 0 to |es|
        invariant text == TreeEnums(pipe, es[..j])
      {
        assert es[..j + 1][..j] == es[..j];
        text := text + pipe + "  - " + FormatEnumInline(es[j]) + "\n";
      }
      assert es[..|es|] == es;
    }

    /** `render_grid` */
    method RenderGrid(snapshots: seq<RustFileSnapshot>) returns (output: string)
      ensures output == GridText(snapshots)
    {
      output := GridHeader;
      for i := 0 to |snapshots|
        invariant output == GridLines(snapshots[..i])
      {
        GridLinesStep(snapshots, i);
        output := output + GridRow(snapshots[i]);
      }
      assert snapshots[..|snapshots|] == snapshots;
      output := output + GridBorder;
    }

    /** `render_compact` */
    method RenderCompact(snapshots: seq<RustFileSnapshot>) returns (output: string)
      ensures output == CompactText(snapshots)
    {
      output := "";
      for i := 0 to |snapshots|
        invariant output == CompactText(snapshots[..i])
      {
        assert snapshots[..i + 1][..i] == snapshots[..i];
        output := output + CompactLine(snapshots[i]);
      }
      assert snapshots[..|snapshots|] == snapshots;
    }
  }

  // ----- Properties -----

  /**
   * Every grid row is exactly as wide as the border, whatever the file name
   * (truncation keeps it in its column), as long as each count has at most
   * eight digits.
   */
  lemma GridRowAligned(s: RustFileSnapshot)
    requires |s.functions| < 100000000 && |s.structs| < 100000000 && |s.enums| < 100000000
    ensures |GridRow(s)| == |GridBorder| == |GridHeading|
  {
    assert Pow10(8) == 100000000 by {
      assert Pow10(4) == 10000;
    }
    NatToStringWidth(|s.functions|, 8);
    NatToStringWidth(|s.structs|, 8);
    NatToStringWidth(|s.enums|, 8);
  }

  /** A line of text that holds no line feed before its final one holds exactly one. */
  lemma OneNewlineAtEnd(line: string)
    requires |line| >= 1 && line[|line| - 1] == '\n'
    requires forall i :: 0 <= i < |line| - 1 ==> line[i] != '\n'
    ensures CountChar(line, '\n') == 1
  {
    var body := line[..|line| - 1];
    assert line == body + "\n";
    CountCharAbsent(body, '\n');
    CountCharAppend(body, "\n", '\n');
  }

  lemma BorderOneNewline()
    ensures CountChar(GridBorder, '\n') == 1
  {
    forall i | 0 <= i < |GridBorder| - 1
      ensures GridBorder[i] != '\n'
    {
      assert GridBorder[i] == '+' || GridBorder[i] == '-';
    }
    OneNewlineAtEnd(GridBorder);
  }

  lemma HeadingOneNewline()
    ensures CountChar(GridHeading, '\n') == 1
  {
    forall i | 0 <= i < |GridHeading| - 1
      ensures GridHeading[i] != '\n'
    {
      var a := "| File" + Spaces(17);
      var b := "| Functions| Structs" + Spaces(2);
      var c := "| Enums" + Spaces(4);
      assert '\n' !in a && '\n' !in b && '\n' !in c;
      assert GridHeading == a + b + c + "|\n";
    }
    OneNewlineAtEnd(GridHeading);
  }

  /** A path's last segment has no line feed when the path has none. */
  lemma LastSegmentNoNewline(path: string)
    requires '\n' !in path
    ensures '\n' !in LastSegment(path)
  {
    var r := LastSegment(path);
    forall i | 0 <= i < |r|
      ensures r[i] != '\n'
    {
      assert r[i] == path[|path| - |r| + i];
    }
  }

  lemma PadNoNewline(t: string, w: nat)
    requires '\n' !in t
    ensures '\n' !in PadRight(t, w)
  {
    var r := PadRight(t, w);
    forall i | 0 <= i < |r|
      ensures r[i] != '\n'
    {
      if i < |t| {
        assert r[i] == r[..|t|][i];
      }
    }
  }

  lemma TruncateNoNewline(x: string, max: nat)
    requires max >= 3 && '\n' !in x
    ensures '\n' !in Truncate(x, max)
  {
    var t := Truncate(x, max);
    forall i | 0 <= i < |t|
      ensures t[i] != '\n'
    {
      if |x| > max && i < max - 3 {
        assert t[i] == x[i];
      }
    }
  }

  /** A row made of cells without line feeds holds exactly one, at its end. */
  lemma RowCellsOneNewline(a: string, b: string, c: string, d: string)
    requires '\n' !in a && '\n' !in b && '\n' !in c && '\n' !in d
    ensures CountChar("| " + a + " | " + b + " | " + c + " | " + d + " |\n", '\n') == 1
  {
    var nl := '\n';
    var open, sep, close := "| ", " | ", " |\n";
    assert CountChar(open, nl) == 0 && CountChar(sep, nl) == 0 && CountChar(close, nl) == 1 by {
      assert open[1..][1..] == [] && sep[1..][1..][1..] == [] && close[1..][1..][1..] == [];
    }
    CountCharAbsent(a, nl);
    CountCharAbsent(b, nl);
    CountCharAbsent(c, nl);
    CountCharAbsent(d, nl);
    var p := open;
    CountCharAppend(p, a, nl);
    p := p + a;
    CountCharAppend(p, sep, nl);
    p := p + sep;
    CountCharAppend(p, b, nl);
    p := p + b;
    CountCharAppend(p, sep, nl);
    p := p + sep;
    CountCharAppend(p, c, nl);
    p := p + c;
    CountCharAppend(p, sep, nl);
    p := p + sep;
    CountCharAppend(p, d, nl);
    p := p + d;
    CountCharAppend(p, close, nl);
  }

  /** A grid row of a file whose path has no line feed holds exactly one, at its end. */
  lemma GridRowOneNewline(s: RustFileSnapshot)
    requires '\n' !in s.path
    ensures CountChar(GridRow(s), '\n') == 1
  {
    var name := LastSegment(s.path);
    var f, st, e := NatToString(|s.functions|), NatToString(|s.structs|), NatToString(|s.enums|);
    LastSegmentNoNewline(s.path);
    TruncateNoNewline(name, 20);
    PadNoNewline(Truncate(name, 20), 20);
    assert '\n' !in f && '\n' !in st && '\n' !in e;
    PadNoNewline(f, 8);
    PadNoNewline(st, 8);
    PadNoNewline(e, 8);
    RowCellsOneNewline(PadRight(Truncate(name, 20), 20), PadRight(f, 8), PadRight(st, 8), PadRight(e, 8));
  }

  /** The grid prints three heading lines, one row per file and a closing rule, provided no path holds a line feed. */
  lemma GridLineCount(snapshots: seq<RustFileSnapshot>)
    requires forall k :: 0 <= k < |snapshots| ==> '\n' !in snapshots[k].path
    ensures CountChar(GridText(snapshots), '\n') == 3 + |snapshots| + 1
  {
    GridRowsCount(snapshots);
    BorderOneNewline();
    CountCharAppend(GridLines(snapshots), GridBorder, '\n');
  }

  lemma {:induction false} GridRowsCount(snapshots: seq<RustFileSnapshot>)
    requires forall k :: 0 <= k < |snapshots| ==> '\n' !in snapshots[k].path
    ensures CountChar(GridLines(snapshots), '\n') == 3 + |snapshots|
  {
    if snapshots == [] {
      BorderOneNewline();
      HeadingOneNewline();
      CountCharAppend(GridBorder, GridHeading, '\n');
      CountCharAppend(GridBorder + GridHeading, GridBorder, '\n');
    } else {
      var init := snapshots[..|snapshots| - 1];
      var s := snapshots[|snapshots| - 1];
      GridRowsCount(init);
      GridRowOneNewline(s);
      CountCharAppend(GridLines(init), GridRow(s), '\n');
    }
  }

  /** The compact line of a file whose path has no line feed holds exactly one, at its end. */
  lemma CompactLineOneNewline(s: RustFileSnapshot)
    requires '\n' !in s.path
    ensures CountChar(CompactLine(s), '\n') == 1
  {
    var seg, f, t, n := LastSegment(s.path), NatToString(|s.functions|), NatToString(|s.structs|), NatToString(|s.enums|);
    LastSegmentNoNewline(s.path);
    NatNoNewline(|s.functions|);
    NatNoNewline(|s.structs|);
    NatNoNewline(|s.enums|);
    var body := seg + ": f=" + f + " s=" + t + " e=" + n;
    CountsNoNewline(seg, f, t, n);
    CountCharAbsent(body, '\n');
    CountCharAppend(body, "\n", '\n');
    assert CompactLine(s) == body + "\n";
  }

  lemma NatNoNewline(k: nat)
    ensures '\n' !in NatToString(k)
  {
    var r := NatToString(k);
    forall i | 0 <= i < |r|
      ensures r[i] != '\n'
    {
      assert IsAsciiDigit(r[i]);
    }
  }

  /** The text of a compact line before its line feed holds none when its parts hold none. */
  lemma CountsNoNewline(seg: string, f: string, t: string, n: string)
    requires '\n' !in seg && '\n' !in f && '\n' !in t && '\n' !in n
    ensures '\n' !in seg + ": f=" + f + " s=" + t + " e=" + n
  {
  }


  /** The compact layout prints one line per file, provided no path holds a line feed. */
  lemma {:induction false} CompactLineCount(snapshots: seq<RustFileSnapshot>)
    requires forall k :: 0 <= k < |snapshots| ==> '\n' !in snapshots[k].path
    ensures CountChar(CompactText(snapshots), '\n') == |snapshots|
  {
    if snapshots != [] {
      var init := snapshots[..|snapshots| - 1];
      var s := snapshots[|snapshots| - 1];
      CompactLineCount(init);
      CompactLineOneNewline(s);
      CountCharAppend(CompactText(init), CompactLine(s), '\n');
    }
  }

  /** The compact and grid layouts ignore detail, colour and symbols. */
  lemma CountLayoutsIgnoreStyle(a: OutputStyle, b: OutputStyle, g: Glyphs, snapshots: seq<RustFileSnapshot>)
    requires a.layout == b.layout && (a.layout == Layout.Compact || a.layout == Layout.Grid)
    ensures OutputRenderer(a).RenderText(g, snapshots) == OutputRenderer(b).RenderText(g, snapshots)
  {
  }

  /** At minimal detail an item shows its name and nothing else: items with the same name print alike. */
  lemma MinimalShowsNamesOnly(r: OutputRenderer, f1: FunctionSnapshot, f2: FunctionSnapshot,
                              s1: StructSnapshot, s2: StructSnapshot, e1: EnumSnapshot, e2: EnumSnapshot)
    requires r.style.detail == Detail.Minimal
    requires f1.name == f2.name && s1.name == s2.name && e1.name == e2.name
    ensures r.FormatFunction(f1) == r.FormatFunction(f2) && r.FormatFunctionInline(f1) == r.FormatFunctionInline(f2)
    ensures r.FormatStruct(s1) == r.FormatStruct(s2) && r.FormatStructInline(s1) == r.FormatStructInline(s2)
    ensures r.FormatEnum(e1) == r.FormatEnum(e2) && r.FormatEnumInline(e1) == r.FormatEnumInline(e2)
  {
  }

  /** A file with no functions, structs or enums shows as its path and a blank line, with no section headers. */
  lemma EmptySnapshotPlain(style: OutputStyle, g: Glyphs, path: string)
    ensures OutputRenderer(style).PlainText(g, [RustFileSnapshot(path, [], [], [], [], [])])
            == OutputRenderer(style).FormatPath(g, path) + "\n\n"
  {
    var r := OutputRenderer(style);
    var s := RustFileSnapshot(path, [], [], [], [], []);
    ConcatMapSingle(s' => r.PlainBlock(g, s'), s);
    var head := r.FormatPath(g, path) + "\n";
    assert r.PlainBlock(g, s) == head + "" + "" + "" + "\n";
    assert head + "" + "" + "" + "\n" == head + "\n";
  }

  /**
   * The compact line of a file with two functions, one struct and one enum
   * names the file by its last path segment.
   */
  lemma CompactExample(dir: string, name: string, functions: seq<FunctionSnapshot>, s: StructSnapshot, e: EnumSnapshot)
    requires '/' !in name && |functions| == 2
    ensures CompactText([RustFileSnapshot(dir + "/" + name, functions, [s], [], [e], [])])
            == name + ": f=2 s=1 e=1\n"
  {
    var snap := RustFileSnapshot(dir + "/" + name, functions, [s], [], [e], []);
    assert CompactText([snap]) == CompactLine(snap) by {
      ConcatMapSingle(CompactLine, snap);
    }
    var seg, f, t, n := LastSegment(snap.path), NatToString(|snap.functions|), NatToString(|snap.structs|), NatToString(|snap.enums|);
    assert seg == name by {
      LastSegmentAfterSlash(dir, name);
    }
    assert f == "2" && t == "1" && n == "1" by {
      assert |snap.functions| == 2 && |snap.structs| == 1 && |snap.enums| == 1;
    }
    assert CompactLine(snap) == seg + ": f=" + f + " s=" + t + " e=" + n + "\n";
    CountsText(seg, f, t, n);
  }

  /** A compact line whose counts read 2, 1 and 1. */
  lemma CountsText(a: string, f: string, s: string, e: string)
    requires f == "2" && s == "1" && e == "1"
    ensures a + ": f=" + f + " s=" + s + " e=" + e + "\n" == a + ": f=2 s=1 e=1\n"
  {
    var tail := ": f=" + f + " s=" + s + " e=" + e + "\n";
    assert tail == ": f=2 s=1 e=1\n";
    assert a + ": f=" + f + " s=" + s + " e=" + e + "\n" == a + tail;
  }

  /**
   * Files are rendered independently and in order: in the plain, tree and
   * compact layouts the text for `xs + ys` is the text for `xs` followed by
   * the text for `ys`.
   */
  lemma RenderAppend(r: OutputRenderer, g: Glyphs, xs: seq<RustFileSnapshot>, ys: seq<RustFileSnapshot>)
    requires r.style.layout != Layout.Grid
    ensures r.RenderText(g, xs + ys) == r.RenderText(g, xs) + r.RenderText(g, ys)
  {
    match r.style.layout {
      case Plain => ConcatMapAppend(s => r.PlainBlock(g, s), xs, ys);
      case Tree => ConcatMapAppend(s => r.TreeBlock(g, s), xs, ys);
      case Compact => ConcatMapAppend(CompactLine, xs, ys);
    }
  }

  // ----- The tree glyphs as written and as intended -----

  /** An occurrence in a prefix stays an occurrence. */
  lemma ContainsExtended(s: string, b: string, pat: string)
    requires Contains(s, pat)
    ensures Contains(s + b, pat)
  {
    ContainsInfix("", s, b, pat);
    assert "" + s + b == s + b;
  }

  /** The tree block of a file always shows the file icon, on its opening line. */
  lemma TreeBlockShowsPageIcon(r: OutputRenderer, g: Glyphs, s: RustFileSnapshot)
    ensures Contains(r.TreeHead(g, s), g.page)
    ensures StartsWith(r.TreeBlock(g, s), r.TreeHead(g, s))
    ensures Contains(r.TreeBlock(g, s), g.page)
  {
    var block := r.TreeBlock(g, s);
    var pipe := r.TreeSymbols(g).1;
    var head := r.TreeHead(g, s);
    ContainsSelf(g.page);
    ContainsInfix(r.TreeSymbols(g).0 + " ", g.page, " " + r.FormatPath(g, s.path) + "\n", g.page);
    var f := if s.functions == [] then "" else pipe + "  " + g.wrench + " Functions:\n" + r.TreeFunctions(pipe, s.functions);
    var t := if s.structs == [] then "" else pipe + "  " + g.crane + " Structs:\n" + r.TreeStructs(pipe, s.structs);
    var e := if s.enums == [] then "" else pipe + "  " + g.puzzle + " Enums:\n" + r.TreeEnums(pipe, s.enums);
    assert block == head + f + t + e;
    AppendAssociative(head + f, t, e);
    AppendAssociative(head, f, t + e);
    ContainsExtended(head, f + (t + e), g.page);
    StartsWithAppend(head, f + (t + e));
  }

  /**
   * A tree rendering shows the file icon in the block of every file, and so
   * somewhere in the text whenever there is a file.
   */
  lemma TreeShowsPageIcon(r: OutputRenderer, g: Glyphs, snapshots: seq<RustFileSnapshot>)
    ensures forall k :: 0 <= k < |snapshots| ==> Contains(r.TreeBlock(g, snapshots[k]), g.page)
    ensures snapshots != [] ==> Contains(r.TreeText(g, snapshots), g.page)
  {
    forall k | 0 <= k < |snapshots|
      ensures Contains(r.TreeBlock(g, snapshots[k]), g.page)
    {
      TreeBlockShowsPageIcon(r, g, snapshots[k]);
    }
    if snapshots != [] {
      var s := snapshots[|snapshots| - 1];
      var block := r.TreeBlock(g, s);
      var before := r.TreeText(g, snapshots[..|snapshots| - 1]);
      ContainsInfix(before, block, "", g.page);
      assert before + block + "" == r.TreeText(g, snapshots);
    }
  }

  /**
   * Each file's block sits in its own place in the plain and tree
   * renderings: the text for `xs + [s] + ys` is the text for `xs`, then the
   * block of `s`, then the text for `ys`.
   */
  lemma FileBlockInPlace(r: OutputRenderer, g: Glyphs, xs: seq<RustFileSnapshot>, s: RustFileSnapshot, ys: seq<RustFileSnapshot>)
    ensures r.PlainText(g, xs + [s] + ys) == r.PlainText(g, xs) + r.PlainBlock(g, s) + r.PlainText(g, ys)
    ensures r.TreeText(g, xs + [s] + ys) == r.TreeText(g, xs) + r.TreeBlock(g, s) + r.TreeText(g, ys)
  {
    var plain := s' => r.PlainBlock(g, s');
    ConcatMapAppend(plain, xs + [s], ys);
    ConcatMapAppend(plain, xs, [s]);
    ConcatMapSingle(plain, s);
    var tree := s' => r.TreeBlock(g, s');
    ConcatMapAppend(tree, xs + [s], ys);
    ConcatMapAppend(tree, xs, [s]);
    ConcatMapSingle(tree, s);
  }

  /**
   * A file's plain block opens with its path line, and each section is
   * present exactly when its list is non-empty, opening with its header.
   */
  lemma PlainBlockShape(r: OutputRenderer, g: Glyphs, s: RustFileSnapshot)
    ensures StartsWith(r.PlainBlock(g, s), r.FormatPath(g, s.path) + "\n")
    ensures r.PlainFunctionsSection(g, s.functions) == "" <==> s.functions == []
    ensures r.PlainStructsSection(g, s.structs) == "" <==> s.structs == []
    ensures r.PlainEnumsSection(g, s.enums) == "" <==> s.enums == []
    ensures s.functions != [] ==> StartsWith(r.PlainFunctionsSection(g, s.functions), r.FormatSectionHeader(g, "Functions"))
    ensures s.structs != [] ==> StartsWith(r.PlainStructsSection(g, s.structs), r.FormatSectionHeader(g, "Structs"))
    ensures s.enums != [] ==> StartsWith(r.PlainEnumsSection(g, s.enums), r.FormatSectionHeader(g, "Enums"))
  {
    var head := r.FormatPath(g, s.path) + "\n";
    var f := r.PlainFunctionsSection(g, s.functions);
    var t := r.PlainStructsSection(g, s.structs);
    var e := r.PlainEnumsSection(g, s.enums);
    assert r.PlainBlock(g, s) == head + f + t + e + "\n";
    StartsWithAppend(head, f);
    StartsWithExtended(head + f, head, t);
    StartsWithExtended(head + f + t, head, e);
    StartsWithExtended(head + f + t + e, head, "\n");
    SectionHeaderNonEmpty(r, g, "Functions");
    SectionHeaderNonEmpty(r, g, "Structs");
    SectionHeaderNonEmpty(r, g, "Enums");
    if s.functions != [] {
      StartsWithAppend(r.FormatSectionHeader(g, "Functions"), r.PlainFunctions(s.functions));
    }
    if s.structs != [] {
      StartsWithAppend(r.FormatSectionHeader(g, "Structs"), r.PlainStructs(s.structs));
    }
    if s.enums != [] {
      StartsWithAppend(r.FormatSectionHeader(g, "Enums"), r.PlainEnums(s.enums));
    }
  }

  lemma SectionHeaderNonEmpty(r: OutputRenderer, g: Glyphs, name: string)
    ensures |r.FormatSectionHeader(g, name)| > 0
  {
  }


  /** With the intended glyphs, a tree rendering of any file shows the page emoji. */
  lemma IntendedTreeShowsPageEmoji(r: OutputRenderer, snapshots: seq<RustFileSnapshot>)
    requires snapshots != []
    ensures Contains(r.TreeText(Intended, snapshots), "\U{1F4C4}")
  {
    TreeShowsPageIcon(r, Intended, snapshots);
  }

  /**
   * With the glyphs as written, the tree rendering of a file whose path is
   * plain ASCII and which declares nothing never shows the page emoji.
   */
  lemma AsWrittenTreeLacksPageEmoji(r: OutputRenderer, path: string)
    requires forall i :: 0 <= i < |path| ==> path[i] < 128 as char
    ensures !Contains(r.TreeText(AsWritten, [RustFileSnapshot(path, [], [], [], [], [])]), "\U{1F4C4}")
  {
    var s := RustFileSnapshot(path, [], [], [], [], []);
    var c := '\U{1F4C4}';
    ConcatMapSingle(s' => r.TreeBlock(AsWritten, s'), s);
    var head := r.TreeHead(AsWritten, s);
    assert r.TreeBlock(AsWritten, s) == head + "" + "" + "";
    assert head + "" + "" + "" == head;
    assert r.TreeText(AsWritten, [s]) == head;
    assert c !in path by {
      forall i | 0 <= i < |path|
        ensures path[i] != c
      {
      }
    }
    assert c !in r.TreeSymbols(AsWritten).0;
    assert c !in AsWritten.page;
    assert c !in r.FormatPath(AsWritten, path);
    assert c !in head;
    ContainsChar(head, c);
  }
}

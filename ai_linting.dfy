/**
 * The provider-independent part of the AI analysis (src/ai_linting.rs):
 * the linter's settings, the prompt that summarises a project, and the
 * reading of the model's free-text answer into insights, suggestions and a
 * quality score.  The network calls themselves are not modelled; the build
 * modelled is the one without the `ai` feature, where both analyses fail
 * with a fixed message.
 */
module AiLinting {
  import opened Wrappers
  import opened Text
  import opened Types

  datatype AIProvider = OpenAI(model: string) | Google(model: string)

  /** What the analysis yields; the score is whatever the float parser made of the chosen word. */
  datatype AIAnalysis = AIAnalysis(insights: seq<string>, suggestions: seq<string>, qualityScore: Option<real>)

  const NotEnabled := "AI features are not enabled. Compile with --features ai"

  // ----- Reading the answer -----

  /** The item a line contributes: the rest of a trimmed line that starts with `- ` or `* `. */
  function BulletItem(line: string): seq<string> {
    BulletOf(Trim(line))
  }

  /** The item of a trimmed line: its rest after a leading `- ` or `* `. */
  function BulletOf(t: string): seq<string> {
    if StartsWith(t, "- ") || StartsWith(t, "* ") then [t[2..]] else []
  }

  /** The bulleted items of an answer, in order. */
  function Bullets(content: string): seq<string> {
    ConcatMap(BulletItem, Lines(content))
  }

  /** Whether suggestions are collected: decided once for the whole answer. */
  predicate MentionsSuggestions(content: string) {
    Contains(content, "suggestion") || Contains(content, "improve")
  }

  /** `char::is_numeric`, restricted to ASCII digits. */
  predicate HasDigit(s: string) {
    exists i :: 0 <= i < |s| && IsAsciiDigit(s[i])
  }

  /** The value of the first word the float parser accepts. */
  function FirstNumber(words: seq<string>, parseFloat: string -> Option<real>): Option<real> {
    if words == [] then None
    else if parseFloat(words[0]).Some? then parseFloat(words[0])
    else FirstNumber(words[1..], parseFloat)
  }

  /** The score after reading `lines`: the number on the last line mentioning `score` that has one. */
  function ScoreOf(lines: seq<string>, parseFloat: string -> Option<real>): Option<real> {
    if lines == [] then None
    else ScoreAfter(ScoreOf(lines[..|lines| - 1], parseFloat), Trim(lines[|lines| - 1]), parseFloat)
  }

  /** The score after reading one trimmed line: the line's number if it mentions `score` and has one. */
  function ScoreAfter(earlier: Option<real>, line: string, parseFloat: string -> Option<real>): Option<real> {
    if Contains(line, "score") && HasDigit(line) then
      match FirstNumber(Words(line), parseFloat)
      case Some(v) => Some(v)
      case None => earlier
    else earlier
  }

  /** A trimmed line that sets the score: it mentions `score`, has a digit, and one of its words parses. */
  predicate ScoreLine(t: string, parseFloat: string -> Option<real>) {
    Contains(t, "score") && HasDigit(t) && FirstNumber(Words(t), parseFloat).Some?
  }

  /**
   * `find(|s| s.parse().is_ok())` followed by the parse: present exactly when
   * some word parses, and then the value of the first word that does.
   */
  lemma {:induction false} FirstNumberIsFirstParsed(words: seq<string>, parseFloat: string -> Option<real>)
    ensures FirstNumber(words, parseFloat).Some? <==> exists k :: 0 <= k < |words| && parseFloat(words[k]).Some?
    ensures FirstNumber(words, parseFloat).Some? ==>
      exists k :: 0 <= k < |words| && FirstNumber(words, parseFloat) == parseFloat(words[k])
        && forall j :: 0 <= j < k ==> parseFloat(words[j]).None?
  {
    if words != [] && parseFloat(words[0]).None? {
      var rest := words[1..];
      FirstNumberIsFirstParsed(rest, parseFloat);
      if FirstNumber(rest, parseFloat).Some? {
        var k :| 0 <= k < |rest| && FirstNumber(rest, parseFloat) == parseFloat(rest[k])
          && forall j :: 0 <= j < k ==> parseFloat(rest[j]).None?;
        assert rest[k] == words[k + 1];
        forall j | 0 <= j < k + 1
          ensures parseFloat(words[j]).None?
        {
          if j > 0 {
            assert words[j] == rest[j - 1];
          }
        }
      } else {
        forall k | 0 <= k < |words|
          ensures parseFloat(words[k]).None?
        {
          if k > 0 {
            assert words[k] == rest[k - 1];
          }
        }
      }
    }
  }

  /** A line that sets the score overrides whatever was read before it. */
  lemma ScoreLastLine(xs: seq<string>, l: string, parseFloat: string -> Option<real>)
    requires ScoreLine(Trim(l), parseFloat)
    ensures ScoreOf(xs + [l], parseFloat) == FirstNumber(Words(Trim(l)), parseFloat)
  {
    assert (xs + [l])[..|xs + [l]| - 1] == xs;
  }

  /** Lines that do not set the score leave it as it was. */
  lemma {:induction false} ScoreUnaffected(xs: seq<string>, ys: seq<string>, parseFloat: string -> Option<real>)
    requires forall k :: 0 <= k < |ys| ==> !ScoreLine(Trim(ys[k]), parseFloat)
    ensures ScoreOf(xs + ys, parseFloat) == ScoreOf(xs, parseFloat)
    decreases |ys|
  {
    if ys == [] {
      assert xs + ys == xs;
    } else {
      var init := ys[..|ys| - 1];
      ScoreUnaffected(xs, init, parseFloat);
      assert (xs + ys)[..|xs + ys| - 1] == xs + init;
      assert (xs + ys)[|xs + ys| - 1] == ys[|ys| - 1];
    }
  }

  /** The last line that sets the score decides it, whatever came before. */
  lemma LastScoreLineWins(xs: seq<string>, l: string, ys: seq<string>, parseFloat: string -> Option<real>)
    requires ScoreLine(Trim(l), parseFloat)
    requires forall k :: 0 <= k < |ys| ==> !ScoreLine(Trim(ys[k]), parseFloat)
    ensures ScoreOf(xs + [l] + ys, parseFloat) == FirstNumber(Words(Trim(l)), parseFloat)
  {
    ScoreLastLine(xs, l, parseFloat);
    ScoreUnaffected(xs + [l], ys, parseFloat);
  }

  /** Without a line that sets it, there is no score. */
  lemma NoScoreLineNoScore(ys: seq<string>, parseFloat: string -> Option<real>)
    requires forall k :: 0 <= k < |ys| ==> !ScoreLine(Trim(ys[k]), parseFloat)
    ensures ScoreOf(ys, parseFloat) == None
  {
    ScoreUnaffected([], ys, parseFloat);
    assert [] + ys == ys;
  }

  /** What `parse_ai_response` yields for an answer. */
  function Analysis(content: string, parseFloat: string -> Option<real>): AIAnalysis {
    var items := Bullets(content);
    AIAnalysis(
      if items == [] then [content] else items,
      if MentionsSuggestions(content) then items else [],
      ScoreOf(Lines(content), parseFloat))
  }

  // ----- The project summary sent to the model -----

  function FunctionLine(f: FunctionSnapshot): string {
    "- `" + f.name + "(" + JoinWith(f.args, ", ") + ")` - " + NatToString(|f.variables|) + " variables\n"
  }

  function StructLine(s: StructSnapshot): string {
    "- `" + s.name + "` - " + NatToString(|s.fields|) + " fields, " + NatToString(|s.methods|) + " methods\n"
  }

  function EnumLine(e: EnumSnapshot): string {
    "- `" + e.name + "` - " + NatToString(|e.variants|) + " variants\n"
  }

  function FunctionsBlock(fs: seq<FunctionSnapshot>): string {
    if fs == [] then "" else "**Functions:**\n" + ConcatMap(FunctionLine, fs) + "\n"
  }

  function StructsBlock(ss: seq<StructSnapshot>): string {
    if ss == [] then "" else "**Structs:**\n" + ConcatMap(StructLine, ss) + "\n"
  }

  function EnumsBlock(es: seq<EnumSnapshot>): string {
    if es == [] then "" else "**Enums:**\n" + ConcatMap(EnumLine, es) + "\n"
  }

  /** The part of the summary about one file. */
  function FileSection(s: RustFileSnapshot): string {
    "### File: " + s.path + "\n\n" + FunctionsBlock(s.functions) + StructsBlock(s.structs) + EnumsBlock(s.enums)
  }

  function TotalFunctions(snapshots: seq<RustFileSnapshot>): nat {
    SumOf((s: RustFileSnapshot) => |s.functions|, snapshots)
  }

  function TotalStructs(snapshots: seq<RustFileSnapshot>): nat {
    SumOf((s: RustFileSnapshot) => |s.structs|, snapshots)
  }

  function TotalEnums(snapshots: seq<RustFileSnapshot>): nat {
    SumOf((s: RustFileSnapshot) => |s.enums|, snapshots)
  }

  /** The statistics that open the summary. */
  function Overview(snapshots: seq<RustFileSnapshot>): string {
    "# Rust Project Analysis Request\n\n"
      + "## Project Overview\n"
      + ("- Files: " + NatToString(|snapshots|) + "\n")
      + ("- Functions: " + NatToString(TotalFunctions(snapshots)) + "\n")
      + ("- Structs: " + NatToString(TotalStructs(snapshots)) + "\n")
      + ("- Enums: " + NatToString(TotalEnums(snapshots)) + "\n")
      + "\n## Code Structure\n\n"
  }

  /** The fixed instructions that close the summary. */
  const AnalysisRequest :=
    "\n## Analysis Request\n\n"
    + "Provide a comprehensive code quality analysis including:\n"
    + "1. **Architecture insights**: Overall design patterns and structure\n"
    + "2. **Code quality suggestions**: Naming, complexity, best practices\n"
    + "3. **Potential improvements**: Refactoring opportunities, missing abstractions\n"
    + "4. **Anti-patterns**: Any detected code smells or anti-patterns\n"
    + "5. **Quality score**: Rate the codebase from 0-100\n\n"
    + "Focus on actionable, specific suggestions. Be concise but thorough.\n"

  /** What `build_project_context` returns. */
  function ProjectContext(snapshots: seq<RustFileSnapshot>): string {
    Overview(snapshots) + ConcatMap(FileSection, snapshots) + AnalysisRequest
  }

  datatype AILinter = AILinter(provider: AIProvider, maxTokens: nat, temperature: real)
  {
    /** `AILinter::new`: the given provider, 4000 tokens, temperature 0.3. */
    static function New(provider: AIProvider): (linter: AILinter)
      ensures linter.provider == provider
      ensures linter.maxTokens == 4000 && linter.temperature == 0.3
    {
      AILinter(provider, 4000, 0.3)
    }

    /** `analyze_project` in a build without the `ai` feature. */
    function AnalyzeProject(snapshots: seq<RustFileSnapshot>): (r: Result<AIAnalysis, string>)
      ensures r.Err? && r.error == NotEnabled
    {
      Err(NotEnabled)
    }

    /** `explain_for_layman` in a build without the `ai` feature. */
    function ExplainForLayman(snapshots: seq<RustFileSnapshot>): (r: Result<string, string>)
      ensures r.Err? && r.error == NotEnabled
    {
      Err(NotEnabled)
    }

    /** `parse_ai_response`: one pass over the trimmed lines of the answer. */
    method ParseAiResponse(content: string, parseFloat: string -> Option<real>) returns (analysis: AIAnalysis)
      ensures analysis == Analysis(content, parseFloat)
    {
      var insights: seq<string> := [];
      var suggestions: seq<string> := [];
      var qualityScore: Option<real> := None;
      var lines := Lines(content);
      for i := 0 to |lines|
        invariant insights == ConcatMap(BulletItem, lines[..i])
        invariant MentionsSuggestions(content) ==> suggestions == insights
        invariant !MentionsSuggestions(content) ==> suggestions == []
        invariant qualityScore == ScoreOf(lines[..i], parseFloat)
      {
        ReadLineStep(lines, i, parseFloat);
        var line := Trim(lines[i]);
        qualityScore := ReadScore(qualityScore, line, parseFloat);
        insights, suggestions := ReadBullet(content, line, insights, suggestions);
      }
      assert lines[..|lines|] == lines;
      AnalysisOfParts(content, parseFloat, insights, suggestions, qualityScore);
      if insights == [] {
        insights := insights + [content];
      }
      analysis := AIAnalysis(insights, suggestions, qualityScore);
    }

    /** What one pass over the lines collected makes up the analysis. */
    static lemma AnalysisOfParts(content: string, parseFloat: string -> Option<real>,
                                 insights: seq<string>, suggestions: seq<string>, score: Option<real>)
      requires insights == ConcatMap(BulletItem, Lines(content))
      requires MentionsSuggestions(content) ==> suggestions == insights
      requires !MentionsSuggestions(content) ==> suggestions == []
      requires score == ScoreOf(Lines(content), parseFloat)
      ensures AIAnalysis(if insights == [] then [content] else insights, suggestions, score) == Analysis(content, parseFloat)
    {
    }

    /** The bullet handling of `parse_ai_response` for one trimmed line. */
    method ReadBullet(content: string, line: string, insights: seq<string>, suggestions: seq<string>)
      returns (newInsights: seq<string>, newSuggestions: seq<string>)
      ensures newInsights == insights + BulletOf(line)
      ensures newSuggestions == suggestions + if MentionsSuggestions(content) then BulletOf(line) else []
    {
      newInsights, newSuggestions := insights, suggestions;
      if StartsWith(line, "- ") || StartsWith(line, "* ") {
        var item := line[2..];
        if Contains(content, "suggestion") || Contains(content, "improve") {
          newSuggestions := newSuggestions + [item];
        }
        newInsights := newInsights + [item];
      }
    }

    /** Reading one more line extends the items and updates the score by that line alone. */
    static lemma ReadLineStep(lines: seq<string>, i: nat, parseFloat: string -> Option<real>)
      requires i < |lines|
      ensures ConcatMap(BulletItem, lines[..i + 1]) == ConcatMap(BulletItem, lines[..i]) + BulletItem(lines[i])
      ensures ScoreOf(lines[..i + 1], parseFloat) == ScoreAfter(ScoreOf(lines[..i], parseFloat), Trim(lines[i]), parseFloat)
    {
      assert lines[..i + 1][..i] == lines[..i];
    }

    /** The score update `parse_ai_response` makes for one trimmed line. */
    method ReadScore(qualityScore: Option<real>, line: string, parseFloat: string -> Option<real>) returns (score: Option<real>)
      ensures score == ScoreAfter(qualityScore, line, parseFloat)
      ensures ScoreLine(line, parseFloat) ==> score == FirstNumber(Words(line), parseFloat)
      ensures !ScoreLine(line, parseFloat) ==> score == qualityScore
    {
      score := qualityScore;
      if Contains(line, "score") && HasDigit(line) {
        var found := FirstNumber(Words(line), parseFloat);
        if found.Some? {
          score := found;
        }
      }
    }

    /** `build_project_context` */
    method BuildProjectContext(snapshots: seq<RustFileSnapshot>) returns (context: string)
      ensures context == ProjectContext(snapshots)
    {
      var totalFunctions := TotalFunctions(snapshots);
      var totalStructs := TotalStructs(snapshots);
      var totalEnums := TotalEnums(snapshots);
      context := "# Rust Project Analysis Request\n\n";
      context := context + "## Project Overview\n";
      context := context + ("- Files: " + NatToString(|snapshots|) + "\n");
      context := context + ("- Functions: " + NatToString(totalFunctions) + "\n");
      context := context + ("- Structs: " + NatToString(totalStructs) + "\n");
      context := context + ("- Enums: " + NatToString(totalEnums) + "\n");
      context := context + "\n## Code Structure\n\n";
      assert context == Overview(snapshots);
      ghost var overview := context;
      for i := 0 to |snapshots|
        invariant context == overview + ConcatMap(FileSection, snapshots[..i])
      {
        ConcatMapStep(FileSection, snapshots, i);
        var section := FileSectionText(snapshots[i]);
        AppendAssociative(overview, ConcatMap(FileSection, snapshots[..i]), section);
        context := context + section;
      }
      assert snapshots[..|snapshots|] == snapshots;
      context := context + AnalysisRequest;
    }

    /** The text `build_project_context` appends for one file. */
    method FileSectionText(s: RustFileSnapshot) returns (section: string)
      ensures section == FileSection(s)
    {
      section := "### File: " + s.path + "\n\n";
      var block := "";
      if s.functions != [] {
        var lines := FunctionLines(s.functions);
        block := "**Functions:**\n" + lines + "\n";
      }
      section := section + block;
      block := "";
      if s.structs != [] {
        var lines := StructLines(s.structs);
        block := "**Structs:**\n" + lines + "\n";
      }
      section := section + block;
      block := "";
      if s.enums != [] {
        var lines := EnumLines(s.enums);
        block := "**Enums:**\n" + lines + "\n";
      }
      section := section + block;
    }

    method FunctionLines(fs: seq<FunctionSnapshot>) returns (text: string)
      ensures text == ConcatMap(FunctionLine, fs)
    {
      text := "";
      for j := 0 to |fs|
        invariant text == ConcatMap(FunctionLine, fs[..j])
      {
        assert fs[..j + 1][..j] == fs[..j];
        text := text + FunctionLine(fs[j]);
      }
      assert fs[..|fs|] == fs;
    }

    method StructLines(ss: seq<StructSnapshot>) returns (text: string)
      ensures text == ConcatMap(StructLine, ss)
    {
      text := "";
      for j := 0 to |ss|
        invariant text == ConcatMap(StructLine, ss[..j])
      {
        assert ss[..j + 1][..j] == ss[..j];
        text := text + StructLine(ss[j]);
      }
      assert ss[..|ss|] == ss;
    }

    method EnumLines(es: seq<EnumSnapshot>) returns (text: string)
      ensures text == ConcatMap(EnumLine, es)
    {
      text := "";
      for j := 0 to |es|
        invariant text == ConcatMap(EnumLine, es[..j])
      {
        assert es[..j + 1][..j] == es[..j];
        text := text + EnumLine(es[j]);
      }
      assert es[..|es|] == es;
    }
  }

  // ----- Properties -----

  /** There is always at least one insight, and the suggestions are either none or exactly the insights. */
  lemma AnalysisShape(content: string, parseFloat: string -> Option<real>)
    ensures |Analysis(content, parseFloat).insights| >= 1
    ensures var a := Analysis(content, parseFloat);
            a.suggestions == [] || a.suggestions == a.insights
    ensures var a := Analysis(content, parseFloat);
            a.suggestions != [] <==> MentionsSuggestions(content) && Bullets(content) != []
  {
  }

  /** An answer without bullets becomes a single insight holding the whole answer. */
  lemma NoBulletsWholeAnswer(content: string, parseFloat: string -> Option<real>)
    requires Bullets(content) == []
    ensures Analysis(content, parseFloat).insights == [content]
    ensures Analysis(content, parseFloat).suggestions == []
  {
  }

  /** An item that survives being written as a bullet line: non-empty, one line, not ending in whitespace. */
  predicate PlainItem(item: string) {
    item != [] && '\n' !in item && !IsWhitespace(item[|item| - 1])
  }

  /** Items written one per line as `- item`. */
  function BulletList(items: seq<string>): string {
    JoinWith(BulletLines(items), "\n")
  }

  /** Each item as a `- item` line, without line feeds. */
  function BulletLines(items: seq<string>): seq<string> {
    if items == [] then [] else ["- " + items[0]] + BulletLines(items[1..])
  }

  /** A bullet line reads back as its item. */
  lemma BulletLineItem(item: string)
    requires PlainItem(item)
    ensures BulletItem("- " + item) == [item]
  {
    var p := "- " + item;
    assert TrimStart(p) == p;
    assert p[|p| - 1] == item[|item| - 1];
    assert TrimEnd(p) == p;
    assert p[..2] == "- ";
    assert p[2..] == item;
  }

  /** A line without a line feed, followed by a line feed and more text, is the first of the lines. */
  lemma LinesCons(p: string, rest: string)
    requires '\n' !in p && (p == [] || p[|p| - 1] != '\r')
    ensures Lines(p + "\n" + rest) == [p] + Lines(rest)
  {
    var s := p + "\n" + rest;
    assert IndexOf(s, '\n') == |p| by {
      assert s[|p|] == '\n';
      assert forall j :: 0 <= j < |p| ==> s[j] == p[j];
      IndexOfFirst(s, '\n', |p|);
    }
    assert s[..|p|] == p;
    assert s[|p| + 1..] == rest;
  }

  /** The bullet line of a plain item is one line, not ending in a carriage return. */
  lemma BulletLineShape(item: string)
    requires PlainItem(item)
    ensures '\n' !in "- " + item
    ensures ("- " + item)[|"- " + item| - 1] != '\r'
  {
    var p := "- " + item;
    forall j | 0 <= j < |p|
      ensures p[j] != '\n'
    {
      if j >= 2 {
        assert p[j] == item[j - 2];
      }
    }
  }

  /** Bullets written one per line read back as exactly those items, in order. */
  lemma {:induction false} BulletListRoundTrip(items: seq<string>)
    requires forall k :: 0 <= k < |items| ==> PlainItem(items[k])
    ensures Bullets(BulletList(items)) == items
    decreases |items|
  {
    if items == [] {
      assert Lines("") == [];
    } else if |items| == 1 {
      BulletListSingle(items[0]);
      assert items == [items[0]];
    } else {
      var rest := items[1..];
      BulletListRoundTrip(rest);
      BulletListCons(items[0], rest);
      assert [items[0]] + rest == items;
    }
  }

  /** A single bullet line reads back as its item. */
  lemma BulletListSingle(item: string)
    requires PlainItem(item)
    ensures Bullets(BulletList([item])) == [item]
  {
    var p := "- " + item;
    assert BulletLines([item]) == [p] by {
      assert [item][1..] == [];
    }
    assert BulletList([item]) == p;
    assert Lines(p) == [p] by {
      BulletLineShape(item);
      assert IndexOf(p, '\n') == |p|;
    }
    assert ConcatMap(BulletItem, [p]) == [item] by {
      BulletLineItem(item);
      ConcatMapSingle(BulletItem, p);
    }
  }

  /** Reading a bullet list back, one item more in front. */
  lemma BulletListCons(item: string, rest: seq<string>)
    requires PlainItem(item) && rest != []
    requires Bullets(BulletList(rest)) == rest
    ensures Bullets(BulletList([item] + rest)) == [item] + rest
  {
    var items := [item] + rest;
    var p := "- " + item;
    var tail := BulletList(rest);
    assert BulletList(items) == p + "\n" + tail by {
      assert items[1..] == rest;
      assert BulletLines(items)[1..] == BulletLines(rest);
    }
    assert Lines(p + "\n" + tail) == [p] + Lines(tail) by {
      BulletLineShape(item);
      LinesCons(p, tail);
    }
    assert ConcatMap(BulletItem, [p] + Lines(tail)) == [item] + rest by {
      ConcatMapAppend(BulletItem, [p], Lines(tail));
      ConcatMapSingle(BulletItem, p);
      BulletLineItem(item);
    }
  }

  /** A list of bullets read by the linter gives those bullets as insights. */
  lemma BulletListInsights(items: seq<string>, parseFloat: string -> Option<real>)
    requires items != [] && forall k :: 0 <= k < |items| ==> PlainItem(items[k])
    ensures Analysis(BulletList(items), parseFloat).insights == items
  {
    BulletListRoundTrip(items);
  }

  /** The totals in the summary count every function, struct and enum of every file. */
  lemma TotalsCountEverything(snapshots: seq<RustFileSnapshot>)
    ensures TotalFunctions(snapshots) == |ConcatMap((s: RustFileSnapshot) => s.functions, snapshots)|
    ensures TotalStructs(snapshots) == |ConcatMap((s: RustFileSnapshot) => s.structs, snapshots)|
    ensures TotalEnums(snapshots) == |ConcatMap((s: RustFileSnapshot) => s.enums, snapshots)|
  {
    SumOfLengths((s: RustFileSnapshot) => |s.functions|, (s: RustFileSnapshot) => s.functions, snapshots);
    SumOfLengths((s: RustFileSnapshot) => |s.structs|, (s: RustFileSnapshot) => s.structs, snapshots);
    SumOfLengths((s: RustFileSnapshot) => |s.enums|, (s: RustFileSnapshot) => s.enums, snapshots);
  }

  /** A file's functions, structs or enums block is there exactly when that list is non-empty, and opens with its title. */
  lemma FileBlocksOnlyWhenNonEmpty(s: RustFileSnapshot)
    ensures FunctionsBlock(s.functions) == "" <==> s.functions == []
    ensures StructsBlock(s.structs) == "" <==> s.structs == []
    ensures EnumsBlock(s.enums) == "" <==> s.enums == []
    ensures s.functions != [] ==> StartsWith(FunctionsBlock(s.functions), "**Functions:**\n")
    ensures s.structs != [] ==> StartsWith(StructsBlock(s.structs), "**Structs:**\n")
    ensures s.enums != [] ==> StartsWith(EnumsBlock(s.enums), "**Enums:**\n")
  {
    if s.functions != [] {
      StartsWithAppend("**Functions:**\n", ConcatMap(FunctionLine, s.functions) + "\n");
      AppendAssociative("**Functions:**\n", ConcatMap(FunctionLine, s.functions), "\n");
    }
    if s.structs != [] {
      StartsWithAppend("**Structs:**\n", ConcatMap(StructLine, s.structs) + "\n");
      AppendAssociative("**Structs:**\n", ConcatMap(StructLine, s.structs), "\n");
    }
    if s.enums != [] {
      StartsWithAppend("**Enums:**\n", ConcatMap(EnumLine, s.enums) + "\n");
      AppendAssociative("**Enums:**\n", ConcatMap(EnumLine, s.enums), "\n");
    }
  }
}

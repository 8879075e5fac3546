# furnace, modelled in Dafny

furnace scans a Cargo project and turns it into a graph. The graph holds crates. Each crate holds a tree of modules. Each module holds a file, and each file holds a structural snapshot: its functions, structs, traits, enums and impl blocks. The tool then lints these snapshots, renders them as text in several styles, and can build an AI prompt from them.

This project models that pipeline and proves properties of it:

| file | models |
|---|---|
| `types.dfy`, `graph.dfy` | the snapshot records (`src/types.rs`) and the project graph (`src/graph.rs`) |
| `syntax.dfy` | the part of a parsed Rust file the tool looks at, as an abstract syntax tree |
| `visitor.dfy` | the snapshot visitor (`src/visitor.rs`), as a class whose visit methods append to five lists |
| `engine.dfy` | the traversal engine (`src/engine.rs`): manifests and workspaces, crate entry files, `mod m;` resolution, and the per-file impl merge |
| `cli.dfy` | the driver (`src/main.rs`): flattening the graph with the ignore patterns, choosing the output style, and reading the AI provider names |
| `linting.dfy` | the lint rules and the naming predicates (`src/linting.rs`) |
| `config.dfy` | the configuration defaults and `load_config` (`src/config.rs`) |
| `output.dfy` | the presets, the four text layouts, the item formats and `truncate` (`src/output.rs`) |
| `ai_linting.dfy` | `AILinter::new`, the AI answer parser, and the project summary sent to the model (`src/ai_linting.rs`) |
| `text.dfy`, `wrappers.dfy` | the `str` operations used (over `seq<char>`), plus `Option` and `Result` |

The engine sees the file system, the manifest reader, the Rust parser and the SHA-256 digest only through one value of type `Engine.Env`. Loops that build a list or a string step by step are methods. Each such method is proved equal to a function of its inputs. The properties are then proved about those functions.

## Model

| member | source | states |
|---|---|---|
| Syntax.SynPath.GetIdent | src/visitor.rs:78-79 | An impl target has a name exactly when its path is one segment, without generic arguments and without a leading `::`. |
| Syntax.SynPath.LastIdent | src/visitor.rs:84 | The trait name is the identifier of the path's last segment, and it exists exactly when the path has segments. |
| Visitor.SnapshotVisitor.constructor | src/visitor.rs:5-12 | A new visitor has all five lists empty. |
| Visitor.SnapshotVisitor.VisitItemFn | src/visitor.rs:15-42 | Appends one function snapshot. It holds the bare-identifier arguments and the `let` bindings, in order. The other four lists are unchanged. |
| Visitor.SnapshotVisitor.VisitItemStruct | src/visitor.rs:44-55 | Appends one struct with its named fields and no methods. Nothing else changes. |
| Visitor.SnapshotVisitor.VisitItemTrait | src/visitor.rs:57-66 | Appends one trait with its function items. Nothing else changes. |
| Visitor.SnapshotVisitor.VisitItemEnum | src/visitor.rs:68-75 | Appends one enum with its variants, in order, and no methods. Nothing else changes. |
| Visitor.SnapshotVisitor.VisitItemImpl | src/visitor.rs:77-96 | Appends an impl snapshot only when the self type is a bare identifier. Nothing else changes. |
| Visitor.SnapshotVisitor.VisitItems | src/engine.rs:165-166 | Visiting a file appends exactly what `Walk` says: each item in order, with inline module bodies visited in place. |
| Visitor.ArgNamesMembership | src/visitor.rs:19-25 | A name is an argument exactly when some input is a typed bare-identifier pattern with that name. There are never more arguments than inputs. |
| Visitor.LocalBindingType | src/visitor.rs:29-38 | A binding carries a type text exactly when its `let` had a type annotation, and the name is the identifier under it. |
| Visitor.VariablesMembership | src/visitor.rs:28-40 | The variables are exactly the bindings of the top-level `let` statements. |
| Visitor.NamedFieldNamesAllNamed | src/visitor.rs:47-53 | Named fields are all listed, in declaration order. |
| Visitor.InlineModuleFlattens | src/visitor.rs:14-97 | With no `visit_item_mod` override, an inline `mod x { … }` contributes its items as if they stood in its place. |
| Visitor.BodylessModuleInvisible | src/visitor.rs:14-97 | A body-less `mod m;` adds nothing to the file's own snapshot. |
| Visitor.FunctionExtractionExample | src/visitor.rs:104-119 | The unit test's `fn my_func() { let x = 10; }` gives one function with no arguments and one untyped variable `x`. |
| Visitor.StructExtractionExample | src/visitor.rs:121-138 | The unit test's struct gives one struct with fields `field1`, `field2`. |
| Engine.Position | src/engine.rs:170-172 | Returns the first index whose struct or enum name is the given one, or none when no element has it, as `iter().position`. |
| Engine.Candidate | src/engine.rs:134-141 | `dir/m.rs` wins and keeps `dir`. Otherwise `dir/m/mod.rs` is used with `dir/m`. With neither file there is no child. |
| Engine.CrateOf | src/engine.rs:86-118 | No crate without a readable manifest, a package, and `src/lib.rs` or `src/main.rs`. Otherwise the crate is named after the package, its version defaults to `0.0.0`, and its root module `crate` is `lib.rs` (preferred over `main.rs`) searched in `src`. |
| Engine.TraversalEngine.Scan | src/engine.rs:20-35 | Always records the root. Without a root `Cargo.toml` the crate list is empty. Otherwise the result is the project's crates. |
| Engine.TraversalEngine.ScanCargoProject | src/engine.rs:37-84 | The loops over members and glob entries find exactly `ProjectCrates`. |
| Engine.TraversalEngine.ScanMember | src/engine.rs:44-71 | One member pushes exactly `MemberCrates`. An existing path is scanned as a crate. Otherwise a glob lists its prefix directory, and any other member adds nothing. |
| Engine.TraversalEngine.ScanEntries | src/engine.rs:62-68 | The glob's entry loop pushes exactly `GlobCrates`: the crate of each directory entry with a `Cargo.toml`, in listing order. |
| Engine.TraversalEngine.ScanEntry | src/engine.rs:63-67 | One entry contributes its crate exactly when it is a directory holding a `Cargo.toml` whose crate scans, and nothing otherwise. |
| Engine.TraversalEngine.ScanCrate | src/engine.rs:86-118 | Returns exactly `CrateOf`. |
| Engine.TraversalEngine.ScanModule | src/engine.rs:120-154 | Builds exactly the module tree `ResolveModule` describes. |
| Engine.TraversalEngine.CreateFileNode | src/engine.rs:156-194 | Gives the file's digest, and its snapshot with impl methods merged when the text parses. |
| Engine.MergeImplMethods | src/engine.rs:169-175 | The merge loop updates the struct and enum lists in place as `MergeImpls` says. Functions, traits and impls are unchanged. |
| Engine.MergeOneStructs | src/engine.rs:169-171 | One impl adds its methods to the first struct of its target's name only. Every struct keeps its name and fields. |
| Engine.MergeOneEnums | src/engine.rs:172-174 | Without a same-named struct, one impl adds its methods to the first same-named enum only. Every enum keeps its name and variants. |
| Engine.MergedStructs | src/engine.rs:169-175 | After the merge, the first struct of each name carries its own methods, then those of every impl for that name, in file order. The other structs are unchanged. |
| Engine.MergedStructNames | src/engine.rs:169-175 | The merge never adds, removes or renames a struct. |
| Engine.MergedStructAt | src/engine.rs:169-175 | The struct at a given position after the merge, stated for every position. |
| Engine.MergedEnumAt | src/engine.rs:169-175 | The enum at a given position after the merge, stated for every position. |
| Engine.MergedEnums | src/engine.rs:169-175 | The first enum of a name that no struct has gets the methods of every impl for it, in order. The other enums are unchanged. |
| Engine.ChildrenFollowDeclarations | src/engine.rs:128-144 | The children of a file are exactly its resolvable body-less `mod m;` declarations: the children's names are those declarations in declaration order, one child each. Each child is the tree of the file the two-candidate rule picks. |
| Engine.ResolvedTreeShape | src/engine.rs:120-154 | Every resolved node has its search directory and file node, and each snapshot records its own file's path. No file occurs twice on a branch. |
| Engine.CrateProvenance | src/engine.rs:37-84 | Every crate found has a package manifest and is that manifest's crate. It is either the root package or comes from a workspace member. |
| Engine.WorkspaceProvenance | src/engine.rs:43-72 | Each workspace crate is a member's own directory or an entry listed under a member glob's prefix. |
| Engine.GlobProvenance | src/engine.rs:62-68 | A glob yields only crates of listed entries. |
| Engine.WorkspaceOnlyMembers | src/engine.rs:43-78 | With a workspace section, every crate comes from one of its members: the root package is not scanned on its own account. |
| Engine.PackageOnlyProject | src/engine.rs:73-78 | Without a workspace, the project has at most one crate, rooted at the manifest's directory. It has one exactly when the package exists and scans. |
| Engine.UnreadableManifestNoCrates | src/engine.rs:38 | A root manifest that does not read or parse gives zero crates. |
| Engine.ExistingMemberNoGlob | src/engine.rs:51-55 | An existing member path is scanned directly. No glob is tried, even when its scan finds no crate. |
| Engine.GlobSuffixIgnored | src/engine.rs:57-61 | Only the text before a glob member's first `*` matters. |
| Engine.MissingMemberSkipped | src/engine.rs:51-71 | A member that does not exist and has no `*` is skipped silently. |
| Cli.CollectSnapshots | src/main.rs:136-148 | Appends the tree's snapshots to the vector: the module's own snapshot when its file is not ignored, then each submodule's, in order. |
| Cli.CollectAll | src/main.rs:160-163 | The crates are flattened in turn, in the graph's order. |
| Cli.FlattenIsPreorder | src/main.rs:136-148 | The flattening is pre-order: each module's own snapshot, taken over the modules with parents before children and siblings in order. |
| Cli.NoPatternsEveryParsedFile | src/main.rs:137-147 | With no ignore patterns, every parsed file of the tree appears exactly once, in pre-order. |
| Cli.EmptyPatternIgnoresAll | src/main.rs:139 | The pattern `""` occurs in every path, so it drops every snapshot. |
| Cli.SubmodulesStillVisited | src/main.rs:139-147 | A submodule's snapshots reach the result whether or not its parent's file is ignored. |
| Cli.MorePatternsFewerSnapshots | src/main.rs:139 | Adding ignore patterns can only remove snapshots. |
| Cli.CratesInOrder | src/main.rs:160-163 | The snapshots of `xs + ys` crates are those of `xs` followed by those of `ys`. |
| Cli.ResolveOutputStyle | src/main.rs:306-368 | Each of layout, detail, colour and symbols is its option when given, else the preset's field. With no option the result is the preset. |
| Cli.PresetChain | src/main.rs:308-331 | The first set flag in the order tree, compact, verbose, minimal, grid, markdown, html, badges, monochrome picks the preset. With none of these set, the default is used. |
| Cli.PlainIsDefault | src/main.rs:326-331 | With no preset flag, or only `--plain`, the preset is the default style. |
| Cli.TreeFlagWins | src/main.rs:308-309 | `--tree` beats every other preset flag. |
| Cli.AiProviderOf | src/main.rs:176-187 | Exactly `openai` (model defaults to `gpt-4`) and `google` (model defaults to `gemini-pro`) are accepted. Any other name is an error with the program's message. |
| Cli.LaymanProviderOf | src/main.rs:236-247 | The name is lower-cased. `openai` selects OpenAI. `google` and `gemini` select Google. Anything else is an error with its message. |
| Cli.LaymanAcceptsProviderNames | src/main.rs:176-187 | Every name `--ai-provider` accepts, `--layman` accepts too, with the same provider and model. |
| Cli.LaymanIgnoresCase | src/main.rs:236-247 | `Gemini` selects Google for `--layman` but is rejected by `--ai-provider`. |
| Linting.TrimUnderscores | src/linting.rs:103 | Only leading underscores are removed, and the rest does not start with one. |
| Linting.LintSnapshots | src/linting.rs:4-99 | The loop nest returns exactly `Lint`: nothing when linting is off, else each snapshot's warnings in snapshot order. |
| Linting.LintSnapshot | src/linting.rs:12-96 | One snapshot's warnings, rule after rule: arguments, fields, function names, variable names, type names, discouraged names. |
| Linting.CheckArgs | src/linting.rs:14-23 | The argument-count loop returns `ArgsWarnings`. |
| Linting.CheckFields | src/linting.rs:26-35 | The field-count loop returns `FieldsWarnings`. |
| Linting.CheckFunctionNames | src/linting.rs:38-47 | The function-name loop returns `FunctionNameWarnings`. |
| Linting.CheckVariableNames | src/linting.rs:50-61 | The variable-name loops return `VariableNameWarnings`. |
| Linting.CheckVariablesOf | src/linting.rs:52-59 | The inner loop over one function's variables. |
| Linting.CheckTypeNames | src/linting.rs:64-81 | Struct warnings, then enum warnings. |
| Linting.CheckDiscouraged | src/linting.rs:84-95 | One warning per variable whose name is on the discouraged list. |
| Linting.CheckDiscouragedOf | src/linting.rs:86-93 | The inner loop over one function's variables. |
| Linting.SnakeCaseIsCharacterwise | src/linting.rs:101-106 | A name is snake case exactly when every character is a lower-case letter, a digit or `_`. |
| Linting.SnakeCaseExamples | src/linting.rs:101-106 | `""` and `"__"` count as snake case. |
| Linting.CamelCaseIsNotSnake | src/linting.rs:101-106 | `"camelCase"` does not count as snake case. |
| Linting.PascalIsNotSnake | src/linting.rs:101-119 | A PascalCase name is never snake case. The empty name is snake case but not PascalCase. |
| Linting.DisabledLintsNothing | src/linting.rs:7-10 | `enabled == Some(false)` yields no warnings. |
| Linting.NoRulesNoWarnings | src/linting.rs:12-96 | With both bounds unset, the three naming switches unset or off, and no discouraged list, there are no warnings, whatever `enabled` is. |
| Linting.DefaultConfigLintsNothing | src/linting.rs:12-96 | The default configuration produces no warnings. |
| Linting.LintAppend | src/linting.rs:12-96 | Warnings come snapshot by snapshot: linting `a + b` is linting `a`, then `b`. |
| Linting.ArgsWarningsExact | src/linting.rs:14-23 | One warning for each function with strictly more arguments than the bound, in order, and for no other function. |
| Linting.TooManyArgs | src/linting.rs:16 | The functions kept are exactly those with more arguments than the bound. |
| Linting.TooManyFields | src/linting.rs:28 | The structs kept are exactly those with more fields than the bound. |
| Linting.FieldsWarningsExact | src/linting.rs:26-35 | The field warnings are exactly the messages, in the source's wording, of the structs with strictly more fields than the bound, once each and in declaration order. |
| Linting.TraitsNeverLinted | src/linting.rs:63-81 | The traits of a snapshot never affect its warnings. |
| Linting.ArgsBoundMonotone | src/linting.rs:14-23 | Raising the argument bound never adds warnings. |
| Linting.SnakeCaseFunctionsPass | src/linting.rs:38-47 | Snake-case function names draw no naming warning. |
| Config.LoadConfig | src/config.rs:133-144 | Returns the defaults when the file is absent, is not TOML, or does not fit the schema. Otherwise it returns the document's configuration. |
| Config.DefaultConfigHasNoLints | src/config.rs:13-20 | Linting is on by default. Every individual lint is off, nothing is ignored, and the AI token budget is 4000. |
| Config.EmptyDocumentIsDefault | src/config.rs:5-43 | An empty document reads as the defaults. |
| Config.LintsTableWithoutEnabled | src/config.rs:25-26 | A present `[lints]` table without `enabled` leaves it `None`, not `Some(true)`. |
| Config.UnknownTopLevelKeyIgnored | src/config.rs:5-11 | Top-level keys other than `lints` and `ignore` do not change the result. |
| Config.NegativeMaxArgsFallsBack | src/config.rs:137-140 | A negative `max_args` fails the whole document, so the defaults are used. |
| Config.ExampleDocumentReads | src/config.rs:160-177 | The example document gives 2 ignore entries, `max_args = 10`, `max_fields = 15`, discouraged `["temp"]`, snake-case functions on, and `enabled` unset. |
| Output.Truncate | src/output.rs:364-370 | A string within `max` is unchanged. A longer one keeps its first `max - 3` characters plus `...`, so it is exactly `max` long. |
| Output.OutputRenderer.Render | src/output.rs:144-151 | The text is chosen by the layout alone. Every layout draws with the intended glyphs (see Findings). |
| Output.OutputRenderer.RenderPlain | src/output.rs:153-185 | The append loop builds exactly `PlainText`, drawn with the intended glyphs. |
| Output.OutputRenderer.PlainFileBlock | src/output.rs:156-181 | One file: its path, a header and list for each non-empty kind, then a blank line. |
| Output.OutputRenderer.PlainFunctionLines | src/output.rs:162-164 | One formatted line per function, in order. |
| Output.OutputRenderer.PlainStructLines | src/output.rs:169-171 | One formatted line per struct, in order. |
| Output.OutputRenderer.PlainEnumLines | src/output.rs:176-178 | One formatted line per enum, in order. |
| Output.OutputRenderer.RenderTree | src/output.rs:187-221 | The append loop builds exactly `TreeText`, drawn with the intended glyphs. |
| Output.OutputRenderer.TreeFileBlock | src/output.rs:196-217 | One file: the branch line, then a titled list for each non-empty kind. |
| Output.OutputRenderer.TreeFunctionLines | src/output.rs:200-202 | One inline line per function, in order. |
| Output.OutputRenderer.TreeStructLines | src/output.rs:207-209 | One inline line per struct, in order. |
| Output.OutputRenderer.TreeEnumLines | src/output.rs:214-216 | One inline line per enum, in order. |
| Output.OutputRenderer.RenderGrid | src/output.rs:223-243 | The append loop builds exactly `GridText`: the three heading lines, one row per file, then the closing rule. |
| Output.OutputRenderer.RenderCompact | src/output.rs:245-260 | The append loop builds exactly `CompactText`: one line per file. |
| Output.GridRowAligned | src/output.rs:230-238 | When each count has at most eight digits, every row is exactly as wide as the border and the heading, whatever the file name. |
| Output.GridLineCount | src/output.rs:223-243 | The grid has 3 heading lines, one row per file and one closing line, provided no path holds a line feed. |
| Output.GridRowsCount | src/output.rs:226-239 | The text before the closing line holds 3 + n lines. |
| Output.GridRowOneNewline | src/output.rs:231-238 | A row holds exactly one line feed. |
| Output.BorderOneNewline | src/output.rs:226 | The border is one line. |
| Output.HeadingOneNewline | src/output.rs:227 | The heading is one line. |
| Output.CompactLineOneNewline | src/output.rs:249-256 | A compact line holds exactly one line feed, at its end. |
| Output.CompactLineCount | src/output.rs:245-260 | The compact layout has exactly one line per file, provided no path holds a line feed. |
| Output.CompactExample | src/output.rs:248-256 | A file `dir/name` with 2 functions, 1 struct and 1 enum shows as `name: f=2 s=1 e=1` (tests/output_test.rs:67-77). |
| Output.CountLayoutsIgnoreStyle | src/output.rs:223-260 | The grid and compact layouts ignore detail, colour and symbols. |
| Output.MinimalShowsNamesOnly | src/output.rs:286-362 | At minimal detail every item format depends on the name only (tests/output_test.rs:92-103). |
| Output.EmptySnapshotPlain | src/output.rs:153-185 | A file declaring nothing still shows its path, with no section header (tests/output_test.rs:132-148). |
| Output.RenderAppend | src/output.rs:153-221 | In the plain, tree and compact layouts, files render independently and in order. |
| Output.TreeShowsPageIcon | src/output.rs:194-196 | The block of every file in the tree layout shows the page glyph, so a non-empty tree always does. |
| Output.TreeBlockShowsPageIcon | src/output.rs:194-196 | A file's tree block opens with its head line, which holds the page glyph. |
| Output.FileBlockInPlace | src/output.rs:153-221 | In the plain and tree layouts, every file's block appears in the text at that file's place in the list. |
| Output.PlainBlockShape | src/output.rs:156-183 | A file's plain block opens with its path line. Each section is present exactly when its list is non-empty, and then opens with its header. |
| Output.IntendedTreeShowsPageEmoji | src/output.rs:196 | With the intended glyphs, the tree layout shows the page emoji the test looks for (tests/output_test.rs:55-65). |
| Output.AsWrittenTreeLacksPageEmoji | src/output.rs:196 | With the characters the file holds, the tree layout of an ASCII path shows no page emoji. |
| AiLinting.AILinter.New | src/ai_linting.rs:26-32 | Keeps the provider and sets 4000 tokens and temperature 0.3. |
| AiLinting.AILinter.AnalyzeProject | src/ai_linting.rs:57-60 | Without the `ai` feature, always `Err` with the fixed message. |
| AiLinting.AILinter.ExplainForLayman | src/ai_linting.rs:62-65 | Without the `ai` feature, always `Err` with the fixed message. |
| AiLinting.AILinter.ParseAiResponse | src/ai_linting.rs:233-271 | The line loop computes exactly `Analysis`. |
| AiLinting.AILinter.ReadScore | src/ai_linting.rs:243-249 | A trimmed line that mentions `score`, has a digit and has a word the float parser accepts sets the score to that word's value; any other line leaves the score unchanged. |
| AiLinting.FirstNumberIsFirstParsed | src/ai_linting.rs:244-246 | The number taken from a line is present exactly when some word parses, and is then the value of the first word that parses. |
| AiLinting.ScoreLastLine | src/ai_linting.rs:243-249 | A line that sets the score overrides every earlier line. |
| AiLinting.ScoreUnaffected | src/ai_linting.rs:243-249 | Lines that do not set the score leave it unchanged. |
| AiLinting.LastScoreLineWins | src/ai_linting.rs:236-249 | The score is the number on the last line that sets it, whatever came before. |
| AiLinting.NoScoreLineNoScore | src/ai_linting.rs:236-249 | With no line that sets it, the score stays `None`. |
| AiLinting.AILinter.ReadBullet | src/ai_linting.rs:252-258 | A trimmed line starting with `- ` or `* ` adds its rest as an insight, and also as a suggestion when the whole answer mentions `suggestion` or `improve`. Any other line adds nothing. |
| AiLinting.AILinter.BuildProjectContext | src/ai_linting.rs:68-138 | The append loops build exactly `ProjectContext`. |
| AiLinting.AILinter.FileSectionText | src/ai_linting.rs:86-124 | One file's section: its title, then a block for each non-empty kind. |
| AiLinting.AILinter.FunctionLines | src/ai_linting.rs:90-97 | One line per function. |
| AiLinting.AILinter.StructLines | src/ai_linting.rs:103-110 | One line per struct. |
| AiLinting.AILinter.EnumLines | src/ai_linting.rs:116-122 | One line per enum. |
| AiLinting.AnalysisShape | src/ai_linting.rs:233-271 | There is always an insight. Suggestions are none or equal to the insights, and non-empty exactly when the whole answer mentions `suggestion`/`improve` and has bullets. |
| AiLinting.NoBulletsWholeAnswer | src/ai_linting.rs:261-264 | With no bullets, the insights are the whole answer and there are no suggestions. |
| AiLinting.BulletListRoundTrip | src/ai_linting.rs:239-258 | Items written one per line as `- item` read back as exactly those items, in order. |
| AiLinting.BulletListInsights | src/ai_linting.rs:252-258 | The insights of such an answer are its items. |
| AiLinting.TotalsCountEverything | src/ai_linting.rs:72-81 | The totals equal the number of functions, structs and enums over all files. |
| AiLinting.FileBlocksOnlyWhenNonEmpty | src/ai_linting.rs:88-124 | A file's Functions, Structs or Enums block appears exactly when that list is non-empty, and opens with its title. |

## Left out

- I/O is not modelled: reading files and directories, the TOML and Cargo manifest parsers, the Rust parser and SHA-256. They are the fields of `Engine.Env`, or the `found`/`content`/`parse` parameters of `Config.LoadConfig`. Only the digest's use is modelled, not its 64-hex-character form.
- The order of `read_dir` is unspecified, so `Engine.Env.listing` gives each directory's entries in an order the environment chooses.
- Paths are strings, and joining is `base + "/" + name`. The model has no path normalisation and no `to_string_lossy` conversion.
- Engine.ScanModule: the source recurses without a guard, so `src/a.rs` declaring `mod a;` recurses forever. The model carries the set of files on the current branch and drops a child whose file is already on it. On every input where the source terminates, the results agree.
- The sibling-file rule keeps the parent's search directory for `m.rs`, as the code does. This differs from the Rust reference's module-path rule, and the model follows the code.
- A type annotation's text (`to_token_stream`) is an opaque string inside the syntax tree. Every other syntax the visitor ignores is folded into one "other" alternative.
- Items nested in the initializer of a `const` or `static` item are not collected (for example `const _: () = { struct S; };`). The visitor does not override those visits, so the syntax library's default traversal would reach them. The model folds `const` and `static` items into the "other" alternative, which contributes nothing.
- Character classes (`is_lowercase`, `is_uppercase`, `is_numeric`, `is_whitespace`, `to_lowercase`) are restricted to ASCII.
- Output.Truncate: lengths count characters, while the source counts UTF-8 bytes and slices on a byte index, which panics inside a multi-byte character. The model also requires `max >= 3`; the source only ever calls it with 20.
- Column padding (`{:<20}`, `{:<8}`) counts characters, as Rust's formatter does.
- ANSI colouring (`ColorMode::Standard`, from the `colored` crate) is not modelled: that mode renders the plain text without escape codes.
- Floating point is not modelled: `quality_score` parsing is a `parseFloat` parameter. `temperature` is a `real`, with no 32-bit rounding.
- Everything asynchronous or networked is left out: the OpenAI and Google calls, environment variables and the tokio runtime. Of `analyze_project` and `explain_for_layman`, only the build without the `ai` feature is modelled.
- `build_layman_context` is not modelled. It is a prompt string for the network call.
- `collect_snapshots` takes `&mut Vec` in the source. Cli.CollectSnapshots takes the vector's contents in and returns them extended.
- clap argument parsing is not modelled, nor `println!`/`eprintln!` output, `process::exit`, writing `furnace_output.toon`, or JSON output. The provider errors are `Err` values carrying the message the program prints before exiting. The `LayoutArg`, `DetailArg`, `ColorArg` and `SymbolArg` enums map one to one onto the output enums and are represented by those.
- The `OutputStyle` presets are constants in `output.dfy`, with the values of src/output.rs:41-132, and are used by Cli.ResolveOutputStyle.

## Findings

| source | as written | input that shows it | evidently intended | confidence | as-written member | corrected member |
|---|---|---|---|---|---|---|
| src/output.rs:187-278 | The tree symbols, the file and section icons and the badge icons are mojibake: the UTF-8 bytes of `├──`, `│`, `└──`, 📄, 🔧, 🏗️, 🧩, 📁 and 📦 read as Windows-1252, e.g. `ðŸ“„` instead of 📄 | Tree layout of one file `src/a.rs` with no items: the text holds no 📄, which tests/output_test.rs:62 asserts | The box-drawing characters and emoji themselves | medium, not executed | Output.AsWrittenTreeLacksPageEmoji | Output.IntendedTreeShowsPageEmoji |

The glyphs are a parameter of every layout (`Output.Glyphs`). `Output.AsWritten` holds the characters the file contains, and `Output.Intended` the evident design. `Output.OutputRenderer.Render` uses `Intended`.

/**
 * Project configuration (src/config.rs): the typed form of
 * `.furnacerc.toml`, its defaults, and how a TOML document is read into it.
 *
 * Reading follows serde's derived deserializer: a table missing from the
 * document takes the `Default` of its type, a missing optional key is
 * `None`, unknown keys are ignored, and a value of the wrong type fails the
 * whole document, in which case `load_config` falls back to the defaults.
 */
module Config {
  import opened Wrappers

  datatype ComplexityLints = ComplexityLints(
    maxArgs: Option<nat>,
    maxFields: Option<nat>,
    maxFunctionLines: Option<nat>,
    maxStructSize: Option<nat>)

  datatype NamingLints = NamingLints(
    enforceSnakeCaseFunctions: Option<bool>,
    enforceSnakeCaseVariables: Option<bool>,
    enforcePascalCaseTypes: Option<bool>,
    enforceScreamingSnakeCaseConstants: Option<bool>,
    discouragedNames: Option<seq<string>>)

  datatype StyleLints = StyleLints(requireDocComments: Option<bool>, warnTodoComments: Option<bool>)

  /** The AI section; `temperature` is kept as the real the document wrote, not rounded to 32 bits. */
  datatype AILintConfig = AILintConfig(
    enabled: Option<bool>,
    provider: Option<string>,
    model: Option<string>,
    maxTokens: Option<nat>,
    temperature: Option<real>)

  datatype LintConfig = LintConfig(
    enabled: Option<bool>,
    complexity: ComplexityLints,
    naming: NamingLints,
    style: StyleLints,
    ai: AILintConfig)

  datatype FurnaceConfig = FurnaceConfig(lints: LintConfig, ignore: seq<string>)

  // ----- Defaults -----

  const DefaultComplexity := ComplexityLints(None, None, None, None)
  const DefaultNaming := NamingLints(None, None, None, None, None)
  const DefaultStyle := StyleLints(None, None)
  const DefaultAI := AILintConfig(None, Some("openai"), Some("gpt-4"), Some(4000), Some(0.3))
  const DefaultLints := LintConfig(Some(true), DefaultComplexity, DefaultNaming, DefaultStyle, DefaultAI)
  const DefaultConfig := FurnaceConfig(DefaultLints, [])

  // ----- TOML documents -----

  /** A parsed TOML value; dates and times are `TOther`. */
  datatype Toml =
    | TBool(b: bool)
    | TInt(i: int)
    | TFloat(x: real)
    | TStr(s: string)
    | TArray(elems: seq<Toml>)
    | TTable(entries: map<string, Toml>)
    | TOther

  type Table = map<string, Toml>

  /** Why a document does not fit the configuration: the key whose value has the wrong type. */
  type Error = string

  function OptBool(t: Table, key: string): (r: Result<Option<bool>, Error>)
    ensures key !in t ==> r == Ok(None)
    ensures r.Ok? && r.value.Some? ==> t[key] == TBool(r.value.value)
  {
    if key !in t then Ok(None)
    else match t[key]
      case TBool(b) => Ok(Some(b))
      case _ => Err(key)
  }

  /** An unsigned size: a TOML integer that is not negative. */
  function OptNat(t: Table, key: string): (r: Result<Option<nat>, Error>)
    ensures key !in t ==> r == Ok(None)
    ensures key in t && t[key].TInt? && t[key].i < 0 ==> r.Err?
    ensures r.Ok? && r.value.Some? ==> t[key] == TInt(r.value.value)
  {
    if key !in t then Ok(None)
    else match t[key]
      case TInt(i) => if i >= 0 then Ok(Some(i)) else Err(key)
      case _ => Err(key)
  }

  function OptString(t: Table, key: string): (r: Result<Option<string>, Error>)
    ensures key !in t ==> r == Ok(None)
    ensures r.Ok? && r.value.Some? ==> t[key] == TStr(r.value.value)
  {
    if key !in t then Ok(None)
    else match t[key]
      case TStr(s) => Ok(Some(s))
      case _ => Err(key)
  }

  /** A float key; an integer is accepted as its value. */
  function OptReal(t: Table, key: string): (r: Result<Option<real>, Error>)
    ensures key !in t ==> r == Ok(None)
  {
    if key !in t then Ok(None)
    else match t[key]
      case TFloat(x) => Ok(Some(x))
      case TInt(i) => Ok(Some(i as real))
      case _ => Err(key)
  }

  /** The strings of an array all of whose elements are strings. */
  function Strings(elems: seq<Toml>): (r: Option<seq<string>>)
    ensures r.Some? ==> |r.value| == |elems| && forall k :: 0 <= k < |elems| ==> elems[k] == TStr(r.value[k])
    ensures r.None? ==> exists k :: 0 <= k < |elems| && !elems[k].TStr?
  {
    if elems == [] then Some([])
    else match Strings(elems[..|elems| - 1])
      case None => None
      case Some(init) =>
        var last := elems[|elems| - 1];
        if last.TStr? then Some(init + [last.s]) else None
  }

  function OptStrings(t: Table, key: string): (r: Result<Option<seq<string>>, Error>)
    ensures key !in t ==> r == Ok(None)
  {
    if key !in t then Ok(None)
    else match t[key]
      case TArray(elems) =>
        (match Strings(elems)
         case Some(names) => Ok(Some(names))
         case None => Err(key))
      case _ => Err(key)
  }

  function ReadComplexity(v: Toml): Result<ComplexityLints, Error> {
    if !v.TTable? then Err("complexity")
    else
      var t := v.entries;
      var a := OptNat(t, "max_args");
      var f := OptNat(t, "max_fields");
      var l := OptNat(t, "max_function_lines");
      var s := OptNat(t, "max_struct_size");
      if a.Err? then Err(a.error)
      else if f.Err? then Err(f.error)
      else if l.Err? then Err(l.error)
      else if s.Err? then Err(s.error)
      else Ok(ComplexityLints(a.value, f.value, l.value, s.value))
  }

  function ReadNaming(v: Toml): Result<NamingLints, Error> {
    if !v.TTable? then Err("naming")
    else
      var t := v.entries;
      var fns := OptBool(t, "enforce_snake_case_functions");
      var vars := OptBool(t, "enforce_snake_case_variables");
      var types := OptBool(t, "enforce_pascal_case_types");
      var consts := OptBool(t, "enforce_screaming_snake_case_constants");
      var names := OptStrings(t, "discouraged_names");
      if fns.Err? then Err(fns.error)
      else if vars.Err? then Err(vars.error)
      else if types.Err? then Err(types.error)
      else if consts.Err? then Err(consts.error)
      else if names.Err? then Err(names.error)
      else Ok(NamingLints(fns.value, vars.value, types.value, consts.value, names.value))
  }

  function ReadStyle(v: Toml): Result<StyleLints, Error> {
    if !v.TTable? then Err("style")
    else
      var docs := OptBool(v.entries, "require_doc_comments");
      var todo := OptBool(v.entries, "warn_todo_comments");
      if docs.Err? then Err(docs.error)
      else if todo.Err? then Err(todo.error)
      else Ok(StyleLints(docs.value, todo.value))
  }

  /** The AI section: present keys only, with no default filled in for a key the section leaves out. */
  function ReadAI(v: Toml): Result<AILintConfig, Error> {
    if !v.TTable? then Err("ai")
    else
      var t := v.entries;
      var enabled := OptBool(t, "enabled");
      var provider := OptString(t, "provider");
      var model := OptString(t, "model");
      var maxTokens := OptNat(t, "max_tokens");
      var temperature := OptReal(t, "temperature");
      if enabled.Err? then Err(enabled.error)
      else if provider.Err? then Err(provider.error)
      else if model.Err? then Err(model.error)
      else if maxTokens.Err? then Err(maxTokens.error)
      else if temperature.Err? then Err(temperature.error)
      else Ok(AILintConfig(enabled.value, provider.value, model.value, maxTokens.value, temperature.value))
  }

  /** The `lints` table.  `enabled` is a plain optional key: a present table without it reads as `None`. */
  function ReadLints(v: Toml): Result<LintConfig, Error> {
    if !v.TTable? then Err("lints")
    else
      var t := v.entries;
      var enabled := OptBool(t, "enabled");
      var complexity := if "complexity" in t then ReadComplexity(t["complexity"]) else Ok(DefaultComplexity);
      var naming := if "naming" in t then ReadNaming(t["naming"]) else Ok(DefaultNaming);
      var style := if "style" in t then ReadStyle(t["style"]) else Ok(DefaultStyle);
      var ai := if "ai" in t then ReadAI(t["ai"]) else Ok(DefaultAI);
      if enabled.Err? then Err(enabled.error)
      else if complexity.Err? then Err(complexity.error)
      else if naming.Err? then Err(naming.error)
      else if style.Err? then Err(style.error)
      else if ai.Err? then Err(ai.error)
      else Ok(LintConfig(enabled.value, complexity.value, naming.value, style.value, ai.value))
  }

  /** `toml::from_str::<FurnaceConfig>` once the text has been parsed to the document `doc`. */
  function ReadConfig(doc: Table): Result<FurnaceConfig, Error> {
    var lints := if "lints" in doc then ReadLints(doc["lints"]) else Ok(DefaultLints);
    var ignore := OptStrings(doc, "ignore");
    if lints.Err? then Err(lints.error)
    else if ignore.Err? then Err(ignore.error)
    else Ok(FurnaceConfig(lints.value, ignore.value.GetOr([])))
  }

  /**
   * `load_config`: the defaults when `.furnacerc.toml` does not exist, when
   * its text is not TOML, or when the document does not fit; the document's
   * configuration otherwise.  `found` and `content` are what the file
   * system says of the file (an unreadable file reads as empty text), and
   * `parse` is the TOML parser.
   */
  function LoadConfig(found: bool, content: string, parse: string -> Option<Table>): (r: FurnaceConfig)
    ensures !found ==> r == DefaultConfig
    ensures found && parse(content).None? ==> r == DefaultConfig
    ensures found && parse(content).Some? && ReadConfig(parse(content).value).Err? ==> r == DefaultConfig
    ensures found && parse(content).Some? && ReadConfig(parse(content).value).Ok?
            ==> r == ReadConfig(parse(content).value).value
  {
    if !found then DefaultConfig
    else match parse(content)
      case None => DefaultConfig
      case Some(doc) =>
        match ReadConfig(doc)
        case Ok(config) => config
        case Err(_) => DefaultConfig
  }

  // ----- Properties -----

  /** The default configuration switches linting on and every individual lint off, and ignores nothing. */
  lemma DefaultConfigHasNoLints()
    ensures DefaultConfig.lints.enabled == Some(true)
    ensures DefaultConfig.ignore == []
    ensures DefaultConfig.lints.complexity.maxArgs.None? && DefaultConfig.lints.complexity.maxFields.None?
    ensures DefaultConfig.lints.naming.enforceSnakeCaseFunctions.None?
    ensures DefaultConfig.lints.naming.enforceSnakeCaseVariables.None?
    ensures DefaultConfig.lints.naming.enforcePascalCaseTypes.None?
    ensures DefaultConfig.lints.naming.discouragedNames.None?
    ensures DefaultConfig.lints.ai.maxTokens == Some(4000)
  {
  }

  /** An empty document, which is also what an unreadable file parses to, reads as the defaults. */
  lemma EmptyDocumentIsDefault()
    ensures ReadConfig(map[]) == Ok(DefaultConfig)
  {
  }

  /**
   * A present `lints` table without an `enabled` key leaves `enabled` unset
   * rather than `Some(true)`; every lint sub-table it leaves out keeps its
   * defaults.
   */
  lemma LintsTableWithoutEnabled(doc: Table)
    requires "lints" in doc && doc["lints"].TTable? && doc["lints"].entries == map[]
    requires "ignore" !in doc
    ensures ReadConfig(doc) == Ok(FurnaceConfig(DefaultLints.(enabled := None), []))
  {
  }

  /** Keys the configuration does not name are ignored. */
  lemma UnknownTopLevelKeyIgnored(doc: Table, key: string, v: Toml)
    requires key != "lints" && key != "ignore"
    ensures ReadConfig(doc[key := v]) == ReadConfig(doc)
  {
    assert "lints" in doc[key := v] <==> "lints" in doc;
    assert "ignore" in doc[key := v] <==> "ignore" in doc;
    if "lints" in doc {
      assert doc[key := v]["lints"] == doc["lints"];
    }
    if "ignore" in doc {
      assert doc[key := v]["ignore"] == doc["ignore"];
    }
  }

  /** A negative size anywhere in the complexity table makes the whole file fall back to the defaults. */
  lemma NegativeMaxArgsFallsBack(doc: Table, content: string, parse: string -> Option<Table>)
    requires parse(content) == Some(doc)
    requires "lints" in doc && doc["lints"].TTable?
    requires "complexity" in doc["lints"].entries && doc["lints"].entries["complexity"].TTable?
    requires "max_args" in doc["lints"].entries["complexity"].entries
    requires doc["lints"].entries["complexity"].entries["max_args"].TInt?
    requires doc["lints"].entries["complexity"].entries["max_args"].i < 0
    ensures LoadConfig(true, content, parse) == DefaultConfig
  {
  }

  /** The tables of the configuration example: ignore two directories, bound arguments and fields, name checks. */
  const ExampleComplexity: Table := map["max_args" := TInt(10), "max_fields" := TInt(15)]
  const ExampleNaming: Table := map[
    "discouraged_names" := TArray([TStr("temp")]),
    "enforce_snake_case_functions" := TBool(true)]
  const ExampleLints: Table := map["complexity" := TTable(ExampleComplexity), "naming" := TTable(ExampleNaming)]
  const ExampleDocument: Table := map[
    "ignore" := TArray([TStr("target"), TStr("dist")]),
    "lints" := TTable(ExampleLints)]

  lemma ExampleDocumentReads()
    ensures ReadConfig(ExampleDocument).Ok?
    ensures var c := ReadConfig(ExampleDocument).value;
      && c.lints.complexity.maxArgs == Some(10)
      && c.lints.complexity.maxFields == Some(15)
      && |c.ignore| == 2
      && c.lints.naming.discouragedNames == Some(["temp"])
      && c.lints.naming.enforceSnakeCaseFunctions == Some(true)
      && c.lints.enabled == None
  {
    assert ExampleDocument["lints"] == TTable(ExampleLints);
    ExampleLintsRead();
    assert OptStrings(ExampleDocument, "ignore") == Ok(Some(["target", "dist"])) by {
      var ignore := [TStr("target"), TStr("dist")];
      assert ExampleDocument["ignore"] == TArray(ignore);
      assert Strings(ignore) == Some(["target", "dist"]) by {
        assert ignore[..1] == [TStr("target")];
        assert ignore[..1][..0] == [];
        assert Strings(ignore[..1][..0]) == Some([]);
        assert [] + ["target"] == ["target"];
        assert Strings(ignore[..1]) == Some(["target"]);
        assert ["target"] + ["dist"] == ["target", "dist"];
      }
    }
  }

  lemma ExampleLintsRead()
    ensures ReadLints(TTable(ExampleLints)).Ok?
    ensures var l := ReadLints(TTable(ExampleLints)).value;
      && l.enabled == None
      && l.complexity.maxArgs == Some(10) && l.complexity.maxFields == Some(15)
      && l.naming.discouragedNames == Some(["temp"]) && l.naming.enforceSnakeCaseFunctions == Some(true)
  {
    assert ExampleLints["complexity"] == TTable(ExampleComplexity);
    assert ExampleLints["naming"] == TTable(ExampleNaming);
    assert "enabled" !in ExampleLints && "style" !in ExampleLints && "ai" !in ExampleLints;
    ExampleComplexityRead();
    ExampleNamingRead();
  }

  lemma ExampleComplexityRead()
    ensures ReadComplexity(TTable(ExampleComplexity)) == Ok(ComplexityLints(Some(10), Some(15), None, None))
  {
    assert "max_function_lines" !in ExampleComplexity && "max_struct_size" !in ExampleComplexity;
  }

  lemma ExampleNamingRead()
    ensures ReadNaming(TTable(ExampleNaming)).Ok?
    ensures ReadNaming(TTable(ExampleNaming)).value.discouragedNames == Some(["temp"])
    ensures ReadNaming(TTable(ExampleNaming)).value.enforceSnakeCaseFunctions == Some(true)
  {
    var temp := [TStr("temp")];
    assert ExampleNaming["discouraged_names"] == TArray(temp);
    assert Strings(temp) == Some(["temp"]) by {
      assert temp[..0] == [];
      assert Strings(temp[..0]) == Some([]);
      assert [] + ["temp"] == ["temp"];
    }
  }
}

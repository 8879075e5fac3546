/**
 * Static lints over file snapshots (src/linting.rs).
 *
 * `Lint` says which warnings a configuration produces and in which order:
 * snapshot by snapshot, and within a snapshot rule by rule (argument
 * count, field count, function names, variable names, type names,
 * discouraged variable names).  `LintSnapshots` is the source's loop nest
 * and is proved to produce exactly `Lint`.
 */
module Linting {
  import opened Wrappers
  import opened Text
  import opened Types
  import opened Config

  // ----- Naming conventions -----

  /** `is_snake_case`: after leading underscores, only lower-case letters, digits and underscores. */
  predicate IsSnakeCase(s: string) {
    var rest := TrimUnderscores(s);
    forall i :: 0 <= i < |rest| ==> SnakeChar(rest[i])
  }

  predicate SnakeChar(c: char) {
    IsAsciiLower(c) || IsAsciiDigit(c) || c == '_'
  }

  /** `trim_start_matches('_')` */
  function TrimUnderscores(s: string): (r: string)
    ensures |r| <= |s| && r == s[|s| - |r|..]
    ensures forall i :: 0 <= i < |s| - |r| ==> s[i] == '_'
    ensures r == [] || r[0] != '_'
  {
    if s != [] && s[0] == '_' then TrimUnderscores(s[1..]) else s
  }

  /** `is_pascal_case`: not empty, and the first character is upper case. */
  predicate IsPascalCase(s: string) {
    s != [] && IsAsciiUpper(s[0])
  }

  // ----- Warnings -----

  function ArgsMessage(f: FunctionSnapshot, path: string, max: nat): string {
    "Warning: Function '" + f.name + "' in '" + path + "' has " + NatToString(|f.args|)
      + " arguments (max " + NatToString(max) + " recommended)"
  }

  function FieldsMessage(s: StructSnapshot, path: string, max: nat): string {
    "Warning: Struct '" + s.name + "' in '" + path + "' has " + NatToString(|s.fields|)
      + " fields (max " + NatToString(max) + " recommended)"
  }

  function FunctionNameMessage(f: FunctionSnapshot, path: string): string {
    "Warning: Function '" + f.name + "' in '" + path + "' should use snake_case"
  }

  function VariableNameMessage(v: string, f: FunctionSnapshot, path: string): string {
    "Warning: Variable '" + v + "' in function '" + f.name + "' ('" + path + "') should use snake_case"
  }

  function StructNameMessage(s: StructSnapshot, path: string): string {
    "Warning: Struct '" + s.name + "' in '" + path + "' should use PascalCase"
  }

  function EnumNameMessage(e: EnumSnapshot, path: string): string {
    "Warning: Enum '" + e.name + "' in '" + path + "' should use PascalCase"
  }

  function DiscouragedMessage(v: string, f: FunctionSnapshot, path: string): string {
    "Warning: Discouraged variable name '" + v + "' in function '" + f.name + "' ('" + path + "')"
  }

  // ----- The rules, one list of warnings each -----

  function ArgsWarnings(fs: seq<FunctionSnapshot>, path: string, max: nat): seq<string> {
    if fs == [] then []
    else
      var f := fs[|fs| - 1];
      ArgsWarnings(fs[..|fs| - 1], path, max) + (if |f.args| > max then [ArgsMessage(f, path, max)] else [])
  }

  function FieldsWarnings(ss: seq<StructSnapshot>, path: string, max: nat): seq<string> {
    if ss == [] then []
    else
      var s := ss[|ss| - 1];
      FieldsWarnings(ss[..|ss| - 1], path, max) + (if |s.fields| > max then [FieldsMessage(s, path, max)] else [])
  }

  function FunctionNameWarnings(fs: seq<FunctionSnapshot>, path: string): seq<string> {
    if fs == [] then []
    else
      var f := fs[|fs| - 1];
      FunctionNameWarnings(fs[..|fs| - 1], path) + (if !IsSnakeCase(f.name) then [FunctionNameMessage(f, path)] else [])
  }

  /** The variables of one function whose names break snake case. */
  function VariableNameWarningsIn(vars: seq<(string, Option<string>)>, f: FunctionSnapshot, path: string): seq<string> {
    if vars == [] then []
    else
      var v := vars[|vars| - 1].0;
      VariableNameWarningsIn(vars[..|vars| - 1], f, path) + (if !IsSnakeCase(v) then [VariableNameMessage(v, f, path)] else [])
  }

  function VariableNameWarnings(fs: seq<FunctionSnapshot>, path: string): seq<string> {
    if fs == [] then []
    else
      var f := fs[|fs| - 1];
      VariableNameWarnings(fs[..|fs| - 1], path) + VariableNameWarningsIn(f.variables, f, path)
  }

  function StructNameWarnings(ss: seq<StructSnapshot>, path: string): seq<string> {
    if ss == [] then []
    else
      var s := ss[|ss| - 1];
      StructNameWarnings(ss[..|ss| - 1], path) + (if !IsPascalCase(s.name) then [StructNameMessage(s, path)] else [])
  }

  function EnumNameWarnings(es: seq<EnumSnapshot>, path: string): seq<string> {
    if es == [] then []
    else
      var e := es[|es| - 1];
      EnumNameWarnings(es[..|es| - 1], path) + (if !IsPascalCase(e.name) then [EnumNameMessage(e, path)] else [])
  }

  /** The variables of one function whose names are on the discouraged list. */
  function DiscouragedWarningsIn(vars: seq<(string, Option<string>)>, f: FunctionSnapshot, path: string, discouraged: seq<string>): seq<string> {
    if vars == [] then []
    else
      var v := vars[|vars| - 1].0;
      DiscouragedWarningsIn(vars[..|vars| - 1], f, path, discouraged) + (if v in discouraged then [DiscouragedMessage(v, f, path)] else [])
  }

  function DiscouragedWarnings(fs: seq<FunctionSnapshot>, path: string, discouraged: seq<string>): seq<string> {
    if fs == [] then []
    else
      var f := fs[|fs| - 1];
      DiscouragedWarnings(fs[..|fs| - 1], path, discouraged) + DiscouragedWarningsIn(f.variables, f, path, discouraged)
  }

  function ArgsRule(s: RustFileSnapshot, c: LintConfig): seq<string> {
    if c.complexity.maxArgs.Some? then ArgsWarnings(s.functions, s.path, c.complexity.maxArgs.value) else []
  }

  function FieldsRule(s: RustFileSnapshot, c: LintConfig): seq<string> {
    if c.complexity.maxFields.Some? then FieldsWarnings(s.structs, s.path, c.complexity.maxFields.value) else []
  }

  function FunctionNameRule(s: RustFileSnapshot, c: LintConfig): seq<string> {
    if c.naming.enforceSnakeCaseFunctions == Some(true) then FunctionNameWarnings(s.functions, s.path) else []
  }

  function VariableNameRule(s: RustFileSnapshot, c: LintConfig): seq<string> {
    if c.naming.enforceSnakeCaseVariables == Some(true) then VariableNameWarnings(s.functions, s.path) else []
  }

  function TypeNameRule(s: RustFileSnapshot, c: LintConfig): seq<string> {
    if c.naming.enforcePascalCaseTypes == Some(true)
    then StructNameWarnings(s.structs, s.path) + EnumNameWarnings(s.enums, s.path)
    else []
  }

  function DiscouragedRule(s: RustFileSnapshot, c: LintConfig): seq<string> {
    if c.naming.discouragedNames.Some? then DiscouragedWarnings(s.functions, s.path, c.naming.discouragedNames.value) else []
  }

  /** The warnings for one snapshot: each configured rule in turn. */
  function SnapshotWarnings(s: RustFileSnapshot, c: LintConfig): seq<string> {
    ArgsRule(s, c) + FieldsRule(s, c) + FunctionNameRule(s, c) + VariableNameRule(s, c)
      + TypeNameRule(s, c) + DiscouragedRule(s, c)
  }

  /** What `lint_snapshots` returns: nothing when linting is switched off, else every snapshot's warnings in order. */
  function Lint(snapshots: seq<RustFileSnapshot>, c: LintConfig): seq<string> {
    if c.enabled == Some(false) then []
    else AllWarnings(snapshots, c)
  }

  function AllWarnings(snapshots: seq<RustFileSnapshot>, c: LintConfig): seq<string> {
    if snapshots == [] then []
    else AllWarnings(snapshots[..|snapshots| - 1], c) + SnapshotWarnings(snapshots[|snapshots| - 1], c)
  }

  // ----- The linter -----

  /** `lint_snapshots` */
  method LintSnapshots(snapshots: seq<RustFileSnapshot>, config: LintConfig) returns (warnings: seq<string>)
    ensures warnings == Lint(snapshots, config)
  {
    warnings := [];
    if config.enabled == Some(false) {
      return;
    }
    for i := 0 to |snapshots|
      invariant warnings == AllWarnings(snapshots[..i], config)
    {
      assert snapshots[..i + 1][..i] == snapshots[..i];
      var more := LintSnapshot(snapshots[i], config);
      warnings := warnings + more;
    }
    assert snapshots[..|snapshots|] == snapshots;
  }

  /** The body of the outer loop of `lint_snapshots`: the rules applied to one snapshot. */
  method LintSnapshot(snapshot: RustFileSnapshot, config: LintConfig) returns (warnings: seq<string>)
    ensures warnings == SnapshotWarnings(snapshot, config)
  {
    var path := snapshot.path;
    warnings := [];
    if config.complexity.maxArgs.Some? {
      var more := CheckArgs(snapshot.functions, path, config.complexity.maxArgs.value);
      warnings := warnings + more;
    }
    assert warnings == ArgsRule(snapshot, config);
    if config.complexity.maxFields.Some? {
      var more := CheckFields(snapshot.structs, path, config.complexity.maxFields.value);
      warnings := warnings + more;
    }
    assert warnings == ArgsRule(snapshot, config) + FieldsRule(snapshot, config);
    if config.naming.enforceSnakeCaseFunctions == Some(true) {
      var more := CheckFunctionNames(snapshot.functions, path);
      warnings := warnings + more;
    }
    assert warnings == ArgsRule(snapshot, config) + FieldsRule(snapshot, config) + FunctionNameRule(snapshot, config);
    if config.naming.enforceSnakeCaseVariables == Some(true) {
      var more := CheckVariableNames(snapshot.functions, path);
      warnings := warnings + more;
    }
    assert warnings == ArgsRule(snapshot, config) + FieldsRule(snapshot, config) + FunctionNameRule(snapshot, config)
      + VariableNameRule(snapshot, config);
    if config.naming.enforcePascalCaseTypes == Some(true) {
      var more := CheckTypeNames(snapshot.structs, snapshot.enums, path);
      warnings := warnings + more;
    }
    assert warnings == ArgsRule(snapshot, config) + FieldsRule(snapshot, config) + FunctionNameRule(snapshot, config)
      + VariableNameRule(snapshot, config) + TypeNameRule(snapshot, config);
    if config.naming.discouragedNames.Some? {
      var more := CheckDiscouraged(snapshot.functions, path, config.naming.discouragedNames.value);
      warnings := warnings + more;
    }
  }

  method CheckArgs(fs: seq<FunctionSnapshot>, path: string, maxArgs: nat) returns (warnings: seq<string>)
    ensures warnings == ArgsWarnings(fs, path, maxArgs)
  {
    warnings := [];
    for i := 0 to |fs|
      invariant warnings == ArgsWarnings(fs[..i], path, maxArgs)
    {
      assert fs[..i + 1][..i] == fs[..i];
      if |fs[i].args| > maxArgs {
        warnings := warnings + [ArgsMessage(fs[i], path, maxArgs)];
      }
    }
    assert fs[..|fs|] == fs;
  }

  method CheckFields(ss: seq<StructSnapshot>, path: string, maxFields: nat) returns (warnings: seq<string>)
    ensures warnings == FieldsWarnings(ss, path, maxFields)
  {
    warnings := [];
    for i := 0 to |ss|
      invariant warnings == FieldsWarnings(ss[..i], path, maxFields)
    {
      assert ss[..i + 1][..i] == ss[..i];
      if |ss[i].fields| > maxFields {
        warnings := warnings + [FieldsMessage(ss[i], path, maxFields)];
      }
    }
    assert ss[..|ss|] == ss;
  }

  method CheckFunctionNames(fs: seq<FunctionSnapshot>, path: string) returns (warnings: seq<string>)
    ensures warnings == FunctionNameWarnings(fs, path)
  {
    warnings := [];
    for i := 0 to |fs|
      invariant warnings == FunctionNameWarnings(fs[..i], path)
    {
      assert fs[..i + 1][..i] == fs[..i];
      if !IsSnakeCase(fs[i].name) {
        warnings := warnings + [FunctionNameMessage(fs[i], path)];
      }
    }
    assert fs[..|fs|] == fs;
  }

  method CheckVariableNames(fs: seq<FunctionSnapshot>, path: string) returns (warnings: seq<string>)
    ensures warnings == VariableNameWarnings(fs, path)
  {
    warnings := [];
    for i := 0 to |fs|
      invariant warnings == VariableNameWarnings(fs[..i], path)
    {
      assert fs[..i + 1][..i] == fs[..i];
      var more := CheckVariablesOf(fs[i], path);
      warnings := warnings + more;
    }
    assert fs[..|fs|] == fs;
  }

  /** The inner loop over one function's variables. */
  method CheckVariablesOf(f: FunctionSnapshot, path: string) returns (warnings: seq<string>)
    ensures warnings == VariableNameWarningsIn(f.variables, f, path)
  {
    warnings := [];
    for j := 0 to |f.variables|
      invariant warnings == VariableNameWarningsIn(f.variables[..j], f, path)
    {
      assert f.variables[..j + 1][..j] == f.variables[..j];
      var varName := f.variables[j].0;
      if !IsSnakeCase(varName) {
        warnings := warnings + [VariableNameMessage(varName, f, path)];
      }
    }
    assert f.variables[..|f.variables|] == f.variables;
  }

  method CheckTypeNames(ss: seq<StructSnapshot>, es: seq<EnumSnapshot>, path: string) returns (warnings: seq<string>)
    ensures warnings == StructNameWarnings(ss, path) + EnumNameWarnings(es, path)
  {
    warnings := [];
    for i := 0 to |ss|
      invariant warnings == StructNameWarnings(ss[..i], path)
    {
      assert ss[..i + 1][..i] == ss[..i];
      if !IsPascalCase(ss[i].name) {
        warnings := warnings + [StructNameMessage(ss[i], path)];
      }
    }
    assert ss[..|ss|] == ss;
    ghost var mid := warnings;
    for i := 0 to |es|
      invariant warnings == mid + EnumNameWarnings(es[..i], path)
    {
      assert es[..i + 1][..i] == es[..i];
      if !IsPascalCase(es[i].name) {
        warnings := warnings + [EnumNameMessage(es[i], path)];
      }
    }
    assert es[..|es|] == es;
  }

  method CheckDiscouraged(fs: seq<FunctionSnapshot>, path: string, discouraged: seq<string>) returns (warnings: seq<string>)
    ensures warnings == DiscouragedWarnings(fs, path, discouraged)
  {
    warnings := [];
    for i := 0 to |fs|
      invariant warnings == DiscouragedWarnings(fs[..i], path, discouraged)
    {
      assert fs[..i + 1][..i] == fs[..i];
      var more := CheckDiscouragedOf(fs[i], path, discouraged);
      warnings := warnings + more;
    }
    assert fs[..|fs|] == fs;
  }

  /** The inner loop over one function's variables. */
  method CheckDiscouragedOf(f: FunctionSnapshot, path: string, discouraged: seq<string>) returns (warnings: seq<string>)
    ensures warnings == DiscouragedWarningsIn(f.variables, f, path, discouraged)
  {
    warnings := [];
    for j := 0 to |f.variables|
      invariant warnings == DiscouragedWarningsIn(f.variables[..j], f, path, discouraged)
    {
      assert f.variables[..j + 1][..j] == f.variables[..j];
      var varName := f.variables[j].0;
      if varName in discouraged {
        warnings := warnings + [DiscouragedMessage(varName, f, path)];
      }
    }
    assert f.variables[..|f.variables|] == f.variables;
  }

  // ----- Properties -----

  /** Leading underscores do not matter, and since `_` is itself allowed, the trim changes nothing. */
  lemma SnakeCaseIsCharacterwise(s: string)
    ensures IsSnakeCase(s) <==> forall i :: 0 <= i < |s| ==> SnakeChar(s[i])
  {
    var rest := TrimUnderscores(s);
    if IsSnakeCase(s) {
      forall i | 0 <= i < |s|
        ensures SnakeChar(s[i])
      {
        if i >= |s| - |rest| {
          assert s[i] == rest[i - (|s| - |rest|)];
        }
      }
    }
  }

  /** A PascalCase name is never snake case, and the empty name is snake case but not PascalCase. */
  lemma PascalIsNotSnake(s: string)
    ensures IsPascalCase(s) ==> !IsSnakeCase(s)
    ensures IsSnakeCase("") && !IsPascalCase("")
  {
    if IsPascalCase(s) {
      SnakeCaseIsCharacterwise(s);
      assert !SnakeChar(s[0]);
    }
  }

  /** Underscores alone and the empty name count as snake case. */
  lemma SnakeCaseExamples()
    ensures IsSnakeCase("") && IsSnakeCase("__")
  {
    assert TrimUnderscores("__") == "" by {
      assert "__"[1..] == "_" && "_"[1..] == "";
    }
  }

  /** An upper-case letter inside a name is not snake case. */
  lemma CamelCaseIsNotSnake()
    ensures !IsSnakeCase("camelCase")
  {
    var camel := "camelCase";
    assert TrimUnderscores(camel) == camel by {
      assert camel[0] == 'c';
    }
    assert !SnakeChar(camel[5]);
  }

  /** Switching linting off silences every rule. */
  lemma DisabledLintsNothing(snapshots: seq<RustFileSnapshot>, c: LintConfig)
    requires c.enabled == Some(false)
    ensures Lint(snapshots, c) == []
  {
  }

  /** With no rule configured, there are no warnings, whether `enabled` is set or not. */
  lemma {:induction false} NoRulesNoWarnings(snapshots: seq<RustFileSnapshot>, c: LintConfig)
    requires c.complexity.maxArgs.None? && c.complexity.maxFields.None?
    requires c.naming.enforceSnakeCaseFunctions != Some(true) && c.naming.enforceSnakeCaseVariables != Some(true)
    requires c.naming.enforcePascalCaseTypes != Some(true) && c.naming.discouragedNames.None?
    ensures Lint(snapshots, c) == []
  {
    if snapshots != [] && c.enabled != Some(false) {
      NoRulesNoWarnings(snapshots[..|snapshots| - 1], c);
    }
  }

  /** The default configuration lints nothing. */
  lemma DefaultConfigLintsNothing(snapshots: seq<RustFileSnapshot>)
    ensures Lint(snapshots, DefaultLints) == []
  {
    NoRulesNoWarnings(snapshots, DefaultLints);
  }

  /** Linting several batches is linting each in turn. */
  lemma LintAppend(a: seq<RustFileSnapshot>, b: seq<RustFileSnapshot>, c: LintConfig)
    ensures Lint(a + b, c) == Lint(a, c) + Lint(b, c)
  {
    if c.enabled != Some(false) {
      AllWarningsAppend(a, b, c);
    }
  }

  lemma {:induction false} AllWarningsAppend(a: seq<RustFileSnapshot>, b: seq<RustFileSnapshot>, c: LintConfig)
    ensures AllWarnings(a + b, c) == AllWarnings(a, c) + AllWarnings(b, c)
    decreases |b|
  {
    if b == [] {
      assert a + b == a;
    } else {
      var init, last := b[..|b| - 1], b[|b| - 1];
      assert AllWarnings(a + b, c) == AllWarnings(a + init, c) + SnapshotWarnings(last, c) by {
        assert (a + b)[..|a + b| - 1] == a + init;
        assert (a + b)[|a + b| - 1] == last;
      }
      AllWarningsAppend(a, init, c);
      AppendAssociative(AllWarnings(a, c), AllWarnings(init, c), SnapshotWarnings(last, c));
    }
  }

  /**
   * The argument-count rule warns about exactly the functions with more
   * arguments than the bound (a function at the bound is fine), once each,
   * in order.
   */
  lemma {:induction false} ArgsWarningsExact(fs: seq<FunctionSnapshot>, path: string, max: nat)
    ensures |ArgsWarnings(fs, path, max)| == |TooManyArgs(fs, max)|
    ensures ArgsWarnings(fs, path, max) == MessagesFor(TooManyArgs(fs, max), path, max)
  {
    if fs != [] {
      ArgsWarningsExact(fs[..|fs| - 1], path, max);
      MessagesForAppend(TooManyArgs(fs[..|fs| - 1], max), if |fs[|fs| - 1].args| > max then [fs[|fs| - 1]] else [], path, max);
    }
  }

  /** The functions with more than `max` arguments. */
  function TooManyArgs(fs: seq<FunctionSnapshot>, max: nat): (r: seq<FunctionSnapshot>)
    ensures forall f :: f in r <==> f in fs && |f.args| > max
  {
    if fs == [] then []
    else
      var f := fs[|fs| - 1];
      TooManyArgs(fs[..|fs| - 1], max) + (if |f.args| > max then [f] else [])
  }

  function MessagesFor(fs: seq<FunctionSnapshot>, path: string, max: nat): (r: seq<string>)
    ensures |r| == |fs|
  {
    if fs == [] then [] else [ArgsMessage(fs[0], path, max)] + MessagesFor(fs[1..], path, max)
  }

  lemma {:induction false} MessagesForAppend(a: seq<FunctionSnapshot>, b: seq<FunctionSnapshot>, path: string, max: nat)
    ensures MessagesFor(a + b, path, max) == MessagesFor(a, path, max) + MessagesFor(b, path, max)
  {
    if a == [] {
      assert a + b == b;
    } else {
      assert MessagesFor(a + b, path, max) == [ArgsMessage(a[0], path, max)] + MessagesFor(a[1..] + b, path, max) by {
        assert (a + b)[0] == a[0];
        assert (a + b)[1..] == a[1..] + b;
      }
      MessagesForAppend(a[1..], b, path, max);
      AppendAssociative([ArgsMessage(a[0], path, max)], MessagesFor(a[1..], path, max), MessagesFor(b, path, max));
    }
  }

  /** The structs with more than `max` fields. */
  function TooManyFields(ss: seq<StructSnapshot>, max: nat): (r: seq<StructSnapshot>)
    ensures forall s :: s in r <==> s in ss && |s.fields| > max
  {
    if ss == [] then []
    else
      var s := ss[|ss| - 1];
      TooManyFields(ss[..|ss| - 1], max) + (if |s.fields| > max then [s] else [])
  }

  function FieldMessagesFor(ss: seq<StructSnapshot>, path: string, max: nat): (r: seq<string>)
    ensures |r| == |ss|
  {
    if ss == [] then [] else [FieldsMessage(ss[0], path, max)] + FieldMessagesFor(ss[1..], path, max)
  }

  lemma {:induction false} FieldMessagesForAppend(a: seq<StructSnapshot>, b: seq<StructSnapshot>, path: string, max: nat)
    ensures FieldMessagesFor(a + b, path, max) == FieldMessagesFor(a, path, max) + FieldMessagesFor(b, path, max)
  {
    if a == [] {
      assert a + b == b;
    } else {
      assert FieldMessagesFor(a + b, path, max) == [FieldsMessage(a[0], path, max)] + FieldMessagesFor(a[1..] + b, path, max) by {
        assert (a + b)[0] == a[0];
        assert (a + b)[1..] == a[1..] + b;
      }
      FieldMessagesForAppend(a[1..], b, path, max);
      AppendAssociative([FieldsMessage(a[0], path, max)], FieldMessagesFor(a[1..], path, max), FieldMessagesFor(b, path, max));
    }
  }

  /**
   * The field-count rule warns about exactly the structs with more fields
   * than the bound (a struct at the bound is fine), once each, in order.
   */
  lemma {:induction false} FieldsWarningsExact(ss: seq<StructSnapshot>, path: string, max: nat)
    ensures |FieldsWarnings(ss, path, max)| == |TooManyFields(ss, max)|
    ensures FieldsWarnings(ss, path, max) == FieldMessagesFor(TooManyFields(ss, max), path, max)
  {
    if ss != [] {
      FieldsWarningsExact(ss[..|ss| - 1], path, max);
      FieldMessagesForAppend(TooManyFields(ss[..|ss| - 1], max), if |ss[|ss| - 1].fields| > max then [ss[|ss| - 1]] else [], path, max);
    }
  }

  /** Traits are never linted: the PascalCase rule looks at structs and enums only. */
  lemma TraitsNeverLinted(s: RustFileSnapshot, traits: seq<TraitSnapshot>, c: LintConfig)
    ensures SnapshotWarnings(s.(traits := traits), c) == SnapshotWarnings(s, c)
  {
  }

  /** Raising the argument bound never adds warnings. */
  lemma {:induction false} ArgsBoundMonotone(fs: seq<FunctionSnapshot>, path: string, lo: nat, hi: nat)
    requires lo <= hi
    ensures |ArgsWarnings(fs, path, hi)| <= |ArgsWarnings(fs, path, lo)|
  {
    if fs != [] {
      ArgsBoundMonotone(fs[..|fs| - 1], path, lo, hi);
    }
  }

  /** Functions whose names are snake case draw no naming warning. */
  lemma {:induction false} SnakeCaseFunctionsPass(fs: seq<FunctionSnapshot>, path: string)
    requires forall i :: 0 <= i < |fs| ==> IsSnakeCase(fs[i].name)
    ensures FunctionNameWarnings(fs, path) == []
  {
    if fs != [] {
      SnakeCaseFunctionsPass(fs[..|fs| - 1], path);
    }
  }
}

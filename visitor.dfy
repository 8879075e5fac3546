/**
 * The structural extractor (src/visitor.rs): a visitor that walks one parsed
 * file and appends one snapshot per function, struct, trait, enum and kept
 * impl block to five lists.
 *
 * The functions below say what each visit contributes; the class
 * `SnapshotVisitor` is the visitor itself, whose methods build the lists
 * with the loops of the source and are proved to append exactly those
 * contributions.
 */
module Visitor {
  import opened Wrappers
  import opened Types
  import opened Syntax

  // ----- What one item contributes -----

  /** The name a function input contributes to `args`: only a typed input whose pattern is a bare identifier. */
  function ArgName(input: FnArg): Option<string> {
    if input.Typed? && input.pat.PatIdent? then Some(input.pat.ident) else None
  }

  function ArgNames(inputs: seq<FnArg>): seq<string> {
    if inputs == [] then []
    else ArgNames(inputs[..|inputs| - 1]) + OptionToSeq(ArgName(inputs[|inputs| - 1]))
  }

  /** The variable a statement contributes: a `let` whose pattern, after
      removing an outer type annotation, is a bare identifier; the
      annotation's text goes with it. */
  function LocalBinding(stmt: Stmt): Option<(string, Option<string>)> {
    match stmt
    case OtherStmt => None
    case Local(pat) =>
      var inner := if pat.PatType? then pat.pat else pat;
      var ty := if pat.PatType? then Some(pat.ty) else None;
      if inner.PatIdent? then Some((inner.ident, ty)) else None
  }

  function Variables(stmts: seq<Stmt>): seq<(string, Option<string>)> {
    if stmts == [] then []
    else Variables(stmts[..|stmts| - 1]) + OptionToSeq(LocalBinding(stmts[|stmts| - 1]))
  }

  function NamedFieldNames(named: seq<Field>): seq<string> {
    if named == [] then []
    else NamedFieldNames(named[..|named| - 1]) + OptionToSeq(named[|named| - 1].ident)
  }

  /** Only braced structs have field names; tuple and unit structs have none. */
  function FieldNames(fields: Fields): seq<string> {
    if fields.Named? then NamedFieldNames(fields.named) else []
  }

  function TraitMethods(items: seq<TraitItem>): seq<string> {
    if items == [] then []
    else
      var last := items[|items| - 1];
      TraitMethods(items[..|items| - 1]) + (if last.TraitFn? then [last.ident] else [])
  }

  function ImplMethods(items: seq<ImplItem>): seq<string> {
    if items == [] then []
    else
      var last := items[|items| - 1];
      ImplMethods(items[..|items| - 1]) + (if last.ImplFn? then [last.ident] else [])
  }

  function FunctionOf(f: ItemFn): FunctionSnapshot {
    FunctionSnapshot(f.ident, ArgNames(f.inputs), Variables(f.stmts))
  }

  function StructOf(s: ItemStruct): StructSnapshot {
    StructSnapshot(s.ident, FieldNames(s.fields), [])
  }

  function TraitOf(t: ItemTrait): TraitSnapshot {
    TraitSnapshot(t.ident, TraitMethods(t.items))
  }

  function EnumOf(e: ItemEnum): EnumSnapshot {
    EnumSnapshot(e.ident, e.variants, [])
  }

  /** The bare identifier an impl block is for, when its self type is a path that is a single plain identifier. */
  function ImplTarget(i: ItemImpl): Option<string> {
    if i.selfTy.TypePath? then i.selfTy.path.GetIdent() else None
  }

  /** The last segment of the implemented trait's path, when there is a trait. */
  function ImplTraitName(i: ItemImpl): Option<string> {
    if i.traitPath.Some? then i.traitPath.value.LastIdent() else None
  }

  /** An impl block is kept only when it has a bare-identifier target. */
  function ImplOf(i: ItemImpl): Option<ImplSnapshot> {
    match ImplTarget(i)
    case Some(t) => Some(ImplSnapshot(t, ImplTraitName(i), ImplMethods(i.items)))
    case None => None
  }

  // ----- What a sequence of items contributes -----

  /** The five lists of a snapshot, before any impl merging. */
  datatype Collected = Collected(
    functions: seq<FunctionSnapshot>,
    structs: seq<StructSnapshot>,
    traits: seq<TraitSnapshot>,
    enums: seq<EnumSnapshot>,
    impls: seq<ImplSnapshot>)
  {
    function Then(other: Collected): Collected {
      Collected(functions + other.functions, structs + other.structs, traits + other.traits,
                enums + other.enums, impls + other.impls)
    }

    lemma ThenAssociative(b: Collected, c: Collected)
      ensures this.Then(b).Then(c) == this.Then(b.Then(c))
    {
    }

    lemma ThenEmpty()
      ensures this.Then(Empty) == this && Empty.Then(this) == this
    {
    }
  }

  const Empty := Collected([], [], [], [], [])

  /**
   * The lists the visitor's walk over `items` produces.  The walk is syn's
   * default traversal with the five visits overridden: the items of an
   * inline module are visited in place, a body-less `mod m;` has nothing to
   * visit, and the overridden visits do not descend into function bodies,
   * traits or impl blocks.
   */
  function Walk(items: seq<Item>): Collected
    decreases items
  {
    if items == [] then Empty
    else Walk(items[..|items| - 1]).Then(VisitOf(items[|items| - 1]))
  }

  /** Walking one more item adds what visiting it adds. */
  lemma WalkStep(items: seq<Item>, i: nat)
    requires i < |items|
    ensures Walk(items[..i + 1]) == Walk(items[..i]).Then(VisitOf(items[i]))
  {
    assert items[..i + 1][..i] == items[..i];
  }

  /** What visiting one item adds to the lists. */
  function VisitOf(item: Item): Collected
    decreases item
  {
    match item
    case Fn(f) => Collected([FunctionOf(f)], [], [], [], [])
    case Struct(s) => Collected([], [StructOf(s)], [], [], [])
    case Trait(t) => Collected([], [], [TraitOf(t)], [], [])
    case Enum(e) => Collected([], [], [], [EnumOf(e)], [])
    case Impl(i) => Collected([], [], [], [], OptionToSeq(ImplOf(i)))
    case Mod(_, hasBody, content) => if hasBody then Walk(content) else Empty
    case OtherItem => Empty
  }

  // ----- The visitor -----

  /** `SnapshotVisitor`: five lists, each appended to by one visit method. */
  class SnapshotVisitor {
    var functions: seq<FunctionSnapshot>
    var structs: seq<StructSnapshot>
    var traits: seq<TraitSnapshot>
    var enums: seq<EnumSnapshot>
    var impls: seq<ImplSnapshot>

    /** The lists as one value. */
    function Lists(): Collected
      reads this
    {
      Collected(functions, structs, traits, enums, impls)
    }

    /** `SnapshotVisitor::default()`: all five lists empty. */
    constructor ()
      ensures Lists() == Empty
    {
      functions, structs, traits, enums, impls := [], [], [], [], [];
    }

    method VisitItemFn(node: ItemFn)
      modifies this
      ensures functions == old(functions) + [FunctionOf(node)]
      ensures structs == old(structs) && traits == old(traits) && enums == old(enums) && impls == old(impls)
    {
      var args: seq<string> := [];
      for i := 0 to |node.inputs|
        invariant args == ArgNames(node.inputs[..i])
      {
        assert node.inputs[..i + 1][..i] == node.inputs[..i];
        var input := node.inputs[i];
        if input.Typed? {
          if input.pat.PatIdent? {
            args := args + [input.pat.ident];
          }
        }
      }
      assert node.inputs[..|node.inputs|] == node.inputs;

      var variables: seq<(string, Option<string>)> := [];
      for i := 0 to |node.stmts|
        invariant variables == Variables(node.stmts[..i])
      {
        assert node.stmts[..i + 1][..i] == node.stmts[..i];
        var stmt := node.stmts[i];
        if stmt.Local? {
          var pat, ty;
          if stmt.pat.PatType? {
            pat, ty := stmt.pat.pat, Some(stmt.pat.ty);
          } else {
            pat, ty := stmt.pat, None;
          }
          if pat.PatIdent? {
            variables := variables + [(pat.ident, ty)];
          }
        }
      }
      assert node.stmts[..|node.stmts|] == node.stmts;
      functions := functions + [FunctionSnapshot(node.ident, args, variables)];
    }

    method VisitItemStruct(node: ItemStruct)
      modifies this
      ensures structs == old(structs) + [StructOf(node)]
      ensures functions == old(functions) && traits == old(traits) && enums == old(enums) && impls == old(impls)
    {
      var fields: seq<string> := [];
      if node.fields.Named? {
        var named := node.fields.named;
        for i := 0 to |named|
          invariant fields == NamedFieldNames(named[..i])
        {
          assert named[..i + 1][..i] == named[..i];
          if named[i].ident.Some? {
            fields := fields + [named[i].ident.value];
          }
        }
        assert named[..|named|] == named;
      }
      structs := structs + [StructSnapshot(node.ident, fields, [])];
    }

    method VisitItemTrait(node: ItemTrait)
      modifies this
      ensures traits == old(traits) + [TraitOf(node)]
      ensures functions == old(functions) && structs == old(structs) && enums == old(enums) && impls == old(impls)
    {
      var methods: seq<string> := [];
      for i := 0 to |node.items|
        invariant methods == TraitMethods(node.items[..i])
      {
        assert node.items[..i + 1][..i] == node.items[..i];
        if node.items[i].TraitFn? {
          methods := methods + [node.items[i].ident];
        }
      }
      assert node.items[..|node.items|] == node.items;
      traits := traits + [TraitSnapshot(node.ident, methods)];
    }

    method VisitItemEnum(node: ItemEnum)
      modifies this
      ensures enums == old(enums) + [EnumOf(node)]
      ensures functions == old(functions) && structs == old(structs) && traits == old(traits) && impls == old(impls)
    {
      var variants: seq<string> := [];
      for i := 0 to |node.variants|
        invariant variants == node.variants[..i]
      {
        variants := variants + [node.variants[i]];
      }
      assert node.variants[..|node.variants|] == node.variants;
      enums := enums + [EnumSnapshot(node.ident, variants, [])];
    }

    method VisitItemImpl(node: ItemImpl)
      modifies this
      ensures impls == old(impls) + OptionToSeq(ImplOf(node))
      ensures functions == old(functions) && structs == old(structs) && traits == old(traits) && enums == old(enums)
    {
      var forType := if node.selfTy.TypePath? then node.selfTy.path.GetIdent() else None;
      var traitName := if node.traitPath.Some? then node.traitPath.value.LastIdent() else None;
      var methods: seq<string> := [];
      for i := 0 to |node.items|
        invariant methods == ImplMethods(node.items[..i])
      {
        assert node.items[..i + 1][..i] == node.items[..i];
        if node.items[i].ImplFn? {
          methods := methods + [node.items[i].ident];
        }
      }
      assert node.items[..|node.items|] == node.items;
      if forType.Some? {
        impls := impls + [ImplSnapshot(forType.value, traitName, methods)];
      }
    }

    /** `visit_file`: visits every item in order. */
    method VisitItems(items: seq<Item>)
      modifies this
      ensures Lists() == old(Lists()).Then(Walk(items))
      decreases items, 0
    {
      for i := 0 to |items|
        invariant Lists() == old(Lists()).Then(Walk(items[..i]))
      {
        VisitItem(items[i]);
        WalkStep(items, i);
        old(Lists()).ThenAssociative(Walk(items[..i]), VisitOf(items[i]));
      }
      assert items[..|items|] == items;
    }

    /** `visit_item`: dispatches on the kind of item, descending into inline module bodies. */
    method VisitItem(item: Item)
      modifies this
      ensures Lists() == old(Lists()).Then(VisitOf(item))
      decreases item, 1
    {
      match item {
        case Fn(f) => VisitItemFn(f);
        case Struct(s) => VisitItemStruct(s);
        case Trait(t) => VisitItemTrait(t);
        case Enum(e) => VisitItemEnum(e);
        case Impl(im) => VisitItemImpl(im);
        case Mod(_, hasBody, content) =>
          if hasBody {
            VisitItems(content);
          } else {
            Lists().ThenEmpty();
          }
        case OtherItem =>
          Lists().ThenEmpty();
      }
    }
  }

  // ----- Properties of the extraction -----

  lemma {:induction false} ArgNamesAppend(a: seq<FnArg>, b: seq<FnArg>)
    ensures ArgNames(a + b) == ArgNames(a) + ArgNames(b)
    decreases |b|
  {
    if b == [] {
      assert a + b == a;
    } else {
      var init, last := b[..|b| - 1], b[|b| - 1];
      assert ArgNames(a + b) == ArgNames(a + init) + OptionToSeq(ArgName(last)) by {
        assert (a + b)[..|a + b| - 1] == a + init;
        assert (a + b)[|a + b| - 1] == last;
      }
      ArgNamesAppend(a, init);
    }
  }

  /** A name is an argument exactly when some input is a typed, bare-identifier pattern with that name. */
  lemma {:induction false} ArgNamesMembership(inputs: seq<FnArg>, x: string)
    ensures x in ArgNames(inputs) <==> exists i :: 0 <= i < |inputs| && inputs[i] == Typed(PatIdent(x))
    ensures |ArgNames(inputs)| <= |inputs|
  {
    if inputs != [] {
      var n := |inputs| - 1;
      ArgNamesMembership(inputs[..n], x);
      if x in ArgNames(inputs) && x !in ArgNames(inputs[..n]) {
        assert inputs[n] == Typed(PatIdent(x));
      }
      if exists i :: 0 <= i < |inputs| && inputs[i] == Typed(PatIdent(x)) {
        var i :| 0 <= i < |inputs| && inputs[i] == Typed(PatIdent(x));
        if i < n {
          assert inputs[..n][i] == inputs[i];
        }
      }
    }
  }

  /** A binding's type text is present exactly when the `let` carried a type annotation. */
  lemma LocalBindingType(stmt: Stmt)
    requires LocalBinding(stmt).Some?
    ensures stmt.Local?
    ensures LocalBinding(stmt).value.1.Some? <==> stmt.pat.PatType?
    ensures stmt.pat.PatType? ==> stmt.pat.pat == PatIdent(LocalBinding(stmt).value.0)
                                  && LocalBinding(stmt).value.1 == Some(stmt.pat.ty)
    ensures !stmt.pat.PatType? ==> stmt.pat == PatIdent(LocalBinding(stmt).value.0)
  {
  }

  /** The variables are exactly the bindings of the body's top-level `let` statements. */
  lemma {:induction false} VariablesMembership(stmts: seq<Stmt>, v: (string, Option<string>))
    ensures v in Variables(stmts) <==> exists i :: 0 <= i < |stmts| && LocalBinding(stmts[i]) == Some(v)
    ensures |Variables(stmts)| <= |stmts|
  {
    if stmts != [] {
      var n := |stmts| - 1;
      VariablesMembership(stmts[..n], v);
      if exists i :: 0 <= i < |stmts| && LocalBinding(stmts[i]) == Some(v) {
        var i :| 0 <= i < |stmts| && LocalBinding(stmts[i]) == Some(v);
        if i < n {
          assert stmts[..n][i] == stmts[i];
        }
      }
    }
  }

  /** Named fields keep their order and every named field with an identifier is listed. */
  lemma {:induction false} NamedFieldNamesAllNamed(named: seq<Field>)
    requires forall i :: 0 <= i < |named| ==> named[i].ident.Some?
    ensures |NamedFieldNames(named)| == |named|
    ensures forall i :: 0 <= i < |named| ==> NamedFieldNames(named)[i] == named[i].ident.value
  {
    if named != [] {
      NamedFieldNamesAllNamed(named[..|named| - 1]);
    }
  }

  lemma {:induction false} WalkAppend(a: seq<Item>, b: seq<Item>)
    ensures Walk(a + b) == Walk(a).Then(Walk(b))
    decreases |b|
  {
    if b == [] {
      assert a + b == a;
    } else {
      WalkAppend(a, b[..|b| - 1]);
      assert (a + b)[..|a + b| - 1] == a + b[..|b| - 1];
      Walk(a).ThenAssociative(Walk(b[..|b| - 1]), VisitOf(b[|b| - 1]));
    }
  }

  /** An inline module is transparent: its items land in the same lists, in place. */
  lemma InlineModuleFlattens(before: seq<Item>, name: string, body: seq<Item>, after: seq<Item>)
    ensures Walk(before + [Mod(name, true, body)] + after) == Walk(before + body + after)
  {
    WalkAppend(before + [Mod(name, true, body)], after);
    WalkAppend(before, [Mod(name, true, body)]);
    WalkAppend(before + body, after);
    WalkAppend(before, body);
  }

  /** A body-less `mod m;` contributes nothing to the file's own snapshot. */
  lemma BodylessModuleInvisible(before: seq<Item>, name: string, content: seq<Item>, after: seq<Item>)
    ensures Walk(before + [Mod(name, false, content)] + after) == Walk(before + after)
  {
    var m := Mod(name, false, content);
    assert [m][..0] == [];
    assert Walk([m]) == Empty;
    WalkAppend(before + [m], after);
    WalkAppend(before, [m]);
    Walk(before).ThenEmpty();
    WalkAppend(before, after);
  }

  /** The unit test `test_function_extraction`: `fn my_func() { let x = 10; }`. */
  lemma FunctionExtractionExample()
    ensures Walk([Fn(ItemFn("my_func", [], [Local(PatIdent("x"))]))]).functions
            == [FunctionSnapshot("my_func", [], [("x", None)])]
  {
    var f := ItemFn("my_func", [], [Local(PatIdent("x"))]);
    assert [Fn(f)][..0] == [];
    assert [Local(PatIdent("x"))][..0] == [];
    assert Variables(f.stmts) == [("x", None)];
    assert Walk([Fn(f)]) == Empty.Then(VisitOf(Fn(f)));
  }

  /** The unit test `test_struct_extraction`: a struct with two named fields. */
  lemma StructExtractionExample()
    ensures Walk([Struct(ItemStruct("MyStruct", Named([Field(Some("field1")), Field(Some("field2"))])))]).structs
            == [StructSnapshot("MyStruct", ["field1", "field2"], [])]
  {
    var named := [Field(Some("field1")), Field(Some("field2"))];
    assert named[..1] == [Field(Some("field1"))];
    assert named[..1][..0] == [];
    assert NamedFieldNames(named) == ["field1", "field2"];
    var item := Struct(ItemStruct("MyStruct", Named(named)));
    assert [item][..0] == [];
    assert Walk([item]) == Empty.Then(VisitOf(item));
  }
}

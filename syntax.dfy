/**
 * The part of the syntax tree of a parsed Rust file that the snapshot
 * visitor and the module resolver look at.  Everything else a parser
 * produces is folded into the `Other...` alternatives.
 */
module Syntax {
  import opened Wrappers

  /** A pattern: a bare identifier (`x`, `mut x`, `ref x`), a type-annotated
      pattern (`p: T`, with the type's token text), or anything else (tuple, struct, wildcard, ...). */
  datatype Pat = PatIdent(ident: string) | PatType(pat: Pat, ty: string) | PatOther

  /** A function input: a `self` receiver, or a typed pattern. */
  datatype FnArg = Receiver | Typed(pat: Pat)

  /** A statement of a function body: a `let` binding, or anything else. */
  datatype Stmt = Local(pat: Pat) | OtherStmt

  datatype Field = Field(ident: Option<string>)

  /** The fields of a struct: braced named fields, a tuple struct, or a unit struct. */
  datatype Fields = Named(named: seq<Field>) | Unnamed | Unit

  /** A path segment and whether it carries generic arguments (`Vec<T>`). */
  datatype PathSegment = PathSegment(ident: string, hasArguments: bool)

  datatype SynPath = SynPath(leadingColon: bool, segments: seq<PathSegment>) {
    /** `Path::get_ident`: the identifier, when the path is exactly one
        argument-free segment with no leading `::`. */
    function GetIdent(): (r: Option<string>)
      ensures r.Some? <==> !leadingColon && |segments| == 1 && !segments[0].hasArguments
      ensures r.Some? ==> r.value == segments[0].ident
    {
      if !leadingColon && |segments| == 1 && !segments[0].hasArguments
      then Some(segments[0].ident) else None
    }

    /** The identifier of the last segment, when there is one. */
    function LastIdent(): (r: Option<string>)
      ensures r.Some? <==> segments != []
      ensures r.Some? ==> r.value == segments[|segments| - 1].ident
    {
      if segments == [] then None else Some(segments[|segments| - 1].ident)
    }
  }

  /** A type: a path type, or anything else (references, tuples, slices, ...). */
  datatype Type = TypePath(path: SynPath) | OtherType

  datatype TraitItem = TraitFn(ident: string) | OtherTraitItem
  datatype ImplItem = ImplFn(ident: string) | OtherImplItem

  datatype ItemFn = ItemFn(ident: string, inputs: seq<FnArg>, stmts: seq<Stmt>)
  datatype ItemStruct = ItemStruct(ident: string, fields: Fields)
  datatype ItemTrait = ItemTrait(ident: string, items: seq<TraitItem>)
  datatype ItemEnum = ItemEnum(ident: string, variants: seq<string>)
  /** `impl [Trait for] SelfTy { items }` */
  datatype ItemImpl = ItemImpl(selfTy: Type, traitPath: Option<SynPath>, items: seq<ImplItem>)

  /** A top-level item.  A module declared without a body (`mod m;`) has
      `hasBody == false` and no content; an inline `mod m { items }` has
      `hasBody == true` and its items as `content`. */
  datatype Item =
    | Fn(fn_: ItemFn)
    | Struct(struct_: ItemStruct)
    | Trait(trait_: ItemTrait)
    | Enum(enum_: ItemEnum)
    | Impl(impl_: ItemImpl)
    | Mod(ident: string, hasBody: bool, content: seq<Item>)
    | OtherItem

  /** A parsed file is its sequence of items. */
  type File = seq<Item>
}

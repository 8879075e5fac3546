/** The per-file structural snapshot (src/types.rs). */
module Types {
  import opened Wrappers

  /** A free function: its name, the names of its identifier-bound parameters,
      and its identifier-bound `let` bindings, each with the text of its type annotation if any. */
  datatype FunctionSnapshot = FunctionSnapshot(
    name: string,
    args: seq<string>,
    variables: seq<(string, Option<string>)>)

  /** A struct: its named fields, and the methods merged in from same-file impl blocks. */
  datatype StructSnapshot = StructSnapshot(name: string, fields: seq<string>, methods: seq<string>)

  /** A trait and the names of the functions it declares. */
  datatype TraitSnapshot = TraitSnapshot(name: string, methods: seq<string>)

  /** An enum: its variant names, and the methods merged in from same-file impl blocks. */
  datatype EnumSnapshot = EnumSnapshot(name: string, variants: seq<string>, methods: seq<string>)

  /** An impl block: the bare type it is for, the trait it implements (if any), its method names. */
  datatype ImplSnapshot = ImplSnapshot(forType: string, traitName: Option<string>, methods: seq<string>)

  /** One file: its path and the five ordered declaration lists. */
  datatype RustFileSnapshot = RustFileSnapshot(
    path: string,
    functions: seq<FunctionSnapshot>,
    structs: seq<StructSnapshot>,
    traits: seq<TraitSnapshot>,
    enums: seq<EnumSnapshot>,
    impls: seq<ImplSnapshot>)
}

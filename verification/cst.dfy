/** The part of the SDL parser's concrete syntax tree that federation-version
    detection walks. The parser itself is an external collaborator: it is a
    `Parser` value passed to whoever needs it. Like the real parser it is
    error tolerant, so every text yields a document, possibly alongside
    syntax errors. */
module Cst {
  import opened Wrappers

  datatype Argument = Argument(name: string, value: string)

  /** A directive application `@name(args)`. The parser may fail to recover a
      name from malformed text, hence the optional name. */
  datatype Directive = Directive(name: Option<string>, arguments: seq<Argument>)

  /** The top-level definition kinds of a GraphQL document (the October 2021
      GraphQL specification, section 2.2 and section 3). */
  datatype DefinitionKind =
    | OperationDefinition
    | FragmentDefinition
    | DirectiveDefinition
    | SchemaDefinition
    | ScalarTypeDefinition
    | ObjectTypeDefinition
    | InterfaceTypeDefinition
    | UnionTypeDefinition
    | EnumTypeDefinition
    | InputObjectTypeDefinition
    | SchemaExtension
    | ScalarTypeExtension
    | ObjectTypeExtension
    | InterfaceTypeExtension
    | UnionTypeExtension
    | EnumTypeExtension
    | InputObjectTypeExtension
  {
    /** `schema { … }` and `extend schema …` (section 3.3 of the GraphQL
        specification). */
    predicate IsSchemaLevel() {
      SchemaDefinition? || SchemaExtension?
    }
  }

  /** A field (or enum value, input value, …) nested inside a definition,
      with its own directive list. */
  datatype FieldDefinition = FieldDefinition(name: string, directives: Option<seq<Directive>>)

  /** A top-level definition: its kind, its own directive list when the text
      has one, and its nested fields. */
  datatype Definition = Definition(kind: DefinitionKind, directives: Option<seq<Directive>>, fields: seq<FieldDefinition>)

  datatype Document = Document(definitions: seq<Definition>)

  datatype SyntaxTree = SyntaxTree(document: Document, errors: seq<string>)

  type Parser = string -> SyntaxTree
}

/** A subgraph resolved down to SDL text. The builder `New` always derives
    the federation-version flag from the text; this model takes `New` as the
    only way to build one and `UpdateSchema` as the only way to change one,
    although the source's field visibility would let code elsewhere in the
    crate do either directly. */
module Subgraph {
  import opened Wrappers
  import opened Cst
  import opened Config
  import opened LinkDetection

  datatype FullyResolvedSubgraph = FullyResolvedSubgraph(
    name: string,
    routingUrl: Option<string>,
    schema: string,
    schemaSource: SchemaSource,
    isFedTwo: bool)

  /** The derived-field invariant: the flag is the detector's verdict on the
      current schema text. */
  ghost predicate Consistent(parse: Parser, s: FullyResolvedSubgraph) {
    s.isFedTwo == SchemaContainsLinkDirective(parse, s.schema)
  }

  /** The builder: stores its four inputs unchanged and sets the flag iff
      the parsed schema declares `@link` at schema level. */
  function New(parse: Parser, name: string, schema: string, routingUrl: Option<string>, schemaSource: SchemaSource)
    : (s: FullyResolvedSubgraph)
    ensures s.name == name && s.schema == schema
    ensures s.routingUrl == routingUrl && s.schemaSource == schemaSource
    ensures s.isFedTwo <==> DeclaresLink(parse(schema).document)
    ensures Consistent(parse, s)
  {
    var isFedTwo := SchemaContainsLinkDirective(parse, schema);
    FullyResolvedSubgraph(name, routingUrl, schema, schemaSource, isFedTwo)
  }

  /** No other way to the flag: a subgraph value satisfies the invariant
      exactly when it is what the builder makes of its other fields. */
  lemma ConsistentIffBuilt(parse: Parser, s: FullyResolvedSubgraph)
    ensures Consistent(parse, s) <==> s == New(parse, s.name, s.schema, s.routingUrl, s.schemaSource)
  {
  }

  /** Replaces the schema text and nothing else; the flag is not
      recomputed. */
  function UpdateSchema(s: FullyResolvedSubgraph, schema: string): (u: FullyResolvedSubgraph)
    ensures u.schema == schema
    ensures u.name == s.name && u.routingUrl == s.routingUrl
    ensures u.schemaSource == s.schemaSource && u.isFedTwo == s.isFedTwo
  {
    s.(schema := schema)
  }

  /** After an update the invariant holds exactly when the new text gets the
      flag's old value from the detector: replacing a federation v2 schema
      by one without `@link` (or the reverse) leaves a stale flag. */
  lemma UpdateSchemaMayGoStale(parse: Parser, s: FullyResolvedSubgraph, schema: string)
    requires Consistent(parse, s)
    ensures Consistent(parse, UpdateSchema(s, schema))
        <==> (DeclaresLink(parse(schema).document) <==> DeclaresLink(parse(s.schema).document))
  {
  }

  /** The lossy conversion into a configuration record: the routing URL is
      kept, the schema becomes an inline SDL source carrying the resolved
      text, and the name, origin and flag are dropped. */
  function ToSubgraphConfig(s: FullyResolvedSubgraph): (c: SubgraphConfig)
    ensures c.routingUrl == s.routingUrl
    ensures c.schema.Sdl? && c.schema.sdl == s.schema
  {
    SubgraphConfig(s.routingUrl, Sdl(s.schema))
  }
}

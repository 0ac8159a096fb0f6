/** Types the resolution core receives from the configuration layer and the
    error currency every resolver shares. */
module Config {
  import opened Wrappers

  /** A path as written in the configuration. A Dafny string holds only
      Unicode text; whether the platform path it stands for is valid UTF-8
      is decided by the `isUtf8` conversion the dispatcher is given. */
  type PathBuf = string

  /** A path known to be valid UTF-8; the conversion keeps the text. */
  type Utf8Path = string

  type Headers = map<string, string>

  /** A registry graph reference, `name@variant`. */
  datatype GraphRef = GraphRef(name: string, variant: string)

  /** Where a subgraph's schema comes from. */
  datatype SchemaSource =
    | File(file: PathBuf)
    | SubgraphIntrospection(subgraphUrl: string, introspectionHeaders: Option<Headers>)
    | Subgraph(graphref: string, subgraph: string)
    | Sdl(sdl: string)

  /** The persistable per-subgraph configuration record. */
  datatype SubgraphConfig = SubgraphConfig(routingUrl: Option<string>, schema: SchemaSource)

  /** A configured subgraph before resolution. */
  datatype UnresolvedSubgraph = UnresolvedSubgraph(name: string, schema: SchemaSource, routingUrl: Option<string>)

  /** Pairs a configuration record with the subgraph name it is keyed by. */
  function FromConfig(name: string, config: SubgraphConfig): (u: UnresolvedSubgraph)
    ensures u.name == name && u.schema == config.schema && u.routingUrl == config.routingUrl
  {
    UnresolvedSubgraph(name, config.schema, config.routingUrl)
  }

  /** The description of an underlying failure a variant wraps. */
  type Cause = string

  /** The errors the resolution core raises, plus the errors its
      collaborators raise, which it passes through as they are. */
  datatype ResolveSubgraphError =
    | InvalidPath(path: PathBuf)
    | Fs(cause: Cause)
    | InvalidGraphRef(graphRef: string, cause: Cause)
    | ServiceReady(cause: Cause)
    | FetchRemoteSdlError(subgraphName: string, cause: Cause)
    /** Raised by a collaborator outside this core and passed through
        unchanged. */
    | External(cause: Cause)
}

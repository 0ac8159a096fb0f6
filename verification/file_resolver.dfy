/** The resolver for file-based subgraphs. The filesystem is a map from path
    to read result, and resolving the configured path against the
    configuration root is a capability of the unresolved subgraph that is
    passed in as a function. */
module FileResolver {
  import opened Wrappers
  import opened Cst
  import opened Config
  import opened LinkDetection
  import opened Subgraph

  /** What reading each path yields: the file's text or an I/O failure. */
  type FileSystem = map<Utf8Path, Result<string, Cause>>

  /** Resolves `path` against the configuration root on behalf of the
      unresolved subgraph. */
  type PathResolver = (UnresolvedSubgraph, Utf8Path, Utf8Path) -> Result<Utf8Path, ResolveSubgraphError>

  /** The cause reported for a path the filesystem does not hold. */
  const NotFound: Cause := "No such file or directory"

  function ReadFile(fs: FileSystem, path: Utf8Path): (r: Result<string, Cause>)
    ensures path in fs ==> r == fs[path]
    ensures path !in fs ==> r == Err(NotFound)
  {
    if path in fs then fs[path] else Err(NotFound)
  }

  datatype ResolveFileSubgraph = ResolveFileSubgraph(
    supergraphConfigRoot: Utf8Path,
    path: Utf8Path,
    unresolvedSubgraph: UnresolvedSubgraph)

  /** There is nothing to wait for: the resolver is always ready. */
  function PollReady(f: ResolveFileSubgraph): (r: Result<(), ResolveSubgraphError>)
    ensures r.Ok?
  {
    Ok(())
  }

  /** One call: resolve the path, read the file, build the subgraph from the
      configured name, the file's text and the configured source, adding the
      routing URL only when one was declared. */
  function Call(parse: Parser, resolvePath: PathResolver, fs: FileSystem, f: ResolveFileSubgraph)
    : (r: Result<FullyResolvedSubgraph, ResolveSubgraphError>)
    ensures
      var resolved := resolvePath(f.unresolvedSubgraph, f.supergraphConfigRoot, f.path);
      && (resolved.Err? ==> r == Err(resolved.error))
      && (resolved.Ok? && ReadFile(fs, resolved.value).Err? ==> r == Err(Fs(ReadFile(fs, resolved.value).error)))
      && (r.Ok? <==> resolved.Ok? && ReadFile(fs, resolved.value).Ok?)
      && (r.Ok? ==>
            && r.value.schema == ReadFile(fs, resolved.value).value
            && r.value.name == f.unresolvedSubgraph.name
            && r.value.schemaSource == f.unresolvedSubgraph.schema
            && r.value.routingUrl == f.unresolvedSubgraph.routingUrl
            && (r.value.isFedTwo <==> DeclaresLink(parse(r.value.schema).document)))
  {
    var unresolved := f.unresolvedSubgraph;
    var file :- resolvePath(unresolved, f.supergraphConfigRoot, f.path);
    var schema :- ReadFile(fs, file).MapErr(cause => Fs(cause));
    Ok(New(parse, unresolved.name, schema, unresolved.routingUrl, unresolved.schema))
  }

  /** A call reads the resolved file and nothing else: two filesystems that
      agree on that one path give equal results, so repeated calls against
      an unchanged filesystem are equal. */
  lemma CallReadsOnlyResolvedFile(parse: Parser, resolvePath: PathResolver, fs1: FileSystem, fs2: FileSystem, f: ResolveFileSubgraph)
    requires
      var resolved := resolvePath(f.unresolvedSubgraph, f.supergraphConfigRoot, f.path);
      resolved.Ok? ==> ReadFile(fs1, resolved.value) == ReadFile(fs2, resolved.value)
    ensures Call(parse, resolvePath, fs1, f) == Call(parse, resolvePath, fs2, f)
  {
  }
}

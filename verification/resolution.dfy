/** The resolution dispatcher: turns an unresolved subgraph into one resolver
    of a closed set of kinds, all driven through the same two operations,
    `Ready` and `Call`. The introspection and registry-fetch machinery are
    external: their factories and the services they make are oracles. */
module Resolution {
  import opened Wrappers
  import opened Cst
  import opened Config
  import opened LinkDetection
  import opened Subgraph
  import FileResolver

  /** A service made by an external factory, known only by identity. */
  datatype Handle = Handle(id: nat)

  /** What the introspection factory is asked to build a resolver for. */
  datatype IntrospectRequest = IntrospectRequest(
    headers: Headers,
    endpoint: string,
    routingUrl: Option<string>,
    subgraphName: string)

  /** The introspection factory: its readiness verdict and what it makes of
      each request. Its errors are already resolution errors. */
  datatype IntrospectFactory = IntrospectFactory(
    ready: Result<(), ResolveSubgraphError>,
    make: IntrospectRequest -> Result<Handle, ResolveSubgraphError>)

  /** The remote-fetch factory: its readiness verdict and the fetch service
      it makes; its failures are bare causes. */
  datatype FetchFactory = FetchFactory(ready: Result<(), Cause>, make: Result<Handle, Cause>)

  /** The registry resolver: a fetch service plus what it needs to find the
      subgraph in the registry. */
  datatype RemoteResolver = RemoteResolver(
    graphRef: GraphRef,
    subgraphName: string,
    routingUrl: Option<string>,
    inner: Handle)

  datatype Resolver =
    | FileR(file: FileResolver.ResolveFileSubgraph)
    | IntrospectR(service: Handle)
    | RemoteR(remote: RemoteResolver)
    | SdlR(unresolved: UnresolvedSubgraph, sdl: string)

  /** Conversions whose definitions are outside the core: whether a
      configured path is valid UTF-8 (a path that is converts to itself)
      and parsing of a graph reference. */
  datatype Conversions = Conversions(
    isUtf8: PathBuf -> bool,
    parseGraphRef: string -> Result<GraphRef, Cause>)

  /** Chooses and builds the resolver for `u` by its schema source. */
  function ResolverFor(
    introspect: IntrospectFactory,
    fetch: FetchFactory,
    conv: Conversions,
    supergraphConfigRoot: Utf8Path,
    u: UnresolvedSubgraph): (r: Result<Resolver, ResolveSubgraphError>)
    // File: only the path conversion can fail, and it fails before any resolver exists.
    ensures u.schema.File? && !conv.isUtf8(u.schema.file) ==> r == Err(InvalidPath(u.schema.file))
    ensures u.schema.File? && conv.isUtf8(u.schema.file) ==>
      r == Ok(FileR(FileResolver.ResolveFileSubgraph(supergraphConfigRoot, u.schema.file, u)))
    // Introspection: absent headers become empty; name and routing URL pass through;
    // factory errors come back unchanged, readiness first.
    ensures u.schema.SubgraphIntrospection? ==>
      var request := IntrospectRequest(
        u.schema.introspectionHeaders.UnwrapOr(map[]), u.schema.subgraphUrl, u.routingUrl, u.name);
      && (introspect.ready.Err? ==> r == Err(introspect.ready.error))
      && (introspect.ready.Ok? ==>
            match introspect.make(request)
            case Err(e) => r == Err(e)
            case Ok(h) => r == Ok(IntrospectR(h)))
    // Registry: graph ref, then readiness, then the fetch service; the first failure wins.
    ensures u.schema.Subgraph? ==>
      var graphRef := conv.parseGraphRef(u.schema.graphref);
      && (graphRef.Err? ==> r == Err(InvalidGraphRef(u.schema.graphref, graphRef.error)))
      && (graphRef.Ok? && fetch.ready.Err? ==> r == Err(ServiceReady(fetch.ready.error)))
      && (graphRef.Ok? && fetch.ready.Ok? && fetch.make.Err? ==>
            r == Err(FetchRemoteSdlError(u.schema.subgraph, fetch.make.error)))
      && (r.Ok? <==> graphRef.Ok? && fetch.ready.Ok? && fetch.make.Ok?)
      && (r.Ok? ==> r.value == RemoteR(RemoteResolver(graphRef.value, u.schema.subgraph, u.routingUrl, fetch.make.value)))
    // Inline SDL: never fails.
    ensures u.schema.Sdl? ==> r == Ok(SdlR(u, u.schema.sdl))
  {
    match u.schema
    case File(file) =>
      if !conv.isUtf8(file) then Err(InvalidPath(file))
      else Ok(FileR(FileResolver.ResolveFileSubgraph(supergraphConfigRoot, file, u)))
    case SubgraphIntrospection(subgraphUrl, introspectionHeaders) =>
      var request := IntrospectRequest(introspectionHeaders.UnwrapOr(map[]), subgraphUrl, u.routingUrl, u.name);
      var _ :- introspect.ready;
      var service :- introspect.make(request);
      Ok(IntrospectR(service))
    case Subgraph(graphref, subgraph) =>
      var graphRef :- conv.parseGraphRef(graphref).MapErr(cause => InvalidGraphRef(graphref, cause));
      var _ :- fetch.ready.MapErr(cause => ServiceReady(cause));
      var service :- fetch.make.MapErr(cause => FetchRemoteSdlError(subgraph, cause));
      Ok(RemoteR(RemoteResolver(graphRef, subgraph, u.routingUrl, service)))
    case Sdl(sdl) =>
      Ok(SdlR(u, sdl))
  }

  /** The inline-SDL resolver's call: no I/O, never fails, and builds the
      subgraph from the literal text and the configured name and routing
      URL, with the source echoed as inline SDL. */
  function CallSdl(parse: Parser, u: UnresolvedSubgraph, sdl: string): (r: Result<FullyResolvedSubgraph, ResolveSubgraphError>)
    ensures r.Ok?
    ensures r.value.name == u.name && r.value.schema == sdl
    ensures r.value.schemaSource == Sdl(sdl) && r.value.routingUrl == u.routingUrl
    ensures r.value.isFedTwo <==> DeclaresLink(parse(sdl).document)
  {
    Ok(New(parse, u.name, sdl, u.routingUrl, Sdl(sdl)))
  }

  /** What the services made by the external factories answer. */
  datatype Externals = Externals(
    serviceReady: Handle -> Result<(), ResolveSubgraphError>,
    serviceCall: Handle -> Result<FullyResolvedSubgraph, ResolveSubgraphError>,
    remoteReady: RemoteResolver -> Result<(), ResolveSubgraphError>,
    remoteCall: RemoteResolver -> Result<FullyResolvedSubgraph, ResolveSubgraphError>)

  /** Everything a call may observe: the filesystem, path resolution and
      the external services. */
  datatype World = World(fs: FileResolver.FileSystem, resolvePath: FileResolver.PathResolver, externals: Externals)

  /** The readiness check every resolver offers. File and inline-SDL
      resolvers are always ready. */
  function Ready(world: World, r: Resolver): (ready: Result<(), ResolveSubgraphError>)
    ensures r.FileR? || r.SdlR? ==> ready.Ok?
    ensures r.IntrospectR? ==> ready == world.externals.serviceReady(r.service)
    ensures r.RemoteR? ==> ready == world.externals.remoteReady(r.remote)
  {
    match r
    case FileR(f) => FileResolver.PollReady(f)
    case IntrospectR(h) => world.externals.serviceReady(h)
    case RemoteR(remote) => world.externals.remoteReady(remote)
    case SdlR(_, _) => Ok(())
  }

  /** The single call every resolver offers. An inline-SDL call cannot
      fail and yields its literal text. A file call reads the resolved
      path: a resolution error comes back unchanged, a read failure becomes
      `Fs`, and otherwise the schema is that file's text. Both keep the
      configured name and routing URL, and their flag is the detector's
      verdict. The other two kinds answer what their external service
      answers. */
  function Call(parse: Parser, world: World, r: Resolver): (result: Result<FullyResolvedSubgraph, ResolveSubgraphError>)
    ensures r.SdlR? ==>
      && result.Ok? && result.value.schema == r.sdl && result.value.name == r.unresolved.name
      && result.value.schemaSource == Sdl(r.sdl) && result.value.routingUrl == r.unresolved.routingUrl
    ensures r.FileR? ==>
      var resolved := world.resolvePath(r.file.unresolvedSubgraph, r.file.supergraphConfigRoot, r.file.path);
      && (resolved.Err? ==> result == Err(resolved.error))
      && (resolved.Ok? && FileResolver.ReadFile(world.fs, resolved.value).Err? ==>
            result == Err(Fs(FileResolver.ReadFile(world.fs, resolved.value).error)))
      && (result.Ok? <==> resolved.Ok? && FileResolver.ReadFile(world.fs, resolved.value).Ok?)
      && (result.Ok? ==> result.value.schema == FileResolver.ReadFile(world.fs, resolved.value).value)
    ensures r.FileR? && result.Ok? ==>
      && result.value.name == r.file.unresolvedSubgraph.name
      && result.value.schemaSource == r.file.unresolvedSubgraph.schema
      && result.value.routingUrl == r.file.unresolvedSubgraph.routingUrl
    ensures (r.FileR? || r.SdlR?) && result.Ok? ==> Consistent(parse, result.value)
    ensures r.IntrospectR? ==> result == world.externals.serviceCall(r.service)
    ensures r.RemoteR? ==> result == world.externals.remoteCall(r.remote)
  {
    match r
    case FileR(f) => FileResolver.Call(parse, world.resolvePath, world.fs, f)
    case IntrospectR(h) => world.externals.serviceCall(h)
    case RemoteR(remote) => world.externals.remoteCall(remote)
    case SdlR(u, sdl) => CallSdl(parse, u, sdl)
  }

  /** File and inline-SDL resolvers never consult the external services:
      replacing them leaves every call's result unchanged. */
  lemma LocalResolversIgnoreExternals(parse: Parser, world: World, other: Externals, r: Resolver)
    requires r.FileR? || r.SdlR?
    ensures Call(parse, world, r) == Call(parse, world.(externals := other), r)
    ensures Ready(world, r) == Ready(world.(externals := other), r)
  {
  }

  /** The external services build their results through `New` as well. */
  ghost predicate ExternalsBuildConsistently(parse: Parser, ext: Externals) {
    && (forall h :: ext.serviceCall(h).Ok? ==> Consistent(parse, ext.serviceCall(h).value))
    && (forall rr :: ext.remoteCall(rr).Ok? ==> Consistent(parse, ext.remoteCall(rr).value))
  }

  /** Whatever resolver the dispatcher returns, every subgraph it yields
      satisfies the derived-flag invariant. For file and inline-SDL sources
      this needs no premise; for introspection and registry sources it
      holds provided the external services also build through `New`. */
  lemma EveryResolvedSubgraphConsistent(
    parse: Parser, world: World, introspect: IntrospectFactory, fetch: FetchFactory,
    conv: Conversions, root: Utf8Path, u: UnresolvedSubgraph)
    requires u.schema.SubgraphIntrospection? || u.schema.Subgraph? ==> ExternalsBuildConsistently(parse, world.externals)
    requires ResolverFor(introspect, fetch, conv, root, u).Ok?
    ensures
      var result := Call(parse, world, ResolverFor(introspect, fetch, conv, root, u).value);
      result.Ok? ==> Consistent(parse, result.value)
  {
  }

  /** Inline SDL performs no I/O: its readiness and its result are the same
      in every world, so any number of calls give the same value. */
  lemma SdlResolutionIsPure(
    parse: Parser, w1: World, w2: World, introspect: IntrospectFactory, fetch: FetchFactory,
    conv: Conversions, root: Utf8Path, u: UnresolvedSubgraph)
    requires u.schema.Sdl?
    ensures ResolverFor(introspect, fetch, conv, root, u).Ok?
    ensures
      var r := ResolverFor(introspect, fetch, conv, root, u).value;
      && Ready(w1, r) == Ready(w2, r) == Ok(())
      && Call(parse, w1, r) == Call(parse, w2, r)
      && Call(parse, w1, r).Ok?
  {
  }

  /** File resolution end to end: when the path converts, resolves and
      reads, the resolved schema is the file's exact text, the routing URL
      is present iff it was declared, and the flag is the detector's
      verdict on the text. */
  lemma FileResolutionYieldsContents(
    parse: Parser, world: World, introspect: IntrospectFactory, fetch: FetchFactory,
    conv: Conversions, root: Utf8Path, u: UnresolvedSubgraph, file: Utf8Path, text: string)
    requires u.schema.File?
    requires conv.isUtf8(u.schema.file)
    requires world.resolvePath(u, root, u.schema.file) == Ok(file)
    requires file in world.fs && world.fs[file] == Ok(text)
    ensures ResolverFor(introspect, fetch, conv, root, u).Ok?
    ensures
      var result := Call(parse, world, ResolverFor(introspect, fetch, conv, root, u).value);
      && result.Ok?
      && result.value.schema == text
      && result.value.name == u.name
      && result.value.schemaSource == u.schema
      && (result.value.routingUrl.Some? <==> u.routingUrl.Some?)
      && (u.routingUrl.Some? ==> result.value.routingUrl == u.routingUrl)
      && (result.value.isFedTwo <==> DeclaresLink(parse(text).document))
  {
  }

  /** Round trip: converting a resolved subgraph into a configuration record
      and resolving that record again as inline SDL gives back the same
      schema text, routing URL and, when the flag was not stale, the same
      flag. */
  lemma ConfigRoundTrip(
    parse: Parser, world: World, introspect: IntrospectFactory, fetch: FetchFactory,
    conv: Conversions, root: Utf8Path, s: FullyResolvedSubgraph, name: string)
    ensures
      var r := ResolverFor(introspect, fetch, conv, root, FromConfig(name, ToSubgraphConfig(s)));
      && r.Ok? && r.value.SdlR?
      && var result := Call(parse, world, r.value);
      && result.Ok?
      && result.value.schema == s.schema
      && result.value.routingUrl == s.routingUrl
      && result.value.name == name
      && result.value.schemaSource == Sdl(s.schema)
      && (Consistent(parse, s) ==> result.value.isFedTwo == s.isFedTwo)
  {
  }

  /** The round trip is exact for a consistent subgraph that was itself
      resolved from inline SDL under the same name. */
  lemma ConfigRoundTripExact(
    parse: Parser, world: World, introspect: IntrospectFactory, fetch: FetchFactory,
    conv: Conversions, root: Utf8Path, s: FullyResolvedSubgraph)
    requires Consistent(parse, s) && s.schemaSource == Sdl(s.schema)
    ensures
      var r := ResolverFor(introspect, fetch, conv, root, FromConfig(s.name, ToSubgraphConfig(s)));
      r.Ok? && Call(parse, world, r.value) == Ok(s)
  {
  }

  /** The inline SDL of a federation v2 subgraph. */
  const FedTwoSdl: string :=
    "extend schema @link(url: \"https://specs.apollo.dev/federation/v2.0\") { query: Query } type Query { a: String }"

  /** Resolving `FedTwoSdl` inline, parsed into its schema extension with
      the `link` directive and its `Query` type, gives a federation v2
      subgraph whose schema is that exact text. */
  lemma InlineExtendSchemaWithLinkIsFedTwo(
    parse: Parser, world: World, introspect: IntrospectFactory, fetch: FetchFactory,
    conv: Conversions, root: Utf8Path, name: string, routingUrl: Option<string>)
    requires parse(FedTwoSdl).document == Document([
      Definition(SchemaExtension,
        Some([Directive(Some("link"), [Argument("url", "https://specs.apollo.dev/federation/v2.0")])]), []),
      Definition(ObjectTypeDefinition, None, [FieldDefinition("a", None)])])
    ensures
      var r := ResolverFor(introspect, fetch, conv, root, UnresolvedSubgraph(name, Sdl(FedTwoSdl), routingUrl));
      && r.Ok?
      && var result := Call(parse, world, r.value);
      && result.Ok?
      && result.value.isFedTwo
      && result.value.schema == FedTwoSdl
  {
  }

  /** A type named `Query` with one plain field, read from a file, is not
      federation v2 and is resolved to the file's exact text. */
  lemma PlainFileSchemaIsNotFedTwo(
    parse: Parser, world: World, introspect: IntrospectFactory, fetch: FetchFactory,
    conv: Conversions, root: Utf8Path, name: string, file: Utf8Path)
    requires conv.isUtf8("subgraphA.graphql")
    requires world.resolvePath(UnresolvedSubgraph(name, File("subgraphA.graphql"), None), root, "subgraphA.graphql") == Ok(file)
    requires file in world.fs && world.fs[file] == Ok("type Query { a: String }")
    requires parse("type Query { a: String }").document
      == Document([Definition(ObjectTypeDefinition, None, [FieldDefinition("a", None)])])
    ensures
      var u := UnresolvedSubgraph(name, File("subgraphA.graphql"), None);
      var r := ResolverFor(introspect, fetch, conv, root, u);
      && r.Ok?
      && Call(parse, world, r.value)
         == Ok(FullyResolvedSubgraph(name, None, "type Query { a: String }", File("subgraphA.graphql"), false))
  {
  }
}

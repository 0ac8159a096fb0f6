# Subgraph resolution, modelled in Dafny

This project models how the supergraph configuration of a federated GraphQL
graph resolves its subgraphs. Each subgraph is reduced to a
`FullyResolvedSubgraph`: a name, the SDL text, the schema source it came
from, an optional routing URL, and the `is_fed_two` flag. A subgraph's schema
source is one of four kinds: a local file, live introspection, a registry
graph reference, or inline SDL.

Modules:

- `Wrappers`: the `Option` and `Result` types.
- `Cst`: the part of the SDL parser's syntax tree that detection walks.
  That is the top-level definitions, each with a kind, an optional directive
  list (each directive has an optional name and its arguments) and nested
  fields. The parser is a `Parser` value passed in by the caller.
- `LinkDetection`: `schema_contains_link_directive`. Its scanning functions
  are proved equal to an independent reference definition, `DeclaresLink`.
  A schema definition or schema extension (section 3.3 of the GraphQL
  specification, October 2021) must carry a directive whose name is exactly
  `link`.
- `Config`: the input types from the configuration layer. These are
  `SchemaSource`, `SubgraphConfig`, `UnresolvedSubgraph`, `GraphRef` and the
  error type `ResolveSubgraphError`.
- `Subgraph`: `FullyResolvedSubgraph`, its builder `New`, `UpdateSchema`
  and the conversion to `SubgraphConfig`. `Consistent` is the derived-flag
  invariant.
- `FileResolver`: the file resolver's readiness and call. The filesystem
  is a map from path to read result. Resolving the configured path against
  the configuration root is a function parameter.
- `Resolution`: the dispatcher `ResolverFor` over the four sources. It
  returns a `Resolver` sum type (`FileR`, `IntrospectR`, `RemoteR`, `SdlR`)
  instead of a boxed service. All four kinds are driven through one
  `Ready` and one `Call`. The introspection and fetch factories are oracles,
  and so are the services they make.

## Model

| member | source | states |
|---|---|---|
| `LinkDetection.AnyLink` | src/composition/supergraph/config/full/subgraph/mod.rs:165-172 | the scan of a directive list finds something iff some directive's name is present and is exactly `link` |
| `LinkDetection.DefinitionLinks` | src/composition/supergraph/config/full/subgraph/mod.rs:159-173 | a definition answers true iff it is a schema definition or schema extension, it has a directive list, and that list holds a `link` directive; every other kind answers false |
| `LinkDetection.AnyDefinitionLinks` | src/composition/supergraph/config/full/subgraph/mod.rs:158-174 | the scan of the top-level definitions answers true iff some definition carries a schema-level `link` directive |
| `LinkDetection.SchemaContainsLinkDirective` | src/composition/supergraph/config/full/subgraph/mod.rs:154-175 | the detector is total, and answers true iff the parsed document declares `@link` at schema level, whatever syntax errors the parser reported |
| `LinkDetection.DetectionDistributes` | src/composition/supergraph/config/full/subgraph/mod.rs:158-174 | the verdict on two concatenated definition lists is the disjunction of the verdicts on each |
| `LinkDetection.NonSchemaDefinitionsIgnored` | src/composition/supergraph/config/full/subgraph/mod.rs:159-163 | adding definitions that are not schema-level never changes the verdict, even if they or their fields carry `@link` |
| `LinkDetection.ArgumentsNeverInspected` | src/composition/supergraph/config/full/subgraph/mod.rs:166-170 | erasing every directive argument leaves the verdict unchanged |
| `LinkDetection.MissingPartsAnswerFalse` | src/composition/supergraph/config/full/subgraph/mod.rs:164-173 | a directive with no recoverable name, or a definition with no directive list, yields false instead of a failure |
| `LinkDetection.LinkOnFieldIsNotFedTwo` | src/composition/supergraph/config/full/subgraph/mod.rs:159-163 | a `@link` on a field of an object type is not federation v2 |
| `Subgraph.New` | src/composition/supergraph/config/full/subgraph/mod.rs:42-56 | the builder stores name, schema, routing URL and source unchanged; it sets `is_fed_two` iff the parsed schema declares `@link` at schema level |
| `Subgraph.ConsistentIffBuilt` | src/composition/supergraph/config/full/subgraph/mod.rs:29-56 | a subgraph satisfies the derived-flag invariant exactly when it equals what the builder makes of its other fields |
| `Subgraph.UpdateSchema` | src/composition/supergraph/config/full/subgraph/mod.rs:140-142 | only the schema text changes; name, routing URL, source and the flag stay as they were |
| `Subgraph.UpdateSchemaMayGoStale` | src/composition/supergraph/config/full/subgraph/mod.rs:140-142 | after an update the invariant still holds iff the new text gets the same detector verdict as the old text; otherwise the flag is stale |
| `Subgraph.ToSubgraphConfig` | src/composition/supergraph/config/full/subgraph/mod.rs:145-151 | the configuration record keeps the routing URL and carries the schema text as an inline SDL source |
| `FileResolver.PollReady` | src/composition/supergraph/config/full/subgraph/file.rs:29-34 | the file resolver is always ready |
| `FileResolver.Call` | src/composition/supergraph/config/full/subgraph/file.rs:36-59 | a path-resolution error comes back unchanged; a read failure becomes `Fs`; otherwise the call succeeds with the file's exact text, the configured name and source, the routing URL iff declared, and the flag from the text |
| `FileResolver.CallReadsOnlyResolvedFile` | src/composition/supergraph/config/full/subgraph/file.rs:36-46 | two filesystems that agree on the resolved path give equal results, so repeated calls on an unchanged filesystem are equal |
| `Resolution.ResolverFor` | src/composition/supergraph/config/full/subgraph/mod.rs:59-137 | the per-source dispatch and its error mapping (summarised below the table) |
| `Resolution.CallSdl` | src/composition/supergraph/config/full/subgraph/mod.rs:121-135 | the inline-SDL call always succeeds, with the configured name and routing URL, schema equal to the SDL, source `Sdl { sdl }`, and the flag from the SDL |
| `Resolution.Ready` | src/composition/supergraph/config/full/subgraph/file.rs:29-34 | file and inline-SDL resolvers are always ready; the others answer what their external service answers |
| `Resolution.Call` | src/composition/supergraph/config/full/subgraph/file.rs:36-59 | an inline-SDL call never fails and yields its literal text with source `Sdl { sdl }`; a file call reads the resolved path, returns a resolution error unchanged, turns a read failure into `Fs`, and otherwise yields that file's exact text with the configured source; both keep the configured name and routing URL and satisfy the derived-flag invariant; the other kinds answer what their external service answers |
| `Resolution.LocalResolversIgnoreExternals` | src/composition/supergraph/config/full/subgraph/file.rs:36-59 | file and inline-SDL resolvers give the same readiness and result whatever the external services answer |
| `Resolution.EveryResolvedSubgraphConsistent` | src/composition/supergraph/config/full/subgraph/mod.rs:38-56 | every subgraph produced by a dispatched resolver satisfies the derived-flag invariant; for file and inline-SDL sources with no premise |
| `Resolution.SdlResolutionIsPure` | src/composition/supergraph/config/full/subgraph/mod.rs:121-135 | dispatching inline SDL never fails; its readiness and result are the same in every world (filesystem, external services), and the result is a success |
| `Resolution.FileResolutionYieldsContents` | src/composition/supergraph/config/full/subgraph/mod.rs:68-75 | dispatch and call on a readable file give the file's exact text, the routing URL iff declared, and the flag from the text |
| `Resolution.ConfigRoundTrip` | src/composition/supergraph/config/full/subgraph/mod.rs:121-151 | conversion to a configuration record, then inline-SDL resolution, preserves the schema text and routing URL exactly; the flag is preserved when it was not stale |
| `Resolution.ConfigRoundTripExact` | src/composition/supergraph/config/full/subgraph/mod.rs:145-151 | for a consistent subgraph whose source is its own inline SDL, the round trip returns the identical value |
| `Resolution.InlineExtendSchemaWithLinkIsFedTwo` | src/composition/supergraph/config/full/subgraph/mod.rs:121-135 | resolving the inline SDL `extend schema @link(url: …) { query: Query } type Query { a: String }` gives that exact text with `is_fed_two = true` |
| `Resolution.PlainFileSchemaIsNotFedTwo` | src/composition/supergraph/config/full/subgraph/file.rs:36-59 | a file holding `type Query { a: String }` resolves to that exact text with `is_fed_two = false` |

`ResolverFor` states this per source:

- File: a path that fails UTF-8 conversion yields `InvalidPath` carrying the
  path, and no resolver is built. Otherwise it yields a file resolver bound to
  the root, the configured path text itself and the unresolved subgraph.
- Introspection: absent headers become the empty map, and the endpoint,
  routing URL and name pass into the request. A readiness failure, then a
  factory failure, is returned unchanged.
- Registry: an unparseable graph ref yields `InvalidGraphRef` carrying the
  original string. Next, a readiness failure yields `ServiceReady`. Last, a
  fetch-factory failure yields `FetchRemoteSdlError` carrying the subgraph
  name. Each failure stops the later steps.
- Inline SDL: always `Ok(SdlR)`.

## Notes on the code

- `FetchRemoteSdlError` carries the `subgraph` field of the registry schema
  source, not the configured subgraph's name (mod.rs:109-110).
- `ServiceReady` and `Fs` carry only the wrapped cause, with no subgraph
  identity (mod.rs:104, file.rs:44-45).
- Introspection factory errors are returned as the factory produced them.
  They are not re-tagged (mod.rs:86-87).
- The detector does not catch parse errors. The parser is error tolerant and
  always returns a document, and the detector reads that document whatever
  errors were reported. This is why `SchemaContainsLinkDirective` ignores the
  error list.

## Left out

- The `tower` service machinery is left out: `Service`, `BoxCloneService`,
  futures, `Pin<Box<…>>`, polling and cloning. Readiness and call are plain
  functions returning `Result`, so the "call works on clones" behaviour is
  automatic.
- The internals of `apollo_parser` are external. The parser is a function
  parameter.
- `Fs::read_file` is external. The filesystem is a map; a path it does not
  hold reads as a "not found" failure.
- `UnresolvedSubgraph::resolve_file_path` is external. It is a function
  parameter whose errors are propagated unchanged.
- `GraphRef::from_str` and `Utf8PathBuf::try_from` are external. They are
  the `Conversions` parameter. UTF-8 validity of a path is a predicate
  there, and a valid path converts to its own text.
- The introspection and remote resolver modules (`introspect`, `remote`) are
  not part of this model. Their factories, the services those make, and the
  remote resolver's own readiness and call are oracles.
- The underlying causes, `Arc<Box<dyn Error>>`, are flattened to strings.
- The error enum's own file is not part of this model. `ResolveSubgraphError`
  lists the five variants this core raises, plus `External` for errors that
  collaborators raise and the core passes through unchanged. The names
  `InvalidPath` and `External` are this model's own.
- The `UnresolvedSubgraph` type's file is not part of this model.
  `Config.FromConfig` stands in for building one from a name and a
  configuration record.
- Resolving a whole list of subgraphs lies outside the files modelled here.
- Resolution.EveryResolvedSubgraphConsistent: for introspection and registry
  sources, this holds only under the premise that the external services
  also build their results through `New`. Their code is not part of this
  model. For file and inline-SDL sources it holds with no premise.
- Subgraph.New: the model treats `New` as the only constructor and
  `UpdateSchema` as the only mutation. In the source, `routing_url` and
  `is_fed_two` are visible to the whole crate (mod.rs:32, mod.rs:35). Any code
  in the crate may therefore overwrite the flag without running the detector.
  The child modules `introspect` and `remote` may also build the struct
  directly instead of calling `new`. The invariant `Consistent` is
  guaranteed only for values built through `New`.

# bevy-embasset path resolver, modelled in Dafny

`BevassetIo` is an asset backend for the Bevy engine. It answers four questions
about a path: load its bytes, list it as a directory, test whether it is a
directory, and watch it for changes. Loading and listing are answered in
three steps:

1. Pick the first registered handler whose protocol applies to the path.
   Protocols apply component by component, as Rust's `Path::starts_with`
   compares.
2. Strip the protocol from the path as a plain string. A path that is not
   string-prefixed by the protocol makes the `expect` panic.
3. Let that handler's backend answer; its answer is final. When no handler
   applies, ask the default backend (in the build that has one), then the
   resources embedded in the binary.

The one exception is a load through a handler marked `fallback_on_err` whose
backend fails: it re-enters the whole resolution with the stripped path. With
an empty protocol that re-entry repeats the same call without bound.

The directory test and the watch pick a handler the same way, but give it the
unstripped path, so they never panic. For the directory test, the claiming
handler answers alone. Without a claiming handler, the default backend
answers alone when there is one; otherwise the embedded keys decide. A watch
of a claimed path is the handler's answer. A watch of any other path, and
`watch_for_changes`, always succeed. They consult at most the default backend
and never the embedded store.

The model has six modules:

- `Paths` covers path components, component prefix and component equality,
  string prefix stripping, and `join("")`.
- `AssetIoTypes` covers bytes, backend errors, and the backend as four total
  functions of the path and one constant. A call either returns a result, panics, or never
  returns (`Outcome`).
- `Handlers` covers `HandlerConfig` and first-match selection.
- `Bevasset` covers the `BevassetIo` class and the queries:
  - its fields are the handler list, the embedded map and an optional
    default backend;
  - the registration methods update the class in place;
  - the four queries are functions of its state.

  `defaultIo == None` is the build without the `use-default-assetio` feature,
  and `Some` is the build with it.
- `BevassetProperties` holds lemmas over all resolvers and all paths.
- `Scenarios` rebuilds the library's unit tests, and the fallback, selection,
  panic and divergence behaviours. Each is stated for every choice of names of
  the tests' shape.

The embedded map is keyed by the components of the path, because a
`HashMap<&Path, _>` hashes and compares paths component by component.
`HashMap::insert` on a present key replaces the value and keeps the original
key. `AddEmbeddedAsset` therefore keeps the first key path it saw.

The doc comment of `HandlerConfig::new` (src/lib.rs:48-49) says a handler is
identified by "the first characters" of the path, which reads as a string
prefix. The code selects with `Path::starts_with`, which compares components;
the model follows the code: it selects by components and strips by string.
`PanicIsAMisalignedProtocol` and `SingleSeparatorPanicScenario` show where the
two comparisons disagree.

Watching treats the two kinds of backend differently. A matched handler's watch
error is returned unchanged (src/lib.rs:321, 389), while the default backend's
watch errors become success (src/lib.rs:323-326, 331-334).

## Model

| member | source | states |
|---|---|---|
| Paths.Components | src/lib.rs:173 | only the empty path has no components; a leading separator and a leading "." are markers, and empty and "." segments are dropped, as `Path::components` yields them |
| Paths.SegmentsAreNames | src/lib.rs:173 | every component after the first marker is a proper name: not empty, not ".", without a separator |
| Paths.StripPrefix | src/lib.rs:142-144 | the strip succeeds exactly when the protocol is a string prefix, and the protocol followed by the result is the original path |
| Paths.JoinEmpty | src/lib.rs:375 | `path.join("")` appends at most one separator and names the same path, component by component |
| Paths.ComponentsIgnoreTrailingSlash | src/lib.rs:375 | a trailing separator does not change the components of a non-empty path |
| Paths.SingleComponentMatchIsStringPrefix | src/lib.rs:142-144 | a protocol that is one non-empty component and applies to a path is also a string prefix of it, so stripping cannot panic |
| Handlers.HandlerConfig.New | src/lib.rs:54-60 | the new handler has the given protocol and backend and does not fall back |
| Handlers.HandlerConfig.FallbackOnErr | src/lib.rs:64-67 | the same protocol and backend, now falling back |
| Handlers.FirstMatch | src/lib.rs:170-174 | a chosen handler exists and its protocol component-prefixes the path |
| Handlers.FirstMatchIsFirst | src/lib.rs:170-174 | no earlier handler applies, and `None` means that no handler applies |
| Handlers.FirstMatchAppend | src/lib.rs:110-113 | a handler appended later never takes a path from an earlier one; otherwise it is chosen exactly when it applies |
| Handlers.FirstMatchBySamePath | src/lib.rs:173 | selection depends only on the components of the path |
| Bevasset.BevassetIo.New | src/lib.rs:102-107 | no default backend, no handlers and no embedded resources |
| Bevasset.BevassetIo.WithDefault | src/lib.rs:92-98 | the given default backend, no handlers and no embedded resources |
| Bevasset.BevassetIo.AddHandler | src/lib.rs:110-113 | the handler is appended; the embedded map is unchanged |
| Bevasset.BevassetIo.AddEmbeddedAsset | src/lib.rs:116-119 | the path now loads the new bytes and keeps its first key spelling; every path that differs by components loads what it loaded before; handlers are unchanged |
| Bevasset.BevassetIo.LoadEmbeddedPathSync | src/lib.rs:127-132 | succeeds exactly when the components of the path are a key; a miss is `NotFound` of the requested path |
| Bevasset.BevassetIo.ReadDirectory | src/lib.rs:265-297 | listing never runs forever, and it panics only when a handler claims the path |
| Bevasset.BevassetIo.IsDirectory | src/lib.rs:367-381 | without a claiming handler or a default backend, a path is a directory exactly when some key lies strictly below it, component by component; with them, the claiming handler or the default backend answers alone (`ClaimingHandlerQueries`, `DefaultBackendGatesListing`) |
| Bevasset.BevassetIo.WatchPathForChanges | src/lib.rs:315-328 | only a claiming handler can make a watch fail, and its error is returned as it is |
| Bevasset.BevassetIo.WatchForChanges | src/lib.rs:330-335 | watching always succeeds |
| Bevasset.LoadPathViaHandler | src/lib.rs:135-166 | a load through a handler never returns only if some handler has the empty protocol and falls back |
| Bevasset.LoadPath | src/lib.rs:168-235 | a load never returns only if some handler has the empty protocol and falls back; with every protocol non-empty the re-entry is on a strictly shorter path |
| Bevasset.ReadEmbeddedDirectory | src/lib.rs:237-257 | fails with an I/O not-found error exactly when the path is not a directory; otherwise it lists only keys at or below the path and every key strictly below it (`EmbeddedListing` states the whole listing) |
| BevassetProperties.EmbeddedLookupBySamePath | src/lib.rs:127-132 | a lookup hits exactly when some registered key names the same path, component by component |
| BevassetProperties.LoadFromEmbeddedOnly | src/lib.rs:209-235 | without handlers or a default backend, a load is exactly the embedded lookup of the original path (a corollary of `LoadWithoutHandler`) |
| BevassetProperties.LoadWithoutHandler | src/lib.rs:176-205 | without a claiming handler, a load returns the default backend's bytes, else the embedded lookup; the only error is `NotFound` of the path |
| BevassetProperties.LoadViaClaimingHandler | src/lib.rs:135-166 | the backend gets the stripped path; a string mismatch panics; success is returned; without fallback the error is returned unchanged; with fallback the result is a full load of the shorter stripped path, or never returns for the empty protocol |
| BevassetProperties.LoadedBytesComeFromABackend | src/lib.rs:135-235 | loaded bytes were produced at a suffix of the requested path by the handler claiming that suffix (for the suffix without its protocol) or, with no claiming handler, by the default backend or else the embedded store |
| BevassetProperties.LoadErrorsComeFromStoreOrStrictHandler | src/lib.rs:135-235 | a load error arose at a suffix of the path, as the error of the claiming handler there, which does not fall back, or as the embedded store's `NotFound` after the default backend (if any) failed |
| BevassetProperties.DivergenceIsAnEmptyProtocolLoop | src/lib.rs:157-160 | a load that never returns reached a path whose claiming handler has the empty protocol, falls back, and fails |
| BevassetProperties.PanicIsAMisalignedProtocol | src/lib.rs:142-144 | a load panics only where a handler claimed a path by components that does not start with its protocol string |
| BevassetProperties.SingleComponentProtocolsAlwaysReturn | src/lib.rs:135-166 | with one-component protocols, loading always returns and listing never panics |
| BevassetProperties.EmbeddedIsDirectoryIff | src/lib.rs:374-379 | without a default backend and with no claiming handler, a path is a directory exactly when some key lies strictly below it, component by component |
| BevassetProperties.IsDirectoryIgnoresTrailingSlash | src/lib.rs:374-379 | "directory" and "directory/" get the same answer |
| BevassetProperties.EmbeddedListing | src/lib.rs:237-257 | listing fails with an I/O not-found error exactly when nothing lies below the path; otherwise it lists every key at or below it (all descendants), is not empty, and every listed key loads |
| BevassetProperties.DefaultBackendGatesListing | src/lib.rs:284-312 | with a default backend, its listing wins; the embedded listing is used only after it fails and only when the default backend says the path is a directory; that backend alone decides the directory test |
| BevassetProperties.ClaimingHandlerQueries | src/lib.rs:269-282 | a claiming handler lists the stripped path and is never fallen back from; it answers the directory test and the watch for the unstripped path |
| BevassetProperties.WatchWithoutHandlerSucceeds | src/lib.rs:322-326 | a path no handler claims can always be watched, whatever the default backend says |
| Scenarios.LoadEmbeddedScenario | src/lib.rs:409-435 | both embedded names load their bytes; a strict string prefix of one and an unknown name give `NotFound` |
| Scenarios.OverwriteScenario | src/lib.rs:116-119 | a second registration of the same path, spelled with a trailing separator, replaces the bytes and keeps one key |
| Scenarios.IsDirectoryScenario | src/lib.rs:437-448 | a leaf and its string prefix are not directories; the parent is one, with or without a trailing separator; a string prefix inside it is not |
| Scenarios.ReadDirectoryScenario | src/lib.rs:450-466 | listing a leaf fails with an I/O not-found error; listing the directory gives exactly its two keys |
| Scenarios.FallbackScenario | src/lib.rs:157-160 | a failing falling-back handler hands the stripped path to the resolver, which serves it from the embedded store |
| Scenarios.NoFallbackScenario | src/lib.rs:161-164 | without fallback the backend's error is returned, although the store holds the stripped path |
| Scenarios.FirstHandlerWinsScenario | src/lib.rs:170-175 | of two applicable handlers, the one registered first serves the load |
| Scenarios.SingleSeparatorPanicScenario | src/lib.rs:142-144 | the protocol "scheme//" claims "scheme/name" by components, but stripping fails, so loading and listing panic |
| Scenarios.EmptyProtocolScenario | src/lib.rs:157-160 | an empty falling-back protocol whose backend fails makes loading never return, even for an embedded path |

## Left out

- Asynchronous execution (`async`, `BoxedFuture`): loads are modelled as synchronous calls.
- Running out of stack: the source re-enters through nested awaits on boxed futures, so an unbounded re-entry exhausts the stack; the model treats it as never returning (`Diverges`).
- Logging (`trace!`, `info!`, `warn!`): it has no effect on results.
- The listing iterator: a listing is a set, since the order of `HashMap` keys is unspecified.
- Method chaining through the returned `&mut Self` of `add_handler` and `add_embedded_asset`: calls are sequenced instead.
- Concrete backends: each backend is four total functions of the path and one constant, so a backend's own side effects, failures to return and panics are not modelled. A backend answers the same path the same way every time it is asked; this is what makes the empty-protocol re-entry never return (`Diverges`), since a stateful backend could succeed on a retry.
- Path components: ".." and Windows prefixes are not modelled. ".." is kept as an ordinary name, and only Unix separators are recognised.
- Displaying a path (`display().to_string()`) is the identity, since paths are strings here.
- Bytes are held by value. The `'static` lifetimes and copying (`to_vec`) of the embedded slices are not modelled.
- The Bevy plugin (src/plugin.rs), the build-script code generator (src/build.rs) and the example programs are not part of this model.
- The unit tests call `BevassetIo::new(None)`, while the build without a default backend has `new()`. The scenarios use `New()` and take the tests' assertions as intent.

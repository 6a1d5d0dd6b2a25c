/**
 * The resolver: an object holding the registered handlers, the embedded
 * resources and, in the variant built with a default backend, that backend.
 * Registration changes the object in place; the four queries (load, list a
 * directory, test a directory, watch) read it and answer by first-match
 * handler selection followed by a fixed fallback chain.
 */
module Bevasset {

  import opened Optional
  import opened Paths
  import opened AssetIoTypes
  import opened Handlers

  /** An embedded resource: the key path as it was first registered, and the
      bytes most recently registered under it. */
  datatype EmbeddedEntry = EmbeddedEntry(path: Path, data: Bytes)

  class BevassetIo {
    /** The default backend; `None` in the variant built without one. */
    const defaultIo: Option<AssetIo>
    /** The handlers, in registration order. */
    var handlers: seq<HandlerConfig>
    /** The embedded resources, keyed by the components of their path, since
        the key type compares and hashes paths component by component. */
    var embedded: map<seq<Component>, EmbeddedEntry>

    /** Every entry is filed under the components of its own key path. */
    ghost predicate Valid()
      reads this
    {
      forall c :: c in embedded ==> Components(embedded[c].path) == c
    }

    /** A resolver without a default backend, with no handlers and no embedded
        resources. */
    constructor New()
      ensures defaultIo == None
      ensures handlers == [] && embedded == map[]
      ensures Valid()
    {
      defaultIo := None;
      handlers := [];
      embedded := map[];
    }

    /** A resolver that consults `defaultIo` for paths no handler claims. */
    constructor WithDefault(defaultIo: AssetIo)
      ensures this.defaultIo == Some(defaultIo)
      ensures handlers == [] && embedded == map[]
      ensures Valid()
    {
      this.defaultIo := Some(defaultIo);
      handlers := [];
      embedded := map[];
    }

    /** Registers `handler` after all earlier ones. */
    method AddHandler(handler: HandlerConfig)
      requires Valid()
      modifies this
      ensures Valid()
      ensures handlers == old(handlers) + [handler]
      ensures embedded == old(embedded)
    {
      handlers := handlers + [handler];
    }

    /** Registers `data` under `path`. A path already registered (component by
        component) keeps its original key and gets the new bytes; every other
        path keeps what it had. */
    method AddEmbeddedAsset(path: Path, data: Bytes)
      requires Valid()
      modifies this
      ensures Valid()
      ensures handlers == old(handlers)
      ensures embedded == old(embedded)[Components(path) := EmbeddedEntry(
        if Components(path) in old(embedded) then old(embedded)[Components(path)].path else path,
        data)]
      ensures LoadEmbeddedPathSync(path) == Ok(data)
      ensures forall q :: !SamePath(q, path) ==> LoadEmbeddedPathSync(q) == old(LoadEmbeddedPathSync(q))
    {
      var key := Components(path);
      var keptPath := if key in embedded then embedded[key].path else path;
      embedded := embedded[key := EmbeddedEntry(keptPath, data)];
    }

    /** The registered key paths. */
    function Keys(): set<Path>
      reads this
    {
      set c | c in embedded :: embedded[c].path
    }

    /** The bytes embedded under `path`; a miss reports `NotFound` of the
        requested path. */
    function LoadEmbeddedPathSync(path: Path): (r: Result<Bytes>)
      reads this
      ensures r.Ok? <==> Components(path) in embedded
      ensures r.Err? ==> r.error == NotFound(path)
    {
      if Components(path) in embedded then Ok(embedded[Components(path)].data)
      else Err(NotFound(path))
    }

    /** Lists a directory: a handler's backend lists the path with the
        protocol stripped and is never second-guessed; otherwise the default
        backend is asked first and the embedded listing is the fallback. */
    function ReadDirectory(path: Path): (r: Outcome<set<Path>>)
      reads this
      ensures r != Diverges
      ensures r.Panics? ==> FirstMatch(handlers, path).Some?
    {
      match FirstMatch(handlers, path)
      case Some(i) =>
        (match StripPrefix(path, handlers[i].protocol)
         case None => Panics
         case Some(stripped) => Returns(handlers[i].assetIo.readDirectory(stripped)))
      case None =>
        match defaultIo
        case Some(d) =>
          var r := d.readDirectory(path);
          if r.Ok? then Returns(r) else Returns(ReadEmbeddedDirectory(this, path))
        case None => Returns(ReadEmbeddedDirectory(this, path))
    }

    /** Whether `path` is a directory: a handler's backend answers for the
        unstripped path; otherwise the default backend answers alone; without
        one, `path` is a directory when some key lies strictly below it. */
    function IsDirectory(path: Path): (r: bool)
      reads this
      ensures FirstMatch(handlers, path).None? && defaultIo.None? ==>
        (r <==> exists k :: k in Keys() && Components(path) < Components(k))
    {
      match FirstMatch(handlers, path)
      case Some(i) => handlers[i].assetIo.isDirectory(path)
      case None =>
        match defaultIo
        case Some(d) => d.isDirectory(path)
        case None =>
          var asFolder := JoinEmpty(path);
          exists k | k in Keys() :: ComponentPrefix(asFolder, k) && !SamePath(k, path)
    }

    /** Watches one path. Only a claiming handler's backend can make this fail,
        and it is given the unstripped path. */
    function WatchPathForChanges(path: Path): (r: Result<()>)
      reads this
      ensures r.Err? ==> FirstMatch(handlers, path).Some?
      ensures r.Err? ==> r == handlers[FirstMatch(handlers, path).value].assetIo.watchPathForChanges(path)
    {
      match FirstMatch(handlers, path)
      case Some(i) => handlers[i].assetIo.watchPathForChanges(path)
      case None =>
        match defaultIo
        case Some(d) =>
          var r := d.watchPathForChanges(path);
          if r.Ok? then r else Ok(())
        case None => Ok(())
    }

    /** Starts watching; a failure of the default backend is ignored, so this
        always succeeds. */
    function WatchForChanges(): (r: Result<()>)
      reads this
      ensures r == Ok(())
    {
      match defaultIo
      case Some(d) =>
        var r := d.watchForChanges;
        if r.Ok? then (assert r.value == (); r) else Ok(())
      case None => Ok(())
    }
  }

  /** Loads through the `i`-th handler, the first that applies to `path`: its
      backend gets `path` without the protocol string. A failed load is
      returned as it is unless the handler falls back, in which case the whole
      resolution is run again on the stripped path. With an empty protocol
      that re-run is this very call again, without bound. */
  function LoadPathViaHandler(path: Path, i: nat, io: BevassetIo): (r: Outcome<Bytes>)
    reads io
    requires FirstMatch(io.handlers, path) == Some(i)
    ensures r.Diverges? ==>
      exists j :: 0 <= j < |io.handlers| && io.handlers[j].protocol == "" && io.handlers[j].fallbackOnErr
    decreases |path|, 0
  {
    var config := io.handlers[i];
    match StripPrefix(path, config.protocol)
    case None => Panics
    case Some(stripped) =>
      match config.assetIo.load(stripped)
      case Ok(bytes) => Returns(Ok(bytes))
      case Err(err) =>
        if !config.fallbackOnErr then Returns(Err(err))
        else if config.protocol == "" then Diverges
        else LoadPath(stripped, io)
  }

  /** Loads `path`: through the first handler that applies; otherwise from the
      default backend when there is one, then from the embedded resources. */
  function LoadPath(path: Path, io: BevassetIo): (r: Outcome<Bytes>)
    reads io
    ensures r.Diverges? ==>
      exists j :: 0 <= j < |io.handlers| && io.handlers[j].protocol == "" && io.handlers[j].fallbackOnErr
    decreases |path|, 1
  {
    match FirstMatch(io.handlers, path)
    case Some(i) => LoadPathViaHandler(path, i, io)
    case None =>
      match io.defaultIo
      case Some(d) =>
        var r := d.load(path);
        if r.Ok? then Returns(r) else Returns(io.LoadEmbeddedPathSync(path))
      case None => Returns(io.LoadEmbeddedPathSync(path))
  }

  /** Lists a directory from the embedded resources: when `io` says `path` is a
      directory, every key at or below it; otherwise an I/O not-found error. */
  function ReadEmbeddedDirectory(io: BevassetIo, path: Path): (r: Result<set<Path>>)
    reads io
    ensures r.Err? <==> !io.IsDirectory(path)
    ensures r.Err? ==> r.error == Io(NotFoundKind)
    ensures r.Ok? ==> forall k :: k in r.value ==> k in io.Keys() && Components(path) <= Components(k)
    ensures r.Ok? ==> forall k :: k in io.Keys() && Components(path) < Components(k) ==> k in r.value
  {
    if io.IsDirectory(path) then
      Ok(set k | k in io.Keys() && ComponentPrefix(path, k))
    else
      Err(Io(NotFoundKind))
  }
}

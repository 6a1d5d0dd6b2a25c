/**
 * What the resolver promises, stated over all resolvers and all paths: where
 * loaded bytes and load errors come from, when resolution panics or never
 * returns, how directories are derived from the flat set of embedded keys,
 * and the asymmetries between the four queries.
 */
module BevassetProperties {

  import opened Optional
  import opened Paths
  import opened AssetIoTypes
  import opened Handlers
  import opened Bevasset

  // ---------------------------------------------------------------------------
  // The embedded store

  /** A lookup hits exactly when some registered key names the same path,
      component by component. */
  lemma EmbeddedLookupBySamePath(io: BevassetIo, p: Path)
    requires io.Valid()
    ensures io.LoadEmbeddedPathSync(p).Ok? <==> exists k :: k in io.Keys() && SamePath(k, p)
  {
    var c := Components(p);
    if c in io.embedded {
      assert io.embedded[c].path in io.Keys();
    }
  }

  // ---------------------------------------------------------------------------
  // Loading

  /** With no handlers and no default backend, loading is exactly the embedded
      lookup of the path: a corollary of `LoadWithoutHandler`. */
  lemma LoadFromEmbeddedOnly(io: BevassetIo, p: Path)
    requires io.handlers == [] && io.defaultIo == None
    ensures LoadPath(p, io) == Returns(io.LoadEmbeddedPathSync(p))
    ensures LoadPath(p, io).result.Err? ==> LoadPath(p, io).result.error == NotFound(p)
  {
    assert ProtocolComponents(io.handlers) == [];
    LoadWithoutHandler(io, p);
  }

  /** When no handler claims `p`, the default backend's error never reaches
      the caller: the result is the backend's bytes, else the embedded bytes,
      else `NotFound(p)`. */
  lemma LoadWithoutHandler(io: BevassetIo, p: Path)
    requires FirstMatch(io.handlers, p) == None
    ensures LoadPath(p, io).Returns?
    ensures io.defaultIo.Some? && io.defaultIo.value.load(p).Ok? ==>
      LoadPath(p, io) == Returns(io.defaultIo.value.load(p))
    ensures io.defaultIo.None? || io.defaultIo.value.load(p).Err? ==>
      LoadPath(p, io) == Returns(io.LoadEmbeddedPathSync(p))
    ensures LoadPath(p, io).result.Err? ==> LoadPath(p, io).result.error == NotFound(p)
  {
  }

  /** Loading through the claiming handler `i`: its backend is given the path
      without the protocol string; a failed `expect` panics; success is
      returned; failure is returned unchanged unless the handler falls back,
      and then the result is a full load of the stripped path. */
  lemma LoadViaClaimingHandler(io: BevassetIo, p: Path, i: nat)
    requires FirstMatch(io.handlers, p) == Some(i)
    ensures !(io.handlers[i].protocol <= p) ==> LoadPath(p, io) == Panics
    ensures io.handlers[i].protocol <= p ==>
      var h := io.handlers[i];
      var s := p[|h.protocol|..];
      && (h.assetIo.load(s).Ok? ==> LoadPath(p, io) == Returns(h.assetIo.load(s)))
      && (h.assetIo.load(s).Err? && !h.fallbackOnErr ==> LoadPath(p, io) == Returns(h.assetIo.load(s)))
      && (h.assetIo.load(s).Err? && h.fallbackOnErr && h.protocol != "" ==>
            |s| < |p| && LoadPath(p, io) == LoadPath(s, io))
      && (h.assetIo.load(s).Err? && h.fallbackOnErr && h.protocol == "" ==>
            s == p && LoadPath(p, io) == Diverges)
  {
  }

  /** Resolution of `s` itself produced bytes `b`: the handler that claims `s`
      loaded them for `s` without its protocol; or, when no handler claims
      `s`, the default backend loaded them for `s`, or it failed (or there is
      none) and the embedded store holds them under `s`. */
  ghost predicate ServedBy(io: BevassetIo, s: Path, b: Bytes)
    reads io
  {
    match FirstMatch(io.handlers, s)
    case Some(j) =>
      var h := io.handlers[j];
      h.protocol <= s && h.assetIo.load(s[|h.protocol|..]) == Ok(b)
    case None =>
      || (io.defaultIo.Some? && io.defaultIo.value.load(s) == Ok(b))
      || ((io.defaultIo.None? || io.defaultIo.value.load(s).Err?) && io.LoadEmbeddedPathSync(s) == Ok(b))
  }

  /** Loaded bytes are never made up or transformed: resolution reached a
      suffix of the requested path (the path itself, or what is left of it
      after protocols were stripped) and there the claiming handler's backend,
      or with no claiming handler the default backend or the embedded store,
      gave exactly these bytes. */
  lemma {:induction false} LoadedBytesComeFromABackend(io: BevassetIo, p: Path, b: Bytes)
    requires LoadPath(p, io) == Returns(Ok(b))
    ensures exists n :: 0 <= n <= |p| && ServedBy(io, p[n..], b)
    decreases |p|
  {
    match FirstMatch(io.handlers, p)
    case Some(i) =>
      var h := io.handlers[i];
      var s := p[|h.protocol|..];
      if h.assetIo.load(s).Ok? {
        assert p[0..] == p;
        assert ServedBy(io, p[0..], b);
      } else {
        LoadedBytesComeFromABackend(io, s, b);
        ServedInSuffix(io, p, |h.protocol|, b);
      }
    case None =>
      assert p[0..] == p;
      assert ServedBy(io, p[0..], b);
  }

  /** A serving suffix of a suffix of `p` is a serving suffix of `p`. */
  lemma ServedInSuffix(io: BevassetIo, p: Path, k: nat, b: Bytes)
    requires k <= |p|
    requires exists n :: 0 <= n <= |p[k..]| && ServedBy(io, p[k..][n..], b)
    ensures exists n :: 0 <= n <= |p| && ServedBy(io, p[n..], b)
  {
    var n :| 0 <= n <= |p[k..]| && ServedBy(io, p[k..][n..], b);
    assert p[k..][n..] == p[k + n..];
  }

  /** Resolution of `s` itself reported load error `e`: the handler that
      claims `s` does not fall back and its backend failed with `e` on `s`
      without the protocol; or no handler claims `s`, the default backend
      (if any) failed, and the embedded store misses `s`, giving `NotFound(s)`. */
  ghost predicate FailedAt(io: BevassetIo, s: Path, e: AssetIoError)
    reads io
  {
    match FirstMatch(io.handlers, s)
    case Some(j) =>
      var h := io.handlers[j];
      !h.fallbackOnErr && h.protocol <= s && h.assetIo.load(s[|h.protocol|..]) == Err(e)
    case None =>
      && (io.defaultIo.None? || io.defaultIo.value.load(s).Err?)
      && io.LoadEmbeddedPathSync(s).Err?
      && e == NotFound(s)
  }

  /** A load error arose at a suffix of the requested path, either as the
      embedded store's `NotFound` after the default backend (if any) failed
      too, or as the error of the claiming handler there, which does not fall
      back: errors of the default backend and of falling-back handlers are
      never returned. */
  lemma {:induction false} LoadErrorsComeFromStoreOrStrictHandler(io: BevassetIo, p: Path, e: AssetIoError)
    requires LoadPath(p, io) == Returns(Err(e))
    ensures exists n :: 0 <= n <= |p| && FailedAt(io, p[n..], e)
    decreases |p|
  {
    match FirstMatch(io.handlers, p)
    case Some(i) =>
      var h := io.handlers[i];
      var s := p[|h.protocol|..];
      if !h.fallbackOnErr {
        assert p[0..] == p;
        assert FailedAt(io, p[0..], e);
      } else {
        ErrorPassesToStrippedPath(io, p, e);
        LoadErrorsComeFromStoreOrStrictHandler(io, s, e);
        FailedInSuffix(io, p, |h.protocol|, e);
      }
    case None =>
      assert p[0..] == p;
      assert FailedAt(io, p[0..], e);
  }

  /** A load error through a falling-back handler is the error of loading the
      shorter stripped path. */
  lemma ErrorPassesToStrippedPath(io: BevassetIo, p: Path, e: AssetIoError)
    requires LoadPath(p, io) == Returns(Err(e))
    requires FirstMatch(io.handlers, p).Some?
    requires io.handlers[FirstMatch(io.handlers, p).value].fallbackOnErr
    ensures var protocol := io.handlers[FirstMatch(io.handlers, p).value].protocol;
      protocol != "" && protocol <= p && LoadPath(p[|protocol|..], io) == Returns(Err(e))
  {
  }

  /** A failing suffix of a suffix of `p` is a failing suffix of `p`. */
  lemma FailedInSuffix(io: BevassetIo, p: Path, k: nat, e: AssetIoError)
    requires k <= |p|
    requires exists n :: 0 <= n <= |p[k..]| && FailedAt(io, p[k..][n..], e)
    ensures exists n :: 0 <= n <= |p| && FailedAt(io, p[n..], e)
  {
    var n :| 0 <= n <= |p[k..]| && FailedAt(io, p[k..][n..], e);
    assert p[k..][n..] == p[k + n..];
  }

  /** Resolution of `s` re-enters itself with the same path: the claiming
      handler has the empty protocol (so stripping leaves `s` unchanged),
      falls back, and its backend fails on `s`. */
  ghost predicate EmptyProtocolLoopAt(io: BevassetIo, s: Path)
    reads io
  {
    && FirstMatch(io.handlers, s).Some?
    && var h := io.handlers[FirstMatch(io.handlers, s).value];
    && h.protocol == ""
    && StripPrefix(s, h.protocol) == Some(s)
    && h.fallbackOnErr
    && h.assetIo.load(s).Err?
  }

  /** A load that never returns reached, after stripping protocols, a path
      whose resolution calls itself again with identical arguments. */
  lemma {:induction false} DivergenceIsAnEmptyProtocolLoop(io: BevassetIo, p: Path)
    requires LoadPath(p, io).Diverges?
    ensures exists n :: 0 <= n <= |p| && EmptyProtocolLoopAt(io, p[n..])
    decreases |p|
  {
    var h := io.handlers[FirstMatch(io.handlers, p).value];
    if h.protocol == "" {
      assert p[0..] == p;
      assert EmptyProtocolLoopAt(io, p[0..]);
    } else {
      DivergencePassesToStrippedPath(io, p);
      DivergenceIsAnEmptyProtocolLoop(io, p[|h.protocol|..]);
      LoopInSuffix(io, p, |h.protocol|);
    }
  }

  /** A diverging load through a non-empty protocol diverges again on the
      stripped path. */
  lemma DivergencePassesToStrippedPath(io: BevassetIo, p: Path)
    requires LoadPath(p, io).Diverges?
    requires io.handlers[FirstMatch(io.handlers, p).value].protocol != ""
    ensures var protocol := io.handlers[FirstMatch(io.handlers, p).value].protocol;
      protocol <= p && LoadPath(p[|protocol|..], io).Diverges?
  {
  }

  /** A re-entering suffix of a suffix of `p` is a re-entering suffix of `p`. */
  lemma LoopInSuffix(io: BevassetIo, p: Path, k: nat)
    requires k <= |p|
    requires exists n :: 0 <= n <= |p[k..]| && EmptyProtocolLoopAt(io, p[k..][n..])
    ensures exists n :: 0 <= n <= |p| && EmptyProtocolLoopAt(io, p[n..])
  {
    var n :| 0 <= n <= |p[k..]| && EmptyProtocolLoopAt(io, p[k..][n..]);
    assert p[k..][n..] == p[k + n..];
  }

  /** Resolution of `s` is claimed by a handler whose protocol is not a string
      prefix of `s`, so stripping it fails. */
  ghost predicate MisalignedAt(io: BevassetIo, s: Path)
    reads io
  {
    && FirstMatch(io.handlers, s).Some?
    && !(io.handlers[FirstMatch(io.handlers, s).value].protocol <= s)
  }

  /** A load panics only where a handler claimed a path (by components) that
      does not start with its protocol string. */
  lemma {:induction false} PanicIsAMisalignedProtocol(io: BevassetIo, p: Path)
    requires LoadPath(p, io).Panics?
    ensures exists n :: 0 <= n <= |p| && MisalignedAt(io, p[n..])
    decreases |p|
  {
    var h := io.handlers[FirstMatch(io.handlers, p).value];
    if StripPrefix(p, h.protocol).None? {
      assert p[0..] == p;
      assert MisalignedAt(io, p[0..]);
    } else {
      var s := p[|h.protocol|..];
      PanicPassesToStrippedPath(io, p);
      PanicIsAMisalignedProtocol(io, s);
      MisalignedInSuffix(io, p, |h.protocol|);
    }
  }

  /** A misaligned suffix of a suffix of `p` is a misaligned suffix of `p`. */
  lemma MisalignedInSuffix(io: BevassetIo, p: Path, k: nat)
    requires k <= |p|
    requires exists n :: 0 <= n <= |p[k..]| && MisalignedAt(io, p[k..][n..])
    ensures exists n :: 0 <= n <= |p| && MisalignedAt(io, p[n..])
  {
    var n :| 0 <= n <= |p[k..]| && MisalignedAt(io, p[k..][n..]);
    assert p[k..][n..] == p[k + n..];
  }

  /** A panicking load whose protocol strips panics again on the stripped
      path. */
  lemma PanicPassesToStrippedPath(io: BevassetIo, p: Path)
    requires LoadPath(p, io).Panics?
    requires StripPrefix(p, io.handlers[FirstMatch(io.handlers, p).value].protocol).Some?
    ensures var s := StripPrefix(p, io.handlers[FirstMatch(io.handlers, p).value].protocol).value;
      |s| < |p| && LoadPath(s, io).Panics?
  {
  }

  /** Every protocol is a single non-empty component (no separator). */
  predicate SingleComponentProtocols(handlers: seq<HandlerConfig>)
  {
    forall j :: 0 <= j < |handlers| ==> handlers[j].protocol != "" && '/' !in handlers[j].protocol
  }

  /** With single-component protocols, loading and listing never panic and
      loading always returns. */
  lemma {:induction false} SingleComponentProtocolsAlwaysReturn(io: BevassetIo, p: Path)
    requires SingleComponentProtocols(io.handlers)
    ensures LoadPath(p, io).Returns?
    ensures io.ReadDirectory(p).Returns?
    decreases |p|
  {
    match FirstMatch(io.handlers, p)
    case Some(i) =>
      var h := io.handlers[i];
      SingleComponentMatchIsStringPrefix(h.protocol, p);
      var s := p[|h.protocol|..];
      SingleComponentProtocolsAlwaysReturn(io, s);
    case None =>
  }

  // ---------------------------------------------------------------------------
  // Directories

  /** Without a default backend, and for a path no handler claims, `p` is a
      directory exactly when some key lies strictly below it, component by
      component. A key equal to `p` does not make it a directory, and neither
      does a key that merely extends its string ("asset" and "asset.png"). */
  lemma EmbeddedIsDirectoryIff(io: BevassetIo, p: Path)
    requires io.defaultIo == None && FirstMatch(io.handlers, p) == None
    ensures io.IsDirectory(p) <==> exists k :: k in io.Keys() && Components(p) < Components(k)
  {
    assert SamePath(JoinEmpty(p), p);
  }

  /** A trailing separator does not change the embedded directory test. */
  lemma IsDirectoryIgnoresTrailingSlash(io: BevassetIo, p: Path)
    requires p != ""
    requires io.defaultIo == None && FirstMatch(io.handlers, p) == None
    ensures io.IsDirectory(p + "/") == io.IsDirectory(p)
  {
    ComponentsIgnoreTrailingSlash(p);
    FirstMatchBySamePath(io.handlers, p, p + "/");
    EmbeddedIsDirectoryIff(io, p);
    EmbeddedIsDirectoryIff(io, p + "/");
  }

  /** Without a default backend, listing a path no handler claims fails with an
      I/O not-found error when nothing lies below it; otherwise it lists every
      key at or below it (all descendants, not only children), the list is
      not empty, and every listed key loads from the embedded store. */
  lemma EmbeddedListing(io: BevassetIo, p: Path)
    requires io.Valid()
    requires io.defaultIo == None && FirstMatch(io.handlers, p) == None
    ensures io.ReadDirectory(p).Returns?
    ensures io.ReadDirectory(p).result.Err? <==>
      !exists k :: k in io.Keys() && Components(p) < Components(k)
    ensures io.ReadDirectory(p).result.Err? ==> io.ReadDirectory(p).result.error == Io(NotFoundKind)
    ensures io.ReadDirectory(p).result.Ok? ==>
      var listed := io.ReadDirectory(p).result.value;
      && listed != {}
      && (forall k :: k in listed <==> k in io.Keys() && ComponentPrefix(p, k))
      && (forall k :: k in listed ==> io.LoadEmbeddedPathSync(k).Ok?)
  {
    EmbeddedIsDirectoryIff(io, p);
    if io.IsDirectory(p) {
      var k :| k in io.Keys() && Components(p) < Components(k);
      assert k in io.ReadDirectory(p).result.value;
      forall k | k in io.Keys() ensures io.LoadEmbeddedPathSync(k).Ok? {
        var c :| c in io.embedded && io.embedded[c].path == k;
      }
    }
  }

  /** With a default backend, the embedded listing is consulted only when the
      backend cannot list `p`, and even then only when the backend says `p` is
      a directory: embedded keys alone never make a listing succeed. */
  lemma DefaultBackendGatesListing(io: BevassetIo, p: Path)
    requires io.defaultIo.Some? && FirstMatch(io.handlers, p) == None
    ensures io.defaultIo.value.readDirectory(p).Ok? ==>
      io.ReadDirectory(p) == Returns(io.defaultIo.value.readDirectory(p))
    ensures io.defaultIo.value.readDirectory(p).Err? && !io.defaultIo.value.isDirectory(p) ==>
      io.ReadDirectory(p) == Returns(Err(Io(NotFoundKind)))
    ensures io.defaultIo.value.readDirectory(p).Err? && io.defaultIo.value.isDirectory(p) ==>
      io.ReadDirectory(p) == Returns(Ok(set k | k in io.Keys() && ComponentPrefix(p, k)))
    ensures io.IsDirectory(p) == io.defaultIo.value.isDirectory(p)
  {
  }

  // ---------------------------------------------------------------------------
  // Asymmetries between the queries of a claiming handler

  /** A claiming handler lists the stripped path and is never fallen back
      from, whatever its fallback flag says; it answers the directory test and
      the watch for the unstripped path, and its answers are returned as they
      are. */
  lemma ClaimingHandlerQueries(io: BevassetIo, p: Path, i: nat)
    requires FirstMatch(io.handlers, p) == Some(i)
    ensures io.handlers[i].protocol <= p ==>
      io.ReadDirectory(p) == Returns(io.handlers[i].assetIo.readDirectory(p[|io.handlers[i].protocol|..]))
    ensures !(io.handlers[i].protocol <= p) ==> io.ReadDirectory(p) == Panics
    ensures io.IsDirectory(p) == io.handlers[i].assetIo.isDirectory(p)
    ensures io.WatchPathForChanges(p) == io.handlers[i].assetIo.watchPathForChanges(p)
  {
  }

  /** A path no handler claims can always be watched: the default backend's
      failure to watch it is reported as success. */
  lemma WatchWithoutHandlerSucceeds(io: BevassetIo, p: Path)
    requires FirstMatch(io.handlers, p) == None
    ensures io.WatchPathForChanges(p) == Ok(())
  {
    var r := io.WatchPathForChanges(p);
    assert r.Ok? ==> r.value == ();
  }
}

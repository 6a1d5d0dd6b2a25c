/**
 * Configurations of the resolver built through its registration methods, and
 * what its queries answer for them: the embedded-store, directory-test and
 * directory-listing scenarios of the library's own tests, protocol fallback,
 * first-match selection, the panic that a protocol ending in "//" causes for
 * a path with a single separator after it, and the endless re-entry of an
 * empty falling-back protocol. Each scenario is stated for every choice of
 * path names of the shape the tests use ("asset.png", "asset", "directory",
 * "dummy:" are one such choice).
 */
module Scenarios {

  import opened Optional
  import opened Paths
  import opened AssetIoTypes
  import opened Handlers
  import opened Bevasset
  import opened BevassetProperties

  /** A backend that knows nothing: every load and listing fails, nothing is a
      directory, and nothing can be watched. */
  function FailingBackend(): (b: AssetIo)
    ensures forall p :: b.load(p).Err? && b.readDirectory(p).Err? && !b.isDirectory(p)
    ensures forall p :: b.watchPathForChanges(p).Err?
  {
    AssetIo(
      p => Err(NotFound(p)),
      p => Err(Io(NotFoundKind)),
      p => false,
      p => Err(PathWatchError(p)),
      Err(Io(OtherKind("unsupported"))))
  }

  /** A backend that loads `data` for every path. */
  function ConstantBackend(data: Bytes): (b: AssetIo)
    ensures forall p :: b.load(p) == Ok(data)
  {
    AssetIo(
      p => Ok(data),
      p => Err(Io(NotFoundKind)),
      p => false,
      p => Ok(()),
      Ok(()))
  }

  /** A resolver without a default backend or handlers, holding `a` and `b`. */
  method TwoEmbedded(a: Path, da: Bytes, b: Path, db: Bytes) returns (io: BevassetIo)
    requires IsName(a) && IsName(b) && a != b
    ensures io.defaultIo == None && io.handlers == []
    ensures io.embedded == map[[a] := EmbeddedEntry(a, da), [b] := EmbeddedEntry(b, db)]
  {
    ComponentsOfRelative(a, "");
    ComponentsOfRelative(b, "");
    io := new BevassetIo.New();
    io.AddEmbeddedAsset(a, da);
    io.AddEmbeddedAsset(b, db);
  }

  /** Embedded lookups find both registered names and miss a strict string
      prefix of one of them and an unrelated name. */
  method LoadEmbeddedScenario(png: Path, other: Path, stem: Path, unknown: Path)
    returns (fromPng: Result<Bytes>, fromOther: Result<Bytes>,
             fromStem: Result<Bytes>, fromUnknown: Result<Bytes>)
    requires IsName(png) && IsName(other) && IsName(stem) && IsName(unknown)
    requires stem < png && other != png && stem != other
    requires unknown != png && unknown != other
    ensures fromPng == Ok([1, 2, 3]) && fromOther == Ok([4, 5, 6])
    ensures fromStem == Err(NotFound(stem)) && fromUnknown == Err(NotFound(unknown))
  {
    var io := TwoEmbedded(png, [1, 2, 3], other, [4, 5, 6]);
    ComponentsOfRelative(png, "");
    ComponentsOfRelative(other, "");
    ComponentsOfRelative(stem, "");
    ComponentsOfRelative(unknown, "");
    assert [stem][0] != png && [unknown][0] != png && [unknown][0] != other;
    fromPng := io.LoadEmbeddedPathSync(png);
    fromOther := io.LoadEmbeddedPathSync(other);
    fromStem := io.LoadEmbeddedPathSync(stem);
    fromUnknown := io.LoadEmbeddedPathSync(unknown);
  }

  /** Registering a path again keeps only the latest bytes, also when the
      second registration spells the path differently. */
  method OverwriteScenario(name: Path) returns (r: Result<Bytes>, keys: set<Path>)
    requires IsName(name)
    ensures r == Ok([7])
    ensures keys == {name}
  {
    ComponentsOfRelative(name, "");
    ComponentsOfNameSlash(name);
    var io := new BevassetIo.New();
    io.AddEmbeddedAsset(name, [1, 2, 3]);
    io.AddEmbeddedAsset(name + "/", [7]);
    r := io.LoadEmbeddedPathSync(name);
    keys := io.Keys();
  }

  /** In a store of two keys, a path is a directory when its components are a
      strict prefix of either key's. */
  lemma DirectoryOfTwoKeys(io: BevassetIo, a: Path, b: Path, p: Path)
    requires io.handlers == [] && io.defaultIo == None
    requires io.Keys() == {a, b}
    ensures io.IsDirectory(p) <==> Components(p) < Components(a) || Components(p) < Components(b)
  {
    EmbeddedIsDirectoryIff(io, p);
    SomeKeyBelow(io.Keys(), a, b, b, p);
  }

  /** A leaf key and a strict string prefix of it are not directories; a
      parent of a key is one, with or without a trailing separator; a string
      prefix of a key inside that directory is not. */
  method IsDirectoryScenario(leaf: Path, stem: Path, dir: Path)
    returns (isLeaf: bool, isStem: bool, isDir: bool, isDirSlash: bool, isInner: bool)
    requires IsName(leaf) && IsName(stem) && IsName(dir)
    requires stem < leaf && dir != leaf && dir != stem
    ensures !isLeaf && !isStem && isDir && isDirSlash && !isInner
  {
    ComponentsOfRelative(leaf, "");
    ComponentsOfNamePair(dir, leaf);
    var inLeaf := dir + "/" + leaf;
    var io := new BevassetIo.New();
    io.AddEmbeddedAsset(leaf, []);
    io.AddEmbeddedAsset(inLeaf, []);
    assert io.Keys() == {leaf, inLeaf};
    ComponentsOfRelative(stem, "");
    ComponentsOfRelative(dir, "");
    ComponentsOfNameSlash(dir);
    ComponentsOfNamePair(dir, stem);
    DirectoryOfTwoKeys(io, leaf, inLeaf, leaf);
    DirectoryOfTwoKeys(io, leaf, inLeaf, stem);
    DirectoryOfTwoKeys(io, leaf, inLeaf, dir);
    DirectoryOfTwoKeys(io, leaf, inLeaf, dir + "/");
    DirectoryOfTwoKeys(io, leaf, inLeaf, dir + "/" + stem);
    assert [dir] < [dir, leaf];
    isLeaf := io.IsDirectory(leaf);
    isStem := io.IsDirectory(stem);
    isDir := io.IsDirectory(dir);
    isDirSlash := io.IsDirectory(dir + "/");
    isInner := io.IsDirectory(dir + "/" + stem);
  }

  /** In a store of three keys, a path is a directory when its components are
      a strict prefix of some key's. */
  lemma DirectoryOfThreeKeys(io: BevassetIo, a: Path, b: Path, c: Path, p: Path)
    requires io.handlers == [] && io.defaultIo == None
    requires io.Keys() == {a, b, c}
    ensures io.IsDirectory(p) <==>
      Components(p) < Components(a) || Components(p) < Components(b) || Components(p) < Components(c)
  {
    EmbeddedIsDirectoryIff(io, p);
    SomeKeyBelow(io.Keys(), a, b, c, p);
  }

  /** Some key of `{a, b, c}` lies strictly below `p` exactly when one of the
      three does. */
  lemma SomeKeyBelow(keys: set<Path>, a: Path, b: Path, c: Path, p: Path)
    requires keys == {a, b, c}
    ensures (exists k :: k in keys && Components(p) < Components(k)) <==>
      Components(p) < Components(a) || Components(p) < Components(b) || Components(p) < Components(c)
  {
    if exists k :: k in keys && Components(p) < Components(k) {
      var k :| k in keys && Components(p) < Components(k);
      assert k == a || k == b || k == c;
    } else {
      assert a in keys && b in keys && c in keys;
    }
  }

  /** In a store of three keys, listing a path fails when its components are
      a strict prefix of no key's, and otherwise gives the keys at or below
      it. */
  lemma ListingOfThreeKeys(io: BevassetIo, a: Path, b: Path, c: Path, p: Path)
    requires io.handlers == [] && io.defaultIo == None
    requires io.Keys() == {a, b, c}
    ensures !(Components(p) < Components(a) || Components(p) < Components(b) ||
              Components(p) < Components(c)) ==>
      io.ReadDirectory(p) == Returns(Err(Io(NotFoundKind)))
    ensures Components(p) < Components(a) || Components(p) < Components(b) ||
            Components(p) < Components(c) ==>
      io.ReadDirectory(p) == Returns(Ok(set k | k in {a, b, c} && ComponentPrefix(p, k)))
  {
    DirectoryOfThreeKeys(io, a, b, c, p);
    ListingIsEmbedded(io, p);
    KeysBelow(io, a, b, c, p);
  }

  /** Without handlers or a default backend, listing is the embedded listing. */
  lemma ListingIsEmbedded(io: BevassetIo, p: Path)
    requires io.handlers == [] && io.defaultIo == None
    ensures io.ReadDirectory(p) == Returns(ReadEmbeddedDirectory(io, p))
  {
  }

  /** The keys at or below `p`, for a store whose keys are `keys`. */
  lemma KeysBelow(io: BevassetIo, a: Path, b: Path, c: Path, p: Path)
    requires io.Keys() == {a, b, c}
    ensures (set k | k in io.Keys() && ComponentPrefix(p, k)) == (set k | k in {a, b, c} && ComponentPrefix(p, k))
  {
  }

  /** The keys of `leaf`, `dir/leaf` and `dir/leaf2` that lie at or below
      `dir`, and which of them lie strictly below `leaf` and `dir`. */
  lemma KeysOfTwoLevels(leaf: Path, leaf2: Path, dir: Path)
    requires IsName(leaf) && IsName(leaf2) && IsName(dir)
    requires leaf != leaf2 && dir != leaf
    ensures var keys := {leaf, dir + "/" + leaf, dir + "/" + leaf2};
      && (set k | k in keys && ComponentPrefix(dir, k)) == {dir + "/" + leaf, dir + "/" + leaf2}
      && Components(dir) < Components(dir + "/" + leaf)
      && !(Components(leaf) < Components(leaf))
      && !(Components(leaf) < Components(dir + "/" + leaf))
      && !(Components(leaf) < Components(dir + "/" + leaf2))
  {
    ComponentsOfTwoLevels(leaf, leaf2, dir);
    PrefixedKeys(leaf, dir + "/" + leaf, dir + "/" + leaf2, dir);
  }

  /** How `leaf`, `dir/leaf` and `dir/leaf2` sit below `leaf` and `dir`. */
  lemma ComponentsOfTwoLevels(leaf: Path, leaf2: Path, dir: Path)
    requires IsName(leaf) && IsName(leaf2) && IsName(dir)
    requires leaf != leaf2 && dir != leaf
    ensures !ComponentPrefix(dir, leaf)
    ensures ComponentPrefix(dir, dir + "/" + leaf) && ComponentPrefix(dir, dir + "/" + leaf2)
    ensures Components(dir) < Components(dir + "/" + leaf)
    ensures !(Components(leaf) < Components(leaf))
    ensures !(Components(leaf) < Components(dir + "/" + leaf))
    ensures !(Components(leaf) < Components(dir + "/" + leaf2))
  {
    ComponentsOfRelative(leaf, "");
    ComponentsOfRelative(dir, "");
    ComponentsOfNamePair(dir, leaf);
    ComponentsOfNamePair(dir, leaf2);
    assert [dir] < [dir, leaf];
    assert [dir] <= [dir, leaf2];
    assert [dir, leaf][0] != leaf && [dir, leaf2][0] != leaf && [leaf][0] != dir;
  }

  /** Of three keys, those at or below `p` are the last two when only they are. */
  lemma PrefixedKeys(a: Path, b: Path, c: Path, p: Path)
    requires !ComponentPrefix(p, a) && ComponentPrefix(p, b) && ComponentPrefix(p, c)
    ensures (set k | k in {a, b, c} && ComponentPrefix(p, k)) == {b, c}
  {
  }

  /** The keys of a store whose three entries have distinct components. */
  lemma KeysOfThreeEntries(io: BevassetIo, c1: seq<Component>, c2: seq<Component>, c3: seq<Component>,
                           a: Path, b: Path, c: Path)
    requires c1 != c2 && c1 != c3 && c2 != c3
    requires io.embedded == map[c1 := EmbeddedEntry(a, []), c2 := EmbeddedEntry(b, []), c3 := EmbeddedEntry(c, [])]
    ensures io.Keys() == {a, b, c}
  {
    assert a == io.embedded[c1].path;
    assert b == io.embedded[c2].path;
    assert c == io.embedded[c3].path;
  }

  /** A resolver without backends holding `leaf`, `dir/leaf` and `dir/leaf2`. */
  method TwoLevelStore(leaf: Path, leaf2: Path, dir: Path) returns (io: BevassetIo)
    requires IsName(leaf) && IsName(leaf2) && IsName(dir)
    requires leaf != leaf2 && dir != leaf
    ensures io.handlers == [] && io.defaultIo == None
    ensures io.embedded == map[[leaf] := EmbeddedEntry(leaf, []),
                               [dir, leaf] := EmbeddedEntry(dir + "/" + leaf, []),
                               [dir, leaf2] := EmbeddedEntry(dir + "/" + leaf2, [])]
  {
    ComponentsOfRelative(leaf, "");
    ComponentsOfNamePair(dir, leaf);
    ComponentsOfNamePair(dir, leaf2);
    io := new BevassetIo.New();
    io.AddEmbeddedAsset(leaf, []);
    io.AddEmbeddedAsset(dir + "/" + leaf, []);
    io.AddEmbeddedAsset(dir + "/" + leaf2, []);
  }

  /** Listing a leaf fails with an I/O not-found error; listing a directory
      gives exactly the keys below it. */
  method ReadDirectoryScenario(leaf: Path, leaf2: Path, dir: Path)
    returns (ofLeaf: Outcome<set<Path>>, ofDir: Outcome<set<Path>>)
    requires IsName(leaf) && IsName(leaf2) && IsName(dir)
    requires leaf != leaf2 && dir != leaf
    ensures ofLeaf == Returns(Err(Io(NotFoundKind)))
    ensures ofDir == Returns(Ok({dir + "/" + leaf, dir + "/" + leaf2}))
  {
    var io := TwoLevelStore(leaf, leaf2, dir);
    var inLeaf, inLeaf2 := dir + "/" + leaf, dir + "/" + leaf2;
    KeysOfThreeEntries(io, [leaf], [dir, leaf], [dir, leaf2], leaf, inLeaf, inLeaf2);
    KeysOfTwoLevels(leaf, leaf2, dir);
    ListingOfThreeKeys(io, leaf, inLeaf, inLeaf2, leaf);
    ListingOfThreeKeys(io, leaf, inLeaf, inLeaf2, dir);
    ofLeaf := io.ReadDirectory(leaf);
    ofDir := io.ReadDirectory(dir);
  }

  /** A resolver without a default backend, with one handler for `protocol`
      backed by `FailingBackend`, and `name` embedded. */
  method StoreBehindFailingHandler(protocol: Path, fallback: bool, name: Path) returns (io: BevassetIo)
    requires IsName(name)
    ensures io.defaultIo == None
    ensures io.handlers == [HandlerConfig(protocol, fallback, FailingBackend())]
    ensures io.embedded == map[[name] := EmbeddedEntry(name, [9])]
  {
    ComponentsOfRelative(name, "");
    io := new BevassetIo.New();
    var h := HandlerConfig.New(protocol, FailingBackend());
    if fallback {
      h := h.FallbackOnErr();
    }
    io.AddHandler(h);
    io.AddEmbeddedAsset(name, [9]);
  }

  /** A first handler for "<scheme>//" claims "<scheme>//<name>" and strips
      it to `name`; when it is the only handler and `name` differs from
      `scheme`, nothing claims `name`. */
  lemma SchemeSelection(handlers: seq<HandlerConfig>, scheme: Path, name: Path)
    requires IsName(scheme) && IsName(name)
    requires |handlers| >= 1 && handlers[0].protocol == scheme + "//"
    ensures FirstMatch(handlers, scheme + "//" + name) == Some(0)
    ensures (scheme + "//" + name)[|scheme + "//"|..] == name
    ensures |handlers| == 1 && scheme != name ==> FirstMatch(handlers, name) == None
  {
    ComponentsOfNameDoubleSlash(scheme);
    ComponentsOfNameDoubleSlashName(scheme, name);
    ComponentsOfRelative(name, "");
    if |handlers| == 1 && scheme != name {
      assert [name][0] != scheme;
    }
    assert (scheme + "//" + name)[|scheme + "//"|..] == name;
  }

  /** A falling-back handler whose backend fails hands the path WITHOUT its
      protocol to the resolver, which finds it in the embedded store. */
  method FallbackScenario(scheme: Path, name: Path) returns (r: Outcome<Bytes>)
    requires IsName(scheme) && IsName(name) && scheme != name
    ensures r == Returns(Ok([9]))
  {
    var io := StoreBehindFailingHandler(scheme + "//", true, name);
    var path := scheme + "//" + name;
    SchemeSelection(io.handlers, scheme, name);
    assert io.handlers[0].assetIo.load(name).Err?;
    LoadViaClaimingHandler(io, path, 0);
    assert LoadPath(path, io) == LoadPath(name, io);
    LoadWithoutHandler(io, name);
    ComponentsOfRelative(name, "");
    assert io.LoadEmbeddedPathSync(name) == Ok([9]);
    r := LoadPath(path, io);
  }

  /** Without the fallback flag the backend's error is returned as it is, even
      though the embedded store holds the stripped path. */
  method NoFallbackScenario(scheme: Path, name: Path) returns (r: Outcome<Bytes>)
    requires IsName(scheme) && IsName(name)
    ensures r == Returns(Err(NotFound(name)))
  {
    var io := StoreBehindFailingHandler(scheme + "//", false, name);
    var path := scheme + "//" + name;
    SchemeSelection(io.handlers, scheme, name);
    LoadViaClaimingHandler(io, path, 0);
    r := LoadPath(path, io);
  }

  /** Of two handlers whose protocols both apply, the one registered first
      serves the load. */
  method FirstHandlerWinsScenario(scheme: Path, name: Path) returns (r: Outcome<Bytes>)
    requires IsName(scheme) && IsName(name)
    ensures r == Returns(Ok([1]))
  {
    var protocol := scheme + "//";
    var io := new BevassetIo.New();
    io.AddHandler(HandlerConfig.New(protocol, ConstantBackend([1])));
    io.AddHandler(HandlerConfig.New(protocol + name, ConstantBackend([2])));
    var path := protocol + name;
    SchemeSelection(io.handlers, scheme, name);
    LoadViaClaimingHandler(io, path, 0);
    r := LoadPath(path, io);
  }

  /** A protocol "<scheme>//" applies, component by component, to
      "<scheme>/<name>", which does not start with that protocol string:
      stripping fails, and loading and listing panic. */
  method SingleSeparatorPanicScenario(scheme: Path, name: Path)
    returns (loaded: Outcome<Bytes>, listed: Outcome<set<Path>>)
    requires IsName(scheme) && IsName(name)
    ensures loaded == Panics && listed == Panics
  {
    var protocol := scheme + "//";
    ComponentsOfNameDoubleSlash(scheme);
    ComponentsOfNamePair(scheme, name);
    var io := new BevassetIo.New();
    io.AddHandler(HandlerConfig.New(protocol, FailingBackend()));
    var path := scheme + "/" + name;
    assert FirstMatch(io.handlers, path) == Some(0);
    assert path[|scheme| + 1] != '/';
    assert !(protocol <= path);
    LoadViaClaimingHandler(io, path, 0);
    ClaimingHandlerQueries(io, path, 0);
    loaded := LoadPath(path, io);
    listed := io.ReadDirectory(path);
  }

  /** A handler with the empty protocol applies to every path; when it falls
      back and its backend fails, resolution calls itself with the same path
      and never returns, even for a path the embedded store holds. */
  method EmptyProtocolScenario(name: Path) returns (r: Outcome<Bytes>)
    requires IsName(name)
    ensures r == Diverges
  {
    var io := StoreBehindFailingHandler("", true, name);
    assert Components("") == [];
    assert FirstMatch(io.handlers, name) == Some(0);
    LoadViaClaimingHandler(io, name, 0);
    r := LoadPath(name, io);
  }
}

/**
 * Handler configuration and first-match selection: a handler applies to a
 * path when its protocol is a component prefix of the path, and among the
 * handlers that apply the one registered first is chosen.
 */
module Handlers {

  import opened Optional
  import opened Paths
  import opened AssetIoTypes

  /** A protocol, whether a failed load falls back to the resolver, and the
      backend that serves the protocol's paths. */
  datatype HandlerConfig = HandlerConfig(protocol: string, fallbackOnErr: bool, assetIo: AssetIo)
  {
    /** A handler that does not fall back. */
    static function New(protocol: string, assetIo: AssetIo): (h: HandlerConfig)
      ensures h.protocol == protocol && h.assetIo == assetIo
      ensures !h.fallbackOnErr
    {
      HandlerConfig(protocol, false, assetIo)
    }

    /** The same handler, now falling back to the resolver when its backend
        fails to load. */
    function FallbackOnErr(): (h: HandlerConfig)
      ensures h.protocol == protocol && h.assetIo == assetIo
      ensures h.fallbackOnErr
    {
      this.(fallbackOnErr := true)
    }
  }

  /** Whether a handler applies to `path`. */
  predicate Matches(h: HandlerConfig, path: Path)
  {
    ComponentPrefix(h.protocol, path)
  }

  /** The position of the first sequence in `prefixes` that is a prefix of
      `s`; `None` when none is. */
  function FirstPrefix<T(==)>(prefixes: seq<seq<T>>, s: seq<T>): (r: Option<nat>)
    ensures r.Some? ==> r.value < |prefixes| && prefixes[r.value] <= s
  {
    if prefixes == [] then None
    else if prefixes[0] <= s then Some(0)
    else
      match FirstPrefix(prefixes[1..], s)
      case None => None
      case Some(k) => Some(k + 1)
  }

  /** No sequence before the chosen one is a prefix of `s`; `None` means
      that none at all is. */
  lemma {:induction false} FirstPrefixIsFirst<T>(prefixes: seq<seq<T>>, s: seq<T>)
    ensures var r := FirstPrefix(prefixes, s);
      && (r.Some? ==> forall j :: 0 <= j < r.value ==> !(prefixes[j] <= s))
      && (r.None? ==> forall j :: 0 <= j < |prefixes| ==> !(prefixes[j] <= s))
  {
    if prefixes != [] && !(prefixes[0] <= s) {
      FirstPrefixIsFirst(prefixes[1..], s);
      forall j | 1 <= j < |prefixes|
        ensures prefixes[j] == prefixes[1..][j - 1]
      {
      }
    }
  }

  /** Appending a candidate keeps an earlier choice, and otherwise chooses
      the new candidate exactly when it is a prefix of `s`. */
  lemma {:induction false} FirstPrefixAppend<T>(prefixes: seq<seq<T>>, p: seq<T>, s: seq<T>)
    ensures FirstPrefix(prefixes + [p], s) ==
      if FirstPrefix(prefixes, s).Some? then FirstPrefix(prefixes, s)
      else if p <= s then Some(|prefixes|)
      else None
  {
    if prefixes != [] {
      assert (prefixes + [p])[0] == prefixes[0];
      assert (prefixes + [p])[1..] == prefixes[1..] + [p];
      FirstPrefixAppend(prefixes[1..], p, s);
    }
  }

  /** The components of every handler's protocol, in registration order. */
  function ProtocolComponents(handlers: seq<HandlerConfig>): seq<seq<Component>>
  {
    seq(|handlers|, j requires 0 <= j < |handlers| => Components(handlers[j].protocol))
  }

  /** The position of the first handler, in registration order, that applies
      to `path`; `None` when none does. The path is split into components
      once, and every protocol's components are compared with them. */
  function FirstMatch(handlers: seq<HandlerConfig>, path: Path): (r: Option<nat>)
    ensures r.Some? ==> r.value < |handlers| && Matches(handlers[r.value], path)
  {
    FirstPrefix(ProtocolComponents(handlers), Components(path))
  }

  /** The chosen handler is the first that applies, and `None` means that no
      handler applies. */
  lemma FirstMatchIsFirst(handlers: seq<HandlerConfig>, path: Path)
    ensures var r := FirstMatch(handlers, path);
      && (r.Some? ==> forall j :: 0 <= j < r.value ==> !Matches(handlers[j], path))
      && (r.None? ==> forall j :: 0 <= j < |handlers| ==> !Matches(handlers[j], path))
  {
    var prefixes := ProtocolComponents(handlers);
    FirstPrefixIsFirst(prefixes, Components(path));
    assert forall j :: 0 <= j < |handlers| ==> prefixes[j] == Components(handlers[j].protocol);
  }

  /** Appending a handler never changes the choice for a path that an earlier
      handler already claims; for any other path, the new handler is chosen
      exactly when it applies. */
  lemma FirstMatchAppend(handlers: seq<HandlerConfig>, h: HandlerConfig, path: Path)
    ensures FirstMatch(handlers + [h], path) ==
      if FirstMatch(handlers, path).Some? then FirstMatch(handlers, path)
      else if Matches(h, path) then Some(|handlers|)
      else None
  {
    assert ProtocolComponents(handlers + [h]) == ProtocolComponents(handlers) + [Components(h.protocol)];
    FirstPrefixAppend(ProtocolComponents(handlers), Components(h.protocol), Components(path));
  }

  /** Selection depends only on the components of the path. */
  lemma FirstMatchBySamePath(handlers: seq<HandlerConfig>, p: Path, q: Path)
    requires SamePath(p, q)
    ensures FirstMatch(handlers, p) == FirstMatch(handlers, q)
  {
  }
}

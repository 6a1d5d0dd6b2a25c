/**
 * Paths as the resolver sees them: a path is a string, but two different
 * comparisons are applied to it. Handler selection, embedded-key equality and
 * directory membership compare COMPONENTS (Rust's `Path::starts_with` and
 * `Path == Path`), while the protocol is removed with a plain STRING prefix
 * test (`str::strip_prefix`). This module defines both and relates them.
 */
module Paths {

  import opened Optional

  type Path = string
  type Component = string

  /** The component that stands for a leading separator (Rust's `RootDir`). */
  const RootDir: Component := "/"
  /** The component that stands for a leading "." (Rust's `CurDir`). */
  const CurDir: Component := "."

  /** Index of the first separator in `s`, or `|s|` when there is none. */
  function SlashIndex(s: string): (i: nat)
    ensures i <= |s|
  {
    if |s| == 0 || s[0] == '/' then 0 else 1 + SlashIndex(s[1..])
  }

  /** `SlashIndex` finds the first separator. */
  lemma {:induction false} SlashIndexIsFirstSeparator(s: string)
    ensures forall j :: 0 <= j < SlashIndex(s) ==> s[j] != '/'
    ensures SlashIndex(s) < |s| ==> s[SlashIndex(s)] == '/'
  {
    if s != [] && s[0] != '/' {
      SlashIndexIsFirstSeparator(s[1..]);
    }
  }

  /** The segment before the first separator, as a list of at most one component:
      empty segments (doubled separators) and "." segments are dropped. */
  function Segment(seg: string): seq<Component>
  {
    if |seg| == 0 || (|seg| == 1 && seg[0] == '.') then [] else [seg]
  }

  /** The normal components of `s`: the separator-delimited segments that are
      neither empty nor ".". */
  function Segments(s: string): seq<Component>
    decreases |s|
  {
    if |s| == 0 then []
    else
      var i := SlashIndex(s);
      Segment(s[..i]) + (if i == |s| then [] else Segments(s[i + 1..]))
  }

  /** Every segment is a name: not empty, not ".", without a separator. */
  lemma {:induction false} SegmentsAreNames(s: string)
    ensures forall k :: 0 <= k < |Segments(s)| ==> IsName(Segments(s)[k])
    decreases |s|
  {
    if s != [] {
      var i := SlashIndex(s);
      SlashIndexIsFirstSeparator(s);
      assert '/' !in s[..i];
      if i < |s| {
        SegmentsAreNames(s[i + 1..]);
      }
    }
  }

  /** `s` begins with the current-directory component: it is "." or starts with "./". */
  predicate StartsWithCurDir(s: string)
  {
    |s| > 0 && s[0] == '.' && (|s| == 1 || s[1] == '/')
  }

  /** The components of a path, as Rust's `Path::components` yields them on a
      Unix host: a leading separator gives `RootDir`, a leading "." gives
      `CurDir`, and every other non-empty, non-"." segment is a component.
      Only the empty path has no components. */
  function Components(s: Path): (r: seq<Component>)
    ensures r == [] <==> s == ""
  {
    if |s| > 0 && s[0] == '/' then [RootDir] + Segments(s[1..])
    else if StartsWithCurDir(s) then [CurDir] + Segments(s[1..])
    else
      assert s != "" ==> Segments(s) != [] by {
        if s != "" {
          var i := SlashIndex(s);
          SlashIndexIsFirstSeparator(s);
          assert s[..i] == "." ==> StartsWithCurDir(s);
        }
      }
      Segments(s)
  }

  /** Whether `path` starts with `base` component by component (`Path::starts_with`). */
  predicate ComponentPrefix(base: Path, path: Path)
  {
    Components(base) <= Components(path)
  }

  /** Whether two paths are equal as Rust compares `Path`s: component by component. */
  predicate SamePath(a: Path, b: Path)
  {
    Components(a) == Components(b)
  }

  /** `str::strip_prefix`: the rest of `s` after `prefix`, when `s` starts with it. */
  function StripPrefix(s: string, prefix: string): (r: Option<string>)
    ensures r.Some? <==> prefix <= s
    ensures r.Some? ==> prefix + r.value == s && |r.value| == |s| - |prefix|
  {
    if prefix <= s then Some(s[|prefix|..]) else None
  }

  /** `path.join("")`: a separator is appended unless `path` is empty or already
      ends with one. The components are unchanged, so the result names the same
      path. */
  function JoinEmpty(path: Path): (r: Path)
    ensures r == path || r == path + "/"
    ensures SamePath(r, path)
  {
    if path == "" || path[|path| - 1] == '/' then path
    else
      ComponentsIgnoreTrailingSlash(path);
      path + "/"
  }

  lemma SlashIndexAppend(s: string, t: string)
    requires SlashIndex(s) < |s|
    ensures SlashIndex(s + t) == SlashIndex(s)
  {
    if s[0] != '/' {
      assert (s + t)[1..] == s[1..] + t;
      SlashIndexAppend(s[1..], t);
    }
  }

  lemma SlashIndexAppendSlash(s: string)
    requires SlashIndex(s) == |s|
    ensures SlashIndex(s + "/") == |s|
  {
    if s != [] {
      assert (s + "/")[1..] == s[1..] + "/";
      SlashIndexAppendSlash(s[1..]);
    }
  }

  /** A trailing separator adds no segment. */
  lemma {:induction false} SegmentsIgnoreTrailingSlash(s: string)
    ensures Segments(s + "/") == Segments(s)
    decreases |s|
  {
    var t := s + "/";
    if s == [] {
      assert SlashIndex(t) == 0;
      assert t[1..] == [];
    } else {
      var i := SlashIndex(s);
      if i == |s| {
        SlashIndexAppendSlash(s);
        assert t[..i] == s[..i];
        assert t[i + 1..] == [];
      } else {
        SlashIndexAppend(s, "/");
        assert t[..i] == s[..i];
        assert t[i + 1..] == s[i + 1..] + "/";
        SegmentsIgnoreTrailingSlash(s[i + 1..]);
      }
    }
  }

  /** Appending a separator to a non-empty path does not change its components. */
  lemma ComponentsIgnoreTrailingSlash(s: Path)
    requires s != ""
    ensures Components(s + "/") == Components(s)
  {
    var t := s + "/";
    assert t[1..] == s[1..] + "/";
    SegmentsIgnoreTrailingSlash(s[1..]);
    if s[0] != '/' && !StartsWithCurDir(s) {
      assert !StartsWithCurDir(t);
      SegmentsIgnoreTrailingSlash(s);
    }
  }

  /** A single path name: not empty, not ".", and without a separator. */
  predicate IsName(a: string)
  {
    a != "" && a != "." && '/' !in a
  }

  lemma {:induction false} SlashIndexSkipsName(a: string, t: string)
    requires '/' !in a
    ensures SlashIndex(a + t) == |a| + SlashIndex(t)
  {
    if a != [] {
      assert (a + t)[0] == a[0];
      assert (a + t)[1..] == a[1..] + t;
      SlashIndexSkipsName(a[1..], t);
    } else {
      assert a + t == t;
    }
  }

  /** A name followed by a separator contributes exactly that name. */
  lemma SegmentsOfName(a: string, rest: string)
    requires IsName(a)
    ensures Segments(a) == [a]
    ensures Segments(a + "/" + rest) == [a] + Segments(rest)
  {
    SlashIndexSkipsName(a, "");
    assert a + "" == a;
    assert a[..|a|] == a;
    var t := a + "/" + rest;
    SlashIndexSkipsName(a, "/" + rest);
    assert t == a + ("/" + rest);
    assert t[..|a|] == a;
    assert t[|a| + 1..] == rest;
  }

  /** A leading separator contributes no segment. */
  lemma SegmentsOfLeadingSlash(rest: string)
    ensures Segments("/" + rest) == Segments(rest)
  {
    var t := "/" + rest;
    assert SlashIndex(t) == 0;
    assert t[1..] == rest;
  }

  /** A path that starts with a name has its segments as components. */
  lemma ComponentsOfRelative(a: string, rest: string)
    requires IsName(a)
    ensures Components(a) == [a]
    ensures Components(a + "/" + rest) == [a] + Segments(rest)
  {
    SegmentsOfName(a, rest);
    var t := a + "/" + rest;
    assert t[0] == a[0];
    assert !StartsWithCurDir(t) by {
      if |a| == 1 { assert a == [a[0]]; }
      assert t[1] == if |a| == 1 then '/' else a[1];
    }
    assert !StartsWithCurDir(a) by {
      if |a| == 1 { assert a == [a[0]]; }
    }
  }

  /** A name followed by a separator has that name as its only component. */
  lemma ComponentsOfNameSlash(a: string)
    requires IsName(a)
    ensures Components(a + "/") == [a]
  {
    ComponentsOfRelative(a, "");
    ComponentsIgnoreTrailingSlash(a);
  }

  /** A name, a separator and a name: two components. */
  lemma ComponentsOfNamePair(a: string, b: string)
    requires IsName(a) && IsName(b)
    ensures Components(a + "/" + b) == [a, b]
  {
    ComponentsOfRelative(a, b);
    SegmentsOfName(b, "");
  }

  /** A name followed by a doubled separator has that name as its only
      component. */
  lemma ComponentsOfNameDoubleSlash(a: string)
    requires IsName(a)
    ensures Components(a + "//") == [a]
  {
    ComponentsOfNameSlash(a);
    ComponentsIgnoreTrailingSlash(a + "/");
    assert a + "/" + "/" == a + "//";
  }

  /** A doubled separator between two names counts as one. */
  lemma ComponentsOfNameDoubleSlashName(a: string, b: string)
    requires IsName(a) && IsName(b)
    ensures Components(a + "//" + b) == [a, b]
  {
    ComponentsOfRelative(a, "/" + b);
    SegmentsOfLeadingSlash(b);
    SegmentsOfName(b, "");
    assert a + "//" + b == a + "/" + ("/" + b);
  }

  /** A protocol that is a single component (non-empty, no separator) is
      component-prefixed to a path exactly when it is string-prefixed to it,
      and it is then followed by a separator or the end of the path. So for
      such a protocol, handler selection and protocol stripping agree. */
  lemma SingleComponentMatchIsStringPrefix(protocol: string, path: Path)
    requires protocol != "" && '/' !in protocol
    requires ComponentPrefix(protocol, path)
    ensures protocol <= path
  {
    var first := Components(path)[0];
    SegmentsAreNames(path);
    SlashIndexIsFirstSeparator(path);
    assert |path| > 0 && path[0] == '/' ==> first == RootDir;
    assert StartsWithCurDir(path) ==> first == CurDir;
    if protocol == "." {
      assert Components(protocol) == [CurDir];
      assert !(|path| > 0 && path[0] == '/') && !StartsWithCurDir(path) ==>
        first in Segments(path);
    } else {
      SlashIndexSkipsName(protocol, "");
      assert protocol + "" == protocol;
      assert protocol[..|protocol|] == protocol;
      assert Components(protocol) == [protocol];
      var i := SlashIndex(path);
      assert path[..i] == "." ==> StartsWithCurDir(path);
    }
  }
}

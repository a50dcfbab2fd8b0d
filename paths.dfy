/** A model of the small part of pathlib that the converter uses: joining a
    directory with a single file-name component, `Path.absolute()` and
    `str(path)`. */
module Paths {

  /** A path is absolute or relative, and a sequence of components. */
  datatype Path = Path(absolute: bool, parts: seq<string>)

  /** `base / name`, for a name that is one component (no separator). */
  function Join(base: Path, name: string): Path
  {
    Path(base.absolute, base.parts + [name])
  }

  /** `str(base / name)` is `str(base)`, a '/' and the name; for a base
      without components it is the name, after '/' for the root. */
  lemma JoinString(base: Path, name: string)
    ensures base.parts != [] ==> PathString(Join(base, name)) == PathString(base) + "/" + name
    ensures base.parts == [] ==> PathString(Join(base, name)) == (if base.absolute then "/" else "") + name
  {
  }

  /** Two joins that give the same path joined the same name. */
  lemma JoinLast(b1: Path, n1: string, b2: Path, n2: string)
    requires Join(b1, n1) == Join(b2, n2)
    ensures n1 == n2
  {
    var p := Join(b1, n1);
    assert p.parts[|p.parts| - 1] == n1;
    assert Join(b2, n2).parts[|Join(b2, n2).parts| - 1] == n2;
  }

  /** `path.absolute()`: a relative path is put under the working directory
      `cwd` (a sequence of components below the root). */
  function Absolute(p: Path, cwd: seq<string>): Path
  {
    if p.absolute then p else Path(true, cwd + p.parts)
  }

  /** The components joined by '/'. */
  function JoinParts(parts: seq<string>): string
  {
    if |parts| == 0 then ""
    else if |parts| == 1 then parts[0]
    else JoinParts(parts[..|parts| - 1]) + "/" + parts[|parts| - 1]
  }

  /** `str(path)`: "/" or "." for no components, otherwise the components
      joined by '/', with a leading '/' when absolute. */
  function PathString(p: Path): string
  {
    if p.parts == [] then (if p.absolute then "/" else ".")
    else (if p.absolute then "/" else "") + JoinParts(p.parts)
  }

  /** Joining two non-empty component lists puts one '/' between them. */
  lemma {:induction false} JoinPartsAppend(a: seq<string>, b: seq<string>)
    requires a != [] && b != []
    ensures JoinParts(a + b) == JoinParts(a) + "/" + JoinParts(b)
    decreases |b|
  {
    assert (a + b)[..|a + b| - 1] == a + b[..|b| - 1];
    if |b| > 1 {
      JoinPartsAppend(a, b[..|b| - 1]);
    }
  }

  /** `str(p.absolute())` is `str(p)` for an absolute path; for a relative
      one it is the working directory's string followed by '/' and `str(p)`,
      or just the working directory when `p` is `.`. Either way it begins
      with '/'. */
  lemma {:induction false} AbsoluteString(p: Path, cwd: seq<string>)
    ensures |PathString(Absolute(p, cwd))| >= 1 && PathString(Absolute(p, cwd))[0] == '/'
    ensures p.absolute ==> PathString(Absolute(p, cwd)) == PathString(p)
    ensures !p.absolute && p.parts == [] ==> PathString(Absolute(p, cwd)) == PathString(Path(true, cwd))
    ensures !p.absolute && p.parts != [] && cwd != [] ==>
              PathString(Absolute(p, cwd)) == PathString(Path(true, cwd)) + "/" + PathString(p)
    ensures !p.absolute && p.parts != [] && cwd == [] ==>
              PathString(Absolute(p, cwd)) == "/" + PathString(p)
  {
    var q := Absolute(p, cwd);
    if p.absolute {
      assert q == p;
    } else {
      assert q == Path(true, cwd + p.parts);
      if p.parts == [] {
        assert q.parts == cwd;
      } else {
        assert PathString(q) == "/" + JoinParts(cwd + p.parts);
        assert PathString(p) == JoinParts(p.parts);
        if cwd == [] {
          assert cwd + p.parts == p.parts;
        } else {
          JoinPartsAppend(cwd, p.parts);
          assert PathString(Path(true, cwd)) == "/" + JoinParts(cwd);
        }
      }
    }
  }

  /** The number of newline characters in a string. */
  function NewlineCount(s: string): nat
  {
    if s == [] then 0
    else NewlineCount(s[..|s| - 1]) + (if s[|s| - 1] == '\n' then 1 else 0)
  }

  lemma {:induction false} NewlineCountAppend(a: string, b: string)
    ensures NewlineCount(a + b) == NewlineCount(a) + NewlineCount(b)
    decreases |b|
  {
    if b == [] {
      assert a + b == a;
    } else {
      assert (a + b)[..|a + b| - 1] == a + b[..|b| - 1];
      NewlineCountAppend(a, b[..|b| - 1]);
    }
  }

  lemma {:induction false} NewlineFree(s: string)
    requires forall k :: 0 <= k < |s| ==> s[k] != '\n'
    ensures NewlineCount(s) == 0
  {
    if s != [] {
      NewlineFree(s[..|s| - 1]);
    }
  }

  /** No component of the path holds a newline. */
  predicate NoNewlines(p: Path)
  {
    forall k :: 0 <= k < |p.parts| ==> NewlineCount(p.parts[k]) == 0
  }

  /** A path whose components hold no newline prints without one. */
  lemma {:induction false} PathStringHasNoNewline(p: Path)
    requires NoNewlines(p)
    ensures NewlineCount(PathString(p)) == 0
  {
    if p.parts != [] {
      JoinPartsHasNoNewline(p.parts);
      NewlineCountAppend(if p.absolute then "/" else "", JoinParts(p.parts));
    }
  }

  lemma {:induction false} JoinPartsHasNoNewline(parts: seq<string>)
    requires forall k :: 0 <= k < |parts| ==> NewlineCount(parts[k]) == 0
    ensures NewlineCount(JoinParts(parts)) == 0
  {
    if |parts| > 1 {
      var init := parts[..|parts| - 1];
      JoinPartsHasNoNewline(init);
      NewlineCountAppend(JoinParts(init), "/");
      NewlineCountAppend(JoinParts(init) + "/", parts[|parts| - 1]);
    }
  }
}

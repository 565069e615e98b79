/**
 * The two pieces of Ruby's path handling that every core file leans on:
 * `File.join` with two arguments and `String#chomp('/')`.  Only '/' is a
 * separator (a backslash in a Windows host root is an ordinary character).
 */
module RubyPaths {
  predicate StartsWithSep(s: string) { |s| > 0 && s[0] == '/' }

  predicate EndsWithSep(s: string) { |s| > 0 && s[|s| - 1] == '/' }

  predicate EndsWith(s: string, suffix: string)
  {
    |suffix| <= |s| && s[|s| - |suffix|..] == suffix
  }

  /** `s` without its whole trailing run of separators. */
  function StripTrailingSeps(s: string): (r: string)
    ensures r <= s && !EndsWithSep(r)
    ensures forall i :: |r| <= i < |s| ==> s[i] == '/'
  {
    if EndsWithSep(s) then StripTrailingSeps(s[..|s| - 1]) else s
  }

  lemma StripTrailingSepsIdempotent(s: string)
    ensures StripTrailingSeps(StripTrailingSeps(s)) == StripTrailingSeps(s)
  {
  }

  /** What `File.join(a, b)` puts in front of `b`. */
  function JoinPrefix(a: string, b: string): string
  {
    if StartsWithSep(b) then StripTrailingSeps(a)
    else if EndsWithSep(a) then a
    else a + "/"
  }

  lemma JoinPrefixFacts(a: string, b: string)
    ensures StripTrailingSeps(JoinPrefix(a, b)) == StripTrailingSeps(a)
    ensures StartsWithSep(b) <==> !EndsWithSep(JoinPrefix(a, b))
  {
    if StartsWithSep(b) {
      StripTrailingSepsIdempotent(a);
    } else if !EndsWithSep(a) {
      assert (a + "/")[..|a|] == a;
    }
  }

  /**
   * `File.join(a, b)`: when `b` starts with a separator the trailing
   * separators of `a` are dropped; otherwise a single '/' is inserted unless
   * `a` already ends with one.  `File.join("a", "")` is "a/" and
   * `File.join("", "x")` is "/x".
   */
  function Join(a: string, b: string): string
  {
    JoinPrefix(a, b) + b
  }

  /**
   * What `Join` promises: the result ends with `b`; what precedes `b` is `a`
   * up to trailing separators; the boundary separator comes from `b` or
   * from the prefix but not from both.  In full: a leading separator of `b`
   * replaces all trailing ones of `a`; otherwise `a` is kept whole, followed
   * by exactly one inserted '/' when it does not already end with one.
   */
  lemma JoinCharacterized(a: string, b: string)
    ensures var r := Join(a, b);
      && EndsWith(r, b)
      && StripTrailingSeps(r[..|r| - |b|]) == StripTrailingSeps(a)
      && (StartsWithSep(b) <==> !EndsWithSep(r[..|r| - |b|]))
      && (StartsWithSep(b) ==> r == StripTrailingSeps(a) + b)
      && (!StartsWithSep(b) && EndsWithSep(a) ==> r == a + b)
      && (!StartsWithSep(b) && !EndsWithSep(a) ==> r == a + "/" + b)
  {
    var p := JoinPrefix(a, b);
    assert (p + b)[..|p|] == p && (p + b)[|p|..] == b;
    JoinPrefixFacts(a, b);
  }

  /** `String#chomp('/')`: removes exactly one trailing '/', if there is one. */
  function Chomp(s: string): (r: string)
    ensures EndsWithSep(s) ==> s == r + "/"
    ensures !EndsWithSep(s) ==> r == s
  {
    if EndsWithSep(s) then s[..|s| - 1] else s
  }

  /** `s` does not end with two separators in a row. */
  predicate NoDoubleTrailingSep(s: string)
  {
    !(EndsWithSep(s) && EndsWithSep(s[..|s| - 1]))
  }

  /** A directory-entry name as a listing reports it: non-empty, no separator at either end. */
  predicate PlainName(name: string)
  {
    name != "" && !StartsWithSep(name) && !EndsWithSep(name)
  }

  /** Appending a plain name never leaves a trailing separator. */
  lemma AppendNameNoTrailingSep(prefix: string, name: string)
    requires PlainName(name)
    ensures !EndsWithSep(prefix + name)
  {
    assert (prefix + name)[|prefix + name| - 1] == name[|name| - 1];
  }

  /** The directory resolved for the empty path is the root with one trailing '/' removed. */
  lemma RootDir(root: string)
    ensures Chomp(Join(root, "")) == (if EndsWithSep(root) then root[..|root| - 1] else root)
  {
    if !EndsWithSep(root) {
      assert Join(root, "") == root + "/";
      assert (root + "/")[..|root|] == root;
    }
  }

  lemma {:induction false} DescendFromRoot(root: string, name: string)
    requires NoDoubleTrailingSep(root) && PlainName(name)
    ensures Chomp(Join(root, "/" + name)) == Join(Chomp(Join(root, "")), name)
  {
    var stripped := StripTrailingSeps(root);
    AppendNameNoTrailingSep(stripped + "/", name);
    assert Join(root, "/" + name) == stripped + "/" + name;
    RootDir(root);
    if EndsWithSep(root) {
      var x := root[..|root| - 1];
      assert !EndsWithSep(x);
      assert stripped == x;
    } else {
      assert stripped == root;
    }
  }

  lemma {:induction false} DescendDeeper(root: string, path: string, name: string)
    requires !EndsWithSep(path) && path != "" && PlainName(name)
    ensures Chomp(Join(root, path + "/" + name)) == Join(Chomp(Join(root, path)), name)
  {
    var q := path + "/" + name;
    var p := JoinPrefix(root, path);
    assert q[0] == path[0];
    assert JoinPrefix(root, q) == p;
    var d := p + path;
    assert Join(root, path) == d;
    assert d[|d| - 1] == path[|path| - 1];
    assert Join(d, name) == d + "/" + name;
    AppendNameNoTrailingSep(d + "/", name);
    assert Join(root, q) == p + q;
    assert p + q == d + "/" + name;
  }

  /**
   * Descending into an entry: the directory that a call on `path + "/" + name`
   * resolves (joined, then chomped) is the entry path joined onto the
   * directory resolved for `path`.  Holds for every root that does not end
   * in two separators, "" and "/" included.
   */
  lemma {:induction false} DescendAgrees(root: string, path: string, name: string)
    requires NoDoubleTrailingSep(root) && !EndsWithSep(path) && PlainName(name)
    ensures Chomp(Join(root, path + "/" + name)) == Join(Chomp(Join(root, path)), name)
  {
    if path == "" {
      assert path + "/" + name == "/" + name;
      DescendFromRoot(root, name);
    } else {
      DescendDeeper(root, path, name);
    }
  }
}

/**
 * The two library string operations the core relies on:
 * the final component returned by `os.path.split` and `str.strip()`.
 */
module Text {

  /** True iff no character of `s` belongs to `chars`. */
  predicate NoneIn(s: string, chars: set<char>)
  {
    forall i :: 0 <= i < |s| ==> s[i] !in chars
  }

  /**
   * `os.path.split(path)[1]`: the text after the last separator, or the whole
   * path when it holds none. POSIX splits on '/' only; Windows on '/' and '\\'.
   */
  function SplitTail(path: string, separators: set<char>): (tail: string)
    ensures |tail| <= |path| && tail == path[|path| - |tail|..]
    ensures NoneIn(tail, separators)
    ensures |tail| < |path| ==> path[|path| - |tail| - 1] in separators
    decreases |path|
  {
    if path == [] || path[|path| - 1] in separators then []
    else SplitTail(path[..|path| - 1], separators) + [path[|path| - 1]]
  }

  /** The three facts in SplitTail's contract single out its result. */
  lemma SplitTailUnique(path: string, separators: set<char>, k: nat)
    requires k <= |path|
    requires NoneIn(path[k..], separators)
    requires k == 0 || path[k - 1] in separators
    ensures SplitTail(path, separators) == path[k..]
  {
  }

  /** A directory, one separator and a separator-free name split back into that name. */
  lemma SplitTailOfJoin(dir: string, sep: char, name: string, separators: set<char>)
    requires sep in separators
    requires NoneIn(name, separators)
    ensures SplitTail(dir + [sep] + name, separators) == name
  {
    var path := dir + [sep] + name;
    assert path[|dir| + 1..] == name;
    SplitTailUnique(path, separators, |dir| + 1);
  }

  /** The characters for which Python's `str.isspace()` is true. */
  const Whitespace: set<char> := {
    '\t', '\n', '\U{B}', '\U{C}', '\r', '\U{1C}', '\U{1D}', '\U{1E}', '\U{1F}', ' ',
    '\U{85}', '\U{A0}', '\U{1680}',
    '\U{2000}', '\U{2001}', '\U{2002}', '\U{2003}', '\U{2004}', '\U{2005}',
    '\U{2006}', '\U{2007}', '\U{2008}', '\U{2009}', '\U{200A}',
    '\U{2028}', '\U{2029}', '\U{202F}', '\U{205F}', '\U{3000}'
  }

  /** `str.isspace()` on one character, written as the ranges the characters of `Whitespace` form. */
  predicate IsSpace(c: char)
  {
    || ('\t' <= c <= '\r')
    || ('\U{1C}' <= c <= ' ')
    || c == '\U{85}' || c == '\U{A0}' || c == '\U{1680}'
    || ('\U{2000}' <= c <= '\U{200A}')
    || c == '\U{2028}' || c == '\U{2029}' || c == '\U{202F}' || c == '\U{205F}' || c == '\U{3000}'
  }

  /** The ranges in IsSpace hold exactly the characters listed in `Whitespace`. */
  lemma IsSpaceMatchesWhitespace(c: char)
    ensures IsSpace(c) <==> c in Whitespace
  {
  }

  predicate AllSpace(s: string)
  {
    forall i :: 0 <= i < |s| ==> IsSpace(s[i])
  }

  /** The number of whitespace characters `s` starts with: the run before its first non-space. */
  function LeadingSpaces(s: string): (n: nat)
    ensures n <= |s|
    ensures forall i :: 0 <= i < n ==> IsSpace(s[i])
    ensures n == |s| || !IsSpace(s[n])
    decreases |s|
  {
    if s != [] && IsSpace(s[0]) then 1 + LeadingSpaces(s[1..]) else 0
  }

  /** The number of whitespace characters `s` ends with: the run after its last non-space. */
  function TrailingSpaces(s: string): (n: nat)
    ensures n <= |s|
    ensures forall i :: |s| - n <= i < |s| ==> IsSpace(s[i])
    ensures n == |s| || !IsSpace(s[|s| - n - 1])
    decreases |s|
  {
    if s != [] && IsSpace(s[|s| - 1]) then 1 + TrailingSpaces(s[..|s| - 1]) else 0
  }

  /** Removes leading whitespace. */
  function TrimStart(s: string): string
  {
    s[LeadingSpaces(s)..]
  }

  /** Removes trailing whitespace. */
  function TrimEnd(s: string): string
  {
    s[..|s| - TrailingSpaces(s)]
  }

  /** `str.strip()` with no argument. */
  function Strip(s: string): (r: string)
    ensures r == [] || (!IsSpace(r[0]) && !IsSpace(r[|r| - 1]))
  {
    TrimEnd(TrimStart(s))
  }

  /** TrimStart removes exactly a whitespace prefix that is followed by a non-space or the end. */
  lemma TrimStartUnique(s: string, k: nat)
    requires k <= |s|
    requires AllSpace(s[..k])
    requires k == |s| || !IsSpace(s[k])
    ensures TrimStart(s) == s[k..]
  {
  }

  /** TrimEnd removes exactly a whitespace suffix that is preceded by a non-space or the start. */
  lemma TrimEndUnique(s: string, k: nat)
    requires k <= |s|
    requires AllSpace(s[k..])
    requires k == 0 || !IsSpace(s[k - 1])
    ensures TrimEnd(s) == s[..k]
  {
  }

  /** Stripping whitespace padding off a text that neither starts nor ends with whitespace gives that text back. */
  lemma StripPadded(lead: string, core: string, trail: string)
    requires AllSpace(lead) && AllSpace(trail)
    requires core == [] || (!IsSpace(core[0]) && !IsSpace(core[|core| - 1]))
    ensures Strip(lead + core + trail) == core
  {
    var s := lead + core + trail;
    var k := if core == [] then |s| else |lead|;
    forall j | 0 <= j < k
      ensures IsSpace(s[..k][j])
    {
      assert s[..k][j] == if j < |lead| then lead[j] else trail[j - |lead|];
    }
    TrimStartUnique(s, k);
    var r := s[k..];
    if core == [] {
      assert r == [];
    } else {
      assert r == core + trail;
      assert r[|core|..] == trail;
      TrimEndUnique(r, |core|);
      assert r[..|core|] == core;
    }
  }

  /** `str.strip()` is idempotent. */
  lemma StripIdempotent(s: string)
    ensures Strip(Strip(s)) == Strip(s)
  {
  }
}

/**
 * The string and path helpers the engine relies on: Python's `sub in s`,
 * `str.endswith`, `str.rfind`, and POSIX `os.path.splitext` / `os.path.join`.
 */
module Text {

  /** `sub` occurs in `s` starting at index `i`. */
  ghost predicate OccursAt(s: string, sub: string, i: int)
  {
    0 <= i && i + |sub| <= |s| && s[i..i + |sub|] == sub
  }

  /** Reference meaning of Python's `sub in s`: some window of `s` equals `sub`. */
  ghost predicate Occurs(s: string, sub: string)
  {
    exists i :: OccursAt(s, sub, i)
  }

  /** Python's `sub in s`, as a left-to-right scan. */
  function Contains(s: string, sub: string): bool
    decreases |s|
  {
    if |sub| > |s| then false
    else if s[..|sub|] == sub then true
    else Contains(s[1..], sub)
  }

  /** The scan finds `sub` exactly when some window of `s` equals it. */
  lemma {:induction false} ContainsIff(s: string, sub: string)
    ensures Contains(s, sub) <==> Occurs(s, sub)
    decreases |s|
  {
    if |sub| > |s| {
    } else if s[..|sub|] == sub {
      assert OccursAt(s, sub, 0);
    } else {
      ContainsIff(s[1..], sub);
      if Occurs(s, sub) {
        var i :| OccursAt(s, sub, i);
        assert i != 0;
        assert s[1..][i - 1..i - 1 + |sub|] == s[i..i + |sub|];
        assert OccursAt(s[1..], sub, i - 1);
      }
      if Occurs(s[1..], sub) {
        var i :| OccursAt(s[1..], sub, i);
        assert s[1..][i..i + |sub|] == s[i + 1..i + 1 + |sub|];
        assert OccursAt(s, sub, i + 1);
      }
    }
  }

  /** Python's `s.endswith(suffix)`. */
  predicate EndsWith(s: string, suffix: string)
  {
    |suffix| <= |s| && s[|s| - |suffix|..] == suffix
  }

  /** Python's `s.rfind(c)`: the index of the last `c` in `s`, or -1. */
  function RFind(s: string, c: char): (r: int)
    ensures -1 <= r < |s|
    ensures 0 <= r ==> s[r] == c
    ensures forall j :: r < j < |s| ==> s[j] != c
  {
    if s == [] then -1
    else if s[|s| - 1] == c then |s| - 1
    else RFind(s[..|s| - 1], c)
  }

  /** The two properties of `RFind` determine it. */
  lemma RFindUnique(s: string, c: char, r: int)
    requires -1 <= r < |s|
    requires 0 <= r ==> s[r] == c
    requires forall j :: r < j < |s| ==> s[j] != c
    ensures RFind(s, c) == r
  {
  }

  /** Some character of `s[lo..hi]` is not a dot. */
  predicate HasNonDot(s: string, lo: int, hi: int)
    requires 0 <= lo && hi <= |s|
  {
    exists i | lo <= i < hi :: s[i] != '.'
  }

  /**
   * POSIX `os.path.splitext`: the extension runs from the last '.' of the
   * final path component to the end, unless every character of that
   * component before the dot is itself a dot (a leading-dot name such as
   * ".bashrc" has no extension).
   */
  function SplitExt(p: string): (r: (string, string))
    ensures r.0 + r.1 == p
    ensures r.1 == "" || (r.1[0] == '.' && '.' !in r.1[1..] && '/' !in r.1)
    ensures r.1 != "" <==> exists i, j :: RFind(p, '/') < i < j < |p| && p[i] != '.' && p[j] == '.'
  {
    var sep := RFind(p, '/');
    var dot := RFind(p, '.');
    if dot > sep && HasNonDot(p, sep + 1, dot) then
      assert p[..dot] + p[dot..] == p;
      var i :| sep + 1 <= i < dot && p[i] != '.';
      assert sep < i < dot < |p| && p[i] != '.' && p[dot] == '.';
      (p[..dot], p[dot..])
    else
      assert forall i, j :: sep < i < j < |p| && p[i] != '.' && p[j] == '.' ==> HasNonDot(p, sep + 1, dot);
      (p, "")
  }

  /**
   * Giving a path that has an extension the extension ".ext", for a name
   * `ext` with no dot and no slash, leaves the stem alone and makes ".ext"
   * the new extension.
   */
  lemma SplitExtReplaced(p: string, ext: string)
    requires SplitExt(p).1 != ""
    requires '.' !in ext && '/' !in ext
    ensures SplitExt(SplitExt(p).0 + "." + ext) == (SplitExt(p).0, "." + ext)
  {
    var root := SplitExt(p).0;
    var q := root + "." + ext;
    var sep := RFind(p, '/');
    var dot := RFind(p, '.');
    assert dot > sep && HasNonDot(p, sep + 1, dot);
    assert root == p[..dot];
    assert q[|root|] == '.';
    forall j | |root| < j < |q|
      ensures q[j] != '.'
    {
      assert q[j] == ext[j - |root| - 1];
    }
    RFindUnique(q, '.', |root|);
    forall j | sep < j < |q|
      ensures q[j] != '/'
    {
      if j < |root| {
        assert q[j] == p[j];
      } else if j > |root| {
        assert q[j] == ext[j - |root| - 1];
      }
    }
    if 0 <= sep {
      assert q[sep] == p[sep];
    }
    RFindUnique(q, '/', sep);
    var i :| sep + 1 <= i < dot && p[i] != '.';
    assert q[i] == p[i];
    assert HasNonDot(q, sep + 1, |root|);
    assert q[..|root|] == root;
    assert q[|root|..] == "." + ext;
  }

  /**
   * POSIX `os.path.join(dir, name)` for two components: an absolute name
   * replaces the directory; otherwise the result is the directory, then a
   * single '/' unless the directory is empty or already ends with one, then
   * the name.
   */
  function Join(dir: string, name: string): (r: string)
    ensures EndsWith(r, name)
    ensures |name| > 0 && name[0] == '/' ==> r == name
    ensures !(|name| > 0 && name[0] == '/') ==>
      && |dir| + |name| <= |r| <= |dir| + |name| + 1 && r[..|dir|] == dir
      && (dir != "" ==> r[|r| - |name| - 1] == '/')
      && (dir == "" || dir[|dir| - 1] == '/' ==> |r| == |dir| + |name|)
  {
    if |name| > 0 && name[0] == '/' then name
    else if dir == "" || dir[|dir| - 1] == '/' then dir + name
    else dir + "/" + name
  }
}

/** The parts of Python's `posixpath` the scripts use: `join`, `basename`
    and `splitext` on plain strings, and `join` on configuration values. */
module PosixPath {
  import opened Wrappers
  import opened PyValues

  /** `s.rfind(c)`: the index of the last `c` in `s`, or -1. */
  function RFind(s: string, c: char): (r: int)
    ensures -1 <= r < |s|
    ensures r >= 0 ==> s[r] == c
    ensures forall k :: r < k < |s| ==> s[k] != c
    decreases |s|
  {
    if s == [] then -1
    else if s[|s| - 1] == c then |s| - 1
    else RFind(s[..|s| - 1], c)
  }

  /** A path that starts at the root. */
  predicate IsAbsolute(p: string)
  {
    |p| > 0 && p[0] == '/'
  }

  /** `os.path.join(a, b)`: an absolute `b` replaces `a`; otherwise a single
      `/` is inserted unless `a` is empty or already ends in one. */
  function Join(a: string, b: string): string
  {
    if |b| > 0 && b[0] == '/' then b
    else if a == "" || a[|a| - 1] == '/' then a + b
    else a + "/" + b
  }

  /** `os.path.join(a, b)` on two configuration values, as Python 2's
      `posixpath.join` evaluates it: `b` must be a string; an absolute `b`
      replaces `a` without `a` being looked at, so only otherwise must `a`
      be a string too. */
  function JoinValues(a: Value, b: Value): (r: Result<string>)
    ensures r.Ok? <==> b.VStr? && (IsAbsolute(b.s) || a.VStr?)
    ensures r.Ok? && IsAbsolute(b.s) ==> r.value == b.s
    ensures r.Ok? && a.VStr? ==> r.value == Join(a.s, b.s)
  {
    if !b.VStr? then Err(TypeError)
    else if IsAbsolute(b.s) then Ok(b.s)
    else if a.VStr? then Ok(Join(a.s, b.s))
    else Err(TypeError)
  }

  /** The joined path keeps both parts: an absolute second part is the
      whole result, otherwise the result is `a` then `b`, with one `/`
      between them only where `a` does not already end the directory. */
  lemma JoinShape(a: string, b: string)
    ensures IsAbsolute(b) ==> Join(a, b) == b
    ensures !IsAbsolute(b) ==> Join(a, b)[..|a|] == a && Join(a, b)[|Join(a, b)| - |b|..] == b
    ensures !IsAbsolute(b) ==> |Join(a, b)| <= |a| + |b| + 1
  {
  }

  /** `os.path.join(a, *parts)`. */
  function JoinAll(a: string, parts: seq<string>): string
    decreases |parts|
  {
    if parts == [] then a else JoinAll(Join(a, parts[0]), parts[1..])
  }

  /** `os.path.basename(p)`: what follows the last `/`. */
  function Basename(p: string): (r: string)
    ensures '/' !in r
    ensures |r| <= |p| && r == p[|p| - |r|..]
  {
    p[RFind(p, '/') + 1..]
  }

  /** True when `p[from..to]` holds a character other than `.`. */
  predicate HasNonDot(p: string, from: int, to: int)
    requires 0 <= from && to <= |p|
  {
    exists k :: from <= k < to && p[k] != '.'
  }

  /** `os.path.splitext(p)`: the extension runs from the last `.` of the last
      path component, provided that dot is not one of the component's
      leading dots; otherwise the extension is empty. */
  function Splitext(p: string): (r: (string, string))
    ensures r.0 + r.1 == p
    ensures r.1 == "" || (r.1[0] == '.' && '/' !in r.1 && '.' !in r.1[1..])
  {
    var sep := RFind(p, '/');
    var dot := RFind(p, '.');
    if dot > sep && HasNonDot(p, sep + 1, dot) then
      assert p[..dot] + p[dot..] == p;
      (p[..dot], p[dot..])
    else
      (p, "")
  }

  /** Joining a name without `/` onto any directory gives back that name as
      the basename: a path built by `Join` ends in the component it added. */
  lemma BasenameOfJoin(dir: string, name: string)
    requires '/' !in name
    ensures Basename(Join(dir, name)) == name
  {
    var p := Join(dir, name);
    var i := RFind(p, '/');
    assert p == dir + name || p == dir + "/" + name;
    var n := |p| - |name|;
    assert p[n..] == name;
    if n > 0 && p[n - 1] == '/' {
      assert i == n - 1;
    } else {
      assert p == dir + name && dir == "";
      assert i == -1;
    }
  }

  /** The component added by `Join` is never lost or merged: two joins onto
      the same directory with different `/`-free names give different paths. */
  lemma JoinInjective(dir: string, a: string, b: string)
    requires '/' !in a && '/' !in b && a != b
    ensures Join(dir, a) != Join(dir, b)
  {
    BasenameOfJoin(dir, a);
    BasenameOfJoin(dir, b);
  }

  /** Appending text without `c` leaves the last `c` where it was. */
  lemma {:induction false} RFindAppendWithout(s: string, t: string, c: char)
    requires c !in t
    ensures RFind(s + t, c) == RFind(s, c)
    decreases |t|
  {
    if t != [] {
      assert (s + t)[..|s + t| - 1] == s + t[..|t| - 1];
      RFindAppendWithout(s, t[..|t| - 1], c);
    } else {
      assert s + t == s;
    }
  }

  /** Appending text that contains `c` moves the last `c` into that text. */
  lemma {:induction false} RFindAppendWith(s: string, t: string, c: char)
    requires c in t
    ensures RFind(s + t, c) == |s| + RFind(t, c)
    decreases |t|
  {
    if t[|t| - 1] != c {
      assert (s + t)[..|s + t| - 1] == s + t[..|t| - 1];
      assert t == t[..|t| - 1] + [t[|t| - 1]];
      RFindAppendWith(s, t[..|t| - 1], c);
    }
  }

  /** Inserting text that has neither `/` nor `.` between the root and the
      extension moves the root and keeps the extension: `splitext` of the
      result splits at the same place. */
  lemma SplitextInsert(p: string, tag: string)
    requires '/' !in tag && '.' !in tag
    ensures var (root, ext) := Splitext(p);
            Splitext(root + tag + ext) == (root + tag, ext)
  {
    var (root, ext) := Splitext(p);
    if ext == "" {
      SplitextAppendPlain(p, tag);
    } else {
      SplitextInsertBeforeExt(root, tag, ext);
    }
  }

  lemma SplitextAppendPlain(p: string, tag: string)
    requires '/' !in tag && '.' !in tag
    requires Splitext(p).1 == ""
    ensures Splitext(p + tag) == (p + tag, "")
  {
    var q := p + tag;
    RFindAppendWithout(p, tag, '/');
    RFindAppendWithout(p, tag, '.');
  }

  lemma SplitextInsertBeforeExt(root: string, tag: string, ext: string)
    requires '/' !in tag && '.' !in tag
    requires ext != "" && Splitext(root + ext) == (root, ext)
    ensures Splitext(root + tag + ext) == (root + tag, ext)
  {
    var p, q := root + ext, root + tag + ext;
    assert ext[0] == '.' && '/' !in ext && '.' !in ext[1..];
    assert RFind(ext, '.') == 0;
    RFindAppendWith(root, ext, '.');
    RFindAppendWith(root + tag, ext, '.');
    RFindAppendWithout(root, ext, '/');
    RFindAppendWithout(root, tag + ext, '/');
    assert q == root + (tag + ext);
    var sep := RFind(root, '/');
    var k :| sep + 1 <= k < |root| && p[k] != '.';
    assert q[k] == p[k];
    assert HasNonDot(q, sep + 1, |root| + |tag|);
    assert q[..|root| + |tag|] == root + tag;
    assert q[|root| + |tag|..] == ext;
  }
}

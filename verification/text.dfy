/** Literal text operations: occurrence of a pattern and a global
    replace-all that scans left to right and never rescans what it wrote,
    which is what a `s/pattern/value/g` edit does when the pattern holds no
    special character. */
module Text {

  /** `p` occurs somewhere in `s` as a contiguous slice. */
  predicate Occurs(p: string, s: string)
    decreases |s|
  {
    p <= s || (s != [] && Occurs(p, s[1..]))
  }

  /** Replaces every non-overlapping occurrence of `p` in `s`, leftmost
      first, by `v`. An empty pattern leaves the text alone. */
  function ReplaceAll(s: string, p: string, v: string): (r: string)
    decreases |s|
  {
    if p == [] || s == [] then s
    else if p <= s then v + ReplaceAll(s[|p|..], p, v)
    else [s[0]] + ReplaceAll(s[1..], p, v)
  }

  /** How many replacements ReplaceAll performs. */
  function Count(s: string, p: string): (n: nat)
    decreases |s|
  {
    if p == [] || s == [] then 0
    else if p <= s then 1 + Count(s[|p|..], p)
    else Count(s[1..], p)
  }

  /** A value `v` cannot help form a new occurrence of `q`: `q` is
      non-empty, neither its first nor its last character appears in `v`,
      and `v` does not occur inside `q` (so `v` is non-empty too). A base64
      credential and a `${NAME}` placeholder satisfy this whenever the value
      is not a piece of the placeholder's name. */
  predicate Separated(q: string, v: string) {
    q != [] && q[0] !in v && q[|q| - 1] !in v && !Occurs(v, q)
  }

  /** Joins a directory and a file name with a single `/`, as a POSIX
      `path.join` of two plain components does. */
  function JoinPath(dir: string, name: string): (r: string)
    ensures |r| >= |dir| + |name| && r[|r| - |name|..] == name
    ensures dir <= r
    // At most one separator is put between the two parts ...
    ensures r == dir + name || r == dir + "/" + name
    // ... and exactly one when the directory does not already end with it.
    ensures dir != [] && dir[|dir| - 1] != '/' ==> r == dir + "/" + name
    ensures dir == [] || dir[|dir| - 1] == '/' ==> r == dir + name
  {
    if dir == [] then name
    else if dir[|dir| - 1] == '/' then dir + name
    else dir + "/" + name
  }

  /** The last component of a path: everything after its last `/`. */
  function FileName(path: string): (r: string)
    decreases |path|
  {
    if path == [] || path[|path| - 1] == '/' then []
    else FileName(path[..|path| - 1]) + [path[|path| - 1]]
  }

  /** The last component holds no `/`. */
  lemma {:induction false} FileNameNoSeparator(path: string)
    ensures '/' !in FileName(path)
    decreases |path|
  {
    if path != [] && path[|path| - 1] != '/' {
      var init, c := path[..|path| - 1], path[|path| - 1];
      FileNameNoSeparator(init);
      var r0 := FileName(init);
      assert FileName(path) == r0 + [c];
      assert forall x | x in r0 + [c] :: x in r0 || x == c;
    }
  }

  /** The last component is a suffix of the path, and it is the whole path
      or follows a `/`. */
  lemma {:induction false} FileNameSuffix(path: string)
    ensures |FileName(path)| <= |path|
    ensures path[|path| - |FileName(path)|..] == FileName(path)
    ensures FileName(path) != path ==> path[|path| - |FileName(path)| - 1] == '/'
    decreases |path|
  {
    if path != [] && path[|path| - 1] != '/' {
      var init, c := path[..|path| - 1], path[|path| - 1];
      FileNameSuffix(init);
      var r0 := FileName(init);
      var k := |init| - |r0|;
      assert |r0| <= |init| && init[k..] == r0;
      assert path == init + [c];
      assert FileName(path) == r0 + [c];
      assert path[k..] == init[k..] + [c];
      if r0 + [c] != path {
        assert r0 != init;
        assert init[k - 1] == '/';
        assert path[k - 1] == init[k - 1];
      }
    } else {
      assert FileName(path) == [];
    }
  }

  /** A file name without `/` comes back as the last component of a path
      that ends with it right after a separator (or alone). */
  lemma {:induction false} FileNameAfterSeparator(d: string, name: string)
    requires '/' !in name
    requires d == [] || d[|d| - 1] == '/'
    ensures FileName(d + name) == name
    decreases |name|
  {
    if name == [] {
      assert d + name == d;
    } else {
      var t := d + name;
      var init, last := name[..|name| - 1], name[|name| - 1];
      assert name == init + [last];
      assert '/' !in init by { assert forall c | c in init :: c in name; }
      assert last in name;
      assert t[|t| - 1] == last && last != '/';
      assert t[..|t| - 1] == d + init;
      assert FileName(t) == FileName(d + init) + [last];
      FileNameAfterSeparator(d, init);
    }
  }

  /** Joining a directory and a plain file name keeps the file name as the
      path's last component. */
  lemma JoinPathFileName(dir: string, name: string)
    requires '/' !in name
    ensures FileName(JoinPath(dir, name)) == name
  {
    if dir == [] || dir[|dir| - 1] == '/' {
      FileNameAfterSeparator(dir, name);
    } else {
      FileNameAfterSeparator(dir + "/", name);
      assert dir + "/" + name == (dir + "/") + name;
    }
  }

  lemma {:induction false} OccursInSuffix(q: string, s: string, k: nat)
    requires k <= |s| && Occurs(q, s[k..])
    ensures Occurs(q, s)
    decreases k
  {
    if k > 0 {
      assert s[1..][k - 1..] == s[k..];
      OccursInSuffix(q, s[1..], k - 1);
    }
  }

  /** A text that has no occurrence of `p` comes out of ReplaceAll unchanged. */
  lemma {:induction false} ReplaceAllAbsent(s: string, p: string, v: string)
    requires !Occurs(p, s)
    ensures ReplaceAll(s, p, v) == s
    decreases |s|
  {
    if p != [] && s != [] {
      ReplaceAllAbsent(s[1..], p, v);
    }
  }

  /** Replacing a pattern by itself changes nothing. */
  lemma {:induction false} ReplaceAllSame(s: string, p: string)
    ensures ReplaceAll(s, p, p) == s
    decreases |s|
  {
    if p != [] && s != [] {
      if p <= s {
        ReplaceAllSame(s[|p|..], p);
        assert s == p + s[|p|..];
      } else {
        ReplaceAllSame(s[1..], p);
        assert s == [s[0]] + s[1..];
      }
    }
  }

  /** Each replacement changes the length by |v| - |p|. */
  lemma {:induction false} ReplaceAllLength(s: string, p: string, v: string)
    ensures |ReplaceAll(s, p, v)| == |s| + Count(s, p) * (|v| - |p|)
    decreases |s|
  {
    if p != [] && s != [] {
      var d := |v| - |p|;
      if p <= s {
        var c := Count(s[|p|..], p);
        var rest := ReplaceAll(s[|p|..], p, v);
        ReplaceAllLength(s[|p|..], p, v);
        assert ReplaceAll(s, p, v) == v + rest;
        assert Count(s, p) == 1 + c;
        assert |rest| == |s| - |p| + c * d;
        Distribute(c, d);
      } else {
        ReplaceAllLength(s[1..], p, v);
        assert ReplaceAll(s, p, v) == [s[0]] + ReplaceAll(s[1..], p, v);
        assert Count(s, p) == Count(s[1..], p);
      }
    }
  }

  /** For a non-empty pattern, it occurs exactly when ReplaceAll replaces something. */
  lemma {:induction false} OccursIffCounted(s: string, p: string)
    requires p != []
    ensures Occurs(p, s) <==> Count(s, p) > 0
    decreases |s|
  {
    if s != [] && !(p <= s) {
      OccursIffCounted(s[1..], p);
    }
  }

  lemma {:induction false} ReplaceAllSameLengthDiffers(s: string, p: string, v: string)
    requires p != [] && |v| == |p| && v != p && Occurs(p, s)
    ensures ReplaceAll(s, p, v) != s
    decreases |s|
  {
    var r := ReplaceAll(s, p, v);
    if p <= s {
      assert r[..|p|] == v;
      assert s[..|p|] == p;
    } else {
      ReplaceAllSameLengthDiffers(s[1..], p, v);
      assert r[1..] == ReplaceAll(s[1..], p, v);
    }
  }

  /** ReplaceAll leaves a text unchanged exactly when the pattern does not
      occur in it or is replaced by itself. */
  lemma ReplaceAllIdentity(s: string, p: string, v: string)
    requires p != []
    ensures ReplaceAll(s, p, v) == s <==> !Occurs(p, s) || v == p
  {
    if !Occurs(p, s) {
      ReplaceAllAbsent(s, p, v);
    } else if v == p {
      ReplaceAllSame(s, p);
    } else if |v| == |p| {
      ReplaceAllSameLengthDiffers(s, p, v);
    } else {
      ReplaceAllLength(s, p, v);
      OccursIffCounted(s, p);
      NonZeroProduct(Count(s, p), |v| - |p|);
    }
  }

  lemma Distribute(c: int, d: int)
    ensures (1 + c) * d == d + c * d
  {
  }

  lemma NonZeroProduct(c: int, d: int)
    requires c > 0 && d != 0
    ensures c * d != 0
  {
  }

  /** An occurrence of `p` in `a + b` lies in `b` when no character of `a`
      can start it. */
  lemma {:induction false} OccursPastLeading(p: string, a: string, b: string)
    requires p != [] && p[0] !in a && Occurs(p, a + b)
    ensures Occurs(p, b)
    decreases |a|
  {
    if a == [] {
      assert a + b == b;
    } else {
      assert !(p <= a + b) by { assert (a + b)[0] == a[0]; }
      assert (a + b)[1..] == a[1..] + b;
      OccursPastLeading(p, a[1..], b);
    }
  }

  /** Where the pattern starts the text, the value starts the output. */
  lemma ReplaceAllStart(t: string, p: string, v: string)
    ensures p != [] && p <= t ==> v <= ReplaceAll(t, p, v)
  {
  }

  /** A prefix of ReplaceAll's output that can neither end inside an
      inserted value nor contain a whole one was already a prefix of the
      input. */
  lemma {:induction false} PrefixSurvives(w: string, t: string, p: string, v: string)
    requires w != [] ==> w[|w| - 1] !in v
    requires !Occurs(v, w) && w <= ReplaceAll(t, p, v)
    ensures w <= t
    decreases |t|
  {
    if w != [] && p != [] && t != [] {
      var r := ReplaceAll(t, p, v);
      ReplaceAllStart(t, p, v);
      if p <= t {
        assert false;
      }
      assert r[1..] == ReplaceAll(t[1..], p, v);
      if w[1..] != [] {
        assert w[1..][|w[1..]| - 1] == w[|w| - 1];
      }
      PrefixSurvives(w[1..], t[1..], p, v);
    }
  }


  /** Once every occurrence is replaced by a separated value, none remains. */
  lemma {:induction false} ReplaceAllRemoves(s: string, p: string, v: string)
    requires Separated(p, v)
    ensures !Occurs(p, ReplaceAll(s, p, v))
    decreases |s|
  {
    var r := ReplaceAll(s, p, v);
    if s == [] {
      assert r == [];
    } else if p <= s {
      ReplaceAllRemoves(s[|p|..], p, v);
      if Occurs(p, r) {
        OccursPastLeading(p, v, ReplaceAll(s[|p|..], p, v));
        assert false;
      }
    } else {
      ReplaceAllRemoves(s[1..], p, v);
      assert r[1..] == ReplaceAll(s[1..], p, v);
      if p <= r {
        assert p[1..] <= ReplaceAll(s[1..], p, v);
        if p[1..] != [] {
          assert p[1..][|p[1..]| - 1] == p[|p| - 1];
        }
        PrefixSurvives(p[1..], s[1..], p, v);
        assert false;
      }
    }
  }

  /** ReplaceAll with a value separated from `q` never creates an occurrence
      of `q`. */
  lemma {:induction false} ReplaceAllPreservesAbsence(s: string, p: string, v: string, q: string)
    requires Separated(q, v) && !Occurs(q, s)
    ensures !Occurs(q, ReplaceAll(s, p, v))
    decreases |s|
  {
    var r := ReplaceAll(s, p, v);
    if p == [] || s == [] {
    } else if p <= s {
      if Occurs(q, s[|p|..]) {
        OccursInSuffix(q, s, |p|);
      }
      ReplaceAllPreservesAbsence(s[|p|..], p, v, q);
      if Occurs(q, r) {
        OccursPastLeading(q, v, ReplaceAll(s[|p|..], p, v));
        assert false;
      }
    } else {
      ReplaceAllPreservesAbsence(s[1..], p, v, q);
      assert r[1..] == ReplaceAll(s[1..], p, v);
      if q <= r {
        assert q[1..] <= ReplaceAll(s[1..], p, v);
        if q[1..] != [] {
          assert q[1..][|q[1..]| - 1] == q[|q| - 1];
        }
        PrefixSurvives(q[1..], s[1..], p, v);
        assert false;
      }
    }
  }

  /** An edit that finds its placeholder leaves the value somewhere in the
      text; ReplaceAllAtFirst says where. */
  lemma {:induction false} ReplaceAllInserts(s: string, p: string, v: string)
    requires p != [] && Occurs(p, s)
    ensures Occurs(v, ReplaceAll(s, p, v))
    decreases |s|
  {
    var r := ReplaceAll(s, p, v);
    if !(p <= s) {
      ReplaceAllInserts(s[1..], p, v);
      assert r[1..] == ReplaceAll(s[1..], p, v);
    }
  }

  /** The first occurrence of the pattern is replaced by the value in
      place: the text before it is kept, and the scan resumes right after
      it. `a + p[..|p| - 1]` holding no `p` says that `a + p + b` has no
      earlier occurrence (not even one overlapping this one). */
  lemma {:induction false} ReplaceAllAtFirst(a: string, b: string, p: string, v: string)
    requires p != [] && !Occurs(p, a + p[..|p| - 1])
    ensures ReplaceAll(a + p + b, p, v) == a + v + ReplaceAll(b, p, v)
    decreases |a|
  {
    if a == [] {
      assert a + p + b == p + b;
      ReplaceAllMatch(p, b, v);
    } else {
      NotBeforeFirst(a, b, p);
      var t := a[1..] + p + b;
      calc {
        ReplaceAll(a + p + b, p, v);
        { assert a + p + b == [a[0]] + t; }
        ReplaceAll([a[0]] + t, p, v);
        { ReplaceAllSkip(a[0], t, p, v); }
        [a[0]] + ReplaceAll(t, p, v);
        { ReplaceAllAtFirst(a[1..], b, p, v); }
        [a[0]] + (a[1..] + v + ReplaceAll(b, p, v));
        { assert [a[0]] + a[1..] == a; }
        a + v + ReplaceAll(b, p, v);
      }
    }
  }

  /** A text that starts with the pattern has it replaced there. */
  lemma ReplaceAllMatch(p: string, b: string, v: string)
    requires p != []
    ensures ReplaceAll(p + b, p, v) == v + ReplaceAll(b, p, v)
  {
    assert (p + b)[|p|..] == b;
  }

  /** A character the pattern does not start at is copied unchanged. */
  lemma ReplaceAllSkip(c: char, t: string, p: string, v: string)
    requires p != [] && !(p <= [c] + t)
    ensures ReplaceAll([c] + t, p, v) == [c] + ReplaceAll(t, p, v)
  {
    assert ([c] + t)[1..] == t;
  }

  /** When `p` first occurs right after a non-empty `a`, it does not start
      at `a`'s first character, and it still first occurs after `a[1..]`. */
  lemma NotBeforeFirst(a: string, b: string, p: string)
    requires a != [] && p != [] && !Occurs(p, a + p[..|p| - 1])
    ensures !(p <= a + p + b)
    ensures !Occurs(p, a[1..] + p[..|p| - 1])
  {
    var s, h := a + p + b, a + p[..|p| - 1];
    assert |p| <= |h| && s[..|p|] == h[..|p|];
    assert h[1..] == a[1..] + p[..|p| - 1];
  }

  /** A pattern that occurs is no longer than the text, and one as long as
      the text is the text. */
  lemma {:induction false} OccursLength(v: string, q: string)
    requires Occurs(v, q)
    ensures |v| <= |q| && (|v| == |q| ==> v == q)
    decreases |q|
  {
    if !(v <= q) {
      OccursLength(v, q[1..]);
    }
  }
}

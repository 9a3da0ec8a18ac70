/** The POSIX flavour of Python's `os.path` functions the batch driver uses. */
module PosixPath {

  /** `os.path.isabs(p)`: the path begins with `/`. */
  predicate IsAbs(p: string) {
    |p| > 0 && p[0] == '/'
  }

  /**
   * `os.path.join(a, b)`: an absolute `b` replaces `a`; otherwise `b` is appended,
   * with one `/` inserted unless `a` is empty or already ends in `/`.
   */
  function Join(a: string, b: string): (r: string)
    ensures |r| >= |b| && r[|r| - |b|..] == b
    ensures IsAbs(b) ==> r == b
    ensures !IsAbs(b) ==> |r| >= |a| && r[..|a|] == a
    ensures IsAbs(r) <==> IsAbs(a) || IsAbs(b)
  {
    if IsAbs(b) then b
    else if a == [] || a[|a| - 1] == '/' then a + b
    else a + "/" + b
  }

  /** `r` is what is left of `p` after a (possibly empty) prefix that ends in `/`. */
  predicate AfterSlash(r: string, p: string) {
    |r| <= |p| && r == p[|p| - |r|..] && (|r| < |p| ==> p[|p| - |r| - 1] == '/')
  }

  /** `os.path.basename(p)`: the part after the last `/` (all of `p` when it has none). */
  function Basename(p: string): (r: string)
    ensures '/' !in r
    ensures AfterSlash(r, p)
  {
    if p == [] || p[|p| - 1] == '/' then []
    else
      var r := Basename(p[..|p| - 1]) + [p[|p| - 1]];
      assert p == p[..|p| - 1] + [p[|p| - 1]];
      r
  }

  /** The basename of a concatenation comes from its right part unless that part has no `/`. */
  lemma {:induction false} BasenameConcat(x: string, y: string)
    ensures Basename(x + y) == if '/' in y then Basename(y) else Basename(x) + y
    decreases |y|
  {
    if y != [] {
      var y' := y[..|y| - 1];
      assert (x + y)[..|x + y| - 1] == x + y';
      BasenameConcat(x, y');
      if y[|y| - 1] != '/' {
        assert '/' in y <==> '/' in y' by {
          assert y == y' + [y[|y| - 1]];
        }
      }
    } else {
      assert x + y == x;
    }
  }

  /** A path without `/` is its own basename. */
  lemma BasenameNoSlash(b: string)
    requires '/' !in b
    ensures Basename(b) == b
  {
    assert [] + b == b;
    BasenameConcat([], b);
  }

  /** Whatever precedes a `/` is dropped by `basename`. */
  lemma BasenameAfterSlash(x: string, b: string)
    requires x != [] && x[|x| - 1] == '/'
    ensures Basename(x + b) == Basename(b)
  {
    BasenameConcat(x, b);
    if '/' !in b {
      BasenameNoSlash(b);
    }
  }

  /** Joining a directory in front never changes the basename. */
  lemma BasenameOfJoin(a: string, b: string)
    ensures Basename(Join(a, b)) == Basename(b)
  {
    if IsAbs(b) {
    } else if a == [] {
      assert a + b == b;
    } else if a[|a| - 1] == '/' {
      BasenameAfterSlash(a, b);
    } else {
      assert a + "/" + b == (a + "/") + b;
      BasenameAfterSlash(a + "/", b);
    }
  }
}

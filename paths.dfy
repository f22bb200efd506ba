/** File-system paths as '/'-separated strings, with the parts of Python's
    `pathlib.PurePosixPath` and `os.path` that the service uses. Paths are
    taken as already normalised: no `.`/`..` segments, no doubled or
    trailing separators. */
module Paths {
  import opened Strings

  /** `Path(dir) / child`: an absolute child replaces the directory. */
  function Join(dir: string, child: string): (p: string)
  {
    if StartsWith(child, "/") || dir == "" then child else dir + "/" + child
  }

  /** A joined path ends with the child. */
  lemma JoinEndsWith(dir: string, child: string)
    ensures EndsWith(Join(dir, child), child)
  {
    if !(StartsWith(child, "/") || dir == "") {
      EndsWithConcat(dir + "/", child);
    }
  }

  /** `Path(p).name` and `os.path.basename(p)`: the text after the last '/'. */
  function Name(p: string): (n: string)
    ensures '/' !in n
    ensures EndsWith(p, n)
  {
    var i := LastIndexOf(p, '/');
    NoSeparatorAfter(p, i);
    p[i + 1..]
  }

  lemma NoSeparatorAfter(p: string, i: int)
    requires -1 <= i < |p|
    requires forall k :: i < k < |p| ==> p[k] != '/'
    ensures '/' !in p[i + 1..]
  {
    var q := p[i + 1..];
    forall k | 0 <= k < |q| ensures q[k] != '/' {
      assert q[k] == p[i + 1 + k];
    }
  }

  /** `Path(p).parent` as text: everything before the last '/' ("" when none). */
  function Parent(p: string): string
  {
    var i := LastIndexOf(p, '/');
    if i < 0 then "" else p[..i]
  }

  /** Position of the dot that starts the suffix of a name, if it has one:
      pathlib ignores a leading dot and a trailing dot. */
  function SuffixDot(name: string): (i: int)
    ensures i == -1 || (0 < i < |name| - 1 && name[i] == '.')
  {
    var i := LastIndexOf(name, '.');
    if 0 < i < |name| - 1 then i else -1
  }

  /** `PurePath.suffix` of a name. */
  function Suffix(name: string): (s: string)
    ensures s == [] || (s[0] == '.' && 2 <= |s| < |name|)
    ensures EndsWith(name, s)
  {
    var i := SuffixDot(name);
    if i < 0 then "" else name[i..]
  }

  /** `PurePath.stem` of a name. */
  function Stem(name: string): (s: string)
    ensures Stem(name) + Suffix(name) == name
  {
    var i := SuffixDot(name);
    if i < 0 then name else name[..i]
  }

  /** `PurePath.with_suffix(suffix)`: the last suffix of the name is replaced. */
  function WithSuffix(p: string, suffix: string): (r: string)
  {
    var parent := Parent(p);
    var name := Stem(Name(p)) + suffix;
    if parent == "" && !StartsWith(p, "/") then name else parent + "/" + name
  }

  /** A name with no separator, after nothing or after a separator, is
      the name of the whole. */
  lemma NameAfterSeparator(head: string, name: string)
    requires '/' !in name
    requires head == "" || head[|head| - 1] == '/'
    ensures Name(head + name) == name
  {
    var r := head + name;
    forall k | |head| <= k < |r|
      ensures r[k] != '/'
    {
      assert r[k] == name[k - |head|];
    }
    LastIndexOfIs(r, '/', |head| - 1);
    assert r[|head|..] == name;
  }

  lemma NameOfJoin(dir: string, child: string)
    requires child != [] && '/' !in child
    ensures Name(Join(dir, child)) == child
  {
    assert child[0] != '/';
    if dir != "" {
      NameAfterSeparator(dir + "/", child);
    } else {
      NameAfterSeparator("", child);
      assert "" + child == child;
    }
  }

  /** The name of a path derived with `WithSuffix` is the old stem followed by
      the new suffix, and the directory is kept. */
  lemma WithSuffixName(p: string, suffix: string)
    requires '/' !in suffix
    ensures Name(WithSuffix(p, suffix)) == Stem(Name(p)) + suffix
  {
    var parent := Parent(p);
    var stem := Stem(Name(p));
    var name := stem + suffix;
    assert '/' !in stem by {
      assert Name(p) == stem + Suffix(Name(p));
      forall k | 0 <= k < |stem| ensures stem[k] != '/' {
        assert stem[k] == Name(p)[k];
      }
    }
    assert '/' !in name;
    if parent == "" && !StartsWith(p, "/") {
      NameAfterSeparator("", name);
      assert "" + name == name;
    } else {
      NameAfterSeparator(parent + "/", name);
    }
  }
}

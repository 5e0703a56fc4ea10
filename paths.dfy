/**
 * The two path libraries the image handlers lean on: Node's `path.extname`
 * (POSIX flavour), used when the upload key is made, and Python 3.9's
 * `pathlib.PurePosixPath` `name`, `suffix` and `stem`, used when it is parsed,
 * plus `str.replace(c, '')`.
 */
module Paths {

  /** The index of the last `c` in `s`, or -1 (JavaScript's `lastIndexOf`, Python's `rfind`). */
  function LastIndexOf(s: string, c: char): (i: int)
    ensures -1 <= i < |s|
    ensures i >= 0 ==> s[i] == c
    ensures forall j :: i < j < |s| ==> s[j] != c
  {
    if s == [] then -1
    else if s[|s| - 1] == c then |s| - 1
    else LastIndexOf(s[..|s| - 1], c)
  }

  lemma NoneAfterLast(s: string, c: char)
    ensures c !in s[LastIndexOf(s, c) + 1..]
  {
  }

  /** The index of the last character of `s` that is not `c`, or -1. */
  function LastIndexNot(s: string, c: char): (i: int)
    ensures -1 <= i < |s|
    ensures i >= 0 ==> s[i] != c
    ensures forall j :: i < j < |s| ==> s[j] == c
  {
    if s == [] then -1
    else if s[|s| - 1] != c then |s| - 1
    else LastIndexNot(s[..|s| - 1], c)
  }

  /** `s` without its trailing '/' characters. */
  function StripTrailingSlashes(s: string): string {
    s[..LastIndexNot(s, '/') + 1]
  }

  /** The part of `s` after its last '/', all of `s` when it has none. */
  function AfterLastSlash(s: string): string {
    s[LastIndexOf(s, '/') + 1..]
  }

  /** A file extension as Node reports it: empty, or one dot followed by dot-free, slash-free text. */
  predicate IsExtension(ext: string) {
    ext == [] || (ext[0] == '.' && '/' !in ext && forall i :: 0 < i < |ext| ==> ext[i] != '.')
  }

  /** Node's `path.basename` (POSIX): the last path component, trailing slashes ignored. */
  function Basename(path: string): string {
    AfterLastSlash(StripTrailingSlashes(path))
  }

  /**
   * Node's `path.extname`: in the last path component (trailing slashes
   * ignored), the text from the last '.' on; empty when that component has no
   * dot, starts with its only dot, or is "..".
   */
  function Extname(path: string): (ext: string)
    ensures IsExtension(ext)
    ensures ext != [] <==> LastIndexOf(Basename(path), '.') > 0 && Basename(path) != ".."
    ensures |ext| <= |Basename(path)| && ext == Basename(path)[|Basename(path)| - |ext|..]
    ensures |ext| <= |StripTrailingSlashes(path)|
    ensures ext == StripTrailingSlashes(path)[|StripTrailingSlashes(path)| - |ext|..]
    ensures '.' !in path ==> ext == []
  {
    var base := Basename(path);
    var dot := LastIndexOf(base, '.');
    if dot <= 0 || base == ".." then "" else base[dot..]
  }

  /** `s` holds only empty and "." components: each character is '/' or a '.' standing alone between slashes. */
  predicate OnlyTrivialComponents(s: string) {
    forall k :: 0 <= k < |s| ==> SlashOrLoneDot(s, k)
  }

  /** The character at `k` is a '/' or a '.' with no other character of its component beside it. */
  predicate SlashOrLoneDot(s: string, k: int)
    requires 0 <= k < |s|
  {
    s[k] == '/' || (s[k] == '.' && (k == 0 || s[k - 1] == '/') && (k == |s| - 1 || s[k + 1] == '/'))
  }

  /** `name` is a whole component of `path` starting at `j`, and only empty and "." components follow it. */
  predicate LastComponentAt(path: string, name: string, j: int) {
    && 0 <= j <= |path| - |name|
    && path[j..j + |name|] == name
    && (j == 0 || path[j - 1] == '/')
    && (j + |name| == |path| || path[j + |name|] == '/')
    && OnlyTrivialComponents(path[j + |name|..])
  }

  /** pathlib's `name`: the last component that is neither empty nor ".", or "" when there is none. */
  function PurePathName(path: string): (name: string)
    ensures '/' !in name && name != "."
    decreases |path|
  {
    var i := LastIndexOf(path, '/');
    var last := path[i + 1..];
    NoneAfterLast(path, '/');
    if last != "" && last != "." then last
    else if i < 0 then ""
    else PurePathName(path[..i])
  }

  /**
   * pathlib's `name` is the last real component: a whole component of the
   * path followed only by empty and "." components, and "" exactly when the
   * path has no other kind of component.
   */
  lemma {:induction false} PurePathNameIsLastComponent(path: string)
    ensures PurePathName(path) == [] ==> OnlyTrivialComponents(path)
    ensures PurePathName(path) != [] ==> exists j :: LastComponentAt(path, PurePathName(path), j)
    decreases |path|
  {
    var i := LastIndexOf(path, '/');
    var last := path[i + 1..];
    var name := PurePathName(path);
    if last != "" && last != "." {
      LastIsComponent(path);
      assert name == last;
    } else if i < 0 {
      assert name == [] && path == last;
      assert OnlyTrivialComponents(path) by {
        if path == "." {
          assert SlashOrLoneDot(path, 0);
        }
      }
    } else {
      var rest := PurePathName(path[..i]);
      assert name == rest;
      PurePathNameIsLastComponent(path[..i]);
      TrivialComponentsAfter(path, i, rest);
    }
  }

  /** A non-empty text after the last '/' is a whole component with nothing after it. */
  lemma LastIsComponent(path: string)
    requires path[LastIndexOf(path, '/') + 1..] != ""
    ensures LastComponentAt(path, path[LastIndexOf(path, '/') + 1..], LastIndexOf(path, '/') + 1)
  {
    var j := LastIndexOf(path, '/') + 1;
    assert path[j..j + |path[j..]|] == path[j..];
    assert path[j + |path[j..]|..] == [];
  }

  /** Dropping an empty or "." last component keeps what the rest of the path says about its last real component. */
  lemma TrivialComponentsAfter(path: string, i: int, name: string)
    requires 0 <= i < |path| && path[i] == '/' && (path[i + 1..] == "" || path[i + 1..] == ".")
    requires name == [] ==> OnlyTrivialComponents(path[..i])
    requires name != [] ==> exists j :: LastComponentAt(path[..i], name, j)
    ensures name == [] ==> OnlyTrivialComponents(path)
    ensures name != [] ==> exists j :: LastComponentAt(path, name, j)
  {
    if name == [] {
      TrivialExtend(path[..i], path[i + 1..]);
      assert path[..i] + "/" + path[i + 1..] == path;
    } else {
      var j :| LastComponentAt(path[..i], name, j);
      var head := path[..i];
      TrivialExtend(head[j + |name|..], path[i + 1..]);
      assert head[j + |name|..] + "/" + path[i + 1..] == path[j + |name|..];
      assert path[j..j + |name|] == head[j..j + |name|];
      assert LastComponentAt(path, name, j);
    }
  }

  lemma TrivialExtend(a: string, last: string)
    requires OnlyTrivialComponents(a) && (last == "" || last == ".")
    ensures OnlyTrivialComponents(a + "/" + last)
  {
    var s := a + "/" + last;
    forall k | 0 <= k < |s|
      ensures SlashOrLoneDot(s, k)
    {
      if k < |a| {
        assert SlashOrLoneDot(a, k);
        assert s[k] == a[k];
        if k + 1 < |a| { assert s[k + 1] == a[k + 1]; } else { assert s[k + 1] == '/'; }
        if k > 0 { assert s[k - 1] == a[k - 1]; }
      } else if k == |a| {
        assert s[k] == '/';
      } else {
        assert last == "." && k == |a| + 1 == |s| - 1;
        assert s[k] == last[0] && s[k - 1] == '/';
      }
    }
  }

  /**
   * Python 3.9's split of a name into stem and suffix: the suffix is the text
   * from the last '.', provided that dot is neither the first nor the last
   * character; otherwise the suffix is empty and the stem is the whole name.
   */
  function SplitSuffix(name: string): (r: (string, string))
    ensures r.0 + r.1 == name
    ensures r.1 != [] <==> 0 < LastIndexOf(name, '.') < |name| - 1
    ensures r.1 != [] ==> |r.0| == LastIndexOf(name, '.') && |r.1| >= 2 && r.1[0] == '.' && '.' !in r.1[1..]
  {
    var i := LastIndexOf(name, '.');
    if 0 < i < |name| - 1 then
      (name[..i], name[i..])
    else (name, "")
  }

  /** pathlib's `suffix`. */
  function Suffix(path: string): string {
    SplitSuffix(PurePathName(path)).1
  }

  /** pathlib's `stem`. */
  function Stem(path: string): string {
    SplitSuffix(PurePathName(path)).0
  }

  /** Python's `s.replace(c, '')`: `s` with every `c` removed, the rest in order. */
  function Without(s: string, c: char): (r: string)
    ensures c !in r
    ensures |r| <= |s|
  {
    if s == [] then []
    else (if s[0] == c then [] else [s[0]]) + Without(s[1..], c)
  }

  lemma {:induction false} WithoutAbsent(s: string, c: char)
    requires c !in s
    ensures Without(s, c) == s
  {
    if s != [] {
      WithoutAbsent(s[1..], c);
    }
  }

  /** Removal works piecewise, so the characters other than `c` stay in their order. */
  lemma {:induction false} WithoutAppend(a: string, b: string, c: char)
    ensures Without(a + b, c) == Without(a, c) + Without(b, c)
  {
    if a != [] {
      assert (a + b)[1..] == a[1..] + b;
      WithoutAppend(a[1..], b, c);
    } else {
      assert a + b == b;
    }
  }

  /** `suffix.replace('.', '')` drops exactly the leading dot of a non-empty suffix. */
  lemma SuffixWithoutDot(path: string)
    ensures Without(Suffix(path), '.') == if Suffix(path) == [] then [] else Suffix(path)[1..]
  {
    var sfx := Suffix(path);
    if sfx != [] {
      WithoutAbsent(sfx[1..], '.');
    }
  }

  /** The last component of `dir + name` is `name` when `dir` ends in '/' and `name` has no '/'. */
  lemma AfterLastSlashAppend(dir: string, name: string)
    requires dir != [] && dir[|dir| - 1] == '/'
    requires '/' !in name
    ensures AfterLastSlash(dir + name) == name
  {
    var s := dir + name;
    var i := LastIndexOf(s, '/');
    assert s[|dir| - 1] == '/';
    assert forall j :: |dir| <= j < |s| ==> s[j] == name[j - |dir|];
    assert i == |dir| - 1;
  }

  /** Parsing `dir + name` with pathlib yields `name` when it is a plain file name. */
  lemma PurePathNameAppend(dir: string, name: string)
    requires dir != [] && dir[|dir| - 1] == '/'
    requires '/' !in name && name != "" && name != "."
    ensures PurePathName(dir + name) == name
  {
    AfterLastSlashAppend(dir, name);
  }

  /** A dot-free stem followed by an extension with text after its dot splits back into the two. */
  lemma SplitNamed(stem: string, ext: string)
    requires stem != [] && '.' !in stem
    requires IsExtension(ext) && |ext| >= 2
    ensures SplitSuffix(stem + ext) == (stem, ext)
  {
    var name := stem + ext;
    assert name[|stem|] == '.';
    assert forall j :: |stem| < j < |name| ==> name[j] == ext[j - |stem|];
    assert LastIndexOf(name, '.') == |stem|;
    assert name[..|stem|] == stem && name[|stem|..] == ext;
  }
}

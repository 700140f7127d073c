/** POSIX paths as Node's `path` module splits them: `basename`, `dirname`
    and `extname`, each located by the last '/' or '.' of the text. */
module Paths {
  import opened Text

  /** Index of the last occurrence of `c` in `s`, or -1. */
  function LastIndexOf(s: string, c: char): (r: int)
    ensures -1 <= r < |s|
  {
    LastIndexBelow(s, c, |s|)
  }

  /** Index of the last occurrence of `c` in `s[..k]`, or -1. */
  function LastIndexBelow(s: string, c: char, k: nat): (r: int)
    requires k <= |s|
    ensures -1 <= r < k
    ensures r >= 0 ==> s[r] == c
    ensures forall j :: r < j < k ==> s[j] != c
    decreases k
  {
    if k == 0 then -1
    else if s[k - 1] == c then k - 1
    else LastIndexBelow(s, c, k - 1)
  }

  /** The last occurrence is the only index with those three properties. */
  lemma {:induction false} LastIndexUnique(s: string, c: char, k: nat, r: int)
    requires k <= |s| && -1 <= r < k
    requires r >= 0 ==> s[r] == c
    requires forall j :: r < j < k ==> s[j] != c
    ensures LastIndexBelow(s, c, k) == r
    decreases k
  {
    if k > 0 && r < k - 1 {
      LastIndexUnique(s, c, k - 1, r);
    }
  }

  /** `path.basename(p)`: the text after the last '/'. */
  function Basename(p: string): (b: string)
    ensures '/' !in b && EndsWith(p, b)
    ensures b == p || p[|p| - |b| - 1] == '/'
  {
    var i := LastIndexOf(p, '/');
    AfterLastSlash(p, i);
    p[i + 1..]
  }

  /** The text after the last '/' at `i` (-1 for none). */
  lemma AfterLastSlash(p: string, i: int)
    requires -1 <= i < |p| && (i >= 0 ==> p[i] == '/')
    requires forall j :: i < j < |p| ==> p[j] != '/'
    ensures var b := p[i + 1..];
      '/' !in b && EndsWith(p, b) && (b == p || p[|p| - |b| - 1] == '/')
  {
    var b := p[i + 1..];
    assert forall k :: 0 <= k < |b| ==> b[k] == p[i + 1 + k];
  }

  /** `path.dirname(p)`: the text before the last '/', "/" for a file at the
      root, "." without any '/'. */
  function Dirname(p: string): (d: string)
    ensures '/' !in p ==> d == "."
    ensures '/' in p ==> (d == "/" && p == "/" + Basename(p)) || d + "/" + Basename(p) == p
  {
    var i := LastIndexOf(p, '/');
    if i < 0 then
      assert forall k :: 0 <= k < |p| ==> p[k] != '/';
      "."
    else if i == 0 then "/"
    else p[..i]
  }

  /** `path.extname(p)`: from the last '.' of the base name to its end; empty
      when there is none, when it is the first character (a dot-file), and
      for the base name "..". Otherwise it is a proper suffix of the base
      name that starts with '.'. */
  function Extname(p: string): (e: string)
    ensures e == [] || (e[0] == '.' && |e| < |Basename(p)| && EndsWith(Basename(p), e))
    ensures Basename(p) == ".." ==> e == []
  {
    var b := Basename(p);
    var d := LastIndexOf(b, '.');
    if d <= 0 || b == ".." then "" else b[d..]
  }

  /** The parent-directory entry has no extension. */
  lemma ExtnameOfParent(dir: string)
    ensures Extname(dir + "/..") == ""
  {
    assert dir + "/.." == dir + "/" + "..";
    BasenameOf(dir, "..");
  }

  /** `path.basename(p, path.extname(p))`: the file name without its extension. */
  function Stem(p: string): (r: string)
    ensures r + Extname(p) == Basename(p)
  {
    var b, e := Basename(p), Extname(p);
    var k := |b| - |e|;
    assert b == b[..k] + b[k..];
    b[..k]
  }

  /** The stem, part of the base name, holds no '/'. */
  lemma StemNoSlash(p: string)
    ensures '/' !in Stem(p)
  {
    var r, b := Stem(p), Basename(p);
    assert forall k :: 0 <= k < |r| ==> r[k] == b[k];
  }

  lemma LastIndexOfAppend(a: string, b: string, c: char)
    requires c !in b
    ensures LastIndexOf(a + b, c) == LastIndexOf(a, c)
  {
    var r := LastIndexOf(a, c);
    var ab := a + b;
    assert forall j :: r < j < |ab| ==> ab[j] != c by {
      forall j | r < j < |ab|
        ensures ab[j] != c
      {
        if j >= |a| {
          assert ab[j] == b[j - |a|];
        }
      }
    }
    LastIndexUnique(ab, c, |ab|, r);
  }

  /** The base name of `dir/file` is `file` when it holds no '/'. */
  lemma BasenameOf(dir: string, file: string)
    requires '/' !in file
    ensures Basename(dir + "/" + file) == file
  {
    var a := dir + "/";
    LastIndexOfAppend(a, file, '/');
    assert LastIndexOf(a, '/') == |dir|;
    assert (a + file)[|a|..] == file;
  }

  /** The stem of `dir/name.ext` is `name`, when neither the name nor the
      extension holds a '/' and the extension holds no '.'. */
  lemma StemOfFile(dir: string, name: string, ext: string)
    requires name != [] && '/' !in name && '/' !in ext && '.' !in ext
    requires name != "." || ext != ""
    ensures Stem(dir + "/" + (name + "." + ext)) == name
  {
    var b := name + "." + ext;
    var p := dir + "/" + b;
    BasenameOf(dir, b);
    ExtOf(name, ext);
    assert Basename(p) == b;
    assert b != ".." by {
      if |b| == 2 {
        assert |name| == 1 && ext == [] && b[0] == name[0];
      }
    }
    assert Extname(p) == b[|name|..];
    assert |Extname(p)| == |ext| + 1;
    assert Stem(p) == b[..|name|];
  }

  lemma ExtOf(name: string, ext: string)
    requires name != [] && '.' !in ext
    ensures LastIndexOf(name + "." + ext, '.') == |name|
  {
    LastIndexOfAppend(name + ".", ext, '.');
  }

  /** `path.basename(p, suffix)`: the base name without `suffix` when it ends
      with it and is longer than it. */
  function BasenameWithout(p: string, suffix: string): (b: string)
    ensures '/' !in b
  {
    var full := Basename(p);
    if EndsWith(full, suffix) && |full| > |suffix| then full[..|full| - |suffix|] else full
  }
}

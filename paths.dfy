/**
 * The parts of pathlib the scripts use: `name`, `suffix`, `stem` and `with_suffix`.
 * Paths are strings in pathlib's normalised form (components separated by one '/',
 * no trailing '/', "." only for the current directory).
 */
module Paths {
  import opened Wrappers
  import opened Strings

  /** `PurePath(p).name`: the text after the last '/'; the current directory "." has the empty name. */
  function Name(p: string): (n: string)
    ensures |n| <= |p| && p[|p| - |n|..] == n
    ensures '/' !in n && n != "."
    ensures n != "" && |n| < |p| ==> p[|p| - |n| - 1] == '/'
  {
    var last := match LastIndexOf(p, '/') case None => p case Some(i) => p[i + 1..];
    if last == "." then "" else last
  }

  /** Everything before the name: empty, or ending in '/'. */
  function Dir(p: string): (d: string)
    ensures d + Name(p) == p
    ensures d == [] || d[|d| - 1] == '/' || Name(p) == ""
  {
    var k := |p| - |Name(p)|;
    assert p[..k] + p[k..] == p;
    p[..k]
  }

  /** `PurePath.suffix` of a name: from its last '.', unless that '.' is its first or last character. */
  function Suffix(name: string): (x: string)
    ensures x != "" ==> 2 <= |x| < |name| && x[0] == '.' && '.' !in x[1..] && name[|name| - |x|..] == x
    ensures x == "" <==> |name| < 2 || name[|name| - 1] == '.' || '.' !in name[1..|name| - 1]
  {
    match LastIndexOf(name, '.')
    case None => ""
    case Some(i) =>
      if 0 < i < |name| - 1 then
        assert name[1..|name| - 1][i - 1] == '.';
        name[i..]
      else
        assert i == 0 && 2 <= |name| ==> name[1..|name| - 1] == name[1..][..|name| - 2];
        ""
  }

  /** `PurePath.stem` of a name: the name without its suffix; empty only for the empty name. */
  function Stem(name: string): (st: string)
    ensures |st| + |Suffix(name)| == |name|
    ensures st == "" <==> name == ""
  {
    name[..|name| - |Suffix(name)|]
  }

  /** The stem followed by the suffix is the whole name. */
  lemma StemThenSuffix(name: string)
    ensures Stem(name) + Suffix(name) == name
  {
    var k := |name| - |Suffix(name)|;
    assert name[..k] + name[k..] == name;
  }

  /** The suffixes `with_suffix` accepts; any other raises `ValueError`. */
  predicate ValidSuffix(suffix: string)
  {
    '/' !in suffix && (suffix == "" || (suffix[0] == '.' && suffix != "."))
  }

  /**
   * `PurePath(p).with_suffix(suffix)`, `None` where pathlib raises `ValueError`
   * (an invalid suffix, or a path with an empty name).
   */
  function WithSuffix(p: string, suffix: string): (r: Option<string>)
    ensures r.None? <==> Name(p) == "" || !ValidSuffix(suffix)
    ensures r.Some? ==> r.value == Dir(p) + (Stem(Name(p)) + suffix)
  {
    if Name(p) == "" || !ValidSuffix(suffix) then None
    else Some(Dir(p) + (Stem(Name(p)) + suffix))
  }

  /** A name appended to a directory part is the name of the result. */
  lemma NameOfJoin(d: string, n: string)
    requires d == [] || d[|d| - 1] == '/'
    requires n != "" && n != "." && '/' !in n
    ensures Name(d + n) == n && Dir(d + n) == d
  {
    var q := d + n;
    if d == [] {
      assert q == n;
    } else {
      assert q[|d| - 1] == '/';
      assert q[|d|..] == n;
      LastIndexOfIsLast(q, '/', |d| - 1);
    }
  }

  /** A suffix with a single '.' after a non-empty stem is the suffix of the result. */
  lemma SuffixOfJoin(st: string, suffix: string)
    requires st != "" && 2 <= |suffix| && suffix[0] == '.' && '.' !in suffix[1..]
    ensures Suffix(st + suffix) == suffix && Stem(st + suffix) == st
  {
    var n := st + suffix;
    assert n[|st|] == '.';
    assert n[|st| + 1..] == suffix[1..];
    LastIndexOfIsLast(n, '.', |st|);
    assert n[|st|..] == suffix;
  }

  /**
   * Replacing the suffix keeps the directory and the stem, and the new name carries
   * exactly the new suffix (for a suffix with a single '.').
   */
  lemma WithSuffixParts(p: string, suffix: string)
    requires WithSuffix(p, suffix).Some?
    requires 2 <= |suffix| && '.' !in suffix[1..]
    ensures var q := WithSuffix(p, suffix).value;
      Dir(q) == Dir(p) && Name(q) == Stem(Name(p)) + suffix
      && Suffix(Name(q)) == suffix && Stem(Name(q)) == Stem(Name(p))
  {
    var name := Name(p);
    var st := Stem(name);
    StemThenSuffix(name);
    assert name != "" && ValidSuffix(suffix);
    assert st == name[..|st|];
    assert '/' !in st;
    assert '/' !in st + suffix;
    NameOfJoin(Dir(p), st + suffix);
    SuffixOfJoin(st, suffix);
  }
}

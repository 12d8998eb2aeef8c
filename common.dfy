/** Small helpers shared by the modules of this model: an optional value and
    the string predicates that JavaScript and Python expose as methods
    (`startsWith`, `endsWith`, `includes`, `toLowerCase`). */
module Common {

  datatype Option<+T> = None | Some(value: T)

  /** `s.startswith(prefix)` */
  predicate StartsWith(s: string, prefix: string) {
    |prefix| <= |s| && s[..|prefix|] == prefix
  }

  /** `s.endswith(suffix)` */
  predicate EndsWith(s: string, suffix: string) {
    |suffix| <= |s| && s[|s| - |suffix|..] == suffix
  }

  /** `needle` occurs in `hay` starting at offset `i`. */
  predicate OccursAt(hay: string, needle: string, i: int) {
    0 <= i <= |hay| - |needle| && hay[i..i + |needle|] == needle
  }

  /** `hay.includes(needle)`: `needle` occurs at some offset of `hay`. */
  predicate Includes(hay: string, needle: string) {
    exists i | 0 <= i <= |hay| - |needle| :: OccursAt(hay, needle, i)
  }

  /** Lower-casing of one character, restricted to ASCII letters. */
  function LowerChar(c: char): char {
    if 'A' <= c <= 'Z' then (c as int + 32) as char else c
  }

  /** `s.toLowerCase()`, restricted to ASCII letters. */
  function Lower(s: string): (r: string)
    ensures |r| == |s|
    ensures forall i :: 0 <= i < |s| ==> r[i] == LowerChar(s[i])
  {
    if s == [] then [] else [LowerChar(s[0])] + Lower(s[1..])
  }

  /** Index of the last occurrence of `c` in `s`, or -1 (`s.rfind(c)`). */
  function LastIndexOf(s: string, c: char): (r: int)
    ensures -1 <= r < |s|
    ensures r >= 0 ==> s[r] == c
    ensures forall j :: r < j < |s| ==> s[j] != c
  {
    if s == [] then -1
    else if s[|s| - 1] == c then |s| - 1
    else LastIndexOf(s[..|s| - 1], c)
  }

  /** `os.path.splitext(p)` on POSIX: the extension runs from the last dot
      to the end when that dot lies after the last slash and some character
      other than a dot precedes it in the final path component; otherwise
      the extension is empty. */
  function SplitExt(p: string): (r: (string, string))
    ensures r.0 + r.1 == p
    ensures r.1 == [] || (r.1[0] == '.' && forall j :: 0 < j < |r.1| ==> r.1[j] != '.' && r.1[j] != '/')
    ensures r.1 != [] <==> (LastIndexOf(p, '.') > LastIndexOf(p, '/') &&
                            exists j :: LastIndexOf(p, '/') < j < LastIndexOf(p, '.') && p[j] != '.')
    ensures r.1 != [] ==> r.1 == p[LastIndexOf(p, '.')..]
  {
    var sep := LastIndexOf(p, '/');
    var dot := LastIndexOf(p, '.');
    if dot > sep && exists j | sep < j < dot :: p[j] != '.' then (p[..dot], p[dot..]) else (p, [])
  }

  /** Leading dots of the last component belong to the stem; only the last
      dot after a name character starts the extension. */
  lemma SplitExtExamples()
    ensures SplitExt("a.tar.gz") == ("a.tar", ".gz")
    ensures SplitExt("a..b") == ("a.", ".b")
    ensures SplitExt("..pt") == ("..pt", "")
    ensures SplitExt("x.d/.b") == ("x.d/.b", "")
  {
    var p1 := "a.tar.gz";
    assert p1[7] == 'z' && p1[6] == 'g' && p1[5] == '.' && p1[1] == '.' && p1[0] == 'a';
    assert LastIndexOf(p1, '.') == 5;
    assert LastIndexOf(p1, '/') == -1;
    assert -1 < 0 < 5 && p1[0] != '.';
    assert p1[..5] == "a.tar" && p1[5..] == ".gz";
    var p2 := "a..b";
    assert p2[3] == 'b' && p2[2] == '.' && p2[1] == '.' && p2[0] == 'a';
    assert LastIndexOf(p2, '.') == 2;
    assert LastIndexOf(p2, '/') == -1;
    assert -1 < 0 < 2 && p2[0] != '.';
    assert p2[..2] == "a." && p2[2..] == ".b";
    var p3 := "..pt";
    assert p3[3] == 't' && p3[2] == 'p' && p3[1] == '.' && p3[0] == '.';
    assert LastIndexOf(p3, '.') == 1;
    assert LastIndexOf(p3, '/') == -1;
    assert !exists j :: -1 < j < 1 && p3[j] != '.';
    assert SplitExt(p3).1 == [];
    assert SplitExt(p3).0 + [] == SplitExt(p3).0;
    var p4 := "x.d/.b";
    assert p4[5] == 'b' && p4[4] == '.' && p4[3] == '/';
    assert LastIndexOf(p4, '.') == 4;
    assert LastIndexOf(p4, '/') == 3;
    assert SplitExt(p4).1 == [];
    assert SplitExt(p4).0 + [] == SplitExt(p4).0;
  }

  /** A path ending in an extension-shaped suffix splits off exactly that
      suffix, or nothing at all; a name character right before the suffix
      makes it exactly that suffix. */
  lemma SplitExtOfSuffix(p: string, suffix: string)
    requires |suffix| > 0 && suffix[0] == '.'
    requires forall j :: 0 < j < |suffix| ==> suffix[j] != '.' && suffix[j] != '/'
    requires EndsWith(p, suffix)
    ensures SplitExt(p).1 == suffix || SplitExt(p).1 == []
    ensures |p| > |suffix| && p[|p| - |suffix| - 1] != '.' && p[|p| - |suffix| - 1] != '/' ==>
              SplitExt(p) == (p[..|p| - |suffix|], suffix)
  {
    var d := |p| - |suffix|;
    assert p[d] == suffix[0];
    forall j | d < j < |p| ensures p[j] != '.' && p[j] != '/' {
      assert p[j] == suffix[j - d];
    }
    var sep := LastIndexOf(p, '/');
    var dot := LastIndexOf(p, '.');
    assert dot == d;
    assert sep < d;
    if d > 0 && p[d - 1] != '.' && p[d - 1] != '/' {
      assert sep < d - 1;
      assert p[d..] == suffix;
    }
    if SplitExt(p).1 != [] {
      assert p[d..] == suffix;
    }
  }
}

/**
 * String helpers that stand for the few pieces of Python's standard library the core uses:
 * decimal formatting of an int (`'{}'.format(i)`), `','.join`, `os.path.join`,
 * `os.path.basename` and `os.path.splitext` on POSIX paths.
 */
module Texts {

  function DigitChar(d: nat): (c: char)
    requires d < 10
    ensures '0' <= c <= '9'
  {
    "0123456789"[d]
  }

  /** Decimal representation of a non-negative integer, as Python's `str(i)` writes it. */
  function NatToString(n: nat): (s: string)
    ensures 0 < |s|
    ensures forall k :: 0 <= k < |s| ==> '0' <= s[k] <= '9'
    ensures n < 10 <==> |s| == 1
    decreases n
  {
    if n < 10 then [DigitChar(n)] else NatToString(n / 10) + [DigitChar(n % 10)]
  }

  lemma DigitCharInjective(a: nat, b: nat)
    requires a < 10 && b < 10
    ensures DigitChar(a) == DigitChar(b) ==> a == b
  {
  }

  /** Distinct numbers have distinct decimal representations. */
  lemma {:induction false} NatToStringInjective(a: nat, b: nat)
    ensures NatToString(a) == NatToString(b) ==> a == b
    decreases a
  {
    if NatToString(a) == NatToString(b) {
      if a < 10 || b < 10 {
        assert a < 10 && b < 10;
        DigitCharInjective(a, b);
      } else {
        var sa, sb := NatToString(a), NatToString(b);
        assert sa[|sa| - 1] == DigitChar(a % 10) && sb[|sb| - 1] == DigitChar(b % 10);
        DigitCharInjective(a % 10, b % 10);
        assert sa[..|sa| - 1] == NatToString(a / 10);
        assert sb[..|sb| - 1] == NatToString(b / 10);
        NatToStringInjective(a / 10, b / 10);
      }
    }
  }

  /** `sep.join(parts)` */
  function Join(sep: string, parts: seq<string>): (s: string)
    ensures |parts| == 1 ==> s == parts[0]
    ensures parts == [] ==> s == ""
  {
    if parts == [] then ""
    else if |parts| == 1 then parts[0]
    else parts[0] + sep + Join(sep, parts[1..])
  }

  predicate EndsWith(s: string, suffix: string) {
    |suffix| <= |s| && s[|s| - |suffix|..] == suffix
  }

  predicate StartsWith(s: string, prefix: string) {
    |prefix| <= |s| && s[..|prefix|] == prefix
  }

  /** Python's `str.rfind` for one character: the last index of `c`, or -1. */
  function RFind(s: string, c: char): (i: int)
    ensures -1 <= i < |s|
    ensures 0 <= i ==> s[i] == c
    ensures forall k :: i < k < |s| ==> s[k] != c
  {
    if s == [] then -1
    else if s[|s| - 1] == c then |s| - 1
    else RFind(s[..|s| - 1], c)
  }

  /** `posixpath.join(a, b)`: an absolute `b` replaces `a`; otherwise one '/' separates them. */
  function PathJoin(a: string, b: string): (p: string)
    ensures !StartsWith(b, "/") && a != "" && !EndsWith(a, "/") ==> p == a + "/" + b
  {
    if StartsWith(b, "/") then b
    else if a == "" || EndsWith(a, "/") then a + b
    else a + "/" + b
  }

  /** `posixpath.basename(p)`: what follows the last '/'. */
  function Basename(p: string): (b: string)
    ensures forall i :: 0 <= i < |b| ==> b[i] != '/'
    ensures EndsWith(p, b)
  {
    var k := RFind(p, '/');
    p[k + 1..]
  }

  /** The base name of a path built as a directory ending in '/' followed by a plain name is that name. */
  lemma BasenameAfterSlash(dir: string, name: string)
    requires dir != [] && dir[|dir| - 1] == '/'
    requires forall c :: c in name ==> c != '/'
    ensures Basename(dir + name) == name
  {
    var p := dir + name;
    var k := RFind(p, '/');
    assert p[|dir| - 1] == '/';
    forall j | |dir| <= j < |p| ensures p[j] != '/' {
      assert p[j] == name[j - |dir|] && name[j - |dir|] in name;
    }
    assert k == |dir| - 1;
    assert p[k + 1..] == name;
  }

  /**
   * The extension part of `posixpath.splitext(p)`: from the last '.' of the last path component,
   * provided some character before that dot (in the component) is not itself a dot;
   * otherwise the empty string (so ".log" and "..log" have no extension).
   */
  function Extension(p: string): string {
    var sepIndex := RFind(p, '/');
    var dotIndex := RFind(p, '.');
    if dotIndex > sepIndex && exists i :: sepIndex < i < dotIndex && p[i] != '.' then p[dotIndex..]
    else ""
  }

  /**
   * A file name has the extension ".log" exactly when it ends with ".log" and, in its last
   * component, some character before that final ".log" is not a dot.
   */
  lemma ExtensionIsLog(p: string)
    ensures Extension(p) == ".log" <==>
            (EndsWith(p, ".log") && exists i :: RFind(p, '/') < i < |p| - 4 && p[i] != '.')
  {
    var sepIndex := RFind(p, '/');
    var dotIndex := RFind(p, '.');
    if EndsWith(p, ".log") {
      assert p[|p| - 4] == '.' && p[|p| - 3] == 'l' && p[|p| - 2] == 'o' && p[|p| - 1] == 'g';
      assert dotIndex == |p| - 4;
    }
    if Extension(p) == ".log" {
      assert dotIndex > sepIndex;
      assert p[dotIndex..] == ".log";
      assert |p| - dotIndex == 4;
      assert p[|p| - 4..] == p[dotIndex..];
    }
  }
}

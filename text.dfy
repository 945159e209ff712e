/** The few string operations of Python's `str` that the services rely on, on the ASCII range. */
module Text {

  /** `str.lower()` on one character; only ASCII letters change. */
  function LowerChar(c: char): char {
    if 'A' <= c <= 'Z' then (c as int + 32) as char else c
  }

  /** `str.lower()`: the same length, every character lowered. */
  function Lower(s: string): (r: string)
    ensures |r| == |s|
    ensures forall i :: 0 <= i < |s| ==> r[i] == LowerChar(s[i])
  {
    seq(|s|, i requires 0 <= i < |s| => LowerChar(s[i]))
  }

  /** A character that is absent from `s` in both cases is absent from `Lower(s)`. */
  lemma AbsentAfterLower(s: string, c: char)
    requires c !in s
    requires 'a' <= c <= 'z' ==> (c as int - 32) as char !in s
    ensures c !in Lower(s)
  {
    forall i | 0 <= i < |s|
      ensures Lower(s)[i] != c
    {
      assert s[i] != c;
    }
  }

  /** `needle` occurs in `haystack` starting at index `i`. */
  predicate OccursAt(haystack: string, needle: string, i: int) {
    0 <= i <= |haystack| - |needle| && haystack[i..i + |needle|] == needle
  }

  /** `needle in haystack` for two strings. */
  predicate Contains(haystack: string, needle: string) {
    exists i | 0 <= i <= |haystack| - |needle| :: OccursAt(haystack, needle, i)
  }

  /** A string that lacks one of the needle's characters cannot contain the needle. */
  lemma {:induction false} MissingCharRulesOutSubstring(haystack: string, needle: string, c: char)
    requires c in needle && c !in haystack
    ensures !Contains(haystack, needle)
  {
    var j :| 0 <= j < |needle| && needle[j] == c;
    forall i | 0 <= i <= |haystack| - |needle|
      ensures !OccursAt(haystack, needle, i)
    {
      assert haystack[i..i + |needle|][j] == haystack[i + j] != c;
    }
  }

  /** `str.rfind(c)`: the last index holding `c`, or -1 when there is none. */
  function LastIndexOf(s: string, c: char): (r: int)
    ensures -1 <= r < |s|
    ensures r >= 0 ==> s[r] == c
    ensures forall j :: r < j < |s| ==> s[j] != c
    decreases |s|
  {
    if |s| == 0 then -1
    else if s[|s| - 1] == c then |s| - 1
    else LastIndexOf(s[..|s| - 1], c)
  }

  /** `str.find(c)`: the first index holding `c`, or -1 when there is none. */
  function IndexOf(s: string, c: char): (r: int)
    ensures -1 <= r < |s|
    ensures r >= 0 ==> s[r] == c
    ensures forall j :: 0 <= j < |s| && (r < 0 || j < r) ==> s[j] != c
    decreases |s|
  {
    if |s| == 0 then -1
    else if s[0] == c then 0
    else var r := IndexOf(s[1..], c); if r < 0 then -1 else r + 1
  }

  /** In `a + [c] + b`, where `a` lacks `c`, the first `c` is the separator, so the text
      before the separator is recovered: `a` is determined by the whole string. */
  lemma {:induction false} IndexOfSeparator(a: string, c: char, b: string)
    requires c !in a
    ensures IndexOf(a + [c] + b, c) == |a|
    decreases |a|
  {
    if |a| > 0 {
      assert (a + [c] + b)[1..] == a[1..] + [c] + b;
      IndexOfSeparator(a[1..], c, b);
    }
  }

  /** Two strings split at a separator that neither prefix contains agree on the prefixes
      and the rests when the wholes agree. */
  lemma SplitAtSeparator(a1: string, b1: string, a2: string, b2: string, c: char)
    requires c !in a1 && c !in a2
    requires a1 + [c] + b1 == a2 + [c] + b2
    ensures a1 == a2 && b1 == b2
  {
    IndexOfSeparator(a1, c, b1);
    IndexOfSeparator(a2, c, b2);
    assert a1 == (a1 + [c] + b1)[..|a1|];
    assert a2 == (a2 + [c] + b2)[..|a2|];
    assert b1 == (a1 + [c] + b1)[|a1| + 1..];
    assert b2 == (a2 + [c] + b2)[|a2| + 1..];
  }

  /** `str.lstrip(c)`: `s` without its leading run of `c`. */
  function StripLeading(s: string, c: char): (r: string)
    ensures |r| <= |s| && s[|s| - |r|..] == r
    ensures forall i :: 0 <= i < |s| - |r| ==> s[i] == c
    ensures r == [] || r[0] != c
    decreases |s|
  {
    if |s| > 0 && s[0] == c then StripLeading(s[1..], c) else s
  }

  /** The extension that POSIX `os.path.splitext` splits off a path: from the last '.' of the last
      path component to the end, provided that component has a character other than '.' before
      that dot (so ".bashrc" and "..png" have none); otherwise the empty string. */
  function Extension(path: string): (ext: string)
    ensures ext == [] || (ext[0] == '.' && '.' !in ext[1..] && '/' !in ext)
    ensures |ext| <= |path| && path[|path| - |ext|..] == ext
  {
    var sep := LastIndexOf(path, '/');
    var dot := LastIndexOf(path, '.');
    if dot > sep && exists j :: sep + 1 <= j < dot && path[j] != '.' then path[dot..] else []
  }

  /** `path[d]` is the dot that starts the extension: the last '.' of the path, with no '/'
      after it, and some character other than '.' before it in the same path component. */
  predicate ExtensionAt(path: string, d: int) {
    && 0 <= d < |path| && path[d] == '.'
    && (forall k | d < k < |path| :: path[k] != '.' && path[k] != '/')
    && exists j | 0 <= j < d :: path[j] != '.' && forall k | j <= k < d :: path[k] != '/'
  }

  /** The extension is not empty exactly when some dot starts one, and then it runs from that
      dot to the end of the path. */
  lemma ExtensionIsSplitext(path: string)
    ensures Extension(path) != [] <==> exists d :: ExtensionAt(path, d)
    ensures forall d :: ExtensionAt(path, d) ==> Extension(path) == path[d..]
  {
    var sep := LastIndexOf(path, '/');
    var dot := LastIndexOf(path, '.');
    if dot > sep && exists j :: sep + 1 <= j < dot && path[j] != '.' {
      var j :| sep + 1 <= j < dot && path[j] != '.';
      assert forall k | j <= k < dot :: path[k] != '/';
      assert ExtensionAt(path, dot);
    }
    forall d | ExtensionAt(path, d)
      ensures Extension(path) == path[d..]
    {
      assert dot == d;
      var j :| 0 <= j < d && path[j] != '.' && forall k | j <= k < d :: path[k] != '/';
      assert sep < j;
    }
  }

  /** Lowering never moves a character that is not a letter. */
  lemma {:induction false} LastIndexOfLower(s: string, c: char)
    requires !('A' <= c <= 'Z') && !('a' <= c <= 'z')
    ensures LastIndexOf(Lower(s), c) == LastIndexOf(s, c)
    decreases |s|
  {
    if |s| > 0 {
      var init := s[..|s| - 1];
      assert Lower(s)[..|s| - 1] == Lower(init);
      LastIndexOfLower(init, c);
    }
  }

  /** Lowering twice is lowering once. */
  lemma LowerIdempotent(s: string)
    ensures Lower(Lower(s)) == Lower(s)
  {
    assert forall i :: 0 <= i < |s| ==> LowerChar(LowerChar(s[i])) == LowerChar(s[i]);
  }

  /** Splitting off the extension commutes with lowering, so a check on the lowered
      extension does not depend on the case of the path. */
  lemma ExtensionOfLower(path: string)
    ensures Extension(Lower(path)) == Lower(Extension(path))
  {
    var low := Lower(path);
    LastIndexOfLower(path, '/');
    LastIndexOfLower(path, '.');
    var sep := LastIndexOf(path, '/');
    var dot := LastIndexOf(path, '.');
    if dot > sep {
      assert (exists j :: sep + 1 <= j < dot && low[j] != '.')
        <==> (exists j :: sep + 1 <= j < dot && path[j] != '.');
      assert low[dot..] == Lower(path[dot..]);
    }
  }

  /** The decimal digit for `d`. */
  function DigitChar(d: nat): char
    requires d < 10
  {
    (48 + d) as char
  }

  predicate IsDigits(s: string) {
    forall i :: 0 <= i < |s| ==> '0' <= s[i] <= '9'
  }

  /** `str(n)` for a non-negative integer. */
  function NatToString(n: nat): (s: string)
    ensures |s| >= 1 && IsDigits(s)
    decreases n
  {
    if n < 10 then [DigitChar(n)] else NatToString(n / 10) + [DigitChar(n % 10)]
  }

  /** `str(i)` for any integer. */
  function IntToString(i: int): (s: string)
    ensures |s| >= 1
    ensures i < 0 <==> s[0] == '-'
    ensures forall k :: 0 <= k < |s| ==> s[k] == '-' || '0' <= s[k] <= '9'
  {
    if i < 0 then "-" + NatToString(-i) else NatToString(i)
  }

  /** The number a string of decimal digits denotes (the partner of NatToString). */
  function DigitsValue(s: string): nat
    requires IsDigits(s)
  {
    if s == [] then 0 else DigitsValue(s[..|s| - 1]) * 10 + (s[|s| - 1] as int - 48)
  }

  /** Reading back the decimal rendering of `n` gives `n`. */
  lemma {:induction false} DigitsValueOfNatToString(n: nat)
    ensures DigitsValue(NatToString(n)) == n
    decreases n
  {
    if n >= 10 {
      var prefix := NatToString(n / 10);
      var s := NatToString(n);
      assert s[..|s| - 1] == prefix;
      DigitsValueOfNatToString(n / 10);
    }
  }

  /** Distinct naturals render to distinct strings. */
  lemma NatToStringInjective(m: nat, n: nat)
    requires NatToString(m) == NatToString(n)
    ensures m == n
  {
    DigitsValueOfNatToString(m);
    DigitsValueOfNatToString(n);
  }

  /** Distinct integers render to distinct strings. */
  lemma IntToStringInjective(a: int, b: int)
    requires IntToString(a) == IntToString(b)
    ensures a == b
  {
    if a < 0 && b < 0 {
      var na, nb := NatToString(-a), NatToString(-b);
      assert IntToString(a) == "-" + na && IntToString(b) == "-" + nb;
      assert na == ("-" + na)[1..] && nb == ("-" + nb)[1..];
      NatToStringInjective(-a, -b);
    } else if a >= 0 && b >= 0 {
      NatToStringInjective(a, b);
    }
  }
}

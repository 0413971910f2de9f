/**
 * The rendering cache's keys: `<name>::<version>::<plugin flag>`.
 *
 * The version is printed as Java prints an `int` (an optional '-' and
 * decimal digits) and the plugin flag as Java prints a `Boolean` or
 * `null`. Neither part contains ':', so the key can be split again from
 * the right; `ParseCacheKey` does that, and the round trip it completes
 * shows that distinct (name, version, flag) triples never share a key,
 * whatever the page name contains.
 */
module CacheKeys {
  import opened Wrappers

  /** Separator between the key's parts (VERSION_DELIMITER). */
  const VERSION_DELIMITER: string := "::"

  /** The version number that stands for "the latest version of a page". */
  const LATEST_VERSION: int := -1

  /**
   * The execute-plugins context variable: Boolean.TRUE, Boolean.FALSE
   * or absent (null).
   */
  datatype PluginFlag = Enabled | Disabled | Unspecified

  /** A page identity as the cache sees it. */
  datatype PageId = PageId(name: string, version: int, flag: PluginFlag)

  /** The string that Java's string concatenation produces for the flag. */
  function FlagString(f: PluginFlag): (s: string)
    ensures ':' !in s
    ensures ParseFlag(s) == Some(f)
  {
    match f
    case Enabled => "true"
    case Disabled => "false"
    case Unspecified => "null"
  }

  function ParseFlag(s: string): Option<PluginFlag>
  {
    if s == "true" then Some(Enabled)
    else if s == "false" then Some(Disabled)
    else if s == "null" then Some(Unspecified)
    else None
  }

  // ---------------------------------------------------------------- decimals

  predicate IsDigit(c: char)
  {
    '0' <= c <= '9'
  }

  predicate AllDigits(s: string)
  {
    forall i :: 0 <= i < |s| ==> IsDigit(s[i])
  }

  function DigitChar(d: nat): (c: char)
    requires d < 10
    ensures IsDigit(c) && DigitValue(c) == d
  {
    ('0' as int + d) as char
  }

  function DigitValue(c: char): nat
    requires IsDigit(c)
  {
    c as int - '0' as int
  }

  /** Value of a non-empty string of decimal digits. */
  function ParseNat(s: string): nat
    requires |s| > 0 && AllDigits(s)
  {
    if |s| == 1 then DigitValue(s[0])
    else 10 * ParseNat(s[..|s| - 1]) + DigitValue(s[|s| - 1])
  }

  /** Decimal digits of `n`, most significant first, without leading zeros. */
  function NatToString(n: nat): (s: string)
    ensures |s| > 0 && AllDigits(s)
    ensures ParseNat(s) == n
    ensures (s[0] == '0') == (n == 0)
    ensures (|s| == 1) == (n < 10)
    decreases n
  {
    if n < 10 then [DigitChar(n)]
    else
      var prefix := NatToString(n / 10);
      var s := prefix + [DigitChar(n % 10)];
      assert s[..|s| - 1] == prefix;
      s
  }

  /**
   * Java's `Integer.toString`: a '-' sign for negative numbers, then the digits,
   * with no leading zero and no "-0".
   */
  function IntToString(n: int): (s: string)
    ensures ':' !in s
    ensures ParseInt(s) == Some(n)
    ensures |s| == 1 || (s[0] != '0' && (s[0] == '-' ==> s[1] != '0'))
  {
    if n < 0 then
      var s := "-" + NatToString(-n);
      assert s[1..] == NatToString(-n);
      assert forall i :: 0 <= i < |s| ==> s[i] == '-' || IsDigit(s[i]);
      s
    else
      NatToString(n)
  }

  /** Inverse of IntToString: an optional '-' followed by at least one digit. */
  function ParseInt(s: string): Option<int>
  {
    if |s| > 1 && s[0] == '-' && AllDigits(s[1..]) then Some(0 - ParseNat(s[1..]) as int)
    else if |s| > 0 && AllDigits(s) then Some(ParseNat(s))
    else None
  }

  // ---------------------------------------------------------------- keys

  /**
   * The cache key of a page version rendered with the given plugin flag. It starts
   * with the page name and the delimiter; what follows holds no ':' except the
   * delimiter between version and flag, so ParseCacheKeyRoundTrip can read it back.
   */
  function CacheKey(name: string, version: int, flag: PluginFlag): (key: string)
    ensures |key| > |name| + 2 && key[..|name| + 2] == name + VERSION_DELIMITER
  {
    name + VERSION_DELIMITER + IntToString(version) + VERSION_DELIMITER + FlagString(flag)
  }

  /** Index of the last occurrence of `c` in `s`, or -1 when there is none. */
  function LastIndexOf(s: string, c: char): (r: int)
    ensures -1 <= r < |s|
    ensures r >= 0 ==> s[r] == c
    ensures forall j :: r < j < |s| ==> s[j] != c
  {
    if |s| == 0 then -1
    else if s[|s| - 1] == c then |s| - 1
    else LastIndexOf(s[..|s| - 1], c)
  }

  /** Splits `s` at its last "::" provided nothing after it is a ':'. */
  function SplitLast(s: string): Option<(string, string)>
  {
    var i := LastIndexOf(s, ':');
    if i >= 1 && s[i - 1] == ':' then Some((s[..i - 1], s[i + 1..])) else None
  }

  /** Reads a cache key back into the page identity it was built from. */
  function ParseCacheKey(key: string): Option<PageId>
  {
    match SplitLast(key)
    case None => None
    case Some((head, flagPart)) =>
      match SplitLast(head)
      case None => None
      case Some((name, versionPart)) =>
        match (ParseInt(versionPart), ParseFlag(flagPart))
        case (Some(v), Some(f)) => Some(PageId(name, v, f))
        case _ => None
  }

  lemma {:induction false} SplitLastJoin(a: string, b: string)
    requires ':' !in b
    ensures SplitLast(a + VERSION_DELIMITER + b) == Some((a, b))
  {
    var s := a + VERSION_DELIMITER + b;
    var i := LastIndexOf(s, ':');
    assert s[|a| + 1] == ':';
    assert i == |a| + 1;
    assert s[..|a|] == a;
    assert s[|a| + 2..] == b;
  }

  /** Parsing a key gives back the triple it was built from, whatever the name contains. */
  lemma {:induction false} ParseCacheKeyRoundTrip(name: string, version: int, flag: PluginFlag)
    ensures ParseCacheKey(CacheKey(name, version, flag)) == Some(PageId(name, version, flag))
  {
    var v, f := IntToString(version), FlagString(flag);
    SplitLastJoin(name + VERSION_DELIMITER + v, f);
    SplitLastJoin(name, v);
  }

  /** The three plugin-flag values give three different keys for the same page version. */
  lemma {:induction false} CacheKeyDistinctFlags(name: string, version: int)
    ensures CacheKey(name, version, Disabled) != CacheKey(name, version, Enabled)
    ensures CacheKey(name, version, Disabled) != CacheKey(name, version, Unspecified)
    ensures CacheKey(name, version, Enabled) != CacheKey(name, version, Unspecified)
  {
    ParseCacheKeyRoundTrip(name, version, Disabled);
    ParseCacheKeyRoundTrip(name, version, Enabled);
    ParseCacheKeyRoundTrip(name, version, Unspecified);
  }

  /** Distinct (name, version, flag) triples never share a key. */
  lemma CacheKeyInjective(n1: string, v1: int, f1: PluginFlag, n2: string, v2: int, f2: PluginFlag)
    requires CacheKey(n1, v1, f1) == CacheKey(n2, v2, f2)
    ensures n1 == n2 && v1 == v2 && f1 == f2
  {
    ParseCacheKeyRoundTrip(n1, v1, f1);
    ParseCacheKeyRoundTrip(n2, v2, f2);
  }
}

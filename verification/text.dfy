/** The JavaScript string operations the handlers rely on: `trim`, the
    `replace(/[..]/g, "")` character removal, ASCII case mapping, decimal
    rendering of integers, and joining with a separator. */
module Text {
  import opened Types

  /** ECMAScript WhiteSpace and LineTerminator: what `trim()` strips and `\s` matches. */
  predicate IsSpace(c: char)
  {
    c == '\t' || c == '\n' || c == '\U{000B}' || c == '\U{000C}' || c == '\r' || c == ' ' ||
    c == '\U{00A0}' || c == '\U{1680}' || ('\U{2000}' <= c <= '\U{200A}') ||
    c == '\U{2028}' || c == '\U{2029}' || c == '\U{202F}' || c == '\U{205F}' ||
    c == '\U{3000}' || c == '\U{FEFF}'
  }

  predicate NoSpace(s: string)
  {
    forall i :: 0 <= i < |s| ==> !IsSpace(s[i])
  }

  function TrimStart(s: string): (r: string)
    ensures |r| <= |s| && r == s[|s| - |r|..]
    ensures forall i :: 0 <= i < |s| - |r| ==> IsSpace(s[i])
    ensures r != [] ==> !IsSpace(r[0])
    decreases |s|
  {
    if s != [] && IsSpace(s[0]) then TrimStart(s[1..]) else s
  }

  function TrimEnd(s: string): (r: string)
    ensures |r| <= |s| && r == s[..|r|]
    ensures forall i :: |r| <= i < |s| ==> IsSpace(s[i])
    ensures r != [] ==> !IsSpace(r[|r| - 1])
    decreases |s|
  {
    if s != [] && IsSpace(s[|s| - 1]) then TrimEnd(s[..|s| - 1]) else s
  }

  /** r occurs in s at offset k and everything of s around it is white space. */
  predicate SpaceAround(s: string, k: int, r: string)
  {
    0 <= k <= |s| - |r| && r == s[k..k + |r|] &&
    (forall i :: 0 <= i < k ==> IsSpace(s[i])) && (forall i :: k + |r| <= i < |s| ==> IsSpace(s[i]))
  }

  /** `s.trim()`: the longest infix of s that neither starts nor ends with white space. */
  function Trim(s: string): (r: string)
    ensures |r| <= |s|
    ensures exists k :: SpaceAround(s, k, r)
    ensures r != [] ==> !IsSpace(r[0]) && !IsSpace(r[|r| - 1])
    ensures NoSpace(s) ==> r == s
  {
    var t := TrimStart(s);
    var r := TrimEnd(t);
    assert r != [] ==> r[0] == t[0];
    var k := |s| - |t|;
    assert SpaceAround(s, k, r);
    r
  }

  /** A string made only of white space trims to the empty string. */
  lemma TrimAllSpace(s: string)
    requires forall i :: 0 <= i < |s| ==> IsSpace(s[i])
    ensures Trim(s) == ""
  {
  }

  /** `s.replace(/[bad]/g, "")`: s with every character of bad removed, the others kept in order. */
  function Remove(s: string, bad: set<char>): (r: string)
    ensures |r| <= |s|
    ensures forall i :: 0 <= i < |r| ==> r[i] !in bad
    ensures (forall i :: 0 <= i < |s| ==> s[i] !in bad) ==> r == s
  {
    if s == [] then []
    else (if s[0] in bad then [] else [s[0]]) + Remove(s[1..], bad)
  }

  /** Removal works piecewise: it keeps the relative order of what survives. */
  lemma {:induction false} RemoveConcat(a: string, b: string, bad: set<char>)
    ensures Remove(a + b, bad) == Remove(a, bad) + Remove(b, bad)
  {
    if a != [] {
      assert (a + b)[1..] == a[1..] + b;
      RemoveConcat(a[1..], b, bad);
    } else {
      assert a + b == b;
    }
  }

  /** Every character outside bad survives as often as it occurs; none of bad survives. */
  lemma {:induction false} RemoveCounts(s: string, bad: set<char>, c: char)
    ensures multiset(Remove(s, bad))[c] == if c in bad then 0 else multiset(s)[c]
  {
    if s != [] {
      RemoveCounts(s[1..], bad, c);
      assert s == [s[0]] + s[1..];
    }
  }

  /** `x.replace(/[<>]/g, "")`. */
  function StripAngles(s: string): string
  {
    Remove(s, {'<', '>'})
  }

  /** The sanitiser every route applies to titles and names: `x.trim().replace(/[<>]/g, "")`. */
  function SanitizeText(s: string): (r: string)
    ensures forall i :: 0 <= i < |r| ==> r[i] != '<' && r[i] != '>'
    ensures |r| <= |s|
  {
    StripAngles(Trim(s))
  }

  /** The sanitiser keeps every character other than `<` and `>` of the trimmed text as
      often as it occurs there. */
  lemma SanitizeTextKeeps(s: string, c: char)
    ensures multiset(SanitizeText(s))[c] == if c == '<' || c == '>' then 0 else multiset(Trim(s))[c]
  {
    RemoveCounts(Trim(s), {'<', '>'}, c);
  }

  /** The sanitiser keeps the order of the trimmed text: sanitising works piece by piece. */
  lemma SanitizeTextOrder(s: string, a: string, b: string)
    requires Trim(s) == a + b
    ensures SanitizeText(s) == StripAngles(a) + StripAngles(b)
  {
    RemoveConcat(a, b, {'<', '>'});
  }

  /** `x?.trim().replace(/[<>]/g, "") || null`: an absent value or an empty result becomes null. */
  function SanitizeOptional(v: Option<string>): (r: Option<string>)
    ensures v.None? ==> r.None?
    ensures r.Some? ==> r.value != "" && r.value == SanitizeText(v.value)
    ensures v.Some? && SanitizeText(v.value) != "" ==> r.Some?
  {
    match v
    case None => None
    case Some(s) => if SanitizeText(s) == "" then None else Some(SanitizeText(s))
  }

  /** `x?.trim() || null` (no character stripping). */
  function TrimOptional(v: Option<string>): (r: Option<string>)
    ensures v.None? ==> r.None?
    ensures r.Some? ==> r.value != "" && r.value == Trim(v.value)
    ensures v.Some? && Trim(v.value) != "" ==> r.Some?
  {
    match v
    case None => None
    case Some(s) => if Trim(s) == "" then None else Some(Trim(s))
  }

  function LowerChar(c: char): char
  {
    if 'A' <= c <= 'Z' then (c as int + 32) as char else c
  }

  function UpperChar(c: char): char
  {
    if 'a' <= c <= 'z' then (c as int - 32) as char else c
  }

  /** `s.toLowerCase()` on the ASCII letters. */
  function ToLower(s: string): (r: string)
    ensures |r| == |s|
    ensures forall i :: 0 <= i < |s| ==> r[i] == LowerChar(s[i])
  {
    seq(|s|, i requires 0 <= i < |s| => LowerChar(s[i]))
  }

  predicate IsDigit(c: char)
  {
    '0' <= c <= '9'
  }

  predicate AllDigits(s: string)
  {
    forall i :: 0 <= i < |s| ==> IsDigit(s[i])
  }

  function DigitChar(d: nat): (c: char)
    requires d < 10
    ensures IsDigit(c)
  {
    ('0' as int + d) as char
  }

  function DigitValue(c: char): (d: nat)
    requires IsDigit(c)
    ensures d < 10
  {
    c as int - '0' as int
  }

  /** Decimal rendering of a natural number, as a template literal `${n}` prints it. */
  function NatToString(n: nat): (r: string)
    ensures |r| > 0 && AllDigits(r)
    decreases n
  {
    if n < 10 then [DigitChar(n)] else NatToString(n / 10) + [DigitChar(n % 10)]
  }

  /** `parseInt` of a non-empty string of decimal digits. */
  function ParseNat(s: string): nat
    requires |s| > 0 && AllDigits(s)
    decreases |s|
  {
    if |s| == 1 then DigitValue(s[0])
    else ParseNat(s[..|s| - 1]) * 10 + DigitValue(s[|s| - 1])
  }

  /** Parsing the rendering gives the number back. */
  lemma {:induction false} ParseNatToString(n: nat)
    ensures ParseNat(NatToString(n)) == n
    decreases n
  {
    if n >= 10 {
      var s := NatToString(n);
      assert s[..|s| - 1] == NatToString(n / 10);
      ParseNatToString(n / 10);
    }
  }

  /** Distinct numbers render differently. */
  lemma NatToStringInjective(m: nat, n: nat)
    requires NatToString(m) == NatToString(n)
    ensures m == n
  {
    ParseNatToString(m);
    ParseNatToString(n);
  }

  /** `${i}` for an integer: a minus sign before the digits of a negative number. */
  function IntToString(i: int): (r: string)
    ensures |r| > 0
    ensures i < 0 ==> r[0] == '-' && r[1..] == NatToString(-i)
    ensures i >= 0 ==> r == NatToString(i) && IsDigit(r[0])
  {
    if i < 0 then "-" + NatToString(-i) else NatToString(i)
  }

  /** Distinct integers render differently. */
  lemma IntToStringInjective(i: int, j: int)
    requires IntToString(i) == IntToString(j)
    ensures i == j
  {
    if i < 0 && j < 0 {
      NatToStringInjective(-i, -j);
    } else if i >= 0 && j >= 0 {
      NatToStringInjective(i, j);
    }
  }

  /** `parts.join(sep)`. */
  function Join(parts: seq<string>, sep: char): string
  {
    if |parts| == 0 then ""
    else if |parts| == 1 then parts[0]
    else parts[0] + [sep] + Join(parts[1..], sep)
  }

  /** Position of the first occurrence of c in s. */
  function IndexOf(s: string, c: char): (k: nat)
    requires c in s
    ensures k < |s| && s[k] == c && c !in s[..k]
  {
    if s[0] == c then 0 else 1 + IndexOf(s[1..], c)
  }

  lemma {:induction false} IndexOfAfterPrefix(a: string, b: string, sep: char)
    requires sep !in a
    ensures IndexOf(a + [sep] + b, sep) == |a|
  {
    if a != [] {
      assert (a + [sep] + b)[1..] == a[1..] + [sep] + b;
      IndexOfAfterPrefix(a[1..], b, sep);
    }
  }

  /** The text before the first separator determines both halves. */
  lemma SplitAtSeparator(a: string, b: string, c: string, d: string, sep: char)
    requires sep !in a && sep !in c
    requires a + [sep] + b == c + [sep] + d
    ensures a == c && b == d
  {
    var x := a + [sep] + b;
    IndexOfAfterPrefix(a, b, sep);
    IndexOfAfterPrefix(c, d, sep);
    assert a == x[..|a|] && c == x[..|c|];
    assert b == x[|a| + 1..] && d == x[|c| + 1..];
  }

  /** Two strings of the same length that start equal strings are equal, and so are the rests. */
  lemma SameLengthSplit(s: string, r1: string, t: string, r2: string)
    requires s + r1 == t + r2 && |s| == |t|
    ensures s == t && r1 == r2
  {
    assert s == (s + r1)[..|s|];
    assert t == (t + r2)[..|t|];
    assert r1 == (s + r1)[|s|..];
    assert r2 == (t + r2)[|t|..];
  }

  /** Decimal digits never contain a separator that is not a digit. */
  lemma DigitsLackSeparator(n: nat, sep: char)
    requires !IsDigit(sep)
    ensures sep !in NatToString(n)
  {
    var m := NatToString(n);
    assert forall i :: 0 <= i < |m| ==> IsDigit(m[i]);
  }

  /** A length-prefixed string `n=s` followed by more text: the length tells where s ends. */
  lemma LengthPrefixedSplit(s: string, t: string, r1: string, r2: string)
    requires NatToString(|s|) + "=" + s + r1 == NatToString(|t|) + "=" + t + r2
    ensures s == t && r1 == r2
  {
    var m, n := NatToString(|s|), NatToString(|t|);
    RegroupSeparator(m, s, r1);
    RegroupSeparator(n, t, r2);
    DigitsLackSeparator(|s|, '=');
    DigitsLackSeparator(|t|, '=');
    SplitAtSeparator(m, s + r1, n, t + r2, '=');
    NatToStringInjective(|s|, |t|);
    SameLengthSplit(s, r1, t, r2);
  }

  lemma RegroupSeparator(m: string, s: string, r: string)
    ensures m + "=" + s + r == m + ['='] + (s + r)
  {
  }

  /** Joining parts that do not contain the separator loses nothing. */
  lemma {:induction false} JoinInjective(xs: seq<string>, ys: seq<string>, sep: char)
    requires |xs| == |ys|
    requires forall i :: 0 <= i < |xs| ==> sep !in xs[i]
    requires forall i :: 0 <= i < |ys| ==> sep !in ys[i]
    requires Join(xs, sep) == Join(ys, sep)
    ensures xs == ys
  {
    if |xs| > 1 {
      SplitAtSeparator(xs[0], Join(xs[1..], sep), ys[0], Join(ys[1..], sep), sep);
      JoinInjective(xs[1..], ys[1..], sep);
      assert xs == [xs[0]] + xs[1..] && ys == [ys[0]] + ys[1..];
    }
  }
}

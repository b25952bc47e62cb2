/** lib/security.tsx: HTML escaping, character stripping, the e-mail shape test,
    password strength and required-field checks. */
module Security {
  import opened Types
  import opened Text
  import opened Json

  // ---------------------------------------------------------------------------
  // sanitizeHtml

  /** `s.replace(/c/g, repl)` for a single character c. */
  function ReplaceAll(s: string, c: char, repl: string): string
  {
    if s == [] then []
    else (if s[0] == c then repl else [s[0]]) + ReplaceAll(s[1..], c, repl)
  }

  /** `sanitizeHtml`: six global replacements, `&` first. */
  function SanitizeHtml(input: string): string
  {
    var s1 := ReplaceAll(input, '&', "&amp;");
    var s2 := ReplaceAll(s1, '<', "&lt;");
    var s3 := ReplaceAll(s2, '>', "&gt;");
    var s4 := ReplaceAll(s3, '"', "&quot;");
    var s5 := ReplaceAll(s4, '\'', "&#x27;");
    ReplaceAll(s5, '/', "&#x2F;")
  }

  /** The characters sanitizeHtml rewrites. */
  predicate Special(c: char)
  {
    c == '&' || c == '<' || c == '>' || c == '"' || c == '\'' || c == '/'
  }

  /** The characters that must never appear raw in escaped output. */
  predicate Markup(c: char)
  {
    c == '<' || c == '>' || c == '"' || c == '\'' || c == '/'
  }

  /** The entity each character becomes; other characters stand for themselves. */
  function Entity(c: char): string
  {
    if c == '&' then "&amp;"
    else if c == '<' then "&lt;"
    else if c == '>' then "&gt;"
    else if c == '"' then "&quot;"
    else if c == '\'' then "&#x27;"
    else if c == '/' then "&#x2F;"
    else [c]
  }

  /** Reference definition: every character replaced by its entity, independently. */
  function EscapeEach(s: string): string
  {
    if s == [] then [] else Entity(s[0]) + EscapeEach(s[1..])
  }

  lemma {:induction false} ReplaceAllConcat(a: string, b: string, c: char, repl: string)
    ensures ReplaceAll(a + b, c, repl) == ReplaceAll(a, c, repl) + ReplaceAll(b, c, repl)
  {
    if a == [] {
      assert a + b == b;
    } else {
      assert (a + b)[1..] == a[1..] + b;
      ReplaceAllConcat(a[1..], b, c, repl);
    }
  }

  lemma {:induction false} ReplaceAllAbsent(s: string, c: char, repl: string)
    requires c !in s
    ensures ReplaceAll(s, c, repl) == s
  {
    if s != [] {
      ReplaceAllAbsent(s[1..], c, repl);
    }
  }

  lemma SanitizeHtmlConcat(a: string, b: string)
    ensures SanitizeHtml(a + b) == SanitizeHtml(a) + SanitizeHtml(b)
  {
    ReplaceAllConcat(a, b, '&', "&amp;");
    var a1, b1 := ReplaceAll(a, '&', "&amp;"), ReplaceAll(b, '&', "&amp;");
    ReplaceAllConcat(a1, b1, '<', "&lt;");
    var a2, b2 := ReplaceAll(a1, '<', "&lt;"), ReplaceAll(b1, '<', "&lt;");
    ReplaceAllConcat(a2, b2, '>', "&gt;");
    var a3, b3 := ReplaceAll(a2, '>', "&gt;"), ReplaceAll(b2, '>', "&gt;");
    ReplaceAllConcat(a3, b3, '"', "&quot;");
    var a4, b4 := ReplaceAll(a3, '"', "&quot;"), ReplaceAll(b3, '"', "&quot;");
    ReplaceAllConcat(a4, b4, '\'', "&#x27;");
    var a5, b5 := ReplaceAll(a4, '\'', "&#x27;"), ReplaceAll(b4, '\'', "&#x27;");
    ReplaceAllConcat(a5, b5, '/', "&#x2F;");
  }

  lemma ReplaceAllSingle(x: char, c: char, repl: string)
    ensures ReplaceAll([x], c, repl) == if x == c then repl else [x]
  {
    assert [x][1..] == [];
  }

  /** One replacement of the chain applied to what the earlier ones made of x. */
  lemma ReplaceStep(x: char, prev: string, c: char, repl: string)
    requires Markup(c) && repl == Entity(c)
    requires prev == [x] || (prev == Entity(x) && x != c)
    ensures ReplaceAll(prev, c, repl) == if x == c then repl else prev
  {
    if prev == [x] {
      ReplaceAllSingle(x, c, repl);
    } else {
      ReplaceAllAbsent(prev, c, repl);
    }
  }

  /** Replacing one character of the chain after another: a later replacement never
      touches what an earlier one produced, because `&` goes first. */
  lemma SanitizeHtmlChar(x: char)
    ensures SanitizeHtml([x]) == Entity(x)
  {
    var s1 := ReplaceAll([x], '&', "&amp;");
    ReplaceAllSingle(x, '&', "&amp;");
    var s2 := ReplaceAll(s1, '<', "&lt;");
    ReplaceStep(x, s1, '<', "&lt;");
    var s3 := ReplaceAll(s2, '>', "&gt;");
    ReplaceStep(x, s2, '>', "&gt;");
    var s4 := ReplaceAll(s3, '"', "&quot;");
    ReplaceStep(x, s3, '"', "&quot;");
    var s5 := ReplaceAll(s4, '\'', "&#x27;");
    ReplaceStep(x, s4, '\'', "&#x27;");
    ReplaceStep(x, s5, '/', "&#x2F;");
  }

  /** The chain of replacements escapes every character independently. */
  lemma {:induction false} SanitizeHtmlIsEscapeEach(s: string)
    ensures SanitizeHtml(s) == EscapeEach(s)
  {
    if s != [] {
      assert s == [s[0]] + s[1..];
      SanitizeHtmlConcat([s[0]], s[1..]);
      SanitizeHtmlChar(s[0]);
      SanitizeHtmlIsEscapeEach(s[1..]);
    }
  }

  /** The output contains no raw `<`, `>`, `"`, `'` or `/`. */
  lemma {:induction false} SanitizeHtmlHasNoMarkup(s: string)
    ensures forall i :: 0 <= i < |SanitizeHtml(s)| ==> !Markup(SanitizeHtml(s)[i])
  {
    SanitizeHtmlIsEscapeEach(s);
    EscapeEachHasNoMarkup(s);
  }

  lemma {:induction false} EscapeEachHasNoMarkup(s: string)
    ensures forall i :: 0 <= i < |EscapeEach(s)| ==> !Markup(EscapeEach(s)[i])
  {
    if s != [] {
      EscapeEachHasNoMarkup(s[1..]);
      var e, t := Entity(s[0]), EscapeEach(s[1..]);
      assert forall i :: 0 <= i < |e| ==> !Markup(e[i]);
      assert EscapeEach(s) == e + t;
    }
  }

  /** An entity sanitizeHtml produces starts here. */
  predicate StartsEntity(t: string)
  {
    "&amp;" <= t || "&lt;" <= t || "&gt;" <= t || "&quot;" <= t || "&#x27;" <= t || "&#x2F;" <= t
  }

  /** Every `&` in the output begins one of the six entities. */
  lemma SanitizeHtmlAmpersands(s: string)
    ensures forall i :: 0 <= i < |SanitizeHtml(s)| && SanitizeHtml(s)[i] == '&' ==> StartsEntity(SanitizeHtml(s)[i..])
  {
    SanitizeHtmlIsEscapeEach(s);
    EscapeEachAmpersands(s);
  }

  lemma {:induction false} EscapeEachAmpersands(s: string)
    ensures forall i :: 0 <= i < |EscapeEach(s)| && EscapeEach(s)[i] == '&' ==> StartsEntity(EscapeEach(s)[i..])
  {
    if s != [] {
      EscapeEachAmpersands(s[1..]);
      var e, t := Entity(s[0]), EscapeEach(s[1..]);
      var out := e + t;
      assert EscapeEach(s) == out;
      forall i | 0 <= i < |out| && out[i] == '&'
        ensures StartsEntity(out[i..])
      {
        if i < |e| {
          assert i == 0 && Special(s[0]);
          assert e <= out;
        } else {
          assert out[i..] == t[i - |e|..];
        }
      }
    }
  }

  /** Decoding of the six entities, the inverse of sanitizeHtml. */
  function Unescape(t: string): string
    decreases |t|
  {
    if t == [] then []
    else if "&amp;" <= t then "&" + Unescape(t[5..])
    else if "&lt;" <= t then "<" + Unescape(t[4..])
    else if "&gt;" <= t then ">" + Unescape(t[4..])
    else if "&quot;" <= t then "\"" + Unescape(t[6..])
    else if "&#x27;" <= t then "'" + Unescape(t[6..])
    else if "&#x2F;" <= t then "/" + Unescape(t[6..])
    else [t[0]] + Unescape(t[1..])
  }

  lemma UnescapeEntity(c: char, rest: string)
    ensures Unescape(Entity(c) + rest) == [c] + Unescape(rest)
  {
    if c == '&' || c == '<' || c == '>' {
      UnescapeShortEntity(c, rest);
    } else if c == '"' || c == '\'' || c == '/' {
      UnescapeLongEntity(c, rest);
    } else {
      var t := Entity(c) + rest;
      assert t[0] == c && t[1..] == rest;
    }
  }

  /** The entities Unescape tries first. */
  lemma UnescapeShortEntity(c: char, rest: string)
    requires c == '&' || c == '<' || c == '>'
    ensures Unescape(Entity(c) + rest) == [c] + Unescape(rest)
  {
    var t := Entity(c) + rest;
    if c == '&' {
      assert "&amp;" <= t && t[5..] == rest;
    } else if c == '<' {
      assert t[..4] == "&lt;" && t[4..] == rest;
      assert t[1] == 'l';
    } else {
      assert t[..4] == "&gt;" && t[4..] == rest;
      assert t[1] == 'g';
    }
  }

  /** The six-character entities, which no shorter entity prefixes. */
  lemma UnescapeLongEntity(c: char, rest: string)
    requires c == '"' || c == '\'' || c == '/'
    ensures Unescape(Entity(c) + rest) == [c] + Unescape(rest)
  {
    var t := Entity(c) + rest;
    if c == '"' {
      assert t[..6] == "&quot;" && t[6..] == rest;
    } else if c == '\'' {
      assert t[..6] == "&#x27;" && t[6..] == rest;
      assert t[1] == '#';
    } else {
      assert t[..6] == "&#x2F;" && t[6..] == rest;
      assert t[1] == '#' && t[4] == 'F' && "&#x27;"[4] == '7';
    }
  }

  /** Escaping is reversible. */
  lemma {:induction false} SanitizeHtmlRoundTrip(s: string)
    ensures Unescape(SanitizeHtml(s)) == s
  {
    SanitizeHtmlIsEscapeEach(s);
    EscapeEachRoundTrip(s);
  }

  lemma {:induction false} EscapeEachRoundTrip(s: string)
    ensures Unescape(EscapeEach(s)) == s
  {
    if s != [] {
      UnescapeEntity(s[0], EscapeEach(s[1..]));
      EscapeEachRoundTrip(s[1..]);
    }
  }

  /** Distinct inputs never escape to the same output. */
  lemma SanitizeHtmlInjective(a: string, b: string)
    requires SanitizeHtml(a) == SanitizeHtml(b)
    ensures a == b
  {
    SanitizeHtmlRoundTrip(a);
    SanitizeHtmlRoundTrip(b);
  }

  /** Text without any of `& < > " ' /` passes through unchanged, and escaping never shortens. */
  lemma {:induction false} SanitizeHtmlPlain(s: string)
    ensures |SanitizeHtml(s)| >= |s|
    ensures (forall i :: 0 <= i < |s| ==> !Special(s[i])) ==> SanitizeHtml(s) == s
  {
    SanitizeHtmlIsEscapeEach(s);
    EscapeEachPlain(s);
  }

  lemma {:induction false} EscapeEachPlain(s: string)
    ensures |EscapeEach(s)| >= |s|
    ensures (forall i :: 0 <= i < |s| ==> !Special(s[i])) ==> EscapeEach(s) == s
  {
    if s != [] {
      EscapeEachPlain(s[1..]);
      assert s == [s[0]] + s[1..];
    }
  }

  // ---------------------------------------------------------------------------
  // sanitizeInput

  const InputStripped: set<char> := {';', '\'', '"', '\\'}

  /** `sanitizeInput`: removes every `;`, `'`, `"` and backslash. */
  function SanitizeInput(input: string): (r: string)
    ensures forall i :: 0 <= i < |r| ==> r[i] !in InputStripped
  {
    Remove(input, InputStripped)
  }

  /** Every other character is kept as often as it occurs, and in order. */
  lemma SanitizeInputKeeps(a: string, b: string, c: char)
    ensures multiset(SanitizeInput(a))[c] == if c in InputStripped then 0 else multiset(a)[c]
    ensures SanitizeInput(a + b) == SanitizeInput(a) + SanitizeInput(b)
  {
    RemoveCounts(a, InputStripped, c);
    RemoveConcat(a, b, InputStripped);
  }

  lemma SanitizeInputIdempotent(s: string)
    ensures SanitizeInput(SanitizeInput(s)) == SanitizeInput(s)
  {
  }

  // ---------------------------------------------------------------------------
  // isValidEmail

  /** `[^\s@]`. */
  predicate Plain(c: char)
  {
    !IsSpace(c) && c != '@'
  }

  predicate AllPlain(s: string)
  {
    forall i :: 0 <= i < |s| ==> Plain(s[i])
  }

  /** Reference reading of `/^[^\s@]+@[^\s@]+\.[^\s@]+$/`: the positions of the `@` and of the dot. */
  ghost predicate MatchesEmailPattern(e: string)
  {
    exists at, dot ::
      0 < at && at + 1 < dot && dot + 1 < |e| && e[at] == '@' && e[dot] == '.' &&
      AllPlain(e[..at]) && AllPlain(e[at + 1..dot]) && AllPlain(e[dot + 1..])
  }

  /** `isValidEmail`: exactly one `@`, no white space, a non-empty local part, and a
      domain holding a dot that is neither its first nor its last character. */
  function IsValidEmail(email: string): bool
  {
    NoSpace(email) && '@' in email &&
    var at := IndexOf(email, '@');
    var domain := email[at + 1..];
    at > 0 && '@' !in domain && |domain| >= 3 && '.' in domain[1..|domain| - 1]
  }

  /** The computed test and the pattern accept exactly the same strings. */
  lemma EmailMatchesPattern(e: string)
    ensures IsValidEmail(e) <==> MatchesEmailPattern(e)
  {
    if IsValidEmail(e) {
      ValidEmailMatches(e);
    }
    if MatchesEmailPattern(e) {
      var at, dot :| 0 < at && at + 1 < dot && dot + 1 < |e| && e[at] == '@' && e[dot] == '.' &&
        AllPlain(e[..at]) && AllPlain(e[at + 1..dot]) && AllPlain(e[dot + 1..]);
      MatchIsValidEmail(e, at, dot);
    }
  }

  lemma ValidEmailMatches(e: string)
    requires IsValidEmail(e)
    ensures MatchesEmailPattern(e)
  {
    var at := IndexOf(e, '@');
    var domain := e[at + 1..];
    var inner := domain[1..|domain| - 1];
    var dot := at + 2 + IndexOf(inner, '.');
    assert e[dot] == inner[dot - at - 2];
    assert AllPlain(e[..at]) by {
      forall i | 0 <= i < at ensures Plain(e[..at][i]) {
        assert e[..at][i] == e[i];
      }
    }
    var mid, top := e[at + 1..dot], e[dot + 1..];
    assert AllPlain(mid) by {
      forall i | 0 <= i < |mid| ensures Plain(mid[i]) {
        assert mid[i] == domain[i];
      }
    }
    assert AllPlain(top) by {
      forall i | 0 <= i < |top| ensures Plain(top[i]) {
        assert top[i] == domain[dot - at + i];
      }
    }
  }

  lemma MatchIsValidEmail(e: string, at: int, dot: int)
    requires 0 < at && at + 1 < dot && dot + 1 < |e| && e[at] == '@' && e[dot] == '.'
    requires AllPlain(e[..at]) && AllPlain(e[at + 1..dot]) && AllPlain(e[dot + 1..])
    ensures IsValidEmail(e)
  {
    forall i | 0 <= i < |e| && i != at && i != dot
      ensures Plain(e[i])
    {
      if i < at {
        assert e[..at][i] == e[i];
      } else if i < dot {
        assert e[at + 1..dot][i - at - 1] == e[i];
      } else {
        assert e[dot + 1..][i - dot - 1] == e[i];
      }
    }
    assert NoSpace(e);
    assert '@' !in e[..at];
    IndexOfAt(e, at);
    var domain := e[at + 1..];
    assert '@' !in domain by {
      forall j | 0 <= j < |domain| ensures domain[j] != '@' {
        assert domain[j] == e[at + 1 + j];
      }
    }
    assert domain[dot - at - 1] == '.';
    assert domain[1..|domain| - 1][dot - at - 2] == '.';
  }

  lemma IndexOfAt(s: string, k: nat)
    requires k < |s| && s[k] == '@' && '@' !in s[..k]
    ensures IndexOf(s, '@') == k
  {
  }

  /** A valid address contains no white space, so trimming leaves it unchanged. */
  lemma ValidEmailIsTrimmed(e: string)
    requires IsValidEmail(e)
    ensures Trim(e) == e
  {
  }

  // ---------------------------------------------------------------------------
  // isValidPassword

  /** The four strength rules, in the order the checks run. */
  datatype PasswordRule = MinLength | Uppercase | Lowercase | Digit

  const PasswordRules: seq<PasswordRule> := [MinLength, Uppercase, Lowercase, Digit]

  function Rank(r: PasswordRule): nat
  {
    match r
    case MinLength => 0
    case Uppercase => 1
    case Lowercase => 2
    case Digit => 3
  }

  function RuleMessage(r: PasswordRule): string
  {
    match r
    case MinLength => "Password must be at least 8 characters long"
    case Uppercase => "Password must contain at least one uppercase letter"
    case Lowercase => "Password must contain at least one lowercase letter"
    case Digit => "Password must contain at least one number"
  }

  predicate Satisfies(password: string, r: PasswordRule)
  {
    match r
    case MinLength => |password| >= 8
    case Uppercase => HasCharBetween(password, 'A', 'Z')
    case Lowercase => HasCharBetween(password, 'a', 'z')
    case Digit => HasCharBetween(password, '0', '9')
  }

  /** `/[lo-hi]/.test(s)`. */
  predicate HasCharBetween(s: string, lo: char, hi: char)
  {
    exists i :: 0 <= i < |s| && lo <= s[i] <= hi
  }

  /** The rules among rules that password breaks, in their order. */
  function Broken(password: string, rules: seq<PasswordRule>): seq<PasswordRule>
  {
    if rules == [] then []
    else (if Satisfies(password, rules[0]) then [] else [rules[0]]) + Broken(password, rules[1..])
  }

  function Messages(rules: seq<PasswordRule>): (ms: seq<string>)
    ensures |ms| == |rules|
  {
    if rules == [] then [] else [RuleMessage(rules[0])] + Messages(rules[1..])
  }

  /** The broken rules are exactly the unmet ones, never more than were checked. */
  lemma {:induction false} BrokenMembers(password: string, rules: seq<PasswordRule>)
    ensures |Broken(password, rules)| <= |rules|
    ensures forall r :: r in Broken(password, rules) <==> r in rules && !Satisfies(password, r)
  {
    if rules != [] {
      BrokenMembers(password, rules[1..]);
      assert rules == [rules[0]] + rules[1..];
    }
  }

  /** The broken rules come in the order the rules are checked, each once, so a short
      password always reports the length rule first. */
  lemma {:induction false} BrokenRules(password: string, rules: seq<PasswordRule>)
    requires forall i, j :: 0 <= i < j < |rules| ==> Rank(rules[i]) < Rank(rules[j])
    ensures forall i, j :: 0 <= i < j < |Broken(password, rules)| ==>
      Rank(Broken(password, rules)[i]) < Rank(Broken(password, rules)[j])
    ensures rules != [] && !Satisfies(password, rules[0]) ==> Broken(password, rules)[0] == rules[0]
  {
    if rules != [] {
      BrokenRules(password, rules[1..]);
      BrokenMembers(password, rules[1..]);
      var rest := Broken(password, rules[1..]);
      forall k | 0 <= k < |rest| ensures Rank(rules[0]) < Rank(rest[k]) {
        assert rest[k] in rules[1..];
      }
    }
  }

  /** The four checks in turn. */
  lemma BrokenPasswordRules(password: string)
    ensures Broken(password, PasswordRules) ==
      (if Satisfies(password, MinLength) then [] else [MinLength]) +
      (if Satisfies(password, Uppercase) then [] else [Uppercase]) +
      (if Satisfies(password, Lowercase) then [] else [Lowercase]) +
      (if Satisfies(password, Digit) then [] else [Digit])
  {
    var l := if Satisfies(password, MinLength) then [] else [MinLength];
    var u := if Satisfies(password, Uppercase) then [] else [Uppercase];
    var w := if Satisfies(password, Lowercase) then [] else [Lowercase];
    var d := if Satisfies(password, Digit) then [] else [Digit];
    assert [Digit][1..] == [];
    assert Broken(password, [Digit]) == d;
    assert [Lowercase, Digit][1..] == [Digit];
    assert Broken(password, [Lowercase, Digit]) == w + d;
    assert [Uppercase, Lowercase, Digit][1..] == [Lowercase, Digit];
    assert Broken(password, [Uppercase, Lowercase, Digit]) == u + (w + d);
    assert PasswordRules[1..] == [Uppercase, Lowercase, Digit];
    assert Broken(password, PasswordRules) == l + (u + (w + d));
  }

  lemma {:induction false} MessagesConcat(a: seq<PasswordRule>, b: seq<PasswordRule>)
    ensures Messages(a + b) == Messages(a) + Messages(b)
  {
    if a != [] {
      assert (a + b)[1..] == a[1..] + b;
      MessagesConcat(a[1..], b);
    } else {
      assert a + b == b;
    }
  }

  /** A password is accepted exactly when it meets all four rules. */
  lemma NoBrokenRules(password: string)
    ensures Broken(password, PasswordRules) == [] <==> forall r :: Satisfies(password, r)
  {
    BrokenMembers(password, PasswordRules);
    forall r ensures r in PasswordRules {
      match r
      case MinLength => assert PasswordRules[0] == r;
      case Uppercase => assert PasswordRules[1] == r;
      case Lowercase => assert PasswordRules[2] == r;
      case Digit => assert PasswordRules[3] == r;
    }
    if Broken(password, PasswordRules) != [] {
      assert Broken(password, PasswordRules)[0] in Broken(password, PasswordRules);
    }
  }

  /** `isValidPassword`: the messages of the broken rules, in rule order. */
  method IsValidPassword(password: string) returns (valid: bool, errors: seq<string>)
    ensures errors == Messages(Broken(password, PasswordRules))
    ensures valid <==> forall r :: Satisfies(password, r)
    ensures |password| < 8 ==> errors[0] == RuleMessage(MinLength)
  {
    PasswordMessages(password);
    NoBrokenRules(password);
    errors := ReportRule(password, [], MinLength);
    errors := ReportRule(password, errors, Uppercase);
    errors := ReportRule(password, errors, Lowercase);
    errors := ReportRule(password, errors, Digit);
    valid := |errors| == 0;
  }

  /** The messages of the broken rules, rule by rule. */
  lemma PasswordMessages(password: string)
    ensures Messages(Broken(password, PasswordRules)) ==
      [] + Messages(if Satisfies(password, MinLength) then [] else [MinLength]) +
      Messages(if Satisfies(password, Uppercase) then [] else [Uppercase]) +
      Messages(if Satisfies(password, Lowercase) then [] else [Lowercase]) +
      Messages(if Satisfies(password, Digit) then [] else [Digit])
    ensures |password| < 8 ==> Messages(Broken(password, PasswordRules))[0] == RuleMessage(MinLength)
  {
    BrokenPasswordRules(password);
    MessagesOfFour(
      if Satisfies(password, MinLength) then [] else [MinLength],
      if Satisfies(password, Uppercase) then [] else [Uppercase],
      if Satisfies(password, Lowercase) then [] else [Lowercase],
      if Satisfies(password, Digit) then [] else [Digit]);
  }

  lemma MessagesOfFour(l: seq<PasswordRule>, u: seq<PasswordRule>, w: seq<PasswordRule>, d: seq<PasswordRule>)
    ensures Messages(l + u + w + d) == [] + Messages(l) + Messages(u) + Messages(w) + Messages(d)
  {
    MessagesConcat(l, u);
    MessagesConcat(l + u, w);
    MessagesConcat(l + u + w, d);
    assert [] + Messages(l) == Messages(l);
  }

  /** One of the four checks: the rule's message is pushed when the password breaks it. */
  method ReportRule(password: string, errors: seq<string>, r: PasswordRule) returns (e: seq<string>)
    ensures e == errors + Messages(if Satisfies(password, r) then [] else [r])
  {
    e := errors;
    if !Satisfies(password, r) {
      e := e + [RuleMessage(r)];
    }
  }

  // ---------------------------------------------------------------------------
  // validateRequired

  /** `!data[field] || (typeof data[field] === "string" && data[field].trim() === "")`. */
  predicate Missing(data: map<string, JsValue>, field: string)
  {
    field !in data || !Truthy(data[field]) || (data[field].Str? && Trim(data[field].s) == "")
  }

  /** One message per missing field, in the order of the fields. */
  function MissingMessages(data: map<string, JsValue>, fields: seq<string>): seq<string>
  {
    if fields == [] then []
    else
      var last := fields[|fields| - 1];
      MissingMessages(data, fields[..|fields| - 1]) + (if Missing(data, last) then [last + " is required"] else [])
  }

  /** At most one error per field, and none exactly when no field is missing. */
  lemma {:induction false} MissingMessagesCount(data: map<string, JsValue>, fields: seq<string>)
    ensures |MissingMessages(data, fields)| <= |fields|
    ensures MissingMessages(data, fields) == [] <==> forall i :: 0 <= i < |fields| ==> !Missing(data, fields[i])
  {
    if fields != [] {
      var init := fields[..|fields| - 1];
      MissingMessagesCount(data, init);
      assert forall i :: 0 <= i < |init| ==> init[i] == fields[i];
    }
  }

  /** `validateRequired`. */
  method ValidateRequired(data: map<string, JsValue>, requiredFields: seq<string>) returns (valid: bool, errors: seq<string>)
    ensures errors == MissingMessages(data, requiredFields)
    ensures valid <==> forall i :: 0 <= i < |requiredFields| ==> !Missing(data, requiredFields[i])
    ensures |errors| <= |requiredFields|
  {
    errors := [];
    for i := 0 to |requiredFields|
      invariant errors == MissingMessages(data, requiredFields[..i])
    {
      var field := requiredFields[i];
      assert requiredFields[..i + 1][..i] == requiredFields[..i];
      if field !in data || !Truthy(data[field]) || (data[field].Str? && Trim(data[field].s) == "") {
        errors := errors + [field + " is required"];
      }
    }
    assert requiredFields[..|requiredFields|] == requiredFields;
    MissingMessagesCount(data, requiredFields);
    valid := |errors| == 0;
  }
}

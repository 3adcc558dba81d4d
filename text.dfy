/** The handful of Python string operations the core relies on, over `seq<char>`:
    `str.lower` (ASCII letters only), `in` on strings, `str.startswith`, `str.split` with a
    one-character separator, `str.join`, `str.isdigit` and `int(str)`. */
module Text {
  import opened Wrappers

  function LowerChar(c: char): char {
    if 'A' <= c <= 'Z' then (c as int - 'A' as int + 'a' as int) as char else c
  }

  /** `s.lower()`, restricted to the ASCII letters. */
  function Lower(s: string): (r: string)
    ensures |r| == |s|
    ensures forall i :: 0 <= i < |s| ==> r[i] == LowerChar(s[i])
  {
    seq(|s|, i requires 0 <= i < |s| => LowerChar(s[i]))
  }

  /** `s.startswith(p)`. */
  predicate StartsWith(s: string, p: string) {
    |p| <= |s| && s[..|p|] == p
  }

  /** `sub in s`: `sub` occurs in `s` at some position. */
  predicate Contains(s: string, sub: string)
    decreases |s|
  {
    StartsWith(s, sub) || (s != [] && Contains(s[1..], sub))
  }

  predicate OccursAt(s: string, sub: string, i: int) {
    0 <= i && i + |sub| <= |s| && s[i..i + |sub|] == sub
  }

  /** The recursive `Contains` means exactly "occurs at some index". */
  lemma {:induction false} ContainsIff(s: string, sub: string)
    ensures Contains(s, sub) <==> exists i :: OccursAt(s, sub, i)
    decreases |s|
  {
    if StartsWith(s, sub) {
      assert OccursAt(s, sub, 0);
    } else if s != [] {
      ContainsIff(s[1..], sub);
      if Contains(s[1..], sub) {
        var i :| OccursAt(s[1..], sub, i);
        assert s[i + 1..i + 1 + |sub|] == s[1..][i..i + |sub|];
        assert OccursAt(s, sub, i + 1);
      } else {
        forall i | 0 < i && OccursAt(s, sub, i) ensures OccursAt(s[1..], sub, i - 1) {
          assert s[1..][i - 1..i - 1 + |sub|] == s[i..i + |sub|];
        }
      }
    }
  }

  /** The first index of `c` in `s`. */
  function IndexOf(s: string, c: char): (i: nat)
    requires c in s
    ensures i < |s| && s[i] == c && c !in s[..i]
  {
    if s[0] == c then 0 else 1 + IndexOf(s[1..], c)
  }

  /** `sep.join(parts)`. */
  function Join(parts: seq<string>, sep: string): string {
    if parts == [] then ""
    else if |parts| == 1 then parts[0]
    else parts[0] + sep + Join(parts[1..], sep)
  }

  /** `s.split(c)` for a one-character separator: the maximal pieces between the
      occurrences of `c`, so there is always at least one piece. */
  function Split(s: string, c: char): (parts: seq<string>)
    ensures |parts| >= 1
    ensures forall k :: 0 <= k < |parts| ==> c !in parts[k]
    ensures Join(parts, [c]) == s
    decreases |s|
  {
    if c !in s then [s]
    else
      var i := IndexOf(s, c);
      var rest := Split(s[i + 1..], c);
      assert s == s[..i] + [c] + s[i + 1..];
      [s[..i]] + rest
  }

  /** Splitting on a character that occurs exactly once gives the text before it and the
      text after it. */
  lemma SplitOnce(s: string, c: char, i: nat)
    requires i < |s| && s[i] == c && c !in s[..i] && c !in s[i + 1..]
    ensures Split(s, c) == [s[..i], s[i + 1..]]
  {
    assert IndexOf(s, c) == i;
  }

  predicate IsDigit(c: char) {
    '0' <= c <= '9'
  }

  /** `s.isdigit()`: non-empty and made of digits (the ASCII digits). */
  predicate IsDigits(s: string) {
    |s| > 0 && forall i :: 0 <= i < |s| ==> IsDigit(s[i])
  }

  function DigitValue(c: char): (d: nat)
    requires IsDigit(c)
    ensures d <= 9
  {
    c as int - '0' as int
  }

  /** The value of a string of digits, most significant first. */
  function DigitsValue(s: string): (n: nat)
    requires forall i :: 0 <= i < |s| ==> IsDigit(s[i])
    decreases |s|
  {
    if s == [] then 0
    else DigitsValue(s[..|s| - 1]) * 10 + DigitValue(s[|s| - 1])
  }

  /** The characters `str.strip()` removes (Python's `str.isspace`). */
  predicate IsSpace(c: char) {
    || c == ' ' || '\U{0009}' <= c <= '\U{000D}' || '\U{001C}' <= c <= '\U{001F}'
    || c == '\U{0085}' || c == '\U{00A0}' || c == '\U{1680}'
    || '\U{2000}' <= c <= '\U{200A}' || c == '\U{2028}' || c == '\U{2029}'
    || c == '\U{202F}' || c == '\U{205F}' || c == '\U{3000}'
  }

  /** Every character of `s` is whitespace. */
  predicate AllSpace(s: string) {
    forall k :: 0 <= k < |s| ==> IsSpace(s[k])
  }

  /** `r` is `s` with some whitespace, and only whitespace, cut from its two ends. */
  predicate TrimmedFrom(s: string, r: string) {
    exists i, j :: 0 <= i <= j <= |s| && r == s[i..j] && AllSpace(s[..i]) && AllSpace(s[j..])
  }

  /** `s.strip()`: `s` without the whitespace at its two ends, and without nothing else. */
  function Strip(s: string): (r: string)
    ensures TrimmedFrom(s, r)
    ensures r != [] ==> !IsSpace(r[0]) && !IsSpace(r[|r| - 1])
    decreases |s|
  {
    if s == [] then
      TrimmedWhole(s);
      s
    else if IsSpace(s[0]) then
      var r := Strip(s[1..]);
      TrimmedFront(s, r);
      r
    else if IsSpace(s[|s| - 1]) then
      var r := Strip(s[..|s| - 1]);
      TrimmedBack(s, r);
      r
    else
      TrimmedWhole(s);
      s
  }

  lemma TrimmedWhole(s: string)
    ensures TrimmedFrom(s, s)
  {
    assert s == s[0..|s|] && s[..0] == [] && s[|s|..] == [];
    TrimmedAt(s, s, 0, |s|);
  }

  /** The range from `i` to `j` witnesses the trimming. */
  lemma TrimmedAt(s: string, r: string, i: int, j: int)
    requires 0 <= i <= j <= |s| && r == s[i..j] && AllSpace(s[..i]) && AllSpace(s[j..])
    ensures TrimmedFrom(s, r)
  {
  }

  /** A leading space is one more character outside the trimmed range. */
  lemma TrimmedFront(s: string, r: string)
    requires s != [] && IsSpace(s[0]) && TrimmedFrom(s[1..], r)
    ensures TrimmedFrom(s, r)
  {
    var u := s[1..];
    var i, j :| 0 <= i <= j <= |u| && r == u[i..j] && AllSpace(u[..i]) && AllSpace(u[j..]);
    TailSlices(s, i, j);
    AllSpaceCons(s[0], u[..i]);
    TrimmedAt(s, r, i + 1, j + 1);
  }

  /** Slices of `s[1..]` as slices of `s`. */
  lemma TailSlices(s: string, i: int, j: int)
    requires 0 <= i <= j < |s|
    ensures s[..i + 1] == [s[0]] + s[1..][..i]
    ensures s[j + 1..] == s[1..][j..]
    ensures s[1..][i..j] == s[i + 1..j + 1]
  {
  }

  /** A trailing space is one more character outside the trimmed range. */
  lemma TrimmedBack(s: string, r: string)
    requires s != [] && IsSpace(s[|s| - 1]) && TrimmedFrom(s[..|s| - 1], r)
    ensures TrimmedFrom(s, r)
  {
    var u := s[..|s| - 1];
    var i, j :| 0 <= i <= j <= |u| && r == u[i..j] && AllSpace(u[..i]) && AllSpace(u[j..]);
    FrontSlices(s, i, j);
    AllSpaceSnoc(u[j..], s[|s| - 1]);
    TrimmedAt(s, r, i, j);
  }

  /** Slices of `s[..|s| - 1]` as slices of `s`. */
  lemma FrontSlices(s: string, i: int, j: int)
    requires 0 <= i <= j < |s|
    ensures s[..i] == s[..|s| - 1][..i]
    ensures s[j..] == s[..|s| - 1][j..] + [s[|s| - 1]]
    ensures s[..|s| - 1][i..j] == s[i..j]
  {
  }

  lemma AllSpaceCons(c: char, u: string)
    requires IsSpace(c) && AllSpace(u)
    ensures AllSpace([c] + u)
  {
    forall k | 0 <= k < |[c] + u| ensures IsSpace(([c] + u)[k]) {
      if k > 0 {
        assert ([c] + u)[k] == u[k - 1];
      }
    }
  }

  lemma AllSpaceSnoc(u: string, c: char)
    requires AllSpace(u) && IsSpace(c)
    ensures AllSpace(u + [c])
  {
    forall k | 0 <= k < |u + [c]| ensures IsSpace((u + [c])[k]) {
      if k < |u| {
        assert (u + [c])[k] == u[k];
      }
    }
  }

  /** Stripping removes exactly the padding around a text that neither starts nor ends with
      whitespace. */
  lemma StripPadded(lead: string, t: string, trail: string)
    requires AllSpace(lead) && AllSpace(trail)
    requires t != [] ==> !IsSpace(t[0]) && !IsSpace(t[|t| - 1])
    ensures Strip(lead + t + trail) == t
  {
    var x := lead + t + trail;
    var i, j := |lead|, |lead| + |t|;
    assert x[..i] == lead && x[i..j] == t && x[j..] == trail;
    StripRange(x, i, j);
  }

  /** Whitespace before `i` and from `j` on, around a range with no whitespace at its ends,
      is exactly what stripping removes. */
  lemma StripRange(x: string, i: int, j: int)
    requires 0 <= i <= j <= |x| && AllSpace(x[..i]) && AllSpace(x[j..])
    requires i < j ==> !IsSpace(x[i]) && !IsSpace(x[j - 1])
    ensures Strip(x) == x[i..j]
  {
    StripDrop(x, i);
    if i == j {
      StripAllSpace(x[j..]);
    } else {
      StripFrom(x, i, j);
    }
  }

  /** Stripping only whitespace leaves nothing. */
  lemma StripAllSpace(y: string)
    requires AllSpace(y)
    ensures Strip(y) == []
  {
    assert y[..|y|] == y && y[|y|..] == [];
    StripDrop(y, |y|);
    StripKeeps([]);
  }

  /** From `i` on, only the text up to `j` survives stripping. */
  lemma StripFrom(x: string, i: int, j: int)
    requires 0 <= i < j <= |x| && AllSpace(x[j..])
    requires !IsSpace(x[i]) && !IsSpace(x[j - 1])
    ensures Strip(x[i..]) == x[i..j]
  {
    var y := x[i..];
    assert y[0] == x[i] && y[j - i - 1] == x[j - 1];
    assert y[j - i..] == x[j..] && y[..j - i] == x[i..j];
    StripTake(y, j - i);
  }

  /** Leading whitespace does not change what stripping returns. */
  lemma {:induction false} StripDrop(x: string, n: int)
    requires 0 <= n <= |x| && AllSpace(x[..n])
    ensures Strip(x) == Strip(x[n..])
    decreases n
  {
    if n > 0 {
      var w := x[..n - 1];
      assert AllSpace(w) by {
        forall k | 0 <= k < |w| ensures IsSpace(w[k]) {
          assert w[k] == x[..n][k];
        }
      }
      StripDrop(x, n - 1);
      var z := x[n - 1..];
      assert z[0] == x[..n][n - 1] && z[1..] == x[n..];
      StripFront(z);
    }
  }

  /** Trailing whitespace after a text with no whitespace at its ends is stripped. */
  lemma {:induction false} StripTake(x: string, m: int)
    requires 0 < m <= |x| && !IsSpace(x[0]) && !IsSpace(x[m - 1])
    requires AllSpace(x[m..])
    ensures Strip(x) == x[..m]
    decreases |x| - m
  {
    if m == |x| {
      assert x[..m] == x;
      StripKeeps(x);
    } else {
      var y := x[..|x| - 1];
      assert y[0] == x[0] && y[m - 1] == x[m - 1] && y[..m] == x[..m];
      assert IsSpace(x[|x| - 1]) by {
        assert x[m..][|x| - 1 - m] == x[|x| - 1];
      }
      assert AllSpace(y[m..]) by {
        forall k | 0 <= k < |y[m..]| ensures IsSpace(y[m..][k]) {
          assert y[m..][k] == x[m..][k];
        }
      }
      StripBack(x);
      StripTake(y, m);
    }
  }

  lemma StripFront(x: string)
    requires x != [] && IsSpace(x[0])
    ensures Strip(x) == Strip(x[1..])
  {
  }

  lemma StripBack(x: string)
    requires x != [] && !IsSpace(x[0]) && IsSpace(x[|x| - 1])
    ensures Strip(x) == Strip(x[..|x| - 1])
  {
  }

  lemma StripKeeps(x: string)
    requires x != [] ==> !IsSpace(x[0]) && !IsSpace(x[|x| - 1])
    ensures Strip(x) == x
  {
  }

  /** A decimal literal as `int()` accepts it: digits, with single underscores allowed
      between two digits. */
  predicate IsDecimalLiteral(s: string) {
    && |s| > 0 && IsDigit(s[0]) && IsDigit(s[|s| - 1])
    && (forall i :: 0 <= i < |s| ==> IsDigit(s[i]) || s[i] == '_')
    && (forall i, j :: 0 <= i < |s| && 0 <= j < |s| && j == i + 1 ==> s[i] != '_' || s[j] != '_')
  }

  /** `s` with its underscores removed. */
  function DropUnderscores(s: string): (r: string)
    ensures |r| <= |s|
    ensures '_' !in r
  {
    if s == [] then []
    else (if s[0] == '_' then [] else [s[0]]) + DropUnderscores(s[1..])
  }

  /** A text without underscores is left as it is. */
  lemma {:induction false} DropUnderscoresNoop(s: string)
    requires '_' !in s
    ensures DropUnderscores(s) == s
  {
    if s != [] {
      assert s[0] != '_' && '_' !in s[1..];
      DropUnderscoresNoop(s[1..]);
      assert [s[0]] + s[1..] == s;
    }
  }

  lemma {:induction false} DropUnderscoresAppend(a: string, b: string)
    ensures DropUnderscores(a + b) == DropUnderscores(a) + DropUnderscores(b)
    decreases |a|
  {
    if a == [] {
      assert a + b == b;
    } else {
      var ab := a + b;
      var x := if a[0] == '_' then [] else [a[0]];
      assert ab[0] == a[0] && ab[1..] == a[1..] + b;
      DropUnderscoresAppend(a[1..], b);
      calc {
        DropUnderscores(ab);
        x + DropUnderscores(a[1..] + b);
        x + (DropUnderscores(a[1..]) + DropUnderscores(b));
        (x + DropUnderscores(a[1..])) + DropUnderscores(b);
        DropUnderscores(a) + DropUnderscores(b);
      }
    }
  }

  /** Removing the underscores glues together the pieces between them, in their order. */
  lemma {:induction false} DropUnderscoresJoinsPieces(s: string)
    ensures DropUnderscores(s) == Join(Split(s, '_'), "")
  {
    DropUnderscoresOfJoin(Split(s, '_'));
  }

  lemma {:induction false} DropUnderscoresOfJoin(parts: seq<string>)
    requires forall k :: 0 <= k < |parts| ==> '_' !in parts[k]
    ensures DropUnderscores(Join(parts, "_")) == Join(parts, "")
  {
    if parts != [] {
      DropUnderscoresNoop(parts[0]);
    }
    if |parts| > 1 {
      DropUnderscoresOfJoin(parts[1..]);
      DropUnderscoresAppend(parts[0] + "_", Join(parts[1..], "_"));
      DropUnderscoresAppend(parts[0], "_");
      assert DropUnderscores("_") == [];
    }
  }

  /** What `int()` reads after an optional leading sign. */
  function Unsigned(t: string): (body: string)
    ensures t != [] && (t[0] == '-' || t[0] == '+') ==> body == t[1..]
    ensures t == [] || (t[0] != '-' && t[0] != '+') ==> body == t
  {
    if t != [] && (t[0] == '-' || t[0] == '+') then t[1..] else t
  }

  /** `int()` of a text without surrounding whitespace: an optional sign, then a decimal
      literal, else `None`. */
  function LiteralValue(t: string): (r: Option<int>)
    ensures r.None? <==> !IsDecimalLiteral(Unsigned(t))
  {
    var neg := t != [] && t[0] == '-';
    var body := Unsigned(t);
    if !IsDecimalLiteral(body) then None
    else
      var digits := DropUnderscores(body);
      assert forall i :: 0 <= i < |digits| ==> IsDigit(digits[i]) by {
        DigitsSurvive(body);
      }
      var v: int := DigitsValue(digits);
      Some(if neg then -v else v)
  }

  /** `int(s)` for a base-10 string: `None` where Python raises `ValueError`. Surrounding
      whitespace and one leading sign are accepted. */
  function ParseInt(s: string): (r: Option<int>)
    ensures r.None? <==> !IsDecimalLiteral(Unsigned(Strip(s)))
    ensures IsDigits(s) ==> r == Some(DigitsValue(s))
  {
    if IsDigits(s) then
      DigitsAreLiteral(s);
      LiteralValue(Strip(s))
    else
      LiteralValue(Strip(s))
  }

  /** A digit string is its own stripped, unsigned, underscore-free literal. */
  lemma DigitsAreLiteral(s: string)
    requires IsDigits(s)
    ensures Strip(s) == s && Unsigned(s) == s && IsDecimalLiteral(s) && DropUnderscores(s) == s
  {
    assert !IsSpace(s[0]) && !IsSpace(s[|s| - 1]) by {
      assert IsDigit(s[0]) && IsDigit(s[|s| - 1]);
    }
    StripKeeps(s);
    assert '_' !in s by {
      forall k | 0 <= k < |s| ensures s[k] != '_' {
        assert IsDigit(s[k]);
      }
    }
    DropUnderscoresNoop(s);
    assert IsDecimalLiteral(s);
  }

  lemma {:induction false} DigitsSurvive(s: string)
    requires forall i :: 0 <= i < |s| ==> IsDigit(s[i]) || s[i] == '_'
    ensures forall i :: 0 <= i < |DropUnderscores(s)| ==> IsDigit(DropUnderscores(s)[i])
  {
    if s != [] {
      DigitsSurvive(s[1..]);
    }
  }

  lemma SignedLiteralValue(sign: string, body: string)
    requires sign == "" || sign == "+" || sign == "-"
    requires IsDecimalLiteral(body)
    ensures forall i :: 0 <= i < |DropUnderscores(body)| ==> IsDigit(DropUnderscores(body)[i])
    ensures LiteralValue(sign + body) == Some(if sign == "-" then -(DigitsValue(DropUnderscores(body)) as int)
                                              else DigitsValue(DropUnderscores(body)))
  {
    SignOff(sign, body);
    DigitsSurvive(body);
  }

  /** One sign in front of a text that does not start with a sign is what `Unsigned` drops. */
  lemma SignOff(sign: string, body: string)
    requires sign == "" || sign == "+" || sign == "-"
    requires body != [] && body[0] != '-' && body[0] != '+'
    ensures Unsigned(sign + body) == body
    ensures var t := sign + body; (t != [] && t[0] == '-') <==> sign == "-"
  {
    var t := sign + body;
    if sign == "" {
      assert t == body;
    } else {
      assert t[0] == sign[0] && t[1..] == body;
    }
  }

  /** Padding around a signed literal is stripped. */
  lemma StripSigned(lead: string, sign: string, body: string, trail: string)
    requires AllSpace(lead) && AllSpace(trail)
    requires sign == "" || sign == "+" || sign == "-"
    requires IsDecimalLiteral(body)
    ensures Strip(lead + sign + body + trail) == sign + body
  {
    var t := sign + body;
    assert lead + sign + body + trail == lead + t + trail;
    assert !IsSpace(t[|t| - 1]) by {
      assert t[|t| - 1] == body[|body| - 1];
    }
    assert !IsSpace(t[0]) by {
      assert t[0] == if sign == "" then body[0] else sign[0];
    }
    StripPadded(lead, t, trail);
  }

  /** A literal with padding and a sign: `int()` takes its digits, glued across the
      underscores, with the sign. */
  lemma ParseIntOfLiteral(lead: string, sign: string, body: string, trail: string)
    requires AllSpace(lead) && AllSpace(trail)
    requires sign == "" || sign == "+" || sign == "-"
    requires IsDecimalLiteral(body)
    ensures var digits := DropUnderscores(body);
      && (forall i :: 0 <= i < |digits| ==> IsDigit(digits[i]))
      && ParseInt(lead + sign + body + trail)
         == Some(if sign == "-" then -(DigitsValue(digits) as int) else DigitsValue(digits))
  {
    StripSigned(lead, sign, body, trail);
    SignedLiteralValue(sign, body);
  }
}

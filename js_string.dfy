/** The JavaScript string primitives the extension relies on: `trim`, the
    `/[<>]/g` strip, `includes`, `startsWith`, `split`, `join`, number to
    string. Strings are sequences of characters. */
module JsString {

  /** The characters `String.prototype.trim` removes and `\s` matches:
      ECMAScript's WhiteSpace and LineTerminator code points. */
  predicate IsSpace(c: char)
  {
    || c == '\t' || c == '\n' || c == '\U{000B}' || c == '\U{000C}' || c == '\r'
    || c == ' ' || c == '\U{00A0}' || c == '\U{1680}'
    || ('\U{2000}' <= c <= '\U{200A}')
    || c == '\U{2028}' || c == '\U{2029}' || c == '\U{202F}' || c == '\U{205F}'
    || c == '\U{3000}' || c == '\U{FEFF}'
  }

  /** Leading whitespace removed: the result is the suffix of `s` that starts
      at its first non-space character. */
  function TrimStart(s: string): string
  {
    if |s| > 0 && IsSpace(s[0]) then TrimStart(s[1..]) else s
  }

  /** `TrimStart` keeps a suffix that does not start with whitespace and
      drops only whitespace before it. */
  lemma {:induction false} TrimStartFacts(s: string)
    ensures |TrimStart(s)| <= |s| && TrimStart(s) == s[|s| - |TrimStart(s)|..]
    ensures TrimStart(s) == [] || !IsSpace(TrimStart(s)[0])
    ensures forall i :: 0 <= i < |s| - |TrimStart(s)| ==> IsSpace(s[i])
  {
    if |s| > 0 && IsSpace(s[0]) {
      TrimStartFacts(s[1..]);
      forall i | 0 < i < |s| - |TrimStart(s)| ensures IsSpace(s[i]) {
        assert s[i] == s[1..][i - 1];
      }
    }
  }

  /** Trailing whitespace removed: the result is the prefix of `s` that ends
      at its last non-space character. */
  function TrimEnd(s: string): string
  {
    if |s| > 0 && IsSpace(s[|s| - 1]) then TrimEnd(s[..|s| - 1]) else s
  }

  /** `TrimEnd` keeps a prefix that does not end with whitespace and drops
      only whitespace after it. */
  lemma {:induction false} TrimEndFacts(s: string)
    ensures |TrimEnd(s)| <= |s| && TrimEnd(s) == s[..|TrimEnd(s)|]
    ensures TrimEnd(s) == [] || !IsSpace(TrimEnd(s)[|TrimEnd(s)| - 1])
    ensures forall i :: |TrimEnd(s)| <= i < |s| ==> IsSpace(s[i])
  {
    if |s| > 0 && IsSpace(s[|s| - 1]) {
      TrimEndFacts(s[..|s| - 1]);
      forall i | |TrimEnd(s)| <= i < |s| - 1 ensures IsSpace(s[i]) {
        assert s[i] == s[..|s| - 1][i];
      }
    }
  }

  /** `s.trim()`. */
  function Trim(s: string): (r: string)
  {
    TrimEnd(TrimStart(s))
  }

  /** `trim` keeps a contiguous slice of its input whose two ends are not
      whitespace, and drops only whitespace around it. */
  lemma TrimSlice(s: string) returns (a: nat)
    ensures a + |Trim(s)| <= |s| && Trim(s) == s[a..a + |Trim(s)|]
    ensures Trim(s) == [] || (!IsSpace(Trim(s)[0]) && !IsSpace(Trim(s)[|Trim(s)| - 1]))
    ensures forall i :: 0 <= i < a ==> IsSpace(s[i])
    ensures forall i :: a + |Trim(s)| <= i < |s| ==> IsSpace(s[i])
  {
    var t := TrimStart(s);
    TrimStartFacts(s);
    a := |s| - |t|;
    var r := TrimEnd(t);
    TrimEndFacts(t);
    assert r == t[..|r|];
    assert t[..|r|] == s[a..a + |r|];
    if r != [] {
      assert r[0] == t[0];
      if t[0] == r[0] && IsSpace(t[0]) {
        assert false;
      }
    }
    forall i | a + |r| <= i < |s| ensures IsSpace(s[i]) {
      assert s[i] == t[i - a];
    }
  }

  /** Every character of `trim(s)` occurs in `s`. */
  lemma TrimChars(s: string, c: char)
    requires c in Trim(s)
    ensures c in s
  {
    var a := TrimSlice(s);
    var k :| 0 <= k < |Trim(s)| && Trim(s)[k] == c;
    assert s[a + k] == c;
  }

  /** Trimming an already trimmed string changes nothing. */
  lemma TrimIdempotent(s: string)
    ensures Trim(Trim(s)) == Trim(s)
  {
    var _ := TrimSlice(s);
    var t := Trim(s);
    assert TrimStart(t) == t;
    assert TrimEnd(t) == t;
  }

  /** A string with no whitespace at either end is its own trim. */
  lemma TrimOfTrimmed(s: string)
    requires s == [] || (!IsSpace(s[0]) && !IsSpace(s[|s| - 1]))
    ensures Trim(s) == s
  {
    assert TrimStart(s) == s;
    assert TrimEnd(s) == s;
  }

  /** Whether every character of `s` is whitespace. */
  predicate AllSpace(s: string)
  {
    forall i :: 0 <= i < |s| ==> IsSpace(s[i])
  }

  /** Leading whitespace in front of a string is dropped by `trimStart`. */
  lemma {:induction false} TrimStartSpaces(p: string, x: string)
    requires AllSpace(p)
    ensures TrimStart(p + x) == TrimStart(x)
  {
    if p == [] {
      assert p + x == x;
    } else {
      assert (p + x)[0] == p[0] && IsSpace(p[0]);
      assert (p + x)[1..] == p[1..] + x;
      TrimStartSpaces(p[1..], x);
    }
  }

  /** Trailing whitespace behind a string is dropped by `trimEnd`. */
  lemma {:induction false} TrimEndSpaces(x: string, q: string)
    requires AllSpace(q)
    ensures TrimEnd(x + q) == TrimEnd(x)
  {
    if q == [] {
      assert x + q == x;
    } else {
      assert (x + q)[|x + q| - 1] == q[|q| - 1] && IsSpace(q[|q| - 1]);
      assert (x + q)[..|x + q| - 1] == x + q[..|q| - 1];
      TrimEndSpaces(x, q[..|q| - 1]);
    }
  }

  /** `trimStart` of a string with text to append: the appended part is
      kept whole unless the string was all whitespace. */
  lemma {:induction false} TrimStartAppend(s: string, q: string)
    ensures TrimStart(s) != [] ==> TrimStart(s + q) == TrimStart(s) + q
    ensures TrimStart(s) == [] ==> TrimStart(s + q) == TrimStart(q)
  {
    if s == [] {
      assert s + q == q;
    } else {
      assert (s + q)[0] == s[0];
      assert (s + q)[1..] == s[1..] + q;
      TrimStartAppend(s[1..], q);
    }
  }

  /** Whitespace added around a string does not change its `trim`. */
  lemma TrimPadded(p: string, s: string, q: string)
    requires AllSpace(p) && AllSpace(q)
    ensures Trim(p + s + q) == Trim(s)
  {
    assert p + s + q == p + (s + q);
    TrimStartSpaces(p, s + q);
    TrimStartAppend(s, q);
    if TrimStart(s) != [] {
      TrimEndSpaces(TrimStart(s), q);
    } else {
      TrimStartSpaces(q, []);
      assert q + [] == q;
    }
  }

  /** A string of whitespace only trims to the empty string. */
  lemma TrimAllSpace(s: string)
    requires AllSpace(s)
    ensures Trim(s) == []
  {
    TrimStartSpaces(s, []);
    assert s + [] == s;
  }

  /** Whether `c` is an angle bracket, the class `[<>]`. */
  predicate IsAngle(c: char)
  {
    c == '<' || c == '>'
  }

  /** `s.replace(/[<>]/g, "")`: every `<` and `>` deleted, every other
      character kept in order. */
  function StripAngles(s: string): (r: string)
    ensures |r| <= |s|
    ensures forall c :: c in r ==> c in s && !IsAngle(c)
  {
    if s == [] then []
    else if IsAngle(s[0]) then StripAngles(s[1..])
    else [s[0]] + StripAngles(s[1..])
  }

  /** A string without angle brackets passes through the strip unchanged. */
  lemma {:induction false} StripAnglesNoOp(s: string)
    requires forall c :: c in s ==> !IsAngle(c)
    ensures StripAngles(s) == s
  {
    if s != [] {
      assert s[0] in s;
      forall c | c in s[1..] ensures !IsAngle(c) {
        assert c in s;
      }
      StripAnglesNoOp(s[1..]);
    }
  }

  /** The strip works character by character: stripping a concatenation
      strips each part. Together with the contract of `StripAngles` and
      `StripAnglesNoOp`, this fixes the result of every input. */
  lemma {:induction false} StripAnglesAppend(a: string, b: string)
    ensures StripAngles(a + b) == StripAngles(a) + StripAngles(b)
    decreases |a|
  {
    if a != [] {
      assert (a + b)[1..] == a[1..] + b;
      StripAnglesAppend(a[1..], b);
    } else {
      assert a + b == b;
    }
  }

  /** `trim` drops no character that is not whitespace at an end. */
  lemma TrimEdges(s: string)
    ensures Trim(s) == [] || (!IsSpace(Trim(s)[0]) && !IsSpace(Trim(s)[|Trim(s)| - 1]))
    ensures forall c :: c in Trim(s) ==> c in s
  {
    var _ := TrimSlice(s);
    forall c | c in Trim(s) ensures c in s {
      TrimChars(s, c);
    }
  }

  /** `sanitizeText` of the content scripts and of the summarizer:
      `text.replace(/[<>]/g, "").trim()`. */
  function SanitizeText(s: string): (r: string)
    ensures forall c :: c in r ==> c in s && !IsAngle(c)
    ensures r == [] || (!IsSpace(r[0]) && !IsSpace(r[|r| - 1]))
  {
    TrimEdges(StripAngles(s));
    Trim(StripAngles(s))
  }

  /** A string with no angle bracket and no whitespace at its ends is left
      as it is by `sanitizeText`. */
  lemma SanitizeTextFixes(r: string)
    requires forall i :: 0 <= i < |r| ==> !IsAngle(r[i])
    requires r == [] || (!IsSpace(r[0]) && !IsSpace(r[|r| - 1]))
    ensures SanitizeText(r) == r
  {
    StripAnglesNoOp(r);
    TrimOfTrimmed(r);
  }

  /** Sanitising twice is sanitising once. */
  lemma SanitizeTextIdempotent(s: string)
    ensures SanitizeText(SanitizeText(s)) == SanitizeText(s)
  {
    var r := SanitizeText(s);
    assert forall c :: c in r ==> !IsAngle(c);
    assert forall i | 0 <= i < |r| :: !IsAngle(r[i]) by {
      forall i | 0 <= i < |r| ensures !IsAngle(r[i]) {
        assert r[i] in r;
      }
    }
    SanitizeTextFixes(r);
  }

  /** `s.startsWith(p)`. */
  predicate StartsWith(s: string, p: string)
  {
    |p| <= |s| && s[..|p|] == p
  }

  /** `s.includes(sub)`: `sub` occurs at some position of `s`. */
  predicate Contains(s: string, sub: string)
    decreases |s|
  {
    StartsWith(s, sub) || (|s| > 0 && Contains(s[1..], sub))
  }

  /** `Contains` means an occurrence at some index. */
  lemma {:induction false} ContainsAt(s: string, sub: string, i: nat)
    requires i + |sub| <= |s| && s[i..i + |sub|] == sub
    ensures Contains(s, sub)
    decreases i
  {
    if i > 0 {
      assert s[1..][i - 1..i - 1 + |sub|] == sub;
      ContainsAt(s[1..], sub, i - 1);
    }
  }

  /** A string occurs in any string that has it as a prefix, suffix or middle. */
  lemma ContainsInfix(a: string, sub: string, b: string)
    ensures Contains(a + sub + b, sub)
  {
    var s := a + sub + b;
    assert s[|a|..|a| + |sub|] == sub;
    ContainsAt(s, sub, |a|);
  }

  /** `s.split(sep)` for a one-character separator: the pieces between
      separators, the empty pieces included; `"".split(sep)` is `[""]`. */
  function Split(s: string, sep: char): (parts: seq<string>)
    ensures |parts| >= 1
    ensures forall k :: 0 <= k < |parts| ==> sep !in parts[k]
  {
    if s == [] then [""]
    else if s[0] == sep then [""] + Split(s[1..], sep)
    else
      var rest := Split(s[1..], sep);
      [[s[0]] + rest[0]] + rest[1..]
  }

  /** `parts.join(sep)`. */
  function Join(parts: seq<string>, sep: string): string
  {
    if |parts| == 0 then ""
    else if |parts| == 1 then parts[0]
    else parts[0] + sep + Join(parts[1..], sep)
  }

  /** Splitting and joining back on the same separator restores the string. */
  lemma {:induction false} JoinSplit(s: string, sep: char)
    ensures Join(Split(s, sep), [sep]) == s
  {
    if s == [] {
    } else if s[0] == sep {
      JoinSplit(s[1..], sep);
      assert Split(s, sep)[1..] == Split(s[1..], sep);
    } else {
      JoinSplit(s[1..], sep);
      var rest := Split(s[1..], sep);
      var parts := [[s[0]] + rest[0]] + rest[1..];
      if |rest| == 1 {
        assert Join(parts, [sep]) == [s[0]] + rest[0];
      } else {
        assert parts[1..] == rest[1..];
        assert Join(rest, [sep]) == rest[0] + [sep] + Join(rest[1..], [sep]);
        assert Join(parts, [sep]) == [s[0]] + rest[0] + [sep] + Join(rest[1..], [sep]);
      }
    }
  }

  /** No character outside the pieces is introduced by `join`. */
  lemma {:induction false} JoinChars(parts: seq<string>, sep: string, c: char)
    requires c in Join(parts, sep)
    ensures c in sep || exists k :: 0 <= k < |parts| && c in parts[k]
  {
    if |parts| > 1 {
      var rest := Join(parts[1..], sep);
      assert Join(parts, sep) == parts[0] + sep + rest;
      if c !in parts[0] && c !in sep {
        JoinChars(parts[1..], sep, c);
        var k :| 0 <= k < |parts[1..]| && c in parts[1..][k];
        assert c in parts[k + 1];
      }
    }
  }

  /** ASCII letters folded to lower case, the case-insensitive regex match
      for ASCII patterns. */
  function LowerAscii(c: char): char
  {
    if 'A' <= c <= 'Z' then (c as int + 32) as char else c
  }

  /** Decimal digit character. */
  function Digit(d: nat): char
    requires d < 10
  {
    ('0' as int + d) as char
  }

  /** The decimal rendering of a natural number, without leading zeros. */
  function NatToString(n: nat): (r: string)
    ensures |r| >= 1 && IsDigits(r)
    ensures n >= 10 ==> r[0] != '0'
  {
    if n < 10 then [Digit(n)] else NatToString(n / 10) + [Digit(n % 10)]
  }

  /** `String(n)` for an integer-valued JavaScript number. */
  function IntToString(i: int): string
  {
    if i < 0 then "-" + NatToString(-i) else NatToString(i)
  }

  /** Whether every character is a decimal digit. */
  predicate IsDigits(s: string)
  {
    forall i :: 0 <= i < |s| ==> '0' <= s[i] <= '9'
  }

  /** The value of a string of decimal digits. */
  function DigitsValue(s: string): nat
    requires IsDigits(s)
  {
    if s == [] then 0
    else DigitsValue(s[..|s| - 1]) * 10 + (s[|s| - 1] as int - '0' as int)
  }

  /** Reading the decimal rendering back gives the number: the rendering is
      injective. */
  lemma {:induction false} NatToStringRoundTrip(n: nat)
    ensures DigitsValue(NatToString(n)) == n
  {
    if n >= 10 {
      NatToStringRoundTrip(n / 10);
      var r := NatToString(n);
      assert r[..|r| - 1] == NatToString(n / 10);
    }
  }
}

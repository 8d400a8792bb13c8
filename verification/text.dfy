/** The Python string operations the workflow relies on: `str.strip()`,
    `str.lower()`, `str.title()`, `str.replace(old, "")` and the decimal
    rendering of an `int` inside an f-string. Case mapping covers ASCII
    letters only; whitespace is Python's full `str.isspace` set. */
module Text {

  // ---------------------------------------------------------------------------
  // Whitespace and strip()
  // ---------------------------------------------------------------------------

  /** The characters for which Python's `str.isspace()` holds. */
  predicate IsSpace(c: char)
  {
    var n := c as int;
    || (9 <= n <= 13)            // \t \n \v \f \r
    || (28 <= n <= 32)           // file/group/record/unit separators, space
    || n == 0x85 || n == 0xA0 || n == 0x1680
    || (0x2000 <= n <= 0x200A)
    || n == 0x2028 || n == 0x2029 || n == 0x202F || n == 0x205F || n == 0x3000
  }

  predicate AllSpace(s: string)
  {
    forall i :: 0 <= i < |s| ==> IsSpace(s[i])
  }

  /** No leading and no trailing whitespace: what `strip()` leaves behind. */
  predicate Stripped(s: string)
  {
    |s| == 0 || (!IsSpace(s[0]) && !IsSpace(s[|s| - 1]))
  }

  /** `r` is `s` with nothing but whitespace removed on either side. */
  predicate Trimmed(s: string, r: string)
  {
    exists i: nat | i <= |s| :: TrimmedAt(s, r, i)
  }

  /** `r` sits at offset `i` of `s` with only whitespace before and after it. */
  predicate TrimmedAt(s: string, r: string, i: nat)
  {
    i <= |s| - |r| && r == s[i..i + |r|] && AllSpace(s[..i]) && AllSpace(s[i + |r|..])
  }

  /** `s.lstrip()`: the longest suffix of `s` that does not start with whitespace. */
  function LStrip(s: string): (r: string)
    ensures |r| <= |s| && r == s[|s| - |r|..]
    ensures AllSpace(s[..|s| - |r|])
    ensures |r| == 0 || !IsSpace(r[0])
    decreases |s|
  {
    if |s| > 0 && IsSpace(s[0]) then
      var r := LStrip(s[1..]);
      assert s[1..][..|s| - 1 - |r|] == s[1..|s| - |r|];
      r
    else s
  }

  /** `s.rstrip()`: the longest prefix of `s` that does not end with whitespace. */
  function RStrip(s: string): (r: string)
    ensures |r| <= |s| && r == s[..|r|]
    ensures AllSpace(s[|r|..])
    ensures |r| == 0 || !IsSpace(r[|r| - 1])
    decreases |s|
  {
    if |s| > 0 && IsSpace(s[|s| - 1]) then
      var r := RStrip(s[..|s| - 1]);
      assert s[|r|..] == s[..|s| - 1][|r|..] + [s[|s| - 1]];
      r
    else s
  }

  /** `s.strip()`: `s` with its leading and trailing whitespace cut off. The
      result is the part of `s` between a whitespace prefix and a whitespace
      suffix, starts and ends with a non-space, and is empty only for a text
      made of whitespace; together these fix it uniquely. */
  function Strip(s: string): (r: string)
    ensures Stripped(r)
    ensures Trimmed(s, r)
    ensures |r| == 0 <==> AllSpace(s)
  {
    StripBounds(s, LStrip(s), RStrip(LStrip(s)));
    RStrip(LStrip(s))
  }

  /** The pieces `strip()` cuts off around what it keeps, from what
      `lstrip()` and `rstrip()` promise. */
  lemma StripBounds(s: string, l: string, r: string)
    requires |l| <= |s| && l == s[|s| - |l|..] && AllSpace(s[..|s| - |l|]) && (|l| == 0 || !IsSpace(l[0]))
    requires |r| <= |l| && r == l[..|r|] && AllSpace(l[|r|..])
    ensures Trimmed(s, r)
    ensures |r| == 0 <==> AllSpace(s)
  {
    var i := |s| - |l|;
    assert s[i..i + |r|] == l[..|r|];
    assert s[i + |r|..] == l[|r|..];
    if |r| == 0 {
      assert s == s[..i] + l[|r|..];
    } else {
      assert r[0] == s[i];
    }
    assert TrimmedAt(s, r, i);
  }

  /** The contract of `Strip` has one solution: any stripped text that is
      `s` trimmed of whitespace, and empty only for all-space `s`, is
      `s.strip()`. */
  lemma StripCharacterized(s: string, r: string)
    requires Stripped(r) && Trimmed(s, r) && (|r| == 0 <==> AllSpace(s))
    ensures r == Strip(s)
  {
    var t := Strip(s);
    if |r| > 0 {
      var i: nat :| i <= |s| && TrimmedAt(s, r, i);
      var j: nat :| j <= |s| && TrimmedAt(s, t, j);
      SameTrim(s, r, i, t, j);
    }
  }

  /** A non-empty run of `s` with only whitespace around it, starting and
      ending with a non-space, is unique. */
  lemma SameTrim(s: string, r: string, i: nat, t: string, j: nat)
    requires |r| > 0 && Stripped(r) && TrimmedAt(s, r, i)
    requires |t| > 0 && Stripped(t) && TrimmedAt(s, t, j)
    ensures r == t
  {
    var n, m := |r|, |t|;
    assert s[i] == r[0] && s[i + n - 1] == r[n - 1];
    assert s[j] == t[0] && s[j + m - 1] == t[m - 1];
  }

  lemma {:induction false} LStripSkipsSpaces(w: string, u: string)
    requires AllSpace(w)
    ensures LStrip(w + u) == LStrip(u)
    decreases |w|
  {
    if |w| > 0 {
      assert (w + u)[0] == w[0];
      assert (w + u)[1..] == w[1..] + u;
      LStripSkipsSpaces(w[1..], u);
    } else {
      assert w + u == u;
    }
  }

  lemma {:induction false} RStripSkipsSpaces(u: string, w: string)
    requires AllSpace(w)
    ensures RStrip(u + w) == RStrip(u)
    decreases |w|
  {
    if |w| > 0 {
      assert (u + w)[|u + w| - 1] == w[|w| - 1];
      assert (u + w)[..|u + w| - 1] == u + w[..|w| - 1];
      RStripSkipsSpaces(u, w[..|w| - 1]);
    } else {
      assert u + w == u;
    }
  }

  /** Text after the first non-space character is kept verbatim by `lstrip()`. */
  lemma {:induction false} LStripAppend(t: string, w: string)
    requires !AllSpace(t)
    ensures LStrip(t + w) == LStrip(t) + w
    decreases |t|
  {
    assert |t| > 0;
    if IsSpace(t[0]) {
      assert (t + w)[1..] == t[1..] + w;
      LStripAppend(t[1..], w);
    }
  }

  /** Text before the last non-space character is kept verbatim by `rstrip()`. */
  lemma {:induction false} RStripAfter(a: string, b: string)
    requires |a| > 0 && !IsSpace(a[|a| - 1])
    ensures RStrip(a + b) == a + RStrip(b)
    decreases |b|
  {
    if |b| > 0 && IsSpace(b[|b| - 1]) {
      assert (a + b)[..|a + b| - 1] == a + b[..|b| - 1];
      RStripAfter(a, b[..|b| - 1]);
    }
  }

  /** `lstrip()` of pure whitespace is empty. */
  lemma LStripAllSpace(u: string)
    requires AllSpace(u)
    ensures LStrip(u) == []
  {
  }

  /** Whitespace padding on either side does not change what `strip()` returns. */
  lemma StripPadded(w1: string, t: string, w2: string)
    requires AllSpace(w1) && AllSpace(w2)
    ensures Strip(w1 + t + w2) == Strip(t)
  {
    assert w1 + t + w2 == w1 + (t + w2);
    LStripSkipsSpaces(w1, t + w2);
    if AllSpace(t) {
      assert AllSpace(t + w2);
      LStripAllSpace(t + w2);
      LStripAllSpace(t);
    } else {
      LStripAppend(t, w2);
      RStripSkipsSpaces(LStrip(t), w2);
    }
  }

  /** Trailing whitespace does not change what `strip()` returns. */
  lemma StripPaddedRight(t: string, w: string)
    requires AllSpace(w)
    ensures Strip(t + w) == Strip(t)
  {
    assert [] + t + w == t + w;
    StripPadded([], t, w);
  }

  /** Leading whitespace does not change what `strip()` returns. */
  lemma StripPaddedLeft(w: string, t: string)
    requires AllSpace(w)
    ensures Strip(w + t) == Strip(t)
  {
    assert w + t + [] == w + t;
    StripPadded(w, t, []);
  }

  /** A single space is whitespace. The text is a parameter fixed by the
      precondition, so that callers reason about it symbolically instead of
      having the verifier evaluate a string literal character by character. */
  lemma SingleSpace(w: string)
    requires w == [' ']
    ensures AllSpace(w)
  {
    assert w[0] == ' ';
  }

  /** Stripping after `rstrip()` is stripping. */
  lemma StripAfterRStrip(s: string)
    ensures Strip(RStrip(s)) == Strip(s)
  {
    var q := RStrip(s);
    var w := s[|q|..];
    assert s == q + w;
    StripPaddedRight(q, w);
  }

  /** Text opening with a word that neither starts nor ends with whitespace
      keeps that word verbatim under `strip()`. */
  lemma StripAfterWord(p: string, b: string)
    requires |p| > 0 && !IsSpace(p[0]) && !IsSpace(p[|p| - 1])
    ensures Strip(p + b) == p + RStrip(b)
  {
    assert (p + b)[0] == p[0];
    assert LStrip(p + b) == p + b;
    RStripAfter(p, b);
  }

  /** Non-space text followed by stripped, non-empty text is stripped. */
  lemma StrippedAfterWord(p: string, t: string)
    requires |p| > 0 && !IsSpace(p[0]) && |t| > 0 && Stripped(t)
    ensures Stripped(p + t)
  {
    assert (p + t)[0] == p[0];
    assert (p + t)[|p + t| - 1] == t[|t| - 1];
  }

  /** `strip()` is the identity on text that is already stripped. */
  lemma StripStripped(t: string)
    requires Stripped(t)
    ensures Strip(t) == t
  {
  }

  /** `strip()` is idempotent. */
  lemma StripIdempotent(s: string)
    ensures Strip(Strip(s)) == Strip(s)
  {
    StripStripped(Strip(s));
  }

  // ---------------------------------------------------------------------------
  // Case mapping (ASCII)
  // ---------------------------------------------------------------------------

  predicate IsUpper(c: char) { 'A' <= c <= 'Z' }

  predicate IsLower(c: char) { 'a' <= c <= 'z' }

  function LowerChar(c: char): char
  {
    if IsUpper(c) then (c as int + 32) as char else c
  }

  function UpperChar(c: char): char
  {
    if IsLower(c) then (c as int - 32) as char else c
  }

  /** `s.lower()` on ASCII letters; every other character is kept. */
  function Lower(s: string): string
  {
    seq(|s|, i requires 0 <= i < |s| => LowerChar(s[i]))
  }

  /** `s.title()` on ASCII letters: a letter is upper-cased when the character
      before it is not a letter, lower-cased otherwise. */
  function Title(s: string): (r: string)
    ensures |r| == |s|
  {
    TitleAfter(s, false)
  }

  function TitleAfter(s: string, previousCased: bool): (r: string)
    ensures |r| == |s|
  {
    if |s| == 0 then []
    else
      var c := if previousCased then LowerChar(s[0]) else UpperChar(s[0]);
      [c] + TitleAfter(s[1..], IsUpper(s[0]) || IsLower(s[0]))
  }

  /** `s.endswith(suffix)` */
  predicate EndsWith(s: string, suffix: string)
  {
    |suffix| <= |s| && s[|s| - |suffix|..] == suffix
  }

  lemma EndsWithConcat(a: string, b: string)
    ensures EndsWith(a + b, b)
  {
    assert (a + b)[|a + b| - |b|..] == b;
  }

  // ---------------------------------------------------------------------------
  // Substring occurrences and str.replace(pattern, "")
  // ---------------------------------------------------------------------------

  predicate OccursAt(s: string, pattern: string, i: nat)
  {
    i + |pattern| <= |s| && s[i..i + |pattern|] == pattern
  }

  /** `pattern in s` */
  predicate Occurs(s: string, pattern: string)
  {
    exists i: nat | i <= |s| :: OccursAt(s, pattern, i)
  }

  /** `s.replace(pattern, "")`: scanning left to right, every non-overlapping
      occurrence of `pattern` is deleted; the scan resumes after each deleted
      occurrence, so text brought together by a deletion is not re-examined. */
  function Remove(s: string, pattern: string): (r: string)
    requires |pattern| > 0
    ensures |r| <= |s|
    ensures !Occurs(s, pattern) ==> r == s
    ensures Occurs(s, pattern) ==> |r| < |s|
    decreases |s|
  {
    if |s| == 0 then []
    else if pattern <= s then
      assert OccursAt(s, pattern, 0);
      Remove(s[|pattern|..], pattern)
    else
      var rest := Remove(s[1..], pattern);
      assert Occurs(s, pattern) ==> Occurs(s[1..], pattern) by {
        if Occurs(s, pattern) {
          var i: nat :| i <= |s| && OccursAt(s, pattern, i);
          assert i != 0;
          assert s[1..][i - 1..i - 1 + |pattern|] == s[i..i + |pattern|];
          assert OccursAt(s[1..], pattern, i - 1);
        }
      }
      assert !Occurs(s, pattern) ==> !Occurs(s[1..], pattern) by {
        if Occurs(s[1..], pattern) {
          var i: nat :| i <= |s[1..]| && OccursAt(s[1..], pattern, i);
          assert s[i + 1..i + 1 + |pattern|] == s[1..][i..i + |pattern|];
          assert OccursAt(s, pattern, i + 1);
        }
      }
      [s[0]] + rest
  }

  /** `replace` is the identity exactly when the pattern does not occur. */
  lemma RemoveIdentityIff(s: string, pattern: string)
    requires |pattern| > 0
    ensures Remove(s, pattern) == s <==> !Occurs(s, pattern)
  {
  }

  /** An occurrence at the very start is deleted and the scan goes on after it. */
  lemma RemoveLeading(pattern: string, t: string)
    requires |pattern| > 0
    ensures Remove(pattern + t, pattern) == Remove(t, pattern)
  {
    assert (pattern + t)[|pattern|..] == t;
  }

  /** What `replace` keeps: the text before the first occurrence, unchanged,
      then the result of continuing the scan after that occurrence. */
  lemma {:induction false} RemoveAtFirst(s: string, pattern: string, i: nat)
    requires |pattern| > 0 && OccursAt(s, pattern, i)
    requires forall j: nat :: j < i ==> !OccursAt(s, pattern, j)
    ensures Remove(s, pattern) == s[..i] + Remove(s[i + |pattern|..], pattern)
    decreases i
  {
    if i == 0 {
      RemoveHit(s, pattern);
    } else {
      var t := s[1..];
      RemoveSkip(s, pattern);
      ShiftedOccurrence(s, pattern, i);
      RemoveAtFirst(t, pattern, i - 1);
      DropFirst(s, i + |pattern|);
      var rest := Remove(s[i + |pattern|..], pattern);
      JoinFirst(s, i, Remove(s, pattern), Remove(t, pattern), Remove(t[i - 1 + |pattern|..], pattern), rest);
    }
  }

  /** An occurrence at the start is deleted. */
  lemma RemoveHit(s: string, pattern: string)
    requires |pattern| > 0 && OccursAt(s, pattern, 0)
    ensures Remove(s, pattern) == s[..0] + Remove(s[|pattern|..], pattern)
  {
    assert pattern <= s;
    assert s[..0] + Remove(s[|pattern|..], pattern) == Remove(s[|pattern|..], pattern);
  }

  /** A first character that starts no occurrence is kept. */
  lemma RemoveSkip(s: string, pattern: string)
    requires |pattern| > 0 && |s| > 0 && !OccursAt(s, pattern, 0)
    ensures Remove(s, pattern) == [s[0]] + Remove(s[1..], pattern)
  {
    assert !(pattern <= s);
  }

  /** Dropping the first character moves every occurrence one place left. */
  lemma ShiftedOccurrence(s: string, pattern: string, i: nat)
    requires 0 < i && OccursAt(s, pattern, i)
    requires forall j: nat :: j < i ==> !OccursAt(s, pattern, j)
    ensures OccursAt(s[1..], pattern, i - 1)
    ensures forall j: nat :: j < i - 1 ==> !OccursAt(s[1..], pattern, j)
  {
    var t := s[1..];
    assert t[i - 1..i - 1 + |pattern|] == s[i..i + |pattern|];
    forall j: nat | j < i - 1
      ensures !OccursAt(t, pattern, j)
    {
      assert !OccursAt(s, pattern, j + 1);
      if j + |pattern| <= |t| {
        assert t[j..j + |pattern|] == s[j + 1..j + 1 + |pattern|];
      }
    }
  }

  lemma DropFirst(s: string, k: nat)
    requires 0 < k <= |s|
    ensures s[1..][k - 1..] == s[k..]
  {
  }

  lemma JoinFirst(s: string, i: nat, whole: string, tail: string, after: string, rest: string)
    requires 0 < i <= |s|
    requires whole == [s[0]] + tail && tail == s[1..][..i - 1] + after && after == rest
    ensures whole == s[..i] + rest
  {
    assert s[..i] == [s[0]] + s[1..][..i - 1];
  }

  /** A text occurs inside any text that frames it. */
  lemma OccursFramed(a: string, pattern: string, b: string)
    ensures Occurs(a + pattern + b, pattern)
  {
    assert (a + pattern + b)[|a|..|a| + |pattern|] == pattern;
    assert OccursAt(a + pattern + b, pattern, |a|);
  }

  /** A text that lacks one of the pattern's characters cannot contain it. */
  lemma NoOccurrenceWithoutChar(s: string, pattern: string, k: nat)
    requires k < |pattern| && pattern[k] !in s
    ensures !Occurs(s, pattern)
  {

  }

  /** A suffix of a text free of `pattern` is free of it too. */
  lemma NoOccurrenceInSuffix(s: string, pattern: string, k: nat)
    requires k <= |s| && !Occurs(s, pattern)
    ensures !Occurs(s[k..], pattern)
  {
    if Occurs(s[k..], pattern) {
      var i: nat :| i <= |s[k..]| && OccursAt(s[k..], pattern, i);
      assert s[k + i..k + i + |pattern|] == s[k..][i..i + |pattern|];
      assert OccursAt(s, pattern, k + i);
    }
  }

  /** A prefix of a text free of `pattern` is free of it too. */
  lemma NoOccurrenceInPrefix(s: string, pattern: string, k: nat)
    requires k <= |s| && !Occurs(s, pattern)
    ensures !Occurs(s[..k], pattern)
  {
    if Occurs(s[..k], pattern) {
      var i: nat :| i <= k && OccursAt(s[..k], pattern, i);
      assert s[i..i + |pattern|] == s[..k][i..i + |pattern|];
      assert OccursAt(s, pattern, i);
    }
  }

  /** Prepending `a` cannot create an occurrence when every place in `a`
      holding the pattern's first character is followed, inside `a`, by
      something other than its second. */
  lemma NoOccurrenceAfterGuarded(a: string, b: string, pattern: string)
    requires |pattern| >= 2 && !Occurs(b, pattern)
    requires forall i :: 0 <= i < |a| && a[i] == pattern[0] ==> i + 1 < |a| && a[i + 1] != pattern[1]
    ensures !Occurs(a + b, pattern)
  {
    forall i: nat | i <= |a + b|
      ensures !OccursAt(a + b, pattern, i)
    {
      if i + |pattern| > |a + b| {
      } else if i < |a| {
        var w := (a + b)[i..i + |pattern|];
        if a[i] == pattern[0] {
          assert w[1] == a[i + 1];
        } else {
          assert w[0] == a[i];
        }
      } else {
        assert b[i - |a|..i - |a| + |pattern|] == (a + b)[i..i + |pattern|];
        assert !OccursAt(b, pattern, i - |a|);
      }
    }
  }

  /** Prepending text that never contains the pattern's first character
      cannot create an occurrence. */
  lemma NoOccurrenceAfter(a: string, b: string, pattern: string)
    requires |pattern| > 0 && !Occurs(b, pattern)
    requires pattern[0] !in a
    ensures !Occurs(a + b, pattern)
  {
    if Occurs(a + b, pattern) {
      var i: nat :| i <= |a + b| && OccursAt(a + b, pattern, i);
      assert (a + b)[i] == pattern[0];
      if i >= |a| {
        assert b[i - |a|..i - |a| + |pattern|] == (a + b)[i..i + |pattern|];
        assert OccursAt(b, pattern, i - |a|);
      }
    }
  }

  // ---------------------------------------------------------------------------
  // Decimal rendering of a natural number, as `f"{n}"` prints it
  // ---------------------------------------------------------------------------

  function DigitChar(d: nat): char
    requires d < 10
  {
    ('0' as int + d) as char
  }

  predicate IsDigit(c: char) { '0' <= c <= '9' }

  /** `str(n)` for `n >= 0`: its decimal digits, most significant first, with
      no leading zero. */
  function Decimal(n: nat): (r: string)
    ensures |r| > 0
    ensures forall i :: 0 <= i < |r| ==> IsDigit(r[i])
    ensures r[|r| - 1] == DigitChar(n % 10)
    ensures n < 10 ==> |r| == 1
    ensures n > 0 ==> r[0] != '0'
  {
    if n < 10 then [DigitChar(n)] else Decimal(n / 10) + [DigitChar(n % 10)]
  }

  /** The number a string of decimal digits denotes, most significant
      digit first. */
  function DigitsValue(r: string): int
  {
    if |r| == 0 then 0 else 10 * DigitsValue(r[..|r| - 1]) + (r[|r| - 1] as int - '0' as int)
  }

  /** Reading the digits of `str(n)` back gives `n`. */
  lemma {:induction false} DecimalValue(n: nat)
    ensures DigitsValue(Decimal(n)) == n
  {
    if n >= 10 {
      var r := Decimal(n);
      assert r[..|r| - 1] == Decimal(n / 10);
      DecimalValue(n / 10);
    }
  }

  /** Distinct numbers print differently. */
  lemma {:induction false} DecimalInjective(m: nat, n: nat)
    requires Decimal(m) == Decimal(n)
    ensures m == n
    decreases m
  {
    var dm, dn := Decimal(m), Decimal(n);
    assert m % 10 == n % 10 by {
      assert dm[|dm| - 1] == dn[|dn| - 1];
    }
    if m >= 10 && n >= 10 {
      assert Decimal(m / 10) == dm[..|dm| - 1];
      assert Decimal(n / 10) == dn[..|dn| - 1];
      DecimalInjective(m / 10, n / 10);
    }
  }
}

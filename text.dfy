/**
 * The few `str` operations the scripts rely on: `startswith`, `endswith`,
 * `replace(pattern, "")` and the decimal rendering of an `int` in an f-string.
 */
module Text {

  predicate StartsWith(s: string, prefix: string)
  {
    |prefix| <= |s| && s[..|prefix|] == prefix
  }

  predicate EndsWith(s: string, suffix: string)
  {
    |suffix| <= |s| && s[|s| - |suffix|..] == suffix
  }

  /** `pattern` occurs in `s` starting at index `p`. */
  predicate OccursAt(s: string, pattern: string, p: nat)
  {
    p + |pattern| <= |s| && s[p..p + |pattern|] == pattern
  }

  /** Python's `pattern in s`. */
  predicate Contains(s: string, pattern: string)
  {
    exists p: nat | p <= |s| :: OccursAt(s, pattern, p)
  }

  /**
   * Python's `s.replace(pattern, "")`: scanning left to right, every
   * non-overlapping occurrence of `pattern` is dropped; the text that closes
   * up around a removed occurrence is not scanned again.
   */
  function RemoveAll(s: string, pattern: string): (r: string)
    requires |pattern| > 0
    ensures |r| <= |s|
    decreases |s|
  {
    if |s| < |pattern| then s
    else if s[..|pattern|] == pattern then RemoveAll(s[|pattern|..], pattern)
    else [s[0]] + RemoveAll(s[1..], pattern)
  }

  /** A leading occurrence is removed and scanning resumes right after it. */
  lemma RemoveAllLeading(pattern: string, t: string)
    requires |pattern| > 0
    ensures RemoveAll(pattern + t, pattern) == RemoveAll(t, pattern)
  {
    assert (pattern + t)[..|pattern|] == pattern;
    assert (pattern + t)[|pattern|..] == t;
  }

  /** Text in which no occurrence starts is kept as it is. */
  lemma {:induction false} RemoveAllKeeps(a: string, b: string, pattern: string)
    requires |pattern| > 0
    requires forall p: nat :: p < |a| ==> !OccursAt(a + b, pattern, p)
    ensures RemoveAll(a + b, pattern) == a + RemoveAll(b, pattern)
  {
    if a == [] {
      assert a + b == b;
    } else if |a + b| < |pattern| {
      assert RemoveAll(b, pattern) == b;
    } else {
      var s := a + b;
      assert !OccursAt(s, pattern, 0);
      assert s[..|pattern|] != pattern;
      assert s[0] == a[0] && s[1..] == a[1..] + b;
      NoOccurrenceInTail(a, b, pattern);
      RemoveAllKeeps(a[1..], b, pattern);
    }
  }

  /** Dropping the first character shifts every occurrence one place left. */
  lemma NoOccurrenceInTail(a: string, b: string, pattern: string)
    requires |a| > 0
    requires forall p: nat :: p < |a| ==> !OccursAt(a + b, pattern, p)
    ensures forall p: nat :: p < |a[1..]| ==> !OccursAt(a[1..] + b, pattern, p)
  {
    forall p: nat | p < |a[1..]| ensures !OccursAt(a[1..] + b, pattern, p) {
      if p + |pattern| <= |a[1..] + b| {
        assert (a[1..] + b)[p..p + |pattern|] == (a + b)[p + 1..p + 1 + |pattern|];
      }
      assert !OccursAt(a + b, pattern, p + 1);
    }
  }

  function DigitChar(d: nat): char
    requires d < 10
  {
    "0123456789"[d]
  }

  /** `str(n)` for a non-negative `int`. */
  function Decimal(n: nat): (r: string)
    ensures |r| >= 1
    ensures n >= 10 <==> |r| >= 2
  {
    if n < 10 then [DigitChar(n)] else Decimal(n / 10) + [DigitChar(n % 10)]
  }

  /** Distinct numbers are written differently. */
  lemma {:induction false} DecimalInjective(a: nat, b: nat)
    requires Decimal(a) == Decimal(b)
    ensures a == b
  {
    if a >= 10 && b >= 10 {
      var da, db := Decimal(a), Decimal(b);
      assert da[..|da| - 1] == Decimal(a / 10);
      assert db[..|db| - 1] == Decimal(b / 10);
      DecimalInjective(a / 10, b / 10);
      assert da[|da| - 1] == DigitChar(a % 10);
      assert db[|db| - 1] == DigitChar(b % 10);
    }
  }
}

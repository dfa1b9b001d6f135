/** Shared vocabulary of the model: optional values, media handles reduced to
    their duration and frame size, and the few Python string and number
    primitives the planners rely on. */
module Common {

  datatype Option<+T> = None | Some(value: T)

  datatype Result<+T, +E> = Ok(value: T) | Err(error: E)

  /** Bytes of an uploaded file; only their number matters to the model. */
  newtype byte = x: int | 0 <= x < 256

  /** Every media-engine handle is abstracted to its duration in seconds and
      its frame size in pixels. */
  datatype Clip = Clip(duration: real, width: int, height: int)

  function Resized(c: Clip, width: int, height: int): (r: Clip)
    ensures r.duration == c.duration && r.width == width && r.height == height
  {
    c.(width := width, height := height)
  }

  function MinReal(a: real, b: real): real { if a <= b then a else b }
  function MaxReal(a: real, b: real): real { if a >= b then a else b }
  function MaxInt(a: int, b: int): int { if a >= b then a else b }

  /** Python's math.ceil on a real. */
  function Ceil(x: real): (r: int)
    ensures x <= r as real < x + 1.0
  {
    -((-x).Floor)
  }

  /** Multiplying by a factor of at least 1 does not shrink a non-negative
      quantity. */
  lemma ScaleAtLeastOne(x: real, scale: real)
    requires x >= 0.0 && scale >= 1.0
    ensures x * scale >= x
  {
    assert x * scale == x + x * (scale - 1.0);
    assert x * (scale - 1.0) >= 0.0;
  }

  // ---------------------------------------------------------------------
  // Strings

  /** Python's str.isspace() for one character: the characters str.strip()
      removes when called without arguments. */
  predicate IsPySpace(c: char)
  {
    c == ' ' || ('\t' <= c <= '\r') || ('\U{1c}' <= c <= '\U{1f}') ||
    c == '\U{85}' || c == '\U{a0}' || c == '\U{1680}' ||
    ('\U{2000}' <= c <= '\U{200a}') || c == '\U{2028}' || c == '\U{2029}' ||
    c == '\U{202f}' || c == '\U{205f}' || c == '\U{3000}'
  }

  /** `s.strip() == ""`, which also holds of the empty string. */
  predicate IsBlank(s: string)
  {
    forall i :: 0 <= i < |s| ==> IsPySpace(s[i])
  }

  /** `s.startswith(p)`. */
  predicate StartsWith(s: string, p: string)
  {
    |p| <= |s| && s[..|p|] == p
  }

  /** `p in s` for strings: `p` occurs at some offset of `s`. */
  predicate Occurs(s: string, p: string)
  {
    exists k :: 0 <= k <= |s| - |p| && OccursAt(s, p, k)
  }

  predicate OccursAt(s: string, p: string, k: int)
  {
    0 <= k <= |s| - |p| && s[k..k + |p|] == p
  }

  /** The text after the last occurrence of `c`: `s.split(c)[-1]`, which is
      also `s.rsplit(c, 1)[-1]`. */
  function AfterLast(s: string, c: char): (r: string)
    ensures c !in r
    ensures |r| <= |s| && r == s[|s| - |r|..]
  {
    if |s| == 0 then []
    else if s[|s| - 1] == c then []
    else AfterLast(s[..|s| - 1], c) + [s[|s| - 1]]
  }

  /** When `c` occurs, the text after the last `c` is preceded by that `c`. */
  lemma {:induction false} AfterLastSplits(s: string, c: char)
    requires c in s
    ensures |AfterLast(s, c)| < |s| && s[|s| - |AfterLast(s, c)| - 1] == c
  {
    if s[|s| - 1] != c {
      var init := s[..|s| - 1];
      assert c in init by {
        var k :| 0 <= k < |s| && s[k] == c;
        assert init[k] == c;
      }
      AfterLastSplits(init, c);
    }
  }

  /** The text after the last `c` of `s + [c] + t`, when `t` has no `c`, is
      `t`: a name built as `<stem>.<ext>` gives its extension back. */
  lemma {:induction false} AfterLastAppend(s: string, c: char, t: string)
    requires c !in t
    ensures AfterLast(s + [c] + t, c) == t
    decreases |t|
  {
    var u := s + [c] + t;
    if |t| == 0 {
      assert u[|u| - 1] == c;
    } else {
      var init := t[..|t| - 1];
      var last := t[|t| - 1];
      assert t == init + [last];
      assert last != c;
      assert c !in init;
      assert u == (s + [c] + init) + [last];
      AfterLastAppend(s, c, init);
    }
  }

  /** Python's str.replace(pat, rep): every non-overlapping occurrence, left
      to right. */
  function ReplaceAll(s: string, pat: string, rep: string): string
    requires |pat| > 0
    decreases |s|
  {
    if |s| < |pat| then s
    else if s[..|pat|] == pat then rep + ReplaceAll(s[|pat|..], pat, rep)
    else [s[0]] + ReplaceAll(s[1..], pat, rep)
  }

  /** Replacing a pattern that does not occur leaves the string as it is. */
  lemma {:induction false} ReplaceAllAbsent(s: string, pat: string, rep: string)
    requires |pat| > 0 && !Occurs(s, pat)
    ensures ReplaceAll(s, pat, rep) == s
    decreases |s|
  {
    if |s| >= |pat| {
      assert !OccursAt(s, pat, 0);
      assert s[0..0 + |pat|] == s[..|pat|];
      assert !Occurs(s[1..], pat) by {
        if k :| OccursAt(s[1..], pat, k) {
          assert s[k + 1..k + 1 + |pat|] == s[1..][k..k + |pat|];
          assert OccursAt(s, pat, k + 1);
        }
      }
      ReplaceAllAbsent(s[1..], pat, rep);
    }
  }

  /** When the replacement is longer than the pattern, each occurrence
      lengthens the string, so a string that holds the pattern changes. */
  lemma {:induction false} ReplaceAllLengthens(s: string, pat: string, rep: string)
    requires 0 < |pat| < |rep|
    ensures |ReplaceAll(s, pat, rep)| >= |s|
    ensures Occurs(s, pat) ==> |ReplaceAll(s, pat, rep)| > |s|
    decreases |s|
  {
    if |s| >= |pat| {
      if s[..|pat|] == pat {
        ReplaceAllLengthens(s[|pat|..], pat, rep);
      } else {
        ReplaceAllLengthens(s[1..], pat, rep);
        if Occurs(s, pat) {
          var k :| 0 <= k <= |s| - |pat| && OccursAt(s, pat, k);
          assert k != 0 by { assert s[0..0 + |pat|] == s[..|pat|]; }
          assert s[1..][k - 1..k - 1 + |pat|] == s[k..k + |pat|];
          assert OccursAt(s[1..], pat, k - 1);
        }
      }
    }
  }

  /** Decimal digits of a natural number, as Python's str() / `{:d}`. */
  function DecimalString(n: nat): (r: string)
    ensures |r| >= 1
    ensures forall i :: 0 <= i < |r| ==> '0' <= r[i] <= '9'
    decreases n
  {
    if n < 10 then [DigitChar(n)] else DecimalString(n / 10) + [DigitChar(n % 10)]
  }

  predicate AllDigits(s: string)
  {
    forall i :: 0 <= i < |s| ==> '0' <= s[i] <= '9'
  }

  /** A run of decimal digits read as a number, as Python's int(). */
  function DigitsValue(s: string): nat
    requires AllDigits(s)
    decreases |s|
  {
    if |s| == 0 then 0
    else 10 * DigitsValue(s[..|s| - 1]) + ((s[|s| - 1] as int) - ('0' as int))
  }

  /** Reading back the decimal digits of a number gives the number. */
  lemma {:induction false} DigitsValueOfDecimal(n: nat)
    ensures AllDigits(DecimalString(n)) && DigitsValue(DecimalString(n)) == n
    decreases n
  {
    var r := DecimalString(n);
    if n >= 10 {
      assert r[..|r| - 1] == DecimalString(n / 10);
      DigitsValueOfDecimal(n / 10);
    }
  }

  function DigitChar(d: nat): (c: char)
    requires d < 10
    ensures '0' <= c <= '9' && (c as int) - ('0' as int) == d
  {
    (('0' as int) + d) as char
  }

  /** `f"{n:02d}"`: at least two digits, zero-padded. */
  function Pad2(n: nat): string
  {
    if n < 10 then ['0', DigitChar(n)] else DecimalString(n)
  }

  // ---------------------------------------------------------------------
  // Python slicing

  /** Python's normalisation of one slice bound against a sequence of length
      `len`: a negative bound counts from the end, then it is clamped to
      [0, len]. */
  function SliceBound(b: int, len: nat): (r: nat)
    ensures r <= len
  {
    if b < 0 then (if b + len < 0 then 0 else b + len)
    else if b > len then len
    else b
  }

  /** The number of elements `xs[start:stop]` yields when `|xs| == len` (also
      the number of rows or columns a numpy slice yields on that axis). */
  function SliceLength(len: nat, start: int, stop: int): (r: nat)
    ensures r <= len
  {
    var a := SliceBound(start, len);
    var b := SliceBound(stop, len);
    if a < b then b - a else 0
  }
}

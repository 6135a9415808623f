/**
 * Character classes, greedy runs, `str.rstrip` with one character, and the decimal
 * conversions `int(digits)` and `f"{n}"` that the report notifier relies on.
 */
module TextUtil {

  /** `w` occurs in `s` starting at index `i`. */
  predicate OccursAt(s: string, i: nat, w: string) {
    i + |w| <= |s| && s[i..i + |w|] == w
  }

  /** An occurrence of `a + b` is an occurrence of `a` followed directly by one of `b`. */
  lemma OccursAtAppend(s: string, i: nat, a: string, b: string)
    ensures OccursAt(s, i, a + b) <==> OccursAt(s, i, a) && OccursAt(s, i + |a|, b)
  {
    if i + |a| + |b| <= |s| {
      var x, y := s[i..i + |a|], s[i + |a|..i + |a| + |b|];
      assert s[i..i + |a| + |b|] == x + y;
      if x + y == a + b {
        assert x == (a + b)[..|a|] == a;
        assert y == (a + b)[|a|..] == b;
      }
    }
  }

  /** Every slice of `s` occurs where it was cut. */
  lemma OccursAtSlice(s: string, i: nat, j: nat)
    requires i <= j <= |s|
    ensures OccursAt(s, i, s[i..j])
  {
  }

  /** A character of `s` occurs, as a one-character word, at its index. */
  lemma OccursAtChar(s: string, i: nat)
    requires i < |s|
    ensures OccursAt(s, i, [s[i]])
  {
    assert s[i..i + 1] == [s[i]];
  }

  /** The characters of an occurrence are those of the word. */
  lemma OccursAtIndex(s: string, i: nat, w: string)
    requires OccursAt(s, i, w)
    ensures forall k :: 0 <= k < |w| ==> s[i + k] == w[k]
  {
    forall k | 0 <= k < |w|
      ensures s[i + k] == w[k]
    {
      assert s[i..i + |w|][k] == s[i + k];
    }
  }

  /** The regular-expression class `\d`, restricted to the ASCII digits. */
  predicate IsDigit(c: char) {
    '0' <= c <= '9'
  }

  /**
   * The regular-expression class `\s` on a Python `str`: the characters for which
   * `str.isspace()` holds.
   */
  predicate IsSpace(c: char) {
    ('\t' <= c <= '\r') || ('\U{1C}' <= c <= '\U{1F}') || c == ' ' ||
    c == '\U{85}' || c == '\U{A0}' || c == '\U{1680}' ||
    ('\U{2000}' <= c <= '\U{200A}') || c == '\U{2028}' || c == '\U{2029}' ||
    c == '\U{202F}' || c == '\U{205F}' || c == '\U{3000}'
  }

  predicate AllDigits(s: string) {
    forall k :: 0 <= k < |s| ==> IsDigit(s[k])
  }

  predicate AllSpaces(s: string) {
    forall k {:trigger IsSpace(s[k])} :: 0 <= k < |s| ==> IsSpace(s[k])
  }

  /** `s` does not contain `c`. */
  predicate Avoids(s: string, c: char) {
    forall k :: 0 <= k < |s| ==> s[k] != c
  }

  /** Where a greedy `\d*` (or `\d+`) that begins at `i` stops. */
  function DigitsEnd(s: string, i: nat): (r: nat)
    requires i <= |s|
    ensures i <= r <= |s|
    ensures forall k :: i <= k < r ==> IsDigit(s[k])
    ensures r == |s| || !IsDigit(s[r])
    decreases |s| - i
  {
    if i == |s| || !IsDigit(s[i]) then i else DigitsEnd(s, i + 1)
  }

  /** Where a greedy `\s*` that begins at `i` stops. */
  function SpacesEnd(s: string, i: nat): (r: nat)
    requires i <= |s|
    ensures i <= r <= |s|
    ensures forall k {:trigger IsSpace(s[k])} :: i <= k < r ==> IsSpace(s[k])
    ensures r == |s| || !IsSpace(s[r])
    decreases |s| - i
  {
    if i == |s| || !IsSpace(s[i]) then i else SpacesEnd(s, i + 1)
  }

  /**
   * The first index at or after `i` that holds `c`, or `|s|`: where a greedy `[^c]*`
   * that begins at `i` stops.
   */
  function IndexOf(s: string, i: nat, c: char): (r: nat)
    requires i <= |s|
    ensures i <= r <= |s|
    ensures forall k :: i <= k < r ==> s[k] != c
    ensures r == |s| || s[r] == c
    decreases |s| - i
  {
    if i == |s| || s[i] == c then i else IndexOf(s, i + 1, c)
  }

  /** A run of digits that begins at `i` and ends at `r` before a non-digit is where `DigitsEnd` stops. */
  lemma DigitsEndAt(s: string, i: nat, r: nat)
    requires i <= r <= |s|
    requires forall k :: i <= k < r ==> IsDigit(s[k])
    requires r == |s| || !IsDigit(s[r])
    ensures DigitsEnd(s, i) == r
  {
  }

  /** A run of white space that begins at `i` and ends at `r` before a non-space is where `SpacesEnd` stops. */
  lemma SpacesEndAt(s: string, i: nat, r: nat)
    requires i <= r <= |s|
    requires forall k {:trigger IsSpace(s[k])} :: i <= k < r ==> IsSpace(s[k])
    requires r == |s| || !IsSpace(s[r])
    ensures SpacesEnd(s, i) == r
  {
  }

  /** A non-empty occurrence starts with the word's first character. */
  lemma OccursAtFirst(s: string, i: nat, w: string)
    requires OccursAt(s, i, w) && w != []
    ensures i < |s| && s[i] == w[0]
  {
    assert s[i..i + |w|][0] == s[i];
  }

  /** Over an occurrence of white space `ws` followed by a non-space, `\s*` stops right after `ws`. */
  lemma SpacesEndOver(s: string, i: nat, ws: string)
    requires AllSpaces(ws) && OccursAt(s, i, ws)
    requires i + |ws| < |s| && !IsSpace(s[i + |ws|])
    ensures SpacesEnd(s, i) == i + |ws|
  {
    OccursAtIndex(s, i, ws);
    forall k | i <= k < i + |ws|
      ensures IsSpace(s[k])
    {
      assert s[k] == ws[k - i];
    }
    SpacesEndAt(s, i, i + |ws|);
  }

  /** Over an occurrence of a text `t` free of `c` followed by a `c`, the first `c` is right after `t`. */
  lemma IndexOfOver(s: string, i: nat, c: char, t: string)
    requires Avoids(t, c) && OccursAt(s, i, t)
    requires i + |t| < |s| && s[i + |t|] == c
    ensures IndexOf(s, i, c) == i + |t| && s[i..i + |t|] == t
  {
    OccursAtIndex(s, i, t);
    forall k | i <= k < i + |t|
      ensures s[k] != c
    {
      assert s[k] == t[k - i];
    }
    IndexOfAt(s, i, c, i + |t|);
  }

  /** The run `SpacesEnd` skips is all white space. */
  lemma SpacesEndRun(s: string, i: nat)
    requires i <= |s|
    ensures AllSpaces(s[i..SpacesEnd(s, i)])
  {
    var r := SpacesEnd(s, i);
    forall k | 0 <= k < r - i
      ensures IsSpace(s[i..r][k])
    {
      assert s[i..r][k] == s[i + k];
    }
  }

  /** The run `IndexOf` skips does not contain `c`. */
  lemma IndexOfRun(s: string, i: nat, c: char)
    requires i <= |s|
    ensures Avoids(s[i..IndexOf(s, i, c)], c)
  {
    var r := IndexOf(s, i, c);
    forall k | 0 <= k < r - i
      ensures s[i..r][k] != c
    {
      assert s[i..r][k] == s[i + k];
    }
  }

  /** The first `c` at or after `i` is where `IndexOf` stops. */
  lemma IndexOfAt(s: string, i: nat, c: char, r: nat)
    requires i <= r <= |s|
    requires forall k :: i <= k < r ==> s[k] != c
    requires r == |s| || s[r] == c
    ensures IndexOf(s, i, c) == r
  {
  }

  /** `s.rstrip(c)`: `s` without every trailing occurrence of `c`. */
  function RStrip(s: string, c: char): (r: string)
    ensures r <= s
    ensures r == [] || r[|r| - 1] != c
    ensures forall k :: |r| <= k < |s| ==> s[k] == c
    decreases |s|
  {
    if s != [] && s[|s| - 1] == c then RStrip(s[..|s| - 1], c) else s
  }

  /** The three properties of `RStrip` single out its result among all prefixes of `s`. */
  lemma RStripUnique(s: string, c: char, r: string)
    requires r <= s
    requires r == [] || r[|r| - 1] != c
    requires forall k :: |r| <= k < |s| ==> s[k] == c
    ensures r == RStrip(s, c)
  {
  }

  /** Stripping twice strips nothing more. */
  lemma RStripIdempotent(s: string, c: char)
    ensures RStrip(RStrip(s, c), c) == RStrip(s, c)
  {
    var t := RStrip(s, c);
    RStripUnique(t, c, t);
  }

  /** Stripping `c` from `b` followed by any number of `c`s gives `b` back, when `b` does not end in `c`. */
  lemma RStripPadded(b: string, c: char, n: nat)
    requires b == [] || b[|b| - 1] != c
    ensures RStrip(b + seq(n, _ => c), c) == b
  {
    var s := b + seq(n, _ => c);
    assert s[..|b|] == b;
    RStripUnique(s, c, b);
  }

  function DigitValue(c: char): (v: nat)
    requires IsDigit(c)
    ensures v < 10
  {
    c as int - '0' as int
  }

  function DigitChar(d: nat): (c: char)
    requires d < 10
    ensures IsDigit(c) && DigitValue(c) == d
  {
    ('0' as int + d) as char
  }

  /** `int(ds)` for a string of decimal digits. */
  function ParseDecimal(ds: string): nat
    requires AllDigits(ds)
    decreases |ds|
  {
    if ds == [] then 0 else ParseDecimal(ds[..|ds| - 1]) * 10 + DigitValue(ds[|ds| - 1])
  }

  /** `d` is written the way `f"{n}"` writes a count: one or more digits, with no leading zero. */
  predicate Canonical(d: string) {
    d != [] && AllDigits(d) && (|d| > 1 ==> d[0] != '0')
  }

  /** `f"{n}"` for a non-negative integer: its canonical decimal digits. */
  function ShowNat(n: nat): (s: string)
    ensures |s| >= 1 && AllDigits(s)
    ensures |s| > 1 ==> s[0] != '0'
    ensures n < 10 <==> |s| == 1
    decreases n
  {
    if n < 10 then [DigitChar(n)] else ShowNat(n / 10) + [DigitChar(n % 10)]
  }

  /** `f"{n}"` for any integer. */
  function ShowInt(n: int): string {
    if n < 0 then "-" + ShowNat(-n) else ShowNat(n)
  }

  /** Reading back what `ShowNat` writes gives the number: `int(f"{n}") == n`. */
  lemma {:induction false} ParseShow(n: nat)
    ensures ParseDecimal(ShowNat(n)) == n
    decreases n
  {
    var s := ShowNat(n);
    if n >= 10 {
      ParseShow(n / 10);
      assert s[..|s| - 1] == ShowNat(n / 10);
    }
  }

  /** A digit string that does not start with `0` denotes a positive number. */
  lemma {:induction false} ParsePositive(ds: string)
    requires AllDigits(ds) && ds != [] && ds[0] != '0'
    ensures ParseDecimal(ds) > 0
    decreases |ds|
  {
    if |ds| > 1 {
      ParsePositive(ds[..|ds| - 1]);
    }
  }

  /** Writing out what `int` read from a canonical digit string gives the string back. */
  lemma {:induction false} ShowParse(ds: string)
    requires AllDigits(ds) && ds != []
    requires |ds| > 1 ==> ds[0] != '0'
    ensures ShowNat(ParseDecimal(ds)) == ds
    decreases |ds|
  {
    var n := ParseDecimal(ds);
    var init := ds[..|ds| - 1];
    var last := ds[|ds| - 1];
    if |ds| == 1 {
      assert init == [];
      assert ShowNat(n) == [DigitChar(DigitValue(last))];
      assert DigitChar(DigitValue(last)) == last;
    } else {
      ParsePositive(init);
      ShowParse(init);
      assert n / 10 == ParseDecimal(init) && n % 10 == DigitValue(last);
      assert DigitChar(DigitValue(last)) == last;
      assert ds == init + [last];
    }
  }
}

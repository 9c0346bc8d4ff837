/**
 * The few JavaScript string built-ins the pipeline relies on, written out at the
 * character level: String.prototype.trim, a global single-character replace,
 * startsWith, split and the decimal rendering of an integer.
 */
module JsStrings {
  import opened Wrappers

  /** WhiteSpace and LineTerminator of ECMA-262: what `trim` removes and `\s` matches. */
  predicate IsJsSpace(c: char) {
    var n := c as int;
    n == 0x09 || n == 0x0A || n == 0x0B || n == 0x0C || n == 0x0D || n == 0x20
    || n == 0xA0 || n == 0x1680 || (0x2000 <= n <= 0x200A) || n == 0x2028
    || n == 0x2029 || n == 0x202F || n == 0x205F || n == 0x3000 || n == 0xFEFF
  }

  /** The number of whitespace characters at the start of `s`. */
  function LeadingSpace(s: string): (n: nat)
    ensures n <= |s|
    ensures forall k :: 0 <= k < n ==> IsJsSpace(s[k])
    ensures n < |s| ==> !IsJsSpace(s[n])
  {
    if s != [] && IsJsSpace(s[0]) then 1 + LeadingSpace(s[1..]) else 0
  }

  /** The number of whitespace characters at the end of `s`. */
  function TrailingSpace(s: string): (n: nat)
    ensures n <= |s|
    ensures forall k :: |s| - n <= k < |s| ==> IsJsSpace(s[k])
    ensures n < |s| ==> !IsJsSpace(s[|s| - 1 - n])
  {
    if s != [] && IsJsSpace(s[|s| - 1]) then 1 + TrailingSpace(s[..|s| - 1]) else 0
  }

  /** String.prototype.trim. */
  function Trim(s: string): (r: string)
    ensures |r| <= |s|
    ensures r != [] ==> !IsJsSpace(r[0]) && !IsJsSpace(r[|r| - 1])
    ensures r == [] <==> forall k :: 0 <= k < |s| ==> IsJsSpace(s[k])
    ensures forall c :: c in r ==> c in s
  {
    var t := s[LeadingSpace(s)..];
    var r := t[..|t| - TrailingSpace(t)];
    assert r != [] ==> r[0] == t[0] && r[|r| - 1] == t[|t| - 1 - TrailingSpace(t)];
    r
  }

  /**
   * Trim removes exactly the whitespace at the two ends: its result is the
   * slice of `s` that starts after the leading whitespace, and everything of
   * `s` after that slice is whitespace too.
   */
  lemma TrimIsInnerSlice(s: string)
    ensures var i := LeadingSpace(s);
            var r := Trim(s);
            && i + |r| <= |s|
            && r == s[i..i + |r|]
            && (forall k :: 0 <= k < i ==> IsJsSpace(s[k]))
            && (forall k :: i + |r| <= k < |s| ==> IsJsSpace(s[k]))
  {
    TrimSlice(s);
    TrimTrailing(s);
  }

  lemma TrimSlice(s: string)
    ensures LeadingSpace(s) + |Trim(s)| <= |s|
    ensures Trim(s) == s[LeadingSpace(s)..LeadingSpace(s) + |Trim(s)|]
  {
    var i := LeadingSpace(s);
    var t := s[i..];
    var n := TrailingSpace(t);
    assert Trim(s) == t[..|t| - n];
    assert t[..|t| - n] == s[i..i + (|t| - n)];
  }

  lemma TrimTrailing(s: string)
    ensures forall k :: LeadingSpace(s) + |Trim(s)| <= k < |s| ==> IsJsSpace(s[k])
  {
    var i := LeadingSpace(s);
    var t := s[i..];
    var n := TrailingSpace(t);
    assert |Trim(s)| == |t| - n;
    forall k | i + (|t| - n) <= k < |s| ensures IsJsSpace(s[k]) {
      assert s[k] == t[k - i];
    }
  }

  /** No whitespace at either end. */
  predicate Trimmed(s: string) {
    s != [] ==> !IsJsSpace(s[0]) && !IsJsSpace(s[|s| - 1])
  }

  /** Every item of a mapped trim is trimmed. */
  lemma TrimAllTrimmed(parts: seq<string>)
    ensures forall i :: 0 <= i < |parts| ==> Trimmed(TrimAll(parts)[i])
  {
  }

  /** A string with no whitespace at either end is its own trim. */
  lemma TrimKeeps(s: string)
    requires s != [] ==> !IsJsSpace(s[0]) && !IsJsSpace(s[|s| - 1])
    ensures Trim(s) == s
  {
    if s != [] {
      assert LeadingSpace(s) == 0;
      assert TrailingSpace(s) == 0;
    }
  }

  /** Trimming is idempotent: a trimmed string is its own trim. */
  lemma TrimIdempotent(s: string)
    ensures Trim(Trim(s)) == Trim(s)
  {
    var t := Trim(s);
    if t != [] {
      assert LeadingSpace(t) == 0;
      assert TrailingSpace(t) == 0;
    }
  }

  /**
   * `s.replace(new RegExp(c, 'g'), rep)` for a character `c` that is not a
   * regular-expression metacharacter: every `c` becomes `rep`.
   */
  function ReplaceChar(s: string, c: char, rep: string): (r: string)
    ensures c !in rep ==> c !in r
    ensures forall x :: x in r ==> (x in s && x != c) || x in rep
    ensures c !in s ==> r == s
  {
    if s == [] then [] else (if s[0] == c then rep else [s[0]]) + ReplaceChar(s[1..], c, rep)
  }

  /** Replacement works character by character, so it distributes over concatenation. */
  lemma {:induction false} ReplaceCharConcat(a: string, b: string, c: char, rep: string)
    ensures ReplaceChar(a + b, c, rep) == ReplaceChar(a, c, rep) + ReplaceChar(b, c, rep)
    decreases |a|
  {
    if a == [] {
      assert a + b == b;
    } else {
      assert (a + b)[0] == a[0];
      assert (a + b)[1..] == a[1..] + b;
      ReplaceCharConcat(a[1..], b, c, rep);
    }
  }

  /** The characters of `s` other than `c` survive a replacement. */
  lemma {:induction false} ReplaceCharKeeps(s: string, c: char, rep: string, x: char)
    requires x in s && x != c
    ensures x in ReplaceChar(s, c, rep)
  {
    if s[0] != x {
      ReplaceCharKeeps(s[1..], c, rep, x);
    }
  }

  /** String.prototype.startsWith. */
  predicate StartsWith(s: string, prefix: string) {
    |prefix| <= |s| && s[..|prefix|] == prefix
  }

  /** The position of the first `c` in `s`, or |s| when there is none. */
  function FirstIndex(s: string, c: char): (i: nat)
    ensures i <= |s|
    ensures forall k :: 0 <= k < i ==> s[k] != c
    ensures i < |s| ==> s[i] == c
  {
    if s == [] then 0 else if s[0] == c then 0 else 1 + FirstIndex(s[1..], c)
  }

  /** The first `c` in `a + [c] + b` is the one right after `a` when `a` holds none. */
  lemma FirstIndexAfter(a: string, c: char, b: string)
    requires c !in a
    ensures FirstIndex(a + [c] + b, c) == |a|
  {
    var s := a + [c] + b;
    assert s[|a|] == c;
  }

  /**
   * String.prototype.split with a string separator. A non-empty separator
   * is searched leftmost-first; the empty separator splits into characters.
   */
  function Split(s: string, sep: string): (parts: seq<string>)
    ensures sep != "" ==> |parts| >= 1
    decreases |s|
  {
    if sep == "" then seq(|s|, i requires 0 <= i < |s| => [s[i]])
    else if |s| < |sep| then [s]
    else if s[..|sep|] == sep then [""] + Split(s[|sep|..], sep)
    else
      var rest := Split(s[1..], sep);
      [[s[0]] + rest[0]] + rest[1..]
  }

  /** `sep` occurs in `s` at position `k`. */
  predicate OccursAt(s: string, sep: string, k: nat) {
    k + |sep| <= |s| && s[k..k + |sep|] == sep
  }

  /**
   * The parts are cut at leftmost occurrences: no part contains the separator,
   * and no occurrence starts inside a part and runs into the separator that
   * ends it.
   */
  predicate Leftmost(parts: seq<string>, sep: string) {
    && (forall i: int, k: nat :: 0 <= i < |parts| && k < |parts[i]| ==> !OccursAt(parts[i], sep, k))
    && (forall i: int, k: nat :: 0 <= i < |parts| - 1 && k < |parts[i]| ==> !OccursAt(parts[i] + sep, sep, k))
  }

  /** Split cuts at the leftmost occurrences; with SplitJoin this determines the parts. */
  lemma {:induction false} SplitLeftmost(s: string, sep: string)
    requires sep != ""
    ensures Leftmost(Split(s, sep), sep)
    decreases |s|
  {
    if |s| < |sep| {
      assert Split(s, sep) == [s];
    } else if s[..|sep|] == sep {
      SplitLeftmost(s[|sep|..], sep);
      LeftmostAfterSep(Split(s[|sep|..], sep), sep);
    } else {
      var rest := Split(s[1..], sep);
      SplitLeftmost(s[1..], sep);
      SplitJoin(s[1..], sep);
      assert s == [s[0]] + Join(rest, sep);
      LeftmostGrow(s[0], rest, sep);
    }
  }

  /** A separator found at the front contributes an empty part. */
  lemma LeftmostAfterSep(rest: seq<string>, sep: string)
    requires sep != "" && Leftmost(rest, sep)
    ensures Leftmost([""] + rest, sep)
  {
    var parts := [""] + rest;
    forall i: int, k: nat | 0 <= i < |parts| && k < |parts[i]| ensures !OccursAt(parts[i], sep, k) {
      if i > 0 { assert parts[i] == rest[i - 1]; }
    }
    forall i: int, k: nat | 0 <= i < |parts| - 1 && k < |parts[i]| ensures !OccursAt(parts[i] + sep, sep, k) {
      assert parts[i] == rest[i - 1];
    }
  }

  /** A character that does not start a separator joins the first part. */
  lemma LeftmostGrow(c: char, rest: seq<string>, sep: string)
    requires sep != "" && |rest| >= 1 && Leftmost(rest, sep)
    requires !OccursAt([c] + Join(rest, sep), sep, 0)
    ensures Leftmost([[c] + rest[0]] + rest[1..], sep)
  {
    var p0 := [c] + rest[0];
    var parts := [p0] + rest[1..];
    var whole := [c] + Join(rest, sep);
    // The first part, followed by the separator when another part comes, begins `whole`.
    var lead := if |rest| >= 2 then p0 + sep else p0;
    if |rest| >= 2 {
      assert Join(rest, sep) == rest[0] + sep + Join(rest[1..], sep);
      assert whole == lead + Join(rest[1..], sep);
    } else {
      assert whole == lead;
    }
    if |sep| <= |lead| {
      assert whole[..|sep|] == lead[..|sep|];
    }
    forall i: int, k: nat | 0 <= i < |parts| && k < |parts[i]| ensures !OccursAt(parts[i], sep, k) {
      if i > 0 {
        assert parts[i] == rest[i];
      } else if k == 0 {
        if |sep| <= |p0| {
          assert lead[..|sep|] == p0[..|sep|];
        }
      } else {
        OccursShift(c, rest[0], sep, k);
      }
    }
    forall i: int, k: nat | 0 <= i < |parts| - 1 && k < |parts[i]| ensures !OccursAt(parts[i] + sep, sep, k) {
      if i > 0 {
        assert parts[i] == rest[i];
      } else if k > 0 {
        assert p0 + sep == [c] + (rest[0] + sep);
        OccursShift(c, rest[0] + sep, sep, k);
      }
    }
  }

  lemma OccursShift(c: char, u: string, sep: string, k: nat)
    requires k >= 1
    ensures OccursAt([c] + u, sep, k) == OccursAt(u, sep, k - 1)
  {
    if k + |sep| <= |u| + 1 {
      assert ([c] + u)[k..k + |sep|] == u[k - 1..k - 1 + |sep|];
    }
  }

  /** Array.prototype.join with a separator. */
  function Join(parts: seq<string>, sep: string): string {
    if |parts| == 0 then ""
    else if |parts| == 1 then parts[0]
    else parts[0] + sep + Join(parts[1..], sep)
  }

  lemma JoinHead(a: string, b: string, tail: seq<string>, sep: string)
    ensures Join([a + b] + tail, sep) == a + Join([b] + tail, sep)
  {
    if |tail| > 0 {
      assert ([a + b] + tail)[1..] == tail;
      assert ([b] + tail)[1..] == tail;
    }
  }

  lemma JoinEmptyHead(rest: seq<string>, sep: string)
    requires |rest| >= 1
    ensures Join([""] + rest, sep) == sep + Join(rest, sep)
  {
    assert ([""] + rest)[1..] == rest;
  }

  /** Splitting and joining with the same non-empty separator gives the string back. */
  lemma {:induction false} SplitJoin(s: string, sep: string)
    requires sep != ""
    ensures Join(Split(s, sep), sep) == s
    decreases |s|
  {
    if |s| < |sep| {
    } else if s[..|sep|] == sep {
      var rest := Split(s[|sep|..], sep);
      SplitJoin(s[|sep|..], sep);
      JoinEmptyHead(rest, sep);
      assert s == sep + s[|sep|..];
    } else {
      var rest := Split(s[1..], sep);
      SplitJoin(s[1..], sep);
      JoinHead([s[0]], rest[0], rest[1..], sep);
      assert [rest[0]] + rest[1..] == rest;
      assert s == [s[0]] + s[1..];
    }
  }

  /** `.map(item => item.trim())`, item by item. */
  function TrimAll(parts: seq<string>): (r: seq<string>)
    ensures |r| == |parts|
    ensures forall i :: 0 <= i < |r| ==> r[i] == Trim(parts[i])
  {
    if parts == [] then [] else [Trim(parts[0])] + TrimAll(parts[1..])
  }

  predicate IsDigit(c: char) {
    '0' <= c <= '9'
  }

  predicate IsDigits(s: string) {
    |s| > 0 && forall k :: 0 <= k < |s| ==> IsDigit(s[k])
  }

  function DigitChar(d: nat): (c: char)
    requires d < 10
    ensures IsDigit(c) && (c as int) - ('0' as int) == d
  {
    ((d + '0' as int) as char)
  }

  /** The decimal digits of `n`, without leading zeros. */
  function NatToDecimal(n: nat): (r: string)
    ensures IsDigits(r)
  {
    if n < 10 then [DigitChar(n)] else NatToDecimal(n / 10) + [DigitChar(n % 10)]
  }

  /** The value of a string of decimal digits. */
  function DecimalValue(s: string): nat
    requires forall k :: 0 <= k < |s| ==> IsDigit(s[k])
  {
    if s == [] then 0
    else
      assert IsDigit(s[|s| - 1]);
      DecimalValue(s[..|s| - 1]) * 10 + ((s[|s| - 1] as int) - ('0' as int))
  }

  lemma {:induction false} NatDecimalRoundTrip(n: nat)
    ensures DecimalValue(NatToDecimal(n)) == n
  {
    if n >= 10 {
      NatDecimalRoundTrip(n / 10);
      var s := NatToDecimal(n);
      assert s[..|s| - 1] == NatToDecimal(n / 10);
    }
  }

  /** The template-literal rendering `${n}` of an integral JavaScript number. */
  function IntToDecimal(n: int): (r: string)
    ensures '_' !in r && '|' !in r
  {
    if n < 0 then "-" + NatToDecimal(-n) else NatToDecimal(n)
  }

  /** Reads back an optionally signed decimal integer. */
  function ParseInt(s: string): Option<int> {
    if IsDigits(s) then Some(DecimalValue(s))
    else if |s| > 1 && s[0] == '-' && IsDigits(s[1..]) then Some(0 - DecimalValue(s[1..]) as int)
    else None
  }

  lemma IntDecimalRoundTrip(n: int)
    ensures ParseInt(IntToDecimal(n)) == Some(n)
  {
    if n < 0 {
      var s := IntToDecimal(n);
      assert s[1..] == NatToDecimal(-n);
      assert !IsDigit(s[0]);
      NatDecimalRoundTrip(-n);
    } else {
      NatDecimalRoundTrip(n);
    }
  }
}

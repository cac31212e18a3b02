/** Option, as the JavaScript code uses `undefined`/`null` for "no value". */
module Wrappers {
  datatype Option<+T> = None | Some(value: T)
}

/**
 * String operations the component relies on: JavaScript's ASCII case
 * mapping, `String.prototype.split(",")` and `Array.prototype.join(",")`,
 * `substring`/`slice`, and the decimal rendering of a non-negative integer
 * that `"spe-particles" + this.emitterID` performs.
 */
module Text {

  // ---------------------------------------------------------------- case

  predicate IsUpperLetter(c: char) { 'A' <= c <= 'Z' }
  predicate IsLowerLetter(c: char) { 'a' <= c <= 'z' }

  /** `toLowerCase` on one character (ASCII letters only). */
  function LowerChar(c: char): (r: char)
    ensures !IsUpperLetter(r)
    ensures IsUpperLetter(c) ==> r as int == c as int + 32
    ensures !IsUpperLetter(c) ==> r == c
  {
    if IsUpperLetter(c) then (c as int + 32) as char else c
  }

  /** `toUpperCase` on one character (ASCII letters only). */
  function UpperChar(c: char): (r: char)
    ensures !IsLowerLetter(r)
    ensures IsLowerLetter(c) ==> r as int == c as int - 32
    ensures !IsLowerLetter(c) ==> r == c
  {
    if IsLowerLetter(c) then (c as int - 32) as char else c
  }

  function Lower(s: string): (r: string)
    ensures |r| == |s|
    ensures forall i :: 0 <= i < |s| ==> r[i] == LowerChar(s[i])
  {
    seq(|s|, i requires 0 <= i < |s| => LowerChar(s[i]))
  }

  function Upper(s: string): (r: string)
    ensures |r| == |s|
    ensures forall i :: 0 <= i < |s| ==> r[i] == UpperChar(s[i])
  {
    seq(|s|, i requires 0 <= i < |s| => UpperChar(s[i]))
  }

  /** No upper-case ASCII letter occurs in `s`. */
  predicate IsLowerCase(s: string) { forall i :: 0 <= i < |s| ==> !IsUpperLetter(s[i]) }

  /** No lower-case ASCII letter occurs in `s`. */
  predicate IsUpperCase(s: string) { forall i :: 0 <= i < |s| ==> !IsLowerLetter(s[i]) }

  /** `a` and `b` spell the same word if letter case is ignored. */
  predicate SameIgnoringCase(a: string, b: string)
  {
    |a| == |b| && forall i :: 0 <= i < |a| ==> LowerChar(a[i]) == LowerChar(b[i])
  }

  /** Lower-casing keeps the word and removes every capital; nothing else does both. */
  lemma LowerCharacterised(s: string, r: string)
    ensures r == Lower(s) <==> IsLowerCase(r) && SameIgnoringCase(r, s)
  {
    if IsLowerCase(r) && SameIgnoringCase(r, s) {
      forall i | 0 <= i < |s| ensures r[i] == Lower(s)[i] {
        assert LowerChar(r[i]) == r[i];
      }
    }
  }

  /** Upper-casing keeps the word and removes every small letter; nothing else does both. */
  lemma UpperCharacterised(s: string, r: string)
    ensures r == Upper(s) <==> IsUpperCase(r) && SameIgnoringCase(r, s)
  {
    if r == Upper(s) {
      forall i | 0 <= i < |s| ensures LowerChar(r[i]) == LowerChar(s[i]) {
        assert r[i] == UpperChar(s[i]);
      }
    }
    if IsUpperCase(r) && SameIgnoringCase(r, s) {
      forall i | 0 <= i < |s| ensures r[i] == Upper(s)[i] {
        assert LowerChar(r[i]) == LowerChar(s[i]);
      }
    }
  }

  lemma LowerIdempotent(s: string)
    ensures IsLowerCase(Lower(s))
    ensures Lower(Lower(s)) == Lower(s)
  {
  }

  lemma UpperIdempotent(s: string)
    ensures IsUpperCase(Upper(s))
    ensures Upper(Upper(s)) == Upper(s)
  {
  }

  lemma LowerAppend(a: string, b: string)
    ensures Lower(a + b) == Lower(a) + Lower(b)
  {
  }

  // ---------------------------------------------------------------- substring

  /**
   * `s.substring(start)`: a negative start counts as 0, one past the end
   * as the length.
   */
  function Substring(s: string, start: int): (r: string)
    ensures start <= 0 ==> r == s
    ensures 0 <= start <= |s| ==> r == s[start..]
    ensures |s| < start ==> r == []
  {
    var k := if start < 0 then 0 else if start > |s| then |s| else start;
    s[k..]
  }

  /** `s.slice(0, -n)` for `n > 0`: drops the last `n` characters, or all of them. */
  function DropLast(s: string, n: nat): (r: string)
    ensures n <= |s| ==> r == s[..|s| - n]
    ensures |s| < n ==> r == []
  {
    if n <= |s| then s[..|s| - n] else []
  }

  // ---------------------------------------------------------------- split / join

  /** Number of occurrences of `c` in `s`. */
  function Count(s: string, c: char): nat
  {
    if s == [] then 0 else (if s[0] == c then 1 else 0) + Count(s[1..], c)
  }

  /**
   * `s.split(",")`: the segments between commas, in order; the empty string
   * gives one empty segment and every comma starts a new one.
   */
  function Split(s: string): (r: seq<string>)
    ensures |r| == Count(s, ',') + 1
    ensures forall i :: 0 <= i < |r| ==> ',' !in r[i]
  {
    if s == [] then [[]]
    else
      var rest := Split(s[1..]);
      if s[0] == ',' then [[]] + rest
      else [[s[0]] + rest[0]] + rest[1..]
  }

  /** `segments.join(",")`. */
  function Join(segments: seq<string>): (r: string)
  {
    if segments == [] then []
    else if |segments| == 1 then segments[0]
    else segments[0] + [','] + Join(segments[1..])
  }

  /** Joining the segments of a split gives the original string back. */
  lemma {:induction false} JoinSplit(s: string)
    ensures Join(Split(s)) == s
  {
    if s != [] {
      var rest := Split(s[1..]);
      JoinSplit(s[1..]);
      if s[0] == ',' {
        assert Split(s) == [[]] + rest;
        assert Join(Split(s)) == [] + [','] + Join(rest);
      } else {
        assert Split(s) == [[s[0]] + rest[0]] + rest[1..];
        if |rest| == 1 {
          assert Join(Split(s)) == [s[0]] + rest[0];
          assert Join(rest) == rest[0];
        } else {
          assert Join(Split(s)) == [s[0]] + rest[0] + [','] + Join(rest[1..]);
          assert Join(rest) == rest[0] + [','] + Join(rest[1..]);
        }
        assert s == [s[0]] + s[1..];
      }
    }
  }

  /** A comma-free prefix joins the first segment of what follows it. */
  lemma {:induction false} SplitPrefix(a: string, s: string)
    requires ',' !in a
    ensures Split(a + s) == [a + Split(s)[0]] + Split(s)[1..]
  {
    if a != [] {
      assert (a + s)[1..] == a[1..] + s;
      assert (a + s)[0] == a[0];
      SplitPrefix(a[1..], s);
      var rest := Split(a[1..] + s);
      assert a[0] != ',';
      assert Split(a + s) == [[a[0]] + rest[0]] + rest[1..];
      assert rest[1..] == Split(s)[1..];
      assert [a[0]] + rest[0] == [a[0]] + (a[1..] + Split(s)[0]) == a + Split(s)[0];
    } else {
      var r := Split(s);
      assert a + s == s;
      assert a + r[0] == r[0];
      assert r == [r[0]] + r[1..];
    }
  }

  /** Splitting a join of comma-free segments gives the segments back. */
  lemma {:induction false} SplitJoin(segments: seq<string>)
    requires |segments| >= 1
    requires forall i :: 0 <= i < |segments| ==> ',' !in segments[i]
    ensures Split(Join(segments)) == segments
  {
    if |segments| == 1 {
      SplitPrefix(segments[0], []);
      assert segments[0] + [] == segments[0];
    } else {
      var tail := Join(segments[1..]);
      SplitJoin(segments[1..]);
      assert ([','] + tail)[1..] == tail;
      assert Split([','] + tail) == [[]] + Split(tail);
      assert segments[0] + [] == segments[0];
      assert segments[0] + [','] + tail == segments[0] + ([','] + tail);
      SplitPrefix(segments[0], [','] + tail);
      assert segments == [segments[0]] + segments[1..];
    }
  }

  // ---------------------------------------------------------------- decimal

  predicate IsDigit(c: char) { '0' <= c <= '9' }

  predicate AllDigits(s: string) { forall i :: 0 <= i < |s| ==> IsDigit(s[i]) }

  function DigitChar(d: nat): (c: char)
    requires d < 10
    ensures IsDigit(c) && c as int - '0' as int == d
  {
    ('0' as int + d) as char
  }

  /** The decimal numeral JavaScript prints for a non-negative integer. */
  function DecimalString(n: nat): (r: string)
    ensures |r| >= 1 && AllDigits(r)
    ensures n < 10 ==> |r| == 1
    ensures n >= 10 ==> r[0] != '0'
  {
    if n < 10 then [DigitChar(n)] else DecimalString(n / 10) + [DigitChar(n % 10)]
  }

  /** The value of a string of decimal digits. */
  function DecimalValue(s: string): nat
    requires AllDigits(s)
  {
    if s == [] then 0 else DecimalValue(s[..|s| - 1]) * 10 + (s[|s| - 1] as int - '0' as int)
  }

  /** Reading back a printed numeral gives the number. */
  lemma {:induction false} DecimalRoundTrip(n: nat)
    ensures DecimalValue(DecimalString(n)) == n
  {
    if n >= 10 {
      var s := DecimalString(n);
      DecimalRoundTrip(n / 10);
      assert s[..|s| - 1] == DecimalString(n / 10);
    }
  }

  /** Different numbers print differently. */
  lemma DecimalInjective(a: nat, b: nat)
    ensures DecimalString(a) == DecimalString(b) <==> a == b
  {
    DecimalRoundTrip(a);
    DecimalRoundTrip(b);
  }
}

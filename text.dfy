/** The string operations the source relies on: `String(n)` of an integer,
    `Array.prototype.join`, `String.prototype.replace` with a global
    one-character pattern, and `padStart`. */
module Text {

  predicate IsDigit(c: char) {
    '0' <= c <= '9'
  }

  function DigitChar(d: int): (c: char)
    requires 0 <= d < 10
    ensures IsDigit(c)
  {
    "0123456789"[d]
  }

  /** Decimal digits of a natural number, without leading zeros. */
  function NatString(n: nat): (s: string)
    ensures |s| >= 1
    ensures n >= 10 ==> |s| >= 2
    decreases n
  {
    if n < 10 then [DigitChar(n)] else NatString(n / 10) + [DigitChar(n % 10)]
  }

  /** Every character of `NatString(n)` is a digit. */
  lemma {:induction false} NatStringDigits(n: nat)
    ensures forall i :: 0 <= i < |NatString(n)| ==> IsDigit(NatString(n)[i])
    decreases n
  {
    if n >= 10 {
      NatStringDigits(n / 10);
      var s := NatString(n / 10);
      assert NatString(n) == s + [DigitChar(n % 10)];
      assert forall i :: 0 <= i < |s| ==> NatString(n)[i] == s[i];
    }
  }

  /** JavaScript's `String(n)` for an integer `n`. */
  function NumberString(n: int): (s: string)
    ensures |s| >= 1
    ensures n < 0 ==> s[0] == '-' && s[1..] == NatString(-n)
    ensures n >= 0 ==> s == NatString(n)
  {
    if n < 0 then "-" + NatString(-n) else NatString(n)
  }

  /** `String(n)` is made of digits and '-', and starts with a digit iff
      n >= 0. */
  lemma NumberStringChars(n: int)
    ensures forall i :: 0 <= i < |NumberString(n)| ==> IsDigit(NumberString(n)[i]) || NumberString(n)[i] == '-'
    ensures n >= 0 <==> IsDigit(NumberString(n)[0])
  {
    var m := if n < 0 then -n else n;
    NatStringDigits(m);
    if n < 0 {
      assert forall i :: 1 <= i < |NumberString(n)| ==> NumberString(n)[i] == NatString(m)[i - 1];
    }
  }

  lemma DigitCharInjective(a: int, b: int)
    requires 0 <= a < 10 && 0 <= b < 10
    requires DigitChar(a) == DigitChar(b)
    ensures a == b
  {
  }

  lemma {:induction false} NatStringInjective(a: nat, b: nat)
    requires NatString(a) == NatString(b)
    ensures a == b
    decreases a
  {
    if a < 10 && b < 10 {
      DigitCharInjective(a, b);
    } else if a >= 10 && b >= 10 {
      var sa, sb := NatString(a / 10), NatString(b / 10);
      assert NatString(a) == sa + [DigitChar(a % 10)];
      assert NatString(b) == sb + [DigitChar(b % 10)];
      assert |sa| == |sb|;
      assert sa == NatString(a)[..|sa|] && sb == NatString(b)[..|sb|];
      NatStringInjective(a / 10, b / 10);
      assert NatString(a)[|sa|] == DigitChar(a % 10) && NatString(b)[|sb|] == DigitChar(b % 10);
      DigitCharInjective(a % 10, b % 10);
    }
  }

  /** Different integers have different decimal strings. */
  lemma NumberStringInjective(a: int, b: int)
    requires NumberString(a) == NumberString(b)
    ensures a == b
  {
    NumberStringChars(a);
    NumberStringChars(b);
    if a < 0 && b < 0 {
      assert NatString(-a) == NumberString(a)[1..];
      assert NatString(-b) == NumberString(b)[1..];
      NatStringInjective(-a, -b);
    } else if a >= 0 && b >= 0 {
      NatStringInjective(a, b);
    }
  }

  /** `nums.join(sep)`, each number printed with `String(n)`. */
  function JoinNumbers(nums: seq<int>, sep: char): string
  {
    if |nums| == 0 then ""
    else if |nums| == 1 then NumberString(nums[0])
    else NumberString(nums[0]) + [sep] + JoinNumbers(nums[1..], sep)
  }

  /** The joins the source also writes as template strings. */
  lemma JoinOne(a: int, sep: char)
    ensures JoinNumbers([a], sep) == NumberString(a)
  {
  }

  lemma JoinTwo(a: int, b: int, sep: char)
    ensures JoinNumbers([a, b], sep) == NumberString(a) + [sep] + NumberString(b)
  {
    assert [a, b][1..] == [b];
  }

  lemma JoinThree(a: int, b: int, c: int, sep: char)
    ensures JoinNumbers([a, b, c], sep) == NumberString(a) + [sep] + NumberString(b) + [sep] + NumberString(c)
  {
    assert [a, b, c][1..] == [b, c];
    JoinTwo(b, c, sep);
  }

  /** A join of two or more numbers contains the separator. */
  lemma JoinContainsSeparator(nums: seq<int>, sep: char)
    requires |nums| >= 2
    ensures sep in JoinNumbers(nums, sep)
  {
    var s := JoinNumbers(nums, sep);
    assert s[|NumberString(nums[0])|] == sep;
  }

  /** A join with a separator that cannot occur in a number never contains
      that separator when at most one number is joined. */
  lemma {:induction false} JoinOfSeparatorFree(nums: seq<int>, sep: char)
    requires !IsDigit(sep) && sep != '-'
    ensures sep in JoinNumbers(nums, sep) <==> |nums| >= 2
  {
    if |nums| >= 2 {
      JoinContainsSeparator(nums, sep);
    } else if |nums| == 1 {
      NumberStringChars(nums[0]);
    }
  }

  /** Position of the first `c` in `s`, or `|s|` when there is none. */
  function IndexOf(s: string, c: char): nat
  {
    if s == [] then 0 else if s[0] == c then 0 else 1 + IndexOf(s[1..], c)
  }

  lemma {:induction false} SeparatorIndex(x: string, rest: string, c: char)
    requires c !in x
    ensures IndexOf(x + [c] + rest, c) == |x|
  {
    if x != [] {
      assert (x + [c] + rest)[1..] == x[1..] + [c] + rest;
      SeparatorIndex(x[1..], rest, c);
    }
  }

  /** `join` with a separator that no number contains is injective: the joined
      string determines the numbers. */
  lemma {:induction false} JoinNumbersInjective(a: seq<int>, b: seq<int>, sep: char)
    requires !IsDigit(sep) && sep != '-'
    requires JoinNumbers(a, sep) == JoinNumbers(b, sep)
    ensures a == b
    decreases |a|
  {
    JoinOfSeparatorFree(a, sep);
    JoinOfSeparatorFree(b, sep);
    if |a| == 1 {
      NumberStringInjective(a[0], b[0]);
    } else if |a| >= 2 {
      var x, y := NumberString(a[0]), NumberString(b[0]);
      NumberStringChars(a[0]);
      NumberStringChars(b[0]);
      var s := JoinNumbers(a, sep);
      assert s == x + [sep] + JoinNumbers(a[1..], sep);
      assert s == y + [sep] + JoinNumbers(b[1..], sep);
      SeparatorIndex(x, JoinNumbers(a[1..], sep), sep);
      SeparatorIndex(y, JoinNumbers(b[1..], sep), sep);
      assert x == s[..|x|] && y == s[..|y|];
      NumberStringInjective(a[0], b[0]);
      assert JoinNumbers(a[1..], sep) == s[|x| + 1..] == JoinNumbers(b[1..], sep);
      JoinNumbersInjective(a[1..], b[1..], sep);
      assert a == [a[0]] + a[1..] && b == [b[0]] + b[1..];
    }
  }

  /** `s.replace(/from/g, to)` for a one-character pattern. */
  function ReplaceAll(s: string, from: char, to: char): (r: string)
    ensures |r| == |s|
    ensures forall i :: 0 <= i < |s| ==> r[i] == (if s[i] == from then to else s[i])
  {
    if s == [] then [] else [if s[0] == from then to else s[0]] + ReplaceAll(s[1..], from, to)
  }

  /** After replacing every `from` by a different character none is left;
      replacing a character by itself changes nothing. */
  lemma ReplaceAllEffect(s: string, from: char, to: char)
    ensures from != to ==> from !in ReplaceAll(s, from, to)
    ensures from == to ==> ReplaceAll(s, from, to) == s
  {
  }

  function Repeat(c: char, n: nat): (r: string)
    ensures |r| == n && forall i :: 0 <= i < n ==> r[i] == c
  {
    if n == 0 then "" else [c] + Repeat(c, n - 1)
  }

  /** `s.padStart(width, fill)` with a one-character fill. */
  function PadStart(s: string, width: nat, fill: char): (r: string)
    ensures |r| == if |s| >= width then |s| else width
    ensures |s| >= width ==> r == s
    ensures |s| < width ==> r == Repeat(fill, width - |s|) + s
  {
    if |s| >= width then s else Repeat(fill, width - |s|) + s
  }

  /** A character that UTF-16 encodes as a surrogate pair. */
  predicate Astral(c: char) {
    c as int >= 0x1_0000
  }

  /** `s.length`: JavaScript counts UTF-16 code units, so a character above
      U+FFFF counts twice. */
  function Utf16Length(s: string): (n: nat)
    ensures |s| <= n <= 2 * |s|
  {
    if s == [] then 0 else (if Astral(s[0]) then 2 else 1) + Utf16Length(s[1..])
  }

  /** Without astral characters the two lengths agree. */
  lemma {:induction false} Utf16LengthOfBmp(s: string)
    requires forall i :: 0 <= i < |s| ==> !Astral(s[i])
    ensures Utf16Length(s) == |s|
  {
    if s != [] {
      assert forall i :: 0 <= i < |s[1..]| ==> s[1..][i] == s[i + 1];
      Utf16LengthOfBmp(s[1..]);
    }
  }

  /** Each astral character adds one unit over the character count. */
  lemma {:induction false} Utf16LengthOfAstral(s: string)
    requires forall i :: 0 <= i < |s| ==> Astral(s[i])
    ensures Utf16Length(s) == 2 * |s|
  {
    if s != [] {
      assert forall i :: 0 <= i < |s[1..]| ==> s[1..][i] == s[i + 1];
      Utf16LengthOfAstral(s[1..]);
    }
  }

  /** Three emoji are three characters but six UTF-16 units. */
  lemma Utf16LengthExample()
    ensures |"\U{1F600}\U{1F600}\U{1F600}"| == 3 && Utf16Length("\U{1F600}\U{1F600}\U{1F600}") == 6
  {
    Utf16LengthOfAstral("\U{1F600}\U{1F600}\U{1F600}");
  }
}

/** The string operations of the Go standard library the agent relies on. */
module Text {
  import opened Results

  // ---- white space -------------------------------------------------------

  /** White space as Go's unicode.IsSpace defines it. */
  predicate IsSpace(c: char)
  {
    var u := c as int;
    9 <= u <= 13 || u == 0x20 || u == 0x85 || u == 0xA0 || u == 0x1680 || 0x2000 <= u <= 0x200A
    || u == 0x2028 || u == 0x2029 || u == 0x202F || u == 0x205F || u == 0x3000
  }

  predicate Trimmed(s: string)
  {
    s != "" ==> !IsSpace(s[0]) && !IsSpace(s[|s| - 1])
  }

  /** Position of the first character from i on that is not white space, or |s|. */
  function SkipSpace(s: string, i: nat): (r: nat)
    requires i <= |s|
    ensures i <= r <= |s|
    decreases |s| - i
  {
    if i < |s| && IsSpace(s[i]) then SkipSpace(s, i + 1) else i
  }

  /** End of the part of s[..n] that is left when trailing white space is cut, not below lo. */
  function DropSpace(s: string, lo: nat, n: nat): (r: nat)
    requires lo <= n <= |s|
    ensures lo <= r <= n
  {
    if lo < n && IsSpace(s[n - 1]) then DropSpace(s, lo, n - 1) else n
  }

  /** strings.TrimSpace. */
  function TrimSpace(s: string): string
  {
    var lo := SkipSpace(s, 0);
    s[lo..DropSpace(s, lo, |s|)]
  }

  lemma {:induction false} SkipSpaceStops(s: string, i: nat)
    requires i <= |s|
    ensures SkipSpace(s, i) < |s| ==> !IsSpace(s[SkipSpace(s, i)])
    decreases |s| - i
  {
    if i < |s| && IsSpace(s[i]) {
      SkipSpaceStops(s, i + 1);
    }
  }

  lemma {:induction false} DropSpaceStops(s: string, lo: nat, n: nat)
    requires lo <= n <= |s|
    ensures DropSpace(s, lo, n) > lo ==> !IsSpace(s[DropSpace(s, lo, n) - 1])
  {
    if lo < n && IsSpace(s[n - 1]) {
      DropSpaceStops(s, lo, n - 1);
    }
  }

  /** The result has no white space at its ends, and a text without any there is left alone. */
  lemma TrimSpaceMeaning(s: string)
    ensures Trimmed(TrimSpace(s))
    ensures Trimmed(s) ==> TrimSpace(s) == s
  {
    hide IsSpace;
    var lo := SkipSpace(s, 0);
    SkipSpaceStops(s, 0);
    DropSpaceStops(s, lo, |s|);
  }

  lemma {:induction false} NothingElseSkipped(s: string, from: nat, i: nat)
    requires from <= i < |s| && !IsSpace(s[i])
    ensures SkipSpace(s, from) <= i
    decreases i - from
  {
    hide IsSpace;
    if from < i {
      NothingElseSkipped(s, from + 1, i);
    }
  }

  lemma {:induction false} NothingElseDropped(s: string, lo: nat, n: nat, i: nat)
    requires lo <= i < n <= |s| && !IsSpace(s[i])
    ensures DropSpace(s, lo, n) > i
    decreases n
  {
    hide IsSpace;
    if i < n - 1 {
      NothingElseDropped(s, lo, n - 1, i);
    }
  }

  lemma {:induction false} OnlySpaceSkipped(s: string, i: nat)
    requires i <= |s|
    ensures forall j :: i <= j < SkipSpace(s, i) ==> IsSpace(s[j])
    decreases |s| - i
  {
    hide IsSpace;
    if i < |s| && IsSpace(s[i]) {
      OnlySpaceSkipped(s, i + 1);
    }
  }

  lemma {:induction false} OnlySpaceDropped(s: string, lo: nat, n: nat)
    requires lo <= n <= |s|
    ensures forall j :: DropSpace(s, lo, n) <= j < n ==> IsSpace(s[j])
  {
    hide IsSpace;
    if lo < n && IsSpace(s[n - 1]) {
      OnlySpaceDropped(s, lo, n - 1);
    }
  }

  /** What is cut off is white space and nothing else. */
  lemma TrimSpaceCuts(s: string) returns (before: string, after: string)
    ensures s == before + TrimSpace(s) + after
    ensures forall c :: c in before + after ==> IsSpace(c)
  {
    hide IsSpace;
    var lo := SkipSpace(s, 0);
    var hi := DropSpace(s, lo, |s|);
    OnlySpaceSkipped(s, 0);
    OnlySpaceDropped(s, lo, |s|);
    before, after := s[..lo], s[hi..];
    forall c | c in before + after
      ensures IsSpace(c)
    {
      var k :| 0 <= k < |before + after| && (before + after)[k] == c;
      assert c == if k < lo then s[k] else s[hi + (k - lo)];
    }
  }

  /** In ASCII, white space is blank, tab, line feed, vertical tab, form feed and carriage return. */
  lemma AsciiSpace(c: char)
    requires c as int < 0x80
    ensures IsSpace(c) <==> c == ' ' || c == '\t' || c == '\n' || c == '\r' || c as int == 11 || c as int == 12
  {
  }

  lemma WideSpace(c: char)
    requires c as int >= 0x80
    ensures IsSpace(c) <==>
      c as int in {0x85, 0xA0, 0x1680, 0x2000, 0x2001, 0x2002, 0x2003, 0x2004, 0x2005, 0x2006, 0x2007, 0x2008, 0x2009,
                   0x200A, 0x2028, 0x2029, 0x202F, 0x205F, 0x3000}
  {
  }

  /** Text with anything in it but space is not blank. */
  lemma NotBlank(s: string, i: nat)
    requires i < |s| && !IsSpace(s[i])
    ensures TrimSpace(s) != ""
  {
    hide IsSpace;
    NothingElseSkipped(s, 0, i);
    NothingElseDropped(s, SkipSpace(s, 0), |s|, i);
  }

  /** End of s[..n] once trailing occurrences of c are cut. */
  function DropChar(s: string, c: char, n: nat): (r: nat)
    requires n <= |s|
    ensures r <= n
  {
    if n > 0 && s[n - 1] == c then DropChar(s, c, n - 1) else n
  }

  /** strings.TrimRight with a one-character cut set. */
  function TrimRightChar(s: string, c: char): string
  {
    s[..DropChar(s, c, |s|)]
  }

  lemma {:induction false} TrimRightCharMeaning(s: string, c: char)
    requires c !in s
    ensures TrimRightChar(s, c) == s
  {
    assert s != "" ==> s[|s| - 1] in s;
  }

  /** Exactly the trailing occurrences are cut. */
  lemma {:induction false} DropCharStops(s: string, c: char, n: nat)
    requires n <= |s|
    ensures DropChar(s, c, n) > 0 ==> s[DropChar(s, c, n) - 1] != c
    ensures forall j :: DropChar(s, c, n) <= j < n ==> s[j] == c
  {
    if n > 0 && s[n - 1] == c {
      DropCharStops(s, c, n - 1);
    }
  }

  lemma TrimRightCharCuts(s: string, c: char)
    ensures TrimRightChar(s, c) <= s && (forall j :: |TrimRightChar(s, c)| <= j < |s| ==> s[j] == c)
    ensures var r := TrimRightChar(s, c); r != "" ==> r[|r| - 1] != c
  {
    DropCharStops(s, c, |s|);
  }

  // ---- searching ---------------------------------------------------------

  /** Position of the first c from i on, or -1. */
  function FirstFrom(s: string, c: char, i: nat): (r: int)
    requires i <= |s|
    ensures r == -1 || (i <= r < |s| && s[r] == c)
    ensures forall j :: i <= j < (if r < 0 then |s| else r) ==> s[j] != c
    decreases |s| - i
  {
    if i == |s| then -1 else if s[i] == c then i else FirstFrom(s, c, i + 1)
  }

  /** strings.IndexByte: position of the first c, or -1. */
  function IndexOf(s: string, c: char): (i: int)
    ensures -1 <= i < |s|
    ensures i >= 0 ==> s[i] == c
    ensures forall j :: 0 <= j < (if i < 0 then |s| else i) ==> s[j] != c
  {
    FirstFrom(s, c, 0)
  }

  /** Position of the last c before n, or -1. */
  function LastBefore(s: string, c: char, n: nat): (r: int)
    requires n <= |s|
    ensures r == -1 || (0 <= r < n && s[r] == c)
    ensures forall j :: r < j < n ==> s[j] != c
  {
    if n == 0 then -1 else if s[n - 1] == c then n - 1 else LastBefore(s, c, n - 1)
  }

  /** strings.LastIndexByte: position of the last c, or -1. */
  function LastIndexOf(s: string, c: char): (i: int)
    ensures -1 <= i < |s|
    ensures i >= 0 ==> s[i] == c
    ensures forall j :: i < j < |s| ==> s[j] != c
  {
    LastBefore(s, c, |s|)
  }

  lemma IndexOfSplit(a: string, c: char, b: string)
    requires c !in a
    ensures IndexOf(a + [c] + b, c) == |a|
  {
    var s := a + [c] + b;
    assert s[|a|] == c;
    assert forall j :: 0 <= j < |a| ==> s[j] == a[j] && a[j] in a;
  }

  lemma LastIndexOfSplit(a: string, c: char, b: string)
    requires c !in b
    ensures LastIndexOf(a + [c] + b, c) == |a|
  {
    var s := a + [c] + b;
    assert s[|a|] == c;
    assert forall j :: |a| < j < |s| ==> s[j] == b[j - |a| - 1] && s[j] in b;
  }

  /** strings.Contains. */
  predicate Contains(s: string, sub: string)
  {
    sub <= s || (s != "" && Contains(s[1..], sub))
  }

  /** The text occurs somewhere. */
  lemma {:induction false} ContainsMeaning(s: string, sub: string)
    ensures Contains(s, sub) <==> exists before, after :: s == before + sub + after
  {
    if sub <= s {
      assert s == "" + sub + s[|sub|..];
    } else if s != "" {
      ContainsMeaning(s[1..], sub);
      if before, after :| s[1..] == before + sub + after {
        assert s == [s[0]] + s[1..] == ([s[0]] + before) + sub + after;
      }
      if before, after :| s == before + sub + after {
        assert before == "" ==> s == sub + after;
        assert s[1..] == before[1..] + sub + after;
      }
    }
  }

  // ---- letter case (ASCII) -----------------------------------------------

  function LowerChar(c: char): char
  {
    if 'A' <= c <= 'Z' then (c as int + 32) as char else c
  }

  function ToLower(s: string): string
  {
    if s == "" then "" else [LowerChar(s[0])] + ToLower(s[1..])
  }

  /** Character by character: capital letters become small ones, everything else stays. */
  lemma {:induction false} ToLowerAt(s: string, i: nat)
    requires i < |s|
    ensures |ToLower(s)| == |s|
    ensures ToLower(s)[i] == if 'A' <= s[i] <= 'Z' then 'a' + (s[i] - 'A') else s[i]
  {
    if i > 0 {
      ToLowerAt(s[1..], i - 1);
    } else if |s| > 1 {
      ToLowerAt(s[1..], 0);
    }
  }

  lemma {:induction false} LowerStays(s: string)
    requires forall c :: c in s ==> !('A' <= c <= 'Z')
    ensures ToLower(s) == s
  {
    if s != "" {
      assert s[0] in s && forall c :: c in s[1..] ==> c in s;
      LowerStays(s[1..]);
    }
  }

  predicate EqualFold(a: string, b: string)
  {
    ToLower(a) == ToLower(b)
  }

  // ---- splitting and joining ---------------------------------------------

  /** strings.Split on one character; always at least one part. */
  function Split(s: string, c: char): (parts: seq<string>)
    ensures |parts| >= 1
  {
    var i := IndexOf(s, c);
    if i < 0 then [s] else
      [s[..i]] + Split(s[i + 1..], c)
  }

  /** strings.Join with a one-character separator. */
  function Join(parts: seq<string>, c: char): string
  {
    if |parts| == 0 then ""
    else if |parts| == 1 then parts[0]
    else parts[0] + [c] + Join(parts[1..], c)
  }

  lemma JoinPrepend(first: string, parts: seq<string>, c: char)
    requires parts != []
    ensures Join([first] + parts, c) == first + [c] + Join(parts, c)
  {
    assert ([first] + parts)[1..] == parts;
  }

  /** Splitting and joining on the same character is the identity. */
  lemma {:induction false} JoinSplit(s: string, c: char)
    ensures Join(Split(s, c), c) == s
  {
    var i := IndexOf(s, c);
    if i >= 0 {
      var first, rest := s[..i], s[i + 1..];
      JoinSplit(rest, c);
      assert s == first + [c] + rest;
      JoinPrepend(first, Split(rest, c), c);
    }
  }

  /** The parts hold no separator; with JoinSplit this says what they are. */
  lemma {:induction false} SplitPartsAreFree(s: string, c: char)
    ensures forall part :: part in Split(s, c) ==> c !in part
  {
    var i := IndexOf(s, c);
    if i >= 0 {
      SplitPartsAreFree(s[i + 1..], c);
    }
  }

  /** How Split unfolds at the first separator. */
  lemma SplitFirst(a: string, c: char, b: string)
    requires c !in a
    ensures Split(a + [c] + b, c) == [a] + Split(b, c)
  {
    IndexOfSplit(a, c, b);
    var s := a + [c] + b;
    assert s[..|a|] == a && s[|a| + 1..] == b;
  }

  /** A separator-free tail contributes exactly one more part. */
  lemma {:induction false} SplitAppend(s: string, c: char, tail: string)
    requires c !in tail
    ensures Split(s + [c] + tail, c) == Split(s, c) + [tail]
  {
    hide IndexOf, Join;
    var i := IndexOf(s, c);
    if i < 0 {
      SplitFirst(s, c, tail);
    } else {
      var first, rest := s[..i], s[i + 1..];
      assert s == first + [c] + rest;
      SplitAppend(rest, c, tail);
      SplitFirst(first, c, rest);
      SplitFirst(first, c, rest + [c] + tail);
      assert s + [c] + tail == first + [c] + (rest + [c] + tail) by {
        Reassociate(first, [c], rest, tail);
      }
    }
  }

  lemma Reassociate(a: string, sep: string, b: string, t: string)
    ensures (a + sep + b) + sep + t == a + sep + (b + sep + t)
  {
  }

  // ---- order and numbers ---------------------------------------------------

  /** Go's < on strings: byte order, which on UTF-8 is code-point order. */
  predicate StringLess(a: string, b: string)
  {
    b != "" && (a == "" || a[0] < b[0] || (a[0] == b[0] && StringLess(a[1..], b[1..])))
  }

  lemma SameStart(a: string, b: string, i: nat)
    requires 0 < i <= |a| && i <= |b| && a[..i] == b[..i]
    ensures a[0] == b[0]
  {
    assert a[..i][0] == b[..i][0];
  }

  /** At the first difference the smaller character decides; a proper prefix comes first. */
  lemma {:induction false} StringLessMeaning(a: string, b: string)
    ensures StringLess(a, b) <==>
      exists i :: 0 <= i <= |a| && i < |b| && a[..i] == b[..i] && (i == |a| || a[i] < b[i])
  {
    if a == "" {
      assert b != "" ==> 0 < |b| && a[..0] == b[..0];
    } else if b != "" && a[0] == b[0] {
      StringLessMeaning(a[1..], b[1..]);
      var c, d := a[1..], b[1..];
      if i :| 0 <= i <= |c| && i < |d| && c[..i] == d[..i] && (i == |c| || c[i] < d[i]) {
        assert a[..i + 1] == [a[0]] + a[1..][..i] == b[..i + 1];
      }
      if i :| 0 <= i <= |a| && i < |b| && a[..i] == b[..i] && (i == |a| || a[i] < b[i]) {
        assert i > 0;
        assert a[1..][..i - 1] == a[..i][1..] == b[..i][1..] == b[1..][..i - 1];
        assert i - 1 == |a[1..]| || a[1..][i - 1] < b[1..][i - 1];
      }
    } else if b != "" {
      assert a[0] < b[0] ==> a[..0] == b[..0];
      if i :| 0 <= i <= |a| && i < |b| && a[..i] == b[..i] && (i == |a| || a[i] < b[i]) {
        if i > 0 {
          SameStart(a, b, i);
        }
      }
    }
  }

  /** StringLess is total: strings neither of which is smaller are equal. */
  lemma {:induction false} StringLessTotal(a: string, b: string)
    ensures StringLess(a, b) || StringLess(b, a) || a == b
    ensures !(StringLess(a, b) && StringLess(b, a)) && !StringLess(a, a)
  {
    if a != "" {
      StringLessTotal(a[1..], a[1..]);
      if b != "" {
        StringLessTotal(a[1..], b[1..]);
        if a[0] == b[0] && a[1..] == b[1..] {
          assert a == [a[0]] + a[1..] == b;
        }
      }
    }
  }

  lemma {:induction false} StringLessTransitive(a: string, b: string, c: string)
    requires StringLess(a, b) && StringLess(b, c)
    ensures StringLess(a, c)
  {
    if a != "" && a[0] == b[0] == c[0] {
      StringLessTransitive(a[1..], b[1..], c[1..]);
    }
  }

  const MAX_INT64: int := 0x7FFF_FFFF_FFFF_FFFF

  predicate IsDigit(c: char) { '0' <= c <= '9' }

  /** A non-empty string of digits. */
  predicate AllDigits(s: string)
  {
    s != "" && IsDigit(s[|s| - 1]) && (|s| > 1 ==> AllDigits(s[..|s| - 1]))
  }

  /** The decimal value of a digit string (leading zeros allowed). */
  function DigitsValue(s: string): nat
    requires AllDigits(s)
  {
    var digit := s[|s| - 1] as int - '0' as int;
    if |s| == 1 then digit else 10 * DigitsValue(s[..|s| - 1]) + digit
  }

  /** strconv.Atoi on a 64-bit platform: optional sign, digits, int64 range. */
  function Atoi(s: string): (r: Option<int>)
    ensures r.Some? ==> -MAX_INT64 - 1 <= r.value <= MAX_INT64
  {
    var negative := s != "" && s[0] == '-';
    var digits := if s != "" && (s[0] == '-' || s[0] == '+') then s[1..] else s;
    if !AllDigits(digits) then None
    else
      var n: int := if negative then -(DigitsValue(digits) as int) else DigitsValue(digits);
      if -MAX_INT64 - 1 <= n <= MAX_INT64 then Some(n) else None
  }

  /** A number as it is written: decimal, without leading zeros. */
  function Decimal(n: nat): (s: string)
    ensures s != ""
  {
    var digit := ['0' + (n % 10) as char];
    if n < 10 then digit else Decimal(n / 10) + digit
  }

  lemma {:induction false} DecimalReadsBack(n: nat)
    ensures AllDigits(Decimal(n)) && DigitsValue(Decimal(n)) == n
  {
    var s := Decimal(n);
    if n >= 10 {
      DecimalReadsBack(n / 10);
      assert s[..|s| - 1] == Decimal(n / 10);
    }
  }

  lemma {:induction false} DigitsFirst(s: string)
    requires AllDigits(s)
    ensures IsDigit(s[0])
  {
    if |s| > 1 {
      DigitsFirst(s[..|s| - 1]);
    }
  }

  /**
   Digits read as the number they denote, signed or not, up to the limits of 64 bits; beyond them they do not read.
   */
  lemma AtoiReadsDigits(digits: string)
    requires AllDigits(digits)
    ensures var n: int := DigitsValue(digits);
      && (if n <= 0x7FFF_FFFF_FFFF_FFFF then Atoi(digits) == Some(n) else Atoi(digits).None?)
      && (if n <= 0x8000_0000_0000_0000 then Atoi("-" + digits) == Some(-n) else Atoi("-" + digits).None?)
      && Atoi("+" + digits) == Atoi(digits)
  {
    hide DigitsValue;
    DigitsFirst(digits);
    assert ("-" + digits)[1..] == digits == ("+" + digits)[1..];
  }

  /** Anything else than an optional sign and digits is no number. */
  lemma AtoiNeedsDigits(s: string)
    requires Atoi(s).Some?
    ensures s != "" && exists sign, digits :: s == sign + digits && sign in {"", "+", "-"} && AllDigits(digits)
  {
    var signed := s[0] == '-' || s[0] == '+';
    var sign, digits := if signed then s[..1] else "", if signed then s[1..] else s;
    assert s == sign + digits;
    assert s[..1] == [s[0]];
  }

  lemma {:induction false} AllDigitsMeaning(s: string)
    ensures AllDigits(s) <==> s != "" && forall i :: 0 <= i < |s| ==> '0' <= s[i] <= '9'
  {
    if |s| > 1 {
      AllDigitsMeaning(s[..|s| - 1]);
    }
  }
}

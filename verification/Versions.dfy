/**
 Choosing the newest tag of a repository: version-like tags, their order, and
 the selection loop.
 */
module Versions {
  import opened Results
  import opened Text

  // ---- version-like tags ---------------------------------------------------

  /** The comparable shape of a version-like tag. */
  datatype Version = Version(nums: seq<nat>, suffix: string)

  /** Length of the longest run of leading digits. */
  function DigitRun(s: string): (n: nat)
    ensures n <= |s|
  {
    if s != "" && IsDigit(s[0]) then 1 + DigitRun(s[1..]) else 0
  }

  /** Length of the longest prefix of the form digits(.digits)*, 0 if there is none. */
  function NumbersLength(s: string): (n: nat)
    ensures n <= |s|
  {
    var d := DigitRun(s);
    if d == 0 then 0
    else if d < |s| && s[d] == '.' then
      var more := NumbersLength(s[d + 1..]);
      if more == 0 then d else d + 1 + more
    else d
  }

  /** The dot-separated numerals as numbers; None when one exceeds an int. */
  function Numbers(parts: seq<string>): (r: Option<seq<nat>>)
    ensures r.Some? ==> |r.value| == |parts|
  {
    if parts == [] then Some([])
    else
      var front := Numbers(parts[..|parts| - 1]);
      var n := Atoi(parts[|parts| - 1]);
      if front.Some? && n.Some? && n.value >= 0 then Some(front.value + [n.value]) else None
  }

  /** What a tag means as a version: an optional v, dotted numbers, any one-line suffix. */
  function VersionOf(tag: string): Option<Version>
  {
    var body := if tag != "" && tag[0] == 'v' then tag[1..] else tag;
    var n := NumbersLength(body);
    if n == 0 || '\n' in body[n..] then None
    else
      var nums := Numbers(Split(body[..n], '.'));
      if nums.None? then None else Some(Version(nums.value, body[n..]))
  }

  lemma {:induction false} NumbersPrefixFails(parts: seq<string>, k: nat)
    requires k <= |parts| && Numbers(parts[..k]).None?
    ensures Numbers(parts).None?
    decreases |parts|
  {
    if k < |parts| {
      var front := parts[..|parts| - 1];
      assert front[..k] == parts[..k];
      NumbersPrefixFails(front, k);
    } else {
      assert parts[..k] == parts;
    }
  }

  /** A run of digits only ever denotes a non-negative number. */
  lemma DigitsAreNonNegative(s: string)
    requires AllDigits(s)
    ensures Atoi(s).Some? ==> Atoi(s).value >= 0
  {
    DigitsHaveNoSign(s);
  }

  lemma SliceAround(s: string, d: nat, m: nat)
    requires d + 1 + m <= |s|
    ensures s[..d + 1 + m] == s[..d] + [s[d]] + s[d + 1..][..m]
  {
  }

  /** A digit run, when there is one, is a string of digits and so holds no dot. */
  lemma {:induction false} RunIsDigits(s: string)
    ensures DigitRun(s) > 0 ==> AllDigits(s[..DigitRun(s)]) && '.' !in s[..DigitRun(s)]
  {
    if s != "" && IsDigit(s[0]) {
      RunIsDigits(s[1..]);
      assert s[..DigitRun(s)] == [s[0]] + s[1..][..DigitRun(s[1..])];
      DigitPrepended(s[0], s[1..][..DigitRun(s[1..])]);
    }
  }

  lemma {:induction false} DigitPrepended(d: char, s: string)
    requires IsDigit(d) && (s == "" || AllDigits(s))
    ensures AllDigits([d] + s)
  {
    var t := [d] + s;
    if s != "" {
      assert t[..|t| - 1] == [d] + s[..|s| - 1];
      DigitPrepended(d, s[..|s| - 1]);
    }
  }

  /** Digits carry no sign. */
  lemma {:induction false} DigitsHaveNoSign(s: string)
    requires AllDigits(s)
    ensures IsDigit(s[0])
  {
    if |s| > 1 {
      DigitsHaveNoSign(s[..|s| - 1]);
    }
  }

  ghost predicate DigitParts(s: string)
  {
    forall p :: p in Split(s, '.') ==> AllDigits(p)
  }

  lemma DigitPartsPrepend(head: string, tail: string)
    requires AllDigits(head) && '.' !in head && DigitParts(tail)
    ensures DigitParts(head + ['.'] + tail)
  {
    SplitFirst(head, '.', tail);
  }

  lemma DigitPartsSingle(head: string)
    requires AllDigits(head) && '.' !in head
    ensures DigitParts(head)
  {
    assert Split(head, '.') == [head];
  }

  /** Between the dots of a numbers prefix there are only digit runs. */
  lemma {:induction false} NumbersPartsAreDigits(s: string)
    requires NumbersLength(s) > 0
    ensures DigitParts(s[..NumbersLength(s)])
  {
    RunIsDigits(s);
    var d := DigitRun(s);
    var head := s[..d];
    if NumbersLength(s) == d {
      DigitPartsSingle(head);
    } else {
      var rest := s[d + 1..];
      var more := NumbersLength(rest);
      NumbersPartsAreDigits(rest);
      DigitPartsPrepend(head, rest[..more]);
      SliceAround(s, d, more);
    }
  }

  method ParseVersion(tag: string) returns (v: Option<Version>)
    ensures v == VersionOf(tag)
  {
    hide Atoi, NumbersLength, Split;
    var body := if tag != "" && tag[0] == 'v' then tag[1..] else tag;
    var n := NumbersLength(body);
    if n == 0 || '\n' in body[n..] {
      return None;
    }
    var parts := Split(body[..n], '.');
    NumbersPartsAreDigits(body);
    var nums: seq<nat> := [];
    for i := 0 to |parts|
      invariant Numbers(parts[..i]) == Some(nums)
    {
      assert parts[..i + 1][..i] == parts[..i];
      DigitsAreNonNegative(parts[i]);
      var number := Atoi(parts[i]);
      if number.None? {
        NumbersPrefixFails(parts, i + 1);
        return None;
      }
      nums := nums + [number.value];
    }
    assert parts[..|parts|] == parts;
    return Some(Version(nums, body[n..]));
  }

  // ---- what a tag reads as ------------------------------------------------------

  lemma {:induction false} DigitRunIs(digits: string, rest: string)
    requires forall i :: 0 <= i < |digits| ==> '0' <= digits[i] <= '9'
    requires rest != "" ==> !('0' <= rest[0] <= '9')
    ensures DigitRun(digits + rest) == |digits|
  {
    if digits != "" {
      DigitRunIs(digits[1..], rest);
      assert (digits + rest)[1..] == digits[1..] + rest;
    }
  }

  /** Text that does not go on with the numbers before it. */
  predicate EndsNumbers(suffix: string)
  {
    && (suffix != "" ==> !('0' <= suffix[0] <= '9'))
    && (|suffix| >= 2 && suffix[0] == '.' ==> !('0' <= suffix[1] <= '9'))
  }

  /** The last number ends the numbers. */
  lemma LastNumber(digits: string, suffix: string)
    requires digits != "" && (forall i :: 0 <= i < |digits| ==> '0' <= digits[i] <= '9') && EndsNumbers(suffix)
    ensures NumbersLength(digits + suffix) == |digits|
  {
    hide DigitRun;
    DigitRunIs(digits, suffix);
    if suffix != "" && suffix[0] == '.' {
      assert (digits + suffix)[|digits| + 1..] == suffix[1..];
      NoNumber(suffix[1..]);
    }
  }

  lemma NoNumber(s: string)
    requires s != "" ==> !('0' <= s[0] <= '9')
    ensures NumbersLength(s) == 0
  {
  }

  /** Any other is followed by a dot and the rest. */
  lemma OneMoreNumber(digits: string, more: string)
    requires digits != "" && (forall i :: 0 <= i < |digits| ==> '0' <= digits[i] <= '9') && NumbersLength(more) > 0
    ensures NumbersLength(digits + "." + more) == |digits| + 1 + NumbersLength(more)
  {
    hide DigitRun;
    var s, rest := digits + "." + more, "." + more;
    assert s == digits + rest;
    DigitRunIs(digits, rest);
    assert s[|digits|] == rest[0] == '.';
    assert s[|digits| + 1..] == more;
  }

  lemma {:induction false} NumbersLengthIs(parts: seq<string>, suffix: string)
    requires parts != [] && (forall p :: p in parts ==> AllDigits(p)) && EndsNumbers(suffix)
    ensures NumbersLength(Join(parts, '.') + suffix) == |Join(parts, '.')| > 0
  {
    hide AllDigits, NumbersLength, EndsNumbers;
    var first := parts[0];
    assert first in parts;
    AllDigitsMeaning(first);
    if |parts| == 1 {
      LastNumber(first, suffix);
    } else {
      NumbersLengthIs(parts[1..], suffix);
      OneMoreNumber(first, Join(parts[1..], '.') + suffix);
      assert Join(parts, '.') + suffix == first + "." + (Join(parts[1..], '.') + suffix);
    }
  }

  lemma {:induction false} SplitJoined(parts: seq<string>)
    requires parts != [] && forall p :: p in parts ==> AllDigits(p)
    ensures Split(Join(parts, '.'), '.') == parts
  {
    hide AllDigits;
    var first := parts[0];
    assert first in parts;
    AllDigitsMeaning(first);
    if |parts| == 1 {
      assert parts == [first];
    } else {
      SplitJoined(parts[1..]);
      SplitFirst(first, '.', Join(parts[1..], '.'));
      assert parts == [first] + parts[1..];
    }
  }

  lemma {:induction false} NumbersOf(parts: seq<string>)
    requires forall p :: p in parts ==> AllDigits(p) && DigitsValue(p) <= MAX_INT64
    ensures Numbers(parts).Some? && |Numbers(parts).value| == |parts|
    ensures forall i :: 0 <= i < |parts| ==> Numbers(parts).value[i] == DigitsValue(parts[i])
  {
    hide AllDigits, DigitsValue;
    if parts != [] {
      var front, last := parts[..|parts| - 1], parts[|parts| - 1];
      assert last in parts;
      NumbersOf(front);
      AtoiReadsDigits(last);
    }
  }

  /**
   Dot-separated numbers and a suffix that does not go on with them, with or without a leading v, read back as
   written.
   */
  lemma VersionReadsBack(parts: seq<string>, suffix: string)
    requires parts != [] && forall p :: p in parts ==> AllDigits(p) && DigitsValue(p) <= 0x7FFF_FFFF_FFFF_FFFF
    requires EndsNumbers(suffix) && '\n' !in suffix
    ensures var tag := Join(parts, '.') + suffix;
      && VersionOf("v" + tag) == VersionOf(tag) && VersionOf(tag).Some? && VersionOf(tag).value.suffix == suffix
      && |VersionOf(tag).value.nums| == |parts|
      && forall i :: 0 <= i < |parts| ==> VersionOf(tag).value.nums[i] == DigitsValue(parts[i])
  {
    hide NumbersLength, Split, Numbers, AllDigits, DigitsValue;
    var tag, n := Join(parts, '.') + suffix, |Join(parts, '.')|;
    NumbersLengthIs(parts, suffix);
    SplitJoined(parts);
    NumbersOf(parts);
    assert tag[..n] == Join(parts, '.') && tag[n..] == suffix && ("v" + tag)[1..] == tag;
    StartsWithDigit(parts, suffix);
  }

  lemma StartsWithDigit(parts: seq<string>, suffix: string)
    requires parts != [] && AllDigits(parts[0])
    ensures var tag := Join(parts, '.') + suffix; tag != "" && tag[0] != 'v'
  {
    AllDigitsMeaning(parts[0]);
    assert (Join(parts, '.') + suffix)[0] == parts[0][0];
  }

  /** And nothing else reads as a version. */
  lemma VersionIsWritten(tag: string) returns (parts: seq<string>, suffix: string)
    requires VersionOf(tag).Some?
    ensures tag == Join(parts, '.') + suffix || tag == "v" + Join(parts, '.') + suffix
    ensures parts != [] && (forall p :: p in parts ==> AllDigits(p)) && '\n' !in suffix
    ensures suffix == VersionOf(tag).value.suffix && |parts| == |VersionOf(tag).value.nums|
  {
    hide AllDigits, Split, Join, Numbers, NumbersLength;
    var body := if tag != "" && tag[0] == 'v' then tag[1..] else tag;
    var n := NumbersLength(body);
    parts, suffix := Split(body[..n], '.'), body[n..];
    BodyIsWritten(body, n);
    var written := Join(parts, '.') + suffix;
    if tag != "" && tag[0] == 'v' {
      assert tag == "v" + written == "v" + Join(parts, '.') + suffix;
    }
  }

  lemma BodyIsWritten(body: string, n: nat)
    requires 0 < n == NumbersLength(body)
    ensures var parts := Split(body[..n], '.');
      body == Join(parts, '.') + body[n..] && parts != [] && forall p :: p in parts ==> AllDigits(p)
  {
    hide AllDigits, Split, Join, NumbersLength;
    JoinSplit(body[..n], '.');
    NumbersPartsAreDigits(body);
    assert body == body[..n] + body[n..];
  }

  // ---- the order -------------------------------------------------------------

  /** The i-th number, with absent positions counting as 0. */
  function At(nums: seq<nat>, i: nat): nat
  {
    if i < |nums| then nums[i] else 0
  }

  ghost predicate SameNumbers(a: seq<nat>, b: seq<nat>)
  {
    forall i: nat :: At(a, i) == At(b, i)
  }

  /** a is smaller than b at the first position where they differ. */
  ghost predicate BelowAt(a: seq<nat>, b: seq<nat>, i: nat)
  {
    At(a, i) < At(b, i) && forall j: nat :: j < i ==> At(a, j) == At(b, j)
  }

  ghost predicate NumbersBelow(a: seq<nat>, b: seq<nat>)
  {
    exists i: nat :: BelowAt(a, b, i)
  }

  /** A bare release outranks every suffixed variant; suffixes compare as strings. */
  predicate SuffixOlder(s: string, t: string)
  {
    if (s == "") != (t == "") then s != "" else StringLess(s, t)
  }

  /** v orders strictly before w: w is the newer version. */
  ghost predicate Older(v: Version, w: Version)
  {
    NumbersBelow(v.nums, w.nums) || (SameNumbers(v.nums, w.nums) && SuffixOlder(v.suffix, w.suffix))
  }

  /** The first position at which the two differ, absent numbers counting as 0. */
  ghost predicate FirstDifferent(a: seq<nat>, b: seq<nat>, i: nat)
  {
    && (if i < |a| then a[i] else 0) != (if i < |b| then b[i] else 0)
    && forall j: nat :: j < i ==> At(a, j) == At(b, j)
  }

  /** At the first difference s has the smaller character, or ends. */
  predicate ComesBefore(s: string, t: string)
  {
    exists k :: 0 <= k <= |s| && k < |t| && s[..k] == t[..k] && (k == |s| || s[k] < t[k])
  }

  /**
   The order in terms of what is written: at the first difference the smaller number is older; with equal numbers a
   suffixed version is older than a bare one, and of two suffixes the older one comes first in code-point order.
   */
  lemma OlderMeaning(v: Version, w: Version)
    ensures Older(v, w) <==>
      || (exists i: nat ::
            FirstDifferent(v.nums, w.nums, i) && i < |w.nums| && (i < |v.nums| ==> v.nums[i] < w.nums[i]))
      || (&& (forall i: nat :: !FirstDifferent(v.nums, w.nums, i))
          && v.suffix != "" && (w.suffix == "" || ComesBefore(v.suffix, w.suffix)))
  {
    hide StringLess;
    StringLessMeaning(v.suffix, w.suffix);
    SameExactly(v.nums, w.nums);
    forall i: nat
      ensures FirstDifferent(v.nums, w.nums, i) && i < |w.nums| && (i < |v.nums| ==> v.nums[i] < w.nums[i])
         <==> BelowAt(v.nums, w.nums, i)
    {
    }
    if v.suffix == "" {
      assert !StringLess(v.suffix, w.suffix) || w.suffix != "" by {
        StringLessTotal(v.suffix, v.suffix);
      }
    }
  }

  /** Nothing differs first exactly when nothing differs. */
  lemma SameExactly(a: seq<nat>, b: seq<nat>)
    ensures SameNumbers(a, b) <==> forall i: nat :: !FirstDifferent(a, b, i)
  {
    forall i: nat | FirstDifferent(a, b, i)
      ensures At(a, i) != At(b, i)
    {
    }
    if d: nat :| At(a, d) != At(b, d) {
      FirstOfAll(a, b, d);
    }
  }

  lemma {:induction false} FirstOfAll(a: seq<nat>, b: seq<nat>, d: nat)
    requires At(a, d) != At(b, d)
    ensures exists i: nat :: FirstDifferent(a, b, i)
  {
    if j: nat :| j < d && At(a, j) != At(b, j) {
      FirstOfAll(a, b, j);
    } else {
      assert FirstDifferent(a, b, d);
    }
  }

  /** Neither version is older than the other. */
  ghost predicate Tied(v: Version, w: Version)
  {
    !Older(v, w) && !Older(w, v)
  }

  method Less(v: Version, w: Version) returns (less: bool)
    ensures less == Older(v, w)
    ensures less <==>
      || (exists i: nat ::
            FirstDifferent(v.nums, w.nums, i) && i < |w.nums| && (i < |v.nums| ==> v.nums[i] < w.nums[i]))
      || (&& (forall i: nat :: !FirstDifferent(v.nums, w.nums, i))
          && v.suffix != "" && (w.suffix == "" || ComesBefore(v.suffix, w.suffix)))
  {
    hide StringLess, ComesBefore, FirstDifferent;
    OlderMeaning(v, w);
    var n := |v.nums|;
    if |w.nums| > n {
      n := |w.nums|;
    }
    for i := 0 to n
      invariant forall j: nat :: j < i ==> At(v.nums, j) == At(w.nums, j)
    {
      var a, b := 0, 0;
      if i < |v.nums| {
        a := v.nums[i];
      }
      if i < |w.nums| {
        b := w.nums[i];
      }
      if a != b {
        if a < b {
          assert BelowAt(v.nums, w.nums, i);
        } else {
          assert BelowAt(w.nums, v.nums, i);
          NumbersExclusive(v.nums, w.nums);
        }
        return a < b;
      }
    }
    assert SameNumbers(v.nums, w.nums);
    NumbersExclusive(v.nums, w.nums);
    if (v.suffix == "") != (w.suffix == "") {
      return v.suffix != "";
    }
    return StringLess(v.suffix, w.suffix);
  }

  /** Two sequences cannot each be below the other. */
  lemma BelowIsOneWay(a: seq<nat>, b: seq<nat>, i: nat, j: nat)
    requires BelowAt(a, b, i)
    ensures !BelowAt(b, a, j)
  {
    assert j < i ==> At(a, j) == At(b, j);
    assert At(a, i) != At(b, i);
  }

  /** At most one of below, same and above holds. */
  lemma NumbersExclusive(a: seq<nat>, b: seq<nat>)
    ensures NumbersBelow(b, a) ==> !NumbersBelow(a, b) && !SameNumbers(a, b)
    ensures SameNumbers(a, b) ==> !NumbersBelow(a, b) && !NumbersBelow(b, a)
  {
    forall i: nat, j: nat | BelowAt(a, b, i)
      ensures !BelowAt(b, a, j)
    {
      BelowIsOneWay(a, b, i, j);
    }
  }

  /** At least one of below, same and above holds. */
  lemma NumbersTotal(a: seq<nat>, b: seq<nat>)
    ensures NumbersBelow(a, b) || NumbersBelow(b, a) || SameNumbers(a, b)
  {
    if !SameNumbers(a, b) {
      var d: nat :| At(a, d) != At(b, d);
      FirstDifference(a, b, d);
    }
  }

  lemma {:induction false} FirstDifference(a: seq<nat>, b: seq<nat>, d: nat)
    requires At(a, d) != At(b, d)
    ensures NumbersBelow(a, b) || NumbersBelow(b, a)
  {
    if j: nat :| j < d && At(a, j) != At(b, j) {
      FirstDifference(a, b, j);
    } else if At(a, d) < At(b, d) {
      assert BelowAt(a, b, d);
    } else {
      assert BelowAt(b, a, d);
    }
  }

  lemma NumbersTransitive(a: seq<nat>, b: seq<nat>, c: seq<nat>)
    ensures NumbersBelow(a, b) && NumbersBelow(b, c) ==> NumbersBelow(a, c)
    ensures NumbersBelow(a, b) && SameNumbers(b, c) ==> NumbersBelow(a, c)
    ensures SameNumbers(a, b) && NumbersBelow(b, c) ==> NumbersBelow(a, c)
    ensures SameNumbers(a, b) && SameNumbers(b, c) ==> SameNumbers(a, c)
  {
    forall i: nat, j: nat | BelowAt(a, b, i) && BelowAt(b, c, j)
      ensures NumbersBelow(a, c)
    {
      assert BelowAt(a, c, if i < j then i else j);
    }
    forall i: nat | BelowAt(a, b, i) && SameNumbers(b, c)
      ensures NumbersBelow(a, c)
    {
      assert BelowAt(a, c, i);
    }
    forall i: nat | SameNumbers(a, b) && BelowAt(b, c, i)
      ensures NumbersBelow(a, c)
    {
      assert BelowAt(a, c, i);
    }
  }

  lemma SuffixTrichotomy(s: string, t: string)
    ensures SuffixOlder(s, t) || SuffixOlder(t, s) || s == t
    ensures !(SuffixOlder(s, t) && SuffixOlder(t, s)) && !SuffixOlder(s, s)
  {
    StringLessTotal(s, t);
    StringLessTotal(s, s);
  }

  lemma SuffixTransitive(s: string, t: string, u: string)
    requires SuffixOlder(s, t) && SuffixOlder(t, u)
    ensures SuffixOlder(s, u)
  {
    if StringLess(s, t) && StringLess(t, u) {
      StringLessTransitive(s, t, u);
    }
  }

  /** No version is older than itself, and no two versions are older than each other. */
  lemma OlderIsAsymmetric(v: Version, w: Version)
    ensures !Older(v, v) && !(Older(v, w) && Older(w, v))
  {
    NumbersExclusive(v.nums, v.nums);
    NumbersExclusive(v.nums, w.nums);
    SuffixTrichotomy(v.suffix, w.suffix);
    SuffixTrichotomy(v.suffix, v.suffix);
  }

  lemma OlderIsTransitive(u: Version, v: Version, w: Version)
    requires Older(u, v) && Older(v, w)
    ensures Older(u, w)
  {
    NumbersTransitive(u.nums, v.nums, w.nums);
    if SuffixOlder(u.suffix, v.suffix) && SuffixOlder(v.suffix, w.suffix) {
      SuffixTransitive(u.suffix, v.suffix, w.suffix);
    }
  }

  /** Tied versions are exactly those with equal zero-padded numbers and equal suffixes. */
  lemma TiedMeaning(v: Version, w: Version)
    ensures Tied(v, w) <==> SameNumbers(v.nums, w.nums) && v.suffix == w.suffix
  {
    NumbersTotal(v.nums, w.nums);
    NumbersExclusive(v.nums, w.nums);
    SuffixTrichotomy(v.suffix, w.suffix);
  }

  /** Being tied is transitive, so the order is a strict weak order. */
  lemma TiedIsTransitive(u: Version, v: Version, w: Version)
    requires Tied(u, v) && Tied(v, w)
    ensures Tied(u, w)
  {
    TiedMeaning(u, v);
    TiedMeaning(v, w);
    TiedMeaning(u, w);
  }

  /** If v is older than w, every u is either older than w or newer than v. */
  lemma OlderIsNegativelyTransitive(u: Version, v: Version, w: Version)
    requires Older(v, w)
    ensures Older(u, w) || Older(v, u)
  {
    if !Older(u, w) && !Older(v, u) {
      if Older(u, v) {
        OlderIsTransitive(u, v, w);
      } else if Older(w, u) {
        OlderIsTransitive(v, w, u);
      } else {
        TiedIsTransitive(v, u, w);
      }
    }
  }

  // ---- selecting the newest tag ------------------------------------------------

  /** The tags the selection may answer with: version-like and not the excluded one. */
  predicate Candidate(exclude: string, tag: string)
  {
    tag != exclude && tag != "latest" && VersionOf(tag).Some?
  }

  /** r is a candidate no candidate exceeds, and exceeds every candidate before it. */
  ghost predicate NewestOf(tags: seq<string>, exclude: string, r: string)
  {
    && Candidate(exclude, r)
    && (forall t :: t in tags && Candidate(exclude, t) ==> !Older(VersionOf(r).value, VersionOf(t).value))
    && (exists i :: 0 <= i < |tags| && tags[i] == r
         && forall j :: 0 <= j < i && Candidate(exclude, tags[j]) ==>
              Older(VersionOf(tags[j]).value, VersionOf(r).value))
  }

  /** What the caller of PickNewest is promised. */
  ghost predicate PickedNewest(tags: seq<string>, exclude: string, r: string)
  {
    if exists t :: t in tags && Candidate(exclude, t) then NewestOf(tags, exclude, r)
    else if "latest" in tags && exclude != "latest" then r == "latest"
    else r == ""
  }

  /**
   At the first difference the pick has the larger number; with equal numbers it is bare or its suffix is not
   smaller.
   */
  ghost predicate NotBehind(pick: Version, other: Version)
  {
    && (forall i: nat :: FirstDifferent(pick.nums, other.nums, i) ==>
          i < |pick.nums| && (i < |other.nums| ==> pick.nums[i] > other.nums[i]))
    && ((forall i: nat :: !FirstDifferent(pick.nums, other.nums, i)) ==>
          || pick.suffix == "" || pick.suffix == other.suffix
          || (other.suffix != "" && ComesBefore(other.suffix, pick.suffix)))
  }

  lemma PickIsNotBehind(tags: seq<string>, exclude: string, r: string, t: string)
    requires PickedNewest(tags, exclude, r)
    requires t in tags && t != exclude && t != "latest" && VersionOf(t).Some?
    ensures r in tags && r != exclude && r != "latest" && VersionOf(r).Some?
    ensures NotBehind(VersionOf(r).value, VersionOf(t).value)
  {
    hide VersionOf, Older, NotBehind;
    assert Candidate(exclude, t);
    NotOlderIsNotBehind(VersionOf(r).value, VersionOf(t).value);
  }

  lemma NotOlderIsNotBehind(pick: Version, other: Version)
    requires !Older(pick, other)
    ensures NotBehind(pick, other)
  {
    hide Older, FirstDifferent, ComesBefore;
    OlderMeaning(pick, other);
    forall i: nat | FirstDifferent(pick.nums, other.nums, i)
      ensures i < |pick.nums| && (i < |other.nums| ==> pick.nums[i] > other.nums[i])
    {
      LargerThere(pick.nums, other.nums, i);
    }
    OneComesFirst(pick.suffix, other.suffix);
  }

  lemma LargerThere(a: seq<nat>, b: seq<nat>, i: nat)
    requires FirstDifferent(a, b, i)
    ensures i < |a| || i < |b|
    ensures !(i < |b| && (i < |a| ==> a[i] < b[i])) ==> i < |a| && (i < |b| ==> a[i] > b[i])
  {
  }

  lemma OneComesFirst(s: string, t: string)
    ensures s == t || ComesBefore(s, t) || ComesBefore(t, s)
  {
    hide StringLess;
    StringLessTotal(s, t);
    StringLessMeaning(s, t);
    StringLessMeaning(t, s);
  }

  lemma PickMeaning(tags: seq<string>, exclude: string, r: string)
    requires PickedNewest(tags, exclude, r)
    ensures forall t :: t in tags && t != exclude && t != "latest" && VersionOf(t).Some? ==>
      && r in tags && r != exclude && r != "latest" && VersionOf(r).Some?
      && NotBehind(VersionOf(r).value, VersionOf(t).value)
    ensures (forall t :: t in tags ==> t == exclude || t == "latest" || VersionOf(t).None?) ==>
      r == if "latest" in tags && exclude != "latest" then "latest" else ""
  {
    hide NotBehind;
    forall t | t in tags && t != exclude && t != "latest" && VersionOf(t).Some?
      ensures r in tags && r != exclude && r != "latest" && VersionOf(r).Some?
      ensures NotBehind(VersionOf(r).value, VersionOf(t).value)
    {
      PickIsNotBehind(tags, exclude, r, t);
    }
  }

  /**
   Whatever the version-like tags: 2.0 is newer than 1.9, 1.10 than 1.9, 1.0 than 1.0-rc1, and 1.0-rc2 than 1.0-rc1.
   */
  lemma OrderByExample()
    ensures Older(Version([1, 9], ""), Version([2, 0], "")) && Older(Version([1, 9], ""), Version([1, 10], ""))
    ensures Older(Version([1, 0], "-rc1"), Version([1], "")) && Older(Version([1, 0], "-rc1"), Version([1, 0], "-rc2"))
  {
    assert BelowAt([1, 9], [2, 0], 0) && BelowAt([1, 9], [1, 10], 1);
    StringLessMeaning("-rc1", "-rc2");
    assert "-rc1"[..3] == "-rc2"[..3] && "-rc1"[3] < "-rc2"[3];
  }

  method PickNewest(tags: seq<string>, exclude: string) returns (r: string)
    ensures PickedNewest(tags, exclude, r)
    ensures forall t :: t in tags && t != exclude && t != "latest" && VersionOf(t).Some? ==>
      && r in tags && r != exclude && r != "latest" && VersionOf(r).Some?
      && NotBehind(VersionOf(r).value, VersionOf(t).value)
    ensures (forall t :: t in tags ==> t == exclude || t == "latest" || VersionOf(t).None?) ==>
      r == if "latest" in tags && exclude != "latest" then "latest" else ""
  {
    hide NotBehind, NewestOf, Older, VersionOf;
    NothingIsNoVersion();
    var best := "";
    var bestVer := Version([], "");
    var hasLatest := false;
    for i := 0 to |tags|
      invariant hasLatest <==> "latest" in tags[..i] && exclude != "latest"
      invariant best == "" ==> forall t :: t in tags[..i] ==> !Candidate(exclude, t)
      invariant best != "" ==> VersionOf(best) == Some(bestVer) && NewestOf(tags[..i], exclude, best)
    {
      var tag := tags[i];
      assert tags[..i + 1] == tags[..i] + [tag];
      if tag == exclude {
        if best != "" { NewestOfKeeps(tags[..i], exclude, best, tag); }
        continue;
      }
      if tag == "latest" {
        hasLatest := true;
        if best != "" { NewestOfKeeps(tags[..i], exclude, best, tag); }
        continue;
      }
      var v := ParseVersion(tag);
      if v.None? {
        if best != "" { NewestOfKeeps(tags[..i], exclude, best, tag); }
        continue;
      }
      var newer := false;
      if best != "" {
        newer := Less(bestVer, v.value);
      }
      if best == "" || newer {
        if best == "" {
          NewestOfFirst(tags[..i], exclude, tag);
        } else {
          NewestOfAdvances(tags[..i], exclude, best, tag);
        }
        best, bestVer := tag, v.value;
      } else {
        NewestOfKeeps(tags[..i], exclude, best, tag);
      }
    }
    assert tags[..|tags|] == tags;
    if best != "" {
      NewestIsListed(tags, exclude, best);
      r := best;
    } else if hasLatest && exclude != "latest" {
      r := "latest";
    } else {
      r := "";
    }
    PickMeaning(tags, exclude, r);
  }

  lemma NothingIsNoVersion()
    ensures VersionOf("").None?
  {
  }

  lemma NewestIsListed(tags: seq<string>, exclude: string, r: string)
    requires NewestOf(tags, exclude, r)
    ensures r in tags && Candidate(exclude, r)
  {
  }

  lemma NewestOfKeeps(tags: seq<string>, exclude: string, best: string, tag: string)
    requires NewestOf(tags, exclude, best)
    requires Candidate(exclude, tag) ==> !Older(VersionOf(best).value, VersionOf(tag).value)
    ensures NewestOf(tags + [tag], exclude, best)
  {
    var i :| 0 <= i < |tags| && tags[i] == best
      && forall j :: 0 <= j < i && Candidate(exclude, tags[j]) ==>
           Older(VersionOf(tags[j]).value, VersionOf(best).value);
    assert (tags + [tag])[i] == best;
  }

  lemma NewestOfFirst(tags: seq<string>, exclude: string, tag: string)
    requires forall t :: t in tags ==> !Candidate(exclude, t)
    requires Candidate(exclude, tag)
    ensures NewestOf(tags + [tag], exclude, tag)
  {
    OlderIsAsymmetric(VersionOf(tag).value, VersionOf(tag).value);
    assert (tags + [tag])[|tags|] == tag;
  }

  lemma NewestOfAdvances(tags: seq<string>, exclude: string, best: string, tag: string)
    requires NewestOf(tags, exclude, best) && Candidate(exclude, tag)
    requires Older(VersionOf(best).value, VersionOf(tag).value)
    ensures NewestOf(tags + [tag], exclude, tag)
  {
    var b, n := VersionOf(best).value, VersionOf(tag).value;
    OlderIsAsymmetric(n, n);
    forall t | t in tags && Candidate(exclude, t)
      ensures Older(VersionOf(t).value, n) && !Older(n, VersionOf(t).value)
    {
      OlderIsNegativelyTransitive(VersionOf(t).value, b, n);
      OlderIsAsymmetric(VersionOf(t).value, n);
    }
    assert (tags + [tag])[|tags|] == tag;
  }

  /** The promise leaves no freedom: two answers for the same list are the same tag. */
  lemma PickIsUnique(tags: seq<string>, exclude: string, r1: string, r2: string)
    requires PickedNewest(tags, exclude, r1) && PickedNewest(tags, exclude, r2)
    ensures r1 == r2
  {
    if exists t :: t in tags && Candidate(exclude, t) {
      var i1 :| 0 <= i1 < |tags| && tags[i1] == r1
        && forall j :: 0 <= j < i1 && Candidate(exclude, tags[j]) ==>
             Older(VersionOf(tags[j]).value, VersionOf(r1).value);
      var i2 :| 0 <= i2 < |tags| && tags[i2] == r2
        && forall j :: 0 <= j < i2 && Candidate(exclude, tags[j]) ==>
             Older(VersionOf(tags[j]).value, VersionOf(r2).value);
      assert r1 in tags && r2 in tags;
      var v1, v2 := VersionOf(r1).value, VersionOf(r2).value;
      assert !Older(v1, v2) && !Older(v2, v1);
      assert i1 == i2;
    }
  }

  /** The excluded tag is never the answer, and an empty answer means nothing was usable. */
  lemma PickIsUsable(tags: seq<string>, exclude: string, r: string)
    requires PickedNewest(tags, exclude, r)
    ensures r != "" ==> r in tags && r != exclude
    ensures r == "" <==> forall t :: t in tags ==> t == exclude || (t != "latest" && VersionOf(t).None?)
    ensures r == "latest" ==> forall t :: t in tags ==> t == exclude || t == "latest" || VersionOf(t).None?
  {
    assert VersionOf("").None?;
    if r == "" {
      forall t | t in tags
        ensures t == exclude || (t != "latest" && VersionOf(t).None?)
      {
        assert !Candidate(exclude, t);
      }
    }
  }

  /** Reordering the tag list changes the answer at most within its class of tied versions. */
  lemma PickIgnoresOrder(tags1: seq<string>, tags2: seq<string>, exclude: string, r1: string, r2: string)
    requires multiset(tags1) == multiset(tags2)
    requires PickedNewest(tags1, exclude, r1) && PickedNewest(tags2, exclude, r2)
    ensures r1 == r2
         || (VersionOf(r1).Some? && VersionOf(r2).Some? && Tied(VersionOf(r1).value, VersionOf(r2).value))
  {
    assert forall t :: t in tags1 <==> t in multiset(tags1);
    assert forall t :: t in tags2 <==> t in multiset(tags2);
    if exists t :: t in tags1 && Candidate(exclude, t) {
      assert r1 in tags1 && r2 in tags2;
    }
  }
}

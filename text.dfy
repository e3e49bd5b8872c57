/**
 * The handful of Python string built-ins the repository relies on, written out:
 * `sep.join(parts)`, `str.strip()`, the leftmost-occurrence search behind `re.search`,
 * and the decimal rendering of integers used by f-strings.
 */
module Text {
  import opened Wrappers

  /** Python's `sep.join(parts)`. Defined from the last part, the way the loops that build
      the parts grow them. */
  function Join(parts: seq<string>, sep: string): string
  {
    if |parts| == 0 then ""
    else if |parts| == 1 then parts[0]
    else Join(parts[..|parts| - 1], sep) + sep + parts[|parts| - 1]
  }

  /** Concatenation of all parts, as produced by repeated `+=`. */
  function Concat(parts: seq<string>): string
  {
    if parts == [] then "" else Concat(parts[..|parts| - 1]) + parts[|parts| - 1]
  }

  /** Total length of the parts. */
  function TotalLength(parts: seq<string>): nat
  {
    if parts == [] then 0 else TotalLength(parts[..|parts| - 1]) + |parts[|parts| - 1]|
  }

  /** A join is as long as its parts plus one separator between each neighbouring pair. */
  lemma {:induction false} JoinLength(parts: seq<string>, sep: string)
    requires parts != []
    ensures |Join(parts, sep)| == TotalLength(parts) + (|parts| - 1) * |sep|
  {
    if |parts| > 1 {
      var init := parts[..|parts| - 1];
      JoinLength(init, sep);
      assert |Join(parts, sep)| == |Join(init, sep)| + |sep| + |parts[|parts| - 1]|;
      assert TotalLength(parts) == TotalLength(init) + |parts[|parts| - 1]|;
      assert (|parts| - 1) * |sep| == (|init| - 1) * |sep| + |sep|;
    } else {
      assert parts[..0] == [];
    }
  }

  /** A join begins with its first part followed, if there is a second part, by the separator. */
  lemma {:induction false} JoinStartsWithFirst(parts: seq<string>, sep: string)
    requires parts != []
    ensures |parts[0]| <= |Join(parts, sep)|
    ensures Join(parts, sep)[..|parts[0]|] == parts[0]
    ensures |parts| > 1 ==> |parts[0]| + |sep| <= |Join(parts, sep)|
    ensures |parts| > 1 ==> Join(parts, sep)[..|parts[0]| + |sep|] == parts[0] + sep
  {
    if |parts| > 2 {
      var init := parts[..|parts| - 1];
      JoinStartsWithFirst(init, sep);
      assert init[0] == parts[0];
      var j := Join(init, sep);
      assert Join(parts, sep) == j + sep + parts[|parts| - 1];
      assert (j + sep + parts[|parts| - 1])[..|parts[0]| + |sep|] == j[..|parts[0]| + |sep|];
      assert (j + sep + parts[|parts| - 1])[..|parts[0]|] == j[..|parts[0]|];
    } else if |parts| == 2 {
      assert Join(parts[..1], sep) == parts[0];
    }
  }

  /** Joining parts that are grouped into two halves: the halves' joins, separated once. */
  lemma {:induction false} JoinSplit(left: seq<string>, right: seq<string>, sep: string)
    requires left != [] && right != []
    ensures Join(left + right, sep) == Join(left, sep) + sep + Join(right, sep)
    decreases |right|
  {
    var all := left + right;
    if |right| == 1 {
      assert all[..|all| - 1] == left;
    } else {
      var rinit := right[..|right| - 1];
      assert all[..|all| - 1] == left + rinit;
      JoinSplit(left, rinit, sep);
    }
  }

  /** Concatenation distributes over `+` of part lists. */
  lemma {:induction false} ConcatAppend(left: seq<string>, right: seq<string>)
    ensures Concat(left + right) == Concat(left) + Concat(right)
    decreases |right|
  {
    if right == [] {
      assert left + right == left;
    } else {
      var rinit := right[..|right| - 1];
      assert (left + right)[..|left + right| - 1] == left + rinit;
      ConcatAppend(left, rinit);
    }
  }

  /** Regrouping a concatenation of three strings. */
  lemma Assoc(a: string, b: string, c: string)
    ensures a + b + c == a + (b + c)
  {
  }

  // ---------------------------------------------------------------------------
  // Decimal rendering (what `f"{n}"` and `str(n)` produce for a Python int)

  function DigitChar(d: nat): (c: char)
    requires d < 10
    ensures '0' <= c <= '9'
  {
    "0123456789"[d]
  }

  /** The decimal digits of `n`, most significant first, with no leading zero. */
  function NatToDecimal(n: nat): (r: string)
    ensures |r| >= 1
    ensures forall i :: 0 <= i < |r| ==> '0' <= r[i] <= '9'
    ensures n >= 10 ==> |r| >= 2
  {
    if n < 10 then [DigitChar(n)] else NatToDecimal(n / 10) + [DigitChar(n % 10)]
  }

  /** The decimal rendering of `n`, with a leading `-` for negative numbers. */
  function IntToDecimal(n: int): (r: string)
    ensures |r| >= 1
  {
    if n < 0 then "-" + NatToDecimal(-n) else NatToDecimal(n)
  }

  lemma DigitCharInjective(a: nat, b: nat)
    requires a < 10 && b < 10 && DigitChar(a) == DigitChar(b)
    ensures a == b
  {
  }

  /** Distinct numbers have distinct decimal renderings, so the keys built from them
      (`heading1`, `heading2`, ...) never collide. */
  lemma {:induction false} NatToDecimalInjective(a: nat, b: nat)
    requires NatToDecimal(a) == NatToDecimal(b)
    ensures a == b
    decreases a
  {
    var ra, rb := NatToDecimal(a), NatToDecimal(b);
    if a < 10 && b < 10 {
      DigitCharInjective(a, b);
    } else if a >= 10 && b >= 10 {
      assert ra[|ra| - 1] == DigitChar(a % 10);
      assert rb[|rb| - 1] == DigitChar(b % 10);
      DigitCharInjective(a % 10, b % 10);
      assert ra[..|ra| - 1] == NatToDecimal(a / 10);
      assert rb[..|rb| - 1] == NatToDecimal(b / 10);
      NatToDecimalInjective(a / 10, b / 10);
    }
  }

  // ---------------------------------------------------------------------------
  // Whitespace and `str.strip()`

  /** The characters for which Python's `str.isspace()` holds. */
  predicate IsSpace(c: char)
  {
    c == ' ' || ('\t' <= c <= '\r') || ('\U{1c}' <= c <= '\U{1f}') || c == '\U{85}' ||
    c == '\U{a0}' || c == '\U{1680}' || ('\U{2000}' <= c <= '\U{200a}') || c == '\U{2028}' ||
    c == '\U{2029}' || c == '\U{202f}' || c == '\U{205f}' || c == '\U{3000}'
  }

  predicate AllSpace(s: string)
  {
    forall i :: 0 <= i < |s| ==> IsSpace(s[i])
  }

  /** `s.lstrip()`: `s` without its leading whitespace. */
  function TrimLeft(s: string): (r: string)
    ensures |r| <= |s|
  {
    if s != [] && IsSpace(s[0]) then TrimLeft(s[1..]) else s
  }

  /** `s.rstrip()`: `s` without its trailing whitespace. */
  function TrimRight(s: string): (r: string)
    ensures |r| <= |s|
  {
    if s != [] && IsSpace(s[|s| - 1]) then TrimRight(s[..|s| - 1]) else s
  }

  /** `s.strip()`: `s` without whitespace at either end. */
  function Strip(s: string): (r: string)
    ensures |r| <= |s|
  {
    TrimRight(TrimLeft(s))
  }

  /** What `lstrip` leaves is a suffix that does not begin with whitespace, and everything
      it dropped is whitespace. */
  lemma {:induction false} TrimLeftIsSuffix(s: string)
    ensures var r := TrimLeft(s);
            && |r| <= |s| && r == s[|s| - |r|..]
            && AllSpace(s[..|s| - |r|])
            && (r == [] || !IsSpace(r[0]))
    decreases |s|
  {
    if s != [] && IsSpace(s[0]) {
      TrimLeftIsSuffix(s[1..]);
      var r := TrimLeft(s);
      assert s[1..][..|s| - 1 - |r|] == s[1..|s| - |r|];
      assert forall i :: 1 <= i < |s| - |r| ==> s[i] == s[1..|s| - |r|][i - 1];
    }
  }

  /** What `rstrip` leaves is a prefix that does not end with whitespace, and everything it
      dropped is whitespace. */
  lemma {:induction false} TrimRightIsPrefix(s: string)
    ensures var r := TrimRight(s);
            && |r| <= |s| && r == s[..|r|]
            && AllSpace(s[|r|..])
            && (r == [] || !IsSpace(r[|r| - 1]))
    decreases |s|
  {
    if s != [] && IsSpace(s[|s| - 1]) {
      var init := s[..|s| - 1];
      TrimRightIsPrefix(init);
      var r := TrimRight(s);
      assert init[..|r|] == s[..|r|];
      assert forall i :: |r| <= i < |s| - 1 ==> s[i] == init[|r|..][i - |r|];
    }
  }

  /** What `strip` leaves is a contiguous slice of `s` that neither begins nor ends with
      whitespace, and everything dropped around it is whitespace. */
  lemma StripIsSlice(s: string)
    ensures var off := |s| - |TrimLeft(s)|;
            var r := Strip(s);
            && off + |r| <= |s| && r == s[off..off + |r|]
            && AllSpace(s[..off]) && AllSpace(s[off + |r|..])
            && (r == [] || (!IsSpace(r[0]) && !IsSpace(r[|r| - 1])))
  {
    var t := TrimLeft(s);
    var off := |s| - |t|;
    var r := Strip(s);
    TrimLeftIsSuffix(s);
    TrimRightIsPrefix(t);
    assert t == s[off..];
    assert r == s[off..off + |r|] by {
      assert r == t[..|r|];
    }
    assert s[off + |r|..] == t[|r|..];
  }

  /** Stripping whitespace wrapped around a payload that has none at its ends gives the
      payload back. */
  lemma StripWrapped(lead: string, payload: string, trail: string)
    requires AllSpace(lead) && AllSpace(trail)
    requires payload == [] || (!IsSpace(payload[0]) && !IsSpace(payload[|payload| - 1]))
    ensures Strip(lead + payload + trail) == payload
  {
    var s := lead + payload + trail;
    assert s == lead + (payload + trail);
    if payload == [] {
      assert payload + trail == trail;
      TrimLeftSkipsSpace(lead, trail);
      TrimLeftAllSpace(trail);
    } else {
      TrimLeftSkipsSpace(lead, payload + trail);
      TrimLeftStops(payload + trail);
      TrimRightSkipsSpace(payload, trail);
    }
  }

  /** Nothing is trimmed from a string that does not begin with whitespace. */
  lemma TrimLeftStops(s: string)
    requires s != [] && !IsSpace(s[0])
    ensures TrimLeft(s) == s
  {
  }

  lemma {:induction false} TrimLeftSkipsSpace(lead: string, rest: string)
    requires AllSpace(lead)
    requires rest == [] || !IsSpace(rest[0]) || AllSpace(rest)
    ensures TrimLeft(lead + rest) == TrimLeft(rest)
    decreases |lead|
  {
    if lead != [] {
      assert (lead + rest)[1..] == lead[1..] + rest;
      TrimLeftSkipsSpace(lead[1..], rest);
    } else {
      assert lead + rest == rest;
    }
  }

  lemma {:induction false} TrimLeftAllSpace(s: string)
    requires AllSpace(s)
    ensures TrimLeft(s) == [] && TrimRight(TrimLeft(s)) == []
    decreases |s|
  {
    if s != [] {
      TrimLeftAllSpace(s[1..]);
    }
  }

  lemma {:induction false} TrimRightSkipsSpace(rest: string, trail: string)
    requires AllSpace(trail)
    requires rest != [] && !IsSpace(rest[|rest| - 1])
    ensures TrimRight(rest + trail) == rest
    decreases |trail|
  {
    if trail == [] {
      assert rest + trail == rest;
    } else {
      var s := rest + trail;
      assert s[..|s| - 1] == rest + trail[..|trail| - 1];
      TrimRightSkipsSpace(rest, trail[..|trail| - 1]);
    }
  }

  // ---------------------------------------------------------------------------
  // Occurrences of a pattern (the literal part of a regular expression)

  /** `pat` occurs in `s` starting at index `i`. */
  predicate OccursAt(s: string, pat: string, i: nat)
  {
    i + |pat| <= |s| && s[i..i + |pat|] == pat
  }

  /** `pat` occurs somewhere in `s`. */
  ghost predicate Contains(s: string, pat: string)
  {
    exists i: nat :: OccursAt(s, pat, i)
  }

  /** The leftmost index at or after `from` where `pat` occurs, if there is one
      (what `str.find(pat, from)` computes, and where a literal regex match starts). */
  function IndexOf(s: string, pat: string, from: nat): (r: Option<nat>)
    ensures r.Some? ==> from <= r.value && OccursAt(s, pat, r.value)
    ensures r.Some? ==> forall i: nat :: from <= i < r.value ==> !OccursAt(s, pat, i)
    ensures r.None? ==> forall i: nat :: from <= i ==> !OccursAt(s, pat, i)
    decreases |s| - from
  {
    if from + |pat| > |s| then None
    else if s[from..from + |pat|] == pat then Some(from)
    else IndexOf(s, pat, from + 1)
  }

  /** A slice of a text in which `pat` does not occur does not contain `pat` either. */
  lemma SliceAvoids(s: string, pat: string, a: nat, b: nat)
    requires a <= b <= |s|
    requires forall i: nat :: a <= i && i + |pat| <= b ==> !OccursAt(s, pat, i)
    ensures !Contains(s[a..b], pat)
  {
    var t := s[a..b];
    forall i: nat | OccursAt(t, pat, i)
      ensures false
    {
      assert forall k :: 0 <= k < |pat| ==> s[a + i + k] == t[i + k] == pat[k];
      assert s[a + i..a + i + |pat|] == pat;
      assert OccursAt(s, pat, a + i);
    }
  }

  // ---------------------------------------------------------------------------
  // Subsequences and character counts

  /** `sub` is obtained from `s` by deleting some of its elements, keeping the order of the rest. */
  predicate IsSubsequence<T(==)>(sub: seq<T>, s: seq<T>)
    decreases |s|
  {
    if sub == [] then true
    else if s == [] then false
    else if sub[0] == s[0] then IsSubsequence(sub[1..], s[1..])
    else IsSubsequence(sub, s[1..])
  }

  /** Putting an element in front keeps a subsequence a subsequence. */
  lemma {:induction false} SubsequenceOfTail<T>(sub: seq<T>, s: seq<T>)
    requires s != [] && IsSubsequence(sub, s[1..])
    ensures IsSubsequence(sub, s)
    decreases |s|, 0
  {
    if sub != [] && sub[0] == s[0] {
      SubsequenceDropHead(sub, s[1..]);
    }
  }

  /** Dropping the first element of a subsequence leaves a subsequence. */
  lemma {:induction false} SubsequenceDropHead<T>(sub: seq<T>, s: seq<T>)
    requires sub != [] && IsSubsequence(sub, s)
    ensures IsSubsequence(sub[1..], s)
    decreases |s|, 1
  {
    if sub[0] == s[0] {
      if sub[1..] != [] {
        SubsequenceOfTail(sub[1..], s);
      }
    } else {
      SubsequenceDropHead(sub, s[1..]);
      if sub[1..] != [] {
        SubsequenceOfTail(sub[1..], s);
      }
    }
  }

  /** Number of occurrences of `x` in `s`. */
  function Count<T(==)>(s: seq<T>, x: T): nat
  {
    if s == [] then 0 else (if s[0] == x then 1 else 0) + Count(s[1..], x)
  }
}

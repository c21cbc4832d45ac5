/** Python's `str.strip()` and `str.replace(old, "")` as the driver applies them to
    every reply line before it converts the line to a number. */
module Text {

  /** The characters for which Python's `str.isspace()` holds. */
  predicate IsSpace(c: char) {
    || ('\U{9}' <= c <= '\U{D}')
    || ('\U{1C}' <= c <= '\U{20}')
    || c == '\U{85}' || c == '\U{A0}' || c == '\U{1680}'
    || ('\U{2000}' <= c <= '\U{200A}')
    || c == '\U{2028}' || c == '\U{2029}' || c == '\U{202F}' || c == '\U{205F}' || c == '\U{3000}'
  }

  predicate AllSpace(s: string) {
    forall i :: 0 <= i < |s| ==> IsSpace(s[i])
  }

  /** Neither begins nor ends with whitespace. */
  predicate Trimmed(s: string) {
    s == [] || (!IsSpace(s[0]) && !IsSpace(s[|s| - 1]))
  }

  /** How many whitespace characters `s` starts with. */
  function LeadingSpace(s: string): (n: nat)
    ensures n <= |s|
    ensures forall i :: 0 <= i < n ==> IsSpace(s[i])
    ensures n == |s| || !IsSpace(s[n])
  {
    if s != [] && IsSpace(s[0]) then
      var m := LeadingSpace(s[1..]);
      assert forall i :: 0 <= i < m ==> s[1..][i] == s[i + 1];
      1 + m
    else 0
  }

  /** How many whitespace characters `s` ends with. */
  function TrailingSpace(s: string): (n: nat)
    ensures n <= |s|
    ensures forall i :: |s| - n <= i < |s| ==> IsSpace(s[i])
    ensures n == |s| || !IsSpace(s[|s| - 1 - n])
  {
    if s != [] && IsSpace(s[|s| - 1]) then
      var m := TrailingSpace(s[..|s| - 1]);
      assert forall i :: 0 <= i < |s| - 1 ==> s[..|s| - 1][i] == s[i];
      1 + m
    else 0
  }

  /** Python's `s.strip()` with no argument: the part of `s` left once the whitespace is
      cut off both ends. */
  function Strip(s: string): (r: string)
    ensures Trimmed(r)
    ensures LeadingSpace(s) + |r| <= |s|
    ensures forall i :: 0 <= i < |r| ==> r[i] == s[LeadingSpace(s) + i]
    ensures forall i :: LeadingSpace(s) + |r| <= i < |s| ==> IsSpace(s[i])
  {
    var n := LeadingSpace(s);
    if n == |s| then []
    else
      var m := TrailingSpace(s);
      assert !IsSpace(s[n]);
      s[n..|s| - m]
  }

  lemma {:induction false} LeadingSpaceOf(w: string, u: string)
    requires AllSpace(w)
    requires u == [] || !IsSpace(u[0])
    ensures LeadingSpace(w + u) == |w|
  {
    if w != [] {
      assert (w + u)[1..] == w[1..] + u;
      LeadingSpaceOf(w[1..], u);
    } else {
      assert w + u == u;
    }
  }

  lemma {:induction false} TrailingSpaceOf(u: string, w: string)
    requires AllSpace(w)
    requires u == [] || !IsSpace(u[|u| - 1])
    ensures TrailingSpace(u + w) == |w|
  {
    if w != [] {
      assert (u + w)[..|u + w| - 1] == u + w[..|w| - 1];
      TrailingSpaceOf(u, w[..|w| - 1]);
    } else {
      assert u + w == u;
    }
  }

  /** `Strip` gives back exactly the trimmed core of a line padded with whitespace,
      whatever the padding: the stripped text is unique. */
  lemma StripPadded(w1: string, t: string, w2: string)
    requires AllSpace(w1) && AllSpace(w2) && Trimmed(t)
    ensures Strip(w1 + t + w2) == t
  {
    var s := w1 + t + w2;
    if t == [] {
      assert s == (w1 + w2) + [];
      LeadingSpaceOf(w1 + w2, []);
    } else {
      assert s == w1 + (t + w2);
      LeadingSpaceOf(w1, t + w2);
      assert s == (w1 + t) + w2;
      TrailingSpaceOf(w1 + t, w2);
      assert s[|w1|..|s| - |w2|] == t;
    }
  }

  /** The stripped line is the slice between the leading and the trailing whitespace. */
  lemma StripSlice(s: string)
    ensures var n := LeadingSpace(s);
      && s[n..n + |Strip(s)|] == Strip(s)
      && AllSpace(s[..n]) && AllSpace(s[n + |Strip(s)|..])
  {
    var n := LeadingSpace(s);
    var r := Strip(s);
    var middle, tail := s[n..n + |r|], s[n + |r|..];
    assert forall i :: 0 <= i < |r| ==> middle[i] == s[n + i];
    assert forall i :: 0 <= i < |tail| ==> tail[i] == s[n + |r| + i];
  }

  /** Stripping twice is stripping once. */
  lemma StripIdempotent(s: string)
    ensures Strip(Strip(s)) == Strip(s)
  {
    assert [] + Strip(s) + [] == Strip(s);
    StripPadded([], Strip(s), []);
  }

  /** `pat` occurs in `s` at index `i`. */
  predicate OccursAt(pat: string, s: string, i: int) {
    0 <= i && i + |pat| <= |s| && s[i..i + |pat|] == pat
  }

  /** `pat` occurs nowhere in `s`. */
  predicate NoOccurrence(pat: string, s: string) {
    forall i :: 0 <= i <= |s| ==> !OccursAt(pat, s, i)
  }

  /** Python's `s.replace(pat, rep)`: scanning from the left, every occurrence of `pat`
      that does not overlap an earlier replaced one is replaced by `rep`. */
  function ReplaceAll(s: string, pat: string, rep: string): string
    requires pat != []
    decreases |s|
  {
    if |s| < |pat| then s
    else if s[..|pat|] == pat then rep + ReplaceAll(s[|pat|..], pat, rep)
    else [s[0]] + ReplaceAll(s[1..], pat, rep)
  }

  /** A text without an occurrence of `pat` is left as it is. */
  lemma {:induction false} ReplaceAbsent(s: string, pat: string, rep: string)
    requires pat != []
    requires NoOccurrence(pat, s)
    ensures ReplaceAll(s, pat, rep) == s
    decreases |s|
  {
    if |s| >= |pat| {
      assert !OccursAt(pat, s, 0);
      forall i | 0 <= i <= |s[1..]|
        ensures !OccursAt(pat, s[1..], i)
      {
        assert !OccursAt(pat, s, i + 1);
        if i + |pat| <= |s[1..]| {
          assert s[1..][i..i + |pat|] == s[i + 1..i + 1 + |pat|];
        }
      }
      ReplaceAbsent(s[1..], pat, rep);
      assert [s[0]] + s[1..] == s;
    }
  }

  /** A prefix in which the first character of `pat` never appears passes through
      unchanged: no occurrence of `pat` can start inside it. */
  lemma {:induction false} ReplaceAfterForeign(x: string, y: string, pat: string, rep: string)
    requires pat != []
    requires pat[0] !in x
    ensures ReplaceAll(x + y, pat, rep) == x + ReplaceAll(y, pat, rep)
    decreases |x|
  {
    if x == [] {
      assert x + y == y;
    } else if |x + y| < |pat| {
      ReplaceAbsent(y, pat, rep);
    } else {
      assert (x + y)[..|pat|][0] == x[0];
      assert (x + y)[1..] == x[1..] + y;
      ReplaceAfterForeign(x[1..], y, pat, rep);
    }
  }

  /** `pat` itself is replaced whole. */
  lemma ReplaceWhole(pat: string, rep: string)
    requires pat != []
    ensures ReplaceAll(pat, pat, rep) == rep
  {
    assert pat[..|pat|] == pat;
    assert pat[|pat|..] == [];
  }

  /** `s` with every `c` dropped and the other characters kept in order. */
  function Without(s: string, c: char): (r: string)
    ensures c !in r
    ensures forall d :: d in r ==> d in s
  {
    if s == [] then []
    else (if s[0] == c then [] else [s[0]]) + Without(s[1..], c)
  }

  /** Deleting a one-character unit is filtering that character out: every occurrence
      goes, nothing else does, and so no new occurrence can appear. */
  lemma {:induction false} DeleteCharIsFilter(s: string, c: char)
    ensures ReplaceAll(s, [c], "") == Without(s, c)
    ensures c !in ReplaceAll(s, [c], "")
    decreases |s|
  {
    if s != [] {
      assert s[..1] == [s[0]];
      assert s[1..] == s[|[c]|..];
      DeleteCharIsFilter(s[1..], c);
    }
  }

  /** Deleting a one-character unit twice is deleting it once. */
  lemma DeleteCharIdempotent(s: string, c: char)
    ensures ReplaceAll(ReplaceAll(s, [c], ""), [c], "") == ReplaceAll(s, [c], "")
  {
    var r := ReplaceAll(s, [c], "");
    DeleteCharIsFilter(s, c);
    forall i | 0 <= i <= |r|
      ensures !OccursAt([c], r, i)
    {
      if i + 1 <= |r| {
        assert r[i..i + 1] == [r[i]];
      }
    }
    ReplaceAbsent(r, [c], "");
  }

  /** Deleting a multi-character unit can create a new occurrence of it: deleting "OHM"
      from "OOHMHM" leaves "OHM", so the deletion is not idempotent. */
  lemma OhmCanReappear()
    ensures ReplaceAll("OOHMHM", "OHM", "") == "OHM"
    ensures ReplaceAll(ReplaceAll("OOHMHM", "OHM", ""), "OHM", "") == ""
  {
    var s := "OOHMHM";
    assert s[..3] == "OOH" != "OHM";
    assert s[1..] == "OHMHM";
    assert s[1..][..3] == "OHM";
    assert s[1..][3..] == "HM";
    assert ReplaceAll("HM", "OHM", "") == "HM";
    ReplaceWhole("OHM", "");
  }

  /** Characters only ever disappear when a unit is deleted. */
  lemma {:induction false} DeleteOnlyRemoves(s: string, pat: string, d: char)
    requires pat != []
    requires d in ReplaceAll(s, pat, "")
    ensures d in s
    decreases |s|
  {
    if |s| >= |pat| {
      if s[..|pat|] == pat {
        assert ReplaceAll(s, pat, "") == ReplaceAll(s[|pat|..], pat, "");
        DeleteOnlyRemoves(s[|pat|..], pat, d);
      } else if d != s[0] {
        DeleteOnlyRemoves(s[1..], pat, d);
      }
    }
  }
}

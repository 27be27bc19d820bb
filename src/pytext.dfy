/**
 * The two Python string operations the mention handler relies on:
 * `str.replace(old, "")` (left-to-right, non-overlapping) and `str.strip()`.
 */
module PyText {

  /** `str.isspace()` for one character: the code points `str.strip()` removes. */
  predicate IsSpace(c: char) {
    c == ' ' || '\t' <= c <= '\r' || '\U{1c}' <= c <= '\U{1f}' ||
    c == '\U{85}' || c == '\U{a0}' || c == '\U{1680}' || '\U{2000}' <= c <= '\U{200a}' ||
    c == '\U{2028}' || c == '\U{2029}' || c == '\U{202f}' || c == '\U{205f}' || c == '\U{3000}'
  }

  /** `t` occurs in `s` starting at index `k`. */
  predicate OccursAt(s: string, t: string, k: int) {
    0 <= k && k + |t| <= |s| && s[k..k + |t|] == t
  }

  /** `t in s`. */
  predicate Contains(s: string, t: string) {
    exists k :: 0 <= k <= |s| && OccursAt(s, t, k)
  }

  /** `s.replace(t, "")`: deletes the occurrences of `t` found scanning left to right. */
  function RemoveAll(s: string, t: string): string
    decreases |s|
  {
    if |t| == 0 || |s| < |t| then s
    else if s[..|t|] == t then RemoveAll(s[|t|..], t)
    else [s[0]] + RemoveAll(s[1..], t)
  }

  /** `s.split(t)`: the pieces between the occurrences `RemoveAll` deletes. */
  function Split(s: string, t: string): (pieces: seq<string>)
    requires |t| > 0
    ensures |pieces| > 0
    decreases |s|
  {
    if |s| < |t| then [s]
    else if s[..|t|] == t then [""] + Split(s[|t|..], t)
    else
      var rest := Split(s[1..], t);
      [[s[0]] + rest[0]] + rest[1..]
  }

  /** `sep.join(pieces)`. */
  function Join(pieces: seq<string>, sep: string): string
    requires |pieces| > 0
  {
    if |pieces| == 1 then pieces[0] else pieces[0] + sep + Join(pieces[1..], sep)
  }

  /** `"".join(pieces)`. */
  function Concat(pieces: seq<string>): string {
    if pieces == [] then "" else pieces[0] + Concat(pieces[1..])
  }

  /** The first piece of a split is a prefix of the input. */
  lemma {:induction false} SplitFirstIsPrefix(s: string, t: string)
    requires |t| > 0
    ensures Split(s, t)[0] <= s
    decreases |s|
  {
    if |s| >= |t| && s[..|t|] != t {
      SplitFirstIsPrefix(s[1..], t);
    }
  }

  /** Gluing the pieces of a split back together with the separator gives the input. */
  lemma {:induction false} SplitJoinRoundTrip(s: string, t: string)
    requires |t| > 0
    ensures Join(Split(s, t), t) == s
    decreases |s|
  {
    if |s| >= |t| {
      if s[..|t|] == t {
        SplitJoinRoundTrip(s[|t|..], t);
        assert s == t + s[|t|..];
      } else {
        var rest := Split(s[1..], t);
        SplitJoinRoundTrip(s[1..], t);
        var pieces := Split(s, t);
        assert s == [s[0]] + s[1..];
        if |rest| > 1 {
          assert pieces[1..] == rest[1..];
          assert Join(rest, t) == rest[0] + t + Join(rest[1..], t);
        }
      }
    }
  }

  /** Removing every occurrence of `t` is gluing the pieces of the split without it. */
  lemma {:induction false} RemoveAllIsConcatOfSplit(s: string, t: string)
    requires |t| > 0
    ensures Concat(Split(s, t)) == RemoveAll(s, t)
    decreases |s|
  {
    if |s| >= |t| {
      if s[..|t|] == t {
        RemoveAllIsConcatOfSplit(s[|t|..], t);
        assert Split(s, t)[1..] == Split(s[|t|..], t);
      } else {
        var rest := Split(s[1..], t);
        RemoveAllIsConcatOfSplit(s[1..], t);
        var pieces := Split(s, t);
        assert pieces[1..] == rest[1..];
        assert Concat(rest) == rest[0] + Concat(rest[1..]);
      }
    }
  }

  /** No piece of a split contains the separator. */
  lemma {:induction false} SplitPiecesAvoidSeparator(s: string, t: string)
    requires |t| > 0
    ensures forall i :: 0 <= i < |Split(s, t)| ==> !Contains(Split(s, t)[i], t)
    decreases |s|
  {
    var pieces := Split(s, t);
    if |s| < |t| {
      assert !Contains(s, t);
    } else if s[..|t|] == t {
      var rest := Split(s[|t|..], t);
      SplitPiecesAvoidSeparator(s[|t|..], t);
      assert !Contains("", t);
      forall i | 0 <= i < |pieces| ensures !Contains(pieces[i], t) {
        if i > 0 { assert pieces[i] == rest[i - 1]; }
      }
    } else {
      var rest := Split(s[1..], t);
      SplitPiecesAvoidSeparator(s[1..], t);
      SplitFirstIsPrefix(s[1..], t);
      var first := [s[0]] + rest[0];
      assert !Contains(first, t) by {
        forall k | 0 <= k <= |first| && OccursAt(first, t, k) ensures false {
          if k > 0 {
            assert first[k..k + |t|] == rest[0][k - 1..k - 1 + |t|];
            assert OccursAt(rest[0], t, k - 1);
          }
        }
      }
      forall i | 0 <= i < |pieces| ensures !Contains(pieces[i], t) {
        if i > 0 { assert pieces[i] == rest[i]; }
      }
    }
  }

  /** `s.lstrip()`. */
  function StripLeading(s: string): string
    decreases |s|
  {
    if |s| > 0 && IsSpace(s[0]) then StripLeading(s[1..]) else s
  }

  /** `s.rstrip()`. */
  function StripTrailing(s: string): string
    decreases |s|
  {
    if |s| > 0 && IsSpace(s[|s| - 1]) then StripTrailing(s[..|s| - 1]) else s
  }

  /** `s.strip()`. */
  function Strip(s: string): string {
    StripTrailing(StripLeading(s))
  }

  /** `StripLeading` removes the longest whitespace prefix. */
  lemma {:induction false} StripLeadingIsSuffix(s: string) returns (i: nat)
    ensures i <= |s| && StripLeading(s) == s[i..]
    ensures forall k :: 0 <= k < i ==> IsSpace(s[k])
    ensures i < |s| ==> !IsSpace(s[i])
    decreases |s|
  {
    if |s| > 0 && IsSpace(s[0]) {
      var i' := StripLeadingIsSuffix(s[1..]);
      i := i' + 1;
      assert s[1..][i'..] == s[i..];
      forall k | 0 <= k < i ensures IsSpace(s[k]) {
        if k > 0 { assert s[k] == s[1..][k - 1]; }
      }
    } else {
      i := 0;
    }
  }

  /** `StripTrailing` removes the longest whitespace suffix. */
  lemma {:induction false} StripTrailingIsPrefix(s: string) returns (j: nat)
    ensures j <= |s| && StripTrailing(s) == s[..j]
    ensures forall k :: j <= k < |s| ==> IsSpace(s[k])
    ensures j > 0 ==> !IsSpace(s[j - 1])
    decreases |s|
  {
    if |s| > 0 && IsSpace(s[|s| - 1]) {
      var init := s[..|s| - 1];
      j := StripTrailingIsPrefix(init);
      assert init[..j] == s[..j];
      forall k | j <= k < |s| ensures IsSpace(s[k]) {
        if k < |s| - 1 { assert s[k] == init[k]; }
      }
    } else {
      j := |s|;
    }
  }

  /**
   * `s.strip()` is the slice `s[i..j]` that drops only whitespace on both sides
   * and neither starts nor ends with whitespace.
   */
  lemma StripIsTrimmedSlice(s: string) returns (i: nat, j: nat)
    ensures i <= j <= |s| && Strip(s) == s[i..j]
    ensures forall k :: 0 <= k < i || j <= k < |s| ==> IsSpace(s[k])
    ensures Strip(s) != "" ==> !IsSpace(Strip(s)[0]) && !IsSpace(Strip(s)[|Strip(s)| - 1])
  {
    i := StripLeadingIsSuffix(s);
    var rest := s[i..];
    var j' := StripTrailingIsPrefix(rest);
    j := i + j';
    assert rest[..j'] == s[i..j];
    forall k | j <= k < |s| ensures IsSpace(s[k]) {
      assert s[k] == rest[k - i];
    }
  }
}

/** UTF-8 (section 3 of RFC 3629) and the log splitter of worker/internal/a2aruntime/runtime.go. */
module Utf8 {
  import opened Bytes

  predicate Tail(b: byte) {
    0x80 <= b <= 0xBF
  }

  /** utf8.RuneStart: every byte that is not a continuation byte. */
  predicate RuneStart(b: byte) {
    !Tail(b)
  }

  /** Length of the well-formed code point at the head of s, or 0 when there is none. */
  function RuneLen(s: Text): (n: nat)
    ensures n <= 4 && n <= |s|
    ensures n > 0 ==> RuneStart(s[0]) && forall k :: 1 <= k < n ==> Tail(s[k])
  {
    if s == [] then 0
    else if s[0] < 0x80 then 1
    else if |s| < 2 || !Tail(s[1]) then 0
    else if 0xC2 <= s[0] <= 0xDF then 2
    else if |s| < 3 || !Tail(s[2]) then 0
    else if s[0] == 0xE0 then (if s[1] >= 0xA0 then 3 else 0)
    else if s[0] == 0xED then (if s[1] <= 0x9F then 3 else 0)
    else if 0xE1 <= s[0] <= 0xEF then 3
    else if |s| < 4 || !Tail(s[3]) then 0
    else if s[0] == 0xF0 then (if s[1] >= 0x90 then 4 else 0)
    else if s[0] == 0xF4 then (if s[1] <= 0x8F then 4 else 0)
    else if 0xF1 <= s[0] <= 0xF3 then 4
    else 0
  }

  predicate WellFormed(s: Text)
    decreases |s|
  {
    s == [] || (RuneLen(s) > 0 && WellFormed(s[RuneLen(s)..]))
  }

  /** Every code point of a well-formed text takes at most max bytes. */
  predicate RunesFit(s: Text, max: int)
    requires WellFormed(s)
    decreases |s|
  {
    s == [] || (RuneLen(s) <= max && RunesFit(s[RuneLen(s)..], max))
  }

  lemma RuneLenOfPrefix(s: Text, k: nat)
    requires k <= |s| && 0 < RuneLen(s) <= k
    ensures RuneLen(s[..k]) == RuneLen(s)
  {
  }

  lemma RuneLenOfExtension(s: Text, more: Text)
    requires RuneLen(s) > 0
    ensures RuneLen(s + more) == RuneLen(s)
  {
    assert (s + more)[..|s|] == s;
  }

  /** A well-formed text may be cut before any byte that starts a code point. */
  lemma {:induction false} CutAtRuneStart(s: Text, k: nat)
    requires WellFormed(s) && k <= |s| && (k < |s| ==> RuneStart(s[k]))
    ensures WellFormed(s[..k]) && WellFormed(s[k..])
    decreases |s|
  {
    var n := RuneLen(s);
    if k == 0 {
      assert s[..k] == [] && s[k..] == s;
    } else if k == |s| {
      assert s[..k] == s && s[k..] == [];
    } else {
      assert k >= n;
      CutAtRuneStart(s[n..], k - n);
      RuneLenOfPrefix(s, k);
      assert s[..k][n..] == s[n..][..k - n];
      assert s[k..] == s[n..][k - n..];
    }
  }

  /** A text that starts like a and goes on well. */
  lemma ExtendWellFormed(a: Text, b: Text)
    requires RuneLen(a) > 0 && WellFormed(a[RuneLen(a)..] + b)
    ensures WellFormed(a + b)
  {
    RuneLenOfExtension(a, b);
    assert (a + b)[RuneLen(a)..] == a[RuneLen(a)..] + b;
  }

  lemma {:induction false} JoinWellFormed(a: Text, b: Text)
    requires WellFormed(a) && WellFormed(b)
    ensures WellFormed(a + b)
    decreases |a|
  {
    if a == [] {
      assert a + b == b;
    } else {
      JoinWellFormed(a[RuneLen(a)..], b);
      ExtendWellFormed(a, b);
    }
  }

  /** Removing a well-formed prefix from a well-formed text leaves a well-formed text. */
  lemma {:induction false} DropWellFormed(a: Text, s: Text)
    requires WellFormed(a) && WellFormed(s) && a <= s
    ensures WellFormed(s[|a|..])
    decreases |a|
  {
    if a != [] {
      var n := RuneLen(a);
      assert a + s[|a|..] == s;
      RuneLenOfExtension(a, s[|a|..]);
      DropWellFormed(a[n..], s[n..]);
      assert s[n..][|a[n..]|..] == s[|a|..];
    } else {
      assert s[|a|..] == s;
    }
  }

  lemma {:induction false} ShortTextsFit(s: Text, max: int)
    requires WellFormed(s) && |s| <= max
    ensures RunesFit(s, max)
    decreases |s|
  {
    if s != [] {
      ShortTextsFit(s[RuneLen(s)..], max);
    }
  }

  lemma {:induction false} FitOfJoin(a: Text, b: Text, max: int)
    requires WellFormed(a) && WellFormed(b)
    requires RunesFit(a, max) && RunesFit(b, max)
    ensures WellFormed(a + b) && RunesFit(a + b, max)
    decreases |a|
  {
    JoinWellFormed(a, b);
    if a == [] {
      assert a + b == b;
    } else {
      FitOfJoin(a[RuneLen(a)..], b, max);
      ExtendFits(a, b, max);
    }
  }

  lemma ExtendFits(a: Text, b: Text, max: int)
    requires 0 < RuneLen(a) <= max && WellFormed(a[RuneLen(a)..] + b) && RunesFit(a[RuneLen(a)..] + b, max)
    ensures WellFormed(a + b) && RunesFit(a + b, max)
  {
    ExtendWellFormed(a, b);
    RuneLenOfExtension(a, b);
    assert (a + b)[RuneLen(a)..] == a[RuneLen(a)..] + b;
  }

  lemma {:induction false} FitOfSuffix(s: Text, k: nat, max: int)
    requires WellFormed(s) && RunesFit(s, max) && k <= |s| && (k < |s| ==> RuneStart(s[k]))
    ensures WellFormed(s[k..]) && RunesFit(s[k..], max)
    decreases |s|
  {
    CutAtRuneStart(s, k);
    var n := RuneLen(s);
    if k == 0 {
      assert s[k..] == s;
    } else if k < |s| {
      assert k >= n;
      FitOfSuffix(s[n..], k - n, max);
      assert s[k..] == s[n..][k - n..];
    }
  }

  // ---------------------------------------------------------------- splitUTF8

  /** Walk back from index end to the start of a code point; 0 when there is none. */
  function BackToStart(value: Text, end: nat): (e: nat)
    requires end < |value|
    ensures e <= end && (e > 0 ==> RuneStart(value[e]))
    ensures forall k :: e < k <= end ==> Tail(value[k])
  {
    if end > 0 && !RuneStart(value[end]) then BackToStart(value, end - 1) else end
  }

  /** Where the next piece ends: at a code point if one starts within the limit, else at the limit. */
  function CutPoint(value: Text, maxBytes: nat): (e: nat)
    requires 0 < maxBytes < |value|
    ensures 0 < e <= maxBytes
  {
    var e := BackToStart(value, maxBytes);
    if e == 0 then maxBytes else e
  }

  function Split(value: Text, maxBytes: int): (pieces: seq<Text>)
    decreases |value|
  {
    if value == [] || maxBytes < 1 then []
    else if |value| <= maxBytes then [value]
    else
      var e := CutPoint(value, maxBytes);
      [value[..e]] + Split(value[e..], maxBytes)
  }

  /** The pieces are non-empty, within the limit, and join to the value. */
  lemma {:induction false} SplitPieces(value: Text, maxBytes: int)
    requires maxBytes >= 1
    ensures Concat(Split(value, maxBytes)) == value
    ensures forall p :: p in Split(value, maxBytes) ==> 0 < |p| <= maxBytes
    decreases |value|
  {
    if value != [] {
      if |value| > maxBytes {
        var e := CutPoint(value, maxBytes);
        SplitPieces(value[e..], maxBytes);
        assert value[..e] + value[e..] == value;
      } else {
        assert Concat([value]) == value + Concat([]);
      }
    }
  }

  ghost predicate AllWellFormed(pieces: seq<Text>) {
    forall i :: 0 <= i < |pieces| ==> WellFormed(pieces[i])
  }

  lemma {:induction false} SplitKeepsRunes(value: Text, maxBytes: int)
    requires maxBytes >= 1 && WellFormed(value) && RunesFit(value, maxBytes)
    ensures AllWellFormed(Split(value, maxBytes))
    decreases |value|
  {
    if |value| > maxBytes {
      var n := RuneLen(value);
      assert n < |value|;
      assert WellFormed(value[n..]) && value[n] == value[n..][0];
      var e := CutPoint(value, maxBytes);
      assert e == BackToStart(value, maxBytes);
      CutAtRuneStart(value, e);
      FitOfSuffix(value, e, maxBytes);
      SplitKeepsRunes(value[e..], maxBytes);
    }
  }

  lemma {:induction false} PiecesFit(pieces: seq<Text>, max: int)
    requires AllWellFormed(pieces) && forall p :: p in pieces ==> |p| <= max
    ensures WellFormed(Concat(pieces)) && RunesFit(Concat(pieces), max)
  {
    if pieces != [] {
      assert forall i :: 0 <= i < |pieces[1..]| ==> pieces[1..][i] == pieces[i + 1];
      PiecesFit(pieces[1..], max);
      ShortTextsFit(pieces[0], max);
      FitOfJoin(pieces[0], Concat(pieces[1..]), max);
    }
  }

  /** The splitter cuts no code point exactly when no code point is wider than the limit. */
  lemma SplitCutsNoRuneIff(value: Text, maxBytes: int)
    requires maxBytes >= 1 && WellFormed(value)
    ensures AllWellFormed(Split(value, maxBytes)) <==> RunesFit(value, maxBytes)
  {
    SplitPieces(value, maxBytes);
    if RunesFit(value, maxBytes) {
      SplitKeepsRunes(value, maxBytes);
    }
    if AllWellFormed(Split(value, maxBytes)) {
      PiecesFit(Split(value, maxBytes), maxBytes);
    }
  }

  lemma {:induction false} FourBytesSuffice(value: Text, maxBytes: int)
    requires maxBytes >= 4 && WellFormed(value)
    ensures RunesFit(value, maxBytes)
    decreases |value|
  {
    if value != [] {
      FourBytesSuffice(value[RuneLen(value)..], maxBytes);
    }
  }

  /** The inner loop: back from the limit to the start of a code point. */
  method FindCut(rest: Text, maxBytes: nat) returns (end: nat)
    requires 1 <= maxBytes < |rest|
    ensures end == CutPoint(rest, maxBytes)
  {
    end := maxBytes;
    while end > 0 && !RuneStart(rest[end])
      invariant 0 <= end <= maxBytes
      invariant BackToStart(rest, end) == BackToStart(rest, maxBytes)
    {
      end := end - 1;
    }
    if end == 0 {
      end := maxBytes;
    }
  }

  lemma SplitNext(result: seq<Text>, rest: Text, maxBytes: nat)
    requires 1 <= maxBytes < |rest|
    ensures var e := CutPoint(rest, maxBytes);
            (result + [rest[..e]]) + Split(rest[e..], maxBytes) == result + Split(rest, maxBytes)
  {
  }

  /** splitUTF8 as the source writes it. */
  method SplitUTF8(value: Text, maxBytes: int) returns (result: seq<Text>)
    ensures result == Split(value, maxBytes)
  {
    if value == [] || maxBytes < 1 {
      return [];
    }
    result := [];
    var rest := value;
    while |rest| > maxBytes
      invariant rest != [] && Split(value, maxBytes) == result + Split(rest, maxBytes)
      decreases |rest|
    {
      var end := FindCut(rest, maxBytes);
      SplitNext(result, rest, maxBytes);
      result := result + [rest[..end]];
      rest := rest[end..];
    }
    result := result + [rest];
  }
}

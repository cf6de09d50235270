/**
  Selection of the dominant facial expression of one detected face.

  The detector reports a probability per expression name. The selector
  scans the entries in enumeration order, keeps the entry whose value is
  strictly greater than everything seen before (starting from 0), and
  shows its name, or "Neutral" when nothing was selected.
 */
module Emotion {

  /** One (name, probability) entry, in the order the detector enumerates them. */
  datatype Expression = Expression(name: string, value: real)

  /** The state of the scan: the name and value of the best entry seen so far. */
  datatype Leader = Leader(name: string, value: real)

  /** The name shown when no entry was selected. */
  const Fallback: string := "Neutral"

  /** The state before any entry is scanned: no name, running maximum 0. */
  const Start: Leader := Leader("", 0.0)

  /** The scan state after processing every entry of `s`, as a left fold:
      an entry replaces the leader only when its value is strictly greater. */
  function Scan(s: seq<Expression>): (r: Leader)
    ensures r.value >= 0.0
    ensures forall j :: 0 <= j < |s| ==> s[j].value <= r.value
    ensures r.value == 0.0 ==> r == Start
    ensures r.value > 0.0 ==> Expression(r.name, r.value) in s
    decreases |s|
  {
    if |s| == 0 then Start
    else
      var acc := Scan(s[..|s| - 1]);
      var e := s[|s| - 1];
      assert s == s[..|s| - 1] + [e];
      if e.value > acc.value then Leader(e.name, e.value) else acc
  }

  /** `k` is the earliest entry holding the maximum of `s`, and that maximum is positive. */
  ghost predicate FirstMaximum(s: seq<Expression>, k: int)
  {
    && 0 <= k < |s|
    && s[k].value > 0.0
    && (forall j :: 0 <= j < |s| ==> s[j].value <= s[k].value)
    && (forall j :: 0 <= j < k ==> s[j].value < s[k].value)
  }

  /** Some entry of `s` has a strictly positive value. */
  ghost predicate SomePositive(s: seq<Expression>)
  {
    exists j :: 0 <= j < |s| && s[j].value > 0.0
  }

  /** The text shown for a selected name: an empty name is falsy, so it also shows the fallback. */
  function Shown(name: string): (r: string)
    ensures r != ""
    ensures name != "" ==> r == name
  {
    if name == "" then Fallback else name
  }

  /** The dominant emotion of the entries `s`, as the scan computes it. */
  function DominantEmotion(s: seq<Expression>): (r: string)
    ensures !SomePositive(s) ==> r == Fallback
    ensures r != Fallback ==> exists j :: 0 <= j < |s| && s[j].name == r && s[j].value > 0.0
  {
    var leader := Scan(s);
    assert leader.value > 0.0 ==> exists j :: 0 <= j < |s| && s[j] == Expression(leader.name, leader.value);
    Shown(leader.name)
  }

  /** When `k` is the first maximum, the scan ends holding exactly entry `k`:
      later entries of equal value never replace it. */
  lemma {:induction false} ScanSelectsFirstMaximum(s: seq<Expression>, k: int)
    requires FirstMaximum(s, k)
    ensures Scan(s) == Leader(s[k].name, s[k].value)
    decreases |s|
  {
    var n := |s| - 1;
    var prefix := s[..n];
    if k == n {
      var acc := Scan(prefix);
      assert forall j :: 0 <= j < n ==> prefix[j].value < s[k].value;
      if acc.value > 0.0 {
        assert Expression(acc.name, acc.value) in prefix;
        var i :| 0 <= i < n && prefix[i] == Expression(acc.name, acc.value);
        assert acc.value < s[k].value;
      }
    } else {
      assert FirstMaximum(prefix, k);
      ScanSelectsFirstMaximum(prefix, k);
      assert s[n].value <= s[k].value;
    }
  }

  /** Whenever some entry is positive, a first maximum exists. */
  lemma {:induction false} FirstMaximumExists(s: seq<Expression>) returns (k: int)
    requires SomePositive(s)
    ensures FirstMaximum(s, k)
    decreases |s|
  {
    var n := |s| - 1;
    var prefix := s[..n];
    if SomePositive(prefix) {
      var i := FirstMaximumExists(prefix);
      if s[n].value > prefix[i].value {
        k := n;
      } else {
        k := i;
      }
    } else {
      assert forall j :: 0 <= j < n ==> prefix[j].value <= 0.0;
      k := n;
    }
  }

  /** What the selector shows, stated without the scan: the fallback when
      no entry is positive, otherwise the (shown) name of the first maximum. */
  lemma DominantEmotionIsFirstMaximum(s: seq<Expression>)
    ensures !SomePositive(s) ==> DominantEmotion(s) == Fallback
    ensures forall k :: FirstMaximum(s, k) ==> DominantEmotion(s) == Shown(s[k].name)
    ensures DominantEmotion(s) != Fallback ==> exists k :: FirstMaximum(s, k) && DominantEmotion(s) == s[k].name
  {
    forall k | FirstMaximum(s, k)
      ensures DominantEmotion(s) == Shown(s[k].name)
    {
      ScanSelectsFirstMaximum(s, k);
    }
    if SomePositive(s) {
      var k := FirstMaximumExists(s);
      ScanSelectsFirstMaximum(s, k);
    }
  }

  /** getDominantEmotion: the imperative scan over the entries, keeping the
      running name and maximum exactly as the source does. */
  method GetDominantEmotion(expressions: seq<Expression>) returns (r: string)
    ensures !SomePositive(expressions) ==> r == Fallback
    ensures forall k :: FirstMaximum(expressions, k) ==> r == Shown(expressions[k].name)
    ensures r != Fallback ==> exists k :: FirstMaximum(expressions, k) && r == expressions[k].name
  {
    var maxEmotion := "";
    var maxValue := 0.0;
    for i := 0 to |expressions|
      invariant Leader(maxEmotion, maxValue) == Scan(expressions[..i])
    {
      assert expressions[..i + 1][..i] == expressions[..i];
      var e := expressions[i];
      if e.value > maxValue {
        maxValue := e.value;
        maxEmotion := e.name;
      }
    }
    assert expressions[..|expressions|] == expressions;
    r := Shown(maxEmotion);
    assert r == DominantEmotion(expressions);
    DominantEmotionIsFirstMaximum(expressions);
  }

  /** Four small mappings: an empty or all-zero mapping shows the fallback,
      the larger probability wins, and an exact tie goes to the earlier entry. */
  lemma WorkedExamples()
    ensures DominantEmotion([]) == Fallback
    ensures DominantEmotion([Expression("happy", 0.0), Expression("sad", 0.0)]) == Fallback
    ensures DominantEmotion([Expression("happy", 0.9), Expression("sad", 0.1)]) == "happy"
    ensures DominantEmotion([Expression("happy", 0.5), Expression("sad", 0.5)]) == "happy"
  {
    var zeros := [Expression("happy", 0.0), Expression("sad", 0.0)];
    assert !SomePositive(zeros);
    var clear := [Expression("happy", 0.9), Expression("sad", 0.1)];
    assert FirstMaximum(clear, 0);
    ScanSelectsFirstMaximum(clear, 0);
    var tie := [Expression("happy", 0.5), Expression("sad", 0.5)];
    assert FirstMaximum(tie, 0);
    ScanSelectsFirstMaximum(tie, 0);
  }

  /** A positive entry with an empty name still wins the scan, but the
      falsy name makes the selector show the fallback. */
  lemma EmptyLabelShowsFallback(s: seq<Expression>, k: int)
    requires FirstMaximum(s, k) && s[k].name == ""
    ensures DominantEmotion(s) == Fallback
  {
    ScanSelectsFirstMaximum(s, k);
  }
}

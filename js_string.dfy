/**
 * The JavaScript string operations the guards and the controller rely on:
 * `startsWith`, `indexOf` and `split` with a non-empty string separator.
 * `split` follows the ECMAScript algorithm: it searches for the separator
 * from the current position, emits the text before each match, resumes
 * after the match, and emits the remainder last.
 */
module JsString {
  import opened Wrappers

  /** `s.startsWith(prefix)` */
  predicate StartsWith(s: string, prefix: string) {
    |prefix| <= |s| && s[..|prefix|] == prefix
  }

  /** `s` starts with `prefix` exactly when it agrees with `prefix` at each of the prefix's positions. */
  lemma StartsWithPointwise(s: string, prefix: string)
    ensures StartsWith(s, prefix) <==> |prefix| <= |s| && forall i :: 0 <= i < |prefix| ==> s[i] == prefix[i]
  {
  }

  /** `sep` occurs in `s` starting at index `i`. */
  predicate OccursAt(s: string, sep: string, i: nat) {
    i + |sep| <= |s| && s[i..i + |sep|] == sep
  }

  /** `s.includes(sep)` */
  predicate Contains(s: string, sep: string) {
    exists i: nat | i <= |s| :: OccursAt(s, sep, i)
  }

  /** Occurrences in `s[1..]` are the occurrences in `s` shifted by one. */
  lemma ShiftOccurrences(s: string, sep: string)
    requires |s| > 0
    ensures forall i: nat :: OccursAt(s[1..], sep, i) <==> OccursAt(s, sep, i + 1)
  {
  }

  /** `s.indexOf(sep)`: the first index where `sep` occurs, or None for -1. */
  function IndexOf(s: string, sep: string): (r: Option<nat>)
    ensures r.Some? ==> OccursAt(s, sep, r.value)
    ensures r.Some? ==> forall i: nat :: i < r.value ==> !OccursAt(s, sep, i)
    ensures r.None? <==> !Contains(s, sep)
    decreases |s|
  {
    if |s| < |sep| then None
    else if s[..|sep|] == sep then Some(0)
    else
      ShiftOccurrences(s, sep);
      match IndexOf(s[1..], sep)
      case None =>
        assert forall i: nat :: !OccursAt(s, sep, i) by {
          forall i: nat ensures !OccursAt(s, sep, i) {
            if i > 0 { assert !OccursAt(s[1..], sep, i - 1); }
          }
        }
        None
      case Some(k) =>
        assert forall i: nat :: i < k + 1 ==> !OccursAt(s, sep, i) by {
          forall i: nat | i < k + 1 ensures !OccursAt(s, sep, i) {
            if i > 0 { assert !OccursAt(s[1..], sep, i - 1); }
          }
        }
        Some(k + 1)
  }

  /** `s.split(sep)` for a non-empty separator. */
  function Split(s: string, sep: string): (pieces: seq<string>)
    requires sep != []
    ensures |pieces| >= 1
    decreases |s|
  {
    match IndexOf(s, sep)
    case None => [s]
    case Some(q) =>
      [s[..q]] + Split(s[q + |sep|..], sep)
  }

  /** `pieces.join(sep)` */
  function Join(pieces: seq<string>, sep: string): string
    requires |pieces| >= 1
    decreases |pieces|
  {
    if |pieces| == 1 then pieces[0] else pieces[0] + sep + Join(pieces[1..], sep)
  }

  /**
   * The split searches leftmost-first: with no occurrence of `sep` the only
   * piece is `s`; otherwise there are at least two pieces and the first ends
   * where the leftmost occurrence begins.
   */
  lemma SplitAtLeftmostOccurrence(s: string, sep: string)
    requires sep != []
    ensures !Contains(s, sep) ==> Split(s, sep) == [s]
    ensures Contains(s, sep) ==> |Split(s, sep)| >= 2 && Split(s, sep)[0] == s[..IndexOf(s, sep).value]
  {
  }

  /** Joining the pieces of a split with the same separator gives back the string. */
  lemma {:induction false} JoinSplit(s: string, sep: string)
    requires sep != []
    ensures Join(Split(s, sep), sep) == s
    decreases |s|
  {
    match IndexOf(s, sep)
    case None =>
    case Some(q) =>
      var rest := s[q + |sep|..];
      JoinSplit(rest, sep);
      SplitStep(s, sep, q);
      Reassemble(s, q, q + |sep|);
  }

  /** One step of the split: the text before the leftmost occurrence, then the split of the rest. */
  lemma SplitStep(s: string, sep: string, q: nat)
    requires sep != []
    requires IndexOf(s, sep) == Some(q)
    ensures q + |sep| <= |s| && s[q..q + |sep|] == sep
    ensures |Split(s, sep)| == 1 + |Split(s[q + |sep|..], sep)|
    ensures Split(s, sep)[0] == s[..q]
    ensures Split(s, sep)[1..] == Split(s[q + |sep|..], sep)
  {
  }

  /** A string is the concatenation of its three slices at `i` and `j`. */
  lemma Reassemble(s: string, i: nat, j: nat)
    requires i <= j <= |s|
    ensures s == s[..i] + s[i..j] + s[j..]
  {
  }

  /** No piece produced by a split contains the separator. */
  lemma {:induction false} PiecesAvoidSeparator(s: string, sep: string, k: nat)
    requires sep != []
    requires k < |Split(s, sep)|
    ensures !Contains(Split(s, sep)[k], sep)
    decreases |s|
  {
    match IndexOf(s, sep)
    case None =>
    case Some(q) =>
      var rest := s[q + |sep|..];
      assert Split(s, sep) == [s[..q]] + Split(rest, sep);
      if k == 0 {
        PrefixBeforeFirstOccurrence(s, sep, q);
      } else {
        PiecesAvoidSeparator(rest, sep, k - 1);
        assert Split(s, sep)[k] == Split(rest, sep)[k - 1];
      }
  }

  /** The text before the first occurrence of `sep` does not contain `sep`. */
  lemma PrefixBeforeFirstOccurrence(s: string, sep: string, q: nat)
    requires sep != []
    requires q <= |s|
    requires forall i: nat :: i < q ==> !OccursAt(s, sep, i)
    ensures !Contains(s[..q], sep)
  {
    forall i: nat | OccursAt(s[..q], sep, i) ensures false {
      assert s[..q][i..i + |sep|] == s[i..i + |sep|];
      assert OccursAt(s, sep, i);
    }
  }

  /**
   * The first piece of a split is the text before the first occurrence of
   * `sep`: it is a prefix of `s`, it does not contain `sep`, and it either is
   * all of `s` or is followed by an occurrence of `sep`.
   */
  lemma FirstPiece(s: string, sep: string)
    requires sep != []
    ensures StartsWith(s, Split(s, sep)[0])
    ensures !Contains(Split(s, sep)[0], sep)
    ensures |Split(s, sep)[0]| == |s| || OccursAt(s, sep, |Split(s, sep)[0]|)
  {
    PiecesAvoidSeparator(s, sep, 0);
  }

  /**
   * When `s` starts with `sep`, the split yields at least two pieces, the
   * first is empty and the second is the first piece of the text after the
   * leading separator.
   */
  lemma SplitAfterLeadingSeparator(s: string, sep: string)
    requires sep != []
    requires StartsWith(s, sep)
    ensures |Split(s, sep)| >= 2
    ensures Split(s, sep)[0] == []
    ensures Split(s, sep)[1] == Split(s[|sep|..], sep)[0]
  {
    assert s[..|sep|] == sep;
    assert IndexOf(s, sep) == Some(0);
  }

  /**
   * When `s` starts with `sep`, `split(sep)[1]` is the text after the
   * leading separator up to the next occurrence of `sep` or the end.
   */
  lemma SecondPiece(s: string, sep: string)
    requires sep != []
    requires StartsWith(s, sep)
    ensures |Split(s, sep)| >= 2
    ensures var t := Split(s, sep)[1];
      && StartsWith(s[|sep|..], t)
      && !Contains(t, sep)
      && (|sep| + |t| == |s| || OccursAt(s, sep, |sep| + |t|))
  {
    SplitAfterLeadingSeparator(s, sep);
    FirstPiece(s[|sep|..], sep);
    ShiftedOccurrence(s, sep, Split(s[|sep|..], sep)[0]);
  }

  /** An end-or-occurrence position in `s[|sep|..]` is one in `s`, shifted by `|sep|`. */
  lemma ShiftedOccurrence(s: string, sep: string, t: string)
    requires |sep| <= |s|
    requires |t| == |s[|sep|..]| || OccursAt(s[|sep|..], sep, |t|)
    ensures |sep| + |t| == |s| || OccursAt(s, sep, |sep| + |t|)
  {
    if OccursAt(s[|sep|..], sep, |t|) {
      assert s[|sep|..][|t|..|t| + |sep|] == s[|sep| + |t|..|sep| + |t| + |sep|];
    }
  }
}

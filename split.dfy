/**
 * `split_one_mut`: the slice is cut into the element at `i`, which the
 * caller may update, and an iterator over every other element, in their
 * original order (`split_at_mut(i)` then `split_at_mut(1)`). The first cut
 * panics when `i > |s|`, the second (on an empty rest) when `i == |s|`; so
 * `i < |s|` is exactly the precondition under which neither panics.
 *
 * The flocking passes of every variant are built on it: turn `i` borrows
 * element `i` apart from the others, computes its new value from it and the
 * others as they stand, and writes it back. The pass and the facts about its
 * order are stated here once, for any element type and any turn.
 */
module SplitOne {

  function SplitOneMut<T>(s: seq<T>, i: nat): (r: (T, seq<T>))
    requires i < |s|
    ensures r.0 == s[i]
    ensures |r.1| == |s| - 1
    ensures forall j :: 0 <= j < i ==> r.1[j] == s[j]
    ensures forall j :: i <= j < |r.1| ==> r.1[j] == s[j + 1]
  {
    var prev, currentAndEnd := s[..i], s[i..];
    (currentAndEnd[0], prev + currentAndEnd[1..])
  }

  /** Putting the current element back between the two halves gives the slice back. */
  lemma SplitOneMutReassembles<T>(s: seq<T>, i: nat)
    requires i < |s|
    ensures var (current, others) := SplitOneMut(s, i);
            others[..i] + [current] + others[i..] == s
  {
    var (current, others) := SplitOneMut(s, i);
    var t := others[..i] + [current] + others[i..];
    assert |t| == |s|;
    forall j | 0 <= j < |s| ensures t[j] == s[j] {
      if j < i {
        assert t[j] == others[j];
      } else if j == i {
      } else {
        assert t[j] == others[j - 1];
      }
    }
  }

  /** The others are exactly the slice with position `i` taken out, so `i` never aliases one of them. */
  lemma SplitOneMutOthers<T>(s: seq<T>, i: nat)
    requires i < |s|
    ensures SplitOneMut(s, i).1 == s[..i] + s[i + 1..]
  {
    var others := SplitOneMut(s, i).1;
    var t := s[..i] + s[i + 1..];
    assert |t| == |others|;
    forall j | 0 <= j < |t| ensures t[j] == others[j] {
      if j < i { assert t[j] == s[j]; } else { assert t[j] == s[j + 1]; }
    }
  }

  /** Turn `i`: the new value of element `i`, computed from it and the others as `t` stands. */
  function TurnAt<T>(t: seq<T>, i: nat, turn: (T, seq<T>) -> T): T
    requires i < |t|
  {
    var (current, others) := SplitOneMut(t, i);
    turn(current, others)
  }

  /** The slice after turns `0 .. k-1`, in index order. */
  function Turns<T>(s: seq<T>, k: nat, turn: (T, seq<T>) -> T): (r: seq<T>)
    requires k <= |s|
    ensures |r| == |s|
  {
    if k == 0 then s
    else
      var t := Turns(s, k - 1, turn);
      t[k - 1 := TurnAt(t, k - 1, turn)]
  }

  /**
   * Turn `i` changes element `i` only: after the first `k` turns, elements
   * at `k` and beyond are untouched and elements before `k` hold the value
   * their own turn gave them.
   */
  lemma {:induction false} TurnsFrame<T>(s: seq<T>, k: nat, turn: (T, seq<T>) -> T)
    requires k <= |s|
    ensures forall j :: k <= j < |s| ==> Turns(s, k, turn)[j] == s[j]
    ensures forall j :: 0 <= j < k ==> Turns(s, k, turn)[j] == Turns(s, j + 1, turn)[j]
  {
    if k > 0 {
      TurnsFrame(s, k - 1, turn);
    }
  }

  /**
   * What turn `i` reads: element `i` as it was before the pass, the elements
   * before `i` as the whole pass leaves them (already updated), the elements
   * after `i` as they were before the pass.
   */
  lemma TurnSeesUpdatedPrefix<T>(s: seq<T>, i: nat, turn: (T, seq<T>) -> T)
    requires i < |s|
    ensures var t := Turns(s, i, turn);
            t[i] == s[i] &&
            SplitOneMut(t, i).1 == Turns(s, |s|, turn)[..i] + s[i + 1..]
  {
    var t := Turns(s, i, turn);
    var f := Turns(s, |s|, turn);
    TurnsFrame(s, i, turn);
    TurnsFrame(s, |s|, turn);
    SplitOneMutOthers(t, i);
    assert t[..i] == f[..i];
    assert t[i + 1..] == s[i + 1..];
  }
}

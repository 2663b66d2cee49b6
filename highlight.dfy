/** The "active" marker of the toolbar's button groups.

    A group is the ordered list of buttons found under one group marker
    (alignment, spacing, format, script); its state is one flag per button,
    true when the button carries the "active" class.  A group is either
    exclusive (a click clears the whole group before re-marking the clicked
    button) or independent (a click toggles the clicked button only).
 */
module Highlight {

  /** The group with every marker removed. */
  function Cleared(s: seq<bool>): (r: seq<bool>)
    ensures |r| == |s|
    ensures forall j :: 0 <= j < |r| ==> !r[j]
  {
    seq(|s|, j => false)
  }

  /** Exclusive click on button i: remember whether i was active, clear the
      group, and mark i again only if it was not active before. */
  function ExclusiveClick(s: seq<bool>, i: nat): (r: seq<bool>)
    requires i < |s|
    ensures |r| == |s|
    ensures r[i] == !s[i]
    ensures forall j :: 0 <= j < |r| && j != i ==> !r[j]
  {
    var alreadyActive := s[i];
    Cleared(s)[i := !alreadyActive]
  }

  /** Independent click on button i: toggle its marker.  The clicked flag
      is inverted and every other flag of the group is kept. */
  function IndependentClick(s: seq<bool>, i: nat): (r: seq<bool>)
    requires i < |s|
    ensures |r| == |s|
    ensures r[i] == !s[i]
    ensures forall j :: 0 <= j < |r| && j != i ==> r[j] == s[j]
  {
    s[i := !s[i]]
  }

  /** The click listener a group gets from its highlighting mode. */
  function GroupClick(exclusive: bool, s: seq<bool>, i: nat): seq<bool>
    requires i < |s|
  {
    if exclusive then ExclusiveClick(s, i) else IndependentClick(s, i)
  }

  /** Every click names a button of a group of n buttons. */
  predicate InGroup(clicks: seq<nat>, n: nat) {
    forall k :: 0 <= k < |clicks| ==> clicks[k] < n
  }

  /** The group after the clicks, oldest first. */
  function RunClicks(exclusive: bool, s: seq<bool>, clicks: seq<nat>): (r: seq<bool>)
    requires InGroup(clicks, |s|)
    ensures |r| == |s|
    decreases |clicks|
  {
    if clicks == [] then s
    else RunClicks(exclusive, GroupClick(exclusive, s, clicks[0]), clicks[1..])
  }

  /** Number of active buttons. */
  function ActiveCount(s: seq<bool>): nat {
    if s == [] then 0 else (if s[0] then 1 else 0) + ActiveCount(s[1..])
  }

  /** No two distinct buttons are active. */
  predicate AtMostOneActive(s: seq<bool>) {
    forall j, k :: 0 <= j < |s| && 0 <= k < |s| && s[j] && s[k] ==> j == k
  }

  /** Number of occurrences of button i in a click sequence. */
  function Occurrences(clicks: seq<nat>, i: nat): nat {
    if clicks == [] then 0 else (if clicks[0] == i then 1 else 0) + Occurrences(clicks[1..], i)
  }

  // ---------------------------------------------------------------------
  // Counting active buttons

  lemma {:induction false} NoneActiveIffZero(s: seq<bool>)
    ensures ActiveCount(s) == 0 <==> forall j :: 0 <= j < |s| ==> !s[j]
  {
    if s != [] {
      NoneActiveIffZero(s[1..]);
      assert forall j :: 1 <= j < |s| ==> s[j] == s[1..][j - 1];
    }
  }

  /** Setting one flag changes the count by the difference of the old and
      new flag. */
  lemma {:induction false} ActiveCountUpdate(s: seq<bool>, i: nat, b: bool)
    requires i < |s|
    ensures ActiveCount(s[i := b]) + (if s[i] then 1 else 0) == ActiveCount(s) + (if b then 1 else 0)
  {
    if i > 0 {
      assert s[i := b][1..] == s[1..][i - 1 := b];
      ActiveCountUpdate(s[1..], i - 1, b);
    } else {
      assert s[i := b][1..] == s[1..];
    }
  }

  /** The count-based and the pairwise statement of "at most one active"
      agree. */
  lemma {:induction false} AtMostOneIffCount(s: seq<bool>)
    ensures AtMostOneActive(s) <==> ActiveCount(s) <= 1
  {
    if s != [] {
      var t := s[1..];
      assert forall j :: 1 <= j < |s| ==> s[j] == t[j - 1];
      AtMostOneIffCount(t);
      NoneActiveIffZero(t);
      if s[0] {
        if AtMostOneActive(s) {
          forall j | 0 <= j < |t| ensures !t[j] {
            assert s[j + 1] == t[j];
          }
        }
      } else {
        if AtMostOneActive(t) {
          forall j, k | 0 <= j < |s| && 0 <= k < |s| && s[j] && s[k] ensures j == k {
            assert t[j - 1] && t[k - 1];
          }
        }
        if AtMostOneActive(s) {
          forall j, k | 0 <= j < |t| && 0 <= k < |t| && t[j] && t[k] ensures j == k {
            assert s[j + 1] && s[k + 1];
          }
        }
      }
    }
  }

  lemma ClearedNoneActive(s: seq<bool>)
    ensures ActiveCount(Cleared(s)) == 0
  {
    NoneActiveIffZero(Cleared(s));
  }

  // ---------------------------------------------------------------------
  // Exclusive groups

  /** Clicking an inactive button marks it and only it. */
  lemma ExclusiveClickActivates(s: seq<bool>, i: nat)
    requires i < |s| && !s[i]
    ensures ExclusiveClick(s, i)[i]
    ensures forall j :: 0 <= j < |s| && j != i ==> !ExclusiveClick(s, i)[j]
    ensures ActiveCount(ExclusiveClick(s, i)) == 1
  {
    ClearedNoneActive(s);
    ActiveCountUpdate(Cleared(s), i, true);
  }

  /** Clicking an active button leaves no button of the group active. */
  lemma ExclusiveClickDeactivates(s: seq<bool>, i: nat)
    requires i < |s| && s[i]
    ensures forall j :: 0 <= j < |s| ==> !ExclusiveClick(s, i)[j]
    ensures ActiveCount(ExclusiveClick(s, i)) == 0
  {
    NoneActiveIffZero(ExclusiveClick(s, i));
  }

  /** Whatever the flags before, an exclusive click leaves at most one
      button active: exactly one when the clicked one was inactive, none
      when it was active. */
  lemma ExclusiveClickAtMostOne(s: seq<bool>, i: nat)
    requires i < |s|
    ensures AtMostOneActive(ExclusiveClick(s, i))
    ensures ActiveCount(ExclusiveClick(s, i)) == if s[i] then 0 else 1
  {
    if s[i] {
      ExclusiveClickDeactivates(s, i);
    } else {
      ExclusiveClickActivates(s, i);
    }
    AtMostOneIffCount(ExclusiveClick(s, i));
  }

  /** After any non-empty sequence of clicks on an exclusive group, and
      after any sequence at all when the page started with at most one
      active button, at most one button is active. */
  lemma {:induction false} ExclusiveRunAtMostOne(s: seq<bool>, clicks: seq<nat>)
    requires InGroup(clicks, |s|)
    requires clicks != [] || AtMostOneActive(s)
    ensures AtMostOneActive(RunClicks(true, s, clicks))
    decreases |clicks|
  {
    if clicks != [] {
      ExclusiveClickAtMostOne(s, clicks[0]);
      ExclusiveRunAtMostOne(ExclusiveClick(s, clicks[0]), clicks[1..]);
    }
  }

  // ---------------------------------------------------------------------
  // Independent groups

  /** Two independent clicks on the same button restore the group. */
  lemma IndependentClickTwice(s: seq<bool>, i: nat)
    requires i < |s|
    ensures IndependentClick(IndependentClick(s, i), i) == s
  {
  }

  /** After a sequence of clicks on an independent group, a button is active
      exactly when it started active and was clicked an even number of
      times, or started inactive and was clicked an odd number of times;
      in particular clicks on other buttons never change it. */
  lemma {:induction false} IndependentRunParity(s: seq<bool>, clicks: seq<nat>, j: nat)
    requires InGroup(clicks, |s|) && j < |s|
    ensures RunClicks(false, s, clicks)[j] == (s[j] != (Occurrences(clicks, j) % 2 == 1))
    decreases |clicks|
  {
    if clicks != [] {
      var s' := IndependentClick(s, clicks[0]);
      assert InGroup(clicks[1..], |s'|) by {
        forall k | 0 <= k < |clicks[1..]| ensures clicks[1..][k] < |s'| {
          assert clicks[1..][k] == clicks[k + 1];
        }
      }
      IndependentRunParity(s', clicks[1..], j);
    }
  }

  // ---------------------------------------------------------------------
  // A group of buttons on the page

  class ButtonGroup {
    /** The "active" marker of each button, in document order. */
    const buttons: array<bool>
    /** True for exclusive groups: the needsRemoval argument of highlighter. */
    const exclusive: bool

    constructor (initial: seq<bool>, exclusive: bool)
      ensures fresh(buttons)
      ensures buttons[..] == initial
      ensures this.exclusive == exclusive
    {
      buttons := new bool[|initial|](k => if 0 <= k < |initial| then initial[k] else false);
      this.exclusive := exclusive;
    }

    /** highlighterRemover: remove the marker from every button. */
    method Clear()
      modifies buttons
      ensures buttons[..] == Cleared(old(buttons[..]))
    {
      for k := 0 to buttons.Length
        invariant forall j :: 0 <= j < k ==> !buttons[j]
      {
        buttons[k] := false;
      }
    }

    /** The click listener that highlighter installs on button i. */
    method Click(i: nat)
      requires i < buttons.Length
      modifies buttons
      ensures buttons[..] == GroupClick(exclusive, old(buttons[..]), i)
    {
      if exclusive {
        var alreadyActive := false;
        if buttons[i] {
          alreadyActive := true;
        }
        Clear();
        if !alreadyActive {
          buttons[i] := true;
        }
      } else {
        buttons[i] := !buttons[i];
      }
    }
  }
}

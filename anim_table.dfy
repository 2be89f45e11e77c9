/** The animation tables RemoteControlCozmo builds at construction
    (control.py, __init__): the robot's animation names sorted, with the names
    known to misbehave removed, and for each digit key the index of its
    default animation in that list. */
module AnimTable {
  import opened Util

  /** Animations removed from the list because they misbehave. */
  const BadAnimNames: seq<string> := [
    "ANIMATION_TEST",
    "ID_AlignToObject_Content_Drive",
    "ID_AlignToObject_Content_Start",
    "ID_AlignToObject_Content_Stop",
    "ID_AlignToObject_Frustrated_Drive",
    "ID_AlignToObject_Frustrated_Start",
    "ID_AlignToObject_Frustrated_Stop",
    "ID_catch_start",
    "ID_end",
    "ID_reactTppl_Surprise",
    "ID_test",
    "ID_wake_openEyes",
    "ID_wake_sleeping",
    "LiftEffortPickup",
    "LiftEffortPlaceHigh",
    "LiftEffortPlaceLow",
    "LiftEffortRoll",
    "soundTestAnim",
    "testSound"]

  /** The default animation for digit keys 0..9. */
  const DefaultAnimsForKeys: seq<string> := [
    "anim_bored_01",
    "anim_freeplay_falloffcliff",
    "id_poked_giggle",
    "anim_pounce_success_02",
    "anim_bored_event_02",
    "anim_bored_event_03",
    "anim_sparking_reacttoface_01",
    "anim_reacttoface_unidentified_02",
    "anim_upgrade_reaction_lift_01",
    "anim_speedtap_wingame_intensity02_01"]

  const KeyCount: nat := 10

  // ------------------------------------------------------------ sorting

  /** Python's ordering of str: lexicographic by code point, a proper prefix first. */
  predicate LexLe(a: string, b: string)
    decreases |a|
  {
    a == [] || (b != [] && (a[0] < b[0] || (a[0] == b[0] && LexLe(a[1..], b[1..]))))
  }

  lemma {:induction false} LexLeTotal(a: string, b: string)
    ensures LexLe(a, b) || LexLe(b, a)
    decreases |a|
  {
    if a != [] && b != [] && a[0] == b[0] {
      LexLeTotal(a[1..], b[1..]);
    }
  }

  lemma {:induction false} LexLeTransitive(a: string, b: string, c: string)
    requires LexLe(a, b) && LexLe(b, c)
    ensures LexLe(a, c)
    decreases |a|
  {
    if a != [] && a[0] == b[0] && b[0] == c[0] {
      LexLeTransitive(a[1..], b[1..], c[1..]);
    }
  }

  predicate Sorted(s: seq<string>)
  {
    forall i, j :: 0 <= i < j < |s| ==> LexLe(s[i], s[j])
  }

  function Insert(x: string, s: seq<string>): seq<string>
  {
    if s == [] then [x]
    else if LexLe(x, s[0]) then [x] + s
    else [s[0]] + Insert(x, s[1..])
  }

  /** Python's list.sort on the names, as an insertion sort. */
  function SortNames(s: seq<string>): seq<string>
  {
    if s == [] then [] else Insert(s[0], SortNames(s[1..]))
  }

  lemma {:induction false} InsertPermutes(x: string, s: seq<string>)
    ensures multiset(Insert(x, s)) == multiset(s) + multiset{x}
  {
    if s != [] && !LexLe(x, s[0]) {
      InsertPermutes(x, s[1..]);
      assert s == [s[0]] + s[1..];
    }
  }

  lemma {:induction false} InsertSorted(x: string, s: seq<string>)
    requires Sorted(s)
    ensures Sorted(Insert(x, s))
  {
    if s == [] {
    } else if LexLe(x, s[0]) {
      var r := [x] + s;
      forall i, j | 0 <= i < j < |r| ensures LexLe(r[i], r[j]) {
        if i == 0 && j > 1 {
          LexLeTransitive(x, s[0], s[j - 1]);
        }
      }
    } else {
      LexLeTotal(x, s[0]);
      InsertSorted(x, s[1..]);
      InsertPermutes(x, s[1..]);
      var tail := Insert(x, s[1..]);
      var r := [s[0]] + tail;
      forall j | 0 <= j < |tail| ensures LexLe(s[0], tail[j]) {
        assert tail[j] in multiset(tail);
        assert tail[j] == x || tail[j] in multiset(s[1..]);
        if tail[j] != x {
          var k :| 0 <= k < |s[1..]| && s[1..][k] == tail[j];
          assert s[k + 1] == tail[j];
        }
      }
      forall i, j | 0 <= i < j < |r| ensures LexLe(r[i], r[j]) {
        if i == 0 {
          assert r[j] == tail[j - 1];
        } else {
          assert r[i] == tail[i - 1] && r[j] == tail[j - 1];
        }
      }
    }
  }

  /** The sorted names are in Python's order and are the same names, with
      the same multiplicities, as the robot's list. */
  lemma {:induction false} SortNamesCorrect(s: seq<string>)
    ensures Sorted(SortNames(s))
    ensures multiset(SortNames(s)) == multiset(s)
  {
    if s != [] {
      SortNamesCorrect(s[1..]);
      InsertSorted(s[0], SortNames(s[1..]));
      InsertPermutes(s[0], SortNames(s[1..]));
      assert s == [s[0]] + s[1..];
    }
  }

  // ------------------------------------------------------------ filtering

  /** The names that survive the filter, in their original order. */
  function Filtered(s: seq<string>): seq<string>
    decreases |s|
  {
    if s == [] then []
    else if s[|s| - 1] in BadAnimNames then Filtered(s[..|s| - 1])
    else Filtered(s[..|s| - 1]) + [s[|s| - 1]]
  }

  /** The filter keeps exactly the names that are not bad ones, never adds
      any, and keeps a sorted list sorted. */
  lemma {:induction false} FilteredCorrect(s: seq<string>)
    ensures forall x :: x in Filtered(s) <==> x in s && x !in BadAnimNames
    ensures |Filtered(s)| <= |s|
    ensures Sorted(s) ==> Sorted(Filtered(s))
    decreases |s|
  {
    if s != [] {
      var init := s[..|s| - 1];
      var last := s[|s| - 1];
      assert s == init + [last];
      FilteredCorrect(init);
      var r := Filtered(init);
      if Sorted(s) {
        forall i, j | 0 <= i < j < |init| ensures LexLe(init[i], init[j]) {
          assert init[i] == s[i] && init[j] == s[j];
        }
        if last !in BadAnimNames {
          forall i | 0 <= i < |r| ensures LexLe(r[i], last) {
            assert r[i] in init;
            var k :| 0 <= k < |init| && init[k] == r[i];
            assert s[k] == r[i];
          }
        }
      }
    }
  }

  /** Each good name is kept as often as it occurs, and each bad one is
      dropped every time. */
  lemma {:induction false} FilteredCounts(s: seq<string>)
    ensures forall x :: multiset(Filtered(s))[x] == if x in BadAnimNames then 0 else multiset(s)[x]
    decreases |s|
  {
    if s != [] {
      var init := s[..|s| - 1];
      assert s == init + [s[|s| - 1]];
      FilteredCounts(init);
    }
  }

  /** Filtering one more name of s appends it exactly when it is not a bad one. */
  lemma FilteredStep(s: seq<string>, i: nat)
    requires i < |s|
    ensures Filtered(s[..i + 1]) == if s[i] in BadAnimNames then Filtered(s[..i]) else Filtered(s[..i]) + [s[i]]
  {
    var t := s[..i + 1];
    assert t[..|t| - 1] == s[..i] && t[|t| - 1] == s[i];
  }

  /** The constructor's loop that keeps the names not known to misbehave. */
  method FilterBadAnims(allAnimNames: seq<string>) returns (animNames: seq<string>)
    ensures animNames == Filtered(allAnimNames)
  {
    animNames := [];
    var i := 0;
    while i < |allAnimNames|
      invariant 0 <= i <= |allAnimNames|
      invariant animNames == Filtered(allAnimNames[..i])
    {
      var animName := allAnimNames[i];
      FilteredStep(allAnimNames, i);
      if animName !in BadAnimNames {
        animNames := animNames + [animName];
      }
      i := i + 1;
    }
    assert allAnimNames[..i] == allAnimNames;
  }

  // ------------------------------------------------------------ key table

  /** Python's list.index: the first position of x, or None where Python
      raises ValueError. */
  function IndexOf(s: seq<string>, x: string): (r: Option<nat>)
    ensures r.None? <==> x !in s
    ensures r.Some? ==> r.value < |s| && s[r.value] == x && x !in s[..r.value]
  {
    if s == [] then None
    else if s[0] == x then Some(0)
    else
      match IndexOf(s[1..], x)
      case None => None
      case Some(i) =>
        assert s[..i + 1] == [s[0]] + s[1..][..i];
        Some(i + 1)
  }

  /** anim_index_for_key[k]: the first index of key k's default animation,
      or k itself when that animation is not in the list. */
  function DefaultAnimIndex(animNames: seq<string>, k: nat): (i: nat)
    requires k < KeyCount
    ensures DefaultAnimsForKeys[k] in animNames ==>
              i < |animNames| && animNames[i] == DefaultAnimsForKeys[k]
              && DefaultAnimsForKeys[k] !in animNames[..i]
    ensures DefaultAnimsForKeys[k] !in animNames ==> i == k
    ensures i < |animNames| <==> DefaultAnimsForKeys[k] in animNames || k < |animNames|
  {
    match IndexOf(animNames, DefaultAnimsForKeys[k])
    case Some(idx) => idx
    case None => k
  }

  /** The constructor's loop that fills anim_index_for_key. */
  method BuildAnimIndexTable(animNames: seq<string>) returns (table: seq<int>)
    ensures |table| == KeyCount
    ensures forall k :: 0 <= k < KeyCount ==> table[k] == DefaultAnimIndex(animNames, k)
  {
    table := seq(KeyCount, _ => 0);
    var kI := 0;
    while kI < |DefaultAnimsForKeys|
      invariant 0 <= kI <= KeyCount && |table| == KeyCount
      invariant forall k :: 0 <= k < kI ==> table[k] == DefaultAnimIndex(animNames, k)
    {
      var animIdx;
      match IndexOf(animNames, DefaultAnimsForKeys[kI]) {
        case Some(idx) =>
          animIdx := idx;
        case None =>
          animIdx := kI;
      }
      table := table[kI := animIdx];
      kI := kI + 1;
    }
  }
}

/**
 * The "Last Missions" list: `missions.slice(-3).reverse()`, the three most
 * recent missions, newest first, on a fresh copy of the prop.
 */
module MissionsHistory {

  /** `Mission` without its `fecha` date, which is only formatted for display. */
  datatype Mission = Mission(id: string, industria: string, ubicacion: string, leadsCount: int, timestamp: int)

  /** `s.slice(start)` for an integer `start`: a negative start counts from the end. */
  function SliceFrom<T>(s: seq<T>, start: int): (r: seq<T>)
    ensures |r| <= |s| && r == s[|s| - |r|..]
    ensures start < 0 ==> |r| == (if -start < |s| then -start else |s|)
    ensures start >= 0 ==> |r| == (if start < |s| then |s| - start else 0)
  {
    var from := if start < 0 then (if |s| + start < 0 then 0 else |s| + start)
                else (if start > |s| then |s| else start);
    s[from..]
  }

  /** `s.reverse()` on a copy. */
  function Reverse<T>(s: seq<T>): (r: seq<T>)
    ensures |r| == |s|
    ensures forall k :: 0 <= k < |s| ==> r[k] == s[|s| - 1 - k]
  {
    if s == [] then [] else [s[|s| - 1]] + Reverse(s[..|s| - 1])
  }

  /** `recentMissions`. */
  function RecentMissions(missions: seq<Mission>): seq<Mission>
  {
    Reverse(SliceFrom(missions, -3))
  }

  /**
   * Exactly min(3, n) missions are shown; the k-th shown is the k-th most
   * recent, so the first is the last one appended.
   */
  lemma RecentMissionsNewestFirst(missions: seq<Mission>)
    ensures var recent := RecentMissions(missions);
      && |recent| == (if |missions| < 3 then |missions| else 3)
      && forall k :: 0 <= k < |recent| ==> recent[k] == missions[|missions| - 1 - k]
  {
    var tail := SliceFrom(missions, -3);
    assert tail == missions[|missions| - |tail|..];
    forall k | 0 <= k < |tail| ensures Reverse(tail)[k] == missions[|missions| - 1 - k] {
      assert tail[|tail| - 1 - k] == missions[|missions| - |tail| + |tail| - 1 - k];
    }
  }

  /** With three missions or fewer, the whole history is shown, reversed. */
  lemma ShortHistoryReversed(missions: seq<Mission>)
    requires |missions| <= 3
    ensures RecentMissions(missions) == Reverse(missions)
  {
    assert SliceFrom(missions, -3) == missions;
  }

  /** Only an empty history selects the "no missions yet" placeholder. */
  lemma PlaceholderIffEmpty(missions: seq<Mission>)
    ensures RecentMissions(missions) == [] <==> missions == []
  {
    RecentMissionsNewestFirst(missions);
  }

  /** Reversing twice gives back the list: the view keeps the original order recoverable. */
  lemma {:induction false} ReverseInvolution<T>(s: seq<T>)
    ensures Reverse(Reverse(s)) == s
  {
    var r := Reverse(s);
    assert forall k :: 0 <= k < |s| ==> Reverse(r)[k] == r[|r| - 1 - k] == s[k];
  }

  /** Appending a mission puts it first and drops the oldest of the three shown. */
  lemma AppendShiftsView(missions: seq<Mission>, m: Mission)
    ensures var recent := RecentMissions(missions + [m]);
      && recent[0] == m
      && recent[1..] == RecentMissions(missions)[..|recent| - 1]
  {
    var after := missions + [m];
    RecentMissionsNewestFirst(after);
    RecentMissionsNewestFirst(missions);
    NewestFirstShift(missions, m, after, RecentMissions(after), RecentMissions(missions));
  }

  /** Two newest-first views of at most three, before and after appending `m`. */
  lemma NewestFirstShift(missions: seq<Mission>, m: Mission, after: seq<Mission>, recent: seq<Mission>, before: seq<Mission>)
    requires after == missions + [m]
    requires |recent| == (if |after| < 3 then |after| else 3)
    requires forall k :: 0 <= k < |recent| ==> recent[k] == after[|after| - 1 - k]
    requires |before| == (if |missions| < 3 then |missions| else 3)
    requires forall k :: 0 <= k < |before| ==> before[k] == missions[|missions| - 1 - k]
    ensures recent[0] == m && recent[1..] == before[..|recent| - 1]
  {
    assert recent[0] == after[|after| - 1];
    forall k | 0 <= k < |recent| - 1 ensures recent[1..][k] == before[k] {
      assert recent[1..][k] == recent[k + 1] == after[|after| - 1 - (k + 1)];
      assert after[|after| - 1 - (k + 1)] == missions[|missions| - 1 - k];
    }
  }
}

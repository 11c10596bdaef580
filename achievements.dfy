/**
 * The achievements page: a fixed list split into the earned and the
 * locked achievements, and a header counting the earned ones.
 */
module Achievements {
  import opened Wrappers

  datatype Achievement = Achievement(
    id: int,
    icon: string,
    title: string,
    description: string,
    earned: bool,
    date: Option<string>,
    category: string)

  const AllAchievements: seq<Achievement> := [
    Achievement(1, "\U{1F31F}", "Journey Begins", "Started your quit smoking journey", true, Some("Today"), "Milestone"),
    Achievement(2, "\U{1F3AF}", "Tracker Created", "Set up your progress tracking", true, Some("Today"), "Setup"),
    Achievement(3, "\U{1F3C1}", "Quit Date Set", "Committed to a quit date", true, Some("Today"), "Planning"),
    Achievement(4, "\U{23F0}", "First Day", "Complete your first 24 hours smoke-free", false, None, "Time"),
    Achievement(5, "\U{1F5D3}\U{FE0F}", "One Week Strong", "Smoke-free for 7 consecutive days", false, None, "Time"),
    Achievement(6, "\U{1F3C6}", "Monthly Champion", "30 days without smoking", false, None, "Time"),
    Achievement(7, "\U{1F48E}", "Quarter Master", "90 days of freedom", false, None, "Time"),
    Achievement(8, "\U{1F4AA}", "Health Warrior", "Log 10 healthy days in a row", false, None, "Health"),
    Achievement(9, "\U{1F4B0}", "Money Saver", "Save your first $100", false, None, "Financial")
  ]

  /** `achievements.filter((a) => a.earned)` */
  function Earned(s: seq<Achievement>): (r: seq<Achievement>)
    ensures |r| <= |s|
    ensures forall a :: a in r <==> a in s && a.earned
    decreases |s|
  {
    if s == [] then [] else (if s[0].earned then [s[0]] else []) + Earned(s[1..])
  }

  /** `achievements.filter((a) => !a.earned)` */
  function Locked(s: seq<Achievement>): (r: seq<Achievement>)
    ensures |r| <= |s|
    ensures forall a :: a in r <==> a in s && !a.earned
    decreases |s|
  {
    if s == [] then [] else (if !s[0].earned then [s[0]] else []) + Locked(s[1..])
  }

  /** Both filters keep the original order: they distribute over concatenation. */
  lemma {:induction false} FiltersKeepOrder(s: seq<Achievement>, t: seq<Achievement>)
    ensures Earned(s + t) == Earned(s) + Earned(t)
    ensures Locked(s + t) == Locked(s) + Locked(t)
    decreases |s|
  {
    if s != [] {
      assert (s + t)[1..] == s[1..] + t;
      FiltersKeepOrder(s[1..], t);
    } else {
      assert s + t == t;
    }
  }

  /** Every achievement lands in exactly one of the two lists. */
  lemma {:induction false} FiltersPartition(s: seq<Achievement>)
    ensures |Earned(s)| + |Locked(s)| == |s|
    ensures multiset(Earned(s)) + multiset(Locked(s)) == multiset(s)
    decreases |s|
  {
    if s != [] {
      FiltersPartition(s[1..]);
      assert s == [s[0]] + s[1..];
    }
  }

  datatype Header = Header(earnedCount: nat, total: nat)

  /** The "{earned} of {total} Earned" header. */
  function ProgressHeader(s: seq<Achievement>): (h: Header)
    ensures h.earnedCount <= h.total == |s|
    ensures h.total - h.earnedCount == |Locked(s)|
  {
    FiltersPartition(s);
    Header(|Earned(s)|, |s|)
  }

  /** The earned section is rendered only when some achievement is earned. */
  function ShowsEarnedSection(s: seq<Achievement>): (shown: bool)
    ensures shown <==> exists a :: a in s && a.earned
  {
    var earned := Earned(s);
    assert (exists a :: a in s && a.earned) ==> earned != [] by {
      if exists a :: a in s && a.earned {
        var a :| a in s && a.earned;
        assert a in earned;
      }
    }
    assert earned != [] ==> earned[0] in s && earned[0].earned;
    |earned| > 0
  }

  /** The page as shipped: three of nine earned. */
  lemma ShippedHeader()
    ensures ProgressHeader(AllAchievements) == Header(3, 9)
  {
    var s := AllAchievements;
    assert s == s[..3] + s[3..];
    FiltersKeepOrder(s[..3], s[3..]);
  }
}

/** The three derived values of the dashboard: the recommended spot, the
    comparison chart's rows and the overview counts. */
module Frontend {
  import opened Wrappers
  import opened Sorting

  /** `CongestionLevel`. */
  datatype Level = Low | Normal | High | VeryHigh

  /** The fields of a `TouristSpot` these computations read. */
  datatype Spot = Spot(id: string, name: string, congestionLevel: Level, expectedVisitors: int)

  /** `congestionPriority`: low 0, normal 1, high 2, veryHigh 3. */
  function Priority(l: Level): (p: nat)
    ensures p < 4
    ensures p == 0 <==> l == Low
    ensures p == 3 <==> l == VeryHigh
  {
    match l
    case Low => 0
    case Normal => 1
    case High => 2
    case VeryHigh => 3
  }

  /** The comparator's answer "a may come first": a less crowded level, or the
      same level and no more expected visitors. */
  function CalmerFirst(a: Spot, b: Spot): bool {
    Priority(a.congestionLevel) < Priority(b.congestionLevel)
    || (Priority(a.congestionLevel) == Priority(b.congestionLevel) && a.expectedVisitors <= b.expectedVisitors)
  }

  lemma CalmerFirstIsPreorder()
    ensures Total(CalmerFirst) && Transitive(CalmerFirst)
  {
  }

  /** `recommendedSpot`: null while the list is missing or empty, otherwise
      the first spot of a sorted copy of the list. */
  function Recommended(spots: Option<seq<Spot>>): Option<Spot> {
    if spots.None? || |spots.value| == 0 then None
    else Some(Sort(spots.value, CalmerFirst)[0])
  }

  /** The recommendation is one of the spots; no spot is at a calmer level;
      among the spots at its level none expects fewer visitors; and it is
      null exactly when there is no spot. */
  lemma RecommendedIsCalmest(spots: Option<seq<Spot>>)
    ensures Recommended(spots).None? <==> spots.None? || spots.value == []
    ensures Recommended(spots).Some? ==> Recommended(spots).value in spots.value
    ensures Recommended(spots).Some? ==> forall s :: s in spots.value ==>
      Priority(Recommended(spots).value.congestionLevel) <= Priority(s.congestionLevel)
    ensures Recommended(spots).Some? ==> forall s ::
      (s in spots.value && s.congestionLevel == Recommended(spots).value.congestionLevel) ==>
      Recommended(spots).value.expectedVisitors <= s.expectedVisitors
  {
    if spots.Some? && spots.value != [] {
      CalmerFirstIsPreorder();
      SortFirstIsLeast(spots.value, CalmerFirst);
    }
  }

  /** One bar of the comparison chart. */
  datatype Bar = Bar(name: string, visitors: int, level: Level)

  /** The comparator's answer "a may come first": at least as many visitors. */
  function BusierFirst(a: Bar, b: Bar): bool {
    a.visitors >= b.visitors
  }

  lemma BusierFirstIsPreorder()
    ensures Total(BusierFirst) && Transitive(BusierFirst)
  {
  }

  /** The chart rows, one per spot, in the list's order. */
  function Bars(spots: seq<Spot>): (bars: seq<Bar>)
    ensures |bars| == |spots|
    ensures forall i :: 0 <= i < |spots| ==>
      bars[i] == Bar(spots[i].name, spots[i].expectedVisitors, spots[i].congestionLevel)
  {
    seq(|spots|, i requires 0 <= i < |spots| => Bar(spots[i].name, spots[i].expectedVisitors, spots[i].congestionLevel))
  }

  /** `data`: the rows, busiest first. */
  function ComparisonData(spots: seq<Spot>): seq<Bar> {
    Sort(Bars(spots), BusierFirst)
  }

  /** The chart shows every spot once, busiest first. */
  lemma ComparisonDataOrdered(spots: seq<Spot>)
    ensures |ComparisonData(spots)| == |spots|
    ensures multiset(ComparisonData(spots)) == multiset(Bars(spots))
    ensures forall i, j :: 0 <= i < j < |spots| ==> ComparisonData(spots)[i].visitors >= ComparisonData(spots)[j].visitors
  {
    BusierFirstIsPreorder();
    SortSorted(Bars(spots), BusierFirst);
  }

  /** `levelOrder`. */
  const LevelOrder: seq<Level> := [Low, Normal, High, VeryHigh]

  /** How many spots are at level `l`. */
  function CountAt(spots: seq<Spot>, l: Level): (n: nat)
    ensures n <= |spots|
  {
    if spots == [] then 0
    else CountAt(spots[..|spots| - 1], l) + (if spots[|spots| - 1].congestionLevel == l then 1 else 0)
  }

  /** `counts`: one entry per level, in level order. */
  function Counts(spots: seq<Spot>): (counts: seq<(Level, nat)>)
    ensures |counts| == 4
    ensures forall i :: 0 <= i < 4 ==> counts[i] == (LevelOrder[i], CountAt(spots, LevelOrder[i]))
  {
    seq(4, i requires 0 <= i < 4 => (LevelOrder[i], CountAt(spots, LevelOrder[i])))
  }

  /** Since every spot is at one of the four levels, the counts add up to the
      number of spots. */
  lemma {:induction false} CountsCoverAll(spots: seq<Spot>)
    ensures Counts(spots)[0].1 + Counts(spots)[1].1 + Counts(spots)[2].1 + Counts(spots)[3].1 == |spots|
  {
    if spots != [] {
      CountsCoverAll(spots[..|spots| - 1]);
    }
  }

  /** A count is exactly the number of positions holding that level. */
  lemma {:induction false} CountAtIsCardinality(spots: seq<Spot>, l: Level)
    ensures CountAt(spots, l) == |Positions(spots, l)|
  {
    if spots != [] {
      var init := spots[..|spots| - 1];
      CountAtIsCardinality(init, l);
      PositionsExtend(spots, l);
      assert |spots| - 1 !in Positions(init, l);
    } else {
      assert Positions(spots, l) == {};
    }
  }

  /** The positions of a list are those of its prefix, and the last one if it
      holds the level. */
  lemma PositionsExtend(spots: seq<Spot>, l: Level)
    requires spots != []
    ensures Positions(spots, l) == Positions(spots[..|spots| - 1], l)
      + (if spots[|spots| - 1].congestionLevel == l then {|spots| - 1} else {})
  {
    var init := spots[..|spots| - 1];
    var extra: set<nat> := if spots[|spots| - 1].congestionLevel == l then {|spots| - 1} else {};
    forall i: nat ensures i in Positions(spots, l) <==> i in Positions(init, l) + extra {
      if i < |init| {
        assert init[i] == spots[i];
      }
    }
  }

  /** The positions holding level `l`. */
  function Positions(spots: seq<Spot>, l: Level): set<nat> {
    set i: nat | i < |spots| && spots[i].congestionLevel == l
  }

  /** `totalVisitors`: the sum of the expected visitors, 0 for no spots. */
  function TotalVisitors(spots: seq<Spot>): int {
    if spots == [] then 0 else TotalVisitors(spots[..|spots| - 1]) + spots[|spots| - 1].expectedVisitors
  }

  /** The total adds across a split of the list. */
  lemma {:induction false} TotalVisitorsSplit(a: seq<Spot>, b: seq<Spot>)
    ensures TotalVisitors(a + b) == TotalVisitors(a) + TotalVisitors(b)
  {
    if b != [] {
      assert (a + b)[..|a + b| - 1] == a + b[..|b| - 1];
      TotalVisitorsSplit(a, b[..|b| - 1]);
    } else {
      assert a + b == a;
    }
  }

  /** With no negative expectation, the total is not below any one spot. */
  lemma {:induction false} TotalVisitorsBound(spots: seq<Spot>, i: nat)
    requires i < |spots|
    requires forall s :: s in spots ==> s.expectedVisitors >= 0
    ensures TotalVisitors(spots) >= spots[i].expectedVisitors
  {
    var init := spots[..|spots| - 1];
    assert forall s :: s in init ==> s in spots;
    TotalVisitorsNonNegative(init);
    if i < |spots| - 1 {
      assert init[i] == spots[i];
      TotalVisitorsBound(init, i);
    }
  }

  /** With no negative expectation, the total is not negative. */
  lemma {:induction false} TotalVisitorsNonNegative(spots: seq<Spot>)
    requires forall s :: s in spots ==> s.expectedVisitors >= 0
    ensures TotalVisitors(spots) >= 0
  {
    if spots != [] {
      var init := spots[..|spots| - 1];
      assert forall s :: s in init ==> s in spots;
      TotalVisitorsNonNegative(init);
    }
  }
}

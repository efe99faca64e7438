/**
 * The filter sidebar: toggling a risk level, editing the search text, the
 * "last updated ... ago" label and the two counters of the statistics panel.
 * Every handler builds a new filter value and hands it to the page.
 */
module FilterSidebar {
  import opened Wrappers
  import opened Text
  import opened Seqs
  import opened MapView

  // ---------------------------------------------------------------- filter editing

  /** `levels.filter(r => r !== riskId)` */
  function RemoveAll(levels: seq<string>, riskId: string): seq<string> {
    Filter(levels, (r: string) => r != riskId)
  }

  /** `handleRiskToggle`: an exact `includes` decides between removing every occurrence and appending. */
  function ToggleRisk(levels: seq<string>, riskId: string): seq<string> {
    if riskId in levels then RemoveAll(levels, riskId) else levels + [riskId]
  }

  function ToggleRiskFilter(filters: Filters, riskId: string): Filters {
    filters.(riskLevels := ToggleRisk(filters.riskLevels, riskId))
  }

  /** `handleSearchChange` */
  function SetSearch(filters: Filters, value: string): Filters {
    filters.(searchQuery := value)
  }

  /**
   * Toggling flips whether `riskId` is selected and leaves every other entry's
   * membership alone; an absent id is appended at the end, a present one is
   * removed everywhere, keeping the order of the rest.
   */
  lemma ToggleRiskSpec(levels: seq<string>, riskId: string)
    ensures riskId in ToggleRisk(levels, riskId) <==> riskId !in levels
    ensures forall x :: x != riskId ==> (x in ToggleRisk(levels, riskId) <==> x in levels)
    ensures riskId !in levels ==> ToggleRisk(levels, riskId) == levels + [riskId]
    ensures riskId in levels ==>
      |ToggleRisk(levels, riskId)| < |levels| && IsSubsequence(ToggleRisk(levels, riskId), levels)
    ensures riskId in levels ==> multiset(ToggleRisk(levels, riskId)) == multiset(levels)[riskId := 0]
  {
    RemoveAllMultiset(levels, riskId);
    var p := (r: string) => r != riskId;
    forall x ensures x in RemoveAll(levels, riskId) <==> x in levels && x != riskId {
      FilterMembership(levels, p, x);
    }
    if riskId in levels {
      var k :| 0 <= k < |levels| && levels[k] == riskId;
      FilterShorter(levels, p, k);
      FilterIsSubsequence(levels, p);
    }
  }

  /** Removing an id drops all its copies and keeps every other entry as often as it occurred. */
  lemma {:induction false} RemoveAllMultiset(levels: seq<string>, riskId: string)
    ensures multiset(RemoveAll(levels, riskId)) == multiset(levels)[riskId := 0]
    decreases |levels|
  {
    if levels != [] {
      RemoveAllMultiset(levels[1..], riskId);
      assert levels == [levels[0]] + levels[1..];
      assert RemoveAll(levels, riskId) ==
        (if levels[0] != riskId then [levels[0]] else []) + RemoveAll(levels[1..], riskId);
    }
  }

  /** Toggling an absent id twice gives back the original list exactly. */
  lemma ToggleTwiceRestores(levels: seq<string>, riskId: string)
    requires riskId !in levels
    ensures ToggleRisk(ToggleRisk(levels, riskId), riskId) == levels
  {
    var p := (r: string) => r != riskId;
    FilterConcat(levels, [riskId], p);
    FilterKeepsAll(levels, p);
    assert Filter([riskId], p) == [] by {
      assert [riskId][1..] == [];
    }
  }

  /** Toggling a present id twice moves it, once, to the end, after the other entries. */
  lemma ToggleTwiceMovesToEnd(levels: seq<string>, riskId: string)
    requires riskId in levels
    ensures ToggleRisk(ToggleRisk(levels, riskId), riskId) == RemoveAll(levels, riskId) + [riskId]
  {
    FilterMembership(levels, (r: string) => r != riskId, riskId);
  }

  /** The two handlers change only their own field of the filter state. */
  lemma EditsChangeOneField(filters: Filters, riskId: string, value: string)
    ensures ToggleRiskFilter(filters, riskId).yearRange == filters.yearRange
    ensures ToggleRiskFilter(filters, riskId).searchQuery == filters.searchQuery
    ensures SetSearch(filters, value).riskLevels == filters.riskLevels
    ensures SetSearch(filters, value).yearRange == filters.yearRange
    ensures SetSearch(filters, value).searchQuery == value
  {
  }

  // ---------------------------------------------------------------- time ago

  datatype TimeAgo = JustNow | MinutesAgo(minutes: nat) | HoursAgo(hours: nat) | DaysAgo(days: nat)

  /**
   * `getTimeAgo`, given the difference `now - date` in milliseconds; the three
   * successive floor divisions amount to one division by the unit.
   */
  function GetTimeAgo(diffMs: int): (r: TimeAgo)
    ensures r.JustNow? <==> diffMs < 60_000
    ensures r.MinutesAgo? ==>
      60_000 <= diffMs < 3_600_000 && r.minutes == diffMs / 60_000 && 1 <= r.minutes < 60
    ensures r.HoursAgo? ==>
      3_600_000 <= diffMs < 86_400_000 && r.hours == diffMs / 3_600_000 && 1 <= r.hours < 24
    ensures r.DaysAgo? ==> 86_400_000 <= diffMs && r.days == diffMs / 86_400_000 && r.days >= 1
  {
    var secs := diffMs / 1000;
    var mins := secs / 60;
    var hours := mins / 60;
    if secs < 60 then JustNow
    else if mins < 60 then MinutesAgo(mins)
    else if hours < 24 then HoursAgo(hours)
    else DaysAgo(hours / 24)
  }

  function RenderTimeAgo(t: TimeAgo): string {
    match t
    case JustNow => "just now"
    case MinutesAgo(n) => Decimal(n) + " min ago"
    case HoursAgo(n) => Decimal(n) + "h ago"
    case DaysAgo(n) => Decimal(n) + "d ago"
  }

  /** The number printed in front of a unit reads back as the count. */
  lemma RenderedCountReadsBack(t: TimeAgo)
    requires !t.JustNow?
    ensures var n := match t case MinutesAgo(m) => m case HoursAgo(h) => h case DaysAgo(d) => d;
      RenderTimeAgo(t)[..|Decimal(n)|] == Decimal(n) && DecimalValue(Decimal(n)) == n
  {
    match t
    case MinutesAgo(m) => DecimalRoundTrip(m);
    case HoursAgo(h) => DecimalRoundTrip(h);
    case DaysAgo(d) => DecimalRoundTrip(d);
  }

  // ---------------------------------------------------------------- statistics

  predicate IsHighExact(lake: LakeData) {
    lake.riskLevel == "HIGH"
  }

  /** `lakes.filter(lake => lake.riskLevel === 'HIGH').length` */
  function HighRiskCount(lakes: seq<LakeData>): nat {
    |Filter(lakes, IsHighExact)|
  }

  datatype Stats = Stats(totalLakes: nat, highRiskLakes: nat, lastUpdated: int)

  /** The statistics and whether they are still loading (the counters show `-` meanwhile). */
  datatype StatsPanel = StatsPanel(stats: Stats, loading: bool)

  /** The panel's first state: zero counters stamped with the mount time, still loading. */
  function InitialStatsPanel(now: int): StatsPanel {
    StatsPanel(Stats(0, 0, now), true)
  }

  /** The parsed reply: `data.success` and `data.data`, absent when the request threw. */
  datatype StatsReply = StatsReply(success: bool, data: Option<seq<LakeData>>)

  /**
   * `fetchStats` once its request settles: with a successful reply carrying a
   * list (an empty list included) the counters are recomputed; otherwise they
   * keep their values. Loading ends either way.
   */
  function AfterFetchStats(panel: StatsPanel, reply: Option<StatsReply>, now: int): (r: StatsPanel)
    ensures !r.loading
    ensures (reply.Some? && reply.value.success && reply.value.data.Some?) ==>
      r.stats.totalLakes == |reply.value.data.value| && r.stats.lastUpdated == now &&
      r.stats.highRiskLakes == HighRiskCount(reply.value.data.value) &&
      r.stats.highRiskLakes <= r.stats.totalLakes
    ensures !(reply.Some? && reply.value.success && reply.value.data.Some?) ==> r.stats == panel.stats
  {
    match reply
    case Some(StatsReply(true, Some(lakes))) =>
      StatsPanel(Stats(|lakes|, HighRiskCount(lakes), now), false)
    case _ =>
      panel.(loading := false)
  }

  /** The label under the counters, `nowMs` being the time of rendering. */
  function LastUpdatedLabel(panel: StatsPanel, nowMs: int): string {
    if panel.loading then "Loading..."
    else "Last updated " + RenderTimeAgo(GetTimeAgo(nowMs - panel.stats.lastUpdated))
  }

  /**
   * The label reads "Loading..." until the first reply; right after a successful
   * reply (less than a minute later) it reads "Last updated just now".
   */
  lemma LastUpdatedLabelSpec(panel: StatsPanel, reply: Option<StatsReply>, now: int, nowMs: int, later: int)
    ensures LastUpdatedLabel(InitialStatsPanel(now), nowMs) == "Loading..."
    ensures (reply.Some? && reply.value.success && reply.value.data.Some? && now <= later < now + 60_000) ==>
      LastUpdatedLabel(AfterFetchStats(panel, reply, now), later) == "Last updated just now"
    ensures LastUpdatedLabel(AfterFetchStats(panel, reply, now), later) != "Loading..."
  {
  }

  /**
   * The counter is exact about case while the map filter is not, so it never
   * exceeds the number of lakes a `HIGH`-only filter shows on the map.
   */
  lemma HighCountAtMostShownHigh(lakes: seq<LakeData>, years: (int, int))
    ensures HighRiskCount(lakes) <= |FilteredLakes(lakes, Filters(["HIGH"], years, ""))|
  {
    var filters := Filters(["HIGH"], years, "");
    forall k | 0 <= k < |lakes| && IsHighExact(lakes[k]) ensures Matches(filters, lakes[k]) {
      assert Lower(filters.riskLevels[0]) == Lower(lakes[k].riskLevel);
    }
    FilterMonotone(lakes, IsHighExact, lake => Matches(filters, lake));
  }
}

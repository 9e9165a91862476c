/**
 * The extension popup: the values it shows with their defaults, the
 * insight list keyed on today's request count, and the CO2 comparison band.
 */
module Popup {
  import opened Wrappers
  import Background
  import Page

  // ---------------------------------------------------------------------
  // Defaults in the stats refresh
  // ---------------------------------------------------------------------

  /** What the popup shows: lifetime requests, CO2 in centigrams, and today's requests. */
  datatype Shown = Shown(requests: nat, co2: nat, today: nat)

  /**
   * The stats refresh: the background's answer (a missing field reads 0) and
   * the stored per-day map (missing reads as empty, a missing day as zero).
   */
  function ReadStats(requests: Option<nat>, co2: Option<nat>,
                     dailyStats: Option<map<string, Background.DayStat>>, today: string): (v: Shown)
    ensures v.requests == (if requests.Some? then requests.value else 0)
    ensures v.co2 == (if co2.Some? then co2.value else 0)
    ensures v.today == (if dailyStats.Some? && today in dailyStats.value then dailyStats.value[today].requests else 0)
  {
    var daily := dailyStats.GetOr(map[]);
    var todayData := if today in daily then daily[today] else Background.DayStat(0, 0);
    Shown(requests.GetOr(0), co2.GetOr(0), todayData.requests)
  }

  /**
   * Against a tracker whose store mirrors its state, the popup shows the
   * tracker's count and CO2 total and today's stored count (0 before the
   * first request of a day).
   */
  lemma ReadStatsOfTracker(c: Background.Counters, annoyanceKey: Option<bool>, today: string)
    ensures var store := Background.Save(c, annoyanceKey);
      var reply := Background.StatsReply(c.requests, c.level, c.co2);
      ReadStats(Some(reply.requests), Some(reply.co2), store.dailyStats, today) ==
        Shown(c.requests, c.co2, if today in c.daily then c.daily[today].requests else 0)
  {
  }

  /** The toggle's initial position: the answered flag, or off when missing. */
  function ToggleChecked(enabled: Option<bool>): (checked: bool)
    ensures checked <==> enabled == Some(true)
  {
    enabled.GetOr(false)
  }

  // ---------------------------------------------------------------------
  // Insights
  // ---------------------------------------------------------------------

  /** The synchronous insights. */
  datatype Insight = GreatBalance | NoUsageToday | UsedToday(count: nat) | HeavyDay | JustStarted

  predicate Positive(i: Insight) {
    i.GreatBalance? || i.NoUsageToday? || i.JustStarted?
  }

  /** The insight list by band of today's count. */
  function InsightsFor(today: nat): seq<Insight> {
    if today == 0 then [GreatBalance, NoUsageToday]
    else if today < 10 then [GreatBalance]
    else if today < 15 then [JustStarted]
    else if today < 25 then [UsedToday(today)]
    else [UsedToday(today), HeavyDay]
  }

  /**
   * The insight list as the popup builds it: four independent pushes, then
   * the default when nothing was pushed (the average insight arrives later
   * and is not part of this list).
   */
  method UpdateInsights(todayRequests: nat) returns (insights: seq<Insight>)
    ensures insights == InsightsFor(todayRequests)
  {
    insights := [];
    if todayRequests < 10 {
      insights := insights + [GreatBalance];
    }
    if todayRequests == 0 {
      insights := insights + [NoUsageToday];
    }
    if todayRequests >= 15 {
      insights := insights + [UsedToday(todayRequests)];
    }
    if todayRequests >= 25 {
      insights := insights + [HeavyDay];
    }
    if |insights| == 0 {
      insights := insights + [JustStarted];
    }
  }

  /**
   * The list is never empty, holds one or two entries, is entirely positive
   * below 15 requests and entirely observations from 15 on.
   */
  lemma InsightsShape(today: nat)
    ensures 1 <= |InsightsFor(today)| <= 2
    ensures |InsightsFor(today)| == 2 <==> today == 0 || today >= 25
    ensures today < 15 ==> forall i :: 0 <= i < |InsightsFor(today)| ==> Positive(InsightsFor(today)[i])
    ensures today >= 15 ==> forall i :: 0 <= i < |InsightsFor(today)| ==> !Positive(InsightsFor(today)[i])
    ensures JustStarted in InsightsFor(today) <==> 10 <= today < 15
  {
  }

  // ---------------------------------------------------------------------
  // Environmental context
  // ---------------------------------------------------------------------

  /** The popup's band boundaries in centigrams: below 10 g, 50 g, 200 g, and the rest. */
  const ContextCuts: seq<nat> := [1000, 5000, 20000]

  /** The comparison under the popup's total, by an `if`/`else` chain on `co2` centigrams. */
  method UpdateContext(co2: nat) returns (equivalent: Page.Equivalent)
    ensures Page.InBand(co2, ContextCuts, Page.EquivalentRank(equivalent))
  {
    if co2 < 1000 {
      equivalent := Page.PhoneCharges;
    } else if co2 < 5000 {
      equivalent := Page.CarDrive;
    } else if co2 < 20000 {
      equivalent := Page.LightbulbHours;
    } else {
      equivalent := Page.Kilograms;
    }
  }

  /** The popup's cut for the last band differs from the overlay's: they disagree exactly on [100 g, 200 g). */
  lemma ContextAgreesWithOverlay(co2: nat, k: nat)
    requires Page.InBand(co2, ContextCuts, k)
    ensures k == Page.EquivalentRank(Page.GetEquivalent(co2)) <==> !(10000 <= co2 < 20000)
  {
    Page.GetEquivalentBands(co2);
    if 10000 <= co2 < 20000 {
      assert Page.InBand(co2, ContextCuts, 2);
      Page.InBandUnique(co2, ContextCuts, k, 2);
    } else {
      Page.InBandUnique(co2, ContextCuts, k, Page.EquivalentRank(Page.GetEquivalent(co2)));
    }
  }
}

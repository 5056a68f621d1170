/** The conversion funnels of the dashboard: three stages (all leads, emailed leads, responses)
    with a count and a rounded percentage of all leads each, in the guarded form of the funnel
    card and the unguarded form of the analytics page, and the scale of the activity chart. */
module Funnels {
  import opened LeadTypes
  import opened MockData

  datatype Stage = Stage(name: string, count: int, percentage: int)

  /** The funnel card: `Math.round(x / total * 100) || 0`, so a division by zero gives 0. */
  function ConversionFunnel(leads: seq<Lead>): (f: seq<Stage>)
    ensures |f| == 3
    ensures f[0] == Stage("Total Leads", |leads|, 100)
    ensures f[1].name == "Emails Sent" && f[1].count == SentCount(leads)
    ensures f[2].name == "Responses" && f[2].count == SentCount(leads) - FollowUpCount(leads)
    ensures |leads| == 0 ==> f[1].percentage == 0 && f[2].percentage == 0
    ensures 0 <= f[1].percentage <= 100
    ensures |leads| > 0 ==>
      f[1].percentage == RoundPercent(f[1].count, |leads|) && f[2].percentage == RoundPercent(f[2].count, |leads|)
  {
    var total := |leads|;
    var sent := SentCount(leads);
    var conversions := sent - FollowUpCount(leads);
    [ Stage("Total Leads", total, 100),
      Stage("Emails Sent", sent, if total > 0 then (RoundPercentBounded(sent, total); RoundPercent(sent, total)) else 0),
      Stage("Responses", conversions, if total > 0 then RoundPercent(conversions, total) else 0) ]
  }

  /** The emailed stage of the funnel is the conversion rate of the statistics. */
  lemma FunnelMatchesStats(leads: seq<Lead>)
    ensures ConversionFunnel(leads)[1].percentage == CalculateStats(leads).conversionRate
  {
  }

  /** The response count can be negative, as it is for a list holding only lead 5 of the
      fixture, which needs a follow-up without having been emailed. */
  lemma FunnelNegativeResponses()
    ensures ConversionFunnel([MockLeads[4]])[2].count == -1
  {
    var one := [MockLeads[4]];
    assert one[..0] == [];
  }

  /** A percentage of the analytics page, where 0 / 0 is not a number. */
  datatype Percent = Num(value: int) | NaN

  datatype AnalyticsStage = AnalyticsStage(name: string, count: int, percentage: Percent)

  /** The analytics funnel: the same stages without the `|| 0` guard. */
  function AnalyticsFunnel(leads: seq<Lead>): (f: seq<AnalyticsStage>)
    ensures |f| == 3
    ensures f[0] == AnalyticsStage("Total Leads", |leads|, Num(100))
    ensures f[1].count == SentCount(leads) && f[2].count == SentCount(leads) - FollowUpCount(leads)
    ensures |leads| == 0 <==> f[1].percentage == NaN
    ensures |leads| == 0 <==> f[2].percentage == NaN
  {
    var total := |leads|;
    var sent := SentCount(leads);
    var conversions := sent - FollowUpCount(leads);
    [ AnalyticsStage("Total Leads", total, Num(100)),
      AnalyticsStage("Emails Sent", sent, if total > 0 then Num(RoundPercent(sent, total)) else NaN),
      AnalyticsStage("Responses", conversions, if total > 0 then Num(RoundPercent(conversions, total)) else NaN) ]
  }

  /** With at least one lead the two funnels show the same stages; with none, the analytics
      page shows "not a number" where the card shows 0. */
  lemma FunnelsAgree(leads: seq<Lead>, i: nat)
    requires i < 3
    ensures AnalyticsFunnel(leads)[i].name == ConversionFunnel(leads)[i].name
    ensures AnalyticsFunnel(leads)[i].count == ConversionFunnel(leads)[i].count
    ensures |leads| > 0 ==> AnalyticsFunnel(leads)[i].percentage == Num(ConversionFunnel(leads)[i].percentage)
    ensures |leads| == 0 && i > 0 ==> AnalyticsFunnel(leads)[i].percentage == NaN && ConversionFunnel(leads)[i].percentage == 0
  {
  }

  /** One row of the fixed activity table. */
  datatype Activity = Activity(day: string, leads: int, emails: int)

  const DailyActivity: seq<Activity> := [
    Activity("Mon", 12, 8), Activity("Tue", 15, 12), Activity("Wed", 10, 9), Activity("Thu", 18, 14),
    Activity("Fri", 8, 6), Activity("Sat", 5, 3), Activity("Sun", 3, 2)
  ]

  function Max(a: int, b: int): int {
    if a >= b then a else b
  }

  /** `Math.max(...rows.map(d => Math.max(d.leads, d.emails)))` over a non-empty table. */
  function MaxActivity(rows: seq<Activity>): (m: int)
    requires |rows| > 0
    ensures forall i :: 0 <= i < |rows| ==> rows[i].leads <= m && rows[i].emails <= m
    ensures exists i :: 0 <= i < |rows| && (m == rows[i].leads || m == rows[i].emails)
  {
    var last := rows[|rows| - 1];
    if |rows| == 1 then Max(last.leads, last.emails)
    else
      var front := MaxActivity(rows[..|rows| - 1]);
      assert forall i :: 0 <= i < |rows| - 1 ==> rows[..|rows| - 1][i] == rows[i];
      Max(front, Max(last.leads, last.emails))
  }

  /** The chart is scaled to 18, Thursday's lead count. */
  lemma DailyActivityMax()
    ensures MaxActivity(DailyActivity) == 18
  {
    var m := MaxActivity(DailyActivity);
    assert DailyActivity[3].leads == 18;
  }
}

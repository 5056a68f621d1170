/** The fixture leads shown when no spreadsheet is configured, and the base statistics
    computed from any list of leads. */
module MockData {
  import opened Wrappers
  import opened LeadTypes

  /** `Math.round(100 * num / den)` for a positive denominator, on exact rationals: the
      nearest integer, a half rounded up towards +infinity as `Math.round` does. */
  function RoundPercent(num: int, den: int): (r: int)
    requires den > 0
    ensures 2 * den * r <= 200 * num + den < 2 * den * (r + 1)
  {
    (200 * num + den) / (2 * den)
  }

  /** Multiplying by a positive factor keeps strict order, both ways. */
  lemma MulStrictMonotone(a: int, b: int, c: int)
    requires c > 0
    ensures a < b <==> c * a < c * b
  {
    assert c * b - c * a == c * (b - a);
  }

  /** A share of a whole, rounded, is a percentage between 0 and 100. */
  lemma RoundPercentBounded(num: int, den: int)
    requires 0 <= num <= den && den > 0
    ensures 0 <= RoundPercent(num, den) <= 100
  {
    var r := RoundPercent(num, den);
    MulStrictMonotone(0, r + 1, 2 * den);
    MulStrictMonotone(r, 101, 2 * den);
  }

  /** A rounded percentage is negative exactly when the ratio is below -1/2 percent. */
  lemma RoundPercentNegative(num: int, den: int)
    requires den > 0
    ensures RoundPercent(num, den) < 0 <==> 200 * num + den < 0
  {
    var r := RoundPercent(num, den);
    MulStrictMonotone(0, r + 1, 2 * den);
    MulStrictMonotone(r, 0, 2 * den);
  }

  /** `calculateStats`: counts of leads, of sent emails and of needed follow-ups, the share
      of leads emailed and the share of sent emails without a follow-up, in percent,
      each 0 when its denominator is 0. No breakdown objects. */
  function CalculateStats(leads: seq<Lead>): (s: DashboardStats)
    ensures s.totalLeads == |leads|
    ensures s.emailsSent == SentCount(leads) && s.followUpsNeeded == FollowUpCount(leads)
    ensures 0 <= s.conversionRate <= 100
    ensures s.industryBreakdown == None && s.statusBreakdown == None
  {
    var total := |leads|;
    var sent := SentCount(leads);
    var followUps := FollowUpCount(leads);
    var conversion := if total > 0 then (RoundPercentBounded(sent, total); RoundPercent(sent, total)) else 0;
    var response := if sent > 0 then RoundPercent(sent - followUps, sent) else 0;
    DashboardStats(total, sent, followUps, conversion, response, None, None)
  }

  /** The two rates: 0 on an empty denominator, otherwise the rounded percentages. */
  lemma CalculateStatsRates(leads: seq<Lead>)
    ensures |leads| == 0 ==> CalculateStats(leads).conversionRate == 0
    ensures |leads| > 0 ==> CalculateStats(leads).conversionRate == RoundPercent(SentCount(leads), |leads|)
    ensures SentCount(leads) == 0 ==> CalculateStats(leads).responseRate == 0
    ensures SentCount(leads) > 0 ==>
      CalculateStats(leads).responseRate == RoundPercent(SentCount(leads) - FollowUpCount(leads), SentCount(leads))
  {
  }

  /** The response rate is not a share: it is negative exactly when follow-ups outnumber
      sent emails by more than half a percent of the sent emails, which can happen since a
      lead may need a follow-up without having been emailed. */
  lemma ResponseRateNegative(leads: seq<Lead>)
    requires SentCount(leads) > 0
    ensures CalculateStats(leads).responseRate < 0 <==>
      200 * (FollowUpCount(leads) - SentCount(leads)) > SentCount(leads)
  {
    RoundPercentNegative(SentCount(leads) - FollowUpCount(leads), SentCount(leads));
  }

  /** The fixture: six leads with ids "1" to "6", without status or industry. */
  const MockLeads: seq<Lead> := [
    Lead("1", "Sarah", "Johnson", "https://linkedin.com/in/sarahjohnson", "Marketing Director",
      "sarah.johnson@techcorp.com", "TechCorp Solutions", "https://techcorp.com",
      "Hi Sarah, I noticed your recent post about digital transformation challenges. Our lead generation platform has helped similar companies in tech increase qualified leads by 300%.",
      true, false, "2024-01-15", None, None),
    Lead("2", "Michael", "Chen", "https://linkedin.com/in/michaelchen", "VP of Sales",
      "michael.chen@growthco.com", "GrowthCo Marketing", "https://growthco.com",
      "Michael, your company's focus on scaling B2B sales aligns perfectly with what we do. I'd love to share how we've helped similar agencies generate $2M+ in new revenue.",
      true, true, "2024-01-14", None, None),
    Lead("3", "Emily", "Rodriguez", "https://linkedin.com/in/emilyrodriguez", "CEO",
      "emily@startupventures.com", "Startup Ventures", "https://startupventures.com",
      "Emily, congratulations on your recent funding round! As you scale, lead generation becomes crucial. We've helped 50+ startups build predictable sales pipelines.",
      false, false, "2024-01-13", None, None),
    Lead("4", "David", "Thompson", "https://linkedin.com/in/davidthompson", "Head of Business Development",
      "david.thompson@innovatetech.com", "InnovateTech", "https://innovatetech.com",
      "David, I saw your presentation on revenue growth strategies. Our lead gen system could complement your existing efforts and help you hit those ambitious targets.",
      true, false, "2024-01-12", None, None),
    Lead("5", "Lisa", "Wang", "https://linkedin.com/in/lisawang", "CMO",
      "lisa.wang@digitalfirst.com", "Digital First Agency", "https://digitalfirst.com",
      "Lisa, your agency's client success stories are impressive. I believe our lead generation expertise could help you attract even more high-value clients.",
      false, true, "2024-01-11", None, None),
    Lead("6", "James", "Parker", "https://linkedin.com/in/jamesparker", "Sales Manager",
      "james.parker@salesforce.com", "SalesForce Pro", "https://salesforcepro.com",
      "James, with your experience in sales optimization, you'll appreciate our data-driven approach to lead generation. We've helped teams like yours reduce sales cycles by 40%.",
      true, true, "2024-01-10", None, None)
  ]

  /** The fixture's shape: ids "1".."6" in order, no status or industry, and lead 5 needs a
      follow-up although it was never emailed. */
  lemma MockLeadsShape()
    ensures |MockLeads| == 6
    ensures forall i :: 0 <= i < 6 ==> MockLeads[i].status.None? && MockLeads[i].industry.None?
    ensures [MockLeads[0].id, MockLeads[1].id, MockLeads[2].id, MockLeads[3].id, MockLeads[4].id, MockLeads[5].id]
         == ["1", "2", "3", "4", "5", "6"]
    ensures MockLeads[4].followUp && !MockLeads[4].sent
  {
  }

  /** Four of the fixture's leads were emailed. */
  lemma MockSentCount()
    ensures SentCount(MockLeads) == 4
  {
    var m := MockLeads;
    assert m[..1][..0] == [] && m[..2][..1] == m[..1] && m[..3][..2] == m[..2];
    assert m[..4][..3] == m[..3] && m[..5][..4] == m[..4] && m[..5] == m[..|m| - 1];
    assert SentCount(m[..1]) == 1;
    assert SentCount(m[..2]) == 2;
    assert SentCount(m[..3]) == 2;
    assert SentCount(m[..4]) == 3;
    assert SentCount(m[..5]) == 3;
  }

  /** Three of the fixture's leads need a follow-up. */
  lemma MockFollowUpCount()
    ensures FollowUpCount(MockLeads) == 3
  {
    var m := MockLeads;
    assert m[..1][..0] == [] && m[..2][..1] == m[..1] && m[..3][..2] == m[..2];
    assert m[..4][..3] == m[..3] && m[..5][..4] == m[..4] && m[..5] == m[..|m| - 1];
    assert FollowUpCount(m[..1]) == 0;
    assert FollowUpCount(m[..2]) == 1;
    assert FollowUpCount(m[..3]) == 1;
    assert FollowUpCount(m[..4]) == 1;
    assert FollowUpCount(m[..5]) == 2;
  }

  /** `calculateStats(mockLeads)` is 6 leads, 4 sent, 3 follow-ups, 67% and 25%. */
  lemma MockStats()
    ensures CalculateStats(MockLeads) == DashboardStats(6, 4, 3, 67, 25, None, None)
  {
    MockSentCount();
    MockFollowUpCount();
    CalculateStatsRates(MockLeads);
    assert RoundPercent(4, 6) == 67 && RoundPercent(1, 4) == 25;
  }
}

/** The lead-data provider of the dashboard: the current list of leads, a loading flag and
    an error message, the statistics derived from the list (base figures plus an industry
    and a status breakdown) and the optimistic status update. */
module LeadData {
  import opened Wrappers
  import opened Tallies
  import opened LeadTypes
  import opened MockData
  import SheetsApi

  /** `lead.industry || 'Unknown'` */
  function IndustryKey(l: Lead): string {
    if l.industry.Some? && l.industry.value != "" then l.industry.value else "Unknown"
  }

  /** `lead.status || 'Not Contacted'` */
  function StatusKey(l: Lead): string {
    if l.status.Some? then Label(l.status.value) else "Not Contacted"
  }

  function IndustryKeys(leads: seq<Lead>): (ks: seq<string>)
    ensures |ks| == |leads| && forall i :: 0 <= i < |leads| ==> ks[i] == IndustryKey(leads[i])
  {
    seq(|leads|, i requires 0 <= i < |leads| => IndustryKey(leads[i]))
  }

  function StatusKeys(leads: seq<Lead>): (ks: seq<string>)
    ensures |ks| == |leads| && forall i :: 0 <= i < |leads| ==> ks[i] == StatusKey(leads[i])
  {
    seq(|leads|, i requires 0 <= i < |leads| => StatusKey(leads[i]))
  }

  /** Every status key is one of the five labels. */
  lemma StatusKeysAreLabels(leads: seq<Lead>)
    ensures forall i :: 0 <= i < |leads| ==> StatusKeys(leads)[i] in StatusLabels
  {
  }

  /** The industry breakdown, counted lead by lead into a fresh counter object. */
  method IndustryBreakdown(leads: seq<Lead>) returns (t: Tally)
    ensures t == TallyOf(IndustryKeys(leads))
    ensures Total(t) == |leads| && Distinct(Keys(t))
  {
    t := [];
    for i := 0 to |leads|
      invariant t == TallyOf(IndustryKeys(leads[..i]))
    {
      assert IndustryKeys(leads[..i + 1])[..i] == IndustryKeys(leads[..i]);
      t := Bump(t, IndustryKey(leads[i]));
    }
    assert leads[..|leads|] == leads;
    TallyOfSpec(IndustryKeys(leads));
  }

  /** The status breakdown, counted the same way with "Not Contacted" for a missing status. */
  method StatusBreakdown(leads: seq<Lead>) returns (t: Tally)
    ensures t == TallyOf(StatusKeys(leads))
    ensures Total(t) == |leads| && Distinct(Keys(t))
  {
    t := [];
    for i := 0 to |leads|
      invariant t == TallyOf(StatusKeys(leads[..i]))
    {
      assert StatusKeys(leads[..i + 1])[..i] == StatusKeys(leads[..i]);
      t := Bump(t, StatusKey(leads[i]));
    }
    assert leads[..|leads|] == leads;
    TallyOfSpec(StatusKeys(leads));
  }

  /** The statistics of a list: `calculateStats` alone for no leads, otherwise its figures
      together with both breakdowns. */
  function StatsOf(leads: seq<Lead>): (s: DashboardStats)
    ensures |leads| == 0 ==> s == CalculateStats([])
    ensures |leads| > 0 ==> s == CalculateStats(leads).(industryBreakdown := Some(TallyOf(IndustryKeys(leads))),
                                                        statusBreakdown := Some(TallyOf(StatusKeys(leads))))
  {
    if |leads| == 0 then CalculateStats([])
    else CalculateStats(leads).(industryBreakdown := Some(TallyOf(IndustryKeys(leads))),
                                statusBreakdown := Some(TallyOf(StatusKeys(leads))))
  }

  /** The `stats` memo, computed with the two counting loops. */
  method ComputeStats(leads: seq<Lead>) returns (s: DashboardStats)
    ensures s == StatsOf(leads)
  {
    if |leads| == 0 {
      return CalculateStats([]);
    }
    var industries := IndustryBreakdown(leads);
    var statuses := StatusBreakdown(leads);
    s := CalculateStats(leads).(industryBreakdown := Some(industries), statusBreakdown := Some(statuses));
  }

  /** What the breakdowns mean: each sums to the number of leads, lists each key once, and
      counts for every key the leads that carry it; a missing industry counts as "Unknown",
      a missing status as "Not Contacted". */
  lemma BreakdownsCountLeads(leads: seq<Lead>, k: string)
    requires |leads| > 0
    ensures var s := StatsOf(leads);
      && s.industryBreakdown.Some? && s.statusBreakdown.Some?
      && Total(s.industryBreakdown.value) == |leads| && Total(s.statusBreakdown.value) == |leads|
      && Distinct(Keys(s.industryBreakdown.value)) && Distinct(Keys(s.statusBreakdown.value))
      && Get(s.industryBreakdown.value, k) == Count(IndustryKeys(leads), k)
      && Get(s.statusBreakdown.value, k) == Count(StatusKeys(leads), k)
  {
    TallyOfSpec(IndustryKeys(leads));
    TallyOfSpec(StatusKeys(leads));
  }

  /** `leads.map(l => l.id === id ? {...l, status} : l)` */
  function WithStatus(leads: seq<Lead>, id: string, s: Status): (r: seq<Lead>)
    ensures |r| == |leads|
    ensures forall i :: 0 <= i < |leads| ==>
      r[i] == (if leads[i].id == id then leads[i].(status := Some(s)) else leads[i])
  {
    seq(|leads|, i requires 0 <= i < |leads| => if leads[i].id == id then leads[i].(status := Some(s)) else leads[i])
  }

  /** An id that no lead has changes nothing. */
  lemma WithStatusUnknownId(leads: seq<Lead>, id: string, s: Status)
    requires forall i :: 0 <= i < |leads| ==> leads[i].id != id
    ensures WithStatus(leads, id, s) == leads
  {
  }

  /** Applying the same update twice is applying it once. */
  lemma WithStatusIdempotent(leads: seq<Lead>, id: string, s: Status)
    ensures WithStatus(WithStatus(leads, id, s), id, s) == WithStatus(leads, id, s)
  {
  }

  /** The base figures and the industry keys do not depend on statuses. */
  lemma WithStatusKeepsFigures(leads: seq<Lead>, id: string, s: Status)
    ensures CalculateStats(WithStatus(leads, id, s)) == CalculateStats(leads)
    ensures IndustryKeys(WithStatus(leads, id, s)) == IndustryKeys(leads)
  {
    CountsFollowFlags(WithStatus(leads, id, s), leads);
  }

  /** After the update every lead with that id has status `s`, and the statuses of the others
      are what they were. */
  lemma WithStatusStatuses(leads: seq<Lead>, id: string, s: Status)
    ensures forall i :: 0 <= i < |leads| ==>
      StatusKeys(WithStatus(leads, id, s))[i] == (if leads[i].id == id then Label(s) else StatusKeys(leads)[i])
  {
  }

  const LoadError: string := "Failed to load lead data. Please check your API key and spreadsheet settings."
  const UpdateError: string := "Failed to update lead status."

  /** The provider's state. */
  class LeadStore {
    var leads: seq<Lead>
    var loading: bool
    var error: Option<string>

    constructor ()
      ensures leads == [] && loading && error == None
    {
      leads := [];
      loading := true;
      error := None;
    }

    /** `fetchData`. `configured` says whether the API key and spreadsheet id are set and
        `values` is the grid the sheet search found. Unconfigured, the fixture is used; a
        failed fetch sets the error and also falls back to the fixture; a fetch that
        succeeds is used as it is, even when it holds no lead. */
    method FetchData(configured: bool, values: Option<seq<SheetsApi.Row>>, today: string)
      modifies this
      ensures !loading
      ensures !configured ==> leads == MockLeads && error == None
      ensures configured ==>
        match SheetsApi.FetchLeads(true, values, today)
        case Success(fetched) => leads == fetched && error == None
        case Failure(_) => leads == MockLeads && error == Some(LoadError)
    {
      loading := true;
      error := None;
      if configured {
        var r := SheetsApi.FetchLeads(true, values, today);
        if r.Success? {
          leads := r.value;
        } else {
          error := Some(LoadError);
          leads := MockLeads;
        }
      } else {
        leads := MockLeads;
      }
      loading := false;
    }

    /** `updateStatus`. The remote placeholder is called only when the API key is set; if it
        throws, the list is kept and the error set, otherwise the list is updated in place of
        the old one and the error is left as it was. */
    method UpdateStatus(id: string, s: Status, apiKeySet: bool, remoteThrows: bool)
      modifies this
      ensures loading == old(loading)
      ensures apiKeySet && remoteThrows ==> leads == old(leads) && error == Some(UpdateError)
      ensures !(apiKeySet && remoteThrows) ==> leads == WithStatus(old(leads), id, s) && error == old(error)
    {
      if apiKeySet && remoteThrows {
        error := Some(UpdateError);
        return;
      }
      leads := WithStatus(leads, id, s);
    }
  }
}

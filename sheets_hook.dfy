/** The data hook of the older dashboard: one record holding the leads, statistics, outreach
    figures and insights, one loading flag per slot and one error message per slot plus a
    general one. The service calls it awaits are inputs: a `Result` whose failure carries
    the message of the error thrown. Statistics and insights are kept abstract (type
    parameters `S` and `I`), since they hold simulated and time-dependent figures. */
module SheetsHook {
  import opened Wrappers
  import opened SheetsService

  /** The four loading flags. */
  datatype Loading = Loading(leads: bool, stats: bool, outreachData: bool, insights: bool)

  const AllLoading: Loading := Loading(true, true, true, true)
  const NoneLoading: Loading := Loading(false, false, false, false)

  /** The error record; `None` is `null`, and `general` is `None` while the key is absent. */
  datatype Errors = Errors(leads: Option<string>, stats: Option<string>, outreachData: Option<string>,
                           insights: Option<string>, general: Option<string>)

  const NoErrors: Errors := Errors(None, None, None, None, None)

  /** What the four service calls of `fetchAllData` resolve to together. */
  datatype Fetched<S, I> = Fetched(leads: seq<SheetLead>, stats: S, outreachData: Outreach, insights: I)

  /** What `updateLeadStatus` resolves to. */
  datatype UpdateResult = UpdateResult(success: bool, error: Option<string>)

  /** The hook's state. */
  class SheetsData<S, I> {
    var leads: seq<SheetLead>
    var stats: Option<S>
    var outreachData: Option<Outreach>
    var insights: Option<I>
    var loading: Loading
    var error: Errors

    /** The initial state: no data, every slot loading, no error. */
    constructor ()
      ensures leads == [] && stats == None && outreachData == None && insights == None
      ensures loading == AllLoading && error == NoErrors
    {
      leads := [];
      stats := None;
      outreachData := None;
      insights := None;
      loading := AllLoading;
      error := NoErrors;
    }

    /** The first step of `fetchAllData`: every slot is marked loading, nothing else changes. */
    method FetchAllStart()
      modifies this
      ensures loading == AllLoading
      ensures leads == old(leads) && stats == old(stats) && outreachData == old(outreachData)
      ensures insights == old(insights) && error == old(error)
    {
      loading := loading.(leads := true, stats := true, outreachData := true, insights := true);
    }

    /** The rest of `fetchAllData` once the four calls settled: on success all four slots are
        replaced and every error cleared (the `general` key included); on failure only
        `general` is set and the data is kept; on both paths every flag ends false. */
    method FetchAllSettle(outcome: Result<Fetched<S, I>, string>)
      modifies this
      ensures loading == NoneLoading
      ensures outcome.Success? ==>
        && leads == outcome.value.leads && stats == Some(outcome.value.stats)
        && outreachData == Some(outcome.value.outreachData) && insights == Some(outcome.value.insights)
        && error == NoErrors
      ensures outcome.Failure? ==>
        && leads == old(leads) && stats == old(stats) && outreachData == old(outreachData)
        && insights == old(insights) && error == old(error).(general := Some(outcome.error))
    {
      match outcome {
        case Success(f) =>
          leads := f.leads;
          stats := Some(f.stats);
          outreachData := Some(f.outreachData);
          insights := Some(f.insights);
          error := NoErrors;
        case Failure(message) =>
          error := error.(general := Some(message));
      }
      loading := NoneLoading;
    }

    /** `fetchLeads`: only the leads slot, its loading flag and its error change; the flag
        ends false, and the error is cleared on success and holds the message on failure. */
    method FetchLeads(outcome: Result<seq<SheetLead>, string>)
      modifies this
      ensures loading == old(loading).(leads := false)
      ensures outcome.Success? ==> leads == outcome.value && error == old(error).(leads := None)
      ensures outcome.Failure? ==> leads == old(leads) && error == old(error).(leads := Some(outcome.error))
      ensures stats == old(stats) && outreachData == old(outreachData) && insights == old(insights)
    {
      loading := loading.(leads := true);
      error := error.(leads := None);
      match outcome {
        case Success(fetched) =>
          leads := fetched;
        case Failure(message) =>
          error := error.(leads := Some(message));
      }
      loading := loading.(leads := false);
    }

    /** `fetchStats`: the same bookkeeping on the statistics slot. */
    method FetchStats(outcome: Result<S, string>)
      modifies this
      ensures loading == old(loading).(stats := false)
      ensures outcome.Success? ==> stats == Some(outcome.value) && error == old(error).(stats := None)
      ensures outcome.Failure? ==> stats == old(stats) && error == old(error).(stats := Some(outcome.error))
      ensures leads == old(leads) && outreachData == old(outreachData) && insights == old(insights)
    {
      loading := loading.(stats := true);
      error := error.(stats := None);
      match outcome {
        case Success(fetched) =>
          stats := Some(fetched);
        case Failure(message) =>
          error := error.(stats := Some(message));
      }
      loading := loading.(stats := false);
    }

    /** `updateLeadStatus`: `remote` is `None` when the service call resolved and the thrown
        message otherwise. On success only the leads with that id get the new status and the
        result is a success; on failure nothing changes and the message is returned. */
    method UpdateLeadStatus(leadId: nat, newStatus: string, remote: Option<string>) returns (r: UpdateResult)
      modifies this
      ensures remote.None? ==> r == UpdateResult(true, None) && leads == SetStatus(old(leads), leadId, newStatus)
      ensures remote.Some? ==> r == UpdateResult(false, Some(remote.value)) && leads == old(leads)
      ensures stats == old(stats) && outreachData == old(outreachData) && insights == old(insights)
      ensures loading == old(loading) && error == old(error)
    {
      if remote.Some? {
        return UpdateResult(false, Some(remote.value));
      }
      leads := SetStatus(leads, leadId, newStatus);
      r := UpdateResult(true, None);
    }
  }
}

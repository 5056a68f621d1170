/** The record types of the dashboard client: a lead as the sheet or the fixture supplies it,
    its five-valued outreach status, and the statistics derived from a list of leads. */
module LeadTypes {
  import opened Wrappers
  import opened Tallies

  /** The closed status enumeration of a lead. */
  datatype Status = NotContacted | Contacted | Replied | BookedCall | Closed

  /** The display label of a status, which is also its value in the record. */
  function Label(s: Status): string {
    match s
    case NotContacted => "Not Contacted"
    case Contacted => "Contacted"
    case Replied => "Replied"
    case BookedCall => "Booked Call"
    case Closed => "Closed"
  }

  /** The five statuses in their fixed display order. */
  const AllStatuses: seq<Status> := [NotContacted, Contacted, Replied, BookedCall, Closed]

  const StatusLabels: seq<string> := ["Not Contacted", "Contacted", "Replied", "Booked Call", "Closed"]

  /** Reads a label back; anything that is not one of the five labels is no status. */
  function StatusOfLabel(l: string): (r: Option<Status>)
    ensures r.Some? <==> l in StatusLabels
  {
    if l == "Not Contacted" then Some(NotContacted)
    else if l == "Contacted" then Some(Contacted)
    else if l == "Replied" then Some(Replied)
    else if l == "Booked Call" then Some(BookedCall)
    else if l == "Closed" then Some(Closed)
    else None
  }

  /** The labels are exactly the five status values, listed once each in the fixed order,
      and reading a label back gives the status it came from. */
  lemma StatusLabelsRoundTrip(s: Status, l: string)
    ensures |AllStatuses| == 5 && |StatusLabels| == 5
    ensures forall i :: 0 <= i < 5 ==> Label(AllStatuses[i]) == StatusLabels[i]
    ensures s in AllStatuses && Label(s) in StatusLabels
    ensures StatusOfLabel(Label(s)) == Some(s)
    ensures StatusOfLabel(l) == Some(s) ==> Label(s) == l
  {
  }

  /** No label is listed twice: their lengths already differ. */
  lemma StatusLabelsDistinct()
    ensures Distinct(StatusLabels)
  {
    var lengths := [13, 9, 7, 11, 6];
    assert forall i :: 0 <= i < 5 ==> |StatusLabels[i]| == lengths[i];
  }

  /** A lead. `industry` and `status` are optional; every other field is required.
      `sent` and `followUp` are independent flags: nothing makes a follow-up imply a send. */
  datatype Lead = Lead(
    id: string,
    firstName: string,
    lastName: string,
    linkedinUrl: string,
    title: string,
    email: string,
    companyName: string,
    companyWebsite: string,
    icebreaker: string,
    sent: bool,
    followUp: bool,
    createdAt: string,
    industry: Option<string>,
    status: Option<Status>)

  /** The dashboard figures: five numbers and two optional category-to-count objects. */
  datatype DashboardStats = DashboardStats(
    totalLeads: int,
    emailsSent: int,
    followUpsNeeded: int,
    conversionRate: int,
    responseRate: int,
    industryBreakdown: Option<Tally>,
    statusBreakdown: Option<Tally>)

  /** How many leads have `sent` set. */
  function SentCount(leads: seq<Lead>): (n: nat)
    ensures n <= |leads|
  {
    if leads == [] then 0 else SentCount(leads[..|leads| - 1]) + (if leads[|leads| - 1].sent then 1 else 0)
  }

  /** How many leads have `followUp` set. */
  function FollowUpCount(leads: seq<Lead>): (n: nat)
    ensures n <= |leads|
  {
    if leads == [] then 0 else FollowUpCount(leads[..|leads| - 1]) + (if leads[|leads| - 1].followUp then 1 else 0)
  }

  /** The two counts depend on the `sent` and `followUp` flags only. */
  lemma {:induction false} CountsFollowFlags(a: seq<Lead>, b: seq<Lead>)
    requires |a| == |b|
    requires forall i :: 0 <= i < |a| ==> a[i].sent == b[i].sent && a[i].followUp == b[i].followUp
    ensures SentCount(a) == SentCount(b) && FollowUpCount(a) == FollowUpCount(b)
  {
    if a != [] {
      CountsFollowFlags(a[..|a| - 1], b[..|b| - 1]);
    }
  }
}

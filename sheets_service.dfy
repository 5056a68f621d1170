/** The sheets service of the older dashboard: turns the `Leads` tab into objects keyed by
    normalised header names, maps them to lead records numbered 1..n, and derives the
    counts behind the status, industry, outreach and insight panels. */
module SheetsService {
  import opened Wrappers
  import opened Text
  import opened Keywords
  import opened Tallies
  import opened LeadTypes
  import SheetsApi

  type Row = seq<string>

  /** A row as an object: normalised header name to cell text. */
  type Obj = map<string, string>

  /** `header.toLowerCase().replace(/\s+/g, '_')` */
  function NormalizeKey(header: string): (k: string)
    ensures forall i :: 0 <= i < |k| ==> !IsSpace(k[i]) && !IsUpper(k[i])
  {
    SpaceRunsKeepLowerCase(Lower(header));
    ReplaceSpaceRuns(Lower(header), '_')
  }

  lemma {:induction false} DropSpacesSuffix(s: string)
    ensures exists k :: 0 <= k <= |s| && DropSpaces(s) == s[k..]
    decreases |s|
  {
    if s != [] && IsSpace(s[0]) {
      DropSpacesSuffix(s[1..]);
      var k :| 0 <= k <= |s[1..]| && DropSpaces(s[1..]) == s[1..][k..];
      assert s[1..][k..] == s[k + 1..];
    } else {
      assert s == s[0..];
    }
  }

  /** Turning whitespace runs into `_` in a text without upper-case letters keeps it so, so
      the keys are lower-case. */
  lemma {:induction false} SpaceRunsKeepLowerCase(s: string)
    requires forall i :: 0 <= i < |s| ==> !IsUpper(s[i])
    ensures forall i :: 0 <= i < |ReplaceSpaceRuns(s, '_')| ==> !IsUpper(ReplaceSpaceRuns(s, '_')[i])
    decreases |s|
  {
    if s != [] {
      if IsSpace(s[0]) {
        DropSpacesSuffix(s[1..]);
        var tail := DropSpaces(s[1..]);
        SpaceRunsKeepLowerCase(tail);
        assert ReplaceSpaceRuns(s, '_') == ['_'] + ReplaceSpaceRuns(tail, '_');
      } else {
        SpaceRunsKeepLowerCase(s[1..]);
        assert ReplaceSpaceRuns(s, '_') == [s[0]] + ReplaceSpaceRuns(s[1..], '_');
      }
    }
  }

  /** The object built from `headers` and a row: each header in turn assigns its key, so a
      later header with the same key overwrites an earlier one. */
  function ObjectOf(headers: Row, row: Row): Obj
    decreases |headers|
  {
    if headers == [] then map[]
    else ObjectOf(headers[..|headers| - 1], row)[NormalizeKey(headers[|headers| - 1]) := SheetsApi.Cell(row, |headers| - 1)]
  }

  /** The keys are exactly the normalised headers, and a key holds the cell under the LAST
      header that normalises to it. */
  lemma {:induction false} ObjectOfSpec(headers: Row, row: Row, i: nat)
    requires i < |headers|
    requires forall j :: i < j < |headers| ==> NormalizeKey(headers[j]) != NormalizeKey(headers[i])
    ensures NormalizeKey(headers[i]) in ObjectOf(headers, row)
    ensures ObjectOf(headers, row)[NormalizeKey(headers[i])] == SheetsApi.Cell(row, i)
  {
    var n := |headers|;
    if i < n - 1 {
      var front := headers[..n - 1];
      ObjectOfSpec(front, row, i);
    }
  }

  /** Every key of the object comes from some header. */
  lemma {:induction false} ObjectOfKeys(headers: Row, row: Row, k: string)
    requires k in ObjectOf(headers, row)
    ensures exists i :: 0 <= i < |headers| && NormalizeKey(headers[i]) == k
  {
    var n := |headers|;
    if NormalizeKey(headers[n - 1]) != k {
      var front := headers[..n - 1];
      ObjectOfKeys(front, row, k);
      var i :| 0 <= i < |front| && NormalizeKey(front[i]) == k;
      assert headers[i] == front[i];
    }
  }

  /** No key of the object holds a space. */
  lemma {:induction false} ObjectKeysHaveNoSpace(headers: Row, row: Row)
    ensures forall k :: k in ObjectOf(headers, row) ==> forall j :: 0 <= j < |k| ==> !IsSpace(k[j])
  {
    if headers != [] {
      ObjectKeysHaveNoSpace(headers[..|headers| - 1], row);
    }
  }

  /** So the `lead['company name']` and `lead['company website']` fallbacks never find a value. */
  lemma SpacedKeyAbsent(headers: Row, row: Row)
    ensures "company name" !in ObjectOf(headers, row)
    ensures "company website" !in ObjectOf(headers, row)
  {
    ObjectKeysHaveNoSpace(headers, row);
    assert IsSpace("company name"[7]);
    assert IsSpace("company website"[7]);
  }

  /** The object of one row, built header by header as the `forEach` does. */
  method RowToObject(headers: Row, row: Row) returns (obj: Obj)
    ensures obj == ObjectOf(headers, row)
  {
    obj := map[];
    for i := 0 to |headers|
      invariant obj == ObjectOf(headers[..i], row)
    {
      assert headers[..i + 1][..i] == headers[..i];
      obj := obj[NormalizeKey(headers[i]) := SheetsApi.Cell(row, i)];
    }
    assert headers[..|headers|] == headers;
  }

  /** `rowsToObjects`: nothing for fewer than two rows, otherwise one object per row after
      the header row, in order. */
  function ObjectsOf(rows: seq<Row>): (objs: seq<Obj>)
    ensures |rows| < 2 ==> objs == []
    ensures |rows| >= 2 ==> |objs| == |rows| - 1
    ensures |rows| >= 2 ==> forall i :: 0 <= i < |objs| ==> objs[i] == ObjectOf(rows[0], rows[i + 1])
  {
    if |rows| < 2 then []
    else seq(|rows| - 1, i requires 0 <= i < |rows| - 1 => ObjectOf(rows[0], rows[i + 1]))
  }

  /** The same, row by row. */
  method RowsToObjects(rows: seq<Row>) returns (objs: seq<Obj>)
    ensures objs == ObjectsOf(rows)
  {
    if |rows| < 2 {
      return [];
    }
    objs := [];
    var i := 1;
    while i < |rows|
      invariant 1 <= i <= |rows|
      invariant |objs| == i - 1
      invariant forall j :: 0 <= j < i - 1 ==> objs[j] == ObjectOf(rows[0], rows[j + 1])
    {
      var obj := RowToObject(rows[0], rows[i]);
      objs := objs + [obj];
      i := i + 1;
    }
  }

  /** A lead of the older dashboard. `size` is random and is not part of this model. */
  datatype SheetLead = SheetLead(
    id: nat,
    company: string,
    name: string,
    title: string,
    industry: string,
    stack: string,
    email: string,
    linkedin: string,
    notes: string,
    status: string,
    lastContacted: Option<string>,
    workflow: string,
    website: string)

  /** `obj[k] || ''` */
  function Field(obj: Obj, k: string): string {
    if k in obj then obj[k] else ""
  }

  /** `a || b` on strings. */
  function Or(a: string, b: string): string {
    if a != "" then a else b
  }

  const ServiceIndustryRules: seq<Rule> := [
    Rule("Technology", ["tech", "software", "app"]),
    Rule("Finance", ["finance", "bank", "invest"]),
    Rule("Healthcare", ["health", "medical", "pharma"]),
    Rule("Retail", ["retail", "shop", "store"]),
    Rule("Education", ["edu", "school", "university"])
  ]

  /** `deriveIndustry`: the lower-cased company name only, Technology tested first, and
      "Other" when no rule fires. */
  function DeriveIndustry(companyName: string): (r: string)
    ensures r in ["Technology", "Finance", "Healthcare", "Retail", "Education", "Other"]
  {
    Classify(ServiceIndustryRules, "Other", Lower(companyName))
  }

  /** The two industry detectors disagree: for a company with no name and no website the
      client one says Healthcare and the service one says Other. */
  lemma DetectorsDiverge()
    ensures SheetsApi.DetectIndustry("", "") == "Healthcare"
    ensures DeriveIndustry("") == "Other"
  {
    assert Lower("" + " " + "") == " ";
    forall i | 0 <= i < |SheetsApi.IndustryRules| ensures !Fires(SheetsApi.IndustryRules[i], " ") {
      forall j | 0 <= j < |SheetsApi.IndustryRules[i].keywords|
        ensures !Contains(" ", SheetsApi.IndustryRules[i].keywords[j])
      {
        TooLongNotContained(" ", SheetsApi.IndustryRules[i].keywords[j]);
      }
    }
    ClassifyFirstMatch(SheetsApi.IndustryRules, "Healthcare", " ", 0);
    assert Lower("") == "";
    forall i | 0 <= i < |ServiceIndustryRules| ensures !Fires(ServiceIndustryRules[i], "") {
      forall j | 0 <= j < |ServiceIndustryRules[i].keywords|
        ensures !Contains("", ServiceIndustryRules[i].keywords[j])
      {
        TooLongNotContained("", ServiceIndustryRules[i].keywords[j]);
      }
    }
    ClassifyFirstMatch(ServiceIndustryRules, "Other", "", 0);
  }

  /** The lead built from the object at 0-based position `index`. */
  function LeadOfObject(index: nat, obj: Obj): (l: SheetLead)
    ensures l.id == index + 1
    ensures l.status != ""
    ensures l.name == Trim(Field(obj, "first_name") + " " + Field(obj, "last_name"))
    ensures l.lastContacted.Some? <==> Field(obj, "last_contacted") != ""
  {
    var company := Or(Field(obj, "company_name"), Field(obj, "company name"));
    SheetLead(
      index + 1,
      company,
      Trim(Field(obj, "first_name") + " " + Field(obj, "last_name")),
      Field(obj, "title"),
      DeriveIndustry(company),
      "Unknown",
      Field(obj, "email"),
      Field(obj, "linkedin_url"),
      Field(obj, "multiline_icebreaker"),
      Or(Field(obj, "status"), "Not Contacted"),
      if Field(obj, "last_contacted") != "" then Some(Field(obj, "last_contacted")) else None,
      "Lead Generation",
      Or(Field(obj, "company_website"), Field(obj, "company website")))
  }

  /** `getLeads`. `fetched` is the `Leads` tab, or None when fetching it threw, in which case
      there are no leads. Ids run 1..n with no gap, whatever the rows hold. */
  function GetLeads(fetched: Option<seq<Row>>): (leads: seq<SheetLead>)
    ensures fetched.None? ==> leads == []
    ensures fetched.Some? ==> |leads| == |ObjectsOf(fetched.value)|
    ensures forall i :: 0 <= i < |leads| ==> leads[i].id == i + 1
    ensures fetched.Some? ==> forall i :: 0 <= i < |leads| ==> leads[i] == LeadOfObject(i, ObjectsOf(fetched.value)[i])
  {
    match fetched
    case None => []
    case Some(rows) =>
      var objs := ObjectsOf(rows);
      seq(|objs|, i requires 0 <= i < |objs| => LeadOfObject(i, objs[i]))
  }

  /** The company of a lead is read from the `company_name` column only, its status defaults
      to "Not Contacted", and its industry is derived from that company. */
  lemma LeadOfRowFields(index: nat, headers: Row, row: Row)
    ensures var obj := ObjectOf(headers, row);
      var l := LeadOfObject(index, obj);
      && l.company == Field(obj, "company_name")
      && l.industry == DeriveIndustry(Field(obj, "company_name"))
      && l.website == Field(obj, "company_website")
      && l.status == (if Field(obj, "status") != "" then Field(obj, "status") else "Not Contacted")
  {
    SpacedKeyAbsent(headers, row);
  }

  /** `statuses.forEach(s => statusMap[s] = 0)` */
  const InitStatuses: Tally := seq(|StatusLabels|, i requires 0 <= i < |StatusLabels| => Entry(StatusLabels[i], 0))

  /** The property a lead's status bumps: its own when it is one of the five, else
      "Not Contacted". */
  function StatusCountKey(l: SheetLead): (k: string)
    ensures k in StatusLabels
  {
    if l.status in StatusLabels then l.status else "Not Contacted"
  }

  function StatusCountKeys(leads: seq<SheetLead>): (ks: seq<string>)
    ensures |ks| == |leads| && forall i :: 0 <= i < |leads| ==> ks[i] == StatusCountKey(leads[i])
  {
    seq(|leads|, i requires 0 <= i < |leads| => StatusCountKey(leads[i]))
  }

  /** Counting five-status keys from the five zero entries keeps exactly those five entries
      in their order and adds one per key. */
  lemma StatusTallyShape(keys: seq<string>)
    requires forall i :: 0 <= i < |keys| ==> keys[i] in StatusLabels
    ensures Keys(TallyFrom(InitStatuses, keys)) == StatusLabels
    ensures Total(TallyFrom(InitStatuses, keys)) == |keys|
  {
    KeysAt(InitStatuses);
    AllZero(InitStatuses, "");
    assert Keys(InitStatuses) == StatusLabels;
    TallyFromKeepsKeys(InitStatuses, keys);
    TallyFromTotal(InitStatuses, keys);
  }

  /** Each entry counts the keys equal to its status. */
  lemma StatusTallyGet(keys: seq<string>, k: string)
    ensures Get(TallyFrom(InitStatuses, keys), k) == Count(keys, k)
  {
    TallyFromGet(InitStatuses, keys, k);
    AllZero(InitStatuses, k);
  }

  /** `calculateStatusCounts`: exactly the five statuses in their fixed order, counting a
      status outside the five as "Not Contacted", and adding up to the number of leads. */
  method StatusCounts(leads: seq<SheetLead>) returns (t: Tally)
    ensures t == TallyFrom(InitStatuses, StatusCountKeys(leads))
    ensures Keys(t) == StatusLabels
    ensures Total(t) == |leads|
    ensures forall k :: Get(t, k) == Count(StatusCountKeys(leads), k)
  {
    t := InitStatuses;
    for i := 0 to |leads|
      invariant t == TallyFrom(InitStatuses, StatusCountKeys(leads[..i]))
    {
      assert StatusCountKeys(leads[..i + 1])[..i] == StatusCountKeys(leads[..i]);
      t := Bump(t, StatusCountKey(leads[i]));
    }
    assert leads[..|leads|] == leads;
    StatusTallyShape(StatusCountKeys(leads));
    forall k ensures Get(t, k) == Count(StatusCountKeys(leads), k) {
      StatusTallyGet(StatusCountKeys(leads), k);
    }
  }

  function IndustryKeys(leads: seq<SheetLead>): (ks: seq<string>)
    ensures |ks| == |leads| && forall i :: 0 <= i < |leads| ==> ks[i] == leads[i].industry
  {
    seq(|leads|, i requires 0 <= i < |leads| => leads[i].industry)
  }

  /** `calculateIndustryCounts`: one property per industry that occurs, adding up to the
      number of leads. */
  method IndustryCounts(leads: seq<SheetLead>) returns (t: Tally)
    ensures t == TallyOf(IndustryKeys(leads))
    ensures Total(t) == |leads| && Distinct(Keys(t))
    ensures forall k :: Get(t, k) == Count(IndustryKeys(leads), k)
  {
    t := [];
    for i := 0 to |leads|
      invariant t == TallyOf(IndustryKeys(leads[..i]))
    {
      assert IndustryKeys(leads[..i + 1])[..i] == IndustryKeys(leads[..i]);
      t := Bump(t, leads[i].industry);
    }
    assert leads[..|leads|] == leads;
    TallyOfSpec(IndustryKeys(leads));
  }

  function TitleKeys(leads: seq<SheetLead>): (ks: seq<string>)
    ensures |ks| == |leads| && forall i :: 0 <= i < |leads| ==> ks[i] == Lower(leads[i].title)
  {
    seq(|leads|, i requires 0 <= i < |leads| => Lower(leads[i].title))
  }

  /** `calculateTitleCounts`: the same over lower-cased titles, so titles that differ only
      in case share one property. */
  method TitleCounts(leads: seq<SheetLead>) returns (t: Tally)
    ensures t == TallyOf(TitleKeys(leads))
    ensures Total(t) == |leads| && Distinct(Keys(t))
    ensures forall k :: Get(t, k) == Count(TitleKeys(leads), k)
    ensures forall k :: k in Keys(t) ==> forall i :: 0 <= i < |k| ==> !IsUpper(k[i])
  {
    t := [];
    for i := 0 to |leads|
      invariant t == TallyOf(TitleKeys(leads[..i]))
    {
      assert TitleKeys(leads[..i + 1])[..i] == TitleKeys(leads[..i]);
      t := Bump(t, Lower(leads[i].title));
    }
    assert leads[..|leads|] == leads;
    TallyOfSpec(TitleKeys(leads));
  }

  /** How many leads satisfy `p`. */
  function CountIf(leads: seq<SheetLead>, p: SheetLead -> bool): (n: nat)
    ensures n <= |leads|
  {
    if leads == [] then 0 else CountIf(leads[..|leads| - 1], p) + (if p(leads[|leads| - 1]) then 1 else 0)
  }

  /** A predicate implied by another counts at least as many leads. */
  lemma {:induction false} CountIfMonotone(leads: seq<SheetLead>, p: SheetLead -> bool, q: SheetLead -> bool)
    requires forall l :: p(l) ==> q(l)
    ensures CountIf(leads, p) <= CountIf(leads, q)
  {
    if leads != [] {
      CountIfMonotone(leads[..|leads| - 1], p, q);
    }
  }

  predicate IsContacted(l: SheetLead) {
    l.status != "Not Contacted"
  }

  predicate IsReplied(l: SheetLead) {
    l.status in ["Replied", "Booked Call", "Closed"]
  }

  predicate IsBooked(l: SheetLead) {
    l.status == "Booked Call"
  }

  datatype Outreach = Outreach(workflowsRunning: nat, sent: nat, replies: nat)

  /** The exact counters of `getOutreachData`: contacted leads are those past "Not Contacted",
      three emails are assumed per contacted lead, and every reply is from a contacted lead. */
  function OutreachOf(leads: seq<SheetLead>): (o: Outreach)
    ensures o.workflowsRunning == 1
    ensures o.sent == 3 * CountIf(leads, IsContacted)
    ensures o.replies == CountIf(leads, IsReplied)
    ensures o.replies <= CountIf(leads, IsContacted) <= |leads|
  {
    CountIfMonotone(leads, IsReplied, IsContacted);
    Outreach(1, 3 * CountIf(leads, IsContacted), CountIf(leads, IsReplied))
  }

  /** `Math.ceil((num / den) * 100)` on exact rationals, where the source computes it in
      floating point. */
  function CeilPercent(num: nat, den: nat): (r: nat)
    requires den > 0
    ensures den * r >= 100 * num && den * (r - 1) < 100 * num
  {
    (100 * num + den - 1) / den
  }

  lemma CeilPercentBounded(num: nat, den: nat)
    requires 0 < den && num <= den
    ensures CeilPercent(num, den) <= 100
  {
  }

  datatype Template = Template(name: string, open: nat, reply: nat, booked: nat)

  /** The template figures of `getInsights`: each a ceiling percentage, 0 when its
      denominator count is 0, and each between 0 and 100. */
  function TemplateOf(leads: seq<SheetLead>): (t: Template)
    ensures CountIf(leads, IsContacted) == 0 ==> t.open == 0 && t.reply == 0
    ensures CountIf(leads, IsReplied) == 0 ==> t.booked == 0
    ensures t.open <= 100 && t.reply <= 100 && t.booked <= 100
    ensures CountIf(leads, IsContacted) > 0 ==> t.open == CeilPercent(CountIf(leads, IsContacted), |leads|)
    ensures CountIf(leads, IsContacted) > 0 ==>
      t.reply == CeilPercent(CountIf(leads, IsReplied), CountIf(leads, IsContacted))
    ensures CountIf(leads, IsReplied) > 0 ==>
      t.booked == CeilPercent(CountIf(leads, IsBooked), CountIf(leads, IsReplied))
  {
    var contacted := CountIf(leads, IsContacted);
    var replied := CountIf(leads, IsReplied);
    var booked := CountIf(leads, IsBooked);
    CountIfMonotone(leads, IsReplied, IsContacted);
    CountIfMonotone(leads, IsBooked, IsReplied);
    var open := if contacted > 0 then (CeilPercentBounded(contacted, |leads|); CeilPercent(contacted, |leads|)) else 0;
    var reply := if contacted > 0 then (CeilPercentBounded(replied, contacted); CeilPercent(replied, contacted)) else 0;
    var bookedPct := if replied > 0 then (CeilPercentBounded(booked, replied); CeilPercent(booked, replied)) else 0;
    Template("Lead Generation Outreach", open, reply, bookedPct)
  }

  /** `updateLeadStatus` of the service: a placeholder that reports success. */
  function ServiceUpdateStatus(leadId: nat, newStatus: string): (success: bool)
    ensures success
  {
    true
  }

  /** `leads.map(l => l.id === id ? {...l, status} : l)` */
  function SetStatus(leads: seq<SheetLead>, id: nat, status: string): (r: seq<SheetLead>)
    ensures |r| == |leads|
    ensures forall i :: 0 <= i < |leads| ==>
      r[i] == (if leads[i].id == id then leads[i].(status := status) else leads[i])
  {
    seq(|leads|, i requires 0 <= i < |leads| => if leads[i].id == id then leads[i].(status := status) else leads[i])
  }

  /** An unknown id changes nothing, the update is idempotent, and the ids are kept. */
  lemma SetStatusProperties(leads: seq<SheetLead>, id: nat, status: string)
    ensures (forall i :: 0 <= i < |leads| ==> leads[i].id != id) ==> SetStatus(leads, id, status) == leads
    ensures SetStatus(SetStatus(leads, id, status), id, status) == SetStatus(leads, id, status)
    ensures forall i :: 0 <= i < |leads| ==> SetStatus(leads, id, status)[i].id == leads[i].id
  {
  }
}

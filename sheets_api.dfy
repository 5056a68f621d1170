/** The spreadsheet reader of the dashboard client: a grid of strings, as the sheets service
    returns it, becomes a list of leads. The first grid row is a header; blank rows are
    dropped; columns map to fields by position; an industry is guessed from the company. */
module SheetsApi {
  import opened Wrappers
  import opened Text
  import opened Keywords
  import opened LeadTypes
  import opened Seqs

  type Row = seq<string>

  /** The industry keyword rules, Healthcare first. */
  const IndustryRules: seq<Rule> := [
    Rule("Healthcare", ["clinic", "hospital", "medical", "health", "dental", "orthodontic", "pharma", "care", "surgery", "doctor", "mayo"]),
    Rule("Technology", ["tech", "software", "app", "digital", "innovate"]),
    Rule("Finance", ["finance", "bank", "invest", "capital", "fund"]),
    Rule("Retail", ["retail", "shop", "store", "market", "commerce"]),
    Rule("Education", ["education", "university", "school", "academic"])
  ]

  const IndustryLabels: seq<string> := ["Healthcare", "Technology", "Finance", "Retail", "Education"]

  /** `detectIndustry`: classifies the lower-cased `name + ' ' + website`; Healthcare when no
      rule fires. The result is always one of the five labels. */
  function DetectIndustry(companyName: string, companyWebsite: string): (r: string)
    ensures r in IndustryLabels
  {
    Classify(IndustryRules, "Healthcare", Lower(companyName + " " + companyWebsite))
  }

  /** Rule order decides: the first rule whose keyword occurs in the lower-cased text wins. */
  lemma DetectIndustryFirstMatch(companyName: string, companyWebsite: string, i: nat)
    requires i < |IndustryRules|
    requires Fires(IndustryRules[i], Lower(companyName + " " + companyWebsite))
    requires forall j :: 0 <= j < i ==> !Fires(IndustryRules[j], Lower(companyName + " " + companyWebsite))
    ensures DetectIndustry(companyName, companyWebsite) == IndustryLabels[i]
  {
    ClassifyFirstMatch(IndustryRules, "Healthcare", Lower(companyName + " " + companyWebsite), i);
  }

  /** `!cell || cell.trim() === ''` */
  predicate BlankCell(c: string) {
    c == "" || Trim(c) == ""
  }

  /** A row that yields no lead: no cells, or only empty or whitespace cells. */
  predicate BlankRow(row: Row) {
    |row| == 0 || forall i :: 0 <= i < |row| ==> BlankCell(row[i])
  }

  /** `row[i] || ''` */
  function Cell(row: Row, i: nat): string {
    if i < |row| then row[i] else ""
  }

  /** `c === 'TRUE' || c === 'true' || c === '1'` */
  predicate IsTrueCell(c: string) {
    c == "TRUE" || c == "true" || c == "1"
  }

  /** The lead built from a non-blank row at 1-based `position` among the rows after the
      header. `today` stands for the date of the fetch. */
  function RowToLead(position: nat, row: Row, today: string): Lead {
    Lead(Decimal(position), Cell(row, 0), Cell(row, 1), Cell(row, 2), Cell(row, 3), Cell(row, 4),
      Cell(row, 5), Cell(row, 6), Cell(row, 7), IsTrueCell(Cell(row, 8)), IsTrueCell(Cell(row, 9)),
      today, Some(DetectIndustry(Cell(row, 5), Cell(row, 6))), Some(NotContacted))
  }

  /** Columns 0 to 7 are the string fields in order, a missing cell reads as "", columns 8
      and 9 are the flags, and every lead starts Not Contacted with a detected industry. */
  lemma RowToLeadFields(position: nat, row: Row, today: string)
    ensures var l := RowToLead(position, row, today);
      && [l.firstName, l.lastName, l.linkedinUrl, l.title, l.email, l.companyName, l.companyWebsite, l.icebreaker]
         == [Cell(row, 0), Cell(row, 1), Cell(row, 2), Cell(row, 3), Cell(row, 4), Cell(row, 5), Cell(row, 6), Cell(row, 7)]
      && (l.sent <==> Cell(row, 8) in ["TRUE", "true", "1"])
      && (l.followUp <==> Cell(row, 9) in ["TRUE", "true", "1"])
      && l.id == Decimal(position)
      && l.status == Some(NotContacted)
      && l.industry.Some? && l.industry.value in IndustryLabels
  {
  }

  /** A row holding only a first name gives a lead whose other text fields are empty and
      whose flags are both false. */
  lemma FirstNameOnlyRow(position: nat, name: string, today: string)
    ensures var l := RowToLead(position, [name], today);
      && l.firstName == name
      && l.lastName == "" && l.linkedinUrl == "" && l.title == "" && l.email == ""
      && l.companyName == "" && l.companyWebsite == "" && l.icebreaker == ""
      && !l.sent && !l.followUp && l.status == Some(NotContacted)
  {
    assert !IsTrueCell("");
  }

  /** The rows after the header mapped to leads, blank rows dropped, each lead numbered by
      its row's position before the blank rows were dropped. */
  function NormalizeRows(rows: seq<Row>, today: string): (leads: seq<Lead>)
    ensures |leads| <= |rows|
  {
    MapKept(rows, BlankRow, (position, row) => RowToLead(position, row, today))
  }

  /** Normalisation yields one lead per non-blank row, in row order: the `j`-th lead is built
      from the `j`-th non-blank row and numbered by that row's 1-based position, and every
      non-blank row is among them. */
  lemma NormalizeRowsSpec(rows: seq<Row>, today: string)
    ensures var ks := KeptIndices(rows, BlankRow);
      && |NormalizeRows(rows, today)| == |ks|
      && (forall j :: 0 <= j < |ks| ==> NormalizeRows(rows, today)[j] == RowToLead(ks[j] + 1, rows[ks[j]], today))
      && (forall j :: 0 <= j < |ks| ==> ks[j] < |rows| && !BlankRow(rows[ks[j]]))
      && (forall j, k :: 0 <= j < k < |ks| ==> ks[j] < ks[k])
      && (forall i :: 0 <= i < |rows| && !BlankRow(rows[i]) ==> i in ks)
  {
    MapKeptSpec(rows, BlankRow, (position, row) => RowToLead(position, row, today));
    KeptIndicesSpec(rows, BlankRow);
  }

  /** The `j`-th lead's id is the 1-based position of the `j`-th non-blank row. */
  lemma NormalizedIdAt(rows: seq<Row>, today: string, j: nat)
    requires j < |NormalizeRows(rows, today)|
    ensures j < |KeptIndices(rows, BlankRow)|
    ensures NormalizeRows(rows, today)[j].id == Decimal(KeptIndices(rows, BlankRow)[j] + 1)
  {
    var f := (position, row) => RowToLead(position, row, today);
    MapKeptLength(rows, BlankRow, f);
    MapKeptAt(rows, BlankRow, f, j);
  }

  /** Two leads at different places of one fetch have different ids. */
  lemma NormalizedIdsDiffer(rows: seq<Row>, today: string, j: nat, k: nat)
    requires j < k < |NormalizeRows(rows, today)|
    ensures NormalizeRows(rows, today)[j].id != NormalizeRows(rows, today)[k].id
  {
    NormalizedIdAt(rows, today, j);
    NormalizedIdAt(rows, today, k);
    var ks := KeptIndices(rows, BlankRow);
    KeptIndicesIncrease(rows, BlankRow, j, k);
    PositionsRenderApart(ks[j] + 1, ks[k] + 1);
  }

  /** Different positions give different ids. */
  lemma PositionsRenderApart(a: nat, b: nat)
    requires a < b
    ensures Decimal(a) != Decimal(b)
  {
    if Decimal(a) == Decimal(b) {
      DecimalInjective(a, b);
    }
  }

  /** Ids strictly increase along the result and may skip (a blank row consumes a number),
      so no two leads of one fetch share an id. */
  lemma NormalizedIdsDistinct(rows: seq<Row>, today: string)
    ensures forall j, k :: 0 <= j < k < |NormalizeRows(rows, today)| ==>
      NormalizeRows(rows, today)[j].id != NormalizeRows(rows, today)[k].id
  {
    forall j, k | 0 <= j < k < |NormalizeRows(rows, today)|
      ensures NormalizeRows(rows, today)[j].id != NormalizeRows(rows, today)[k].id
    {
      NormalizedIdsDiffer(rows, today, j, k);
    }
  }

  /** A grid of blank rows normalises to no leads. */
  lemma BlankRowsNormalizeToNothing(rows: seq<Row>, today: string)
    requires forall i :: 0 <= i < |rows| ==> BlankRow(rows[i])
    ensures NormalizeRows(rows, today) == []
  {
    MapKeptAllDropped(rows, BlankRow, (position, row) => RowToLead(position, row, today));
  }

  /** `fetchLeadsFromGoogleSheets` after its sheet-tab search. `configured` says whether the
      API key and spreadsheet id are set; `values` is the grid of the first tab that answered
      with rows, or None when no tab did. It fails when unconfigured or when no rows came
      back; otherwise the first row is skipped as the header and the rest normalised. */
  function FetchLeads(configured: bool, values: Option<seq<Row>>, today: string): (r: Result<seq<Lead>, string>)
    ensures !configured ==> r == Failure("Missing API key or Spreadsheet ID")
    ensures configured && (values.None? || |values.value| == 0) ==> r == Failure("No data found in any sheet tab")
    ensures r.Success? ==> |r.value| < |values.value|
    ensures configured && values.Some? && |values.value| > 0 ==> r == Success(NormalizeRows(values.value[1..], today))
  {
    if !configured then Failure("Missing API key or Spreadsheet ID")
    else if values.None? || |values.value| == 0 then Failure("No data found in any sheet tab")
    else Success(NormalizeRows(values.value[1..], today))
  }

  /** The header row never yields a lead: whatever it holds, the result is the same. */
  lemma HeaderIgnored(header1: Row, header2: Row, body: seq<Row>, today: string)
    ensures FetchLeads(true, Some([header1] + body), today) == FetchLeads(true, Some([header2] + body), today)
  {
    assert ([header1] + body)[1..] == body == ([header2] + body)[1..];
  }

  /** `updateLeadStatus`: a placeholder that reports success for every lead and status. */
  function RemoteUpdateStatus(leadId: string, newStatus: string): (ok: bool)
    ensures ok
  {
    true
  }
}

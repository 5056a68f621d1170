/** The two lead tables of the dashboard: the search and status filters, the status badge,
    the website-to-location guess and the per-row status menu of the modern table, and the
    filter and badge of the older table. */
module LeadTables {
  import opened Wrappers
  import opened Text
  import opened Keywords
  import opened LeadTypes

  /** `leads.filter(keep)` */
  function Filter(leads: seq<Lead>, keep: Lead -> bool): (r: seq<Lead>)
    ensures |r| <= |leads|
    ensures forall i :: 0 <= i < |r| ==> keep(r[i])
  {
    if leads == [] then []
    else Filter(leads[..|leads| - 1], keep) + (if keep(leads[|leads| - 1]) then [leads[|leads| - 1]] else [])
  }

  /** A lead is in the result exactly when it is in the input and is kept. */
  lemma {:induction false} FilterMembership(leads: seq<Lead>, keep: Lead -> bool, l: Lead)
    ensures l in Filter(leads, keep) <==> l in leads && keep(l)
  {
    if leads != [] {
      var front := leads[..|leads| - 1];
      FilterMembership(front, keep, l);
      assert leads == front + [leads[|leads| - 1]];
    }
  }

  /** Filtering keeps order: the result for a concatenation is the concatenation of results. */
  lemma {:induction false} FilterAppend(a: seq<Lead>, b: seq<Lead>, keep: Lead -> bool)
    ensures Filter(a + b, keep) == Filter(a, keep) + Filter(b, keep)
    decreases |b|
  {
    if b == [] {
      assert a + b == a;
    } else {
      var bf := b[..|b| - 1];
      assert (a + b)[..|a + b| - 1] == a + bf;
      FilterAppend(a, bf, keep);
    }
  }

  /** Two predicates that agree on every lead filter alike. */
  lemma {:induction false} FilterAgree(leads: seq<Lead>, p: Lead -> bool, q: Lead -> bool)
    requires forall l :: p(l) == q(l)
    ensures Filter(leads, p) == Filter(leads, q)
  {
    if leads != [] {
      FilterAgree(leads[..|leads| - 1], p, q);
    }
  }

  /** When every lead is kept the input comes back unchanged. */
  lemma {:induction false} FilterKeepsAll(leads: seq<Lead>, keep: Lead -> bool)
    requires forall i :: 0 <= i < |leads| ==> keep(leads[i])
    ensures Filter(leads, keep) == leads
  {
    if leads != [] {
      FilterKeepsAll(leads[..|leads| - 1], keep);
    }
  }

  /** Two disjoint predicates whose union is a third split its result between them. */
  lemma {:induction false} FilterSplit(leads: seq<Lead>, whole: Lead -> bool, a: Lead -> bool, b: Lead -> bool)
    requires forall l :: whole(l) <==> a(l) || b(l)
    requires forall l :: !(a(l) && b(l))
    ensures |Filter(leads, a)| + |Filter(leads, b)| == |Filter(leads, whole)|
  {
    if leads != [] {
      FilterSplit(leads[..|leads| - 1], whole, a, b);
    }
  }

  /** The case-insensitive search over first name, last name, company and email. */
  predicate SearchMatches(l: Lead, term: string) {
    var t := Lower(term);
    Contains(Lower(l.firstName), t) || Contains(Lower(l.lastName), t)
    || Contains(Lower(l.companyName), t) || Contains(Lower(l.email), t)
  }

  /** The status filter values of the modern table. */
  datatype ModernFilter = ShowAll | ShowSent | ShowPending | ShowFollowUp | ShowContacted | ShowReplied | ShowBooked | ShowClosed

  predicate ModernStatusMatches(l: Lead, f: ModernFilter) {
    match f
    case ShowAll => true
    case ShowSent => l.sent
    case ShowPending => !l.sent
    case ShowFollowUp => l.followUp
    case ShowContacted => l.status == Some(Contacted)
    case ShowReplied => l.status == Some(Replied)
    case ShowBooked => l.status == Some(BookedCall)
    case ShowClosed => l.status == Some(Closed)
  }

  predicate ModernMatches(l: Lead, term: string, f: ModernFilter) {
    (term == "" || SearchMatches(l, term)) && ModernStatusMatches(l, f)
  }

  /** The `filteredLeads` of the modern table. */
  function ModernFiltered(leads: seq<Lead>, term: string, f: ModernFilter): (r: seq<Lead>)
    ensures |r| <= |leads|
  {
    Filter(leads, l => ModernMatches(l, term, f))
  }

  /** The modern filter keeps exactly the leads that match, in their order. */
  lemma ModernFilterMembership(leads: seq<Lead>, term: string, f: ModernFilter, l: Lead)
    ensures l in ModernFiltered(leads, term, f) <==> l in leads && ModernMatches(l, term, f)
  {
    FilterMembership(leads, l => ModernMatches(l, term, f), l);
  }

  /** With no search term and "all", every lead is shown. */
  lemma ModernFilterShowsAll(leads: seq<Lead>)
    ensures ModernFiltered(leads, "", ShowAll) == leads
  {
    FilterKeepsAll(leads, l => ModernMatches(l, "", ShowAll));
  }

  /** "sent" and "pending" split the leads that match the search between them. */
  lemma ModernFilterSentPendingSplit(leads: seq<Lead>, term: string)
    ensures |ModernFiltered(leads, term, ShowSent)| + |ModernFiltered(leads, term, ShowPending)|
         == |ModernFiltered(leads, term, ShowAll)|
  {
    FilterSplit(leads, l => ModernMatches(l, term, ShowAll), l => ModernMatches(l, term, ShowSent),
      l => ModernMatches(l, term, ShowPending));
  }

  /** The title is never searched. */
  lemma TitleNotSearched(l: Lead, term: string, f: ModernFilter, title: string)
    ensures ModernMatches(l.(title := title), term, f) == ModernMatches(l, term, f)
  {
  }

  /** The status filter values of the older table. */
  datatype LegacyFilter = LegacyAll | LegacySent | LegacyPending | LegacyFollowUp

  predicate LegacyMatches(l: Lead, term: string, f: LegacyFilter) {
    SearchMatches(l, term)
    && match f
       case LegacyAll => true
       case LegacySent => l.sent
       case LegacyPending => !l.sent
       case LegacyFollowUp => l.followUp
  }

  /** The `filteredLeads` of the older table, which has no special case for an empty term. */
  function LegacyFiltered(leads: seq<Lead>, term: string, f: LegacyFilter): (r: seq<Lead>)
    ensures |r| <= |leads|
  {
    Filter(leads, l => LegacyMatches(l, term, f))
  }

  function AsModern(f: LegacyFilter): ModernFilter {
    match f
    case LegacyAll => ShowAll
    case LegacySent => ShowSent
    case LegacyPending => ShowPending
    case LegacyFollowUp => ShowFollowUp
  }

  /** The older table shows what the modern one shows for the four filters they share: an
      empty term is contained in every text, so the missing special case changes nothing. */
  lemma TablesAgree(leads: seq<Lead>, term: string, f: LegacyFilter)
    ensures LegacyFiltered(leads, term, f) == ModernFiltered(leads, term, AsModern(f))
  {
    forall l ensures LegacyMatches(l, term, f) == ModernMatches(l, term, AsModern(f)) {
      if term == "" {
        assert Lower(term) == "";
        ContainsEmpty(Lower(l.firstName));
      }
    }
    FilterAgree(leads, l => LegacyMatches(l, term, f), l => ModernMatches(l, term, AsModern(f)));
  }

  /** "No leads found matching your criteria" shows exactly when nothing passed the filter. */
  function EmptyMessage(filtered: seq<Lead>): (m: Option<string>)
    ensures m.Some? <==> |filtered| == 0
    ensures m.Some? ==> m.value == "No leads found matching your criteria"
  {
    if |filtered| == 0 then Some("No leads found matching your criteria") else None
  }

  /** The badge of the modern table: the status label when a status is set, otherwise
      "Recording" for a needed follow-up, "Online" for a sent email, and "Away". */
  function ModernBadge(l: Lead): (b: string)
    ensures StatusOfLabel(b) == l.status
    ensures l.status.None? ==> b in ["Recording", "Online", "Away"]
  {
    if l.status.Some? then Label(l.status.value)
    else if l.followUp then "Recording"
    else if l.sent then "Online"
    else "Away"
  }

  /** The badge of the older table; a follow-up outranks a send. */
  function LegacyBadge(l: Lead): (b: string)
    ensures b == "Follow-up" <==> l.followUp
    ensures b == "Sent" <==> l.sent && !l.followUp
    ensures b == "Pending" <==> !l.sent && !l.followUp
  {
    if l.followUp then "Follow-up" else if l.sent then "Sent" else "Pending"
  }

  /** Without a status both badges pick their label by the same precedence. */
  lemma BadgesCorrespond(l: Lead)
    requires l.status.None?
    ensures ModernBadge(l) == (if LegacyBadge(l) == "Follow-up" then "Recording"
                               else if LegacyBadge(l) == "Sent" then "Online" else "Away")
  {
  }

  const LocationRules: seq<Rule> := [
    Rule("San Francisco", ["techcorp"]),
    Rule("New York", ["growthco"]),
    Rule("Austin", ["startup"]),
    Rule("Seattle", ["innovate"]),
    Rule("Los Angeles", ["digital"])
  ]

  /** `getLocationFromWebsite`: "Unknown" without a website, else the first substring of the
      list that occurs (case-sensitive), else "Boston". */
  function Location(website: string): (r: string)
    ensures website == "" ==> r == "Unknown"
    ensures r in ["Unknown", "San Francisco", "New York", "Austin", "Seattle", "Los Angeles", "Boston"]
  {
    if website == "" then "Unknown" else Classify(LocationRules, "Boston", website)
  }

  /** First match wins: a website mentioning both "techcorp" and "digital" is in San Francisco,
      and one mentioning none of the substrings is in Boston. */
  lemma LocationFirstMatch(website: string)
    ensures website != "" && Contains(website, "techcorp") ==> Location(website) == "San Francisco"
    ensures website != "" && (forall i :: 0 <= i < |LocationRules| ==> !Contains(website, LocationRules[i].keywords[0]))
      ==> Location(website) == "Boston"
  {
    if website != "" && Contains(website, "techcorp") {
      assert LocationRules[0].keywords[0] == "techcorp";
      assert Fires(LocationRules[0], website);
      ClassifyFirstMatch(LocationRules, "Boston", website, 0);
    }
    if forall i :: 0 <= i < |LocationRules| ==> !Contains(website, LocationRules[i].keywords[0]) {
      forall i | 0 <= i < |LocationRules| ensures !Fires(LocationRules[i], website) {
        assert |LocationRules[i].keywords| == 1;
      }
      ClassifyFirstMatch(LocationRules, "Boston", website, 0);
    }
  }

  /** The row menu button: clicking the open row closes the menu, any other row opens it. */
  function MenuClick(open: Option<string>, id: string): (r: Option<string>)
    ensures r == Some(id) <==> open != Some(id)
    ensures r.Some? ==> r.value == id
  {
    if open == Some(id) then None else Some(id)
  }

  /** Two clicks on the same row leave the menu open on that row only if it was open before. */
  lemma MenuClickTwice(open: Option<string>, id: string)
    ensures MenuClick(MenuClick(open, id), id) == (if open == Some(id) then Some(id) else None)
  {
  }

  /** The statuses the row menu offers, in order. */
  const MenuStatuses: seq<Status> := AllStatuses

  /** The menu lists the five labels, each once, in the fixed order. */
  lemma MenuListsEveryStatus(s: Status)
    ensures |MenuStatuses| == 5 && s in MenuStatuses
    ensures forall i :: 0 <= i < 5 ==> Label(MenuStatuses[i]) == StatusLabels[i]
  {
  }
}

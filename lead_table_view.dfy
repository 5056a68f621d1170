/** The lead table of the older dashboard: a local copy of the leads it is given, the status
    change that updates that copy once the handler it was given reports success, what the
    table shows (skeleton, error panel, empty panel or rows) and the host shown for a
    website. */
module LeadTableView {
  import opened Wrappers
  import opened Text
  import opened SheetsService
  import opened SheetsHook

  /** What the component renders. */
  datatype View = Skeleton | ErrorPanel(text: string) | EmptyPanel(text: string) | Rows(leads: seq<SheetLead>)

  const EmptyText: string := "No leads data available"

  /** The render precedence: loading, then a (non-empty) error, then an empty list, then
      the table of the local leads. */
  function RenderState(loading: bool, error: string, leads: seq<SheetLead>): (v: View)
    ensures v.Skeleton? <==> loading
    ensures v.ErrorPanel? <==> !loading && error != ""
    ensures v.EmptyPanel? <==> !loading && error == "" && |leads| == 0
    ensures v.Rows? <==> !loading && error == "" && |leads| > 0
    ensures v.ErrorPanel? ==> v.text == "Error loading leads: " + error
    ensures v.EmptyPanel? ==> v.text == EmptyText
    ensures v.Rows? ==> v.leads == leads
  {
    if loading then Skeleton
    else if error != "" then ErrorPanel("Error loading leads: " + error)
    else if |leads| == 0 then EmptyPanel(EmptyText)
    else Rows(leads)
  }

  /** The host shown under the company: the first "https://" removed, then the first
      "http://", then everything from the first '/' on dropped. */
  function DisplayHost(website: string): (h: string)
    ensures '/' !in h
    ensures |h| <= |website|
  {
    TakeUntil(ReplaceFirst(ReplaceFirst(website, "https://", ""), "http://", ""), '/')
  }

  /** A text that starts with `h` and then either ends or goes on with '/' is cut back to `h`. */
  lemma TakeUntilHost(r: string, h: string)
    requires '/' !in h
    requires |h| <= |r| && r[..|h|] == h
    requires |r| == |h| || r[|h|] == '/'
    ensures TakeUntil(r, '/') == h
  {
    var t := TakeUntil(r, '/');
    assert forall k :: 0 <= k < |h| ==> r[k] == h[k];
    assert forall k :: 0 <= k < |t| ==> t[k] == r[k];
    assert |t| == |h|;
    assert t == r[..|h|];
  }

  /** A scheme found in a host (no ':' and no '/') followed by nothing or a path starts
      after the host: the ':' of the scheme cannot fall in the host, and a scheme reaching
      the path would have a '/' where it has a letter or the ':'. */
  lemma {:induction false} SchemeAfterHost(h: string, rest: string, pat: string, i: nat)
    requires pat == "https://" || pat == "http://"
    requires ':' !in h && '/' !in h
    requires rest == [] || rest[0] == '/'
    requires i + |pat| <= |h + rest| && (h + rest)[i..i + |pat|] == pat
    ensures i > |h|
  {
    var s := h + rest;
    var c := |pat| - 3;
    assert forall k :: 0 <= k < |h| ==> s[k] == h[k];
    assert forall j :: i <= j < i + |pat| ==> s[j] == pat[j - i];
    assert pat[c] == ':' && s[i + c] == ':';
    assert |h| <= i + c < |s|;
    assert s[|h|] == '/';
    assert forall k :: 0 <= k <= c ==> pat[k] != '/';
  }

  /** Removing the first "https://" or "http://" from a host (no ':' and no '/') followed by
      nothing or a path leaves the host in front of nothing or a path. */
  lemma SchemeRemovalKeepsHost(h: string, rest: string, pat: string)
    requires pat == "https://" || pat == "http://"
    requires ':' !in h && '/' !in h
    requires rest == [] || rest[0] == '/'
    ensures var r := ReplaceFirst(h + rest, pat, "");
      |h| <= |r| && r[..|h|] == h && (|r| == |h| || r[|h|] == '/')
  {
    var s := h + rest;
    var found := IndexOf(s, pat);
    if found.Some? {
      var i := found.value;
      assert pat <= s[i..];
      assert s[i..i + |pat|] == pat;
      SchemeAfterHost(h, rest, pat, i);
      assert ReplaceFirst(s, pat, "") == s[..i] + s[i + |pat|..];
      CutAfterHost(s, |h|, i, |pat|);
    }
  }

  /** Cutting a piece out of a text after position `n` keeps the first `n + 1` characters. */
  lemma CutAfterHost(s: string, n: nat, i: nat, len: nat)
    requires n < i && i + len <= |s|
    ensures var r := s[..i] + s[i + len..];
      n < |r| && r[..n] == s[..n] && r[n] == s[n]
  {
  }

  /** The host of a website written as "https://", a host and nothing or a path is that host. */
  lemma DisplayHostWithScheme(h: string, rest: string)
    requires ':' !in h && '/' !in h
    requires rest == [] || rest[0] == '/'
    ensures DisplayHost("https://" + h + rest) == h
  {
    assert "https://" + h + rest == "https://" + (h + rest);
    ReplaceFirstPrefix("https://", h + rest);
    SchemeRemovalKeepsHost(h, rest, "http://");
    TakeUntilHost(ReplaceFirst(h + rest, "http://", ""), h);
  }

  /** The host of a website written as a host and nothing or a path is that host. */
  lemma DisplayHostWithoutScheme(h: string, rest: string)
    requires ':' !in h && '/' !in h
    requires rest == [] || rest[0] == '/'
    ensures DisplayHost(h + rest) == h
  {
    SchemeRemovalKeepsHost(h, rest, "https://");
    var r1 := ReplaceFirst(h + rest, "https://", "");
    var rest1 := r1[|h|..];
    assert r1 == h + rest1;
    SchemeRemovalKeepsHost(h, rest1, "http://");
    TakeUntilHost(ReplaceFirst(h + rest1, "http://", ""), h);
  }

  /** "https://" cannot occur in an "http://" website before the end of its host: at the
      start its 's' would meet the ':', and later its ':' would have to fall in the host or
      on the '/' after it, with a '/' of the website inside its "https" part. */
  lemma {:induction false} HttpsAfterHost(h: string, rest: string, i: nat)
    requires ':' !in h && '/' !in h
    requires rest == [] || rest[0] == '/'
    requires i + 8 <= |"http://" + h + rest| && ("http://" + h + rest)[i..i + 8] == "https://"
    ensures i > 7 + |h|
  {
    var s := "http://" + h + rest;
    var pat := "https://";
    assert forall k :: 0 <= k < 7 ==> s[k] == "http://"[k];
    assert forall k :: 0 <= k < |h| ==> s[7 + k] == h[k];
    assert forall j :: i <= j < i + 8 ==> s[j] == pat[j - i];
    assert s[4] == ':' && pat[4] == 's' && s[i + 5] == ':';
    assert 7 + |h| < |s| && s[7 + |h|] == '/';
    assert forall k :: 0 <= k <= 5 ==> pat[k] != '/';
  }

  /** The host of a website written as "http://", a host and nothing or a path is that host:
      the first replace finds no "https://" in front of the path, and the second removes the
      scheme. */
  lemma DisplayHostWithHttpScheme(h: string, rest: string)
    requires ':' !in h && '/' !in h
    requires rest == [] || rest[0] == '/'
    ensures DisplayHost("http://" + h + rest) == h
  {
    var s := "http://" + h + rest;
    var found := IndexOf(s, "https://");
    var rest1 := rest;
    if found.Some? {
      var i := found.value;
      assert "https://" <= s[i..];
      assert s[i..i + 8] == "https://";
      HttpsAfterHost(h, rest, i);
      rest1 := rest[..i - 7 - |h|] + rest[i + 1 - |h|..];
      assert ReplaceFirst(s, "https://", "") == s[..i] + s[i + 8..];
      assert s[..i] + s[i + 8..] == "http://" + h + rest1;
    }
    assert ReplaceFirst(s, "https://", "") == "http://" + (h + rest1);
    ReplaceFirstPrefix("http://", h + rest1);
    TakeUntilHost(h + rest1, h);
  }

  /** The component's local copy of its leads. */
  class LeadTableState {
    var leads: seq<SheetLead>

    constructor ()
      ensures leads == []
    {
      leads := [];
    }

    /** The effect on the `data` prop: a present list replaces the copy, a null one does not. */
    method SyncFromProps(data: Option<seq<SheetLead>>)
      modifies this
      ensures data.Some? ==> leads == data.value
      ensures data.None? ==> leads == old(leads)
    {
      if data.Some? {
        leads := data.value;
      }
    }

    /** `handleStatusChange`: `handler` is `None` without an `onStatusUpdate` prop, otherwise
        what that handler resolved to. Only a successful handler changes the copy, and then
        only the status of the leads with that id. */
    method HandleStatusChange(leadId: nat, newStatus: string, handler: Option<UpdateResult>)
      modifies this
      ensures handler.Some? && handler.value.success ==> leads == SetStatus(old(leads), leadId, newStatus)
      ensures !(handler.Some? && handler.value.success) ==> leads == old(leads)
    {
      if handler.Some? {
        var result := handler.value;
        if result.success {
          leads := SetStatus(leads, leadId, newStatus);
        }
      }
    }
  }

  /** The dashboard wires the hook's `updateLeadStatus` in as the table's handler and the
      hook's leads in as its data: a change made from the table leaves the table's copy and
      the hook's leads equal, whether the remote update succeeds or throws. */
  method StatusChangeThroughHook<S, I>(hook: SheetsData<S, I>, table: LeadTableState, leadId: nat,
                                       newStatus: string, remote: Option<string>)
    requires table.leads == hook.leads
    modifies hook, table
    ensures table.leads == hook.leads
    ensures remote.None? ==> hook.leads == SetStatus(old(hook.leads), leadId, newStatus)
    ensures remote.Some? ==> hook.leads == old(hook.leads)
  {
    var result := hook.UpdateLeadStatus(leadId, newStatus, remote);
    table.HandleStatusChange(leadId, newStatus, Some(result));
    table.SyncFromProps(Some(hook.leads));
  }
}

/** The "High Priority Sites" widget: the first five flagged sites, each with
    the reason it needs attention, an empty note and a "View all" link. */
module HighPrioritySites {
  import opened PortfolioTypes

  datatype ReasonIcon = ShieldAlert | FileWarning | AlertTriangle | UsersIcon

  datatype Reason = Reason(icon: ReasonIcon, text: string, color: string)

  /** `getPriorityReason` as written: its third test, `lastIncident <= 3`, also
      holds for the "no incidents" sentinel -1. */
  function PriorityReasonAsWritten(site: Site): (r: Reason)
    ensures site.lastIncident == 0 ==> r.text == "Active incident"
    ensures site.lastIncident != 0 && site.complianceScore < 50 ==> r.text == "Critical compliance"
    ensures r.text == "Recent incident" <==> site.lastIncident != 0 && site.complianceScore >= 50 && site.lastIncident <= 3
  {
    if site.lastIncident == 0 then Reason(ShieldAlert, "Active incident", "text-portfolio-risk")
    else if site.complianceScore < 50 then Reason(FileWarning, "Critical compliance", "text-portfolio-risk")
    else if site.lastIncident <= 3 then Reason(AlertTriangle, "Recent incident", "text-orange-500")
    else if site.complianceScore < 70 then Reason(FileWarning, "Low compliance", "text-orange-500")
    else if site.guardsAssigned < 3 then Reason(UsersIcon, "Understaffed", "text-amber-500")
    else Reason(AlertTriangle, "Needs attention", "text-amber-500")
  }

  /** A flagged site that never had an incident and complies well is labelled
      "Recent incident" by the code as written. */
  lemma NoIncidentSiteCalledRecent()
    ensures var site := Site("9", "Quiet Site", Commercial, Enterprise, 50000, 80, 2, NoIncidents, true,
                             "Lisa Pietersen", Optional.None, Optional.None);
      PriorityReasonAsWritten(site).text == "Recent incident"
  {
  }

  /** The corrected cascade: "Recent incident" only for an incident 1 to 3
      days ago.  The widget uses this one. */
  function PriorityReason(site: Site): (r: Reason)
    ensures site.lastIncident == 0 ==> r == Reason(ShieldAlert, "Active incident", "text-portfolio-risk")
    ensures site.lastIncident != 0 && site.complianceScore < 50 ==>
      r == Reason(FileWarning, "Critical compliance", "text-portfolio-risk")
    ensures r.text == "Recent incident" <==> site.complianceScore >= 50 && 1 <= site.lastIncident <= 3
    ensures site.lastIncident == NoIncidents ==> r.text != "Active incident" && r.text != "Recent incident"
    ensures r.text == "Low compliance" <==>
      site.lastIncident != 0 && 50 <= site.complianceScore < 70 && !(1 <= site.lastIncident <= 3)
    ensures r.text == "Understaffed" <==>
      site.lastIncident != 0 && site.complianceScore >= 70 && !(1 <= site.lastIncident <= 3) && site.guardsAssigned < 3
    ensures r.text == "Needs attention" <==>
      site.lastIncident != 0 && site.complianceScore >= 70 && !(1 <= site.lastIncident <= 3) && site.guardsAssigned >= 3
  {
    if site.lastIncident == 0 then Reason(ShieldAlert, "Active incident", "text-portfolio-risk")
    else if site.complianceScore < 50 then Reason(FileWarning, "Critical compliance", "text-portfolio-risk")
    else if 0 <= site.lastIncident <= 3 then Reason(AlertTriangle, "Recent incident", "text-orange-500")
    else if site.complianceScore < 70 then Reason(FileWarning, "Low compliance", "text-orange-500")
    else if site.guardsAssigned < 3 then Reason(UsersIcon, "Understaffed", "text-amber-500")
    else Reason(AlertTriangle, "Needs attention", "text-amber-500")
  }

  /** The two cascades agree on every real day count; they differ only on
      negative values such as the sentinel. */
  lemma ReasonsAgreeOnDayCounts(site: Site)
    requires site.lastIncident >= 0
    ensures PriorityReason(site) == PriorityReasonAsWritten(site)
  {
  }

  /** `sites.filter(s => s.isHighPriority)`. */
  function Flagged(sites: seq<Site>): (r: seq<Site>)
    ensures |r| == CountHighPriority(sites)
    ensures forall s :: s in r ==> s in sites && s.isHighPriority
    ensures forall s :: s in sites && s.isHighPriority ==> s in r
    ensures SubsequenceOf(r, sites)
  {
    if sites == [] then []
    else
      var rest := Flagged(sites[1..]);
      if sites[0].isHighPriority then
        var r := [sites[0]] + rest;
        assert r[1..] == rest;
        r
      else rest
  }

  lemma {:induction false} SubsequencePrefix<T>(r: seq<T>, s: seq<T>, n: nat)
    requires SubsequenceOf(r, s) && n <= |r|
    ensures SubsequenceOf(r[..n], s)
    decreases |s|
  {
    if n == 0 {
    } else if r[0] == s[0] && SubsequenceOf(r[1..], s[1..]) {
      SubsequencePrefix(r[1..], s[1..], n - 1);
      assert r[..n][1..] == r[1..][..n - 1];
    } else {
      SubsequencePrefix(r, s[1..], n);
    }
  }

  /** `prioritySites`: the first five flagged sites, in input order. */
  function PrioritySites(sites: seq<Site>): (r: seq<Site>)
    ensures |r| == (if CountHighPriority(sites) < 5 then CountHighPriority(sites) else 5)
    ensures r == Flagged(sites)[..|r|]
    ensures forall s :: s in r ==> s.isHighPriority
    ensures SubsequenceOf(r, sites)
  {
    var f := Flagged(sites);
    var r := if |f| <= 5 then f else f[..5];
    SubsequencePrefix(f, sites, |r|);
    assert r == f[..|r|];
    assert forall s :: s in r ==> s in f;
    r
  }

  /** What the widget shows: the count badge, one row per site with its
      reason, the "All sites operating normally" note, and "View all". */
  datatype Widget = Widget(count: nat, rows: seq<(Site, Reason)>, emptyNote: bool, viewAll: bool)

  function View(sites: seq<Site>, hasViewAll: bool): (w: Widget)
    ensures w.count == |w.rows| == |PrioritySites(sites)| <= 5
    ensures forall k :: 0 <= k < |w.rows| ==> w.rows[k] == (PrioritySites(sites)[k], PriorityReason(PrioritySites(sites)[k]))
    ensures w.emptyNote <==> CountHighPriority(sites) == 0
    ensures w.viewAll <==> CountHighPriority(sites) > 0 && hasViewAll
  {
    var p := PrioritySites(sites);
    Widget(|p|, seq(|p|, k requires 0 <= k < |p| => (p[k], PriorityReason(p[k]))), |p| == 0, |p| > 0 && hasViewAll)
  }
}

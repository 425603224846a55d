/** The operations dashboard's shell: the site sidebar's search and filter,
    the page title for the current path, the user's initials, the summary
    counts and the sign-in gate. */
module PortfolioLayout {
  import opened Optional
  import Text
  import opened PortfolioTypes
  import AuthContext

  function MockSite(id: string, name: string, sector: Sector, tier: Tier, value: int, compliance: int,
                    guards: int, lastIncident: int, high: bool, manager: string): Site
  {
    Site(id, name, sector, tier, value, compliance, guards, lastIncident, high, manager, None, None)
  }

  /** The eight client sites the sidebar lists. */
  const MockSites: seq<Site> := [
    MockSite("1", "Metro Bank HQ", Finance, Enterprise, 185000, 96, 12, -1, false, "James Moyo"),
    MockSite("2", "Sandton City Mall", Retail, Enterprise, 320000, 58, 24, 2, true, "Sarah Ndlovu"),
    MockSite("3", "Netcare Sunninghill", Healthcare, CommercialTier, 95000, 89, 8, 14, false, "Michael van der Berg"),
    MockSite("4", "Discovery Head Office", Commercial, Enterprise, 145000, 42, 6, 5, true, "Thabo Khumalo"),
    MockSite("5", "Dainfern Estate", Residential, ResidentialTier, 78000, 94, 6, -1, false, "Lisa Pietersen"),
    MockSite("6", "Vodacom World", Commercial, Enterprise, 210000, 91, 14, 21, false, "James Moyo"),
    MockSite("7", "Clearwater Mall", Retail, CommercialTier, 125000, 65, 2, 1, true, "Sarah Ndlovu"),
    MockSite("8", "Bryanston Industrial", Industrial, CommercialTier, 55000, 88, 4, 45, false, "Thabo Khumalo")
  ]

  datatype Filter = All | HighPriority | EnterpriseOnly

  /** The lowercased name contains the lowercased query. */
  predicate MatchesSearch(site: Site, query: string)
  {
    Text.Contains(Text.ToLower(site.name), Text.ToLower(query))
  }

  predicate MatchesFilter(site: Site, filter: Filter)
  {
    filter == All || (filter == HighPriority && site.isHighPriority) || (filter == EnterpriseOnly && site.tier == Enterprise)
  }

  predicate Shown(site: Site, query: string, filter: Filter)
  {
    MatchesSearch(site, query) && MatchesFilter(site, filter)
  }

  /** `filteredSites`: exactly the sites that match both the search and the
      filter, in their original order. */
  function FilteredSites(sites: seq<Site>, query: string, filter: Filter): (r: seq<Site>)
    ensures forall s :: s in r ==> s in sites && Shown(s, query, filter)
    ensures forall s :: s in sites && Shown(s, query, filter) ==> s in r
    ensures SubsequenceOf(r, sites)
    ensures forall s :: multiset(r)[s] == if Shown(s, query, filter) then multiset(sites)[s] else 0
    ensures filter == HighPriority ==> forall s :: s in r ==> s.isHighPriority
    ensures filter == EnterpriseOnly ==> forall s :: s in r ==> s.tier == Enterprise
  {
    if sites == [] then []
    else
      var rest := FilteredSites(sites[1..], query, filter);
      assert sites == [sites[0]] + sites[1..];
      if Shown(sites[0], query, filter) then
        var r := [sites[0]] + rest;
        assert r[1..] == rest;
        r
      else rest
  }

  /** The search ignores the case of the query: typing it in capitals finds
      the same sites. */
  lemma SearchIgnoresCase(site: Site, query: string)
    ensures MatchesSearch(site, query) <==> MatchesSearch(site, Text.ToUpper(query))
  {
    Text.LowerOfUpper(query);
  }

  /** A search matches a site exactly when the lowercased query occurs
      somewhere in the lowercased name. */
  lemma SearchFindsOccurrence(site: Site, query: string)
    ensures MatchesSearch(site, query) <==>
      exists i :: Text.OccursAt(Text.ToLower(site.name), Text.ToLower(query), i)
  {
    Text.ContainsIff(Text.ToLower(site.name), Text.ToLower(query));
  }

  /** The high-priority and enterprise filters only narrow the list: what they
      show is what "all" shows for the same search, less some sites. */
  lemma {:induction false} FilterNarrows(sites: seq<Site>, query: string, filter: Filter)
    ensures SubsequenceOf(FilteredSites(sites, query, filter), FilteredSites(sites, query, All))
  {
    if sites != [] {
      FilterNarrows(sites[1..], query, filter);
      var r := FilteredSites(sites, query, filter);
      var a := FilteredSites(sites, query, All);
      if Shown(sites[0], query, filter) {
        assert r[0] == a[0] && r[1..] == FilteredSites(sites[1..], query, filter);
        assert a[1..] == FilteredSites(sites[1..], query, All);
      } else if Shown(sites[0], query, All) {
        assert a[1..] == FilteredSites(sites[1..], query, All);
      }
    }
  }

  /** Filter "all" with an empty search keeps every site. */
  lemma {:induction false} EmptySearchKeepsAll(sites: seq<Site>)
    ensures FilteredSites(sites, "", All) == sites
  {
    if sites != [] {
      EmptySearchKeepsAll(sites[1..]);
      Text.ContainsEmpty(Text.ToLower(sites[0].name));
      assert Text.ToLower("") == "";
      assert sites == [sites[0]] + sites[1..];
    }
  }

  lemma MockSiteCounts()
    ensures |FilteredSites(MockSites, "", All)| == |MockSites| == 8
    ensures CountHighPriority(MockSites) == 3
  {
    EmptySearchKeepsAll(MockSites);
    MockHighPriority();
  }

  lemma MockHighPriority()
    ensures CountHighPriority(MockSites) == 3
  {
    var s := MockSites;
    assert CountHighPriority(s[7..]) == 0;
    assert CountHighPriority(s[6..]) == 1;
    assert CountHighPriority(s[5..]) == 1;
    assert CountHighPriority(s[4..]) == 1;
    assert CountHighPriority(s[3..]) == 2;
    assert CountHighPriority(s[2..]) == 2;
    assert CountHighPriority(s[1..]) == 3;
  }

  /** The sidebar: the cards, the "No sites found" note, and the two summary
      counts, which are taken over every site and not over the filtered list. */
  datatype Sidebar = Sidebar(cards: seq<Site>, noSitesFound: bool, totalSites: nat, needAttention: nat)

  function SidebarView(sites: seq<Site>, query: string, filter: Filter): (v: Sidebar)
    ensures v.noSitesFound <==> forall s :: s in sites ==> !Shown(s, query, filter)
    ensures v.cards == FilteredSites(sites, query, filter)
    ensures v.totalSites == |sites| && v.needAttention == CountHighPriority(sites)
    ensures v.needAttention <= v.totalSites
  {
    var cards := FilteredSites(sites, query, filter);
    assert cards != [] ==> cards[0] in cards;
    Sidebar(cards, |cards| == 0, |sites|, CountHighPriority(sites))
  }

  /** The path-to-title table behind `getPageTitle`. */
  const Titles: seq<(string, string)> := [
    ("/portfolio", "Operations Command Center"),
    ("/portfolio/live", "Live Operations"),
    ("/portfolio/incidents", "Incident Response"),
    ("/portfolio/fleet", "Fleet & CIT"),
    ("/portfolio/compliance", "Compliance Hub"),
    ("/portfolio/analytics", "Analytics & Reports"),
    ("/portfolio/settings", "Settings")
  ]

  /** Entry k is the first whose key is `key`. */
  predicate FirstAt(table: seq<(string, string)>, key: string, k: int)
  {
    0 <= k < |table| && table[k].0 == key && forall j :: 0 <= j < k ==> table[j].0 != key
  }

  /** A first match in the tail, behind a head with another key, is a first
      match of the whole table one place later. */
  lemma FirstAtShift(table: seq<(string, string)>, key: string, r: string)
    requires table != [] && table[0].0 != key
    requires exists k :: FirstAt(table[1..], key, k) && r == table[1..][k].1
    ensures exists k :: FirstAt(table, key, k) && r == table[k].1
  {
    var k :| FirstAt(table[1..], key, k) && r == table[1..][k].1;
    assert FirstAt(table, key, k + 1);
  }

  /** The first entry of `table` whose key is `key`, or `dflt` when there is none. */
  function Lookup(table: seq<(string, string)>, key: string, dflt: string): (r: string)
    ensures (forall k :: 0 <= k < |table| ==> table[k].0 != key) ==> r == dflt
    ensures (exists k :: 0 <= k < |table| && table[k].0 == key) ==>
      exists k :: FirstAt(table, key, k) && r == table[k].1
  {
    if table == [] then dflt
    else if table[0].0 == key then
      assert FirstAt(table, key, 0);
      table[0].1
    else
      var r := Lookup(table[1..], key, dflt);
      assert forall k :: 1 <= k < |table| ==> table[k] == table[1..][k - 1];
      if exists k :: 0 <= k < |table| && table[k].0 == key then
        FirstAtShift(table, key, r);
        r
      else r
  }

  /** `getPageTitle`: the title of the entry whose path is exactly the current
      one, or "Suburban Security" when none is. */
  function PageTitle(path: string): (t: string)
    ensures t == Lookup(Titles, path, "Suburban Security")
  {
    var t := Titles;
    assert t[1..][1..][1..][1..][1..][1..][1..] == [];
    if path == "/portfolio" then "Operations Command Center"
    else if path == "/portfolio/live" then "Live Operations"
    else if path == "/portfolio/incidents" then "Incident Response"
    else if path == "/portfolio/fleet" then "Fleet & CIT"
    else if path == "/portfolio/compliance" then "Compliance Hub"
    else if path == "/portfolio/analytics" then "Analytics & Reports"
    else if path == "/portfolio/settings" then "Settings"
    else "Suburban Security"
  }

  /** A trailing slash or a sub-path is not an exact match. */
  lemma PageTitleExact()
    ensures PageTitle("/portfolio/") == "Suburban Security"
    ensures PageTitle("/portfolio/live/x") == "Suburban Security"
  {
    assert forall k :: 0 <= k < |Titles| ==> |Titles[k].0| != |"/portfolio/"|;
    assert forall k :: 0 <= k < |Titles| ==> |Titles[k].0| != |"/portfolio/live/x"|;
  }

  /** The non-empty words, in order. */
  function NonEmptyWords(words: seq<string>): (r: seq<string>)
    ensures forall k :: 0 <= k < |r| ==> r[k] != ""
  {
    if words == [] then []
    else if words[0] == "" then NonEmptyWords(words[1..])
    else [words[0]] + NonEmptyWords(words[1..])
  }

  /** `words.map(n => n[0]).join("")`: an empty word contributes
      `undefined`, which `join` renders as nothing. */
  function FirstChars(words: seq<string>): (r: string)
    ensures |r| == |NonEmptyWords(words)|
    ensures forall k :: 0 <= k < |r| ==> r[k] == NonEmptyWords(words)[k][0]
  {
    if words == [] then []
    else if words[0] == "" then FirstChars(words[1..])
    else
      var r := [words[0][0]] + FirstChars(words[1..]);
      assert NonEmptyWords(words) == [words[0]] + NonEmptyWords(words[1..]);
      r
  }

  /** The avatar's initials: the uppercased first letters of the first two
      non-empty space-separated words. */
  function Initials(name: string): (r: string)
    ensures var words := NonEmptyWords(Text.Split(name, ' '));
      |r| == (if |words| < 2 then |words| else 2) &&
      forall k :: 0 <= k < |r| ==> r[k] == Text.UpperChar(words[k][0])
  {
    var up := Text.ToUpper(FirstChars(Text.Split(name, ' ')));
    if |up| < 2 then up else up[..2]
  }

  /** Two space-free words give their two capitalised first letters. */
  lemma InitialsOfTwoWords(a: string, b: string)
    requires a != "" && b != "" && ' ' !in a && ' ' !in b
    ensures Initials(a + " " + b) == [Text.UpperChar(a[0]), Text.UpperChar(b[0])]
  {
    Text.SplitPiece(a, b, ' ');
    Text.SplitPiece(b, "", ' ');
    assert a + " " + b == a + [' '] + b;
    assert [a, b][1..] == [b] && [b][1..] == [];
    assert NonEmptyWords([b]) == [b] + NonEmptyWords([]) == [b];
    assert NonEmptyWords([a, b]) == [a] + NonEmptyWords([b]);
    var r := Initials(a + " " + b);
    assert |r| == 2 && r[0] == Text.UpperChar(a[0]) && r[1] == Text.UpperChar(b[0]);
  }

  /** Words after the second add nothing. */
  lemma InitialsIgnoreLaterWords(a: string, b: string, more: string)
    requires a != "" && b != "" && ' ' !in a && ' ' !in b
    ensures Initials(a + " " + b + " " + more) == [Text.UpperChar(a[0]), Text.UpperChar(b[0])]
  {
    Text.SplitPiece(a, b + [' '] + more, ' ');
    Text.SplitPiece(b, more, ' ');
    assert a + " " + b + " " + more == a + [' '] + (b + [' '] + more);
    var rest := Text.Split(more, ' ');
    var ws := [a] + ([b] + rest);
    assert ws[1..] == [b] + rest && ([b] + rest)[1..] == rest;
    assert NonEmptyWords([b] + rest) == [b] + NonEmptyWords(rest);
    assert NonEmptyWords(ws) == [a] + NonEmptyWords([b] + rest);
    var r := Initials(a + " " + b + " " + more);
    assert |r| == 2 && r[0] == Text.UpperChar(a[0]) && r[1] == Text.UpperChar(b[0]);
  }

  /** `user.name.split(" ")...`: it throws when the stored user has no name. */
  function UserInitials(u: AuthContext.User): (r: Option<string>)
    ensures r.Some? <==> u.name.Some?
    ensures r.Some? ==> |r.value| <= 2
  {
    if u.name.Some? then Some(Initials(u.name.value)) else None
  }

  datatype LayoutView = Spinner | Nothing | Dashboard

  /** What the layout renders, and whether its effect sends the browser to
      /signin. */
  datatype Gate = Gate(view: LayoutView, redirectsToSignin: bool)

  /** The auth gate: loading shows the spinner and never redirects; loaded
      without a user renders nothing and redirects; otherwise the dashboard. */
  function AuthGate(isLoading: bool, user: Option<AuthContext.User>): (g: Gate)
    ensures g.view == Spinner <==> isLoading
    ensures g.redirectsToSignin <==> !isLoading && user.None?
    ensures g.view == Nothing <==> g.redirectsToSignin
    ensures g.view == Dashboard <==> !isLoading && user.Some?
  {
    Gate(if isLoading then Spinner else if user.None? then Nothing else Dashboard, !isLoading && user.None?)
  }
}

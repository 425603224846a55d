/** The operations dashboard's record types, and the order-preserving
    subsequence relation that its list filters produce. */
module PortfolioTypes {
  import opened Optional

  datatype Sector = Finance | Retail | Healthcare | Commercial | Residential | Industrial
  datatype Tier = Enterprise | CommercialTier | ResidentialTier

  datatype Contact = Contact(name: string, phone: string)

  /** A client site.  Numbers on the record are whole numbers in the data the
      dashboard carries; `lastIncident` counts days, with -1 for "no incidents". */
  datatype Site = Site(
    id: string, name: string, sector: Sector, tier: Tier, contractValue: int,
    complianceScore: int, guardsAssigned: int, lastIncident: int, isHighPriority: bool,
    siteManager: string, address: Option<string>, primaryContact: Option<Contact>)

  /** The sentinel `lastIncident` value for a site that never had an incident. */
  const NoIncidents := -1

  /** `r` is `s` with some elements removed, the rest in their original order. */
  predicate SubsequenceOf<T(==)>(r: seq<T>, s: seq<T>)
    decreases |s|
  {
    r == [] || (s != [] && ((r[0] == s[0] && SubsequenceOf(r[1..], s[1..])) || SubsequenceOf(r, s[1..])))
  }

  /** How many sites carry the high-priority flag. */
  function CountHighPriority(sites: seq<Site>): (n: nat)
    ensures n <= |sites|
  {
    if sites == [] then 0 else (if sites[0].isHighPriority then 1 else 0) + CountHighPriority(sites[1..])
  }
}

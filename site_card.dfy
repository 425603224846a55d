/** A site card in the sidebar: the monthly contract value, the last-incident
    line and the Priority badge. */
module SiteCard {
  import Text
  import CompactNumber
  import opened PortfolioTypes

  /** `formatCurrency`, in rand. */
  function FormatCurrency(value: int): (c: CompactNumber.Compact)
    ensures c.symbol == "R"
    ensures c.unit == CompactNumber.Millions <==> value >= 1000000
    ensures c.unit == CompactNumber.Thousands <==> 1000 <= value < 1000000
    ensures c.unit == CompactNumber.Units <==> value < 1000
    ensures c.amount * CompactNumber.Scale(c.unit) == value as real
  {
    CompactNumber.Format(value as real, "R")
  }

  /** The last-incident line: the sentinel, today, or the age in days, whose
      digits read back as that age. */
  function IncidentLabel(lastIncident: int): (s: string)
    ensures lastIncident == NoIncidents ==> s == "No incidents"
    ensures lastIncident == 0 ==> s == "Incident today"
    ensures lastIncident != NoIncidents && lastIncident != 0 ==>
      |s| > 20 && s[..15] == "Last incident: " && s[|s| - 5..] == "d ago"
    ensures lastIncident > 0 ==>
      (forall i :: 15 <= i < |s| - 5 ==> Text.IsDigit(s[i])) && Text.ParseNat(s[15..|s| - 5]) == lastIncident
    ensures lastIncident < -1 ==> s[15] == '-'
  {
    if lastIncident == NoIncidents then "No incidents"
    else if lastIncident == 0 then "Incident today"
    else
      var n := Text.IntToString(lastIncident);
      var s := "Last incident: " + n + "d ago";
      assert s[15..|s| - 5] == n;
      if lastIncident > 0 then
        Text.ParseNatToString(lastIncident);
        s
      else s
  }

  /** The parts of a card the model covers. */
  datatype Card = Card(name: string, sector: Sector, priorityBadge: bool, value: CompactNumber.Compact,
                       guards: string, incident: string, selected: bool)

  function CardView(site: Site, isSelected: bool): (c: Card)
    ensures c.priorityBadge <==> site.isHighPriority
    ensures c.value.amount * CompactNumber.Scale(c.value.unit) == site.contractValue as real
    ensures c.incident == IncidentLabel(site.lastIncident)
    ensures c.guards == Text.IntToString(site.guardsAssigned) + " guards"
    ensures c.selected == isSelected
  {
    Card(site.name, site.sector, site.isHighPriority, FormatCurrency(site.contractValue),
         Text.IntToString(site.guardsAssigned) + " guards", IncidentLabel(site.lastIncident), isSelected)
  }
}

/** The "Add New Site" form: its nine fields, the validator with its phone
    pattern, the change handler and the submit handler. */
module CreateSiteModal {
  import Text

  datatype SiteField =
    SiteName | Sector | Tier | ContractValue | SiteManager | Address | GuardsRequired
    | PrimaryContactName | PrimaryContactPhone

  datatype SiteFormData = SiteFormData(
    siteName: string, sector: string, tier: string, contractValue: string, siteManager: string,
    address: string, guardsRequired: string, primaryContactName: string, primaryContactPhone: string)

  const EmptyForm := SiteFormData("", "", "", "", "", "", "", "", "")

  function Get(d: SiteFormData, f: SiteField): string
  {
    match f
    case SiteName => d.siteName
    case Sector => d.sector
    case Tier => d.tier
    case ContractValue => d.contractValue
    case SiteManager => d.siteManager
    case Address => d.address
    case GuardsRequired => d.guardsRequired
    case PrimaryContactName => d.primaryContactName
    case PrimaryContactPhone => d.primaryContactPhone
  }

  /** `{ ...prev, [field]: value }`: only the named field changes. */
  function With(d: SiteFormData, f: SiteField, v: string): (r: SiteFormData)
    ensures Get(r, f) == v
    ensures forall g :: g != f ==> Get(r, g) == Get(d, g)
  {
    match f
    case SiteName => d.(siteName := v)
    case Sector => d.(sector := v)
    case Tier => d.(tier := v)
    case ContractValue => d.(contractValue := v)
    case SiteManager => d.(siteManager := v)
    case Address => d.(address := v)
    case GuardsRequired => d.(guardsRequired := v)
    case PrimaryContactName => d.(primaryContactName := v)
    case PrimaryContactPhone => d.(primaryContactPhone := v)
  }

  /** A character of the class `[\d\s\+\-()]`. */
  predicate PhoneChar(c: char)
  {
    Text.IsDigit(c) || Text.IsSpace(c) || c == '+' || c == '-' || c == '(' || c == ')'
  }

  /** `/^[\d\s\+\-()]+$/.test(s)`, written as the pattern reads: one character
      of the class followed by the rest of the match, to the end. */
  predicate PhonePattern(s: string)
  {
    |s| >= 1 && PhoneChar(s[0]) && (|s| == 1 || PhonePattern(s[1..]))
  }

  /** The pattern accepts exactly the non-empty strings of phone characters. */
  lemma {:induction false} PhonePatternIff(s: string)
    ensures PhonePattern(s) <==> |s| >= 1 && forall i :: 0 <= i < |s| ==> PhoneChar(s[i])
  {
    if |s| > 1 {
      PhonePatternIff(s[1..]);
      assert forall i :: 1 <= i < |s| ==> s[i] == s[1..][i - 1];
    }
  }

  /** Whether `validate` flags a field: the trimmed site name, contract value
      and address must be non-empty, sector and tier must be set, and a phone,
      when given, must match the pattern.  Other fields are never checked. */
  predicate Fails(d: SiteFormData, f: SiteField)
  {
    match f
    case SiteName => Text.Trim(d.siteName) == ""
    case Sector => d.sector == ""
    case Tier => d.tier == ""
    case ContractValue => Text.Trim(d.contractValue) == ""
    case Address => Text.Trim(d.address) == ""
    case PrimaryContactPhone => d.primaryContactPhone != "" && !PhonePattern(d.primaryContactPhone)
    case _ => false
  }

  function Message(f: SiteField): string
  {
    match f
    case SiteName => "Site name is required"
    case Sector => "Sector is required"
    case Tier => "Client tier is required"
    case ContractValue => "Contract value is required"
    case Address => "Address is required"
    case PrimaryContactPhone => "Invalid phone format"
    case _ => ""
  }

  /** The fields `validate` checks; the site manager, guards required and
      contact name are never checked. */
  const Checked: set<SiteField> := {SiteName, Sector, Tier, ContractValue, Address, PrimaryContactPhone}

  /** Every checked field has a message. */
  lemma CheckedMessages()
    ensures forall f :: f in Checked ==> Message(f) != ""
  {
  }

  /** validate's `newErrors`: one entry per failing field, holding that field's
      own message, which is never empty. */
  function SiteErrors(d: SiteFormData): (e: map<SiteField, string>)
    ensures forall f :: f in e <==> f in Checked && Fails(d, f)
    ensures forall f :: f in e ==> e[f] == Message(f) && e[f] != ""
  {
    CheckedMessages();
    map f | f in Checked && Fails(d, f) :: Message(f)
  }

  /** Field by field: each check and the message it records. */
  lemma SiteErrorsByField(d: SiteFormData)
    ensures var e := SiteErrors(d);
      (SiteName in e <==> Text.Trim(d.siteName) == "") &&
      (Sector in e <==> d.sector == "") &&
      (Tier in e <==> d.tier == "") &&
      (ContractValue in e <==> Text.Trim(d.contractValue) == "") &&
      (Address in e <==> Text.Trim(d.address) == "") &&
      (PrimaryContactPhone in e <==> d.primaryContactPhone != "" && !PhonePattern(d.primaryContactPhone)) &&
      SiteManager !in e && GuardsRequired !in e && PrimaryContactName !in e
    ensures var e := SiteErrors(d);
      (SiteName in e ==> e[SiteName] == "Site name is required") &&
      (Sector in e ==> e[Sector] == "Sector is required") &&
      (Tier in e ==> e[Tier] == "Client tier is required") &&
      (ContractValue in e ==> e[ContractValue] == "Contract value is required") &&
      (Address in e ==> e[Address] == "Address is required") &&
      (PrimaryContactPhone in e ==> e[PrimaryContactPhone] == "Invalid phone format")
  {
  }

  /** The form is valid iff the trimmed site name, contract value and address
      have a non-blank character, sector and tier are set, and the phone is
      empty or made only of phone characters. */
  lemma ValidIff(d: SiteFormData)
    ensures SiteErrors(d) == map[] <==>
      !Text.IsBlank(d.siteName) && d.sector != "" && d.tier != "" &&
      !Text.IsBlank(d.contractValue) && !Text.IsBlank(d.address) &&
      (d.primaryContactPhone == "" || forall i :: 0 <= i < |d.primaryContactPhone| ==> PhoneChar(d.primaryContactPhone[i]))
  {
    Text.TrimEmptyIffBlank(d.siteName);
    Text.TrimEmptyIffBlank(d.contractValue);
    Text.TrimEmptyIffBlank(d.address);
    PhonePatternIff(d.primaryContactPhone);
    SiteErrorsByField(d);
    var e := SiteErrors(d);
    if e != map[] {
      var f :| f in e;
    }
  }

  /** A site name of spaces is rejected even though it is not empty; an
      unselected sector is rejected. */
  lemma WhitespaceNameRejected(d: SiteFormData)
    requires d.siteName == "   "
    ensures SiteName in SiteErrors(d)
  {
    Text.TrimEmptyIffBlank(d.siteName);
    SiteErrorsByField(d);
  }

  /** The modal's state and what it has handed to its callbacks. */
  class SiteModal {
    var data: SiteFormData
    var errors: map<SiteField, string>
    /** The data of every `onSubmit` call, in order. */
    var submitted: seq<SiteFormData>
    /** How many times `onClose` was called. */
    var closes: nat

    /** Every recorded error is a message, so it is truthy. */
    ghost predicate Valid()
      reads this
    {
      forall f :: f in errors ==> errors[f] != ""
    }

    constructor ()
      ensures Valid()
      ensures data == EmptyForm && errors == map[] && submitted == [] && closes == 0
    {
      data, errors, submitted, closes := EmptyForm, map[], [], 0;
    }

    /** validate: replace the errors with this data's errors. */
    method Validate() returns (ok: bool)
      requires Valid()
      modifies this
      ensures Valid()
      ensures errors == SiteErrors(data) && ok == (errors == map[])
      ensures data == old(data) && submitted == old(submitted) && closes == old(closes)
    {
      errors := SiteErrors(data);
      ok := errors == map[];
    }

    /** handleSubmit */
    method HandleSubmit()
      requires Valid()
      modifies this
      ensures Valid()
      ensures errors == SiteErrors(old(data))
      ensures errors == map[] ==>
        submitted == old(submitted) + [old(data)] && data == EmptyForm && closes == old(closes) + 1
      ensures errors != map[] ==>
        submitted == old(submitted) && data == old(data) && closes == old(closes)
    {
      var ok := Validate();
      if ok {
        submitted := submitted + [data];
        data := EmptyForm;
        closes := closes + 1;
      }
    }

    /** handleChange: set one field; clear its error if it had one. */
    method HandleChange(f: SiteField, v: string)
      requires Valid()
      modifies this
      ensures Valid()
      ensures data == With(old(data), f, v)
      ensures errors == old(errors) - {f}
      ensures submitted == old(submitted) && closes == old(closes)
    {
      data := With(data, f, v);
      if f in errors && errors[f] != "" {
        errors := errors - {f};
      }
      assert f !in old(errors) ==> old(errors) - {f} == old(errors);
    }
  }
}

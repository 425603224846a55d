/** The "Create New Account" form: its eight fields, the validator with its
    email pattern, the change handler and the submit handler. */
module CreateAccountModal {
  import Text

  datatype AccountField =
    CompanyName | Industry | Tier | Arr | CsmOwner | Website | PrimaryContactName | PrimaryContactEmail

  datatype AccountFormData = AccountFormData(
    companyName: string, industry: string, tier: string, arr: string, csmOwner: string,
    website: string, primaryContactName: string, primaryContactEmail: string)

  const EmptyForm := AccountFormData("", "", "", "", "", "", "", "")

  function Get(d: AccountFormData, f: AccountField): string
  {
    match f
    case CompanyName => d.companyName
    case Industry => d.industry
    case Tier => d.tier
    case Arr => d.arr
    case CsmOwner => d.csmOwner
    case Website => d.website
    case PrimaryContactName => d.primaryContactName
    case PrimaryContactEmail => d.primaryContactEmail
  }

  /** `{ ...prev, [field]: value }`: only the named field changes. */
  function With(d: AccountFormData, f: AccountField, v: string): (r: AccountFormData)
    ensures Get(r, f) == v
    ensures forall g :: g != f ==> Get(r, g) == Get(d, g)
  {
    match f
    case CompanyName => d.(companyName := v)
    case Industry => d.(industry := v)
    case Tier => d.(tier := v)
    case Arr => d.(arr := v)
    case CsmOwner => d.(csmOwner := v)
    case Website => d.(website := v)
    case PrimaryContactName => d.(primaryContactName := v)
    case PrimaryContactEmail => d.(primaryContactEmail := v)
  }

  /** A character of the class `[^\s@]`. */
  predicate PartChar(c: char) { !Text.IsSpace(c) && c != '@' }

  predicate AllPart(s: string) { forall i :: 0 <= i < |s| ==> PartChar(s[i]) }

  /** `/^[^\s@]+@[^\s@]+\.[^\s@]+$/.test(s)` as the pattern reads: a split of
      the whole string into a non-empty run of the class, '@', a non-empty run,
      '.', and a non-empty run. */
  predicate EmailPattern(s: string)
  {
    exists at, dot :: 0 < at && at + 1 < dot && dot + 1 < |s| && s[at] == '@' && s[dot] == '.' &&
      AllPart(s[..at]) && AllPart(s[at + 1..dot]) && AllPart(s[dot + 1..])
  }

  /** The same language described by its shape: no whitespace, exactly one
      '@', not at the start, and a '.' in the domain that is neither its first
      nor its last character. */
  predicate WellFormedEmail(s: string)
  {
    (forall i :: 0 <= i < |s| ==> !Text.IsSpace(s[i])) &&
    exists at :: 0 < at < |s| && s[at] == '@' &&
      (forall k :: 0 <= k < |s| && k != at ==> s[k] != '@') &&
      (exists dot :: at + 1 < dot < |s| - 1 && s[dot] == '.')
  }

  lemma EmailPatternIff(s: string)
    ensures EmailPattern(s) <==> WellFormedEmail(s)
  {
    if EmailPattern(s) {
      EmailPatternWellFormed(s);
    }
    if WellFormedEmail(s) {
      WellFormedMatchesPattern(s);
    }
  }

  /** A slice is all class characters iff every character in its range is. */
  lemma AllPartRange(s: string, lo: int, hi: int)
    requires 0 <= lo <= hi <= |s|
    ensures AllPart(s[lo..hi]) <==> forall k :: lo <= k < hi ==> PartChar(s[k])
  {
    assert forall k :: lo <= k < hi ==> s[lo..hi][k - lo] == s[k];
  }

  lemma EmailPatternWellFormed(s: string)
    requires EmailPattern(s)
    ensures WellFormedEmail(s)
  {
    var at, dot :| 0 < at && at + 1 < dot && dot + 1 < |s| && s[at] == '@' && s[dot] == '.' &&
      AllPart(s[..at]) && AllPart(s[at + 1..dot]) && AllPart(s[dot + 1..]);
    AllPartRange(s, 0, at);
    AllPartRange(s, at + 1, dot);
    AllPartRange(s, dot + 1, |s|);
    assert s[..at] == s[0..at] && s[dot + 1..] == s[dot + 1..|s|];
    assert forall k :: 0 <= k < |s| && k != at && k != dot ==> PartChar(s[k]);
    assert forall k :: 0 <= k < |s| ==> !Text.IsSpace(s[k]);
    assert at + 1 < dot < |s| - 1 && s[dot] == '.';
  }

  lemma WellFormedMatchesPattern(s: string)
    requires WellFormedEmail(s)
    ensures EmailPattern(s)
  {
    var at :| 0 < at < |s| && s[at] == '@' &&
      (forall k :: 0 <= k < |s| && k != at ==> s[k] != '@') &&
      (exists dot :: at + 1 < dot < |s| - 1 && s[dot] == '.');
    var dot :| at + 1 < dot < |s| - 1 && s[dot] == '.';
    AllPartRange(s, 0, at);
    AllPartRange(s, at + 1, dot);
    AllPartRange(s, dot + 1, |s|);
    assert s[..at] == s[0..at] && s[dot + 1..] == s[dot + 1..|s|];
  }

  /** Whether `validate` flags a field: the trimmed company name and ARR must
      be non-empty, industry and tier must be set, and an email, when given,
      must match the pattern. */
  predicate Fails(d: AccountFormData, f: AccountField)
  {
    match f
    case CompanyName => Text.Trim(d.companyName) == ""
    case Industry => d.industry == ""
    case Tier => d.tier == ""
    case Arr => Text.Trim(d.arr) == ""
    case PrimaryContactEmail => d.primaryContactEmail != "" && !EmailPattern(d.primaryContactEmail)
    case _ => false
  }

  function Message(f: AccountField): string
  {
    match f
    case CompanyName => "Company name is required"
    case Industry => "Industry is required"
    case Tier => "Tier is required"
    case Arr => "ARR is required"
    case PrimaryContactEmail => "Invalid email format"
    case _ => ""
  }

  /** The fields `validate` checks; the CSM owner, website and contact name
      are never checked. */
  const Checked: set<AccountField> := {CompanyName, Industry, Tier, Arr, PrimaryContactEmail}

  /** Every checked field has a message. */
  lemma CheckedMessages()
    ensures forall f :: f in Checked ==> Message(f) != ""
  {
  }

  /** validate's `newErrors`: one entry per failing field, holding that
      field's own message, which is never empty. */
  function AccountErrors(d: AccountFormData): (e: map<AccountField, string>)
    ensures forall f :: f in e <==> f in Checked && Fails(d, f)
    ensures forall f :: f in e ==> e[f] == Message(f) && e[f] != ""
  {
    CheckedMessages();
    map f | f in Checked && Fails(d, f) :: Message(f)
  }

  /** Field by field: each check and the message it records. */
  lemma AccountErrorsByField(d: AccountFormData)
    ensures var e := AccountErrors(d);
      (CompanyName in e <==> Text.Trim(d.companyName) == "") &&
      (Industry in e <==> d.industry == "") &&
      (Tier in e <==> d.tier == "") &&
      (Arr in e <==> Text.Trim(d.arr) == "") &&
      (PrimaryContactEmail in e <==> d.primaryContactEmail != "" && !EmailPattern(d.primaryContactEmail)) &&
      CsmOwner !in e && Website !in e && PrimaryContactName !in e
    ensures var e := AccountErrors(d);
      (CompanyName in e ==> e[CompanyName] == "Company name is required") &&
      (Industry in e ==> e[Industry] == "Industry is required") &&
      (Tier in e ==> e[Tier] == "Tier is required") &&
      (Arr in e ==> e[Arr] == "ARR is required") &&
      (PrimaryContactEmail in e ==> e[PrimaryContactEmail] == "Invalid email format")
  {
  }

  /** The form is valid iff the company name and ARR have a non-blank
      character, industry and tier are set, and the email is empty or
      well-formed. */
  lemma ValidIff(d: AccountFormData)
    ensures AccountErrors(d) == map[] <==>
      !Text.IsBlank(d.companyName) && d.industry != "" && d.tier != "" && !Text.IsBlank(d.arr) &&
      (d.primaryContactEmail == "" || WellFormedEmail(d.primaryContactEmail))
  {
    Text.TrimEmptyIffBlank(d.companyName);
    Text.TrimEmptyIffBlank(d.arr);
    EmailPatternIff(d.primaryContactEmail);
    AccountErrorsByField(d);
    var e := AccountErrors(d);
    if e != map[] {
      var f :| f in e;
    }
  }

  /** Two sample addresses: one accepted, and one with a second '@' rejected. */
  lemma EmailExamples()
    ensures EmailPattern("a@b.co")
    ensures !EmailPattern("a@b@c.d")
  {
    var s := "a@b.co";
    assert s[1] == '@' && s[3] == '.';
    assert AllPart(s[..1]) && AllPart(s[2..3]) && AllPart(s[4..]);
    EmailPatternIff("a@b@c.d");
    var t := "a@b@c.d";
    assert t[1] == '@' && t[3] == '@';
  }

  /** The modal's state and what it has handed to its callbacks. */
  class AccountModal {
    var data: AccountFormData
    var errors: map<AccountField, string>
    /** The data of every `onSubmit` call, in order. */
    var submitted: seq<AccountFormData>
    /** How many times `onClose` was called. */
    var closes: nat

    /** Every recorded error is a message, so it is truthy. */
    ghost predicate Valid()
      reads this
    {
      forall f :: f in errors ==> errors[f] != ""
    }

    constructor ()
      ensures Valid()
      ensures data == EmptyForm && errors == map[] && submitted == [] && closes == 0
    {
      data, errors, submitted, closes := EmptyForm, map[], [], 0;
    }

    /** validate: replace the errors with this data's errors. */
    method Validate() returns (ok: bool)
      requires Valid()
      modifies this
      ensures Valid()
      ensures errors == AccountErrors(data) && ok == (errors == map[])
      ensures data == old(data) && submitted == old(submitted) && closes == old(closes)
    {
      errors := AccountErrors(data);
      ok := errors == map[];
    }

    /** handleSubmit */
    method HandleSubmit()
      requires Valid()
      modifies this
      ensures Valid()
      ensures errors == AccountErrors(old(data))
      ensures errors == map[] ==>
        submitted == old(submitted) + [old(data)] && data == EmptyForm && closes == old(closes) + 1
      ensures errors != map[] ==>
        submitted == old(submitted) && data == old(data) && closes == old(closes)
    {
      var ok := Validate();
      if ok {
        submitted := submitted + [data];
        data := EmptyForm;
        closes := closes + 1;
      }
    }

    /** handleChange: set one field; clear its error if it had one. */
    method HandleChange(f: AccountField, v: string)
      requires Valid()
      modifies this
      ensures Valid()
      ensures data == With(old(data), f, v)
      ensures errors == old(errors) - {f}
      ensures submitted == old(submitted) && closes == old(closes)
    {
      data := With(data, f, v);
      if f in errors && errors[f] != "" {
        errors := errors - {f};
      }
      assert f !in old(errors) ==> old(errors) - {f} == old(errors);
    }
  }
}

/** The per-candidate decision of TaxDeclarationYear.Load: which donor data a
    contact yields and whether a candidate row becomes an oppgave record.
    The contact registry and its custom-field table are given as maps; a
    contact id missing from the registry is a failed Contact.getsingle. */
module Donor {
  import opened Wrappers
  import Php

  type ContactId = nat

  /** The tax year as passed to the API action; every table is keyed by it. */
  type Year = string

  /** The fields of a Contact.getsingle result the job reads. */
  datatype Contact = Contact(id: ContactId, displayName: string, contactType: string)

  /** The contact's custom-field row: person number and organisation number. */
  datatype CustomNumbers = CustomNumbers(personsnummer: string, organisasjonsnummer: string)

  datatype Registry = Registry(contacts: map<ContactId, Contact>, custom: map<ContactId, CustomNumbers>)

  /** Minimum and maximum deductible amount, in minor currency units. */
  datatype Config = Config(minAmount: int, maxAmount: int)

  /** Everything one batch run holds fixed: the year, the registry, the
      configuration and today's date (`Ymd`). */
  datatype Context = Context(year: Year, registry: Registry, config: Config, today: string)

  /** One row of the selection query: a contact and its deductible total. */
  datatype Candidate = Candidate(contactId: ContactId, deductibleAmount: int)

  /** The `$donorData` array; a key that is not set is `None`. */
  datatype DonorData = DonorData(name: Option<string>, donorType: Option<string>, number: Option<string>)

  /** One row of civicrm_oppgave. */
  datatype OppgaveRecord = OppgaveRecord(
    year: Year,
    contactId: ContactId,
    donorType: string,
    donorName: string,
    donorNumber: string,
    deductibleAmount: int,
    loadedDate: string)

  /** What setOppgaveParams yields: the insert parameters, or one of the two
      ways it yields none. NoDonorNumber is the case that writes an Error log
      line; BelowMinimum writes nothing. */
  datatype OppgaveParams = Params(record: OppgaveRecord) | BelowMinimum | NoDonorNumber

  const DonorLabels: set<string> := {"Person", "Husholdning", "Organisasjon"}

  /** The amount written for a deductible total: never above the maximum,
      and the total itself when it is not. */
  function ClampToMax(amount: int, maxAmount: int): (r: int)
    ensures r <= maxAmount && r <= amount
    ensures r == amount || r == maxAmount
  {
    if amount > maxAmount then maxAmount else amount
  }

  /** getCustomData: the contact's custom-field row, or two empty strings
      when it has none. */
  function GetCustomData(registry: Registry, id: ContactId): (c: CustomNumbers)
    ensures id !in registry.custom ==> c.personsnummer == "" && c.organisasjonsnummer == ""
    ensures id in registry.custom ==> c == registry.custom[id]
  {
    if id in registry.custom then registry.custom[id] else CustomNumbers("", "")
  }

  /** The identifier validateData looks at for a contact that was found:
      the person number for individuals and households, the organisation
      number for organisations, none for any other contact type. */
  function IdentifierOf(registry: Registry, contact: Contact): Option<string> {
    var custom := GetCustomData(registry, contact.id);
    if contact.contactType in {"Individual", "Household"} then Some(custom.personsnummer)
    else if contact.contactType == "Organization" then Some(custom.organisasjonsnummer)
    else None
  }

  /** pullDonorData: the display name, and for the three known contact types
      a donor label and the identifier belonging to that type. */
  function PullDonorData(registry: Registry, contact: Contact): (d: DonorData)
    ensures d.name == Some(contact.displayName)
    ensures d.donorType.Some? <==> d.number.Some?
    ensures d.number.Some? <==> contact.contactType in {"Individual", "Household", "Organization"}
    ensures d.donorType.Some? ==> d.donorType.value in DonorLabels
    ensures d.number == IdentifierOf(registry, contact)
    ensures d.donorType == Some("Person") <==> contact.contactType == "Individual"
    ensures d.donorType == Some("Husholdning") <==> contact.contactType == "Household"
    ensures d.donorType == Some("Organisasjon") <==> contact.contactType == "Organization"
  {
    var custom := GetCustomData(registry, contact.id);
    var name := Some(contact.displayName);
    if contact.contactType == "Individual" then
      DonorData(name, Some("Person"), Some(custom.personsnummer))
    else if contact.contactType == "Household" then
      DonorData(name, Some("Husholdning"), Some(custom.personsnummer))
    else if contact.contactType == "Organization" then
      DonorData(name, Some("Organisasjon"), Some(custom.organisasjonsnummer))
    else
      DonorData(name, None, None)
  }

  /** getDonorData: the donor data of a contact, or an empty array when the
      lookup fails. */
  function GetDonorData(registry: Registry, id: ContactId): (d: DonorData)
    ensures id !in registry.contacts ==> d == DonorData(None, None, None)
    ensures id in registry.contacts ==> d.name.Some?
    ensures id in registry.contacts ==> d == PullDonorData(registry, registry.contacts[id])
  {
    if id in registry.contacts then PullDonorData(registry, registry.contacts[id])
    else DonorData(None, None, None)
  }

  /** validateData: the donor number is set and not empty to PHP. */
  function ValidateData(d: DonorData): (ok: bool)
    ensures ok <==> d.number.Some? && d.number.value != "" && d.number.value != "0"
  {
    d.number.Some? && !Php.IsEmpty(d.number.value)
  }

  /** setOppgaveParams: the record to insert for a candidate row. */
  function SetOppgaveParams(ctx: Context, cand: Candidate): (p: OppgaveParams)
    ensures p.BelowMinimum? <==> cand.deductibleAmount < ctx.config.minAmount
    ensures cand.contactId !in ctx.registry.contacts ==> !p.Params?
    ensures p.Params? ==>
      && p.record.year == ctx.year
      && p.record.contactId == cand.contactId
      && p.record.loadedDate == ctx.today
      && p.record.donorType in DonorLabels
      && !Php.IsEmpty(p.record.donorNumber)
      && ctx.config.minAmount <= cand.deductibleAmount
      && p.record.deductibleAmount <= ctx.config.maxAmount
      && p.record.deductibleAmount <= cand.deductibleAmount
      && (p.record.deductibleAmount == cand.deductibleAmount || p.record.deductibleAmount == ctx.config.maxAmount)
  {
    if cand.deductibleAmount >= ctx.config.minAmount then
      var amount := ClampToMax(cand.deductibleAmount, ctx.config.maxAmount);
      var donor := GetDonorData(ctx.registry, cand.contactId);
      if ValidateData(donor) then
        Params(OppgaveRecord(ctx.year, cand.contactId, donor.donorType.GetOr(""), donor.name.GetOr(""),
                             donor.number.value, amount, ctx.today))
      else
        NoDonorNumber
    else
      BelowMinimum
  }

  /** A record is built exactly when the total reaches the minimum, the
      contact is found, and the identifier for its type is not empty. */
  lemma RecordBuiltIff(ctx: Context, cand: Candidate)
    ensures SetOppgaveParams(ctx, cand).Params? <==>
      && cand.deductibleAmount >= ctx.config.minAmount
      && cand.contactId in ctx.registry.contacts
      && var id := IdentifierOf(ctx.registry, ctx.registry.contacts[cand.contactId]);
         id.Some? && !Php.IsEmpty(id.value)
  {
  }

  /** The donor label, name and number of a record follow the contact type. */
  lemma RecordFollowsContactType(ctx: Context, cand: Candidate)
    requires SetOppgaveParams(ctx, cand).Params?
    ensures cand.contactId in ctx.registry.contacts
    ensures var rec := SetOppgaveParams(ctx, cand).record;
      var contact := ctx.registry.contacts[cand.contactId];
      var custom := GetCustomData(ctx.registry, contact.id);
      && rec.donorName == contact.displayName
      && (rec.donorType == "Person" <==> contact.contactType == "Individual")
      && (rec.donorType == "Husholdning" <==> contact.contactType == "Household")
      && (rec.donorType == "Organisasjon" <==> contact.contactType == "Organization")
      && rec.donorNumber == (if contact.contactType == "Organization" then custom.organisasjonsnummer
                             else custom.personsnummer)
  {
  }

  /** A total within [minimum, maximum] is written unchanged; one above the
      maximum is written as the maximum. */
  lemma ClampLaw(ctx: Context, cand: Candidate)
    requires SetOppgaveParams(ctx, cand).Params?
    ensures cand.deductibleAmount <= ctx.config.maxAmount ==>
      SetOppgaveParams(ctx, cand).record.deductibleAmount == cand.deductibleAmount
    ensures cand.deductibleAmount > ctx.config.maxAmount ==>
      SetOppgaveParams(ctx, cand).record.deductibleAmount == ctx.config.maxAmount
  {
  }

  /** An individual with total 5000 (minimum 500, maximum 20000) and person
      number "12345" gets a Person record for 5000. */
  lemma IndividualScenario(name: string, today: string)
    ensures var registry := Registry(map[7 := Contact(7, name, "Individual")],
                                     map[7 := CustomNumbers("12345", "")]);
      var ctx := Context("2023", registry, Config(500, 20000), today);
      SetOppgaveParams(ctx, Candidate(7, 5000))
        == Params(OppgaveRecord("2023", 7, "Person", name, "12345", 5000, today))
  {
  }

  /** A total of 30000 against a maximum of 20000 is written as 20000. */
  lemma AboveMaximumScenario(name: string, today: string)
    ensures var registry := Registry(map[7 := Contact(7, name, "Organization")],
                                     map[7 := CustomNumbers("", "998877665")]);
      var ctx := Context("2023", registry, Config(500, 20000), today);
      SetOppgaveParams(ctx, Candidate(7, 30000))
        == Params(OppgaveRecord("2023", 7, "Organisasjon", name, "998877665", 20000, today))
  {
  }

  /** An individual with an empty person number gets no record. */
  lemma EmptyPersonNumberScenario(name: string, today: string)
    ensures var registry := Registry(map[7 := Contact(7, name, "Individual")],
                                     map[7 := CustomNumbers("", "998877665")]);
      SetOppgaveParams(Context("2023", registry, Config(500, 20000), today), Candidate(7, 5000))
        == NoDonorNumber
  {
  }
}

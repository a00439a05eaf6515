/** The three tables TaxDeclarationYear.Load writes, and the API action
    itself. The selection query's rows are passed in; every other effect is
    an insert, delete or replace on one of the tables. */
module Store {
  import opened Wrappers
  import opened Donor
  import opened Batch
  import Validation

  class OppgaveTables {
    /** civicrm_oppgave_processed */
    var processed: set<Mark>
    /** civicrm_oppgave, in insertion order */
    var oppgave: seq<OppgaveRecord>
    /** civicrm_skatteinnberetninger: status per year */
    var yearStatus: map<Year, int>

    constructor (processed: set<Mark>, oppgave: seq<OppgaveRecord>, yearStatus: map<Year, int>)
      ensures this.processed == processed && this.oppgave == oppgave && this.yearStatus == yearStatus
    {
      this.processed := processed;
      this.oppgave := oppgave;
      this.yearStatus := yearStatus;
    }

    /** contactExistsInOppgave: whether the table holds a row for the contact and year. */
    method ContactExistsInOppgave(contactId: ContactId, year: Year) returns (found: bool)
      ensures found <==> exists i :: 0 <= i < |oppgave| && oppgave[i].contactId == contactId && oppgave[i].year == year
    {
      found := RecordCount(oppgave, contactId, year) > 0;
    }

    /** setProcessed: mark the contact as considered for the year. */
    method SetProcessed(year: Year, contactId: ContactId)
      modifies this`processed
      ensures processed == old(processed) + {(contactId, year)}
    {
      processed := processed + {(contactId, year)};
    }

    /** resetProcessed: delete every mark of the year. */
    method ResetProcessed(year: Year)
      modifies this`processed
      ensures processed == set m | m in old(processed) && m.1 != year
    {
      processed := set m | m in processed && m.1 != year;
    }

    /** createContactOppgave: insert the candidate's record unless the contact
        already has one for the year or none can be built. */
    method CreateContactOppgave(ctx: Context, cand: Candidate)
      modifies this`oppgave
      ensures oppgave == OppgaveAfterCandidate(old(oppgave), ctx, cand)
    {
      var found := ContactExistsInOppgave(cand.contactId, ctx.year);
      if !found {
        var createParams := SetOppgaveParams(ctx, cand);
        if createParams.Params? {
          oppgave := oppgave + [createParams.record];
        }
      }
    }

    /** createSkatteinnberetninger: replace the year's status row with status 2. */
    method CreateSkatteinnberetninger(year: Year)
      modifies this`yearStatus
      ensures yearStatus == old(yearStatus)[year := 2]
    {
      yearStatus := yearStatus[year := 2];
    }

    /** The fetch loop of the API action: mark each row processed for the
        year, then create its record if it may have one. */
    method ProcessCandidates(ctx: Context, cands: seq<Candidate>)
      modifies this`processed, this`oppgave
      ensures processed == old(processed) + MarksOf(cands, ctx.year)
      ensures oppgave == OppgaveAfterBatch(old(oppgave), ctx, cands)
    {
      var i := 0;
      while i < |cands|
        invariant 0 <= i <= |cands|
        invariant processed == old(processed) + MarksOf(cands[..i], ctx.year)
        invariant oppgave == OppgaveAfterBatch(old(oppgave), ctx, cands[..i])
      {
        SetProcessed(ctx.year, cands[i].contactId);
        CreateContactOppgave(ctx, cands[i]);
        assert cands[..i + 1][..i] == cands[..i];
        i := i + 1;
      }
      assert cands[..i] == cands;
    }

    /** civicrm_api3_tax_declaration_year_load after validation, for the
        rows getRelevantContacts returned for `year` (`cands`): an empty
        batch resets the year's marks, every row is marked and maybe
        recorded, and the year's status becomes 2. */
    method LoadYear(year: Year, cands: seq<Candidate>, registry: Registry, config: Config, today: string)
      returns (message: string)
      requires IsSelection(cands, year, processed, config.minAmount)
      modifies this
      ensures message == LoadMessage(year, |cands|)
      ensures processed == MarksAfterBatch(old(processed), year, cands)
      ensures oppgave == OppgaveAfterBatch(old(oppgave), Context(year, registry, config, today), cands)
      ensures yearStatus == old(yearStatus)[year := 2]
      ensures cands != [] ==> |processed| == |old(processed)| + |cands|
      ensures UniqueKeys(old(oppgave)) ==> UniqueKeys(oppgave)
    {
      var ctx := Context(year, registry, config, today);
      ghost var rows := oppgave;
      if |cands| == 0 {
        ResetProcessed(year);
      }
      message := LoadMessage(year, |cands|);
      ProcessCandidates(ctx, cands);
      assert oppgave == OppgaveAfterBatch(rows, ctx, cands);
      if cands != [] {
        MarkedExactlyOnce(old(processed), year, cands, config.minAmount);
      }
      CreateSkatteinnberetninger(year);
    }

    /** civicrm_api3_tax_declaration_year_load: validate the parameters, then
        run the batch for the year. An invalid year changes nothing and
        yields the validation message. */
    method Load(params: map<string, string>, cands: seq<Candidate>, registry: Registry, config: Config, today: string)
      returns (r: Result<string, string>)
      requires Validation.ValidateParams(params).Success? ==>
        IsSelection(cands, Validation.ValidateParams(params).value, processed, config.minAmount)
      modifies this
      ensures Validation.ValidateParams(params).Failure? ==>
        r == Failure(Validation.ValidateParams(params).error) && unchanged(this)
      ensures Validation.ValidateParams(params).Success? ==>
        var year := Validation.ValidateParams(params).value;
        && r == Success(LoadMessage(year, |cands|))
        && processed == MarksAfterBatch(old(processed), year, cands)
        && oppgave == OppgaveAfterBatch(old(oppgave), Context(year, registry, config, today), cands)
        && yearStatus == old(yearStatus)[year := 2]
    {
      var valid := Validation.ValidateParams(params);
      if valid.Failure? {
        return Failure(valid.error);
      }
      var message := LoadYear(valid.value, cands, registry, config, today);
      r := Success(message);
    }
  }
}

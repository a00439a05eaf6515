/** The state a batch run of TaxDeclarationYear.Load leaves behind, as
    functions of the state before it: the selection contract of
    getRelevantContacts, the oppgave table after each candidate and after the
    whole batch, and the processed marks. */
module Batch {
  import opened Donor

  /** A row of civicrm_oppgave_processed: a contact considered for a year. */
  type Mark = (ContactId, Year)

  /** The LIMIT of the selection query. */
  const BatchSize := 1000

  /** The rows getRelevantContacts may return for `year`: at most one batch,
      none already marked for the year, every total at least the minimum,
      one row per contact (the query groups by contact). */
  predicate IsSelection(cands: seq<Candidate>, year: Year, marks: set<Mark>, minAmount: int) {
    && |cands| <= BatchSize
    && (forall i :: 0 <= i < |cands| ==> (cands[i].contactId, year) !in marks)
    && (forall i :: 0 <= i < |cands| ==> cands[i].deductibleAmount >= minAmount)
    && (forall i, j :: 0 <= i < j < |cands| ==> cands[i].contactId != cands[j].contactId)
  }

  /** Some row of the table belongs to the contact and year. */
  predicate HasRecord(rows: seq<OppgaveRecord>, contactId: ContactId, year: Year) {
    exists i :: 0 <= i < |rows| && rows[i].contactId == contactId && rows[i].year == year
  }

  /** `SELECT COUNT(*) FROM civicrm_oppgave WHERE contact_id = .. AND oppgave_year = ..` */
  function RecordCount(rows: seq<OppgaveRecord>, contactId: ContactId, year: Year): (n: nat)
    ensures n <= |rows|
    ensures n > 0 <==> HasRecord(rows, contactId, year)
  {
    if rows == [] then 0
    else
      var last := rows[|rows| - 1];
      var prefix := rows[..|rows| - 1];
      assert forall i :: 0 <= i < |prefix| ==> prefix[i] == rows[i];
      RecordCount(prefix, contactId, year) + (if last.contactId == contactId && last.year == year then 1 else 0)
  }

  /** No two rows share a contact and a year. */
  predicate UniqueKeys(rows: seq<OppgaveRecord>) {
    forall i, j :: 0 <= i < j < |rows| ==> rows[i].contactId != rows[j].contactId || rows[i].year != rows[j].year
  }

  /** A table without duplicate keys holds at most one row per contact and year. */
  lemma {:induction false} UniqueKeysAtMostOne(rows: seq<OppgaveRecord>, contactId: ContactId, year: Year)
    requires UniqueKeys(rows)
    ensures RecordCount(rows, contactId, year) <= 1
  {
    if rows != [] {
      var prefix := rows[..|rows| - 1];
      var last := rows[|rows| - 1];
      assert UniqueKeys(prefix);
      UniqueKeysAtMostOne(prefix, contactId, year);
    }
  }

  /** createContactOppgave on the table: a candidate whose contact already has
      a record for the year is skipped; otherwise the record setOppgaveParams
      builds, if any, is appended. */
  function OppgaveAfterCandidate(rows: seq<OppgaveRecord>, ctx: Context, cand: Candidate): (r: seq<OppgaveRecord>)
    ensures |rows| <= |r| <= |rows| + 1 && r[..|rows|] == rows
    ensures UniqueKeys(rows) ==> UniqueKeys(r)
    ensures HasRecord(rows, cand.contactId, ctx.year) ==> r == rows
  {
    if RecordCount(rows, cand.contactId, ctx.year) > 0 then rows
    else
      match SetOppgaveParams(ctx, cand)
      case Params(rec) => rows + [rec]
      case _ => rows
  }

  /** The table after the loop has handled `cands` in order. */
  function OppgaveAfterBatch(rows: seq<OppgaveRecord>, ctx: Context, cands: seq<Candidate>): (r: seq<OppgaveRecord>)
    ensures |rows| <= |r| <= |rows| + |cands| && r[..|rows|] == rows
    ensures UniqueKeys(rows) ==> UniqueKeys(r)
  {
    if cands == [] then rows
    else
      var before := OppgaveAfterBatch(rows, ctx, cands[..|cands| - 1]);
      var r := OppgaveAfterCandidate(before, ctx, cands[|cands| - 1]);
      assert r[..|rows|] == before[..|rows|];
      r
  }

  /** Every row a batch adds is the record setOppgaveParams builds for one
      of its candidates, for the batch's year. */
  lemma {:induction false} BatchAddsOnlyBuiltRecords(rows: seq<OppgaveRecord>, ctx: Context, cands: seq<Candidate>, k: nat)
    requires |rows| <= k < |OppgaveAfterBatch(rows, ctx, cands)|
    ensures exists i :: 0 <= i < |cands| && SetOppgaveParams(ctx, cands[i]) == Params(OppgaveAfterBatch(rows, ctx, cands)[k])
  {
    var prefix := cands[..|cands| - 1];
    var before := OppgaveAfterBatch(rows, ctx, prefix);
    var r := OppgaveAfterBatch(rows, ctx, cands);
    if k < |before| {
      BatchAddsOnlyBuiltRecords(rows, ctx, prefix, k);
      assert r[k] == before[k];
      var i :| 0 <= i < |prefix| && SetOppgaveParams(ctx, prefix[i]) == Params(before[k]);
      assert cands[i] == prefix[i];
    } else {
      assert SetOppgaveParams(ctx, cands[|cands| - 1]) == Params(r[k]);
    }
  }

  /** After one candidate a contact has a record for a year exactly when it
      had one before, or the candidate is that contact for the batch's year
      and setOppgaveParams builds a record for it. */
  lemma CandidateRecordExists(rows: seq<OppgaveRecord>, ctx: Context, cand: Candidate, contactId: ContactId, year: Year)
    ensures HasRecord(OppgaveAfterCandidate(rows, ctx, cand), contactId, year) <==>
      || HasRecord(rows, contactId, year)
      || (year == ctx.year && cand.contactId == contactId && SetOppgaveParams(ctx, cand).Params?)
  {
    var r := OppgaveAfterCandidate(rows, ctx, cand);
    if HasRecord(rows, contactId, year) {
      var k :| 0 <= k < |rows| && rows[k].contactId == contactId && rows[k].year == year;
      assert r[k] == rows[k];
    }
    if |r| > |rows| {
      assert r[|rows|] == SetOppgaveParams(ctx, cand).record;
    }
  }

  /** After a batch a contact has a record for a year exactly when it had one
      before, or the year is the batch's and setOppgaveParams builds a record
      for one of the contact's candidate rows. */
  lemma {:induction false} BatchRecordExists(rows: seq<OppgaveRecord>, ctx: Context, cands: seq<Candidate>, contactId: ContactId, year: Year)
    ensures HasRecord(OppgaveAfterBatch(rows, ctx, cands), contactId, year) <==>
      || HasRecord(rows, contactId, year)
      || (year == ctx.year && exists i :: 0 <= i < |cands| && cands[i].contactId == contactId
                                         && SetOppgaveParams(ctx, cands[i]).Params?)
  {
    if cands != [] {
      var prefix := cands[..|cands| - 1];
      var last := cands[|cands| - 1];
      assert forall i :: 0 <= i < |prefix| ==> prefix[i] == cands[i];
      BatchRecordExists(rows, ctx, prefix, contactId, year);
      CandidateRecordExists(OppgaveAfterBatch(rows, ctx, prefix), ctx, last, contactId, year);
    }
  }

  /** A batch adds nothing when every candidate already has a record for the
      year or gets none built. */
  lemma {:induction false} BatchAddsNothing(rows: seq<OppgaveRecord>, ctx: Context, cands: seq<Candidate>)
    requires forall i :: 0 <= i < |cands| ==>
      HasRecord(rows, cands[i].contactId, ctx.year) || !SetOppgaveParams(ctx, cands[i]).Params?
    ensures OppgaveAfterBatch(rows, ctx, cands) == rows
  {
    if cands != [] {
      var prefix := cands[..|cands| - 1];
      assert forall i :: 0 <= i < |prefix| ==> prefix[i] == cands[i];
      BatchAddsNothing(rows, ctx, prefix);
    }
  }

  /** Running the same candidates a second time adds no record: the
      existence check blocks every candidate that got one the first time. */
  lemma BatchIdempotent(rows: seq<OppgaveRecord>, ctx: Context, cands: seq<Candidate>)
    ensures var once := OppgaveAfterBatch(rows, ctx, cands);
      OppgaveAfterBatch(once, ctx, cands) == once
  {
    var once := OppgaveAfterBatch(rows, ctx, cands);
    forall i | 0 <= i < |cands|
      ensures HasRecord(once, cands[i].contactId, ctx.year) || !SetOppgaveParams(ctx, cands[i]).Params?
    {
      BatchRecordExists(rows, ctx, cands, cands[i].contactId, ctx.year);
    }
    BatchAddsNothing(once, ctx, cands);
  }

  /** The marks setProcessed adds for `cands`, one per row. */
  function MarksOf(cands: seq<Candidate>, year: Year): (ms: set<Mark>)
    ensures forall m :: m in ms <==> m.1 == year && exists i :: 0 <= i < |cands| && cands[i].contactId == m.0
  {
    if cands == [] then {}
    else
      var prefix := cands[..|cands| - 1];
      assert forall i :: 0 <= i < |prefix| ==> prefix[i] == cands[i];
      MarksOf(prefix, year) + {(cands[|cands| - 1].contactId, year)}
  }

  /** Distinct contacts give one new mark each. */
  lemma {:induction false} MarksOfSize(cands: seq<Candidate>, year: Year)
    requires forall i, j :: 0 <= i < j < |cands| ==> cands[i].contactId != cands[j].contactId
    ensures |MarksOf(cands, year)| == |cands|
  {
    if cands != [] {
      var prefix := cands[..|cands| - 1];
      var last := cands[|cands| - 1];
      assert forall i :: 0 <= i < |prefix| ==> prefix[i] == cands[i];
      MarksOfSize(prefix, year);
      assert (last.contactId, year) !in MarksOf(prefix, year);
    }
  }

  /** The processed marks after a run over `cands`: with no candidates every
      mark of the year is deleted (resetProcessed); otherwise every candidate
      is marked for the year. */
  function MarksAfterBatch(marks: set<Mark>, year: Year, cands: seq<Candidate>): (r: set<Mark>)
    ensures forall i :: 0 <= i < |cands| ==> (cands[i].contactId, year) in r
    ensures forall m: Mark :: m.1 != year ==> (m in r <==> m in marks)
    ensures cands != [] ==> marks <= r
    ensures cands == [] ==> forall m :: m in r ==> m.1 != year
    ensures forall m :: m in r && m !in marks ==> m.1 == year
  {
    if cands == [] then set m | m in marks && m.1 != year
    else marks + MarksOf(cands, year)
  }

  /** A batch of candidates that getRelevantContacts may return adds exactly
      one mark per row. */
  lemma MarkedExactlyOnce(marks: set<Mark>, year: Year, cands: seq<Candidate>, minAmount: int)
    requires IsSelection(cands, year, marks, minAmount) && cands != []
    ensures |MarksAfterBatch(marks, year, cands)| == |marks| + |cands|
  {
    MarksOfSize(cands, year);
    assert marks !! MarksOf(cands, year);
  }

  /** Once a batch has run, none of its contacts can be selected again for the
      year, whether or not it got a record, until the marks are reset. */
  lemma MarkedNotReselected(marks: set<Mark>, year: Year, cands: seq<Candidate>, next: seq<Candidate>, minAmount: int)
    requires cands != [] && IsSelection(next, year, MarksAfterBatch(marks, year, cands), minAmount)
    ensures forall i, j :: 0 <= i < |cands| && 0 <= j < |next| ==> next[j].contactId != cands[i].contactId
  {
  }

  /** The message the API action returns after a batch of `count` rows. */
  function LoadMessage(year: Year, count: nat): string {
    if count == 0 then "All contacts for tax year " + year + " processed"
    else "Batch of " + "1000" + " contacts for tax year " + year + " processed, you need to do more runs!"
  }

  /** The message depends only on whether the batch was empty; a partial
      batch reports a batch of 1000 like a full one. */
  lemma LoadMessageOnlyByEmptiness(year: Year, a: nat, b: nat)
    ensures (a == 0) == (b == 0) ==> LoadMessage(year, a) == LoadMessage(year, b)
    ensures (a == 0) != (b == 0) ==> LoadMessage(year, a) != LoadMessage(year, b)
  {
    var all := "All contacts for tax year " + year + " processed";
    var more := "Batch of " + "1000" + " contacts for tax year " + year + " processed, you need to do more runs!";
    assert all[0] == 'A' && more[0] == 'B';
  }
}

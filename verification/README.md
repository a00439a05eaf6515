# TaxDeclarationYear.Load, modelled in Dafny

`TaxDeclarationYear.Load` is a CiviCRM API action of the Norwegian tax-reporting
extension (`no.maf.oppgavexml`). One call handles one batch of donors for a tax
year. It validates the `year` parameter. It selects up to 1000 contacts that are
not yet marked as processed for the year and whose deductible contributions sum to
at least the configured minimum. For each such contact it writes the processed mark,
and it inserts one `civicrm_oppgave` record (the yearly tax-reporting record, an
"oppgave") if the contact has none yet and qualifies. Finally it sets the year's
row in `civicrm_skatteinnberetninger` to status 2. When no contact is left, the
year's processed marks are deleted instead, so the next cycle starts afresh.

The model has six modules, one file each:

- `wrappers.dfy` (`Wrappers`): `Option` and `Result`.
- `php.dfy` (`Php`): the PHP built-ins the checks depend on:
  - `empty()` on a string, which is true for `""` and `"0"`;
  - `strlen`, counted in UTF-8 bytes;
  - PHP 8's `is_numeric`, which accepts signs, decimals, exponents and
    surrounding whitespace.
- `validation.dfy` (`Validation`): `validateParams`. Its four checks run in
  order, and the first one that fails decides the message.
- `donor.dfy` (`Donor`): the decision for one candidate row.
  - The contact lookup yields a found contact or nothing.
  - `pullDonorData` maps the contact type to a donor label and an identifier.
  - `validateData` requires a non-empty identifier.
  - `setOppgaveParams` applies the minimum threshold and clamps the amount to
    the maximum.
- `batch.dfy` (`Batch`): specification functions for what one batch leaves
  behind:
  - `IsSelection`, the selection contract of `getRelevantContacts`;
  - `OppgaveAfterCandidate` / `OppgaveAfterBatch`, the oppgave table after
    each candidate and after the whole batch;
  - `MarksAfterBatch`, the processed marks after the batch;
  - the lemmas about all of these.
- `store.dfy` (`Store`): the class `OppgaveTables`, holding the three tables
  as fields:
  - `processed`: a set of `(contact, year)` marks;
  - `oppgave`: a sequence of records, where an SQL INSERT is an append;
  - `yearStatus`: a map from year to status.

  Its methods model `setProcessed`, `resetProcessed`,
  `contactExistsInOppgave`, `createContactOppgave`,
  `createSkatteinnberetninger`, the fetch loop and the API action. The methods
  that write the oppgave table, and the whole run, are proved against the
  functions in `Batch`; the others state the new table directly.

The oppgave table is a sequence, not a map keyed by `(contact, year)`. So "at most
one record per contact and year" is not built into the type. It is proved: the
existence check keeps `UniqueKeys` true, and `UniqueKeysAtMostOne` turns that into
a row count of at most one.

The rows of the selection query are an input of `Load`. Its precondition
`IsSelection` states what the query guarantees:
- at most 1000 rows;
- no row for a contact already marked for the year;
- every sum at least the minimum;
- one row per contact.

Registry data is passed in as values:
- contacts: `Registry.contacts`, where a missing id is a failed
  `Contact.getsingle`;
- custom-field rows: `Registry.custom`;
- the minimum and maximum amounts: `Config`;
- today's date: a string.

Three details of the code that the model keeps as they are:
- A total below the minimum is dropped with no log line. An empty donor
  identifier logs an Error (`Load.php:145`). `OppgaveParams` keeps the two
  cases apart (`BelowMinimum`, `NoDonorNumber`).
- `"abc"` is refused with "Year has to have 4 digits", because the length check
  runs before the numeric check.
- The donor labels are `Person`, `Husholdning` and `Organisasjon`.

## Model

| member | source | states |
|---|---|---|
| `Php.StrLen` | api/v3/TaxDeclarationYear/Load.php:242 | `strlen` is a byte count: at least the number of characters, at most four times it, and equal to it exactly when every character is ASCII |
| `Php.IsNumeric` | api/v3/TaxDeclarationYear/Load.php:245 | PHP 8 `is_numeric` on a string: optional surrounding whitespace, an optional sign, digits with at most one decimal point and at least one digit, then optionally `e`/`E`, an optional sign and digits |
| `Php.IsEmpty` | api/v3/TaxDeclarationYear/Load.php:239 | PHP `empty()` on a string is true exactly for "" and "0" (also used by `validateData` at line 276) |
| `Php.DigitsAreNumeric` | api/v3/TaxDeclarationYear/Load.php:245 | every non-empty digit string passes `is_numeric` |
| `Validation.ValidateParams` | api/v3/TaxDeclarationYear/Load.php:235-248 | succeeds exactly when `year` is present, not empty to PHP, 4 bytes long and numeric, and returns that year; otherwise fails with the message of the first failing check in source order |
| `Validation.FourDigitYearAccepted` | api/v3/TaxDeclarationYear/Load.php:242-247 | every four-digit year is accepted unchanged |
| `Validation.ShortWordFailsOnLength` | api/v3/TaxDeclarationYear/Load.php:242-246 | "abc" fails both the length and the numeric check; the length message is the one reported |
| `Validation.FiveDigitsFailOnLength` | api/v3/TaxDeclarationYear/Load.php:242-243 | "12345" is refused with "Year has to have 4 digits" |
| `Validation.ZeroIsEmpty` | api/v3/TaxDeclarationYear/Load.php:239-240 | "0" is refused as empty |
| `Validation.MissingYearReported` | api/v3/TaxDeclarationYear/Load.php:236-237 | without a `year` key the mandatory-parameter message is reported |
| `Validation.ExponentYearAccepted` | api/v3/TaxDeclarationYear/Load.php:245 | "1e10" passes validation: the numeric check is looser than "all digits" |
| `Validation.DecimalYearAccepted` | api/v3/TaxDeclarationYear/Load.php:245 | "12.5" passes validation |
| `Donor.ClampToMax` | api/v3/TaxDeclarationYear/Load.php:129-131 | the clamped amount is the smaller of the total and the maximum |
| `Donor.PullDonorData` | api/v3/TaxDeclarationYear/Load.php:171-190 | the name is always the display name; Individual gets the label Person and Household the label Husholdning, both with the person number; Organization gets Organisasjon with the organisation number; any other type leaves label and number unset |
| `Donor.GetDonorData` | api/v3/TaxDeclarationYear/Load.php:155-164 | a failed lookup yields donor data with no key set; a found contact yields exactly `PullDonorData` of that contact |
| `Donor.ValidateData` | api/v3/TaxDeclarationYear/Load.php:275-280 | accepts donor data exactly when its number is set, is not "" and is not "0" |
| `Donor.GetCustomData` | api/v3/TaxDeclarationYear/Load.php:205-211 | a contact with a custom-field row gets its two numbers; one without gets two empty strings |
| `Donor.SetOppgaveParams` | api/v3/TaxDeclarationYear/Load.php:123-149 | below the minimum there are no parameters (and no lookup); a built record has the run's year, the candidate's contact, today's date, a known donor label and a non-empty number; its amount is the total or the maximum and never above the maximum; an unknown contact gets no record |
| `Donor.RecordBuiltIff` | api/v3/TaxDeclarationYear/Load.php:128-146 | a record is built exactly when the total reaches the minimum, the contact is found and the identifier of its type is not empty to PHP |
| `Donor.RecordFollowsContactType` | api/v3/TaxDeclarationYear/Load.php:173-188 | a record's donor name is the display name; its label is Person, Husholdning or Organisasjon exactly for Individual, Household or Organization; its number is the organisation number for organisations and the person number otherwise |
| `Donor.ClampLaw` | api/v3/TaxDeclarationYear/Load.php:128-142 | a written amount equals the total when the total is at most the maximum, and equals the maximum when it is above it |
| `Donor.IndividualScenario` | api/v3/TaxDeclarationYear/Load.php:123-143 | an individual with total 5000, limits 500/20000 and person number "12345" gets the record (2023, contact, Person, name, "12345", 5000, today) |
| `Donor.AboveMaximumScenario` | api/v3/TaxDeclarationYear/Load.php:128-143 | a total of 30000 against a maximum of 20000 is written as 20000 |
| `Donor.EmptyPersonNumberScenario` | api/v3/TaxDeclarationYear/Load.php:134-146 | an individual with an empty person number gets no record |
| `Batch.IsSelection` | api/v3/TaxDeclarationYear/Load.php:56-61 | the rows the selection query may return: at most 1000, none for a contact already marked for the year, every sum at least the minimum, one row per contact |
| `Batch.RecordCount` | api/v3/TaxDeclarationYear/Load.php:101-114 | the COUNT(*) of rows for a contact and year is positive exactly when such a row exists |
| `Batch.UniqueKeysAtMostOne` | api/v3/TaxDeclarationYear/Load.php:101-114 | in a table without duplicate keys every contact and year has at most one row |
| `Batch.OppgaveAfterCandidate` | api/v3/TaxDeclarationYear/Load.php:79-93 | one candidate appends at most one row and changes no existing row; a contact that already has a record is skipped; a duplicate-free table stays duplicate-free |
| `Batch.OppgaveAfterBatch` | api/v3/TaxDeclarationYear/Load.php:35-40 | a batch appends at most one row per candidate, leaves every existing row as it was, and keeps the table free of duplicate (contact, year) keys |
| `Batch.BatchAddsOnlyBuiltRecords` | api/v3/TaxDeclarationYear/Load.php:79-88 | every row a batch adds is the record `setOppgaveParams` builds for one of its candidates |
| `Batch.CandidateRecordExists` | api/v3/TaxDeclarationYear/Load.php:79-93 | after one candidate, a contact and year have a record exactly when they had one or the candidate's record was built |
| `Batch.BatchRecordExists` | api/v3/TaxDeclarationYear/Load.php:35-40 | after a batch, a contact and year have a record exactly when they had one before or a record was built for one of the contact's rows in that year's batch |
| `Batch.BatchAddsNothing` | api/v3/TaxDeclarationYear/Load.php:80-92 | a batch whose every candidate already has a record or qualifies for none leaves the table unchanged |
| `Batch.BatchIdempotent` | api/v3/TaxDeclarationYear/Load.php:80-92 | running the same candidates again adds no record |
| `Batch.MarksOf` | api/v3/TaxDeclarationYear/Load.php:255-262 | the marks of a batch are exactly the (contact, year) pairs of its rows |
| `Batch.MarksOfSize` | api/v3/TaxDeclarationYear/Load.php:56-61 | rows with distinct contacts give exactly one mark each |
| `Batch.MarksAfterBatch` | api/v3/TaxDeclarationYear/Load.php:27-36 | every candidate is marked for the year; marks of other years are untouched; the year's marks are deleted only when there are no candidates, and then all of them |
| `Batch.MarkedExactlyOnce` | api/v3/TaxDeclarationYear/Load.php:56-61 | for a selection that the query can return, a non-empty batch adds exactly one new mark per row |
| `Batch.MarkedNotReselected` | api/v3/TaxDeclarationYear/Load.php:56-61 | the next selection for the year, made against the marks this batch leaves, returns none of its contacts, whether or not they got a record; they can be selected again only after an empty run resets the year's marks |
| `Batch.LoadMessage` | api/v3/TaxDeclarationYear/Load.php:27-32 | "All contacts for tax year Y processed" for an empty batch, "Batch of 1000 contacts for tax year Y processed, you need to do more runs!" otherwise |
| `Batch.LoadMessageOnlyByEmptiness` | api/v3/TaxDeclarationYear/Load.php:27-34 | the returned message depends only on whether the batch was empty; a partial batch reports "Batch of 1000" like a full one |
| `Store.OppgaveTables.ContactExistsInOppgave` | api/v3/TaxDeclarationYear/Load.php:101-114 | true exactly when the table holds a row for the contact and year |
| `Store.OppgaveTables.SetProcessed` | api/v3/TaxDeclarationYear/Load.php:255-262 | adds the (contact, year) mark and changes nothing else |
| `Store.OppgaveTables.ResetProcessed` | api/v3/TaxDeclarationYear/Load.php:264-267 | deletes exactly the marks of the year |
| `Store.OppgaveTables.CreateContactOppgave` | api/v3/TaxDeclarationYear/Load.php:79-93 | the table becomes `OppgaveAfterCandidate` of the old table |
| `Store.OppgaveTables.CreateSkatteinnberetninger` | api/v3/TaxDeclarationYear/Load.php:219-225 | the year's status becomes 2; other years keep theirs |
| `Store.OppgaveTables.ProcessCandidates` | api/v3/TaxDeclarationYear/Load.php:35-40 | the loop marks every row and leaves the table as `OppgaveAfterBatch` of the old one |
| `Store.OppgaveTables.LoadYear` | api/v3/TaxDeclarationYear/Load.php:25-41 | for a valid year: the message by emptiness, the marks as `MarksAfterBatch`, the table as `OppgaveAfterBatch`, status 2 for the year, one new mark per row, no duplicate keys introduced |
| `Store.OppgaveTables.Load` | api/v3/TaxDeclarationYear/Load.php:22-43 | an invalid year yields its validation message and changes no table; a valid one runs `LoadYear` for it |

## Left out

- SQL and the database layer are not modelled: `CRM_Core_DAO::executeQuery`, parameter type tags and the cursor (`$dao->N`, `fetch`). The tables are fields of `OppgaveTables`, and the selection's rows are an input.
- The contribution aggregation is not modelled: the date range, status 1, `SUM(total_amount - non_deductible_amount)`, `GROUP BY` and `LIMIT`. `IsSelection` states what its rows satisfy. It does not state that the selection is complete, so "an empty batch means no contact is left" is not captured.
- Store failures are not modelled. One example is the query layer refusing a year like "12.5" as a `Positive` parameter: for such a year the real call fails at the selection query with no table changed, while `Load` runs the batch. A failure in a later statement aborts the real call and leaves partial progress behind.
- `CRM_Oppgavexml_Config` is replaced by the `Config` value. `getCustomData`'s table and column lookup is replaced by the `Registry.custom` map. A NULL custom-field column is taken to be "".
- `Contact.getsingle` is modelled as a key lookup in `Registry.contacts`. Any exception it throws is a missing key.
- Logging is not modelled, and neither are `set_time_limit`, the `_spec` function or the success envelope. `date('Ymd')` is the `today` parameter. Which path writes the Error log line is kept in `OppgaveParams.NoDonorNumber`.
- `setOppgaveParams` writes the clamped amount back into `$dao->deductible_amount`. Nothing reads that field afterwards, so the model returns the clamped amount instead of updating the row in place.
- Concurrent runs are not modelled. The check-then-insert race can give duplicate records.
- Money is an integer in minor units, not a float.
- `Php.IsNumeric` follows PHP 8. Earlier PHP versions differ: PHP 5 also accepted hexadecimal strings, and versions before 8 refused trailing whitespace.
- Tables are keyed by the year string exactly as passed. The database stores the year as an integer.

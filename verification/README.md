# Verified models of the tax engines

A Dafny model of the parts of this tax platform that keep money or legal state or implement an algorithm, with proofs
of what they promise over every input and every history. `dafny verify dfyconfig.toml` checks everything.

| system | files | main results |
|---|---|---|
| QR Reed-Solomon encoder | GaloisField, Primitivity, FieldLaws, Polynomials, ReedSolomon, MinimumDistance | the table-driven product is the field product modulo 0x11D; data with its check bytes vanishes at alpha^0 .. alpha^(n-1); the check bytes are the only ones that do, and up to n/2 wrong bytes cannot be confused with another word |
| Invoice-ring detector | InvoiceRings, RingSearch | the bounded search reports exactly the reportable rings, once each up to rotation |
| NRS e-invoice lifecycle | IrnFormat, InvoiceStore, IdempotencyWindow, NrsLifecycle, IrnUniqueness, LifecycleRuns, LostInvoice | reference numbers print and parse; one idempotency key never serves two invoices inside its window; no reference number is ever signed for two invoices, through crashes, sweeps and retries; an undisturbed run confirms its invoice, and an undisturbed sweep all it lists |
| POS VAT ledger and settlement | MapSums, PosLedger, LedgerInvariants, SettlementSaga, SagaPayments, Compensation, ReceiptStore, Attribution, TransferNames, Settlement, SettlementConservation, SettlementHistories, SettlementLosses | double entry in every history, and exactly when pending totals are the open holds; a settlement pays a leg if and only if its id was not posted before, through crashes and refusals; over all histories, cut short or not, what each pool is short of against the stamped receipts, and exactly when it is nothing |
| Crypto cost basis | CostBasis, CarfEngine, EngineRuns, TradeEntries | lots are a plain first-in first-out queue of units, worth what was acquired to one kobo per disposal; the log replays to the live records |
| Pillar Two allocation | TopUpTax, IirAllocation, IirChains | who is charged for an entity and how much; two-sided rounding bound on everything charged for a jurisdiction |
| Durable outbox | Outbox, OutboxRelay | every appended envelope is waiting or delivered, whatever interleaves |
| Assessments | Assessments, AssessmentLifecycle, AssessmentClocks | every window closes on its day; status agrees with objection and appeal; finality always has a statutory cause |
| UBL tax subtotals | UblTotals | amounts survive their decimal strings; groups partition the lines |
| Rule-pack merge | RuleMerge | each decision field comes from the greatest matching rule that defines it |

Options and TruncatedDivision are shared helpers. Money is an unbounded integer; a division that truncates in the
original is written as such. Hashes behind deterministic ids are function parameters that are injective; the texts that
are hashed are modelled as they are. Clocks, identifiers that the system generates, outcomes of external calls and
storage faults are parameters. A log append is atomic. Where the original updates objects, the model is a class whose
methods are proved to compute the functions that the results about whole histories are stated over.

## Where the code and its promises differ

- Resume (nrs_resume.go:21-28) promises that re-driving an interrupted invoice is always safe. No second number is
  issued (`NoDoubleIssuance`), but a rival request for the same number, refused at step 3, re-points the number index
  at its own failure record (`RivalTakesIndex`), and the interrupted invoice, even a signed one, then fails when it is
  re-driven (`InterruptedLostToRival`); `SignedInvoiceIsLost` is such a history from the start. The same comment says
  that step 8 is skipped once terminal; no such test exists in the workflow, and the model follows the code.
- `ParseIRN` accepts white space in front of the date stamp, which `BuildIRN` never prints (`SpacedStampParses`);
  `BuildParse` says exactly when printing gives the parsed text back.
- A posted ledger transfer can be overwritten by an anonymous hold whose generated id a caller has used before
  (`PostedSurvives`, with a history in `PostedIsOverwritten`). A posting refused for the float limit has already
  released its hold (`RefusedPostingDrifts`), and a history of two holds and one posting reaches that refusal
  (`FloatDrifts`). Pending totals are the open holds at every point of a history if and only if no step of it is one of
  three named kinds (`PendingTotalsExact`).
- Settlement ids are hashes of tenant, period and leg joined by ':'. Two tenants whose ids and periods join to the
  same text, and only those, share them (`PendingNameSame`). The second one's VAT is then stamped as remitted and
  credited nowhere (`SharedNamesLoseVat`). Settlements that are never cut short conserve if and only if no two of them
  pay one leg under one text and number (`UninterruptedConserves`).
- A supplemental settlement that is cut short is resumed as the initial one (`SupplementResumes`). If it was cut short
  before it paid, its VAT is stamped and credited nowhere, as the initial legs are posted already
  (`InterruptedSupplementLosesVat`). If it was cut short after its posting, nothing is lost at the resume, but its
  number is given out again while its id is posted, and the next supplement's VAT is lost instead
  (`LateSupplementLosesNext`).
- An initial settlement that is cut short after a posting and resumed after a further receipt finds its leg posted at
  the old amount, and the difference is lost (`GrownResumeLosesVat`; `ResumeExact` says how much, for every resume).
  When the leg was only held, for less than is now asked, no later attempt can ever go through
  (`ShortHeldNeverFinishes`). Over every history, `ShortfallExact` says what each pool is short of.
- Compensation reverses the posted legs only when the id of a leg that must be paid was voided (`ReversesOnlyIfVoided`).
  It does so again in every attempt, since nothing tells a reversal that it has been made before
  (`EveryAttemptReverses`).
- The local share is negative for some receipts once the federal and state shares reach the whole (`LegsExact`,
  `SharesBeyondWhole`); a negative sum is skipped by the settlement.
- A sale relieves the lots or the average position when it is booked, by its method, and both when the log is replayed.
  The log replays to the live lots if and only if no weighted-average sale was covered by them (`WacSaleReplays`,
  `ReplayEqualsLive`), and to the live averages if and only if no first-in first-out sale was (`AveragesReplay`).
- A document tax that was given and not computed need not equal the subtotals (`TaxEqualsSubtotals`).

## Model

| member | source | states |
|---|---|---|
| `GaloisField.MulXorRight` | services/einvoicing/qr.go:132-137 | the product modulo 0x11D distributes over addition |
| `GaloisField.MulDoubleRight` | services/einvoicing/qr.go:122-125 | the shift-and-reduce step of the table loop is multiplication by alpha on either side |
| `GaloisField.MulAlphaPow` | services/einvoicing/qr.go:136 | powers of alpha multiply by adding exponents |
| `Primitivity.OrderOfAlpha` | services/einvoicing/qr.go:117-126 | no power of alpha below 255 is 1, so the first loop meets 255 different elements |
| `FieldLaws.EveryNonzeroIsPower` | services/einvoicing/qr.go:115-121 | every non-zero byte has a logarithm below 255 |
| `FieldLaws.MulByLogs` | services/einvoicing/qr.go:132-137 | the product of non-zero bytes is the power at the sum of their logarithms, and is not zero |
| `FieldLaws.MulCommutes` | services/einvoicing/qr.go:132-137 | the product commutes |
| `FieldLaws.MulAssociates` | services/einvoicing/qr.go:132-137 | the product associates |
| `FieldLaws.NoZeroDivisors` | services/einvoicing/qr.go:132-135 | a product is zero only if a factor is |
| `ReedSolomon.Tables.constructor` | services/einvoicing/qr.go:114-130 | initialisation leaves every power of alpha in the antilog table and its inverse in the log table |
| `ReedSolomon.Tables.FillPowers` | services/einvoicing/qr.go:118-126 | the first loop stores the first 255 powers and their logarithms |
| `ReedSolomon.Tables.FillRepeats` | services/einvoicing/qr.go:127-129 | the second loop continues the powers to 511 |
| `ReedSolomon.Tables.GfMul` | services/einvoicing/qr.go:132-137 | the table look-up is polynomial multiplication modulo 0x11D, zero included |
| `ReedSolomon.GenPolyVanishes` | services/einvoicing/qr.go:139-150 | the generator vanishes at alpha^0 .. alpha^(n-1) |
| `ReedSolomon.GenPolyMonic` | services/einvoicing/qr.go:139-150 | its leading coefficient is 1 |
| `ReedSolomon.TimesRoot` | services/einvoicing/qr.go:142-147 | one round multiplies by (x + alpha^i) |
| `ReedSolomon.RsGenPoly` | services/einvoicing/qr.go:139-150 | the loop computes the product of all n linear factors |
| `ReedSolomon.Shift` | services/einvoicing/qr.go:161-168 | one data byte is one division step on the register, in place |
| `ReedSolomon.StepKeepsRoot` | services/einvoicing/qr.go:160-169 | a division step keeps data and register a multiple of every root's factor |
| `ReedSolomon.RegisterCompletes` | services/einvoicing/qr.go:152-171 | with a monic generator that vanishes at the roots, data followed by the final register vanishes at all of them |
| `ReedSolomon.Divide` | services/einvoicing/qr.go:159-169 | the loop over the data leaves that register |
| `ReedSolomon.RsEncode` | services/einvoicing/qr.go:152-171 | for every data length the data followed by the n check bytes vanishes at all n roots |
| `MinimumDistance.Vandermonde` | services/einvoicing/qr.go:152-171 | n power sums over at most n different locators vanish only trivially |
| `MinimumDistance.CodewordsFarApart` | services/einvoicing/qr.go:152-171 | two different words of at most 255 bytes differ in more than n places |
| `MinimumDistance.CheckBytesUnique` | services/einvoicing/qr.go:152-171 | the check bytes are the only ones that complete the data |
| `MinimumDistance.UniqueDecoding` | services/einvoicing/qr.go:152-171 | with at most n/2 wrong bytes the sent word is the nearest one |
| `InvoiceRings.InMemoryGraph.AddEdge` | services/insights/app/circularity.py:39-41 | the edge is appended under its seller, both parties become nodes, all else stays |
| `InvoiceRings.BuildGraph` | services/insights/app/circularity.py:107-114 | each node's edges are the invoices it issued to somebody else, in order |
| `InvoiceRings.IssuedMembers` | services/insights/app/circularity.py:111-113 | an edge exists if and only if an invoice with two different named parties does, with its seller, buyer, number and VAT |
| `InvoiceRings.ExposureAdds` | services/insights/app/circularity.py:96 | the exposure of one invoice is its VAT, and exposures of consecutive invoices add up |
| `InvoiceRings.CanonicalDecidesRotation` | services/insights/app/circularity.py:91-95 | canonical keys agree if and only if the rings are rotations of each other |
| `RingSearch.Search.Close` | services/insights/app/circularity.py:90-98 | a closing invoice leaves its ring found if it is reportable, and what it records tells the ring's parties, invoices and total VAT |
| `RingSearch.Search.Follow` | services/insights/app/circularity.py:89-100 | after an edge every reportable ring through it is found |
| `RingSearch.Search.Dfs` | services/insights/app/circularity.py:86-100 | after a call every reportable ring that continues the walk is found |
| `RingSearch.FindCycles` | services/insights/app/circularity.py:80-104 | the report holds exactly the simple rings of 2 to max_len hops whose VAT adds up to the minimum, each with its parties, its invoices and that sum, none twice up to rotation, largest first |
| `IrnFormat.ParseBuild` | services/einvoicing/nrs_irn.go:30-83 | parsing a printed number returns the trimmed invoice number, the service id and the date stamp |
| `IrnFormat.BuildInjective` | services/einvoicing/nrs_irn.go:30-43 | different parts never print alike |
| `IrnFormat.BuildParse` | services/einvoicing/nrs_irn.go:62-83 | what parses is its parts joined, and prints back if and only if they carry no outer white space |
| `IrnFormat.SpacedStampParses` | services/einvoicing/nrs_irn.go:62-83 | a spaced stamp parses and stays in the parts |
| `IrnFormat.DateStampAccepts` | services/einvoicing/nrs_irn.go:47-58 | every calendar day is accepted, with or without hyphens between its parts, and stamped as its eight digits |
| `IrnFormat.DateExists` | services/einvoicing/nrs_irn.go:52-56 | eight digits are a date exactly when the calendar has that day, leap years included |
| `IrnFormat.BuildAccepts` | services/einvoicing/nrs_irn.go:30-43 | a number is built exactly from a non-blank invoice number, eight ASCII letters or digits, and a date |
| `IrnFormat.TrimRemovesSpace` | services/einvoicing/nrs_irn.go:30-83 | trimming takes white space off both ends and nothing else |
| `InvoiceStore.Store.constructor` | services/einvoicing/store.go:81-99 | opening rebuilds all indexes as the fold of the file |
| `InvoiceStore.Store.Put` | services/einvoicing/store.go:102-119 | indexing updates the five indexes under their keys, written out, and nothing else |
| `InvoiceStore.Store.Save` | services/einvoicing/store.go:187-248 | an accepted save appends and indexes one stamped version; a replay, a conflict or a fault changes nothing |
| `InvoiceStore.Store.PurgeExpiredIdempotencyKeys` | services/einvoicing/store.go:277-290 | exactly the keys of reported or failed invoices older than seven days go, and their number is returned |
| `IdempotencyWindow.RunKeepsInv` | services/einvoicing/store.go:187-290 | in every history the live index and the one a restart builds hold the same invoices, and whoever lost a key is expired |
| `IdempotencyWindow.OneInvoicePerWindow` | services/einvoicing/store.go:137-150 | two invoices of a tenant with one idempotency key were created more than the window apart |
| `IdempotencyWindow.UnsharedKeyIsStored` | services/einvoicing/store.go:187-248 | an invoice whose key nobody else was given in the last seven days is stored |
| `LifecycleRuns.SaveAnswers` | services/einvoicing/store.go:187-235 | a key held by another invoice of the last seven days replays it when the core is the same and conflicts when it is not; every other save goes through |
| `IrnUniqueness.LoadFaithful` | services/einvoicing/store.go:81-119 | the rebuilt indexes say what the file says |
| `IrnUniqueness.ValidateClears` | services/einvoicing/nrs_lifecycle.go:83-106 | past step 3 nobody else has ever held the number, although the index may have been re-pointed |
| `IrnUniqueness.WorkKeeps` | services/einvoicing/nrs_lifecycle.go:45-227 | every step, retry and failure of the workflow keeps one holder per number |
| `IrnUniqueness.CreateKeeps` | services/einvoicing/nrs_handlers.go:78-136 | so does every create, replay and resume-on-retry |
| `IrnUniqueness.PatchKeeps` | services/einvoicing/nrs_handlers.go:158-229 | and every update |
| `IrnUniqueness.SweepKeeps` | services/einvoicing/nrs_resume.go:108-126 | and every recovery run |
| `IrnUniqueness.NoDoubleIssuance` | services/einvoicing/nrs_resume.go:21-25 | over every history at most one invoice is ever signed with a given number |
| `IrnUniqueness.IrnNeverChanges` | services/einvoicing/nrs_lifecycle.go:62-82 | an invoice never gets a second number |
| `LifecycleRuns.RunConfirms` | services/einvoicing/nrs_lifecycle.go:45-227 | an undisturbed run on an invoice of any status whose number and key are its own ends idle after seven activities, with the invoice confirmed under its number and signed over its core, and nothing else touched |
| `LifecycleRuns.RequestIsConfirmed` | services/einvoicing/nrs_handlers.go:78-136 | so a request for an unused number ends confirmed under the number built from its parts |
| `LifecycleRuns.SweepConfirmsAll` | services/einvoicing/nrs_resume.go:108-126 | and an undisturbed recovery sweep confirms every invoice it has listed |
| `LifecycleRuns.SweepLists` | services/einvoicing/nrs_resume.go:108-126 | which are exactly the received, signed and transmitted ones |
| `LifecycleRuns.FailedCallEnds` | services/einvoicing/nrs_lifecycle.go:38-42 | a failed external call ends the run with the invoice recorded as failed |
| `LifecycleRuns.ValidateRefuses` | services/einvoicing/nrs_lifecycle.go:83-106 | so does a number that does not parse, belongs to another invoice number or date, or to another holder |
| `LifecycleRuns.ConfirmRefuses` | services/einvoicing/nrs_lifecycle.go:194-209 | and a stored version with another number or core than was signed |
| `LifecycleRuns.AnnouncementFails` | services/einvoicing/nrs_lifecycle.go:210-227 | a confirmation that cannot be announced is tried again on the confirmed invoice, until given up and recorded as failed |
| `LifecycleRuns.RepeatResumes` | services/einvoicing/nrs_handlers.go:78-136 | a request that repeats a number or a key resumes the invoice it names if that is mid-flow, and stores nothing |
| `LifecycleRuns.PatchStores` | services/einvoicing/nrs_handlers.go:158-229 | an update stores the payment status and reference it brings, keeps those it does not, and touches neither number, core nor status |
| `IrnUniqueness.RivalTakesIndex` | services/einvoicing/nrs_lifecycle.go:38-42 | a refused rival's failure record takes over the number index |
| `IrnUniqueness.InterruptedLostToRival` | services/einvoicing/nrs_resume.go:108-126 | a re-driven invoice passes step 3 if and only if the index still points at it, and else is marked failed |
| `LostInvoice.SignedInvoiceIsLost` | services/einvoicing/nrs_resume.go:108-126 | the history written out, from the start: an invoice is signed, the process crashes, a rival for the number is refused and takes over the number index, and the sweep marks the signed invoice failed |
| `PosLedger.DevLedger.Transfer` | services/pos-vat/ledger.go:251-263 | a transfer posts both sides under its name, or is refused without effect |
| `PosLedger.DevLedger.PendingTransfer` | services/pos-vat/ledger.go:265-287 | a hold is idempotent for the same order, refused for a different one, and else raises both pending totals |
| `PosLedger.DevLedger.PostPending` | services/pos-vat/ledger.go:289-310 | posting turns a hold into posted amounts; a float refusal has released the hold |
| `PosLedger.DevLedger.VoidPending` | services/pos-vat/ledger.go:312-324 | voiding releases a hold |
| `LedgerInvariants.DoubleEntry` | services/pos-vat/ledger.go:234-352 | in every history posted and pending debits equal credits and float accounts never exceed their credits |
| `LedgerInvariants.PostedSurvives` | services/pos-vat/ledger.go:246-287 | a posted transfer stays posted except under one exact condition on generated names |
| `LedgerInvariants.PostedIsOverwritten` | services/pos-vat/ledger.go:246-287 | from the empty ledger: a posting under a generated name is turned into a pending transfer by an anonymous hold |
| `LedgerInvariants.PostedIsFinal` | services/pos-vat/ledger.go:246-324 | with callers' own names posted is final over whole histories |
| `LedgerInvariants.MatchesIffNoDrift` | services/pos-vat/ledger.go:251-324 | from a ledger whose pending totals are its open holds, a call keeps them so if and only if it is not a transfer or anonymous hold that overwrites an open hold, nor a posting refused for the float limit |
| `LedgerInvariants.PendingTotalsExact` | services/pos-vat/ledger.go:234-324 | over every history, pending totals are the open holds at every point if and only if no call is of those kinds |
| `LedgerInvariants.CarefulNeverDrifts` | services/pos-vat/ledger.go:234-324 | none is when callers use their own names and put no hold on a float account |
| `LedgerInvariants.RefusedPostingDrifts` | services/pos-vat/ledger.go:289-310 | a posting refused for the float limit leaves the debit account's and the credit account's pending total short by exactly the hold |
| `LedgerInvariants.FloatDrifts` | services/pos-vat/ledger.go:265-310 | from the empty ledger: two holds on a funded float account and one posting lead to such a refusal |
| `SettlementSaga.NextKeepsInv` | services/pos-vat/handlers.go:402-456 | every step, crash and refusal leaves the ledger the initial one plus exactly the legs as far as each has come |
| `SettlementSaga.PostsOnce` | services/pos-vat/handlers.go:358-459 | no leg is posted twice, none is reversed, and success means every positive leg has credited its pool |
| `SettlementSaga.AlwaysResumable` | services/pos-vat/handlers.go:402-459 | after any history one undisturbed attempt settles the period |
| `SagaPayments.PaysUnlessPosted` | services/pos-vat/handlers.go:402-459 | unless an id was voided or used for another pair of accounts: when an attempt succeeds, a positive leg's pool has been credited its amount if and only if the id was not posted before, and nothing otherwise; nothing is reversed |
| `SagaPayments.ShortHeldNeverFinishes` | services/pos-vat/ledger.go:296-298 | a leg held for less than is asked is refused in every later attempt |
| `SagaPayments.CanFinish` | services/pos-vat/handlers.go:402-459 | some attempt succeeds if and only if no positive leg is held for less than it asks |
| `Compensation.ReversesOnlyIfVoided` | services/pos-vat/handlers.go:421-447 | on any ledger and after any history, a reversal means that a leg there was something to pay for had been voided |
| `Compensation.AttemptReverses` | services/pos-vat/handlers.go:402-447 | an undisturbed attempt at a voided leg behind posted ones fails and debits each posted leg's pool by its amount |
| `Compensation.EveryAttemptReverses` | services/pos-vat/handlers.go:434-447 | n attempts debit each of those pools n times |
| `ReceiptStore.Store.constructor` | services/pos-vat/store.go:157-173 | opening replays the log |
| `ReceiptStore.Store.PutReceipt` | services/pos-vat/store.go:175-196 | a new receipt is logged, stored and listed once; a known one is left alone |
| `ReceiptStore.Store.MarkReceiptsSettled` | services/pos-vat/store.go:201-222 | exactly the named receipts are stamped and logged again |
| `ReceiptStore.UnsettledListedOnce` | services/pos-vat/store.go:157-222 | after any ingests, stamps and restarts an unsettled receipt is listed exactly once and the log's last versions are the receipts |
| `ReceiptStore.ListingIsExact` | services/pos-vat/store.go:231-252 | adding up unsettled VAT along a tenant's list counts each receipt once |
| `Attribution.RoundsToNearest` | services/pos-vat/handlers.go:21-26 | the rounding is the nearest integer, ties away from zero, and only that |
| `Attribution.LegsExact` | services/pos-vat/handlers.go:163-188 | the legs add up to the VAT in every mode, the federal and the state one being their shares to the nearest kobo; the local one is negative if and only if the shares exhaust the whole and both round a tie up |
| `Attribution.ShadowMirrors` | services/pos-vat/handlers.go:170-186 | the shadow view is the shares in federal mode, all federal in the dual mode, and empty otherwise |
| `Attribution.SharesBeyondWhole` | services/pos-vat/handlers.go:164-169 | shares beyond the whole make it negative |
| `TransferNames.PendingNameSame` | services/pos-vat/handlers.go:359-365 | two pending names are equal if and only if tenant and period join to the same text and leg and supplement number agree |
| `TransferNames.JoinedColonFree` | services/pos-vat/handlers.go:363-365 | without ':' in the tenant ids the text determines tenant and period |
| `TransferNames.JoinedAmbiguous` | services/pos-vat/handlers.go:363-365 | with ':' two tenants join alike |
| `Settlement.Aggregate` | services/pos-vat/handlers.go:257-287 | the loop selects exactly the listed unsettled receipts whose capture date starts with the period, and sums their VAT, their legs and what platforms collected |
| `SettlementConservation.StepShort` | services/pos-vat/handlers.go:319-345 | every step moves what a pool is short of by the amount stamped over a leg that is posted already, less the amount posted by an attempt that is cut short |
| `SettlementConservation.RunStamps` | services/pos-vat/handlers.go:325-329 | a run stamps each of its receipts once and no other |
| `SettlementConservation.StampedInPeriod` | services/pos-vat/handlers.go:263-287 | over every history a recorded settlement of a period has stamped only receipts of its tenant whose capture date starts with the period |
| `SettlementConservation.PeriodIsCleared` | services/pos-vat/handlers.go:263-329 | and when it goes through it leaves none of them unsettled |
| `SettlementConservation.ShortfallExact` | services/pos-vat/handlers.go:241-345 | over every history of ingests and attempts, what a pool's credits fall short of the stamped parts is the sum of the former less the sum of the latter; so when nothing is lost, and when the pool is exact |
| `SettlementConservation.ConservesExactly` | services/pos-vat/handlers.go:241-345 | the pools hold exactly the stamped parts at every point of a history if and only if no settlement goes through over a posted leg with something to pay and none is cut short after a posting; each stamped receipt is in exactly one settlement |
| `SettlementHistories.UninterruptedConserves` | services/pos-vat/handlers.go:241-345 | when nothing is cut short, the pools are exact at the end, and throughout, if and only if no two settlements of one joined text and number pay the same leg |
| `SettlementHistories.SettlementConserves` | services/pos-vat/handlers.go:241-345 | so when different tenants and periods join apart, each pool holds exactly its parts of the stamped receipts, together their VAT |
| `SettlementHistories.EmptyPeriod` | services/pos-vat/handlers.go:288-291 | a request for a period without receipts changes nothing |
| `SettlementHistories.NothingNew` | services/pos-vat/handlers.go:292-313 | nor does one for a settled period without new receipts |
| `SettlementHistories.SomethingToSettle` | services/pos-vat/handlers.go:309-324 | any other one is attempted, and the marker says whether it went through |
| `SettlementHistories.IngestRecords` | services/pos-vat/handlers.go:150-160 | a new receipt is stored as it came, with its attribution, unsettled |
| `SettlementLosses.ResumeExact` | services/pos-vat/handlers.go:402-419 | an initial settlement that is cut short and resumed after any receipts adds to a pool's shortfall exactly what the leg asks for now less what was posted, if it was posted, and nothing otherwise |
| `SettlementLosses.SupplementResumes` | services/pos-vat/handlers.go:309-313 | a supplement that is cut short resumes as the initial settlement: it gains what it had posted itself and misses what the initial one had posted |
| `SettlementLosses.SharedNamesLoseVat` | services/pos-vat/handlers.go:363-365 | from the start: two tenants that join alike settle x and y, x + y is stamped and x credited |
| `SettlementLosses.InterruptedSupplementLosesVat` | services/pos-vat/handlers.go:309-313 | from the start: x is settled, the supplement of y is cut short before it pays and resumed; x + y is stamped and x credited |
| `SettlementLosses.GrownResumeLosesVat` | services/pos-vat/handlers.go:402-419 | from the start: the settlement of x is cut short after its posting and resumed with a further y; x + y is stamped and x credited |
| `SettlementLosses.LateSupplementLosesNext` | services/pos-vat/handlers.go:309-313 | from the start: the supplement of y is cut short after its posting and resumed, x + y is stamped and credited; the next supplement's z is stamped and not credited |
| `CostBasis.Relieve` | services/vasp-carf/engine.go:280-309 | the loop fails without effect when the position is short, and else splits the lots in first-in first-out order and values what it took |
| `CostBasis.Position` | services/vasp-carf/engine.go:424-429 | the report sums quantities and values of the open lots |
| `CostBasis.AmountRoundsDown` | services/vasp-carf/engine.go:163-166 | an amount is thousandths of an asset times the price of a whole one, rounded down to a kobo |
| `CostBasis.BasisOfFirstUnits` | services/vasp-carf/engine.go:280-309 | the basis of a disposal is what exactly the first units cost, short by less than a kobo per lot touched |
| `CostBasis.RelievesFirstUnits` | services/vasp-carf/engine.go:291-307 | relief removes exactly the first units of the flattened queue |
| `CostBasis.ReliefLoss` | services/vasp-carf/engine.go:163-166 | relieved and remaining basis are the old basis or one kobo less |
| `CarfEngine.Engine.constructor` | services/vasp-carf/engine.go:94-161 | opening replays the log |
| `CarfEngine.Engine.ConsumeBasis` | services/vasp-carf/engine.go:280-309 | one position is relieved in place, or nothing changes |
| `CarfEngine.Engine.IngestTrade` | services/vasp-carf/engine.go:169-205 | a trade is refused, a duplicate, recorded, or booked with its gain or loss, and logged as such |
| `CarfEngine.Engine.IngestTransfer` | services/vasp-carf/engine.go:329-375 | a transfer takes its value from the latest snapshot if it has none, then acquires or disposes, and is logged |
| `CarfEngine.Engine.AddFmv` | services/vasp-carf/engine.go:378-387 | a snapshot is kept and logged |
| `EngineRuns.RecordsReplay` | services/vasp-carf/engine.go:125-161 | in every run the log replays to the live trades, transfers, snapshots and ledger |
| `EngineRuns.ReplayEqualsLive` | services/vasp-carf/engine.go:125-218 | over every run the log replays to the live lots and records at every point if and only if no step is a booked weighted-average sale that the lots could cover |
| `EngineRuns.LotsAreQueue` | services/vasp-carf/engine.go:234-309 | at every point of a run without a restart after such a sale a position is all units that came in, in order, less the first ones that went out |
| `EngineRuns.BasisKept` | services/vasp-carf/engine.go:163-309 | and relieved plus held basis is at most what was acquired and short of it by at most one kobo per disposal |
| `EngineRuns.LedgerExplained` | services/vasp-carf/engine.go:247-277 | every ledger entry is proceeds less basis, and a disposal names a stored sale whose value less fee are its proceeds |
| `TradeEntries.FifoEntry` | services/vasp-carf/engine.go:247-277 | a booked first-in first-out sale: quantity times price less fee, the cost of the first units, and their difference |
| `TradeEntries.AverageEntry` | services/vasp-carf/engine.go:311-326 | a booked weighted-average sale takes the sold fraction of the average cost, rounded down, and all of it when all is sold |
| `TradeEntries.AverageAcquires` | services/vasp-carf/engine.go:234-244 | a purchase adds its quantity and its amount to the average position |
| `TradeEntries.BuyThenSell` | services/vasp-carf/engine.go:163-277 | n whole assets bought at p and sold at s gain n (s - p) less the fee, by either method |
| `TradeEntries.LatestSnapshotValues` | services/vasp-carf/engine.go:346-400 | a transfer without a value takes the price of the last snapshot of its asset, and of no other |
| `TradeEntries.WithdrawalEntry` | services/vasp-carf/engine.go:352-369 | a withdrawal is booked as a disposal at its value |
| `TradeEntries.PositionsApart` | services/vasp-carf/engine.go:234-236 | without '\|' in their names, tenants and users have positions of their own per asset, whatever its case |
| `EngineRuns.WacSaleReplays` | services/vasp-carf/engine.go:207-218 | after a weighted-average sale the log is faithful if and only if the lots could not have covered it |
| `EngineRuns.AveragesReplay` | services/vasp-carf/engine.go:125-218 | over every run the log replays to the live averages at every point if and only if no step is a booked first-in first-out sale that the average position could cover |
| `TopUpTax.TopUpBelowMinimum` | services/etr/app/engine.py:142-160 | there is a top-up percentage if and only if the taxes fall short of the minimum rate on the income, and the top-up is its floor on the excess profit |
| `TopUpTax.PercentageIsShortfall` | services/etr/app/engine.py:152-154 | the percentage is the minimum rate less the effective rate, which is taxes over income rounded down |
| `TopUpTax.FiguresAdd` | services/etr/app/engine.py:142-144 | income and taxes add up over the entities on the basis asked for, taxes pushed down included |
| `TopUpTax.CarveOutRoundsDown` | services/etr/app/engine.py:138-140 | the carve-out is payroll and assets at their rates, each rounded down |
| `TopUpTax.DomesticTakesAll` | services/etr/app/engine.py:170-176 | the domestic tax, where in force, takes the whole top-up, and with the residual makes it up |
| `TopUpTax.BestBasis` | services/etr/app/engine.py:138-163 | the basis kept is the first with the highest top-up |
| `TopUpTax.FloorsOfSum` | services/etr/app/engine.py:138-140 | flooring each of k terms falls short of flooring the sum by at most k - 1 |
| `IirAllocation.CarveOutLoss` | services/etr/app/engine.py:192-193 | the entities' own carve-outs fall short of the jurisdiction's by at most 2 (k - 1) |
| `IirAllocation.ShareBounds` | services/etr/app/engine.py:186-198 | the shares exceed R - k always, and R by at most 2 (k - 1) pct / 10000 when every entity covers its carve-out |
| `IirChains.Parents` | services/etr/app/engine.py:199-204 | the walk collects the parents up to the top |
| `IirChains.Walk` | services/etr/app/engine.py:218-224 | the second walk is the line from the entity up to the target |
| `IirChains.AllocateShare` | services/etr/app/engine.py:205-240 | the share goes to the entity, its first partially-owned parent with the remainder to the top, or the top |
| `IirChains.WholeShare` | services/etr/app/engine.py:205-233 | a partially-owned entity is charged its own share; without a partially-owned parent the ultimate parent is charged all of it |
| `IirChains.PopeTakesItsPart` | services/etr/app/engine.py:213-240 | the nearest partially-owned parent is charged the part that the owners in between own, for a direct parent the entity's own ownership, and the ultimate parent the rest |
| `IirChains.EffectiveIsProduct` | services/etr/app/engine.py:216-227 | effective ownership is the product of the ownerships up the line, less than one unit per link below it and never above |
| `IirChains.EffectiveShrinks` | services/etr/app/engine.py:216-227 | it never grows with the line, and is the whole under full ownership |
| `IirChains.ShareIsCharged` | services/etr/app/engine.py:205-240 | whoever has somewhere to charge has exactly its share charged, in parts between nothing and all of it |
| `IirChains.ChargeJurisdiction` | services/etr/app/engine.py:186-240 | the loop charges every member with a positive share, and nothing when nothing is left |
| `IirChains.ChargesTotal` | services/etr/app/engine.py:186-240 | everything charged is the shares of the chargeable members |
| `IirChains.ChargedWithinBounds` | services/etr/app/engine.py:183-240 | the total charged stays within both bounds of the residual top-up |
| `Outbox.RowsAreLatest` | packages/shared/envelope/envelope.go:194-228 | the folded rows are exactly the last ones written, one per number |
| `Outbox.DurableOutbox.constructor` | packages/shared/envelope/envelope.go:152-166 | numbering continues after the largest number found |
| `Outbox.DurableOutbox.Publish` | packages/shared/envelope/envelope.go:169-175 | one pending row is appended under the next number |
| `Outbox.DurableOutbox.ReadRows` | packages/shared/envelope/envelope.go:194-228 | the map and order of the fold give the rows |
| `Outbox.DurableOutbox.Mark` | packages/shared/envelope/envelope.go:231-246 | the latest row of a number is appended with its new status, or nothing when there is none |
| `OutboxRelay.DrainAll` | packages/shared/envelope/envelope.go:257-275 | the loop visits the snapshot, delivers what the bus takes, marks every visited row and counts the deliveries |
| `OutboxRelay.CrashKeeps` | packages/shared/envelope/envelope.go:152-166 | a restart finds the numbering where it was |
| `OutboxRelay.AtLeastOnce` | packages/shared/envelope/envelope.go:152-275 | over every interleaving numbers stay unique and each appended envelope is waiting or has reached its topic |
| `OutboxRelay.DrainEmpties` | packages/shared/envelope/envelope.go:257-275 | while the bus accepts, one drain leaves no row waiting |
| `OutboxRelay.DrainExact` | packages/shared/envelope/envelope.go:257-275 | whatever the bus answers, every waiting row gets one more attempt and its status, published rows stay, and each topic receives exactly the envelopes taken for it, in order |
| `OutboxRelay.StepsDrain` | packages/shared/envelope/envelope.go:257-275 | the interleaved steps of a drain that nothing interrupts are that drain |
| `OutboxRelay.ReplayWaits` | packages/shared/envelope/envelope.go:231-246 | a replayed row waits again |
| `Assessments.AssessmentStore.IssueAssessment` | services/filings/app/assessment.py:105-128 | a positive amount of a known kind, served on a known channel, opens an assessment under a new number |
| `Assessments.AssessmentStore.FileObjection` | services/filings/app/assessment.py:134-174 | an objection is filed once, in time, with grounds and an admitted amount within the assessed one |
| `Assessments.AssessmentStore.DecideObjection` | services/filings/app/assessment.py:176-212 | a pending objection in time gets its outcome, the amount follows it, and a rejection opens the appeal window |
| `Assessments.AssessmentStore.AppealToTat` | services/filings/app/assessment.py:215-242 | an appeal is filed in its window |
| `Assessments.AssessmentStore.RecordTatDecision` | services/filings/app/assessment.py:244-269 | the tribunal's decision makes the assessment final at its amount |
| `Assessments.AssessmentStore.Demand` | services/filings/app/assessment.py:273-302 | only a final, unexpired assessment is demanded; an expired one is marked |
| `Assessments.AssessmentStore.Advance` | services/filings/app/assessment.py:317-365 | one assessment is advanced by whichever of its clocks has run out |
| `Assessments.AssessmentStore.Sweep` | services/filings/app/assessment.py:305-367 | every stored assessment is visited once and advanced, and none is left overdue |
| `AssessmentLifecycle.StepKeepsInv` | services/filings/app/assessment.py:105-367 | every operation keeps links, status and amounts in agreement |
| `AssessmentLifecycle.PendingMatchesStatus` | services/filings/app/assessment.py:134-269 | pending objections and appeals belong to assessments in the matching status or statute-barred |
| `AssessmentLifecycle.OneOfEach` | services/filings/app/assessment.py:134-242 | no assessment has two objections or two appeals |
| `AssessmentLifecycle.FinalHasCause` | services/filings/app/assessment.py:176-367 | a final assessment has a lapsed window, an upheld objection or a decided appeal behind it |
| `AssessmentLifecycle.AmountExplained` | services/filings/app/assessment.py:176-362 | the amount is what was issued until an objection is upheld or the tribunal decides, and then exactly the admitted amount, the lower one a partial decision named, or the one a variation named; only a variation can exceed what was issued |
| `AssessmentClocks.ObjectionWindow` | services/filings/app/assessment.py:134-174 | an admissible objection is accepted up to 30 days after service and not later |
| `AssessmentClocks.DecisionWindow` | services/filings/app/assessment.py:176-186 | a decision is accepted up to 90 days after filing and not later |
| `AssessmentClocks.DecisionLapses` | services/filings/app/assessment.py:341-364 | after that the objection is deemed upheld at the admitted amount, and referred |
| `AssessmentClocks.AppealWindow` | services/filings/app/assessment.py:197-228 | an appeal is accepted up to 30 days after the rejection, and later the assessment becomes final |
| `AssessmentClocks.ObjectionLapses` | services/filings/app/assessment.py:333-340 | without an objection an assessment becomes final after its 30 days and not before |
| `AssessmentClocks.DemandAnswers` | services/filings/app/assessment.py:273-302 | a demand answers the current amount of a final assessment within its limitation period, and nothing otherwise |
| `UblTotals.MustKoboReadsBack` | services/einvoicing/ubl.go:230-237 | reading an amount back undoes printing it, for every integer |
| `UblTotals.PrintsTwoDecimals` | services/einvoicing/ubl.go:230-237 | an amount prints as whole naira, a point and exactly two digits of kobo |
| `UblTotals.Subtotals` | services/einvoicing/ubl.go:191-210 | the loop leaves one group per category and rate, in first-seen order, holding the sums of its lines |
| `UblTotals.SubtotalsAddUp` | services/einvoicing/ubl.go:193-210 | the groups' tax amounts add up to the lines' VAT |
| `UblTotals.Normalise` | services/einvoicing/model.go:151-175 | lines get their defaults and VAT, and net, tax and payable totals that were left zero are computed |
| `UblTotals.NormalLineFigures` | services/einvoicing/model.go:152-167 | the defaults of a line, its total from quantity and unit price, and its VAT to the nearest kobo |
| `UblTotals.TaxEqualsSubtotals` | services/einvoicing/ubl.go:207-210 | the document tax equals the subtotals if and only if it was computed or given right |
| `RuleMerge.Match` | packages/shared/rulepack/rulepack.go:305-313 | a rule matches if and only if all its clauses hold, whatever order they are tried in |
| `RuleMerge.Overwrite` | packages/shared/rulepack/rulepack.go:342-347 | applying a rule overwrites its fields, never the precedence key, whatever order they come in |
| `RuleMerge.Evaluate` | packages/shared/rulepack/rulepack.go:319-350 | a field is decided if and only if a matching rule defines it, and by the winning one; the trace says which rules matched |
| `RuleMerge.WinnerExists` | packages/shared/rulepack/rulepack.go:315-318 | exactly one rule wins a defined field, and with equal precedences it is the last in the file |
| `RuleMerge.PrecedenceOf` | packages/shared/rulepack/rulepack.go:45-61 | a rule's own precedence counts before the one among its effects, which is truncated; with neither it is 0 |

## Left out

- HTTP, JSON, YAML and XML, role checks, the Postgres and Kafka back ends, key management, telemetry and the portal.
- Signatures, HMACs and digests: an invoice's locked core fields stand for their digest, and ids are injective hashes.
- QR payload framing, block interleaving, matrix drawing and SVG: fixed layouts for six versions.
- Invoices written by the REST, B2C and MBS paths, which store reference numbers without the test of step 3.
- Two lifecycle runs at the same time: requests, sweeps and runs do not interleave in the model; crashes come anywhere.
- The lifecycle's steps are functions on a machine state, not updates of an invoice object in place; the store is a class.
- Exactly-once confirmation events: the workflow re-runs all steps on resume.
- Loss of acknowledged receipts between two disk flushes of the group commit, and int64 overflow.
- The order of rings with equal exposure beyond what descending order says.
- A crash between the settled marker and the stamps of a settlement, a ledger call that takes effect but reports an
  error, two settlement runs at once, and a restart between settlements (the markers are not read back): settlements
  may be cut short anywhere inside the saga, in one process.
- The accumulated amounts of the settled marker.
- Agreement of first-in first-out and weighted-average quantities.
- Upper-casing of asset names beyond ASCII letters, and memo texts; names containing '|', which can share a position.
- The scope test, basis adjustments and CFC push-down of the Pillar Two computation, which are one formula each; the
  pushed-down taxes are a parameter.
- Calendar arithmetic of limitation periods: the limitation day is part of the assessment.
- History entries of an assessment other than the day a window lapsed, and the texts of objections and appeals.
- The comparison operators of a when-clause: one clause's test against the context is a parameter.
- Rendering of the rest of a UBL document.

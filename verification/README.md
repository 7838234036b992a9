# Verification of the billing engine

A Dafny model of the Open Finance billing engine in `packages/billing/src` and of the approval table beside it, with
proofs that hold for every input, every run or every interleaving. `dafny verify dfyconfig.toml` checks all of it.

The engine is integer arithmetic over lists and insertion-ordered maps. Each loop that pushes, accumulates or updates
a map is a method here, proved equal to a specification function; each promise is then a lemma about that function.

- `Collections`, `Money`, `Journals`: sequence vocabulary and grouping, half-up division, double entry.
- `PayableReconciliation` with `ReconciliationTheorems`, `ReconciliationVerdicts`, `ReconciliationRollup`,
  `ReconciliationInputs`, `ReconciliationMateriality`, `BreakMeanings`, `RunFigures`, `SplitRows`: the three-way match
  of provider documents against the expectation. What is billed and what is expected is accounted for exactly once;
  every break is explained from the documents and the expectation; no break is raised exactly when the inputs are
  clean, however charges are broken over rows; rows add up to the run; every break is material exactly when every
  one-sided amount is.
- `Metering` with `MeteringTheorems`, `MeteredLines`: deduplication, total order, greedy pairing, allowances, and what
  each line says of its event. Delivery order and repetition do not matter; the pairing is maximal and at least half
  of any assignment; allowances are used exactly.
- `Pricing` with `PricingTheorems`, `BatchCaps` with `CappedBatches`, `Rating` with `RatedStatements`, `RatingRun`:
  the price of a line, capped batches updated in place, statements and rebilled services, and a whole rating run.
- `Memo` with `MemoLines`, `ExpectedCost` with `CostLines`: the expected memo, its comparison with the scheme's, the
  expected cost statement, and the agreement of their totals with the rating's.
- `PayableLedger` with `LedgerFigures`: every run of accruals, acceptances and settlements, on accounts that may
  change from call to call, and what it leaves on each account of what its steps were handed.
- `Settlements`, `NetSettlements` with `SettlementFigures`, `Accounting` with `AccountingTheorems`, `BatchFigures`,
  `BillingCycle`: settlement decomposition, its journal, the break it raises, the close pack that reads a batch back,
  and when one period's documents can be booked.
- `Invoicing` with `InvoicingTheorems`, `IssuedDocuments`, `DocumentNames`, `Vat`, `ProviderDocuments` with
  `ParsedLines`: withholding, documents issued, the two VAT treatments, and the arithmetic of documents received.
- `Approvals`, `ApprovalService`, `ApprovalOutcomes`: the compare-and-swap claim as atomic steps, concurrent tasks
  that read, decide, claim, execute and record, and exactly when an approval lasts.
- `Paths`, `RateCardDiff` with `RateCardDiffTheorems`, `Redaction`: the diff as a faithful patch; redaction that is
  complete, idempotent and reported exactly.

Main theorems come in pairs: one says what an operation conserves or decides over all its results, the other what each
result says of the input it came from, field by field and without the function that computed it.

## Conventions

- Amounts are unbounded integers, in milli-fils or fils as in the source. The safe-integer guards are not errors here;
  a result they would refuse is simply a larger integer.
- Instants are integer milliseconds. Joined string keys (`a|b|c`) are records, and dotted paths are sequences of
  steps, so a separator inside an id or a key cannot make two of them collide.
- A JavaScript `Map` is its keys in first-insertion order together with a map. Ids are ordered by dictionary order of
  their characters, standing for `localeCompare`.
- Maps and lists that one iteration reads and the next updates are locals of the methods, as in the source. The
  journal draft, the approval table, the diff walker and the redactor are classes, and capped lines an array, because
  there the source updates one object through several calls.

## Where the code and its documentation disagree

The model follows the code.

- "Every break that exists is still material" at the defaults holds only for breaks both sides assert; a one-sided
  break exists at any amount. `EveryBreakIsMaterialExactly` says for which inputs the sentence holds;
  `DefaultsLeaveAnImmaterialBreak` is a family for which it does not.
- The query window is described as closing at its deadline and is reported open for up to a day longer
  (`WindowReportedOpen`).
- A break is described as money somebody must explain. It can be for nothing: for a settlement decomposed from
  receivables and payables exactly when cash and totals tie in whole fils, which takes a tolerance below 1,499
  milli-fils (`BreakBooksNothingExactly`, `BreakBooksSomething`, `BreakCanBookNothing`); for a net settlement exactly
  when cash and what the lines carry of the positions tie in whole fils (`NetBreakBooksNothingExactly`), which happens
  at any tolerance beside an approved adjustment (`BrokenYetForNothing`) and, without one, when a position cites no
  ledger reference or repeats its first (`MiscitedYetForNothing`).
- Approved adjustments are described as keeping the residue from being overstated; the ledger and the break still book
  them as residue, and with them whatever the references fail to carry or carry twice. In whole fils, what is booked
  is the reported residue exactly when the two cancel (`BookedResidue`).
- Invoices are described as billing what is undisputed while queried amounts are withheld. A negative line that meets
  a material variance is neither billed nor withheld: it disappears (`WithholdingConserves`, `NegativeLineIsDropped`).
- A credit note is named after its buyer and the invoice it credits, so a second credit against the same invoice makes
  the ledger refuse the whole batch (`CycleRefusedExactly`, `TwoCreditsRefuseTheBatch`).
- Acceptance is described as clearing the accrual. It reverses on the accounts of its own call: under another map the
  accrual stays where it was booked (`StrandedExactly`).
- An expected cost statement is described as the expected side of the reconciliation; it groups by more than the
  reconciliation matches on, and then is refused (`ReconcilableExactly`).
- The last share of a capped batch absorbs the rounding and can be negative, or exceed its line's own price: on the
  scheme's own card in a batch of 732 lines, or of 55,556. `LastShareExactly` says when for any prices,
  `LastEqualShareNegativeExactly` and `LastEqualShareExceedsExactly` for equal ones.
- The approval claim is described as what makes the gate hold. It does let an operation run at most once, but a
  rejection or an expiry decided on an earlier snapshot is written unconditionally: an executed request can end up
  rejected, its result erased (`ExecutedThenRejected`). `ApprovalLastsExactly` says which tasks can do that.
- Accepting an accrual twice is described as refused. The builders refuse an accrual stamped with its acceptance but
  stamp none themselves: stamping is the caller's duty. The runs of `PayableLedger` are those of a caller that does;
  `UnstampedIsAcceptedTwice` is what becomes of one that does not.
- Adding VAT back to a carved-out net recovers the gross except at remainder 10 of 21
  (`ExclusiveUndoesInclusiveExactly`).
- A provider's stated total must agree with its lines to the milli-fil although it is stated in whole fils, so a
  document whose net is not whole fils can state none: with VAT-inclusive fees in whole fils, whenever their excesses
  over multiples of 21 fils do not add up (`InclusiveTotalsCanBeStatedExactly`).
- A domestic invoice whose lines are all of ten fils or less is made by invoicing and refused by the ledger
  (`MadeDocumentRefusedExactly`).
## Model

| member | source | states |
|---|---|---|
| PayableReconciliation.ReconcilePayable | packages/billing/src/tpp-cost-reconciliation.ts:457-858 | the whole loop-and-map algorithm yields exactly the specified reconciliation, and refuses exactly for no document, a bad threshold or window, or a repeated expected match key, in that order |
| PayableReconciliation.TriageDocuments | packages/billing/src/tpp-cost-reconciliation.ts:490-527 | in-period documents are kept in order, and each other one becomes one whole-document break |
| PayableReconciliation.Aggregate | packages/billing/src/tpp-cost-reconciliation.ts:391-419 | one charge per match key of a document, in first-occurrence order, with its rows' references and figures gathered |
| PayableReconciliation.TriageLines | packages/billing/src/tpp-cost-reconciliation.ts:534-558 | penalties are accepted or refused, unmapped lines are refused, and everything else is aggregated, document by document |
| PayableReconciliation.SplitDuplicates | packages/billing/src/tpp-cost-reconciliation.ts:566-608 | the first charge of each key is primary; every later one is a break and still counts as billed |
| PayableReconciliation.MatchExpected | packages/billing/src/tpp-cost-reconciliation.ts:611-641 | the matched pairs, the two maps of leftovers and the running totals after matching by key |
| PayableReconciliation.JudgeMatches | packages/billing/src/tpp-cost-reconciliation.ts:622-667 | a matched pair is tallied for its document or becomes one variance break, by unit, net and VAT in that order |
| PayableReconciliation.MatchRecipients | packages/billing/src/tpp-cost-reconciliation.ts:674-711 | the leftovers after pairing each expected line with the only leftover charge of its fee class |
| PayableReconciliation.JudgeMateriality | packages/billing/src/tpp-cost-reconciliation.ts:813-815 | materiality is decided once for every break and nothing else about a break changes |
| PayableReconciliation.RollUp | packages/billing/src/tpp-cost-reconciliation.ts:821-836 | one row per document from its own tally and its own breaks |
| PayableReconciliation.ComputeWindow | packages/billing/src/tpp-cost-reconciliation.ts:795-799 | the window runs from the earliest issue date in period to the latest receipt of all |
| ReconciliationTheorems.AggregateConserves | packages/billing/src/tpp-cost-reconciliation.ts:391-419 | aggregation conserves units, net, VAT and every line citation |
| ReconciliationTheorems.TriageConserves | packages/billing/src/tpp-cost-reconciliation.ts:534-558 | a document is its accepted penalties, its refused lines and its charges, for every measure |
| ReconciliationTheorems.DuplicatesPartition | packages/billing/src/tpp-cost-reconciliation.ts:566-608 | each key's first charge is primary, every later one a duplicate, and together they are all charges |
| ReconciliationTheorems.MatchingPartitionsCharges | packages/billing/src/tpp-cost-reconciliation.ts:619-641 | matching files every primary charge on exactly one side |
| ReconciliationTheorems.MatchingPartitionsExpected | packages/billing/src/tpp-cost-reconciliation.ts:619-641 | matching files every expected line on exactly one side |
| ReconciliationTheorems.PairingPartitions | packages/billing/src/tpp-cost-reconciliation.ts:674-711 | recipient pairing loses and invents neither charges nor expected lines |
| ReconciliationTheorems.EverythingBilledIsAccountedForOnce | packages/billing/src/tpp-cost-reconciliation.ts:490-782 | everything billed is an accepted penalty, part of a match or in exactly one break: the sums agree for units, net, VAT and the citations of each line |
| ReconciliationTheorems.AmountsAreConserved | packages/billing/src/tpp-cost-reconciliation.ts:490-782 | for every run, the net of all document lines is accepted-penalty net plus matched net plus what the breaks state as billed; units and VAT likewise |
| ReconciliationTheorems.EverythingExpectedIsAccountedForOnce | packages/billing/src/tpp-cost-reconciliation.ts:448-456 | anything counted over the expected lines is counted exactly by the matches and the breaks that restate a line |
| ReconciliationTheorems.EachExpectedLineExactlyOnce | packages/billing/src/tpp-cost-reconciliation.ts:448-456 | each expected line is matched or restated by exactly one break, and no break restates a line nobody expected |
| ReconciliationVerdicts.PairingIsExact | packages/billing/src/tpp-cost-reconciliation.ts:674-711 | the order-dependent loop settles each fee class on its own: first leftover expectation against its only leftover charge, or nothing |
| ReconciliationVerdicts.WrongRecipientsAreUnambiguous | packages/billing/src/tpp-cost-reconciliation.ts:669-711 | a pair agrees on fee class and differs in counterparty, uses no charge twice, and no fee class keeps one unclaimed charge beside an unbilled expectation |
| ReconciliationVerdicts.NoBreaksExactlyWhenClean | packages/billing/src/tpp-cost-reconciliation.ts:431-782 | no break if and only if every document is in period, every penalty justified, every line mapped, every key charged on one document, and documents and expectation cover each other to the unit and within tolerance |
| BreakMeanings.MatchBreakIsTypedExactly | packages/billing/src/tpp-cost-reconciliation.ts:431-442 | for every run: a break that judges a match is a quantity variance exactly when the units differ, a rate variance exactly when they agree and the nets differ beyond the tolerance, a VAT variance exactly when both agree and the VAT does not |
| BreakMeanings.BreakSaysWhatItIs | packages/billing/src/tpp-cost-reconciliation.ts:490-782 | for every run: each break is explained by its type from the documents and expected lines, a missing charge, an unmatched expectation, a duplicate, an unexpected charge, a wrong recipient, an unjustified penalty, an unmapped category or an off-period document |
| BreakMeanings.MaterialityByFigures | packages/billing/src/tpp-cost-reconciliation.ts:813-815 | for every run: a break blocks exactly when its own figures differ beyond the materiality |
| BreakMeanings.PenaltiesAreAcceptedExactly | packages/billing/src/tpp-cost-reconciliation.ts:534-551 | for every run: which penalty lines are accepted and which become breaks |
| RunFigures.TotalsAreOfTheInput | packages/billing/src/tpp-cost-reconciliation.ts:785-858 | for every run: the expected total is that of the expected lines, the actual one what the period's documents charge on comparable lines, the net variance their difference, the gross one the sum over the breaks |
| RunFigures.MatchesAndBreaksNumberTheExpected | packages/billing/src/tpp-cost-reconciliation.ts:619-782 | for every run: the matched lines and the breaks about an expected line number the expected lines |
| RunFigures.RowsCountTheirBreaks | packages/billing/src/tpp-cost-reconciliation.ts:821-836 | a row counts and adds up exactly the breaks that name its document |
| RunFigures.ReportIsOfTheInput | packages/billing/src/tpp-cost-reconciliation.ts:821-858 | the report is for the period and tolerance asked about, with one row for each document in order, whose variance is the difference of its nets |
| RunFigures.RunRefusedExactly | packages/billing/src/tpp-cost-reconciliation.ts:457-489 | a run is refused exactly for having no document, a negative threshold, no query window or two expected lines of one counterparty and fee class, in that order |
| ReconciliationRollup.BreaksAreConsistent | packages/billing/src/tpp-cost-reconciliation.ts:642-781 | a break's variance is the difference of its own two nets, and a side that asserts nothing states zero |
| ReconciliationMateriality.TwoSidedBreaksAreMaterial | packages/billing/src/tpp-cost-reconciliation.ts:137-152 | with materiality at most the tolerance every break both sides assert blocks the close |
| ReconciliationMateriality.OneSidedBreaksAreJudgedByAmount | packages/billing/src/tpp-cost-reconciliation.ts:137-152 | a break one side asserts exists at any amount and blocks exactly when that amount exceeds the materiality |
| ReconciliationInputs.FiledByDocument | packages/billing/src/tpp-cost-reconciliation.ts:560-608 | a charge is primary exactly when its document is the first of the period to make it, and a duplicate exactly when an earlier one has charged its key |
| ReconciliationInputs.ChargesLeftOfRun | packages/billing/src/tpp-cost-reconciliation.ts:669-782 | the charges left over are the primary ones nobody expected, unless theirs is the only such key of its fee class and some expectation of the class is unbilled |
| ReconciliationInputs.ExpectedLeftOfRun | packages/billing/src/tpp-cost-reconciliation.ts:669-711 | the expectations left over are those nobody billed, save the first of a fee class whose only unexpected charge is paired with it |
| ReconciliationMateriality.EveryBreakIsMaterialExactly | packages/billing/src/tpp-cost-reconciliation.ts:800-815 | with materiality at most the tolerance, all breaks block exactly when every off-period document, refused line, later charge of a key, unexpected charge and unbilled expectation, read off the documents and expected lines, exceeds the materiality |
| ReconciliationMateriality.UnbilledClassCanBeImmaterial | packages/billing/src/tpp-cost-reconciliation.ts:712-740 | an expected line of a fee class nobody bills, within the materiality, is a break that does not block |
| ReconciliationMateriality.DefaultsLeaveAnImmaterialBreak | packages/billing/src/tpp-cost-reconciliation.ts:808-812 | at the defaults, beside a line billed to the unit, an unbilled charge of up to a fil is a break that is not material, against the comment that every break is |
| ReconciliationRollup.RowsSumToRun | packages/billing/src/tpp-cost-reconciliation.ts:817-857 | over distinct documents the rows' expected nets, match counts, break counts and gross variances sum to the run's, and the actual nets to the run's total plus off-period and refused amounts |
| ReconciliationRollup.RowVarianceExplained | packages/billing/src/tpp-cost-reconciliation.ts:821-836 | a row's net variance is within tolerance times its match count of the sum of its breaks' variances |
| ReconciliationRollup.WindowReportedOpen | packages/billing/src/tpp-cost-reconciliation.ts:785-799 | the deadline counts from the first issue among the period's documents; the window reads open exactly while no document arrives a whole day past it |
| ReconciliationRollup.WindowOutlivesItsDeadline | packages/billing/src/tpp-cost-reconciliation.ts:846-847 | a receipt after the deadline that is still reported open |
| Metering.MeterBillableEvents | packages/billing/src/metering.ts:236-436 | the loops over maps and counters yield exactly the specified lines, counts and evidence, or the first refusal |
| Metering.Deduplicate | packages/billing/src/metering.ts:237-250 | one event per id in total order, with repeats counted, or a conflict |
| Metering.PairCalls | packages/billing/src/metering.ts:265-292 | the pairings the greedy loops make over the buckets, and the map of used calls |
| Metering.MeterLines | packages/billing/src/metering.ts:294-427 | each event's lines given what earlier events used of each free tier and merchant allowance |
| Metering.CountEvents | packages/billing/src/metering.ts:298-427 | each counter is the number of events of its class or direction |
| MeteringTheorems.SortedIsUnique | packages/billing/src/metering.ts:206-208 | there is only one way to list a set of events in order |
| MeteringTheorems.EventsExact | packages/billing/src/metering.ts:236-250 | the accepted events are exactly the delivered ones, one per id, sorted |
| MeteringTheorems.DeliveryDoesNotMatter | packages/billing/src/metering.ts:236-436 | any reordering or repetition of a delivery list gives the same conflict verdict, lines, counts and evidence |
| MeteringTheorems.EveryEventIsCountedOnce | packages/billing/src/metering.ts:251-262 | events split into unknown, free, unsuccessful, chargeable and free to the LFI, and by direction; accepted plus duplicates is received |
| MeteringTheorems.PairingIsAMaximalMatching | packages/billing/src/metering.ts:265-292 | pairs are admissible and one to one, and no admissible pair has both sides left over |
| MeteringTheorems.AtLeastHalfOfAnyAssignment | packages/billing/src/metering.ts:265-292 | per endpoint the greedy matching has at least half the size of any admissible assignment |
| MeteringTheorems.PairsTakeTheClosestCall | packages/billing/src/metering.ts:279-282 | every admissible call closer than the one taken had been taken before |
| MeteringTheorems.FreeTierIsExhaustedExactly | packages/billing/src/metering.ts:342-364 | in any event order the free pages of a tier are the smaller of allowance and demand, and the rest is billed |
| MeteringTheorems.MerchantAllowanceIsExhaustedExactly | packages/billing/src/metering.ts:379-395 | each merchant's daily value allowance is granted to the last milli-fil and never beyond |
| MeteringTheorems.LinesAccountForEvents | packages/billing/src/metering.ts:298-427 | each billable outbound call has one Hub line, discounted exactly when paired and no quote; each free call one line; each billable payment's amount is on exactly one line |
| MeteredLines.EveryLineSaysItsEvent | packages/billing/src/metering.ts:298-427 | every metered line states the fee class, side, counterparties and units its event calls for; a data call of n lines is billed or free for the pages that hold them, 100 * (pages - 1) < n <= 100 * pages |
| MeteredLines.EveryEventHasItsLines | packages/billing/src/metering.ts:298-427 | every accepted event has exactly the lines its kind, direction, outcome and pairing call for |
| MeteredLines.FreeTierIsSharedExactly | packages/billing/src/metering.ts:342-364 | over the pages that hold each call's lines, the free units of a tier are the smaller of its allowance and its demand |
| MeteredLines.MerchantAllowanceIsSharedExactly | packages/billing/src/metering.ts:379-395 | over each merchant's payments of a day, in any order, the allowance is granted in full and never exceeded |
| MeteredLines.MeteringRefusedExactly | packages/billing/src/metering.ts:236-250 | metering is refused exactly when two different events share an id or an event lacks what its kind requires |
| MeteredLines.OrderedByTimeAndId | packages/billing/src/metering.ts:206-208 | accepted events are in order of time, and of id within one instant |
| MeteredLines.CloserCallsAreTaken | packages/billing/src/metering.ts:279-282 | by the events' own fields: every admissible call closer than the one taken is paired with an earlier payment |
| MeteredLines.CountsByFields | packages/billing/src/metering.ts:298-427 | each counter is the number of accepted events with the fields it names |
| MeteredLines.MeteringRefusedFor | packages/billing/src/metering.ts:236-376 | a refusal is for two different events of one id, or names the first incomplete event in order of time and what it lacks |
| MeteredLines.EvidenceIsKept | packages/billing/src/metering.ts:298-427 | kept as evidence are the retail lines owed for pages beyond the free ones, the lines that drew on a merchant's allowance and the events of unknown endpoints, in order |
| BatchCaps.ApplyBatchCaps | packages/billing/src/rating.ts:272-312 | in place, every line of a batch over its cap gets its share, all other lines stay, the adjustments are listed in order, and the first batch of mixed fee classes refuses the run |
| BatchCaps.GroupBatches | packages/billing/src/rating.ts:273-280 | each batch's line positions, in the order in which batches first appear |
| BatchCaps.JudgeBatch | packages/billing/src/rating.ts:283-289 | no cap, one cap for all lines, or a mixture |
| BatchCaps.ShareCap | packages/billing/src/rating.ts:294-301 | line by line in place: the rounded proportion, and to the last line what is left of the cap |
| BatchCaps.SharesAddUpToTheCap | packages/billing/src/rating.ts:294-301 | the shares sum to the cap exactly |
| BatchCaps.CappedSharesAreProportional | packages/billing/src/rating.ts:294-301 | every share but the last lies between nothing and its price, and the last is off its exact proportion by at most half a milli-fil per other line |
| BatchCaps.LastShareExactly | packages/billing/src/rating.ts:292-301 | for any prices the last share is its exact proportion plus the others' rounding remainders; it is negative, or above its price, exactly when those outweigh its share, or its saving |
| BatchCaps.LastShareIsNotNegative | packages/billing/src/rating.ts:298-298 | while its exact share covers half a milli-fil for each other line the last line is not charged less than nothing |
| BatchCaps.LastShareIsWithinItsPrice | packages/billing/src/rating.ts:298-298 | the last line is not charged more than its price while its exact saving covers half a milli-fil for each other line |
| BatchCaps.LastEqualShareNegativeExactly | packages/billing/src/rating.ts:298-298 | for equal prices, exactly when the last share is negative, in terms of the cap's quotient and remainder |
| BatchCaps.LastShareCanBeNegative | packages/billing/src/rating.ts:298-298 | 732 lines on the scheme's card: the last is charged -2 milli-fils |
| BatchCaps.LastEqualShareExceedsExactly | packages/billing/src/rating.ts:298-298 | for equal prices under a cap of qn + r the last share exceeds the price exactly when r is below half of n and q + r above the price |
| BatchCaps.LastShareCanExceedItsPrice | packages/billing/src/rating.ts:298-298 | 55,556 lines on the scheme's card: the last is charged more than its price |
| BatchCaps.BatchCharges | packages/billing/src/rating.ts:282-310 | after capping, each batch's lines carry exactly its shares in line order |
| BatchCaps.CappedBatchCostsItsCap | packages/billing/src/rating.ts:290-310 | a batch over its cap costs exactly the cap afterwards, any other what it did |
| BatchCaps.CappingSavesWhatItReports | packages/billing/src/rating.ts:303-309 | the total over all lines falls by exactly the sum of what the adjustments report as saved |
| CappedBatches.RunRefusedExactly | packages/billing/src/rating.ts:283-289 | a run is refused exactly when two lines of one batch are one of a capped fee class and the other of none or of another cap |
| CappedBatches.RefusedForTheFirst | packages/billing/src/rating.ts:282-289 | the batch a run is refused for mixes caps, and no batch whose lines begin before its own does |
| CappedBatches.LineOverItsCap | packages/billing/src/rating.ts:290-301 | a line of a batch priced above the one cap of all its lines changes its amount and remembers what that was, and nothing else |
| CappedBatches.LineLeftAlone | packages/billing/src/rating.ts:272-290 | every other line is left as it was |
| CappedBatches.ChargedInProportion | packages/billing/src/rating.ts:294-301 | every line but the last of such a batch is charged its proportion of the cap to the nearest milli-fil |
| CappedBatches.ChargedTheCap | packages/billing/src/rating.ts:294-301 | its lines are charged the cap together |
| CappedBatches.AdjustedExactly | packages/billing/src/rating.ts:302-310 | exactly the batches priced above their one cap are reported, once each |
| CappedBatches.AdjustmentSaysWhatWasSaved | packages/billing/src/rating.ts:303-309 | a report states what the batch was priced at, its cap, their difference and how many lines it has |
| Money.HalfUpExactly | packages/billing/src/money.ts:36-44 | the exact range of numerators that round to a quotient: nearest, ties away from zero |
| Money.RoundingError | packages/billing/src/money.ts:36-44 | rounding moves a quotient of either sign by at most half a unit |
| Money.HalfUpMonotone | packages/billing/src/money.ts:36-44 | rounding preserves order |
| Money.HalfUpIsSymmetric | packages/billing/src/money.ts:41-43 | a negative numerator rounds as its magnitude does |
| Money.WireTripleTies | packages/billing/src/money.ts:79-93 | a triple crosses exactly when it ties, then ties in fils too, within one fil of the source gross |
| Money.IndependentRoundingTiesExactly | packages/billing/src/money.ts:64-78 | exactly when rounding the three figures one by one would tie |
| Money.IndependentRoundingNeedNotTie | packages/billing/src/money.ts:64-78 | a triple that ties in milli-fils and not once each part is rounded |
| Vat.InclusiveUndoesExclusive | packages/billing/src/tpp-cost-document.ts:72-84 | carving VAT out of a gross built by adding it recovers the split, for every net |
| Vat.ExclusiveUndoesInclusiveExactly | packages/billing/src/tpp-cost-document.ts:72-84 | the converse holds if and only if the gross does not leave remainder 10 of 21 |
| Vat.ExclusiveNeedNotUndoInclusive | packages/billing/src/tpp-cost-document.ts:72-84 | a gross of ten milli-fils for which it fails |
| Vat.SplittingRowsMovesVatLittle | packages/billing/src/tpp-cost.ts:168-183 | splitting one category over k rows moves its VAT by at most (k + 1) / 2 |
| Vat.SplittingRowsRaisesNoBreak | packages/billing/src/tpp-cost-reconciliation.ts:431-442 | so the split alone raises no variance when k + 1 is at most twice the tolerance |
| SplitRows.SplitRowsRaiseNoBreak | packages/billing/src/tpp-cost-reconciliation.ts:431-442 | a run that charges each key once and as expected, however its documents break the charges over rows few enough for the tolerance, reports no break |
| ProviderDocuments.ParseInvoice | packages/billing/src/tpp-cost-document.ts:485-588 | the nested loops yield the specified lines and totals, or the first refusal; a stated total must agree exactly |
| ProviderDocuments.ParsedInvoiceTies | packages/billing/src/tpp-cost-document.ts:570-572 | every accepted document ties, line by line and in its totals |
| ParsedLines.EveryStatedLineIsParsed | packages/billing/src/tpp-cost-document.ts:485-560 | an accepted invoice has one line for each stated one, in order, filed by its category, the section's recipient and the issuer, and priced by the section's VAT treatment |
| ParsedLines.TotalsAreOfTheLines | packages/billing/src/tpp-cost-document.ts:560-572 | net, VAT, gross and the number of unmapped lines are those of the lines |
| ParsedLines.InvoiceRefusedExactly | packages/billing/src/tpp-cost-document.ts:485-588 | an invoice is accepted exactly when every section has lines, no figure is negative and a stated total is that of the lines to the milli-fil |
| ProviderDocuments.TotalCanBeStatedExactly | packages/billing/src/tpp-cost-document.ts:576-587 | some stated total is accepted, whatever the sections mix, exactly when the nets of the raw lines and their grosses both add up to whole fils |
| ProviderDocuments.InclusiveTotalsCanBeStatedExactly | packages/billing/src/tpp-cost-document.ts:546-587 | for any VAT-inclusive fees of whole fils, a total can be stated exactly when the VAT of their excesses over multiples of 21 fils adds up to whole fils |
| ProviderDocuments.InclusiveTotalCanBeStatedExactly | packages/billing/src/tpp-cost-document.ts:546-587 | for one such fee, exactly when it is a multiple of 21 fils |
| ProviderDocuments.UnitPriceExplainsNet | packages/billing/src/tpp-cost-document.ts:538-557 | units times the recorded unit price is the net exactly where it was stated, and within half a milli-fil a unit where it was derived |
| PayableLedger.BuildAcceptance | packages/billing/src/payable-accounting.ts:226-273 | the pushed acceptance is the specified one: reversal of what was posted, input VAT, gross payable and the reclassified variance, or the first refusal |
| PayableLedger.AccrualRefusedExactly | packages/billing/src/payable-accounting.ts:137-215 | an accrual is made exactly when the accounts are usable, its lines are for one stream with a cost account and total half a fil or more, and its source has a letter or digit |
| PayableLedger.AcceptanceRefusedExactly | packages/billing/src/payable-accounting.ts:226-273 | an accrual that posted something is accepted exactly when the accounts are usable, it was not accepted before, a document is cited and no amount is negative; even an invoice for nothing is |
| PayableLedger.SettlementRefusedExactly | packages/billing/src/payable-accounting.ts:356-368 | a settlement is booked exactly when the accounts are usable, its amount is positive and its reference has a letter or digit |
| PayableLedger.EveryRunIsExplained | packages/billing/src/payable-accounting.ts:160-273 | for any account maps, a new one for each call if need be, after every run the trial balance is zero and each account holds exactly what the accruals and settlements account for |
| PayableLedger.AccruedPayableByAccount | packages/billing/src/payable-accounting.ts:188-273 | an account that only serves as accrued payable holds what was reversed on it less what was accrued against it, over any maps |
| PayableLedger.AccountsPayableByAccount | packages/billing/src/payable-accounting.ts:226-368 | an account that only serves as accounts payable holds what was settled on it less what was accepted against it, over any maps |
| PayableLedger.AccruedPayableIsWhatIsOutstanding | packages/billing/src/payable-accounting.ts:217-225 | with one account per role, accrued payable is minus what is accrued and not yet accepted |
| PayableLedger.AccountsPayableIsWhatIsUnsettled | packages/billing/src/payable-accounting.ts:226-368 | accounts payable is minus the gross accepted and not yet settled |
| PayableLedger.CostIsWhatWasAccrued | packages/billing/src/payable-accounting.ts:254-267 | each stream's cost account holds what was ever accrued on it, accepted or not |
| PayableLedger.VarianceAndVatAreAsInvoiced | packages/billing/src/payable-accounting.ts:254-267 | the variance and input VAT accounts hold the sums of the accepted invoices' variances and VAT |
| PayableLedger.RoutesPaidWhatWasSettled | packages/billing/src/payable-accounting.ts:356-368 | each route's account holds minus what was settled through it |
| PayableLedger.CostAndVarianceShowTheCost | packages/billing/src/payable-accounting.ts:254-267 | cost and variance together show each accepted accrual at its invoice and each outstanding one at its accrual |
| PayableLedger.EverythingIsCleared | packages/billing/src/payable-accounting.ts:217-225 | once all is accepted and settled, accrued payable and accounts payable are zero |
| PayableLedger.NothingIsStranded | packages/billing/src/payable-accounting.ts:217-225 | when every accrual is accepted with the accrued payable it was accrued against, no such account keeps a balance, whatever else changed |
| PayableLedger.StrandedExactly | packages/billing/src/payable-accounting.ts:217-273 | an accrual accepted under another map clears its accrued payable exactly when both maps name the same account; otherwise it stays in full and the other account shows it in debit |
| PayableLedger.RunsExtend | packages/billing/src/payable-accounting.ts:226-237 | continuing a run takes back no posted line, changes no accrued amount and leaves every accepted accrual as it is |
| PayableLedger.SecondAcceptancePostsNothing | packages/billing/src/payable-accounting.ts:230-237 | once its acceptance is stamped on it, which the caller does, an accrual is not accepted again: nothing changes |
| PayableLedger.UnstampedIsAcceptedTwice | packages/billing/src/payable-accounting.ts:226-273 | an accrual the caller does not stamp is accepted by any two documents, leaving accrued payable in debit by the accrual and both documents payable in full |
| LedgerFigures.AccrualSaysItsLines | packages/billing/src/payable-accounting.ts:137-215 | an accrual is for the one stream of its lines, within half a fil of what they expect together, and its journal cites its source and theirs |
| LedgerFigures.AcceptanceSaysItsInvoice | packages/billing/src/payable-accounting.ts:237-256 | an acceptance's net and VAT are each within half a fil of the invoice's, its gross is their sum and its variance the net less the accrual |
| LedgerFigures.AcceptanceLeavesTheInvoice | packages/billing/src/payable-accounting.ts:237-273 | with one account per role it leaves the invoice's own VAT, gross and excess over the accrual on input VAT, accounts payable and variance, to within half a fil a figure, and clears the accrual exactly |
| LedgerFigures.StepsTakeEffectExactly | packages/billing/src/payable-accounting.ts:137-368 | after any run a step takes effect exactly when its accounts, names, amounts and accrual are in order, and otherwise changes nothing |
| LedgerFigures.InvoicesAreKept | packages/billing/src/payable-accounting.ts:226-273 | over every run, the nets and the VAT kept of accepted invoices are what the accepted steps stated, within half a fil an invoice |
| LedgerFigures.AccrualsAreKept | packages/billing/src/payable-accounting.ts:137-215 | over every run, what is accrued on a stream is what its accrual steps expected, within half a fil an accrual |
| LedgerFigures.SettlementsAreKept | packages/billing/src/payable-accounting.ts:356-368 | over every run, what is settled is what the settlement steps paid, exactly |
| LedgerFigures.PayableShowsTheInvoices | packages/billing/src/payable-accounting.ts:226-368 | over every run and change of maps, an account that only serves as accounts payable shows what was paid less the invoices' own net and VAT, within a fil an invoice |
| LedgerFigures.InputVatShowsTheInvoices | packages/billing/src/payable-accounting.ts:237-256 | likewise input VAT shows the invoices' own VAT, within half a fil an invoice |
| LedgerFigures.CostShowsTheExpectation | packages/billing/src/payable-accounting.ts:137-215 | each stream's cost account shows what its accrual steps expected, within half a fil an accrual |
| LedgerFigures.CostShowsTheInvoices | packages/billing/src/payable-accounting.ts:237-273 | cost, variance and accrued payable together show the net of the accepted invoices, within half a fil an invoice |
| Journals.Draft.AddLine | packages/billing/src/accounting.ts:97-101 | a negative amount or an unnamed account is refused, a line of nothing is not added, any other is appended |
| Journals.AssembledExactly | packages/billing/src/payable-accounting.ts:137-185 | a journal is assembled exactly when its lines balance, some line carries money and its source has a letter or digit |
| Settlements.DecompositionSeparatesSides | packages/billing/src/collections.ts:74-128 | receivables and payables are kept apart and non-negative, the residue is the receipt less their difference, and a break is set exactly beyond the tolerance |
| Settlements.RaiseBreaks | packages/billing/src/payable-accounting.ts:320-353 | one break per decomposition that carries one, in order, each amount derived from the three rounded figures |
| Settlements.BookedResidueIsClose | packages/billing/src/payable-accounting.ts:309-319 | what is booked as residue is within 1,499 milli-fils of the residue |
| Settlements.BreakBooksNothingExactly | packages/billing/src/payable-accounting.ts:320-353 | for a settlement decomposed from receivables and payables: a break is for nothing exactly when cash and the two totals tie in whole fils |
| Settlements.BreakBooksSomething | packages/billing/src/payable-accounting.ts:320-353 | for such a settlement with a tolerance of at least 1,499 milli-fils a break is never for nothing |
| Settlements.BreakCanBookNothing | packages/billing/src/payable-accounting.ts:320-353 | with any smaller tolerance, the usual one included, some such settlement raises a break of zero |
| NetSettlements.DecomposeNetSettlement | packages/billing/src/payable-accounting.ts:508-622 | the loops yield the specified decomposition, or the first refusal in the source's order |
| NetSettlements.NettingConserves | packages/billing/src/payable-accounting.ts:531-556 | cash moved plus twice what cancels is everything both roles carry, and the nets add up to the expected net before adjustments |
| NetSettlements.SideIsCarriedExactly | packages/billing/src/payable-accounting.ts:556-582 | a side's lines sum to its amount exactly when it is nothing or its first reference exists and is not repeated |
| NetSettlements.LinesCarry | packages/billing/src/payable-accounting.ts:556-582 | the lines carry each side of each position once for every place where its first reference is listed, so not at all when it cites none |
| NetSettlements.LinesCarryThePositions | packages/billing/src/payable-accounting.ts:556-582 | when every position cites a first reference once the lines carry the gross receivables and payables |
| NetSettlements.BookedResidue | packages/billing/src/payable-accounting.ts:556-600 | what is booked as residue is the residue, the adjustments and what the references miscarry, within 1,499 milli-fils and to the milli-fil in whole fils: it is then the reported residue exactly when adjustments and miscarriage cancel |
| NetSettlements.AdjustmentsAreBookedAsResidue | packages/billing/src/payable-accounting.ts:584-600 | with every position cited nothing is miscarried, and it is the reported residue exactly when the adjustments come to nothing |
| NetSettlements.NetBreakBooksNothingExactly | packages/billing/src/payable-accounting.ts:320-353 | for every accepted net settlement, a break is for nothing exactly when cash and what the lines carry of the positions tie in whole fils |
| NetSettlements.NetBreakBooksSomething | packages/billing/src/payable-accounting.ts:320-353 | it is for something once residue, adjustments and miscarriage come to at least 1,500 milli-fils |
| NetSettlements.BrokenYetForNothing | packages/billing/src/payable-accounting.ts:320-353 | at any tolerance, a receivable paid in full beside a larger adjustment raises a break of nothing |
| NetSettlements.MiscitedYetForNothing | packages/billing/src/payable-accounting.ts:556-582 | at any tolerance and without adjustments, a receivable of which exactly what its references carry is received, nothing if it cites none, raises a break of nothing |
| NetSettlements.ExplainedYetBooked | packages/billing/src/payable-accounting.ts:584-600 | for any write-down: nothing unexplained, no break, and the whole adjustment booked as residue |
| SettlementFigures.DecompositionStatesItsItems | packages/billing/src/collections.ts:74-128 | every receivable and then every payable, negated, is a line; the expected net is the difference of the two totals and the residue what the receipt exceeds it by |
| SettlementFigures.SettlementRefusedExactly | packages/billing/src/collections.ts:66-82 | a settlement is decomposed exactly when it has a reference, no negative tolerance, and on both sides distinct, named sources and ledger references without a negative amount |
| SettlementFigures.SettlementRefusedFor | packages/billing/src/collections.ts:74-95 | the reference is refused before the tolerance, and an amount only for being negative |
| SettlementFigures.BreakCitesItsItems | packages/billing/src/collections.ts:112-126 | a break is for the residue and cites the ledger references of both sides |
| SettlementFigures.RaisedBreakCitesItsItems | packages/billing/src/payable-accounting.ts:320-353 | a break raised for a settlement names it and cites both sides' ledger references |
| SettlementFigures.RaisedBreakCitesItsPositions | packages/billing/src/payable-accounting.ts:320-353 | one raised for a net settlement cites the references of every position, in order |
| SettlementFigures.DecompositionStatesItsPositions | packages/billing/src/payable-accounting.ts:531-622 | gross receivable, Nebras cost, LFI cost, netted amount and adjustment are each the sum over their own positions or adjustments; expected net, residue, tolerance and break follow from them |
| SettlementFigures.EveryPositionIsExplained | packages/billing/src/payable-accounting.ts:531-556 | each counterparty is explained in order: both roles gross, what is left and what cancels |
| SettlementFigures.LinesAreThePositions | packages/billing/src/payable-accounting.ts:556-582 | the lines are exactly those of the positions' non-zero sides under each of their references, the first of which carries the amount |
| SettlementFigures.NetRefusedExactly | packages/billing/src/payable-accounting.ts:508-530 | a net settlement is decomposed exactly when reference, tolerance, positions and adjustments are sound, and otherwise refused for the first that is not |
| Accounting.BuildInvoiceJournal | packages/billing/src/accounting.ts:122-145 | the drafted invoice or credit-note journal is the specified one, or the first refusal |
| Accounting.BuildPayableJournal | packages/billing/src/accounting.ts:147-156 | the drafted Hub payable journal is the specified one, or the first refusal |
| Accounting.BuildSettlementJournal | packages/billing/src/accounting.ts:158-174 | the drafted settlement journal is the specified four lines, each on the side its sign calls for |
| AccountingTheorems.JournalRefusedExactly | packages/billing/src/accounting.ts:103-174 | for any signed receipt the journal of a decomposition balances, and it is refused exactly when receipt and both sides of the lines all round to nothing or the reference has no letter or digit |
| AccountingTheorems.SettlementJournalRefusedExactly | packages/billing/src/accounting.ts:103-174 | for receivables and payables, in terms of their totals |
| AccountingTheorems.NetJournalRefusedExactly | packages/billing/src/accounting.ts:103-174 | for a net settlement, in terms of what its lines carry: positions that cite nothing can have a large settlement refused |
| AccountingTheorems.BreakIsWhatIsBooked | packages/billing/src/payable-accounting.ts:309-319 | a break's amount equals the signed residue posting of the same settlement's journal |
| AccountingTheorems.InvoiceJournalRefusedExactly | packages/billing/src/accounting.ts:103-145 | a tying document is refused exactly when its category and VAT disagree, it is for nothing or its id has no letter or digit |
| AccountingTheorems.MadeDocumentRefusedExactly | packages/billing/src/accounting.ts:129-129 | a document that invoicing made is refused exactly when it is domestic with no line above ten fils, or an export for nothing |
| AccountingTheorems.BatchRefusedExactly | packages/billing/src/accounting.ts:176-207 | a batch of accepted journals is never out of balance; it is refused exactly when a source repeats or the profile has no letter or digit |
| BillingCycle.DocumentsCollideExactly | packages/billing/src/invoicing.ts:340-341 | two documents of a run share a journal source exactly when two counterparties share a slug, or two credits share those of buyer and preceding invoice |
| BillingCycle.CycleRefusedExactly | packages/billing/src/accounting.ts:176-196 | the documents of one invoicing run are refused as a batch exactly when one is too small to be booked or two collide |
| BillingCycle.TwoCreditsRefuseTheBatch | packages/billing/src/accounting.ts:189-190 | two credits of a buyer against one invoice, for whatever fee classes, have the whole batch refused |
| AccountingTheorems.BatchIsExplained | packages/billing/src/accounting.ts:122-174 | for any account map a batch leaves on each account exactly what its documents, Hub payables and settlements account for |
| AccountingTheorems.ReceivableIsWhatIsOwed | packages/billing/src/accounting.ts:122-174 | the receivable account holds the invoices at gross less the credit notes and less what settlements collected |
| AccountingTheorems.ClosePackReadsBack | packages/billing/src/accounting.ts:219-237 | output VAT is invoice VAT less credit-note VAT, the residue is the sum of the settlements' residues, and the pack balances |
| BatchFigures.DocumentPostedExactly | packages/billing/src/accounting.ts:103-145 | a document is posted exactly when it is of the period, ties, carries VAT exactly when it is no export, has splits that make up its net on accounts that exist, is for something and has a usable id |
| BatchFigures.PayablePostedExactly | packages/billing/src/accounting.ts:147-156 | a Hub payable is posted exactly when it is positive, its fee class has an expense account and its source a letter or digit |
| BatchFigures.SettlementPostedExactly | packages/billing/src/accounting.ts:158-174 | a settlement is posted exactly when it is of the period, neither side is negative in whole fils, it moves something and has a usable reference |
| BatchFigures.DocumentIsCited | packages/billing/src/accounting.ts:122-145 | every line of a document's journal is for money and cites the document, and revenue the lines it was billed on |
| BatchFigures.PayableIsCited | packages/billing/src/accounting.ts:147-156 | both lines of a Hub payable's journal state its amount and cite its source and fee class |
| BatchFigures.SettlementIsCited | packages/billing/src/accounting.ts:158-174 | in a settlement's journal the cash cites its reference, receivables and payables their own side's references, and the residue everything |
| BatchFigures.RevenueIsBookedByFeeClass | packages/billing/src/accounting.ts:129-145 | a document's journal books under each fee class what its splits say, taken back for a credit note |
| BatchFigures.BatchMadeExactly | packages/billing/src/accounting.ts:176-207 | a batch is made exactly when the map is approved and names its profile and accounts, every input can be posted and no two share a source |
| BatchFigures.ClosePackCounts | packages/billing/src/accounting.ts:209-237 | the close pack counts one journal for each input, and both its totals are what the batch debits |
| BatchFigures.ClosePackListsItsInputs | packages/billing/src/accounting.ts:219-237 | the close pack lists the batch's documents, payables and settlements, each by its own id and in order |
| Invoicing.BuildDocuments | packages/billing/src/invoicing.ts:398-488 | the loops yield the specified invoices, credit notes and withheld amounts, or the first refusal |
| Invoicing.FileExpected | packages/billing/src/invoicing.ts:420-446 | withheld amounts, filed document lines per counterparty, and the first line that is refused |
| InvoicingTheorems.DocumentTies | packages/billing/src/invoicing.ts:329-338 | net and VAT make up the gross of every document, the gross is that of its lines, and exports carry no VAT |
| InvoicingTheorems.VatIsNearlyTheRate | packages/billing/src/invoicing.ts:329-338 | a domestic document's VAT is off 5/105 of its gross by at most half a fil per line |
| InvoicingTheorems.NoVatExactly | packages/billing/src/invoicing.ts:167-171 | a domestic document carries no VAT exactly when no line exceeds ten fils |
| InvoicingTheorems.InvoicesBillEveryLine | packages/billing/src/invoicing.ts:434-459 | the invoices' gross is the sum over all billed lines |
| InvoicingTheorems.WithholdingConserves | packages/billing/src/invoicing.ts:423-448 | expected less dropped and withheld is within 500 milli-fils per line of what the invoices bill; nothing is dropped when no negative line meets a material variance |
| InvoicingTheorems.NegativeLineIsDropped | packages/billing/src/invoicing.ts:423-431 | a negative line of any size under a material variance is accepted, withheld from nobody and invoiced to nobody |
| InvoicingTheorems.InvoicesCiteEachLineOnce | packages/billing/src/invoicing.ts:434-459 | the source lines cited on the invoices are exactly the billed lines |
| InvoicingTheorems.NoLineIsInvoicedTwice | packages/billing/src/invoicing.ts:434-459 | with distinct memo lines no line is cited twice |
| IssuedDocuments.EveryDocumentIsTaxedByCountry | packages/billing/src/invoicing.ts:329-338 | every invoice and credit note of a request is taxed by its buyer's country: category S and 5/105 of each line's gross, within half a fil, in AE, category Z and nothing elsewhere; its totals are its lines' |
| IssuedDocuments.EveryDocumentHasABuyer | packages/billing/src/invoicing.ts:398-488 | every document is addressed to a buyer of the request |
| IssuedDocuments.EveryInvoiceBillsItsBuyer | packages/billing/src/invoicing.ts:434-459 | an invoice bills, in order, each of its buyer's own lines within half a fil of what is left once its dispute is withheld |
| IssuedDocuments.InvoicesAreForWhoIsBilled | packages/billing/src/invoicing.ts:434-459 | exactly the counterparties with half a fil or more left on some line have an invoice, one each |
| IssuedDocuments.CreditNotesCreditTheirBuyers | packages/billing/src/invoicing.ts:461-488 | after the invoices comes one credit note for each credit, for its amount within half a fil, citing the invoice it credits |
| IssuedDocuments.WithheldIsWhatIsDisputed | packages/billing/src/invoicing.ts:423-431 | exactly the disputed part of every line is withheld: a material variance of either sign, up to the line's amount |
| IssuedDocuments.RequestRefusedExactly | packages/billing/src/invoicing.ts:398-488 | a request is met exactly when its buyers are distinct, every line has nothing or something positive left and then a buyer, and every credit is positive, reasoned and addressed |
| IssuedDocuments.RefusalNamesTheFirst | packages/billing/src/invoicing.ts:398-488 | a refusal is for repeated buyers, or names the first line that cannot be billed, or the first credit that cannot be made, and why |
| DocumentNames.WordIsNamed | packages/billing/src/invoicing.ts:150-152 | a document id keeps a word of letters and digits in capitals, up to 36 characters |
| DocumentNames.SurroundingsAreDropped | packages/billing/src/invoicing.ts:150-152 | it keeps nothing of what surrounds a word |
| DocumentNames.WordsAreJoined | packages/billing/src/invoicing.ts:150-152 | it keeps two words with a single dash for whatever stands between them |
| DocumentNames.SlugIsTidy | packages/billing/src/invoicing.ts:150-152 | whatever the id, it keeps only capitals, digits and single dashes, none at the front and at the end only where it is cut off at 36 characters |
| Rating.RateStatements | packages/billing/src/rating.ts:333-412 | the grouping loops yield the specified statements, client services and totals |
| Rating.Rollup | packages/billing/src/rating.ts:314-331 | one statement line per fee class with its units, events, amount and value |
| Rating.RollupConserves | packages/billing/src/rating.ts:314-331 | rolling up loses no units, events, money or value |
| Rating.RatingConserves | packages/billing/src/rating.ts:404-411 | the three totals are the priced amounts of the three sides, and the margin is the rebill less the payables |
| RatedStatements.EveryStatementSaysWhatIsOwed | packages/billing/src/rating.ts:363-371 | every statement totals what its counterparty owes, and each of its lines shows the units, events, amount and value of that counterparty's receivable lines of its fee class |
| RatedStatements.StatementsAreForWhoOwes | packages/billing/src/rating.ts:346-371 | exactly the counterparties that owe anything have a statement, one each |
| RatedStatements.EveryServiceSaysItsCost | packages/billing/src/rating.ts:373-393 | a service's Hub and LFI figures are the sums of its client's payable lines of each side, its cost is both and its margin the rebill less the cost |
| RatedStatements.EveryServiceIsRebilledAtItsMarkup | packages/billing/src/rating.ts:379-383 | the markup is that of the first client configured with the id or 15 percent; the rebill is the cost and its markup to the nearest milli-fil, so no margin on a cost is negative |
| RatedStatements.EveryServiceLineSaysWhatIsBilled | packages/billing/src/rating.ts:373-378 | each line of a service shows the figures of its client's payable lines of that side and fee class |
| RatedStatements.ServicesAreForWhoIsBilled | packages/billing/src/rating.ts:352-361 | exactly the clients billed for anything have a service, one each, unattributed lines together under one name |
| RatedStatements.RebilledTotalIsNearlyMarkedUp | packages/billing/src/rating.ts:404-411 | the rebilled total is that of the services, within half a milli-fil a service of their marked-up costs |
| RatedStatements.FreeLinesAreCounted | packages/billing/src/rating.ts:359-361 | the free lines are counted, and the priced lines are kept as they were |
| RatingRun.RateUsage | packages/billing/src/rating.ts:342-412 | the whole run after pricing: caps in place, then statements and totals, or the first mixed batch |
| RatingRun.RunConserves | packages/billing/src/rating.ts:342-412 | the three totals and the reported savings are what was priced before any cap |
| Pricing.RateMeteredUsage | packages/billing/src/rating.ts:333-412 | the whole rating from metered lines: each line priced or the first refusal, the card's caps, the statements, or a batch that mixes caps |
| PricingTheorems.StepRisesOnTheAnchorsDay | packages/billing/src/rate-card.ts:341-349 | the card's step is 1 in its anchor's first year and before it, and rises by one each time the anchor's day comes round, whatever day of the calendar it is |
| PricingTheorems.StepOfTheMonth | packages/billing/src/rating.ts:341-341 | a month is rated at the step of its fifteenth |
| PricingTheorems.StepsOnlyRise | packages/billing/src/rate-card.ts:341-349 | a later day is never in an earlier step |
| PricingTheorems.LatestIsPublished | packages/billing/src/lfi-overage.ts:110-137 | the overage rate in force is the one with the latest start not after the day and not expired, the first listed of several |
| PricingTheorems.OverageChargedExactly | packages/billing/src/rating.ts:148-190 | overage owed to another LFI costs that LFI's rate for the day, by the call or by each page beyond the free ones, nothing when it published none; exactly when it can be looked up |
| PricingTheorems.EveryLineIsChargedByItsRate | packages/billing/src/rating.ts:203-268 | every other line is charged by its entry on the card: the flat or stepped price for each unit, the first tier that covers its providers, or the step's basis points of its chargeable value within rounding, up to the cap |
| PricingTheorems.PricedExactly | packages/billing/src/rating.ts:203-262 | such a line is priced exactly when it is free or has an entry with a step, a value or a tier to charge by |
| PricingTheorems.RefusedFor | packages/billing/src/rating.ts:216-262 | such a line is refused for having no entry, an entry without a step, no value to charge or no tier that covers it |
| PricingTheorems.OverageRefusedFor | packages/billing/src/rating.ts:154-176 | overage is refused for lack of a snapshot, then of the LFI, then for an unusable snapshot |
| PricingTheorems.MoreNeverCostsLess | packages/billing/src/rating.ts:203-268 | no price is negative, and more units or more value never cost less |
| PricingTheorems.PricingKeepsTheLine | packages/billing/src/rating.ts:203-268 | pricing keeps everything else about a line, and charges nothing for a free one |
| PricingTheorems.ReceivablesNeedNoDirectory | packages/billing/src/rating.ts:102-114 | leaving out every other line, with or without a directory snapshot, prices the same receivable lines |
| PricingTheorems.RatedRunConserves | packages/billing/src/rating.ts:333-412 | from metered lines to statements, the three totals and the reported savings are what the lines were priced at |
| PricingTheorems.CapsAreTheCards | packages/billing/src/rating.ts:284-286 | a fee class is capped exactly when its receivable rate is flat and carries a cap, and at that cap |
| Memo.BuildExpectedMemo | packages/billing/src/memo.ts:136-182 | one memo line per counterparty and fee class, and their total |
| Memo.ValidateMemo | packages/billing/src/memo.ts:184-202 | the scheme's memo is refused at its first unnamed, negative or repeated line |
| Memo.MemoConserves | packages/billing/src/memo.ts:142-165 | the memo holds every receivable line once: units, events, amount and value |
| Memo.MemoAgreesWithRating | packages/billing/src/memo.ts:136-182 | the expected memo's total is the rating's receivable total |
| Memo.ComparisonCoversBoth | packages/billing/src/memo.ts:204-260 | the comparison's totals are the two memos', its net variance their difference, and opposing variances do not hide in the gross one |
| Memo.NoBreaksExactlyWhenClose | packages/billing/src/memo.ts:216-240 | no break exactly when the memos agree at every reference to within the threshold |
| Memo.EveryReferenceIsJudgedOnce | packages/billing/src/memo.ts:214-256 | every reference of either memo is matched or a break, once |
| Memo.PresenceIsExact | packages/billing/src/memo.ts:216-240 | a compared line says one-sided exactly when the other memo lacks its reference |
| Memo.DeltasExplainTheTotal | packages/billing/src/memo.ts:301-328 | the line deltas of a re-rating sum to the change of the total |
| MemoLines.EveryMemoLineSaysWhatIsOwed | packages/billing/src/memo.ts:136-165 | every memo line shows the units, events, amount and value receivable of its counterparty and fee class |
| MemoLines.MemoLinesAreForWhatIsOwed | packages/billing/src/memo.ts:136-165 | there is one line for each counterparty and fee class anything is receivable for, and no other |
| MemoLines.MemoRefusedExactly | packages/billing/src/memo.ts:184-202 | a scheme's memo is accepted exactly when every line is named, not negative and new, and otherwise refused for what is wrong with its first bad line |
| MemoLines.EveryComparisonSaysBothMemos | packages/billing/src/memo.ts:204-240 | a compared line shows what either memo says at its reference, nothing where one is silent, and is material exactly beyond the threshold |
| MemoLines.ComparisonCounts | packages/billing/src/memo.ts:241-256 | the two counters count the compared lines by whether they are material |
| MemoLines.EveryDeltaSaysBothRatings | packages/billing/src/memo.ts:301-328 | a delta shows what either rating charges at its reference and their difference, and every reference has one |
| ExpectedCost.BuildExpectedCostStatement | packages/billing/src/tpp-cost.ts:221-332 | the bucket loop yields the specified lines and totals, or the first unattributable cost |
| ExpectedCost.CostAgreesWithRating | packages/billing/src/tpp-cost.ts:307-314 | the Hub's net and the LFIs' gross are the payable totals of the rating |
| ExpectedCost.TotalsTie | packages/billing/src/tpp-cost.ts:307-314 | the three streams make up the net, and net and VAT the gross |
| ExpectedCost.CostCountsEveryLine | packages/billing/src/tpp-cost.ts:287-293 | the statement's lines count every payable line once, with its units |
| ExpectedCost.ReconcilableExactly | packages/billing/src/tpp-cost.ts:253-263 | the statement's match keys are unique exactly when no two payable lines sharing a match key fall into different buckets |
| ExpectedCost.TwoFamiliesCannotBeReconciled | packages/billing/src/tpp-cost.ts:253-263 | two Hub calls of one fee class in different API families make a statement the reconciliation refuses |
| CostLines.EveryCostLineSaysItsFees | packages/billing/src/tpp-cost.ts:240-302 | every line states the units, the number and the price of the payable lines it stands for, by side, recipient, stream, segment, family and attribution; Hub fees are net and attract 5 percent, LFI fees are gross and contain 5/105 |
| CostLines.CostLinesAreForWhatIsPayable | packages/billing/src/tpp-cost.ts:240-302 | there is one line for everything some payable line falls into, and no other |
| CostLines.EveryCostLineCitesItsFees | packages/billing/src/tpp-cost.ts:290-301 | a line cites each event and each interaction it stands for, once |
| CostLines.TotalsAreOfTheirStreams | packages/billing/src/tpp-cost.ts:304-314 | each stream's total is that of its own lines |
| CostLines.StatementRefusedExactly | packages/billing/src/tpp-cost.ts:240-250 | a statement is made exactly when every payable line names its endpoint and, unless it is a Hub fee, its LFI |
| CostLines.RefusalNamesTheFirst | packages/billing/src/tpp-cost.ts:240-250 | the refusal names the first line that cannot be attributed and what is missing on it |
| CostLines.ReconciliationExpectsTheTotals | packages/billing/src/tpp-cost-reconciliation.ts:448-456 | read as the expected side of a reconciliation, the statement's lines expect its net and VAT and the units of the payable lines |
| CostLines.ReconciliationIsToldEachLine | packages/billing/src/tpp-cost-reconciliation.ts:448-456 | it is told of each line's recipient, stream, fee class and citations |
| Approvals.ApprovalTable.Create | packages/db/src/approvals-store.ts:113-138 | a row is inserted without an approval time, unless the id exists or a constraint fails |
| Approvals.ApprovalTable.ClaimForApproval | packages/db/src/approvals-store.ts:151-168 | a pending row is approved once, keeping any approval time already there |
| Approvals.ApprovalTable.Update | packages/db/src/approvals-store.ts:170-193 | a row is overwritten except for its approval time once set |
| Approvals.ClaimsAreBounded | packages/db/src/approvals-store.ts:151-193 | over every interleaving, claims on a request (plus one while it is open) number at most one more than its reopenings |
| Approvals.AtMostOneClaim | packages/db/src/approvals-store.ts:151-168 | a request never reopened after a decision is claimed at most once |
| Approvals.EvidenceIsWriteOnce | packages/db/src/approvals-store.ts:173-182 | once set, the approval time never changes; no statement deletes a request or changes its initiator or deadline |
| Approvals.EveryRowIsAdmissible | packages/db/migrations/0042_approval_request_approved_at.sql:27-40 | every stored row is approved by another and not after its deadline |
| Approvals.ReopenedIsClaimedTwice | packages/db/src/approvals-store.ts:170-193 | a reopened request is claimed twice and then shows the second approver beside the first's time |
| ApprovalService.EveryInterleavingKeeps | services/bff/src/approvals/service.ts:218-284 | over every interleaving of tasks no statement reopens a request and each execution is owed to a claim of its own |
| ApprovalService.AtMostOneExecution | services/bff/src/approvals/service.ts:255-284 | however tasks interleave or stop, a request's operation is executed at most once |
| ApprovalService.ExecutedWasApprovedInTime | services/bff/src/approvals/service.ts:236-284 | whatever was executed has an approval time on record, within its window |
| ApprovalOutcomes.ApprovalLastsExactly | services/bff/src/approvals/service.ts:255-300 | an approved request stays approved in every continuation exactly when no task is timing it out, recording or about to decide a rejection of it that the table accepts |
| ApprovalOutcomes.ExecutedThenRejected | services/bff/src/approvals/service.ts:284-300 | a request approved in time and executed ends up rejected with its result erased |
| RateCardDiff.DiffRateCards | packages/billing/src/rate-card.ts:391-411 | the recursive walk pushes exactly the specified changes |
| RateCardDiff.Walker.Walk | packages/billing/src/rate-card.ts:394-408 | the walk of two values appends their changes under the given path and keeps what was there |
| RateCardDiffTheorems.PatchIsFaithful | packages/billing/src/rate-card.ts:391-411 | applying the changes' paths and new values to the old card gives the new card |
| RateCardDiffTheorems.NoChangesExactlyWhenEqual | packages/billing/src/rate-card.ts:391-411 | the change list is empty exactly when the cards are equal |
| RateCardDiffTheorems.ChangesAreTruthful | packages/billing/src/rate-card.ts:391-411 | every listed change reports what each card really holds at its path, and the two differ |
| RateCardDiffTheorems.ReviewRefusedExactly | packages/billing/src/rate-card.ts:414-430 | a review is refused exactly when the version is kept, and otherwise its changes patch the old card into the new |
| Redaction.RedactProviderPayload | packages/billing/src/tpp-cost-document.ts:312-346 | the recursive walk returns the specified payload and reports the specified removals in order |
| Redaction.RedactionIsComplete | packages/billing/src/tpp-cost-document.ts:305-346 | the output has no identifier-shaped string and nothing but the marker under a customer-named key, at any depth |
| Redaction.RedactionIsIdempotent | packages/billing/src/tpp-cost-document.ts:332-336 | a second pass changes and reports nothing |
| Redaction.NothingRemovedExactly | packages/billing/src/tpp-cost-document.ts:312-346 | nothing is reported exactly when the payload is clean, exactly when it is unchanged |
| Redaction.ReportedExactly | packages/billing/src/tpp-cost-document.ts:289-294 | the reported paths are exactly the places where the marker newly stands |

## Left out

- Safe-integer overflow: amounts are unbounded, so the guards that throw beyond 2^53 are not modelled.
- Validators of periods, dates, timestamps, ids, parties and evidence references, and the slugs made from ids: string
  patterns. That a journal's or a batch's slug must not be empty is modelled, and so are the slugs in document ids, with
  capitals for ASCII letters only; a text that must not be blank is modelled with the ASCII white space characters only.
- Display and narrative fields: variances in basis points, coverage percent, gap hours, reason codes, response clocks,
  rate details and the provenance of a directory rate.
- The order in which statements, memo lines, cost lines and invoices are finally sorted: lists are in first-occurrence
  order. The diff visits an object's keys in any fixed order; the source's is sorted.
- The evidence lists that the meter pushes while it loops are read off the finished lines instead.
- `Metering.Line.event` stands for the event fields the source copies onto a line.
- Reading fields out of gateway events and provider documents: the model starts from typed values, and two deliveries
  are the same canonical event when those values are equal. `ProviderDocuments` starts from prices already converted to
  milli-fils and does not keep the redacted payload.
- Days are calendar triples: the ISO texts they are parsed from, and the conversion of an instant to its UTC day, are
  not modelled. A metered line of `Pricing` holds the fields pricing and rating read.
- How an endpoint falls into an API family, which keys name customer detail and which strings look like identifiers:
  parameters of `ExpectedCost` and `Redaction`.
- JSON numbers in a rate card are integers, and `NaN` and `-0`, which `Object.is` treats specially, do not occur.
- Event and trace ids on memo lines and on withheld amounts: copied lists.
- PINT AE XML, the PDF writer, UUIDs, hashing, the issue-date limit and the e-invoicing calendar.
- Row-level security, tenancy, lineage and connections around the approval statements: each statement is one atomic
  step on one table.
- Scopes, audit events and unregistered operations of the approval service: any task may stop at any point instead.
- Assurance, profitability, dunning, days sales outstanding and collection rails: sums and filters.
- Journals.AssembledExactly: the model keeps source type and id and drops the journal id and the posting date.

# Axelor accounting: building and posting a journal entry

This project models two services of the Axelor accounting module and proves properties of them.

- **MoveLineCreateServiceImpl** builds the lines (move lines) of an accounting entry (a move).
  - Every `createMoveLine` overload builds one line. The line is on the debit or the credit side only. A negative amount flips the side. The account is mapped through the fiscal position. The stored currency rate is rounded HALF_UP to 5 places.
  - `createMoveLines` turns an invoice into its move lines:
    - one product line per invoice line with a non-zero company total;
    - one or two tax lines per invoice tax (the fixed-asset part and the other part);
    - the partner-side lines built from the invoice terms: one line per hold-back term, plus a single merged line carrying every other term;
    - a rounding step on the merged line (`updateMoveLineRoundValueIfNecessary`), meant to make the partner side match the product and tax lines. As written it removes an excess but adds a shortfall a second time, and it dereferences a missing merged line. The pipeline is modelled as written; the corrected step is modelled beside it (see Findings).
  - `createMoveLineForAutoTax` finds or creates the tax line of an (account, tax line) pair. Its map key is the account code followed by the tax line id as text, as written. It adds the taxed line's amounts times the rate to that tax line. A line held by both maps is one object, so an update through one map is seen through the other.
- **MoveValidateServiceImpl** posts a move (`accounting`):
  - `checkPreconditions` runs its ordered chain of fail-fast checks;
  - a closed period is refused;
  - the sequence is assigned and adjusting-period moves are marked;
  - the lines are completed and their account and partner fields frozen;
  - the move takes its new status (accounted or daybook); accounted moves get their fixed assets generated.
  - The module also models the batch operations (`accountingMultiple`, `simulateMultiple`) and `getPartnerOfMoveBeforeUpdate`.

How the Java is represented:
- Amounts are exact decimals (`real`). A rate stored at scale 5 is kept as its unscaled integer. `Decimals.RoundHalfUp` writes out `RoundingMode.HALF_UP`.
- A `null` becomes `Option`. A thrown `AxelorException` becomes the `Fail`/`Failure` case of `Outcome`/`Result`, carrying a `Fault`. The `Fault` holds the exception's category and the message it reports.
- A `NullPointerException` the code can raise is modelled as a failure of category `NullDereference`. The batch catches every exception, so these failures matter there.
- A `Move` is a class whose fields the services update in place. Lines, invoices, accounts and partners are values (datatypes).
- The services these classes call are arrow-typed fields of `Collaborators.Services` (currency conversion, fiscal-position mapping, tax accounts, consolidation, ...). The answers `checkPreconditions` and `accounting` obtain from other services are fields of `Preconditions.PostingContext`. The properties hold for every behaviour of those services.

Modules, one per concern:
- `Decimals`, `Text`: BigDecimal rounding, `Collectors.joining`, `distinct`.
- `Domain`, `Collaborators`: the entities and the external services.
- `LineFactory`: the `createMoveLine` overloads.
- `InvoiceLines`, `TermLines`, `Rounding`: `createMoveLines` and its steps.
- `AutoTax`: `createMoveLineForAutoTax`.
- `Preconditions`, `Balance`: `checkPreconditions` and `validateWellBalancedMove`.
- `Posting`: the rest of the validation service.

Every loop of the source that updates state is a method with loop invariants. Each such method is proved equal to a specification function, and the properties are proved as lemmas about that function. The three loops that only compute an answer (`isConfiguredVatSystem`, `isConfigurationIssueOnVatSystem` and the per-line checks of `checkPreconditions`) are the recursive predicates `Preconditions.IsConfiguredVatSystem`, `Preconditions.IsConfigurationIssueOnVatSystem` and `Preconditions.LinesCheck`.

## Model

| member | source | states |
|---|---|---|
| Decimals.RoundHalfUpIsNearest | axelor-account/src/main/java/com/axelor/apps/account/service/moveline/MoveLineCreateServiceImpl.java:273 | The rounded unscaled value is the integer nearest x·10^scale. A tie goes away from zero. The result has the sign of x (HALF_UP). |
| Decimals.RoundingAtOwnScaleIsExact | axelor-account/src/main/java/com/axelor/apps/account/service/moveline/MoveLineCreateServiceImpl.java:247-273 | Rounding a value that already has 5 places to 5 places changes nothing. So the division at scale 5 followed by `setScale(5, HALF_UP)` rounds only once. |
| Decimals.RoundHalfUpIsSymmetric | axelor-account/src/main/java/com/axelor/apps/account/service/moveline/MoveLineCreateServiceImpl.java:273 | HALF_UP is odd-symmetric: rounding −x gives minus the rounding of x. |
| LineFactory.FiscalPositionFor | axelor-account/src/main/java/com/axelor/apps/account/service/moveline/MoveLineCreateServiceImpl.java:214-223 | On an invoice move, the invoice's fiscal position is used, else its partner's. Otherwise the line partner's fiscal position is used. |
| LineFactory.StoredRateRoundsTheRatio | axelor-account/src/main/java/com/axelor/apps/account/service/moveline/MoveLineCreateServiceImpl.java:242-249 | A given rate is stored rounded HALF_UP at scale 5. Without a rate, a zero move-currency amount gives exactly 1. Otherwise the stored rate is the company/move amount ratio rounded to 5 places, and is non-negative. |
| LineFactory.CreateMoveLineShape | axelor-account/src/main/java/com/axelor/apps/account/service/moveline/MoveLineCreateServiceImpl.java:190-276 | `CreateMoveLine`: the line is one-sided. A negative company amount flips the requested side. The line holds the absolute amounts and the stored rate. A missing origin date takes the date. With a partner, the account is the fiscal position's mapping. The partner is kept exactly when the account is used for partner balance. |
| LineFactory.CreateMoveLineInMoveCurrency | axelor-account/src/main/java/com/axelor/apps/account/service/moveline/MoveLineCreateServiceImpl.java:126-169 | The move-currency overload converts the amount at the rate of the line date. The line is one-sided and holds the converted amount. The stored rate is that rate rounded. The origin date is the line date. |
| LineFactory.CreateMoveLineOnDate | axelor-account/src/main/java/com/axelor/apps/account/service/moveline/MoveLineCreateServiceImpl.java:293-307 | The overload without a due date uses the line date as the due date and as the origin date. |
| LineFactory.CreateMoveLineWithTaxLine | axelor-account/src/main/java/com/axelor/apps/account/service/moveline/MoveLineCreateServiceImpl.java:816-849 | The full-information overload with a tax line also records that tax line. Side, amounts and origin date are as in the full constructor. |
| LineFactory.CreateMoveLineWithTax | axelor-account/src/main/java/com/axelor/apps/account/service/moveline/MoveLineCreateServiceImpl.java:852-876 | Given a tax line, the line records it with its rate and its tax code. It is due on its date. |
| LineFactory.CreateTaxAccumulatorLine | axelor-account/src/main/java/com/axelor/apps/account/service/moveline/MoveLineCreateServiceImpl.java:790-813 | The empty tax line auto-tax starts from (built by `createMoveLine` with a zero amount): one-sided, its amount is the converted zero, and it is zero when the converter keeps zero. It is numbered after the move's lines, has both source tax line and tax line set, and the move's origin and description. |
| InvoiceLines.OriginOf | axelor-account/src/main/java/com/axelor/apps/account/service/moveline/MoveLineCreateServiceImpl.java:352-356 | The origin of the lines is the supplier invoice number on a purchase and the invoice id otherwise. |
| InvoiceLines.ProductLineRejection | axelor-account/src/main/java/com/axelor/apps/account/service/moveline/MoveLineCreateServiceImpl.java:365-397 | An invoice line without an account is a configuration error. A missing analytic distribution that the account requires is a missing-field error. An analytic copy on a line left without an account is a null dereference. These three are the only rejections (`ProductLine`). |
| InvoiceLines.ProductLineShape | axelor-account/src/main/java/com/axelor/apps/account/service/moveline/MoveLineCreateServiceImpl.java:399-439 | A booked invoice line gives a one-sided line with the given number. It holds the absolute company and currency totals, the invoice line's tax line and its analytic lines. |
| InvoiceLines.ProductsFoldLines | axelor-account/src/main/java/com/axelor/apps/account/service/moveline/MoveLineCreateServiceImpl.java:358-449 | The product lines are numbered 1..n and each is one-sided. There is exactly one for each invoice line with a non-zero company total (`NonZero`), in order: the k-th carries the k-th such invoice line's absolute company and currency amounts, its tax line and its analytic lines. Their side-total is the sum of the absolute company totals. |
| InvoiceLines.ProductsFoldFailsIff | axelor-account/src/main/java/com/axelor/apps/account/service/moveline/MoveLineCreateServiceImpl.java:361-449 | Product generation fails exactly when some invoice line with a non-zero company total is rejected. |
| InvoiceLines.ProductsFoldFailurePersists | axelor-account/src/main/java/com/axelor/apps/account/service/moveline/MoveLineCreateServiceImpl.java:361-449 | Once a prefix of the invoice lines fails, the whole run fails with the same error. |
| InvoiceLines.GenerateProductLines | axelor-account/src/main/java/com/axelor/apps/account/service/moveline/MoveLineCreateServiceImpl.java:358-449 | The product loop with its running line number computes the product fold. |
| InvoiceLines.TaxPartOutcome | axelor-account/src/main/java/com/axelor/apps/account/service/moveline/MoveLineCreateServiceImpl.java:458-531 | `TaxPart`: a tax part fails exactly when the tax service has no account for it, with a configuration error naming the tax. Otherwise it appends a one-sided line numbered next that carries the tax line, its rate and its code. |
| InvoiceLines.TaxPartExtends | axelor-account/src/main/java/com/axelor/apps/account/service/moveline/MoveLineCreateServiceImpl.java:464-531 | A booked tax part keeps the lines numbered and adds its absolute company amount to the side-total. |
| InvoiceLines.TaxStepExtends | axelor-account/src/main/java/com/axelor/apps/account/service/moveline/MoveLineCreateServiceImpl.java:456-531 | One invoice tax keeps the lines before it and their numbering, and appends exactly one line per booked part (none when its company total is zero or the part's amounts are zero), the fixed-asset part first. Each new line carries the tax line and its part's absolute company amount, and these amounts are added to the side-total. |
| InvoiceLines.TaxesFoldLines | axelor-account/src/main/java/com/axelor/apps/account/service/moveline/MoveLineCreateServiceImpl.java:452-532 | The tax lines are appended after the product lines, which are kept, and continue their numbering, each one-sided. There is one line per booked tax part (`BookedParts`), so none for a tax whose company total is zero. They add the absolute amounts of every booked tax part. |
| InvoiceLines.TaxesFoldFailsIff | axelor-account/src/main/java/com/axelor/apps/account/service/moveline/MoveLineCreateServiceImpl.java:452-532 | Tax generation fails exactly when a booked part of some tax has no tax account. |
| InvoiceLines.TaxesFoldFailurePersists | axelor-account/src/main/java/com/axelor/apps/account/service/moveline/MoveLineCreateServiceImpl.java:452-532 | Once a prefix of the taxes fails, the whole run fails with the same error. |
| InvoiceLines.GenerateTaxLines | axelor-account/src/main/java/com/axelor/apps/account/service/moveline/MoveLineCreateServiceImpl.java:452-532 | The tax loop computes the tax fold. |
| InvoiceLines.GenerateTaxStep | axelor-account/src/main/java/com/axelor/apps/account/service/moveline/MoveLineCreateServiceImpl.java:456-531 | One turn of the tax loop: the fixed-asset part, then the other part. |
| InvoiceLines.GeneratedLines | axelor-account/src/main/java/com/axelor/apps/account/service/moveline/MoveLineCreateServiceImpl.java:358-541 | The product and tax lines are numbered 1..n and one-sided. Their side-total is the absolute product total plus the absolute total of the booked tax parts. |
| InvoiceLines.AppendTermLines | axelor-account/src/main/java/com/axelor/apps/account/service/moveline/MoveLineCreateServiceImpl.java:534-547 | The term lines, built and rounded as written, are appended after the generated lines and numbered after them. When the rounding fails (no merged line), the whole result is that null dereference. |
| InvoiceLines.AssembleLines | axelor-account/src/main/java/com/axelor/apps/account/service/moveline/MoveLineCreateServiceImpl.java:358-547 | The product lines, then the tax lines, then the term lines (`MoveLinesFor`, `ProductLine`, `TaxPart`); the first failure of any stage is the result. |
| InvoiceLines.AssembledLinesNeedMergedTerm | axelor-account/src/main/java/com/axelor/apps/account/service/moveline/MoveLineCreateServiceImpl.java:534-547 | Once product and tax generation succeed, the assembly fails exactly when every invoice term is a hold-back (or there is none), with the rounding step's null dereference. |
| InvoiceLines.AssembledLinesNumbered | axelor-account/src/main/java/com/axelor/apps/account/service/moveline/MoveLineCreateServiceImpl.java:358-547 | A successful run gives every line a distinct number, from 1 up to the number of lines. |
| InvoiceLines.TermLinesMatchGenerated | axelor-account/src/main/java/com/axelor/apps/account/service/moveline/MoveLineCreateServiceImpl.java:534-547 | With the corrected rounding and some term that is not a hold-back: when every term line is a credit, their credits add up to the total of the product and tax lines; when the merged line has no credit, the term lines' side-total does. |
| InvoiceLines.CreateMoveLines | axelor-account/src/main/java/com/axelor/apps/account/service/moveline/MoveLineCreateServiceImpl.java:318-554 | A missing partner or partner account is a missing-field error. Otherwise the result is the assembled lines, consolidated when asked for, or the first failure, including the rounding step's null dereference. |
| TermLines.HoldBacks | axelor-account/src/main/java/com/axelor/apps/account/service/moveline/MoveLineCreateServiceImpl.java:574-600 | The hold-back terms in order; every one is a hold-back. |
| TermLines.NonHoldBack | axelor-account/src/main/java/com/axelor/apps/account/service/moveline/MoveLineCreateServiceImpl.java:653-658 | The other terms in order; together with the hold-backs they account for every term. |
| TermLines.HoldBackLine | axelor-account/src/main/java/com/axelor/apps/account/service/moveline/MoveLineCreateServiceImpl.java:576-600 | A hold-back line is one-sided. It holds the term amount converted and rounded to 2 places. It is on the fiscal mapping of the hold-back account, due on the term's due date, and carries only that term. |
| TermLines.OpenedMergedLine | axelor-account/src/main/java/com/axelor/apps/account/service/moveline/MoveLineCreateServiceImpl.java:602-623 | The merged line opens on the first other term: on the mapped partner account, due on the latest term due date. |
| TermLines.Accumulated | axelor-account/src/main/java/com/axelor/apps/account/service/moveline/MoveLineCreateServiceImpl.java:624-648 | A later term adds its unrounded converted amount to the debit when that is non-zero, else to the credit. It adds its amount to the currency amount and changes nothing else. |
| TermLines.BookTerm | axelor-account/src/main/java/com/axelor/apps/account/service/moveline/MoveLineCreateServiceImpl.java:574-651 | One turn of the first term loop computes one fold step. |
| TermLines.BookTerms | axelor-account/src/main/java/com/axelor/apps/account/service/moveline/MoveLineCreateServiceImpl.java:574-651 | The first term loop computes the fold over all terms. |
| TermLines.AttachedTerms | axelor-account/src/main/java/com/axelor/apps/account/service/moveline/MoveLineCreateServiceImpl.java:653-660 | The second loop attaches exactly the terms that are not hold-backs, in order. |
| TermLines.TermsFoldShape | axelor-account/src/main/java/com/axelor/apps/account/service/moveline/MoveLineCreateServiceImpl.java:574-651 | One line per hold-back term. A merged line exists exactly when some term is not a hold-back. The next number counts both. |
| TermLines.TermsFoldHoldBackLines | axelor-account/src/main/java/com/axelor/apps/account/service/moveline/MoveLineCreateServiceImpl.java:576-600 | The k-th hold-back line belongs to the k-th hold-back term, is due on its due date, and holds its rounded converted amount. |
| TermLines.TermsFoldCounters | axelor-account/src/main/java/com/axelor/apps/account/service/moveline/MoveLineCreateServiceImpl.java:574-651 | Every number handed out lies in [first, next). The hold-back line numbers are distinct from each other and from the merged line's. |
| TermLines.TermStepKeepsCounters | axelor-account/src/main/java/com/axelor/apps/account/service/moveline/MoveLineCreateServiceImpl.java:574-651 | One fold step keeps the numbering well formed. |
| TermLines.TermStepMerges | axelor-account/src/main/java/com/axelor/apps/account/service/moveline/MoveLineCreateServiceImpl.java:602-648 | One step keeps the merged line equal to the first merged term rounded plus the later ones unrounded. |
| TermLines.TermsFoldMergedTotals | axelor-account/src/main/java/com/axelor/apps/account/service/moveline/MoveLineCreateServiceImpl.java:602-648 | The merged line's amount is the first other term's rounded amount plus the converted amounts of the later ones. Its currency amount is their amount total. |
| TermLines.TermLinesBeforeRoundingShape | axelor-account/src/main/java/com/axelor/apps/account/service/moveline/MoveLineCreateServiceImpl.java:574-660 | Before rounding there is one line per hold-back term, plus the merged line last, carrying the other terms. The numbers are distinct and consecutive from the first one. |
| TermLines.TermLinesShape | axelor-account/src/main/java/com/axelor/apps/account/service/moveline/MoveLineCreateServiceImpl.java:556-665 | The term lines have that shape after rounding too. |
| TermLines.AmountChangesKeepCounters | axelor-account/src/main/java/com/axelor/apps/account/service/moveline/MoveLineCreateServiceImpl.java:667-692 | Changing only amounts keeps the numbers and the attached terms. |
| TermLines.TermLinesMatchTotal | axelor-account/src/main/java/com/axelor/apps/account/service/moveline/MoveLineCreateServiceImpl.java:662-692 | Corrected rounding, with a merged line: all-credit term lines have credits adding up to the total to match; when the merged line has no credit, the side-total matches it. |
| TermLines.TermLinesMatchOnlyFromAbove | axelor-account/src/main/java/com/axelor/apps/account/service/moveline/MoveLineCreateServiceImpl.java:662-692 | As written, with a merged line the step succeeds. When every term line is a credit, the credits match the total to match exactly when the term lines started at or above it. When the merged line has no credit, the same holds for the side total (the debits). |
| TermLines.AddInvoiceTermMoveLines | axelor-account/src/main/java/com/axelor/apps/account/service/moveline/MoveLineCreateServiceImpl.java:556-665 | The two term loops, then the rounding step as written, compute the term lines (`TermLinesOf`), failing when there is no merged line. |
| Rounding.SideTotalAndDirection | axelor-account/src/main/java/com/axelor/apps/account/service/moveline/MoveLineCreateServiceImpl.java:669-678 | The loop totals the credit of each line with a positive credit and the debit of each other line. It reports whether every line is a credit. |
| Rounding.AllCreditSideTotal | axelor-account/src/main/java/com/axelor/apps/account/service/moveline/MoveLineCreateServiceImpl.java:669-678 | On all-credit lines the side-total is the credit total. |
| Rounding.RoundValueAsWritten | axelor-account/src/main/java/com/axelor/apps/account/service/moveline/MoveLineCreateServiceImpl.java:667-695 | As written, and used by the pipeline: without a merged line the step fails (null dereference). Otherwise only the merged line's amounts change. A positive difference is removed, but a negative one is added again, so the merged line's amount always goes down by the size of the difference, on the credit when every term line is a credit and on the debit otherwise. The credits then end 2·difference away when every term line is a credit, and the side total does when the merged line has no credit. When not every term line is a credit but the merged line is one, its debit changes while its credit is what counts, so the side total does not move and the correction is lost. |
| Rounding.UpdateRoundValueIfNecessary | axelor-account/src/main/java/com/axelor/apps/account/service/moveline/MoveLineCreateServiceImpl.java:667-695 | The rounding method, as written, computes `RoundValueAsWritten`: a null dereference without a merged line, else only the merged line's amounts change. |
| Rounding.ReconciledMatchesTotal | axelor-account/src/main/java/com/axelor/apps/account/service/moveline/MoveLineCreateServiceImpl.java:667-695 | Corrected (`Reconciled`): only the merged line's amounts change. Lines that already match, or have no merged line, stay unchanged. The credit total (all credits) or the side-total (merged line with no credit) then equals the total to match. |
| Rounding.ReconciledCredits | axelor-account/src/main/java/com/axelor/apps/account/service/moveline/MoveLineCreateServiceImpl.java:681-688 | On all-credit lines, the merged line's credit absorbs the whole difference. |
| Rounding.ReconciledDebits | axelor-account/src/main/java/com/axelor/apps/account/service/moveline/MoveLineCreateServiceImpl.java:683-690 | Otherwise, the merged line's debit absorbs it. |
| Rounding.ReconcileRounding | axelor-account/src/main/java/com/axelor/apps/account/service/moveline/MoveLineCreateServiceImpl.java:667-695 | The rounding loop computes the corrected rounding. |
| Rounding.RoundingAsWrittenMovesAway | axelor-account/src/main/java/com/axelor/apps/account/service/moveline/MoveLineCreateServiceImpl.java:679-692 | Concrete case: a credit of 33.33 that should total 33.34 becomes 33.32 as written, and 33.34 once corrected. |
| Rounding.RoundingAsWrittenFailsWithoutMergedLine | axelor-account/src/main/java/com/axelor/apps/account/service/moveline/MoveLineCreateServiceImpl.java:653-692 | When there is no merged line, the step as written fails even though the totals already match. Corrected, it leaves the lines alone. |
| AutoTax.SourceTaxLineKeyAsWritten | axelor-account/src/main/java/com/axelor/apps/account/service/moveline/MoveLineCreateServiceImpl.java:760 | The key as written is the account code followed by a non-empty digit string whose value is the tax line id. |
| AutoTax.SourceTaxLineKeyCollides | axelor-account/src/main/java/com/axelor/apps/account/service/moveline/MoveLineCreateServiceImpl.java:760 | The accounts "4456" with tax line 61 and "44566" with tax line 1 get the same key as written, but different pair keys. |
| AutoTax.KeyAsWrittenMergesTaxLines | axelor-account/src/main/java/com/axelor/apps/account/service/moveline/MoveLineCreateServiceImpl.java:760-786 | With the key as written, the taxes of account "4456" with tax line 61 and of account "44566" with tax line 1 go into one tax line: the pass map has one entry, holding the sum of both taxes. |
| AutoTax.PairKeysKeepTaxLinesApart | axelor-account/src/main/java/com/axelor/apps/account/service/moveline/MoveLineCreateServiceImpl.java:760-786 | Corrected: with (account code, tax line) pair keys, the same two calls keep two tax lines; the first is left as it was, and the second holds only its own tax. |
| AutoTax.AutoTaxFiscalPosition | axelor-account/src/main/java/com/axelor/apps/account/service/moveline/MoveLineCreateServiceImpl.java:712-723 | On an invoice move, the invoice's fiscal position is used, else its partner's. Otherwise the move partner's is used, and there is none without a partner. |
| AutoTax.TaxAccountFor | axelor-account/src/main/java/com/axelor/apps/account/service/moveline/MoveLineCreateServiceImpl.java:725-739 | The fiscal position's mapping is used when it gives an account. Otherwise a missing account type is a null dereference, and the tax account is chosen by account type: debt or charge (purchase), income (sale), asset (purchase, fixed assets). Any other type gives none. |
| AutoTax.MissingTaxAccount | axelor-account/src/main/java/com/axelor/apps/account/service/moveline/MoveLineCreateServiceImpl.java:741-758 | A missing tax account is a configuration error. The message names the fiscal position when there is one. A missing company is a null dereference. |
| AutoTax.AccumulateAddsBaseTimesRate | axelor-account/src/main/java/com/axelor/apps/account/service/moveline/MoveLineCreateServiceImpl.java:762-786 | `Accumulate`: the tax line holds its base line's amounts plus the taxed line's debit and credit times the rate. The base is the line of this pass, else the move's line, else a new one. It is in the pass map afterwards exactly when it is non-zero or was there, and the move's map sees the update exactly when it held that key. |
| AutoTax.AccumulateKeepsEntriesShared | axelor-account/src/main/java/com/axelor/apps/account/service/moveline/MoveLineCreateServiceImpl.java:762-786 | When every key present in both maps names the same line, this stays so after a call. |
| AutoTax.AutoTaxAccumulates | axelor-account/src/main/java/com/axelor/apps/account/service/moveline/MoveLineCreateServiceImpl.java:764-786 | Two taxed lines on the same key add up: the tax line holds the base plus the sum of both lines times the rate. |
| AutoTax.AccumulateTouchesOnlyItsKey | axelor-account/src/main/java/com/axelor/apps/account/service/moveline/MoveLineCreateServiceImpl.java:764-786 | A call leaves the entries of every other (account, tax line) pair of both maps unchanged. |
| AutoTax.TaxLineMaps.FindTaxLine | axelor-account/src/main/java/com/axelor/apps/account/service/moveline/MoveLineCreateServiceImpl.java:764-771 | The lookup prefers the line of this pass, then the move's existing line, else creates one. |
| AutoTax.TaxLineMaps.Record | axelor-account/src/main/java/com/axelor/apps/account/service/moveline/MoveLineCreateServiceImpl.java:783-786 | The updated line goes back to the existing map when it came from there. It enters the pass map when non-zero. |
| AutoTax.TaxLineMaps.CreateMoveLineForAutoTax | axelor-account/src/main/java/com/axelor/apps/account/service/moveline/MoveLineCreateServiceImpl.java:698-788 | A missing account type fails with a null dereference, and no tax account with the configuration error; both leave the maps unchanged. Otherwise it returns the accumulated line under the key as written, with both maps updated as `Accumulate` says. Maps whose shared keys agree keep agreeing. |
| Balance.FirstTwoSided | axelor-account/src/main/java/com/axelor/apps/account/service/move/MoveValidateServiceImpl.java:424-433 | The first line with both a positive debit and a positive credit, if any. |
| Balance.BalanceOutcome | axelor-account/src/main/java/com/axelor/apps/account/service/move/MoveValidateServiceImpl.java:415-449 | The check passes exactly when no line is two-sided and debits equal credits. It fails only with an inconsistency. |
| Balance.BalanceOutcomeReportsFirstFault | axelor-account/src/main/java/com/axelor/apps/account/service/move/MoveValidateServiceImpl.java:424-447 | A failure names the first two-sided line. Otherwise it reports the reference with both totals. |
| Balance.ValidateWellBalancedMove | axelor-account/src/main/java/com/axelor/apps/account/service/move/MoveValidateServiceImpl.java:415-449 | The loop computes that outcome. |
| Balance.FirstTwoSidedOfPrefix | axelor-account/src/main/java/com/axelor/apps/account/service/move/MoveValidateServiceImpl.java:424-433 | A two-sided line found in a prefix is the first of the whole list. |
| Balance.OneSidedEqualTotalsBalance | axelor-account/src/main/java/com/axelor/apps/account/service/move/MoveValidateServiceImpl.java:415-449 | One-sided lines with equal totals pass. |
| Preconditions.InactiveAccountsAreTheInactiveOnes | axelor-account/src/main/java/com/axelor/apps/account/service/move/MoveValidateServiceImpl.java:657-664 | The collected accounts are exactly the inactive accounts set on the lines. |
| Preconditions.AnalyticLinesCollected | axelor-account/src/main/java/com/axelor/apps/account/service/move/MoveValidateServiceImpl.java:598-601 | Flattening keeps every analytic allocation of every line and adds none. |
| Preconditions.InactiveAnalyticAccountsAreTheInactiveOnes | axelor-account/src/main/java/com/axelor/apps/account/service/move/MoveValidateServiceImpl.java:598-607 | The collected analytic accounts are exactly the inactive ones of the allocations. |
| Preconditions.InactiveAnalyticAccountsAreSome | axelor-account/src/main/java/com/axelor/apps/account/service/move/MoveValidateServiceImpl.java:598-607 | Every collected analytic account comes from some allocation. |
| Preconditions.InactiveVerdict | axelor-account/src/main/java/com/axelor/apps/account/service/move/MoveValidateServiceImpl.java:611-621 | Nothing found passes. One found gives the single-entity error naming it. Several give the plural error with the names joined by ", ". |
| Preconditions.InactiveAccountCheckIff | axelor-account/src/main/java/com/axelor/apps/account/service/move/MoveValidateServiceImpl.java:655-680 | `checkInactiveAccount` passes exactly when no line's account is inactive. Otherwise it names the distinct inactive codes in first-occurrence order. |
| Preconditions.InactiveAnalyticAccountCheckIff | axelor-account/src/main/java/com/axelor/apps/account/service/move/MoveValidateServiceImpl.java:595-623 | `checkInactiveAnalyticAccount` passes exactly when no allocation books to an inactive analytic account. |
| Preconditions.ConfiguredVatSystemFound | axelor-account/src/main/java/com/axelor/apps/account/service/move/MoveValidateServiceImpl.java:709-723 | The scan answers true exactly when some line has a tax line on a non-tax account that allows taxes and has a chosen VAT system. |
| Preconditions.VatSystemIssueFound | axelor-account/src/main/java/com/axelor/apps/account/service/move/MoveValidateServiceImpl.java:725-736 | The scan answers true exactly when some tax-account line has the default VAT system. |
| Preconditions.ValidateVatSystem | axelor-account/src/main/java/com/axelor/apps/account/service/move/MoveValidateServiceImpl.java:692-707 | The only failure is the configuration error naming the move. |
| Preconditions.ValidateVatSystemIff | axelor-account/src/main/java/com/axelor/apps/account/service/move/MoveValidateServiceImpl.java:692-707 | The check fails exactly on a non-empty move of an expense or sale journal that has both a configured line and a default-VAT tax line. |
| Preconditions.LineCheck | axelor-account/src/main/java/com/axelor/apps/account/service/move/MoveValidateServiceImpl.java:260-295 | A line without an account is a null dereference. A required tax line must be present. A required analytic distribution must be present, and a forbidden one absent. Then the line control service decides. |
| Preconditions.LinesCheckIsFirstFailingLine | axelor-account/src/main/java/com/axelor/apps/account/service/move/MoveValidateServiceImpl.java:260-296 | The per-line checks pass exactly when every line passes. Otherwise they report the first failing line's error. |
| Preconditions.FirstFailureIsEarliest | axelor-account/src/main/java/com/axelor/apps/account/service/move/MoveValidateServiceImpl.java:165-302 | Running checks in order passes exactly when none is violated. Otherwise it raises the error of the first violated one. |
| Preconditions.PreconditionsMatchCheckOrder | axelor-account/src/main/java/com/axelor/apps/account/service/move/MoveValidateServiceImpl.java:165-302 | `checkPreconditions` equals the ordered table of its checks, run until the first violation. |
| Preconditions.PreconditionsFailAtFirstViolation | axelor-account/src/main/java/com/axelor/apps/account/service/move/MoveValidateServiceImpl.java:165-302 | `checkPreconditions` (`CheckPreconditions`) passes exactly when no check is violated. Otherwise it raises the error of the earliest violated check. |
| Preconditions.InactiveCheckIsItsVerdict | axelor-account/src/main/java/com/axelor/apps/account/service/move/MoveValidateServiceImpl.java:226-230 | Each inactive-entity check is violated exactly when its verdict fails, with that verdict's error. |
| Preconditions.LineCheckViolations | axelor-account/src/main/java/com/axelor/apps/account/service/move/MoveValidateServiceImpl.java:258-301 | The line, tax-line and balance checks are violated only on moves that are neither openings nor closures, with their own errors. |
| Preconditions.EntityChecksIff | axelor-account/src/main/java/com/axelor/apps/account/service/move/MoveValidateServiceImpl.java:226-232 | The entity checks pass exactly when no analytic journal, account or analytic account is inactive, the journal is active and the VAT check passes. |
| Preconditions.OriginChecksPass | axelor-account/src/main/java/com/axelor/apps/account/service/move/MoveValidateServiceImpl.java:234-301 | The origin checks pass only on a permitted functional origin. Openings and closures need nothing more; other moves need every line, the tax lines and the balance to pass. |
| Preconditions.PassingMoveIsComplete | axelor-account/src/main/java/com/axelor/apps/account/service/move/MoveValidateServiceImpl.java:165-256 | A passing move has a company, journal, period and currency. Its journal is open in the period and active. Its lines are non-empty and not all zero. The user may post on the period. Its functional origin is set and allowed. |
| Preconditions.PassingMoveIsBalanced | axelor-account/src/main/java/com/axelor/apps/account/service/move/MoveValidateServiceImpl.java:258-301 | A passing move that is neither an opening nor a closure is balanced. Every one of its lines passes its checks. |
| Posting.CompletionFillsLines | axelor-account/src/main/java/com/axelor/apps/account/service/move/MoveValidateServiceImpl.java:132-162 | `CompletedLines`: lines are numbered 1.. in list order. A missing date takes the move date, and a missing due date does so on partner-balance accounts. A missing origin date takes the move's origin date, else the move date. The move partner, when set, replaces the line partner. Nothing else changes. |
| Posting.CompletedLineAt | axelor-account/src/main/java/com/axelor/apps/account/service/move/MoveValidateServiceImpl.java:137-161 | The i-th completed line is the i-th line completed with number i + 1. |
| Posting.CompletionKeepsAccounts | axelor-account/src/main/java/com/axelor/apps/account/service/move/MoveValidateServiceImpl.java:132-162 | Completion keeps every line's account. |
| Posting.CompletionIsIdempotent | axelor-account/src/main/java/com/axelor/apps/account/service/move/MoveValidateServiceImpl.java:132-162 | Completing twice gives the same as once. |
| Posting.CompletionKeepsTotals | axelor-account/src/main/java/com/axelor/apps/account/service/move/MoveValidateServiceImpl.java:132-162 | Completion keeps the debit and credit totals. |
| Posting.CompleteMoveLines | axelor-account/src/main/java/com/axelor/apps/account/service/move/MoveValidateServiceImpl.java:132-162 | The loop replaces the move's lines by their completion. |
| Posting.FreezingSnapshotsAccountAndPartner | axelor-account/src/main/java/com/axelor/apps/account/service/move/MoveValidateServiceImpl.java:520-545 | `FrozenLines`: each frozen line records its account's id, code and name, its partner's id, full name and partner number when set, and its tax line's rate and tax code when set (otherwise rate and code are unchanged). Its account, partner, amounts and number are unchanged. |
| Posting.FreezingIsIdempotent | axelor-account/src/main/java/com/axelor/apps/account/service/move/MoveValidateServiceImpl.java:520-547 | Freezing twice gives the same as once. |
| Posting.FreezeAccountAndPartnerFields | axelor-account/src/main/java/com/axelor/apps/account/service/move/MoveValidateServiceImpl.java:520-547 | It passes exactly when every line has an account, and then the lines are frozen. Otherwise the first line without an account is a null dereference, and the lines before it are already frozen. |
| Posting.StatusAfterValidation | axelor-account/src/main/java/com/axelor/apps/account/service/move/MoveValidateServiceImpl.java:452-466 | Accounted when the move is in the daybook, not in daybook mode, or an automatic opening or closure. Otherwise in the daybook. A missing functional origin on an automatic new or simulated move in daybook mode is a null dereference. |
| Posting.DaybookThenAccounted | axelor-account/src/main/java/com/axelor/apps/account/service/move/MoveValidateServiceImpl.java:452-466 | Outside daybook mode a move is accounted at once. In daybook mode a manual move goes to the daybook first, and is accounted when validated again. |
| Posting.FixedAssetLinesAreTheImmobilisations | axelor-account/src/main/java/com/axelor/apps/account/service/move/MoveValidateServiceImpl.java:390-406 | The generator is called exactly for the lines with a fixed-asset category on an immobilisation account, in order. A category on a line whose account or account type is missing fails at the first such line. |
| Posting.FixedAssetFailureIsNullDereference | axelor-account/src/main/java/com/axelor/apps/account/service/move/MoveValidateServiceImpl.java:396-401 | The generator fails only by a null dereference. |
| Posting.FixedAssetFailurePersists | axelor-account/src/main/java/com/axelor/apps/account/service/move/MoveValidateServiceImpl.java:396-404 | A failing prefix makes the whole list fail the same way. |
| Posting.GenerateFixedAssetMoveLine | axelor-account/src/main/java/com/axelor/apps/account/service/move/MoveValidateServiceImpl.java:390-406 | The loop computes the list of lines handed to the generator. |
| Posting.UpdateValidateStatus | axelor-account/src/main/java/com/axelor/apps/account/service/move/MoveValidateServiceImpl.java:452-467 | Sets the new status. An accounted move gets today's accounting date and its fixed assets generated. A daybook move keeps its accounting date. |
| Posting.ClosedPeriodFault | axelor-account/src/main/java/com/axelor/apps/account/service/move/MoveValidateServiceImpl.java:345-357 | On a closed period the daybook message is raised in daybook mode for a new or simulated move, and the accounting message otherwise. Both are configuration errors. |
| Posting.PostingRefusalIsPreconditionsThenPeriod | axelor-account/src/main/java/com/axelor/apps/account/service/move/MoveValidateServiceImpl.java:338-358 | A move is refused with its first failed precondition. A move meeting them all is refused exactly when its period is closed and it is not an automatic year closure. |
| Posting.CompleteAndValidate | axelor-account/src/main/java/com/axelor/apps/account/service/move/MoveValidateServiceImpl.java:370-372 | Completes and freezes the lines, then sets the status. Any failure is a null dereference. |
| Posting.PostAccepted | axelor-account/src/main/java/com/axelor/apps/account/service/move/MoveValidateServiceImpl.java:341-372 | Assigns the sequence outside daybook mode or for a daybook move, and marks adjusting-period moves. Then it completes, freezes and sets the status. |
| Posting.Accounting | axelor-account/src/main/java/com/axelor/apps/account/service/move/MoveValidateServiceImpl.java:334-378 | A refused move is left unchanged with the refusal error. Otherwise it passes exactly when completion, freezing and the status change succeed; the sequence and adjusting flags are set; any failure is a null dereference; and a pass leaves the frozen completed lines, the new status and, when accounted, today's accounting date and the fixed-asset lines. |
| Posting.BalancePartnersStep | axelor-account/src/main/java/com/axelor/apps/account/service/move/MoveValidateServiceImpl.java:498-509 | A line adds its partner exactly when its frozen account is found, used for partner balance, and its frozen partner is found. |
| Posting.GetPartnerOfMoveBeforeUpdate | axelor-account/src/main/java/com/axelor/apps/account/service/move/MoveValidateServiceImpl.java:496-512 | The distinct partners of those lines in first-occurrence order, without duplicates, and exactly those partners. |
| Posting.AppendError | axelor-account/src/main/java/com/axelor/apps/account/service/move/MoveValidateServiceImpl.java:562-565 | The error text gets ", " before each reference after the first. |
| Posting.FailedReferences | axelor-account/src/main/java/com/axelor/apps/account/service/move/MoveValidateServiceImpl.java:555-568 | The failed moves' references, in order, taken from the batch. |
| Posting.BatchErrorsJoinFailedReferences | axelor-account/src/main/java/com/axelor/apps/account/service/move/MoveValidateServiceImpl.java:550-571 | With non-empty references, the batch's error text is the failed references joined by ", ". |
| Posting.JoinCommaOfNonEmpty | axelor-account/src/main/java/com/axelor/apps/account/service/move/MoveValidateServiceImpl.java:562-565 | Joined non-empty references are empty exactly when there are none. |
| Posting.BatchErrorsSnoc | axelor-account/src/main/java/com/axelor/apps/account/service/move/MoveValidateServiceImpl.java:555-568 | One more move of the batch appends its reference to the error text exactly when it failed. |
| Posting.AccountingMultiple | axelor-account/src/main/java/com/axelor/apps/account/service/move/MoveValidateServiceImpl.java:550-571 | A missing list gives "". Otherwise every move is posted in turn, whatever happened before, and the error text is `BatchErrors` of the references and the outcomes, which is the failed references joined by ", " when no reference is empty (`BatchErrorsJoinFailedReferences`). For a list of distinct moves, each move passes exactly when posting it alone from its initial state would, a posted move ends in its posted state (`PostedState`), and a refused move fails with its refusal and is left unchanged. |
| Posting.PostEach | axelor-account/src/main/java/com/axelor/apps/account/service/move/MoveValidateServiceImpl.java:555-568 | The batch loop: one outcome per move, the error text is that of the outcomes, and on distinct moves each outcome is the one expected from the move's initial state, and each posted move ends in its posted state. |
| Posting.BatchTurn | axelor-account/src/main/java/com/axelor/apps/account/service/move/MoveValidateServiceImpl.java:556-567 | One turn of the batch loop: the move is posted with its exception caught, and its reference is appended to the error text exactly when it failed. No other move changes. From its expected state the move passes exactly when expected, a posted move ends in its posted state, and a refused move is left unchanged. On distinct moves, the turn keeps every other move in the state recorded for it (`Settled`). |
| Posting.AccountingOne | axelor-account/src/main/java/com/axelor/apps/account/service/move/MoveValidateServiceImpl.java:557-567 | One move with its exception caught: it passes exactly when the preconditions, the period test and the validation all succeed (`PostingSucceeds`); a posted move ends in `PostedState`: lines completed and frozen, the status after validation, the accounting date set to today when accounted, the adjusting flag and the sequence flag set; a refused move fails with its refusal and is left unchanged. |
| Posting.AccountingFrom | axelor-account/src/main/java/com/axelor/apps/account/service/move/MoveValidateServiceImpl.java:334-378 | `accounting` from a recorded state: a refused move fails and is unchanged; otherwise it has a journal, passes exactly when the validation succeeds, and a pass leaves it in `PostedState` of its initial state. |
| Posting.SimulateMultiple | axelor-account/src/main/java/com/axelor/apps/account/service/move/MoveValidateServiceImpl.java:575-584 | Every move of the list becomes simulated. A missing list changes nothing. |
| Text.JoinCommaLength | axelor-account/src/main/java/com/axelor/apps/account/service/move/MoveValidateServiceImpl.java:620 | The joined text is the elements plus two characters per separator. |
| Text.DistinctIsDeduplication | axelor-account/src/main/java/com/axelor/apps/account/service/move/MoveValidateServiceImpl.java:608 | `distinct()` keeps one copy of each element and adds none. |
| Text.DistinctKeepsFirstOccurrenceOrder | axelor-account/src/main/java/com/axelor/apps/account/service/move/MoveValidateServiceImpl.java:608 | `distinct()` orders elements by their first occurrence. |
| Text.DistinctSnoc | axelor-account/src/main/java/com/axelor/apps/account/service/move/MoveValidateServiceImpl.java:505-506 | Adding an element appends it unless already seen. |
| Text.NatToString | axelor-account/src/main/java/com/axelor/apps/account/service/moveline/MoveLineCreateServiceImpl.java:760 | The decimal rendering of an id is a non-empty digit string without a leading zero. |
| Text.NatToStringValue | axelor-account/src/main/java/com/axelor/apps/account/service/moveline/MoveLineCreateServiceImpl.java:760 | The rendering reads back as the id: its digit value is the id. |

## Left out

- Logging, `moveRepository.save`, `JPA.clear()` and `TraceBackService.trace` have no effect on the modelled state and are not modelled.
- Posting.Accounting: the `@Transactional` rollback is not modelled. A move refused by the checks or the closed-period test is left unchanged. When a later step fails (a line without an account, a fixed-asset line without an account type), the fields already set in memory stay set.
- Posting.Accounting: `moveInvoiceTermService.generateInvoiceTerms` and `moveCustAccountService.updateCustomerAccount` are calls into services that are not part of this model. Their effects on the move are left out.
- Posting.PostAccepted: `moveSequenceService.setSequence` is modelled as a flag saying that a sequence was assigned. The reference it writes is not modelled.
- Posting.AccountingMultiple: the move is posted as given, not re-read with `moveRepository.find`. Its reference is read before posting. The error text is exactly the source's; the per-move outcomes are a ghost record.
- Posting.AccountingMultiple: a move reference is never null here. In the source, a failed move whose reference is null makes `concat` throw from inside the catch block, which ends the batch; that is not modelled.
- Posting.AccountingMultiple: the per-move guarantees are stated for a list of distinct moves. A move listed twice is posted twice, and only the error text is stated for it.
- The `accountingMultiple(Query<Move>)` variant is not modelled. It posts moves until the query runs dry, and an exception stops the loop.
- `updateInDayBookMode` is not part of the modelled core.
- Posting.FreezeAccountAndPartnerFields: the service-type and DAS2-activity snapshots are not modelled, because the model has no service types or DAS2 activities.
- Posting.GenerateFixedAssetMoveLine: the generator itself (`generateAndSaveFixedAsset`) is not part of this model. The method returns the indices of the lines it is called for. `Objects.requireNonNull(move)` and a missing line list cannot arise, because the move and its lines are not optional here.
- Preconditions.CheckPreconditions: the cut-off date check, the authorisation to post on the period, `validateMoveLine` and `checkTaxMoveLines` are calls into services that are not part of this model. Their answers come from `PostingContext`. The current user (`AuthUtils.getUser`) is part of that answer.
- Preconditions.CheckPreconditions: the title of the functional origin looked up in the metadata store is not modelled. The error carries the functional origin's code instead.
- The functional-origin codes for opening and closure are named constants whose values (1 and 2) are placeholders. Only their distinctness matters. Statuses and technical origins are datatypes.
- The VAT system of a move line is never null here, so the unboxing of a null one is not modelled.
- A move line list that is `null` is not modelled; the line list is always a sequence.
- InvoiceLines.ProductLineShape: the analytic lines are copied as they are. Their re-typing to real accounting, their account and their amounts (`updateAnalyticMoveLine`) are not modelled. Neither is `generateAnalyticMoveLines` when the invoice line has none. The copy does fail, as a null dereference, when the line ends up with no account.
- InvoiceLines.CreateMoveLines: `consolidateMoveLines` is a collaborator that is applied to the list. The list it gives back is the result.
- InvoiceLines.TaxPartOutcome: a part of a tax is booked when the tax's company total, the part's amount and the part's company amount are all non-zero. `BigDecimal.equals(ZERO)`, which is also sensitive to scale, is modelled as a numeric comparison.
- LineFactory.CreateMoveLine: the description is produced by a collaborator that also cuts it to the field length.
- LineFactory.CreateMoveLineWithTax: a tax line without a tax (the empty tax code) is not modelled, because every tax line has a tax here.
- LineFactory.FiscalPositionFor: the invoice's partner is taken to be present, as the source dereferences it.
- AutoTax.TaxLineMaps.CreateMoveLineForAutoTax: `setCurrencyAmount` is not modelled. The two maps hold line values. A line held by both maps is modelled as one shared line: the update is written to every map holding its key, and `SharedEntriesAgree` is preserved. An update to a line also held by the move's line list is seen only through the maps.
- LineFactory.CreateTaxAccumulatorLine: the currency service is not part of this model. The amount is the converter's value for zero, so the line is stated to be zero only for a converter that maps zero to zero.
- LineFactory.CreateMoveLine: the account passed in is never null here. In the source the debug log reads the account's name first, so a null account is a null dereference. A missing hold-back account (`getPartnerAccount(invoice, true)`), which the source would pass on, is such a case; TermLines.HoldBackLine takes it to be present.
- Preconditions.InactiveAnalyticAccountCheckIff: an analytic allocation always has an analytic account here. In the source, an allocation without one makes the status read a null dereference; that is not modelled.
- Preconditions.EntityChecksIff: an analytic allocation always has an analytic journal here. In the source, an allocation without one makes `checkInactiveAnalyticJournal` a null dereference; that is not modelled.
- Amounts are exact `real` numbers. BigDecimal scale is not modelled, except where the source rounds with `setScale` (the stored rate and the term amounts).

## Findings

| source | as written | input that shows it | evidently intended | confidence | as-written member | corrected member |
|---|---|---|---|---|---|---|
| axelor-account/src/main/java/com/axelor/apps/account/service/moveline/MoveLineCreateServiceImpl.java:679-692 | When the term lines' total is below the total to match, the difference (negative) is added to the merged line. This moves the total further away. | A single credit term line of 33.33 with a total to match of 33.34 ends at 33.32. | The merged line absorbs the whole difference, so the total matches (33.34). | high, not executed | Rounding.RoundingAsWrittenMovesAway | Rounding.ReconciledMatchesTotal |
| axelor-account/src/main/java/com/axelor/apps/account/service/moveline/MoveLineCreateServiceImpl.java:662-692 | The merged line is dereferenced even when it is `null`, which happens when every invoice term is a hold-back. | An invoice without terms, or whose terms are all hold-backs, has no merged line. The step then raises a null dereference, even when the totals already match. | Without a merged line there is nothing to correct, and the lines are left as they are. | high, not executed | Rounding.RoundingAsWrittenFailsWithoutMergedLine | Rounding.ReconciledMatchesTotal |
| axelor-account/src/main/java/com/axelor/apps/account/service/moveline/MoveLineCreateServiceImpl.java:760 | The key of an accumulated tax line is the account code with the tax line id appended as text, so different pairs can spell the same key. | Account "4456" with tax line 61 and account "44566" with tax line 1 both give "445661", so their tax amounts are added into one line. | One tax line per (account code, tax line) pair. | medium, not executed | AutoTax.KeyAsWrittenMergesTaxLines | AutoTax.PairKeysKeepTaxLinesApart |

The pipeline (`TermLinesOf`, `MoveLinesFor`, `CreateMoveLineForAutoTax`) follows the code as written. The corrected definitions (`Reconciled`, `TermLinesCorrected`, the pair key `TaxKey`) are modelled beside it, with the intended properties proved about them.

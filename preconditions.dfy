/** `checkPreconditions` of the move validation service: an ordered chain of fail-fast
    checks, each raising its own category of error. */
module Preconditions {
  import opened Wrappers
  import opened Domain
  import opened Text
  import opened Balance

  /** The answers of the collaborators the checks consult for one move. */
  datatype PostingContext = PostingContext(
    /** the application's cut-off management setting */
    manageCutOffPeriod: bool,
    /** MoveToolService.checkMoveLinesCutOffDates(move) */
    cutOffDatesValid: bool,
    /** PeriodServiceAccount.isAuthorizedToAccountOnPeriod(period, current user) */
    authorizedOnPeriod: bool,
    /** MoveLineControlService.validateMoveLine: the error it raises on a line, if any */
    lineControl: MoveLine -> Option<Fault>,
    /** MoveLineTaxService.checkTaxMoveLines(move): the error it raises, if any */
    taxLinesCheck: Option<Fault>,
    /** the company's accounting-daybook setting */
    accountingDaybook: bool,
    /** AppBaseService.getTodayDate(company) */
    today: Date)

  // ---- inactive entities ----

  /** The accounts of the lines that are set and marked inactive, in line order. */
  function InactiveAccounts(lines: seq<MoveLine>): seq<Account>
    decreases |lines|
  {
    if lines == [] then []
    else
      var line := lines[|lines| - 1];
      InactiveAccounts(lines[..|lines| - 1]) +
      (if line.account.Some? && line.account.value.status == Some(Inactive) then [line.account.value] else [])
  }

  /** The inactive accounts collected are exactly the inactive accounts set on the lines. */
  lemma {:induction false} InactiveAccountsAreTheInactiveOnes(lines: seq<MoveLine>)
    ensures forall a | a in InactiveAccounts(lines) :: a.status == Some(Inactive)
    ensures forall i | 0 <= i < |lines| && lines[i].account.Some? && lines[i].account.value.status == Some(Inactive) ::
              lines[i].account.value in InactiveAccounts(lines)
    ensures forall a | a in InactiveAccounts(lines) :: exists i | 0 <= i < |lines| :: lines[i].account == Some(a)
    decreases |lines|
  {
    if lines != [] {
      var init := lines[..|lines| - 1];
      InactiveAccountsAreTheInactiveOnes(init);
      assert forall i | 0 <= i < |init| :: init[i] == lines[i];
    }
  }

  /** The analytic allocations of all lines, in order. */
  function AnalyticLinesOf(lines: seq<MoveLine>): seq<AnalyticMoveLine>
    decreases |lines|
  {
    if lines == [] then []
    else AnalyticLinesOf(lines[..|lines| - 1]) + lines[|lines| - 1].analyticLines
  }

  /** Flattening keeps every allocation of every line and adds none. */
  lemma {:induction false} AnalyticLinesCollected(lines: seq<MoveLine>)
    ensures forall i, j | 0 <= i < |lines| && 0 <= j < |lines[i].analyticLines| ::
              lines[i].analyticLines[j] in AnalyticLinesOf(lines)
    ensures forall a | a in AnalyticLinesOf(lines) :: exists i | 0 <= i < |lines| :: a in lines[i].analyticLines
    decreases |lines|
  {
    if lines != [] {
      var init := lines[..|lines| - 1];
      AnalyticLinesCollected(init);
      assert forall i | 0 <= i < |init| :: init[i] == lines[i];
    }
  }

  function InactiveAnalyticAccounts(allocations: seq<AnalyticMoveLine>): seq<AnalyticAccount>
    decreases |allocations|
  {
    if allocations == [] then []
    else
      var x := allocations[|allocations| - 1].analyticAccount;
      InactiveAnalyticAccounts(allocations[..|allocations| - 1]) + (if x.status == Some(Inactive) then [x] else [])
  }

  function InactiveAnalyticJournals(allocations: seq<AnalyticMoveLine>): seq<AnalyticJournal>
    decreases |allocations|
  {
    if allocations == [] then []
    else
      var x := allocations[|allocations| - 1].analyticJournal;
      InactiveAnalyticJournals(allocations[..|allocations| - 1]) + (if x.status == Some(Inactive) then [x] else [])
  }

  /** The inactive analytic accounts collected from the allocations are exactly the inactive
      analytic accounts they book to. */
  lemma {:induction false} InactiveAnalyticAccountsAreTheInactiveOnes(allocations: seq<AnalyticMoveLine>)
    ensures forall x | x in InactiveAnalyticAccounts(allocations) :: x.status == Some(Inactive)
    ensures forall i | 0 <= i < |allocations| && allocations[i].analyticAccount.status == Some(Inactive) ::
              allocations[i].analyticAccount in InactiveAnalyticAccounts(allocations)
    decreases |allocations|
  {
    if allocations != [] {
      var init := allocations[..|allocations| - 1];
      InactiveAnalyticAccountsAreTheInactiveOnes(init);
      assert forall i | 0 <= i < |init| :: init[i] == allocations[i];
    }
  }

  /** The reported identifiers: one per distinct inactive entity, in first-occurrence order. */
  function InactiveAccountCodes(lines: seq<MoveLine>): seq<string>
  {
    var d := Distinct(InactiveAccounts(lines));
    seq(|d|, i requires 0 <= i < |d| => d[i].code)
  }

  function InactiveAnalyticAccountCodes(lines: seq<MoveLine>): seq<string>
  {
    var d := Distinct(InactiveAnalyticAccounts(AnalyticLinesOf(lines)));
    seq(|d|, i requires 0 <= i < |d| => d[i].code)
  }

  function InactiveAnalyticJournalNames(lines: seq<MoveLine>): seq<string>
  {
    var d := Distinct(InactiveAnalyticJournals(AnalyticLinesOf(lines)));
    seq(|d|, i requires 0 <= i < |d| => d[i].name)
  }

  /** The verdict of an inactive-entity check: nothing found passes; one found is reported
      with the singular message naming it; several with the plural message listing them
      comma-separated. */
  function InactiveVerdict(kind: InactiveKind, names: seq<string>): (r: Outcome<Fault>)
    ensures r.Pass? <==> names == []
    ensures |names| == 1 ==> r == Fail(Fault(ConfigurationError, InactiveOneFound(kind, names[0])))
    ensures |names| > 1 ==> r == Fail(Fault(ConfigurationError, InactiveManyFound(kind, JoinComma(names))))
  {
    if |names| == 1 then Fail(Fault(ConfigurationError, InactiveOneFound(kind, names[0])))
    else if |names| > 1 then Fail(Fault(ConfigurationError, InactiveManyFound(kind, JoinComma(names))))
    else Pass
  }

  /** `checkInactiveAccount` passes exactly when no line's account is inactive; when it fails,
      the singular message is used exactly when all inactive accounts met are one and the same. */
  lemma {:induction false} InactiveAccountCheckIff(lines: seq<MoveLine>)
    ensures InactiveVerdict(InactiveAccountKind, InactiveAccountCodes(lines)).Pass? <==>
            forall i | 0 <= i < |lines| :: lines[i].account.None? || lines[i].account.value.status != Some(Inactive)
    ensures var found := InactiveAccounts(lines);
            InactiveVerdict(InactiveAccountKind, InactiveAccountCodes(lines)).Fail? ==>
              ((exists a: Account :: InactiveVerdict(InactiveAccountKind, InactiveAccountCodes(lines)) ==
                  Fail(Fault(ConfigurationError, InactiveOneFound(InactiveAccountKind, a.code))) &&
                  forall b | b in found :: b == a)
               || |Distinct(found)| > 1)
  {
    InactiveAccountsAreTheInactiveOnes(lines);
    var found := InactiveAccounts(lines);
    var d := Distinct(found);
    DistinctIsDeduplication(found);
    if found != [] {
      assert found[0] in d;
    }
    if |d| == 1 {
      assert forall b | b in found :: b == d[0];
    }
  }

  /** `checkInactiveAnalyticAccount` passes exactly when no allocation of any line books to an
      inactive analytic account. */
  lemma {:induction false} InactiveAnalyticAccountCheckIff(lines: seq<MoveLine>)
    ensures InactiveVerdict(InactiveAnalyticAccountKind, InactiveAnalyticAccountCodes(lines)).Pass? <==>
            forall i, j | 0 <= i < |lines| && 0 <= j < |lines[i].analyticLines| ::
              lines[i].analyticLines[j].analyticAccount.status != Some(Inactive)
  {
    var allocations := AnalyticLinesOf(lines);
    AnalyticLinesCollected(lines);
    InactiveAnalyticAccountsAreTheInactiveOnes(allocations);
    var found := InactiveAnalyticAccounts(allocations);
    DistinctIsDeduplication(found);
    if found != [] {
      assert found[0] in Distinct(found);
      var x := found[0];
      assert x.status == Some(Inactive);
      var k :| 0 <= k < |allocations| && allocations[k].analyticAccount == x by {
        InactiveAnalyticAccountsAreSome(allocations, x);
      }
      assert allocations[k] in allocations;
      var i :| 0 <= i < |lines| && allocations[k] in lines[i].analyticLines;
      var j :| 0 <= j < |lines[i].analyticLines| && lines[i].analyticLines[j] == allocations[k];
    }
  }

  /** Every inactive analytic account collected comes from some allocation. */
  lemma {:induction false} InactiveAnalyticAccountsAreSome(allocations: seq<AnalyticMoveLine>, x: AnalyticAccount)
    requires x in InactiveAnalyticAccounts(allocations)
    ensures exists k | 0 <= k < |allocations| :: allocations[k].analyticAccount == x
    decreases |allocations|
  {
    var n := |allocations| - 1;
    if x in InactiveAnalyticAccounts(allocations[..n]) {
      InactiveAnalyticAccountsAreSome(allocations[..n], x);
      var k :| 0 <= k < n && allocations[..n][k].analyticAccount == x;
      assert allocations[k].analyticAccount == x;
    } else {
      assert allocations[n].analyticAccount == x;
    }
  }

  // ---- VAT system ----

  /** A line whose tax sits on a non-tax account that allows taxes and has a chosen VAT system. */
  predicate ConfiguredVatLine(line: MoveLine) {
    line.taxLine.Some? && line.account.Some? && line.account.value.accountType.Some? &&
    line.account.value.accountType.value != TypeTax && line.account.value.isTaxAuthorizedOnMoveLine &&
    line.account.value.vatSystem.Some? && line.account.value.vatSystem.value != VatDefault
  }

  /** A line on a tax account still carrying the default VAT system. */
  predicate VatIssueLine(line: MoveLine) {
    line.account.Some? && line.account.value.accountType == Some(TypeTax) && line.vatSystem == VatDefault
  }

  /** `isConfiguredVatSystem`: scans the lines for a configured one. */
  function IsConfiguredVatSystem(lines: seq<MoveLine>): bool
  {
    if lines == [] then false
    else if ConfiguredVatLine(lines[0]) then true
    else IsConfiguredVatSystem(lines[1..])
  }

  /** The scan finds a configured line exactly when there is one. */
  lemma {:induction false} ConfiguredVatSystemFound(lines: seq<MoveLine>)
    ensures IsConfiguredVatSystem(lines) <==> exists i | 0 <= i < |lines| :: ConfiguredVatLine(lines[i])
  {
    if lines != [] && !ConfiguredVatLine(lines[0]) {
      ConfiguredVatSystemFound(lines[1..]);
      assert forall i | 1 <= i < |lines| :: lines[1..][i - 1] == lines[i];
    }
  }

  /** `isConfigurationIssueOnVatSystem`: scans the lines for a tax-account line left on the
      default VAT system. */
  function IsConfigurationIssueOnVatSystem(lines: seq<MoveLine>): bool
  {
    if lines == [] then false
    else if VatIssueLine(lines[0]) then true
    else IsConfigurationIssueOnVatSystem(lines[1..])
  }

  /** The scan finds a tax-account line on the default VAT system exactly when there is one. */
  lemma {:induction false} VatSystemIssueFound(lines: seq<MoveLine>)
    ensures IsConfigurationIssueOnVatSystem(lines) <==> exists i | 0 <= i < |lines| :: VatIssueLine(lines[i])
  {
    if lines != [] && !VatIssueLine(lines[0]) {
      VatSystemIssueFound(lines[1..]);
      assert forall i | 1 <= i < |lines| :: lines[1..][i - 1] == lines[i];
    }
  }

  predicate SalesOrExpenseJournal(journal: Journal) {
    journal.journalType == Some(ExpenseJournal) || journal.journalType == Some(SaleJournal)
  }

  /** `validateVatSystem`: on an expense or sale journal, a move with both a configured tax line
      and a tax-account line on the default VAT system is a configuration error. */
  function ValidateVatSystem(lines: seq<MoveLine>, journal: Journal, reference: string): (r: Outcome<Fault>)
    ensures r.Fail? ==> r.error == Fault(ConfigurationError, VatSystemDefaultOnTaxLine(reference))
  {
    if lines != [] && SalesOrExpenseJournal(journal) && IsConfiguredVatSystem(lines) &&
       IsConfigurationIssueOnVatSystem(lines) then
      Fail(Fault(ConfigurationError, VatSystemDefaultOnTaxLine(reference)))
    else Pass
  }

  /** The VAT-system check fails exactly on a non-empty move of an expense or sale journal
      holding both a configured tax line and a tax-account line on the default VAT system. */
  lemma {:induction false} ValidateVatSystemIff(lines: seq<MoveLine>, journal: Journal, reference: string)
    ensures ValidateVatSystem(lines, journal, reference).Fail? <==>
              lines != [] && SalesOrExpenseJournal(journal) &&
              (exists i | 0 <= i < |lines| :: ConfiguredVatLine(lines[i])) &&
              (exists j | 0 <= j < |lines| :: VatIssueLine(lines[j]))
  {
    ConfiguredVatSystemFound(lines);
    VatSystemIssueFound(lines);
  }

  // ---- per-line checks ----

  /** The checks one line must pass on a move that is neither an opening nor a closure: its
      account is read (a missing one fails), a required tax line, a required analytic
      distribution, a forbidden analytic distribution, then the line control service. */
  function LineCheck(line: MoveLine, ctx: PostingContext): (r: Option<Fault>)
    ensures line.account.None? ==> r == Some(Fault(NullDereference, LineAccountMissing(line.name)))
    ensures line.account.Some? && line.account.value.isTaxAuthorizedOnMoveLine &&
            line.account.value.isTaxRequiredOnMoveLine && line.taxLine.None? ==>
              r.Some? && r.value.category == MissingField
    ensures r.None? ==>
              line.account.Some? &&
              (line.account.value.isTaxAuthorizedOnMoveLine && line.account.value.isTaxRequiredOnMoveLine ==> line.taxLine.Some?) &&
              (line.account.value.analyticDistributionAuthorized && line.account.value.analyticDistributionRequiredOnMoveLines ==>
                 line.analyticTemplate.Some? || line.analyticLines != []) &&
              (!line.account.value.analyticDistributionAuthorized ==> line.analyticTemplate.None? && line.analyticLines == []) &&
              ctx.lineControl(line).None?
  {
    match line.account
    case None => Some(Fault(NullDereference, LineAccountMissing(line.name)))
    case Some(account) =>
      if account.isTaxAuthorizedOnMoveLine && account.isTaxRequiredOnMoveLine && line.taxLine.None? then
        Some(Fault(MissingField, TaxLineRequired(account.code, account.name, line.name)))
      else if line.analyticTemplate.None? && line.analyticLines == [] &&
              account.analyticDistributionAuthorized && account.analyticDistributionRequiredOnMoveLines then
        Some(Fault(MissingField, AnalyticDistributionRequired(account.name, line.name)))
      else if !account.analyticDistributionAuthorized && (line.analyticTemplate.Some? || line.analyticLines != []) then
        Some(Fault(ConfigurationError, AnalyticDistributionForbidden(line.name)))
      else ctx.lineControl(line)
  }

  /** The per-line checks in line order: the first failing line's error. */
  function LinesCheck(lines: seq<MoveLine>, ctx: PostingContext): Option<Fault>
    decreases |lines|
  {
    if lines == [] then None
    else
      var before := LinesCheck(lines[..|lines| - 1], ctx);
      if before.Some? then before else LineCheck(lines[|lines| - 1], ctx)
  }

  /** The per-line checks pass exactly when every line passes, and otherwise report the
      error of the first line that fails. */
  lemma {:induction false} LinesCheckIsFirstFailingLine(lines: seq<MoveLine>, ctx: PostingContext)
    ensures LinesCheck(lines, ctx).None? <==> forall i | 0 <= i < |lines| :: LineCheck(lines[i], ctx).None?
    ensures LinesCheck(lines, ctx).Some? ==>
              exists k | 0 <= k < |lines| ::
                LinesCheck(lines, ctx) == LineCheck(lines[k], ctx) &&
                forall i | 0 <= i < k :: LineCheck(lines[i], ctx).None?
    decreases |lines|
  {
    if lines != [] {
      var init := lines[..|lines| - 1];
      LinesCheckIsFirstFailingLine(init, ctx);
      assert forall i | 0 <= i < |init| :: init[i] == lines[i];
    }
  }

  // ---- the chain ----

  /** The parts of a move the checks read. */
  datatype MoveSnapshot = MoveSnapshot(
    reference: string,
    company: Option<Company>,
    journal: Option<Journal>,
    period: Option<Period>,
    currency: Option<Currency>,
    functionalOrigin: Option<nat>,
    technicalOrigin: TechnicalOrigin,
    lines: seq<MoveLine>)

  function Snapshot(move: Move): MoveSnapshot
    reads move
  {
    MoveSnapshot(move.reference, move.company, move.journal, move.period, move.currency,
                 move.functionalOrigin, move.technicalOrigin, move.lines)
  }

  /** Every line has neither debit nor credit (their sum is zero). */
  predicate WithoutAmount(lines: seq<MoveLine>) {
    forall i | 0 <= i < |lines| :: lines[i].debit + lines[i].credit == 0.0
  }

  /** Whether the functional origin's code occurs in the journal's allow-list; the list is
      matched as text, as the source does. */
  predicate OriginAllowed(journal: Journal, functionalOrigin: nat) {
    journal.authorizedFunctionalOrigins.None? ||
    Contains(journal.authorizedFunctionalOrigins.value, NatToString(functionalOrigin))
  }

  /** Whether the per-line, tax and balance checks run: not for opening or closure moves. */
  predicate RunsLineChecks(functionalOrigin: Option<nat>) {
    functionalOrigin.Some? && !IsOpeningOrClosure(functionalOrigin.value)
  }

  /** `checkPreconditions`, in the source's order. A move that passes has its company,
      journal, period and currency, at least one line with an amount, a permitted functional
      origin, and, unless it is an opening or closure move, lines that each pass the per-line
      checks and balance. */
  function CheckPreconditions(move: MoveSnapshot, ctx: PostingContext): Outcome<Fault>
  {
    var reference := move.reference;
    if move.company.None? then Fail(Fault(ConfigurationError, CompanyMissing(reference)))
    else if move.journal.None? then Fail(Fault(ConfigurationError, JournalMissing(reference)))
    else if move.period.None? then Fail(Fault(ConfigurationError, PeriodMissing(reference)))
    else
      var journal, period, lines := move.journal.value, move.period.value, move.lines;
      if journal.id in period.closedJournals then
        Fail(Fault(ConfigurationError, JournalClosedInPeriod(journal.code, period.code)))
      else if lines == [] then Fail(Fault(Inconsistency, MoveWithoutAmount(reference)))
      else if move.currency.None? then Fail(Fault(ConfigurationError, CurrencyMissing(reference)))
      else if ctx.manageCutOffPeriod && move.technicalOrigin != OriginAutomatic && !ctx.cutOffDatesValid then
        Fail(Fault(MissingField, CutOffDateMissing))
      else if WithoutAmount(lines) then Fail(Fault(Inconsistency, MoveWithoutAmount(reference)))
      else if !ctx.authorizedOnPeriod then Fail(Fault(ConfigurationError, PeriodClosedForUser))
      else if EntityChecks(lines, journal, reference).Fail? then EntityChecks(lines, journal, reference)
      else OriginChecks(lines, journal, reference, move.functionalOrigin, ctx)
  }

  /** The inactive-entity checks (analytic journals, accounts, analytic accounts, the journal)
      then the VAT-system check. */
  function EntityChecks(lines: seq<MoveLine>, journal: Journal, reference: string): Outcome<Fault>
  {
    if InactiveVerdict(InactiveAnalyticJournalKind, InactiveAnalyticJournalNames(lines)).Fail? then
      InactiveVerdict(InactiveAnalyticJournalKind, InactiveAnalyticJournalNames(lines))
    else if InactiveVerdict(InactiveAccountKind, InactiveAccountCodes(lines)).Fail? then
      InactiveVerdict(InactiveAccountKind, InactiveAccountCodes(lines))
    else if InactiveVerdict(InactiveAnalyticAccountKind, InactiveAnalyticAccountCodes(lines)).Fail? then
      InactiveVerdict(InactiveAnalyticAccountKind, InactiveAnalyticAccountCodes(lines))
    else if journal.status != Active then Fail(Fault(ConfigurationError, InactiveJournalFound(journal.name)))
    else ValidateVatSystem(lines, journal, reference)
  }

  /** The functional-origin checks, then, for moves that are neither openings nor closures,
      the per-line checks, the tax-line check and the balance check. */
  function OriginChecks(lines: seq<MoveLine>, journal: Journal, reference: string,
                        functionalOrigin: Option<nat>, ctx: PostingContext): Outcome<Fault>
  {
    if functionalOrigin.None? then Fail(Fault(ConfigurationError, FunctionalOriginMissing(reference)))
    else
      var origin := functionalOrigin.value;
      if !OriginAllowed(journal, origin) then
        Fail(Fault(ConfigurationError, FunctionalOriginNotAuthorized(origin, reference, journal.name, journal.code)))
      else if !RunsLineChecks(functionalOrigin) then Pass
      else if LinesCheck(lines, ctx).Some? then Fail(LinesCheck(lines, ctx).value)
      else if ctx.taxLinesCheck.Some? then Fail(ctx.taxLinesCheck.value)
      else BalanceOutcome(lines, reference)
  }

  /** The entity checks pass exactly when no analytic journal, account or analytic account
      met is inactive, the journal is active and the VAT-system check passes; every error they
      raise is a configuration error. */
  lemma {:induction false} EntityChecksIff(lines: seq<MoveLine>, journal: Journal, reference: string)
    ensures EntityChecks(lines, journal, reference).Pass? <==>
              InactiveAnalyticJournalNames(lines) == [] && InactiveAccountCodes(lines) == [] &&
              InactiveAnalyticAccountCodes(lines) == [] && journal.status == Active &&
              ValidateVatSystem(lines, journal, reference).Pass?
    ensures EntityChecks(lines, journal, reference).Fail? ==>
              EntityChecks(lines, journal, reference).error.category == ConfigurationError
  {
  }

  /** The origin checks pass only on a permitted functional origin, always pass an opening or
      closure move with one, and otherwise pass only when every line passes its checks, the
      tax-line check passes and the lines balance. */
  lemma {:induction false} OriginChecksPass(lines: seq<MoveLine>, journal: Journal, reference: string,
                         functionalOrigin: Option<nat>, ctx: PostingContext)
    ensures var r := OriginChecks(lines, journal, reference, functionalOrigin, ctx);
            (r.Pass? ==> functionalOrigin.Some? && OriginAllowed(journal, functionalOrigin.value)) &&
            (r.Pass? && RunsLineChecks(functionalOrigin) ==>
               Balanced(lines) && ctx.taxLinesCheck.None? &&
               forall i | 0 <= i < |lines| :: LineCheck(lines[i], ctx).None?) &&
            (functionalOrigin.Some? && OriginAllowed(journal, functionalOrigin.value) &&
             !RunsLineChecks(functionalOrigin)
             ==> r.Pass?)
  {
    LinesCheckIsFirstFailingLine(lines, ctx);
  }

  /** A move that passes has its company, journal, period and currency, a journal open in the
      period and active, lines with an amount, the user's authorisation on the period and a
      permitted functional origin. */
  lemma {:induction false} PassingMoveIsComplete(move: MoveSnapshot, ctx: PostingContext)
    requires CheckPreconditions(move, ctx).Pass?
    ensures move.company.Some? && move.journal.Some? && move.period.Some? && move.currency.Some?
    ensures move.journal.value.id !in move.period.value.closedJournals
    ensures move.lines != [] && !WithoutAmount(move.lines) && ctx.authorizedOnPeriod
    ensures move.journal.value.status == Active
    ensures move.functionalOrigin.Some? && OriginAllowed(move.journal.value, move.functionalOrigin.value)
  {
    EntityChecksIff(move.lines, move.journal.value, move.reference);
    OriginChecksPass(move.lines, move.journal.value, move.reference, move.functionalOrigin, ctx);
  }

  /** A move that passes and is neither an opening nor a closure has lines that each pass
      the per-line checks, passes the tax-line check, and balances. */
  lemma {:induction false} PassingMoveIsBalanced(move: MoveSnapshot, ctx: PostingContext)
    requires CheckPreconditions(move, ctx).Pass? && RunsLineChecks(move.functionalOrigin)
    ensures Balanced(move.lines) && ctx.taxLinesCheck.None?
    ensures forall i | 0 <= i < |move.lines| :: LineCheck(move.lines[i], ctx).None?
  {
    var journal := move.journal.value;
    assert EntityChecks(move.lines, journal, move.reference).Pass?;
    OriginChecksPass(move.lines, journal, move.reference, move.functionalOrigin, ctx);
  }

  // ---- the chain as an ordered table ----

  /** The checks of `checkPreconditions`, one per error it can raise. */
  datatype Check =
    | CompanyCheck | JournalCheck | PeriodCheck | ClosedJournalCheck | LinesPresentCheck
    | CurrencyCheck | CutOffCheck | AmountCheck | PeriodAuthorisationCheck
    | InactiveAnalyticJournalCheck | InactiveAccountCheck | InactiveAnalyticAccountCheck
    | InactiveJournalCheck | VatSystemCheck | OriginPresentCheck | OriginAllowedCheck
    | LineChecks | TaxLinesCheck | BalanceCheck

  /** The order in which the source runs the checks, in the groups its code forms: the
      header, the journal's period and the lines' presence, the settings, the inactive
      entities, the journal itself with the VAT system, and the functional origin with what
      follows it. */
  const HEADER_CHECKS: seq<Check> := [CompanyCheck, JournalCheck, PeriodCheck]
  const PRESENCE_CHECKS: seq<Check> := [ClosedJournalCheck, LinesPresentCheck, CurrencyCheck]
  const SETTINGS_CHECKS: seq<Check> := [CutOffCheck, AmountCheck, PeriodAuthorisationCheck]
  const INACTIVE_CHECKS: seq<Check> :=
    [InactiveAnalyticJournalCheck, InactiveAccountCheck, InactiveAnalyticAccountCheck]
  const JOURNAL_CHECKS: seq<Check> := [InactiveJournalCheck, VatSystemCheck]
  const ORIGIN_CHECKS: seq<Check> :=
    [OriginPresentCheck, OriginAllowedCheck, LineChecks, TaxLinesCheck, BalanceCheck]
  const CHECK_ORDER: seq<Check> :=
    HEADER_CHECKS + PRESENCE_CHECKS + SETTINGS_CHECKS + INACTIVE_CHECKS + JOURNAL_CHECKS + ORIGIN_CHECKS

  /** Whether the move violates one check, judged on its own, without regard to the others. */
  predicate Violated(c: Check, move: MoveSnapshot, ctx: PostingContext)
  {
    match c
    case CompanyCheck => move.company.None?
    case JournalCheck => move.journal.None?
    case PeriodCheck => move.period.None?
    case ClosedJournalCheck =>
      move.journal.Some? && move.period.Some? && move.journal.value.id in move.period.value.closedJournals
    case LinesPresentCheck => move.lines == []
    case CurrencyCheck => move.currency.None?
    case CutOffCheck =>
      ctx.manageCutOffPeriod && move.technicalOrigin != OriginAutomatic && !ctx.cutOffDatesValid
    case AmountCheck => WithoutAmount(move.lines)
    case PeriodAuthorisationCheck => !ctx.authorizedOnPeriod
    case InactiveAnalyticJournalCheck =>
      InactiveVerdict(InactiveAnalyticJournalKind, InactiveAnalyticJournalNames(move.lines)).Fail?
    case InactiveAccountCheck => InactiveVerdict(InactiveAccountKind, InactiveAccountCodes(move.lines)).Fail?
    case InactiveAnalyticAccountCheck =>
      InactiveVerdict(InactiveAnalyticAccountKind, InactiveAnalyticAccountCodes(move.lines)).Fail?
    case InactiveJournalCheck => move.journal.Some? && move.journal.value.status != Active
    case VatSystemCheck =>
      move.journal.Some? && ValidateVatSystem(move.lines, move.journal.value, move.reference).Fail?
    case OriginPresentCheck => move.functionalOrigin.None?
    case OriginAllowedCheck =>
      move.journal.Some? && move.functionalOrigin.Some? &&
      !OriginAllowed(move.journal.value, move.functionalOrigin.value)
    case LineChecks => RunsLineChecks(move.functionalOrigin) && LinesCheck(move.lines, ctx).Some?
    case TaxLinesCheck => RunsLineChecks(move.functionalOrigin) && ctx.taxLinesCheck.Some?
    case BalanceCheck => RunsLineChecks(move.functionalOrigin) && !Balanced(move.lines)
  }

  /** The error a violated check raises. */
  function FaultOf(c: Check, move: MoveSnapshot, ctx: PostingContext): Fault
    requires Violated(c, move, ctx)
  {
    var reference := move.reference;
    match c
    case CompanyCheck => Fault(ConfigurationError, CompanyMissing(reference))
    case JournalCheck => Fault(ConfigurationError, JournalMissing(reference))
    case PeriodCheck => Fault(ConfigurationError, PeriodMissing(reference))
    case ClosedJournalCheck =>
      Fault(ConfigurationError, JournalClosedInPeriod(move.journal.value.code, move.period.value.code))
    case LinesPresentCheck => Fault(Inconsistency, MoveWithoutAmount(reference))
    case CurrencyCheck => Fault(ConfigurationError, CurrencyMissing(reference))
    case CutOffCheck => Fault(MissingField, CutOffDateMissing)
    case AmountCheck => Fault(Inconsistency, MoveWithoutAmount(reference))
    case PeriodAuthorisationCheck => Fault(ConfigurationError, PeriodClosedForUser)
    case InactiveAnalyticJournalCheck =>
      InactiveVerdict(InactiveAnalyticJournalKind, InactiveAnalyticJournalNames(move.lines)).error
    case InactiveAccountCheck => InactiveVerdict(InactiveAccountKind, InactiveAccountCodes(move.lines)).error
    case InactiveAnalyticAccountCheck =>
      InactiveVerdict(InactiveAnalyticAccountKind, InactiveAnalyticAccountCodes(move.lines)).error
    case InactiveJournalCheck => Fault(ConfigurationError, InactiveJournalFound(move.journal.value.name))
    case VatSystemCheck => Fault(ConfigurationError, VatSystemDefaultOnTaxLine(reference))
    case OriginPresentCheck => Fault(ConfigurationError, FunctionalOriginMissing(reference))
    case OriginAllowedCheck =>
      Fault(ConfigurationError, FunctionalOriginNotAuthorized(move.functionalOrigin.value, reference,
                                                              move.journal.value.name, move.journal.value.code))
    case LineChecks => LinesCheck(move.lines, ctx).value
    case TaxLinesCheck => ctx.taxLinesCheck.value
    case BalanceCheck => BalanceOutcome(move.lines, reference).error
  }

  /** The k-th check of the order is violated and none before it is. */
  predicate FirstViolated(k: nat, move: MoveSnapshot, ctx: PostingContext)
  {
    k < |CHECK_ORDER| && Violated(CHECK_ORDER[k], move, ctx) &&
    forall j | 0 <= j < k :: !Violated(CHECK_ORDER[j], move, ctx)
  }

  /** The reference behaviour: run the checks in the given order and stop at the first one
      the move violates, raising its error. */
  function FirstFailure(checks: seq<Check>, move: MoveSnapshot, ctx: PostingContext): Outcome<Fault>
    decreases |checks|
  {
    if checks == [] then Pass
    else if Violated(checks[0], move, ctx) then Fail(FaultOf(checks[0], move, ctx))
    else FirstFailure(checks[1..], move, ctx)
  }

  /** Running checks in order passes exactly when none is violated, and otherwise raises the
      error of the earliest violated one. */
  lemma {:induction false} FirstFailureIsEarliest(checks: seq<Check>, move: MoveSnapshot, ctx: PostingContext)
    ensures FirstFailure(checks, move, ctx).Pass? <==> forall i | 0 <= i < |checks| :: !Violated(checks[i], move, ctx)
    ensures FirstFailure(checks, move, ctx).Fail? ==>
              exists k | 0 <= k < |checks| ::
                Violated(checks[k], move, ctx) && FirstFailure(checks, move, ctx).error == FaultOf(checks[k], move, ctx) &&
                forall j | 0 <= j < k :: !Violated(checks[j], move, ctx)
    decreases |checks|
  {
    if checks != [] && !Violated(checks[0], move, ctx) {
      FirstFailureIsEarliest(checks[1..], move, ctx);
      assert forall i | 1 <= i < |checks| :: checks[1..][i - 1] == checks[i];
      if FirstFailure(checks, move, ctx).Fail? {
        var k :| 0 <= k < |checks[1..]| &&
                 Violated(checks[1..][k], move, ctx) && FirstFailure(checks[1..], move, ctx).error == FaultOf(checks[1..][k], move, ctx) &&
                 forall j | 0 <= j < k :: !Violated(checks[1..][j], move, ctx);
        assert Violated(checks[k + 1], move, ctx);
      }
    }
  }

  /** Running two lists of checks one after the other: the second runs only when the first
      passes. */
  lemma {:induction false} FirstFailureConcat(first: seq<Check>, second: seq<Check>, move: MoveSnapshot,
                                              ctx: PostingContext)
    ensures FirstFailure(first + second, move, ctx) ==
            if FirstFailure(first, move, ctx).Fail? then FirstFailure(first, move, ctx)
            else FirstFailure(second, move, ctx)
    decreases |first|
  {
    if first != [] {
      assert (first + second)[0] == first[0];
      assert (first + second)[1..] == first[1..] + second;
      FirstFailureConcat(first[1..], second, move, ctx);
    } else {
      assert first + second == second;
    }
  }

  /** Running three checks: the first violated one raises its error. */
  lemma {:induction false} FirstFailureOfThree(a: Check, b: Check, c: Check, move: MoveSnapshot, ctx: PostingContext)
    ensures FirstFailure([a, b, c], move, ctx) ==
            if Violated(a, move, ctx) then Fail(FaultOf(a, move, ctx))
            else if Violated(b, move, ctx) then Fail(FaultOf(b, move, ctx))
            else if Violated(c, move, ctx) then Fail(FaultOf(c, move, ctx))
            else Pass
  {
    assert [c][1..] == [];
    assert FirstFailure([c], move, ctx) == if Violated(c, move, ctx) then Fail(FaultOf(c, move, ctx)) else Pass;
    assert [b, c][1..] == [c];
    assert [a, b, c][1..] == [b, c];
  }

  /** Running two checks: the first violated one raises its error. */
  lemma {:induction false} FirstFailureOfTwo(a: Check, b: Check, move: MoveSnapshot, ctx: PostingContext)
    ensures FirstFailure([a, b], move, ctx) ==
            if Violated(a, move, ctx) then Fail(FaultOf(a, move, ctx))
            else if Violated(b, move, ctx) then Fail(FaultOf(b, move, ctx))
            else Pass
  {
    assert [b][1..] == [];
    assert FirstFailure([b], move, ctx) == if Violated(b, move, ctx) then Fail(FaultOf(b, move, ctx)) else Pass;
    assert [a, b][1..] == [b];
  }

  /** `checkPreconditions` behaves as the ordered table of checks run until the first one
      the move violates. */
  lemma {:induction false} PreconditionsMatchCheckOrder(move: MoveSnapshot, ctx: PostingContext)
    ensures CheckPreconditions(move, ctx) == FirstFailure(CHECK_ORDER, move, ctx)
  {
    var h, p, st, i, j, o := HEADER_CHECKS, PRESENCE_CHECKS, SETTINGS_CHECKS, INACTIVE_CHECKS, JOURNAL_CHECKS,
                             ORIGIN_CHECKS;
    FirstFailureConcat(h + p + st + i + j, o, move, ctx);
    FirstFailureConcat(h + p + st + i, j, move, ctx);
    FirstFailureConcat(h + p + st, i, move, ctx);
    FirstFailureConcat(h + p, st, move, ctx);
    FirstFailureConcat(h, p, move, ctx);
    HeaderStage(move, ctx);
    if move.journal.Some? && move.period.Some? {
      PresenceStage(move, ctx);
      SettingsStage(move, ctx);
      InactiveStage(move, ctx);
      JournalStage(move, ctx);
      OriginStage(move, ctx);
      EntityStage(move, ctx);
    }
  }

  /** `checkPreconditions` passes exactly when the move violates none of the checks, and
      otherwise fails with the error of the first violated check in source order. */
  lemma {:induction false} PreconditionsFailAtFirstViolation(move: MoveSnapshot, ctx: PostingContext)
    ensures CheckPreconditions(move, ctx).Pass? <==>
            forall i | 0 <= i < |CHECK_ORDER| :: !Violated(CHECK_ORDER[i], move, ctx)
    ensures CheckPreconditions(move, ctx).Fail? ==>
              exists k: nat :: FirstViolated(k, move, ctx) &&
                CheckPreconditions(move, ctx).error == FaultOf(CHECK_ORDER[k], move, ctx)
  {
    PreconditionsMatchCheckOrder(move, ctx);
    FirstFailureIsEarliest(CHECK_ORDER, move, ctx);
  }

  lemma {:induction false} HeaderStage(move: MoveSnapshot, ctx: PostingContext)
    ensures FirstFailure(HEADER_CHECKS, move, ctx) ==
            if move.company.None? then Fail(Fault(ConfigurationError, CompanyMissing(move.reference)))
            else if move.journal.None? then Fail(Fault(ConfigurationError, JournalMissing(move.reference)))
            else if move.period.None? then Fail(Fault(ConfigurationError, PeriodMissing(move.reference)))
            else Pass
  {
    FirstFailureOfThree(CompanyCheck, JournalCheck, PeriodCheck, move, ctx);
  }

  lemma {:induction false} PresenceStage(move: MoveSnapshot, ctx: PostingContext)
    requires move.journal.Some? && move.period.Some?
    ensures FirstFailure(PRESENCE_CHECKS, move, ctx) ==
            if move.journal.value.id in move.period.value.closedJournals then
              Fail(Fault(ConfigurationError, JournalClosedInPeriod(move.journal.value.code, move.period.value.code)))
            else if move.lines == [] then Fail(Fault(Inconsistency, MoveWithoutAmount(move.reference)))
            else if move.currency.None? then Fail(Fault(ConfigurationError, CurrencyMissing(move.reference)))
            else Pass
  {
    FirstFailureOfThree(ClosedJournalCheck, LinesPresentCheck, CurrencyCheck, move, ctx);
  }

  lemma {:induction false} SettingsStage(move: MoveSnapshot, ctx: PostingContext)
    ensures FirstFailure(SETTINGS_CHECKS, move, ctx) ==
            if ctx.manageCutOffPeriod && move.technicalOrigin != OriginAutomatic && !ctx.cutOffDatesValid then
              Fail(Fault(MissingField, CutOffDateMissing))
            else if WithoutAmount(move.lines) then Fail(Fault(Inconsistency, MoveWithoutAmount(move.reference)))
            else if !ctx.authorizedOnPeriod then Fail(Fault(ConfigurationError, PeriodClosedForUser))
            else Pass
  {
    FirstFailureOfThree(CutOffCheck, AmountCheck, PeriodAuthorisationCheck, move, ctx);
  }

  lemma {:induction false} InactiveStage(move: MoveSnapshot, ctx: PostingContext)
    ensures FirstFailure(INACTIVE_CHECKS, move, ctx) ==
            var v1 := InactiveVerdict(InactiveAnalyticJournalKind, InactiveAnalyticJournalNames(move.lines));
            var v2 := InactiveVerdict(InactiveAccountKind, InactiveAccountCodes(move.lines));
            var v3 := InactiveVerdict(InactiveAnalyticAccountKind, InactiveAnalyticAccountCodes(move.lines));
            if v1.Fail? then v1 else if v2.Fail? then v2 else if v3.Fail? then v3 else Pass
  {
    FirstFailureOfThree(InactiveAnalyticJournalCheck, InactiveAccountCheck, InactiveAnalyticAccountCheck, move, ctx);
    InactiveCheckIsItsVerdict(InactiveAnalyticJournalCheck, InactiveAnalyticJournalKind,
                              InactiveAnalyticJournalNames(move.lines), move, ctx);
    InactiveCheckIsItsVerdict(InactiveAccountCheck, InactiveAccountKind, InactiveAccountCodes(move.lines), move, ctx);
    InactiveCheckIsItsVerdict(InactiveAnalyticAccountCheck, InactiveAnalyticAccountKind,
                              InactiveAnalyticAccountCodes(move.lines), move, ctx);
  }

  /** An inactive-entity check is violated exactly when its verdict fails, with that
      verdict's error. */
  lemma {:induction false} InactiveCheckIsItsVerdict(c: Check, kind: InactiveKind, names: seq<string>, move: MoveSnapshot,
                                  ctx: PostingContext)
    requires c == InactiveAnalyticJournalCheck ==>
               kind == InactiveAnalyticJournalKind && names == InactiveAnalyticJournalNames(move.lines)
    requires c == InactiveAccountCheck ==> kind == InactiveAccountKind && names == InactiveAccountCodes(move.lines)
    requires c == InactiveAnalyticAccountCheck ==>
               kind == InactiveAnalyticAccountKind && names == InactiveAnalyticAccountCodes(move.lines)
    requires c.InactiveAnalyticJournalCheck? || c.InactiveAccountCheck? || c.InactiveAnalyticAccountCheck?
    ensures Violated(c, move, ctx) == InactiveVerdict(kind, names).Fail?
    ensures Violated(c, move, ctx) ==> Fail(FaultOf(c, move, ctx)) == InactiveVerdict(kind, names)
  {
  }

  lemma {:induction false} JournalStage(move: MoveSnapshot, ctx: PostingContext)
    requires move.journal.Some?
    ensures FirstFailure(JOURNAL_CHECKS, move, ctx) ==
            var journal := move.journal.value;
            var vat := ValidateVatSystem(move.lines, journal, move.reference);
            if journal.status != Active then Fail(Fault(ConfigurationError, InactiveJournalFound(journal.name)))
            else if vat.Fail? then vat
            else Pass
  {
    FirstFailureOfTwo(InactiveJournalCheck, VatSystemCheck, move, ctx);
  }

  /** The inactive-entity and journal groups together are the entity checks. */
  lemma {:induction false} EntityStage(move: MoveSnapshot, ctx: PostingContext)
    requires move.journal.Some?
    ensures FirstFailure(INACTIVE_CHECKS + JOURNAL_CHECKS, move, ctx) ==
            EntityChecks(move.lines, move.journal.value, move.reference)
  {
    FirstFailureConcat(INACTIVE_CHECKS, JOURNAL_CHECKS, move, ctx);
    InactiveStage(move, ctx);
    JournalStage(move, ctx);
  }

  lemma {:induction false} OriginStage(move: MoveSnapshot, ctx: PostingContext)
    requires move.journal.Some?
    ensures FirstFailure(ORIGIN_CHECKS, move, ctx) ==
            OriginChecks(move.lines, move.journal.value, move.reference, move.functionalOrigin, ctx)
  {
    var present, rest := [OriginPresentCheck, OriginAllowedCheck], [LineChecks, TaxLinesCheck, BalanceCheck];
    assert ORIGIN_CHECKS == present + rest;
    FirstFailureConcat(present, rest, move, ctx);
    OriginPresenceStage(move, ctx);
    LineStage(move, ctx);
  }

  lemma {:induction false} OriginPresenceStage(move: MoveSnapshot, ctx: PostingContext)
    requires move.journal.Some?
    ensures FirstFailure([OriginPresentCheck, OriginAllowedCheck], move, ctx) ==
            if move.functionalOrigin.None? then
              Fail(Fault(ConfigurationError, FunctionalOriginMissing(move.reference)))
            else if !OriginAllowed(move.journal.value, move.functionalOrigin.value) then
              Fail(Fault(ConfigurationError,
                         FunctionalOriginNotAuthorized(move.functionalOrigin.value, move.reference,
                                                       move.journal.value.name, move.journal.value.code)))
            else Pass
  {
    FirstFailureOfTwo(OriginPresentCheck, OriginAllowedCheck, move, ctx);
  }

  lemma {:induction false} LineStage(move: MoveSnapshot, ctx: PostingContext)
    ensures FirstFailure([LineChecks, TaxLinesCheck, BalanceCheck], move, ctx) ==
            if !RunsLineChecks(move.functionalOrigin) then Pass
            else if LinesCheck(move.lines, ctx).Some? then Fail(LinesCheck(move.lines, ctx).value)
            else if ctx.taxLinesCheck.Some? then Fail(ctx.taxLinesCheck.value)
            else BalanceOutcome(move.lines, move.reference)
  {
    FirstFailureOfThree(LineChecks, TaxLinesCheck, BalanceCheck, move, ctx);
    LineCheckViolations(move, ctx);
  }

  /** The per-line, tax-line and balance checks judged on their own. */
  lemma {:induction false} LineCheckViolations(move: MoveSnapshot, ctx: PostingContext)
    ensures Violated(LineChecks, move, ctx) == (RunsLineChecks(move.functionalOrigin) && LinesCheck(move.lines, ctx).Some?)
    ensures Violated(LineChecks, move, ctx) ==> FaultOf(LineChecks, move, ctx) == LinesCheck(move.lines, ctx).value
    ensures Violated(TaxLinesCheck, move, ctx) == (RunsLineChecks(move.functionalOrigin) && ctx.taxLinesCheck.Some?)
    ensures Violated(TaxLinesCheck, move, ctx) ==> FaultOf(TaxLinesCheck, move, ctx) == ctx.taxLinesCheck.value
    ensures Violated(BalanceCheck, move, ctx) ==
            (RunsLineChecks(move.functionalOrigin) && BalanceOutcome(move.lines, move.reference).Fail?)
    ensures Violated(BalanceCheck, move, ctx) ==>
              Fail(FaultOf(BalanceCheck, move, ctx)) == BalanceOutcome(move.lines, move.reference)
  {
  }
}

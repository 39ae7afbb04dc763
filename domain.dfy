/** The records the two services read and write: the chart-of-accounts entities they
    consult, the invoice they post, the move line they build and the move they validate.
    Java `null` becomes `None`; entities are identified by their `id`. */
module Domain {
  import opened Wrappers

  /** A calendar day (days since an epoch). */
  type Date = int

  /** A currency, by identifier. */
  type Currency = nat

  datatype ActivityStatus = Active | Inactive

  /** The technical type of an account type (AccountTypeRepository.TYPE_*). */
  datatype TechnicalType =
    | TypeTax | TypeDebt | TypeCharge | TypeIncome | TypeAsset | TypeImmobilisation
    | TypeOther(code: string)

  /** The VAT system selection; `VatDefault` is the "not yet chosen" value. */
  datatype VatSystem = VatDefault | VatSelected(code: nat)

  /** The technical type of a journal type (JournalTypeRepository.TECHNICAL_TYPE_SELECT_*). */
  datatype JournalKind = ExpenseJournal | SaleJournal | OtherJournal(code: nat)

  datatype PeriodStatus = PeriodOpen | PeriodClosed | PeriodAdjusting | PeriodOther(code: nat)

  datatype MoveStatus = StatusNew | StatusDaybook | StatusAccounted | StatusCanceled | StatusSimulated

  datatype TechnicalOrigin = OriginEntry | OriginAutomatic | OriginTemplate | OriginImport

  /** Functional origins are the codes of a selection; the services test two of them. */
  const FUNCTIONAL_ORIGIN_OPENING: nat := 1
  const FUNCTIONAL_ORIGIN_CLOSURE: nat := 2

  predicate IsOpeningOrClosure(functionalOrigin: nat) {
    functionalOrigin == FUNCTIONAL_ORIGIN_OPENING || functionalOrigin == FUNCTIONAL_ORIGIN_CLOSURE
  }

  datatype Company = Company(id: nat, name: string)
  datatype FiscalPosition = FiscalPosition(id: nat, name: string)
  datatype Partner = Partner(id: nat, fullName: string, partnerSeq: string,
                             fiscalPosition: Option<FiscalPosition>)
  datatype Tax = Tax(id: nat, code: string, name: string)
  datatype TaxLine = TaxLine(id: nat, name: string, value: real, tax: Tax)

  datatype Account = Account(
    id: nat,
    code: string,
    name: string,
    status: Option<ActivityStatus>,
    accountType: Option<TechnicalType>,
    useForPartnerBalance: bool,
    isTaxAuthorizedOnMoveLine: bool,
    isTaxRequiredOnMoveLine: bool,
    analyticDistributionAuthorized: bool,
    analyticDistributionRequiredOnMoveLines: bool,
    analyticDistributionRequiredOnInvoiceLines: bool,
    manageCutOffPeriod: bool,
    vatSystem: Option<VatSystem>)

  datatype AnalyticAccount = AnalyticAccount(id: nat, code: string, status: Option<ActivityStatus>)
  datatype AnalyticJournal = AnalyticJournal(id: nat, name: string, status: Option<ActivityStatus>)

  /** An analytic allocation: which analytic account and journal it books to. */
  datatype AnalyticMoveLine = AnalyticMoveLine(analyticAccount: AnalyticAccount,
                                               analyticJournal: AnalyticJournal)

  datatype Journal = Journal(
    id: nat,
    code: string,
    name: string,
    status: ActivityStatus,
    journalType: Option<JournalKind>,
    /** The comma-separated list of allowed functional origin codes, if the journal restricts them. */
    authorizedFunctionalOrigins: Option<string>,
    allowAccountingDaybook: bool)

  datatype Period = Period(id: nat, code: string, status: PeriodStatus, closedJournals: set<nat>)

  datatype InvoiceTerm = InvoiceTerm(id: nat, amount: real, dueDate: Option<Date>, isHoldBack: bool)

  datatype InvoiceLine = InvoiceLine(
    name: string,
    productName: string,
    account: Option<Account>,
    exTaxTotal: real,
    companyExTaxTotal: real,
    analyticTemplate: Option<nat>,
    analyticLines: seq<AnalyticMoveLine>,
    taxLine: Option<TaxLine>,
    cutOffStartDate: Option<Date>,
    cutOffEndDate: Option<Date>)

  datatype InvoiceLineTax = InvoiceLineTax(
    taxLine: TaxLine,
    companyTaxTotal: real,
    subTotalOfFixedAssets: real,
    companySubTotalOfFixedAssets: real,
    subTotalExcludingFixedAssets: real,
    companySubTotalExcludingFixedAssets: real,
    vatSystem: VatSystem)

  datatype Invoice = Invoice(
    invoiceId: string,
    supplierInvoiceNb: string,
    isPurchase: bool,
    partner: Partner,
    fiscalPosition: Option<FiscalPosition>,
    currency: Option<Currency>,
    invoiceDate: Option<Date>,
    originDate: Option<Date>,
    lines: seq<InvoiceLine>,
    taxes: seq<InvoiceLineTax>,
    terms: seq<InvoiceTerm>)

  /** One debit-or-credit entry of a move. `currencyRate` is the unscaled value of the rate
      at scale Decimals.RATE_SCALE (a BigDecimal of scale 5). The `frozen*` fields are the
      snapshot of the account and partner taken when the move is posted. */
  datatype MoveLine = MoveLine(
    name: string,
    counter: int,
    date: Option<Date>,
    dueDate: Option<Date>,
    originDate: Option<Date>,
    debit: real,
    credit: real,
    account: Option<Account>,
    partner: Option<Partner>,
    taxLine: Option<TaxLine>,
    sourceTaxLine: Option<TaxLine>,
    taxRate: real,
    taxCode: string,
    vatSystem: VatSystem,
    currencyAmount: real,
    currencyRate: int,
    origin: string,
    description: string,
    analyticTemplate: Option<nat>,
    analyticLines: seq<AnalyticMoveLine>,
    cutOffStartDate: Option<Date>,
    cutOffEndDate: Option<Date>,
    fixedAssetCategory: Option<nat>,
    invoiceTerms: seq<InvoiceTerm>,
    frozenAccountId: Option<nat>,
    frozenAccountCode: string,
    frozenAccountName: string,
    frozenPartnerId: Option<nat>,
    frozenPartnerFullName: string,
    frozenPartnerSeq: string)

  /** A move line as `new MoveLine()` leaves it: every reference null, every amount zero. */
  const BlankLine := MoveLine(
    "", 0, None, None, None, 0.0, 0.0, None, None, None, None, 0.0, "", VatDefault,
    0.0, 0, "", "", None, [], None, None, None, [], None, "", "", None, "", "")

  /** A ledger transaction header with its ordered lines; the services update it in place. */
  class Move {
    var reference: string
    var date: Option<Date>
    var originDate: Option<Date>
    var partner: Option<Partner>
    var company: Option<Company>
    var journal: Option<Journal>
    var period: Option<Period>
    var currency: Option<Currency>
    var functionalOrigin: Option<nat>
    var technicalOrigin: TechnicalOrigin
    var status: MoveStatus
    var accountingDate: Option<Date>
    var adjustingMove: bool
    var autoYearClosureMove: bool
    /** Whether the final sequence number has been assigned (the sequence service's effect). */
    var sequenceAssigned: bool
    var invoice: Option<Invoice>
    var origin: string
    var description: string
    var lines: seq<MoveLine>
  }

  /** TraceBackRepository's exception categories, plus the NullPointerException the code
      raises when it dereferences a missing reference. */
  datatype Category = ConfigurationError | Inconsistency | MissingField | NullDereference

  datatype InactiveKind = InactiveAnalyticAccountKind | InactiveAnalyticJournalKind | InactiveAccountKind

  /** Which rule failed, with the identifiers the message embeds. */
  datatype Reason =
    | InvoicePartnerMissing(invoiceId: string)
    | InvoicePartnerAccountMissing(invoiceId: string)
    | InvoiceLineAccountMissing(lineName: string, companyName: string)
    | InvoiceLineAnalyticMissing(lineName: string, companyName: string)
    | TaxAccountMissing(taxName: string, companyName: string)
    | TaxAccountMissingForFiscalPosition(taxLineName: string, fiscalPositionName: string,
                                         companyName: string)
    | RoundingLineMissing
    | AccountTypeMissing
    | CompanyMissing(moveReference: string)
    | JournalMissing(moveReference: string)
    | PeriodMissing(moveReference: string)
    | JournalClosedInPeriod(journalCode: string, periodCode: string)
    | MoveWithoutAmount(moveReference: string)
    | CurrencyMissing(moveReference: string)
    | CutOffDateMissing
    | PeriodClosedForUser
    | InactiveOneFound(kind: InactiveKind, name: string)
    | InactiveManyFound(kind: InactiveKind, names: string)
    | InactiveJournalFound(journalName: string)
    | VatSystemDefaultOnTaxLine(moveReference: string)
    | FunctionalOriginMissing(moveReference: string)
    | FunctionalOriginNotAuthorized(functionalOrigin: nat, moveReference: string,
                                    journalName: string, journalCode: string)
    | TaxLineRequired(accountCode: string, accountName: string, lineName: string)
    | AnalyticDistributionRequired(accountName: string, lineName: string)
    | AnalyticDistributionForbidden(lineName: string)
    | LineAccountMissing(lineName: string)
    | LineWithDebitAndCredit(lineName: string)
    | MoveUnbalanced(moveReference: string, totalDebit: real, totalCredit: real)
    | DaybookFiscalPeriodClosed
    | AccountingFiscalPeriodClosed
    | FixedAssetAccountTypeMissing(lineName: string)

  datatype Fault = Fault(category: Category, reason: Reason)

  /** Sum of the debits of `lines`. */
  function SumDebit(lines: seq<MoveLine>): real
    decreases |lines|
  {
    if lines == [] then 0.0 else SumDebit(lines[..|lines| - 1]) + lines[|lines| - 1].debit
  }

  /** Sum of the credits of `lines`. */
  function SumCredit(lines: seq<MoveLine>): real
    decreases |lines|
  {
    if lines == [] then 0.0 else SumCredit(lines[..|lines| - 1]) + lines[|lines| - 1].credit
  }

  /** The amount a line contributes when a side-total is taken: its credit if that is
      positive, its debit otherwise. */
  function SideAmount(line: MoveLine): real {
    if line.credit > 0.0 then line.credit else line.debit
  }

  /** The side-total the invoice generator and the rounding step compute. */
  function SideTotal(lines: seq<MoveLine>): real
    decreases |lines|
  {
    if lines == [] then 0.0 else SideTotal(lines[..|lines| - 1]) + SideAmount(lines[|lines| - 1])
  }

  /** A line that has a debit or a credit but not both, and no negative amount. */
  predicate WellSided(line: MoveLine) {
    line.debit >= 0.0 && line.credit >= 0.0 && (line.debit == 0.0 || line.credit == 0.0)
  }

  lemma {:induction false} SumsAppend(lines: seq<MoveLine>, line: MoveLine)
    ensures SumDebit(lines + [line]) == SumDebit(lines) + line.debit
    ensures SumCredit(lines + [line]) == SumCredit(lines) + line.credit
    ensures SideTotal(lines + [line]) == SideTotal(lines) + SideAmount(line)
  {
    assert (lines + [line])[..|lines|] == lines;
  }

  lemma {:induction false} SumsConcat(a: seq<MoveLine>, b: seq<MoveLine>)
    ensures SumDebit(a + b) == SumDebit(a) + SumDebit(b)
    ensures SumCredit(a + b) == SumCredit(a) + SumCredit(b)
    ensures SideTotal(a + b) == SideTotal(a) + SideTotal(b)
    decreases |b|
  {
    if b == [] {
      assert a + b == a;
    } else {
      var init := b[..|b| - 1];
      var last := b[|b| - 1];
      assert a + b == (a + init) + [last];
      assert init + [last] == b;
      SumsConcat(a, init);
      SumsAppend(a + init, last);
      SumsAppend(init, last);
    }
  }

  /** Changing one line changes each total by exactly that line's change. */
  lemma {:induction false} SumsUpdate(lines: seq<MoveLine>, k: nat, line: MoveLine)
    requires k < |lines|
    ensures SumDebit(lines[k := line]) == SumDebit(lines) - lines[k].debit + line.debit
    ensures SumCredit(lines[k := line]) == SumCredit(lines) - lines[k].credit + line.credit
    ensures SideTotal(lines[k := line]) == SideTotal(lines) - SideAmount(lines[k]) + SideAmount(line)
  {
    var before, after := lines[..k], lines[k + 1..];
    assert lines == before + [lines[k]] + after;
    assert lines[k := line] == before + [line] + after;
    SumsConcat(before + [lines[k]], after);
    SumsConcat(before + [line], after);
    SumsAppend(before, lines[k]);
    SumsAppend(before, line);
  }
}

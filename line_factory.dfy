/** The ledger-line factory: every `createMoveLine` overload of MoveLineCreateServiceImpl.
    The full-information form is the one that computes; the others derive its arguments. */
module LineFactory {
  import opened Wrappers
  import opened Domain
  import opened Decimals
  import opened Collaborators

  /** The fiscal position that maps the account of a line with a partner: the move's
      invoice's own, else that invoice's partner's; for a move without invoice, the partner's. */
  function FiscalPositionFor(move: Move, partner: Partner): (fp: Option<FiscalPosition>)
    reads move
    ensures move.invoice.None? ==> fp == partner.fiscalPosition
    ensures move.invoice.Some? && move.invoice.value.fiscalPosition.Some? ==>
              fp == move.invoice.value.fiscalPosition
    ensures move.invoice.Some? && move.invoice.value.fiscalPosition.None? ==>
              fp == move.invoice.value.partner.fiscalPosition
  {
    match move.invoice
    case Some(invoice) =>
      if invoice.fiscalPosition.Some? then invoice.fiscalPosition else invoice.partner.fiscalPosition
    case None => partner.fiscalPosition
  }

  /** The rate stored on a line, unscaled at RATE_SCALE: the given rate rounded HALF_UP; without
      one, 1 when the currency amount is zero, else company amount / currency amount rounded
      HALF_UP to five places. Both amounts are already non-negative here. */
  function StoredRate(companyAmount: real, currencyAmount: real, currencyRate: Option<real>): int
    requires companyAmount >= 0.0 && currencyAmount >= 0.0
  {
    match currencyRate
    case Some(rate) => RoundHalfUp(rate, RATE_SCALE)
    case None =>
      if currencyAmount == 0.0 then Pow10(RATE_SCALE)
      else
        // divide(..., 5, HALF_UP) then setScale(5, HALF_UP)
        RoundHalfUp(ValueAt(RoundHalfUp(companyAmount / currencyAmount, RATE_SCALE), RATE_SCALE), RATE_SCALE)
  }

  /** The stored rate is the given rate rounded; without one it is exactly 1 for a zero
      currency amount, and otherwise the ratio of the amounts rounded once to five places:
      the second rounding changes nothing. */
  lemma {:induction false} StoredRateRoundsTheRatio(companyAmount: real, currencyAmount: real, currencyRate: Option<real>)
    requires companyAmount >= 0.0 && currencyAmount >= 0.0
    ensures var n := StoredRate(companyAmount, currencyAmount, currencyRate);
            (currencyRate.Some? ==> n == RoundHalfUp(currencyRate.value, RATE_SCALE)) &&
            (currencyRate.None? && currencyAmount == 0.0 ==> ValueAt(n, RATE_SCALE) == 1.0) &&
            (currencyRate.None? && currencyAmount != 0.0 ==>
               n >= 0 && -0.5 < n as real - companyAmount / currencyAmount * Pow10(RATE_SCALE) as real <= 0.5)
  {
    if currencyRate.None? && currencyAmount != 0.0 {
      var once := RoundHalfUp(companyAmount / currencyAmount, RATE_SCALE);
      RoundingAtOwnScaleIsExact(once, RATE_SCALE);
      RoundHalfUpIsNearest(companyAmount / currencyAmount, RATE_SCALE);
    }
  }

  /** The full-information constructor (amount in move currency, amount in company currency,
      rate). A negative company amount flips the side; the partner is kept only on an account
      used for partner balance. */
  function CreateMoveLine(
    svc: Services, move: Move, partner: Option<Partner>, account: Account,
    amountInSpecificMoveCurrency: real, amountInCompanyCurrency: real, currencyRate: Option<real>,
    isDebit: bool, date: Option<Date>, dueDate: Option<Date>, originDate: Option<Date>,
    counter: int, origin: string, description: string): MoveLine
    reads move
  {
    var currencyAmount := Abs(amountInSpecificMoveCurrency);
    var resolved := if partner.Some? then svc.fiscalAccount(FiscalPositionFor(move, partner.value), Some(account))
                    else Some(account);
    var flipped := amountInCompanyCurrency < 0.0;
    var debitSide := if flipped then !isDebit else isDebit;
    var amount := if flipped then -amountInCompanyCurrency else amountInCompanyCurrency;
    var keptPartner := if resolved.None? || !resolved.value.useForPartnerBalance then None else partner;
    BlankLine.(
      partner := keptPartner,
      account := resolved,
      date := date,
      dueDate := dueDate,
      counter := counter,
      debit := if debitSide then amount else 0.0,
      credit := if debitSide then 0.0 else amount,
      description := svc.lineDescription(move.journal, origin, description),
      origin := origin,
      currencyRate := StoredRate(amount, currencyAmount, currencyRate),
      currencyAmount := currencyAmount,
      originDate := if originDate.Some? then originDate else date)
  }

  /** A line made by the full-information constructor is one-sided: the company amount sits
      on the requested side, or on the other side negated when it is negative; it carries the
      absolute currency amount, the stored rate, the origin date (the line date when none is
      given), the partner's fiscally mapped account, the partner only on a partner-balance
      account, and no tax line, term or analytic line. */
  lemma {:induction false} CreateMoveLineShape(
    svc: Services, move: Move, partner: Option<Partner>, account: Account,
    amountInSpecificMoveCurrency: real, amountInCompanyCurrency: real, currencyRate: Option<real>,
    isDebit: bool, date: Option<Date>, dueDate: Option<Date>, originDate: Option<Date>,
    counter: int, origin: string, description: string)
    ensures var line := CreateMoveLine(svc, move, partner, account, amountInSpecificMoveCurrency,
                                       amountInCompanyCurrency, currencyRate, isDebit, date, dueDate,
                                       originDate, counter, origin, description);
            WellSided(line) &&
            (amountInCompanyCurrency >= 0.0 ==>
               (if isDebit then line.debit else line.credit) == amountInCompanyCurrency) &&
            (amountInCompanyCurrency < 0.0 ==>
               (if isDebit then line.credit else line.debit) == -amountInCompanyCurrency) &&
            line.debit + line.credit == Abs(amountInCompanyCurrency) &&
            line.currencyAmount == Abs(amountInSpecificMoveCurrency) &&
            line.currencyRate == StoredRate(Abs(amountInCompanyCurrency), Abs(amountInSpecificMoveCurrency), currencyRate) &&
            (line.originDate == if originDate.Some? then originDate else date) &&
            (line.account == if partner.Some? then svc.fiscalAccount(FiscalPositionFor(move, partner.value), Some(account))
                             else Some(account)) &&
            (line.partner.Some? <==> partner.Some? && line.account.Some? && line.account.value.useForPartnerBalance) &&
            (line.partner.Some? ==> line.partner == partner) &&
            line.counter == counter && line.date == date && line.dueDate == dueDate && line.origin == origin &&
            line.taxLine.None? && line.invoiceTerms == [] && line.analyticLines == []
  {
  }

  /** The rate from the move's currency to its company's currency on `date`. */
  function MoveRate(svc: Services, move: Move, date: Option<Date>): real
    reads move
  {
    svc.conversionRate(move.currency, svc.companyCurrency(move.company), date)
  }

  /** The overload that works in the move's currency: the rate and the company amount come
      from the currency service, and the origin date is the line date. */
  function CreateMoveLineInMoveCurrency(
    svc: Services, move: Move, partner: Option<Partner>, account: Account,
    amountInSpecificMoveCurrency: real, isDebit: bool, date: Option<Date>, dueDate: Option<Date>,
    counter: int, origin: string, description: string): (line: MoveLine)
    reads move
    ensures WellSided(line)
    ensures line.debit + line.credit ==
              Abs(svc.convertUsingRate(amountInSpecificMoveCurrency, MoveRate(svc, move, date)))
    ensures line.currencyAmount == Abs(amountInSpecificMoveCurrency)
    ensures line.currencyRate == RoundHalfUp(MoveRate(svc, move, date), RATE_SCALE)
    ensures line.originDate == date && line.dueDate == dueDate && line.counter == counter
  {
    var rate := MoveRate(svc, move, date);
    CreateMoveLineShape(svc, move, partner, account, amountInSpecificMoveCurrency,
                        svc.convertUsingRate(amountInSpecificMoveCurrency, rate), Some(rate),
                        isDebit, date, dueDate, date, counter, origin, description);
    CreateMoveLine(svc, move, partner, account, amountInSpecificMoveCurrency,
                   svc.convertUsingRate(amountInSpecificMoveCurrency, rate), Some(rate),
                   isDebit, date, dueDate, date, counter, origin, description)
  }

  /** The overload whose due date is the line date. */
  function CreateMoveLineOnDate(
    svc: Services, move: Move, partner: Option<Partner>, account: Account, amount: real,
    isDebit: bool, date: Option<Date>, counter: int, origin: string, description: string): (line: MoveLine)
    reads move
    ensures WellSided(line)
    ensures line.debit + line.credit == Abs(svc.convertUsingRate(amount, MoveRate(svc, move, date)))
    ensures line.dueDate == date && line.originDate == date && line.counter == counter
  {
    CreateMoveLineInMoveCurrency(svc, move, partner, account, amount, isDebit, date, date,
                                 counter, origin, description)
  }

  /** The full-information overload that also records the tax line. */
  function CreateMoveLineWithTaxLine(
    svc: Services, move: Move, partner: Option<Partner>, account: Account, currencyAmount: real,
    taxLine: Option<TaxLine>, amount: real, currencyRate: Option<real>, isDebit: bool,
    date: Option<Date>, dueDate: Option<Date>, originDate: Option<Date>, counter: int,
    origin: string, description: string): (line: MoveLine)
    reads move
    ensures WellSided(line)
    ensures line.debit + line.credit == Abs(amount)
    ensures line.currencyAmount == Abs(currencyAmount)
    ensures line.taxLine == taxLine
    ensures line.originDate == if originDate.Some? then originDate else date
  {
    CreateMoveLineShape(svc, move, partner, account, currencyAmount, amount, currencyRate, isDebit,
                        date, dueDate, originDate, counter, origin, description);
    CreateMoveLine(svc, move, partner, account, currencyAmount, amount, currencyRate, isDebit,
                   date, dueDate, originDate, counter, origin, description).(taxLine := taxLine)
  }

  /** The move-currency overload that, given a tax line, also records it with its rate and
      its tax's code. */
  function CreateMoveLineWithTax(
    svc: Services, move: Move, partner: Option<Partner>, account: Account, amount: real,
    isDebit: bool, taxLine: Option<TaxLine>, date: Option<Date>, counter: int, origin: string,
    description: string): (line: MoveLine)
    reads move
    ensures WellSided(line)
    ensures line.debit + line.credit == Abs(svc.convertUsingRate(amount, MoveRate(svc, move, date)))
    ensures line.taxLine == taxLine
    ensures taxLine.Some? ==> line.taxRate == taxLine.value.value && line.taxCode == taxLine.value.tax.code
    ensures line.dueDate == date && line.counter == counter
  {
    var line := CreateMoveLineOnDate(svc, move, partner, account, amount, isDebit, date, counter,
                                     origin, description);
    match taxLine
    case Some(t) => line.(taxLine := taxLine, taxRate := t.value, taxCode := t.tax.code)
    case None => line
  }

  /** The empty accumulator line that auto-tax starts from for a new (account, tax line)
      pair: a credit of the converted zero amount, numbered after the move's lines, carrying
      the tax line as its source and the move's origin and description. */
  function CreateTaxAccumulatorLine(svc: Services, move: Move, date: Option<Date>, taxLine: TaxLine,
                                    account: Account): (line: MoveLine)
    reads move
    ensures WellSided(line)
    ensures line.debit + line.credit == Abs(svc.convertUsingRate(0.0, MoveRate(svc, move, date)))
    ensures svc.convertUsingRate(0.0, MoveRate(svc, move, date)) == 0.0 ==> line.debit == 0.0 && line.credit == 0.0
    ensures line.counter == |move.lines| + 1
    ensures line.taxLine == Some(taxLine) && line.sourceTaxLine == Some(taxLine)
    ensures line.origin == move.origin && line.description == move.description
  {
    var line := CreateMoveLineOnDate(svc, move, move.partner, account, 0.0 + 0.0, false, date,
                                     |move.lines| + 1, move.origin, move.description);
    line.(sourceTaxLine := Some(taxLine), taxLine := Some(taxLine), description := move.description)
  }
}

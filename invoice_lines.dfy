/** `createMoveLines`: the lines of an invoice's move — one per invoice line with a non-zero
    company amount, one or two per tax, then the partner-side term lines. */
module InvoiceLines {
  import opened Wrappers
  import opened Domain
  import opened Decimals
  import opened Collaborators
  import opened LineFactory
  import opened Rounding
  import opened TermLines

  /** The arguments of one generation run, once the partner and its account are known. */
  datatype Generation = Generation(invoice: Invoice, company: Company, partner: Partner,
                                   isPurchase: bool, isDebitCustomer: bool, origin: string)

  /** The move's origin: the supplier's invoice number on a purchase, the invoice id otherwise. */
  function OriginOf(invoice: Invoice): (origin: string)
    ensures invoice.isPurchase ==> origin == invoice.supplierInvoiceNb
    ensures !invoice.isPurchase ==> origin == invoice.invoiceId
  {
    if invoice.isPurchase then invoice.supplierInvoiceNb else invoice.invoiceId
  }

  /** Whether an invoice line's analytic distribution is missing although its account
      requires one on invoice lines. */
  predicate AnalyticMissing(il: InvoiceLine, account: Account) {
    il.analyticTemplate.None? && il.analyticLines == [] &&
    account.analyticDistributionAuthorized && account.analyticDistributionRequiredOnInvoiceLines
  }

  /** Whether an invoice line cannot be booked: it has no account, its required analytic
      distribution is missing, or it has analytic lines while its account maps to none. */
  predicate ProductRejected(svc: Services, move: Move, g: Generation, il: InvoiceLine)
    reads move
  {
    il.account.None? || AnalyticMissing(il, il.account.value) ||
    (il.analyticLines != [] &&
     svc.fiscalAccount(FiscalPositionFor(move, g.partner), Some(il.account.value)).None?)
  }

  /** The product line of an invoice line, numbered `id`, or why it cannot be made: no account
      (a configuration error), a required analytic distribution missing, or analytic lines to
      copy onto a line whose fiscally mapped account is null. */
  function ProductLine(svc: Services, move: Move, g: Generation, il: InvoiceLine, id: int): Result<MoveLine, Fault>
    reads move
  {
    match il.account
    case None => Failure(Fault(ConfigurationError, InvoiceLineAccountMissing(il.name, g.company.name)))
    case Some(account) =>
      if AnalyticMissing(il, account) then
        Failure(Fault(MissingField, InvoiceLineAnalyticMissing(il.name, g.company.name)))
      else
        var line := CreateMoveLine(svc, move, Some(g.partner), account, il.exTaxTotal, il.companyExTaxTotal,
                                   None, !g.isDebitCustomer, g.invoice.invoiceDate, None,
                                   g.invoice.originDate, id, g.origin, il.productName)
                    .(analyticTemplate := il.analyticTemplate);
        if il.analyticLines != [] && line.account.None? then
          // each copied analytic line reads the type of the line's account
          Failure(Fault(NullDereference, LineAccountMissing(il.name)))
        else
          var withAnalytic := line.(analyticLines := il.analyticLines);
          var withTax := match il.taxLine
            case Some(t) => withAnalytic.(taxLine := il.taxLine, taxRate := t.value, taxCode := t.tax.code)
            case None => withAnalytic;
          if account.manageCutOffPeriod then
            Success(withTax.(cutOffStartDate := il.cutOffStartDate, cutOffEndDate := il.cutOffEndDate))
          else Success(withTax)
  }

  /** An invoice line without an account is a configuration error, one whose required
      analytic distribution is missing a missing field, and analytic lines copied onto a line
      whose mapped account is null a null dereference; a line fails exactly when it is rejected. */
  lemma {:induction false} ProductLineRejection(svc: Services, move: Move, g: Generation, il: InvoiceLine, id: int)
    ensures il.account.None? ==>
              ProductLine(svc, move, g, il, id) ==
              Failure(Fault(ConfigurationError, InvoiceLineAccountMissing(il.name, g.company.name)))
    ensures il.account.Some? && AnalyticMissing(il, il.account.value) ==>
              ProductLine(svc, move, g, il, id) ==
              Failure(Fault(MissingField, InvoiceLineAnalyticMissing(il.name, g.company.name)))
    ensures il.account.Some? && !AnalyticMissing(il, il.account.value) && il.analyticLines != [] &&
            svc.fiscalAccount(FiscalPositionFor(move, g.partner), Some(il.account.value)).None? ==>
              ProductLine(svc, move, g, il, id) == Failure(Fault(NullDereference, LineAccountMissing(il.name)))
    ensures ProductLine(svc, move, g, il, id).Failure? <==> ProductRejected(svc, move, g, il)
  {
    if il.account.Some? && !AnalyticMissing(il, il.account.value) {
      CreateMoveLineShape(svc, move, Some(g.partner), il.account.value, il.exTaxTotal, il.companyExTaxTotal,
                          None, !g.isDebitCustomer, g.invoice.invoiceDate, None,
                          g.invoice.originDate, id, g.origin, il.productName);
    }
  }

  /** A booked invoice line becomes a one-sided line numbered `id` carrying the invoice line's
      absolute company amount, currency amount, tax line and analytic lines. */
  lemma {:induction false} ProductLineShape(svc: Services, move: Move, g: Generation, il: InvoiceLine, id: int)
    ensures var r := ProductLine(svc, move, g, il, id);
            r.Success? ==>
              WellSided(r.value) && r.value.counter == id &&
              r.value.debit + r.value.credit == Abs(il.companyExTaxTotal) &&
              r.value.currencyAmount == Abs(il.exTaxTotal) &&
              r.value.taxLine == il.taxLine && r.value.analyticLines == il.analyticLines
  {
    var r := ProductLine(svc, move, g, il, id);
    if r.Success? {
      var account := il.account.value;
      var line := CreateMoveLine(svc, move, Some(g.partner), account, il.exTaxTotal, il.companyExTaxTotal,
                                 None, !g.isDebitCustomer, g.invoice.invoiceDate, None,
                                 g.invoice.originDate, id, g.origin, il.productName);
      CreateMoveLineShape(svc, move, Some(g.partner), account, il.exTaxTotal, il.companyExTaxTotal,
                          None, !g.isDebitCustomer, g.invoice.invoiceDate, None,
                          g.invoice.originDate, id, g.origin, il.productName);
      assert (r.value.debit, r.value.credit, r.value.currencyAmount, r.value.counter) ==
             (line.debit, line.credit, line.currencyAmount, line.counter);
    }
  }

  /** The product lines of `ils`, numbered from 1, stopping at the first line that fails;
      invoice lines whose company amount is zero produce nothing. */
  function ProductsFold(svc: Services, move: Move, g: Generation, ils: seq<InvoiceLine>): Result<seq<MoveLine>, Fault>
    reads move
    decreases |ils|
  {
    if ils == [] then Success([])
    else
      var before := ProductsFold(svc, move, g, ils[..|ils| - 1]);
      var il := ils[|ils| - 1];
      if before.Failure? || il.companyExTaxTotal == 0.0 then before
      else
        var line := ProductLine(svc, move, g, il, |before.value| + 1);
        if line.Failure? then Failure(line.error) else Success(before.value + [line.value])
  }

  /** The line of one half (fixed assets or not) of a tax, appended to `acc` and numbered after
      it, or the missing-tax-account configuration error. */
  function TaxPart(svc: Services, move: Move, g: Generation, ilt: InvoiceLineTax, fixedAssets: bool,
                   acc: seq<MoveLine>): Result<seq<MoveLine>, Fault>
    reads move
  {
    var tax := ilt.taxLine.tax;
    match svc.taxAccount(tax, Some(g.company), g.isPurchase, fixedAssets)
    case None => Failure(Fault(ConfigurationError, TaxAccountMissing(tax.name, g.company.name)))
    case Some(account) =>
      var line := CreateMoveLine(svc, move, Some(g.partner), account,
                                 if fixedAssets then ilt.subTotalOfFixedAssets else ilt.subTotalExcludingFixedAssets,
                                 if fixedAssets then ilt.companySubTotalOfFixedAssets else ilt.companySubTotalExcludingFixedAssets,
                                 None, !g.isDebitCustomer, g.invoice.invoiceDate, None, g.invoice.originDate,
                                 |acc| + 1, g.origin, "");
      var taxed := line.(taxLine := Some(ilt.taxLine), taxRate := ilt.taxLine.value, taxCode := tax.code,
                         vatSystem := ilt.vatSystem);
      Success(acc + [taxed])
  }

  /** A tax part fails exactly when the tax service has no account for it, with the
      missing-tax-account configuration error; otherwise it appends one one-sided line, numbered
      next, carrying the tax line, its rate and tax code, its VAT system and the part's absolute
      company amount. */
  lemma {:induction false} TaxPartOutcome(svc: Services, move: Move, g: Generation, ilt: InvoiceLineTax, fixedAssets: bool,
                       acc: seq<MoveLine>)
    ensures var tax := ilt.taxLine.tax;
            svc.taxAccount(tax, Some(g.company), g.isPurchase, fixedAssets).None? <==>
              TaxPart(svc, move, g, ilt, fixedAssets, acc) ==
              Failure(Fault(ConfigurationError, TaxAccountMissing(tax.name, g.company.name)))
    ensures var r := TaxPart(svc, move, g, ilt, fixedAssets, acc);
            r.Success? ==>
              |r.value| == |acc| + 1 && r.value[..|acc|] == acc &&
              var line := r.value[|acc|];
              WellSided(line) && line.counter == |acc| + 1 && line.taxLine == Some(ilt.taxLine) &&
              line.taxRate == ilt.taxLine.value && line.taxCode == ilt.taxLine.tax.code &&
              line.vatSystem == ilt.vatSystem &&
              line.debit + line.credit ==
                Abs(if fixedAssets then ilt.companySubTotalOfFixedAssets else ilt.companySubTotalExcludingFixedAssets)
  {
    var r := TaxPart(svc, move, g, ilt, fixedAssets, acc);
    var account := svc.taxAccount(ilt.taxLine.tax, Some(g.company), g.isPurchase, fixedAssets);
    if account.Some? {
      CreateMoveLineShape(svc, move, Some(g.partner), account.value,
                          if fixedAssets then ilt.subTotalOfFixedAssets else ilt.subTotalExcludingFixedAssets,
                          if fixedAssets then ilt.companySubTotalOfFixedAssets
                          else ilt.companySubTotalExcludingFixedAssets,
                          None, !g.isDebitCustomer, g.invoice.invoiceDate, None, g.invoice.originDate,
                          |acc| + 1, g.origin, "");
      assert r.value[..|acc|] == acc;
    }
  }

  /** Whether a tax has a fixed-asset part to book, and whether it has another part to book. */
  predicate BooksFixedPart(ilt: InvoiceLineTax) {
    ilt.companyTaxTotal != 0.0 && ilt.subTotalOfFixedAssets != 0.0 && ilt.companySubTotalOfFixedAssets != 0.0
  }
  predicate BooksOtherPart(ilt: InvoiceLineTax) {
    ilt.companyTaxTotal != 0.0 && ilt.subTotalExcludingFixedAssets != 0.0 &&
    ilt.companySubTotalExcludingFixedAssets != 0.0
  }

  /** The lines of one tax appended to `acc`: its fixed-asset part, then its other part. */
  function TaxStep(svc: Services, move: Move, g: Generation, acc: seq<MoveLine>, ilt: InvoiceLineTax)
    : Result<seq<MoveLine>, Fault>
    reads move
  {
    var afterFixed := if BooksFixedPart(ilt) then TaxPart(svc, move, g, ilt, true, acc) else Success(acc);
    if afterFixed.Failure? || !BooksOtherPart(ilt) then afterFixed
    else TaxPart(svc, move, g, ilt, false, afterFixed.value)
  }

  /** The tax lines of `ilts` appended to `start`, stopping at the first failure. */
  function TaxesFold(svc: Services, move: Move, g: Generation, start: seq<MoveLine>, ilts: seq<InvoiceLineTax>)
    : Result<seq<MoveLine>, Fault>
    reads move
    decreases |ilts|
  {
    if ilts == [] then Success(start)
    else
      var before := TaxesFold(svc, move, g, start, ilts[..|ilts| - 1]);
      if before.Failure? then before else TaxStep(svc, move, g, before.value, ilts[|ilts| - 1])
  }

  /** The product lines, the tax lines, and the term lines numbered after them and matched to
      their side-total. */
  function AssembledLines(svc: Services, move: Move, g: Generation, partnerAccount: Account)
    : Result<seq<MoveLine>, Fault>
    reads move
  {
    var products := ProductsFold(svc, move, g, g.invoice.lines);
    if products.Failure? then products
    else
      var generated := TaxesFold(svc, move, g, products.value, g.invoice.taxes);
      if generated.Failure? then generated
      else
        WithTermLines(svc, move, TermInputs(g.invoice, partnerAccount, g.partner, g.isDebitCustomer, g.origin),
                      generated.value)
  }

  /** The generated lines followed by the term lines numbered after them and rounded against
      their side-total, or the rounding step's failure. */
  function WithTermLines(svc: Services, move: Move, inputs: TermInputs, lines: seq<MoveLine>)
    : Result<seq<MoveLine>, Fault>
    reads move
  {
    var terms := TermLinesOf(svc, move, inputs, |lines| + 1, SideTotal(lines));
    if terms.Failure? then Failure(terms.error) else Success(lines + terms.value)
  }

  /** The lines the generator returns: the partner and its account must be present; then the
      assembled lines, as consolidation leaves them when asked for. */
  function MoveLinesFor(svc: Services, move: Move, invoice: Invoice, company: Company, partner: Option<Partner>,
                        partnerAccount: Option<Account>, consolidate: bool, isPurchase: bool,
                        isDebitCustomer: bool): Result<seq<MoveLine>, Fault>
    reads move
  {
    if partner.None? then Failure(Fault(MissingField, InvoicePartnerMissing(invoice.invoiceId)))
    else if partnerAccount.None? then Failure(Fault(MissingField, InvoicePartnerAccountMissing(invoice.invoiceId)))
    else
      var g := Generation(invoice, company, partner.value, isPurchase, isDebitCustomer, OriginOf(invoice));
      var all := AssembledLines(svc, move, g, partnerAccount.value);
      if all.Success? && consolidate then Success(svc.consolidate(all.value)) else all
  }

  lemma {:induction false} ProductsFoldFailurePersists(svc: Services, move: Move, g: Generation, ils: seq<InvoiceLine>, n: nat)
    requires n <= |ils| && ProductsFold(svc, move, g, ils[..n]).Failure?
    ensures ProductsFold(svc, move, g, ils) == ProductsFold(svc, move, g, ils[..n])
    decreases |ils| - n
  {
    if n < |ils| {
      assert ils[..n + 1][..n] == ils[..n];
      ProductsFoldFailurePersists(svc, move, g, ils, n + 1);
    } else {
      assert ils[..n] == ils;
    }
  }

  lemma {:induction false} TaxesFoldFailurePersists(svc: Services, move: Move, g: Generation, start: seq<MoveLine>,
                                                     ilts: seq<InvoiceLineTax>, n: nat)
    requires n <= |ilts| && TaxesFold(svc, move, g, start, ilts[..n]).Failure?
    ensures TaxesFold(svc, move, g, start, ilts) == TaxesFold(svc, move, g, start, ilts[..n])
    decreases |ilts| - n
  {
    if n < |ilts| {
      assert ilts[..n + 1][..n] == ilts[..n];
      TaxesFoldFailurePersists(svc, move, g, start, ilts, n + 1);
    } else {
      assert ilts[..n] == ilts;
    }
  }

  /** The source's loop over the invoice lines, with its running line number. */
  method GenerateProductLines(svc: Services, move: Move, g: Generation) returns (r: Result<seq<MoveLine>, Fault>)
    ensures r == ProductsFold(svc, move, g, g.invoice.lines)
  {
    var ils := g.invoice.lines;
    var lines: seq<MoveLine> := [];
    var moveLineId := 1;
    for i := 0 to |ils|
      invariant ProductsFold(svc, move, g, ils[..i]) == Success(lines)
      invariant moveLineId == |lines| + 1
    {
      assert ils[..i + 1][..i] == ils[..i];
      var il := ils[i];
      if il.companyExTaxTotal != 0.0 {
        var line := ProductLine(svc, move, g, il, moveLineId);
        if line.Failure? {
          ProductsFoldFailurePersists(svc, move, g, ils, i + 1);
          return Failure(line.error);
        }
        assert ProductsFold(svc, move, g, ils[..i + 1]) == Success(lines + [line.value]);
        lines := lines + [line.value];
        moveLineId := moveLineId + 1;
      } else {
        assert ProductsFold(svc, move, g, ils[..i + 1]) == Success(lines);
      }
    }
    assert ils[..|ils|] == ils;
    return Success(lines);
  }

  /** The source's loop over the invoice's taxes, continuing the line numbering of `start`. */
  method GenerateTaxLines(svc: Services, move: Move, g: Generation, start: seq<MoveLine>)
    returns (r: Result<seq<MoveLine>, Fault>)
    ensures r == TaxesFold(svc, move, g, start, g.invoice.taxes)
  {
    var ilts := g.invoice.taxes;
    var lines := start;
    for i := 0 to |ilts|
      invariant TaxesFold(svc, move, g, start, ilts[..i]) == Success(lines)
    {
      assert ilts[..i + 1][..i] == ilts[..i];
      var step := GenerateTaxStep(svc, move, g, lines, ilts[i]);
      if step.Failure? {
        TaxesFoldFailurePersists(svc, move, g, start, ilts, i + 1);
        return step;
      }
      lines := step.value;
    }
    assert ilts[..|ilts|] == ilts;
    return Success(lines);
  }

  /** One turn of that loop: the fixed-asset part of the tax, then its other part, each
      numbered after the lines so far. */
  method GenerateTaxStep(svc: Services, move: Move, g: Generation, lines: seq<MoveLine>, ilt: InvoiceLineTax)
    returns (r: Result<seq<MoveLine>, Fault>)
    ensures r == TaxStep(svc, move, g, lines, ilt)
  {
    r := Success(lines);
    if BooksFixedPart(ilt) {
      r := TaxPart(svc, move, g, ilt, true, lines);
      if r.Failure? {
        return;
      }
    }
    if BooksOtherPart(ilt) {
      r := TaxPart(svc, move, g, ilt, false, r.value);
    }
  }

  /** `createMoveLines`: checks the partner and its account, generates the product and tax
      lines, totals them, appends the term lines numbered after them, and consolidates. */
  method CreateMoveLines(svc: Services, move: Move, invoice: Invoice, company: Company, partner: Option<Partner>,
                         partnerAccount: Option<Account>, consolidate: bool, isPurchase: bool, isDebitCustomer: bool)
    returns (r: Result<seq<MoveLine>, Fault>)
    ensures r == MoveLinesFor(svc, move, invoice, company, partner, partnerAccount, consolidate, isPurchase, isDebitCustomer)
  {
    if partner.None? {
      return Failure(Fault(MissingField, InvoicePartnerMissing(invoice.invoiceId)));
    }
    if partnerAccount.None? {
      return Failure(Fault(MissingField, InvoicePartnerAccountMissing(invoice.invoiceId)));
    }
    var g := Generation(invoice, company, partner.value, isPurchase, isDebitCustomer, OriginOf(invoice));
    r := AssembleLines(svc, move, g, partnerAccount.value);
    if r.Success? && consolidate {
      r := Success(svc.consolidate(r.value));
    }
  }

  /** The product lines, then the tax lines, then the term lines numbered after them and
      rounded against their side-total. */
  method AssembleLines(svc: Services, move: Move, g: Generation, partnerAccount: Account)
    returns (r: Result<seq<MoveLine>, Fault>)
    ensures r == AssembledLines(svc, move, g, partnerAccount)
  {
    var products := GenerateProductLines(svc, move, g);
    if products.Failure? {
      return products;
    }
    r := GenerateTaxLines(svc, move, g, products.value);
    if r.Success? {
      r := AppendTermLines(svc, move, TermInputs(g.invoice, partnerAccount, g.partner, g.isDebitCustomer, g.origin),
                           r.value);
    }
  }

  /** Totals the generated lines, then appends the term lines numbered after them. */
  method AppendTermLines(svc: Services, move: Move, inputs: TermInputs, lines: seq<MoveLine>)
    returns (r: Result<seq<MoveLine>, Fault>)
    ensures r == WithTermLines(svc, move, inputs, lines)
  {
    var total, _ := SideTotalAndDirection(lines);
    var terms := AddInvoiceTermMoveLines(svc, move, inputs, |lines| + 1, total);
    if terms.Failure? {
      return Failure(terms.error);
    }
    r := Success(lines + terms.value);
  }

  /** Lines numbered 1, 2, ... in order, each with an amount on one side only. */
  predicate Numbered(lines: seq<MoveLine>) {
    forall k | 0 <= k < |lines| :: lines[k].counter == k + 1 && WellSided(lines[k])
  }

  /** Sum of the absolute company amounts of invoice lines. */
  function AbsCompanyTotal(ils: seq<InvoiceLine>): real
    decreases |ils|
  {
    if ils == [] then 0.0 else AbsCompanyTotal(ils[..|ils| - 1]) + Abs(ils[|ils| - 1].companyExTaxTotal)
  }

  /** Sum of the absolute company amounts of the tax parts that are booked. */
  function AbsTaxTotal(ilts: seq<InvoiceLineTax>): real
    decreases |ilts|
  {
    if ilts == [] then 0.0
    else
      var ilt := ilts[|ilts| - 1];
      AbsTaxTotal(ilts[..|ilts| - 1]) +
      (if BooksFixedPart(ilt) then Abs(ilt.companySubTotalOfFixedAssets) else 0.0) +
      (if BooksOtherPart(ilt) then Abs(ilt.companySubTotalExcludingFixedAssets) else 0.0)
  }

  /** A line with an amount on one side contributes that amount to the side-total. */
  lemma {:induction false} SideAmountOfWellSided(line: MoveLine)
    requires WellSided(line)
    ensures SideAmount(line) == line.debit + line.credit
  {
  }

  /** The invoice lines with a non-zero company amount, in order. */
  function NonZero(ils: seq<InvoiceLine>): (r: seq<InvoiceLine>)
    ensures |r| <= |ils|
    ensures forall k | 0 <= k < |r| :: r[k].companyExTaxTotal != 0.0 && r[k] in ils
    ensures (forall k | 0 <= k < |ils| :: ils[k].companyExTaxTotal != 0.0) ==> r == ils
    decreases |ils|
  {
    if ils == [] then []
    else
      var il := ils[|ils| - 1];
      NonZero(ils[..|ils| - 1]) + if il.companyExTaxTotal != 0.0 then [il] else []
  }

  /** The product lines are numbered 1..n and one-sided, their side-total is the sum of the
      absolute company amounts, and there is exactly one per invoice line with a non-zero
      company amount, in order: the k-th carries the k-th such invoice line's absolute company
      and currency amounts, its tax line and its analytic lines. */
  lemma {:induction false} ProductsFoldLines(svc: Services, move: Move, g: Generation, ils: seq<InvoiceLine>)
    ensures var r := ProductsFold(svc, move, g, ils);
            r.Success? ==>
              Numbered(r.value) && SideTotal(r.value) == AbsCompanyTotal(ils) &&
              |r.value| == |NonZero(ils)| &&
              forall k | 0 <= k < |r.value| :: ProductLineOf(r.value[k], NonZero(ils)[k])
    decreases |ils|
  {
    if ils != [] {
      var init, il := ils[..|ils| - 1], ils[|ils| - 1];
      ProductsFoldLines(svc, move, g, init);
      var before := ProductsFold(svc, move, g, init);
      if before.Success? && il.companyExTaxTotal != 0.0 {
        var line := ProductLine(svc, move, g, il, |before.value| + 1);
        ProductLineShape(svc, move, g, il, |before.value| + 1);
        if line.Success? {
          var after := before.value + [line.value];
          assert ProductsFold(svc, move, g, ils) == Success(after);
          AppendNumbered(before.value, line.value, Abs(il.companyExTaxTotal));
          assert NonZero(ils) == NonZero(init) + [il];
          forall k | 0 <= k < |after|
            ensures ProductLineOf(after[k], NonZero(ils)[k])
          {
            if k < |before.value| {
              assert after[k] == before.value[k] && NonZero(ils)[k] == NonZero(init)[k];
            }
          }
        }
      }
    }
  }

  /** Whether a product line carries the amounts, the tax line and the analytic lines of an
      invoice line. */
  predicate ProductLineOf(line: MoveLine, il: InvoiceLine) {
    line.debit + line.credit == Abs(il.companyExTaxTotal) && line.currencyAmount == Abs(il.exTaxTotal) &&
    line.taxLine == il.taxLine && line.analyticLines == il.analyticLines
  }

  /** Appending a one-sided line numbered next keeps the lines numbered and adds its amount
      to the side-total. */
  lemma {:induction false} AppendNumbered(lines: seq<MoveLine>, line: MoveLine, amount: real)
    requires Numbered(lines) && WellSided(line) && line.counter == |lines| + 1
    requires line.debit + line.credit == amount
    ensures Numbered(lines + [line]) && SideTotal(lines + [line]) == SideTotal(lines) + amount
  {
    var ls := lines + [line];
    assert forall k | 0 <= k < |lines| :: ls[k] == lines[k];
    SumsAppend(lines, line);
    SideAmountOfWellSided(line);
  }

  /** Generation fails exactly when some invoice line with a non-zero company amount cannot
      be booked. */
  lemma {:induction false} ProductsFoldFailsIff(svc: Services, move: Move, g: Generation, ils: seq<InvoiceLine>)
    ensures ProductsFold(svc, move, g, ils).Failure? <==>
            exists k | 0 <= k < |ils| :: ils[k].companyExTaxTotal != 0.0 && ProductRejected(svc, move, g, ils[k])
    decreases |ils|
  {
    if ils != [] {
      var init := ils[..|ils| - 1];
      ProductsFoldFailsIff(svc, move, g, init);
      assert forall k | 0 <= k < |init| :: init[k] == ils[k];
      var before := ProductsFold(svc, move, g, init);
      if before.Success? {
        ProductLineRejection(svc, move, g, ils[|ils| - 1], |before.value| + 1);
      }
    }
  }

  /** The number of lines a tax books: one per booked part. */
  function PartsOf(ilt: InvoiceLineTax): nat {
    (if BooksFixedPart(ilt) then 1 else 0) + (if BooksOtherPart(ilt) then 1 else 0)
  }

  /** The number of lines the taxes of `ilts` book. */
  function BookedParts(ilts: seq<InvoiceLineTax>): nat
    decreases |ilts|
  {
    if ilts == [] then 0 else BookedParts(ilts[..|ilts| - 1]) + PartsOf(ilts[|ilts| - 1])
  }

  /** The tax lines are appended after `start`, which they keep, continue its numbering, each
      one-sided, one per booked part (so none for a tax whose company total is zero), and add
      the absolute company amounts of the booked parts to the side-total. */
  lemma {:induction false} TaxesFoldLines(svc: Services, move: Move, g: Generation, start: seq<MoveLine>,
                                          ilts: seq<InvoiceLineTax>)
    requires Numbered(start)
    ensures var r := TaxesFold(svc, move, g, start, ilts);
            r.Success? ==>
              Numbered(r.value) && SideTotal(r.value) == SideTotal(start) + AbsTaxTotal(ilts) &&
              |r.value| == |start| + BookedParts(ilts) && r.value[..|start|] == start
    decreases |ilts|
  {
    if ilts != [] {
      var init, ilt := ilts[..|ilts| - 1], ilts[|ilts| - 1];
      TaxesFoldLines(svc, move, g, start, init);
      var before := TaxesFold(svc, move, g, start, init);
      if before.Success? {
        TaxStepExtends(svc, move, g, before.value, ilt);
        var r := TaxStep(svc, move, g, before.value, ilt);
        if r.Success? {
          assert r.value[..|start|] == r.value[..|before.value|][..|start|];
        }
      }
    }
  }

  /** The lines of one tax are appended after `acc`, which they keep: one line per booked
      part, the fixed-asset part first, each carrying the tax line and its part's absolute
      company amount. They keep the lines numbered and add those amounts to the side-total. */
  lemma {:induction false} TaxStepExtends(svc: Services, move: Move, g: Generation, acc: seq<MoveLine>, ilt: InvoiceLineTax)
    requires Numbered(acc)
    ensures var r := TaxStep(svc, move, g, acc, ilt);
            r.Success? ==>
              Numbered(r.value) &&
              SideTotal(r.value) == SideTotal(acc) +
                (if BooksFixedPart(ilt) then Abs(ilt.companySubTotalOfFixedAssets) else 0.0) +
                (if BooksOtherPart(ilt) then Abs(ilt.companySubTotalExcludingFixedAssets) else 0.0) &&
              |r.value| == |acc| + PartsOf(ilt) && r.value[..|acc|] == acc &&
              (forall k | |acc| <= k < |r.value| :: r.value[k].taxLine == Some(ilt.taxLine)) &&
              (BooksFixedPart(ilt) ==>
                 r.value[|acc|].debit + r.value[|acc|].credit == Abs(ilt.companySubTotalOfFixedAssets)) &&
              (BooksOtherPart(ilt) ==>
                 r.value[|r.value| - 1].debit + r.value[|r.value| - 1].credit ==
                 Abs(ilt.companySubTotalExcludingFixedAssets))
  {
    var r := TaxStep(svc, move, g, acc, ilt);
    var afterFixed := if BooksFixedPart(ilt) then TaxPart(svc, move, g, ilt, true, acc) else Success(acc);
    if afterFixed.Success? {
      var mid := afterFixed.value;
      if BooksFixedPart(ilt) {
        TaxPartOutcome(svc, move, g, ilt, true, acc);
        TaxPartExtends(svc, move, g, ilt, true, acc);
      }
      if BooksOtherPart(ilt) {
        TaxPartOutcome(svc, move, g, ilt, false, mid);
        TaxPartExtends(svc, move, g, ilt, false, mid);
      }
      if r.Success? {
        TaxPartsAppended(acc, mid, r.value, ilt);
      }
    }
  }

  /** The fixed-asset part's line appended to `acc` (when booked) gives `mid`, and the other
      part's line appended to `mid` (when booked) gives `r`: then `r` is `acc` followed by one
      line per booked part, fixed-asset part first. */
  lemma {:induction false} TaxPartsAppended(acc: seq<MoveLine>, mid: seq<MoveLine>, r: seq<MoveLine>, ilt: InvoiceLineTax)
    requires BooksFixedPart(ilt) ==>
               |mid| == |acc| + 1 && mid[..|acc|] == acc && mid[|acc|].taxLine == Some(ilt.taxLine) &&
               mid[|acc|].debit + mid[|acc|].credit == Abs(ilt.companySubTotalOfFixedAssets)
    requires !BooksFixedPart(ilt) ==> mid == acc
    requires BooksOtherPart(ilt) ==>
               |r| == |mid| + 1 && r[..|mid|] == mid && r[|mid|].taxLine == Some(ilt.taxLine) &&
               r[|mid|].debit + r[|mid|].credit == Abs(ilt.companySubTotalExcludingFixedAssets)
    requires !BooksOtherPart(ilt) ==> r == mid
    ensures |r| == |acc| + PartsOf(ilt) && r[..|acc|] == acc
    ensures forall k | |acc| <= k < |r| :: r[k].taxLine == Some(ilt.taxLine)
    ensures BooksFixedPart(ilt) ==> r[|acc|].debit + r[|acc|].credit == Abs(ilt.companySubTotalOfFixedAssets)
    ensures BooksOtherPart(ilt) ==> r[|r| - 1].debit + r[|r| - 1].credit == Abs(ilt.companySubTotalExcludingFixedAssets)
  {
    if BooksOtherPart(ilt) {
      assert r[..|acc|] == r[..|mid|][..|acc|];
      assert forall k | |acc| <= k < |mid| :: r[k] == r[..|mid|][k];
    }
  }



  /** A booked tax part keeps the lines numbered and adds its absolute amount to the side-total. */
  lemma {:induction false} TaxPartExtends(svc: Services, move: Move, g: Generation, ilt: InvoiceLineTax, fixedAssets: bool,
                       acc: seq<MoveLine>)
    requires Numbered(acc)
    ensures var r := TaxPart(svc, move, g, ilt, fixedAssets, acc);
            r.Success? ==>
              Numbered(r.value) &&
              SideTotal(r.value) == SideTotal(acc) +
                Abs(if fixedAssets then ilt.companySubTotalOfFixedAssets else ilt.companySubTotalExcludingFixedAssets)
  {
    var r := TaxPart(svc, move, g, ilt, fixedAssets, acc);
    TaxPartOutcome(svc, move, g, ilt, fixedAssets, acc);
    if r.Success? {
      var line := r.value[|acc|];
      assert r.value == acc + [line];
      AppendNumbered(acc, line, Abs(if fixedAssets then ilt.companySubTotalOfFixedAssets
                                    else ilt.companySubTotalExcludingFixedAssets));
    }
  }

  /** Tax generation fails exactly when a booked tax part has no tax account. */
  lemma {:induction false} TaxesFoldFailsIff(svc: Services, move: Move, g: Generation, start: seq<MoveLine>,
                                             ilts: seq<InvoiceLineTax>)
    ensures TaxesFold(svc, move, g, start, ilts).Failure? <==>
            exists k | 0 <= k < |ilts| :: TaxAccountLacking(svc, g, ilts[k])
    decreases |ilts|
  {
    if ilts != [] {
      var init := ilts[..|ilts| - 1];
      TaxesFoldFailsIff(svc, move, g, start, init);
      assert forall k | 0 <= k < |init| :: init[k] == ilts[k];
      var before := TaxesFold(svc, move, g, start, init);
      if before.Success? {
        var ilt := ilts[|ilts| - 1];
        TaxPartOutcome(svc, move, g, ilt, true, before.value);
        var afterFixed := if BooksFixedPart(ilt) then TaxPart(svc, move, g, ilt, true, before.value)
                          else Success(before.value);
        if afterFixed.Success? {
          TaxPartOutcome(svc, move, g, ilt, false, afterFixed.value);
        }
      }
    }
  }

  /** Whether a booked part of a tax has no tax account. */
  predicate TaxAccountLacking(svc: Services, g: Generation, ilt: InvoiceLineTax) {
    (BooksFixedPart(ilt) && svc.taxAccount(ilt.taxLine.tax, Some(g.company), g.isPurchase, true).None?) ||
    (BooksOtherPart(ilt) && svc.taxAccount(ilt.taxLine.tax, Some(g.company), g.isPurchase, false).None?)
  }

  /** The product and tax lines of a run: numbered 1..n, one-sided, and their side-total is
      the sum of the absolute company amounts booked. */
  lemma {:induction false} GeneratedLines(svc: Services, move: Move, g: Generation)
    ensures var products := ProductsFold(svc, move, g, g.invoice.lines);
            products.Success? ==>
              var generated := TaxesFold(svc, move, g, products.value, g.invoice.taxes);
              generated.Success? ==>
                Numbered(generated.value) &&
                SideTotal(generated.value) == AbsCompanyTotal(g.invoice.lines) + AbsTaxTotal(g.invoice.taxes)
  {
    ProductsFoldLines(svc, move, g, g.invoice.lines);
    var products := ProductsFold(svc, move, g, g.invoice.lines);
    if products.Success? {
      TaxesFoldLines(svc, move, g, products.value, g.invoice.taxes);
    }
  }

  /** A successful run numbers every line distinctly from 1 to the number of lines: the
      product and tax lines in order, the term lines after them. */
  lemma {:induction false} AssembledLinesNumbered(svc: Services, move: Move, g: Generation, partnerAccount: Account)
    ensures var r := AssembledLines(svc, move, g, partnerAccount);
            r.Success? ==> DistinctCountersFrom(r.value, 1)
  {
    var r := AssembledLines(svc, move, g, partnerAccount);
    if r.Success? {
      var products := ProductsFold(svc, move, g, g.invoice.lines);
      var generated := TaxesFold(svc, move, g, products.value, g.invoice.taxes);
      var inputs := TermInputs(g.invoice, partnerAccount, g.partner, g.isDebitCustomer, g.origin);
      var terms := TermLinesOf(svc, move, inputs, |generated.value| + 1, SideTotal(generated.value));
      assert r.value == generated.value + terms.value;
      ProductsFoldLines(svc, move, g, g.invoice.lines);
      TaxesFoldLines(svc, move, g, products.value, g.invoice.taxes);
      TermLinesShape(svc, move, inputs, |generated.value| + 1, SideTotal(generated.value));
      ConcatCounters(generated.value, terms.value);
    }
  }

  /** Once the product and tax lines are generated, the run still fails, on the rounding
      step's null dereference, exactly when every invoice term is a hold-back. */
  lemma {:induction false} AssembledLinesNeedMergedTerm(svc: Services, move: Move, g: Generation,
                                                        partnerAccount: Account)
    ensures var products := ProductsFold(svc, move, g, g.invoice.lines);
            products.Success? ==>
              var generated := TaxesFold(svc, move, g, products.value, g.invoice.taxes);
              generated.Success? ==>
                var r := AssembledLines(svc, move, g, partnerAccount);
                (r.Failure? <==> |NonHoldBack(g.invoice.terms)| == 0) &&
                (r.Failure? ==> r.error == Fault(NullDereference, RoundingLineMissing))
  {
    var products := ProductsFold(svc, move, g, g.invoice.lines);
    if products.Success? {
      var generated := TaxesFold(svc, move, g, products.value, g.invoice.taxes);
      if generated.Success? {
        var inputs := TermInputs(g.invoice, partnerAccount, g.partner, g.isDebitCustomer, g.origin);
        TermLinesShape(svc, move, inputs, |generated.value| + 1, SideTotal(generated.value));
      }
    }
  }

  /** Lines numbered 1..n followed by lines whose distinct counters lie after n have distinct
      counters from 1 to the total count. */
  lemma {:induction false} ConcatCounters(numbered: seq<MoveLine>, rest: seq<MoveLine>)
    requires Numbered(numbered)
    requires DistinctCountersFrom(rest, |numbered| + 1)
    ensures DistinctCountersFrom(numbered + rest, 1)
  {
    var all := numbered + rest;
    var n := |numbered|;
    assert forall k | 0 <= k < n :: all[k] == numbered[k];
    assert forall k | n <= k < |all| :: all[k] == rest[k - n];
  }

  /** With the corrected rounding step, the term lines add up to the side-total of the
      product and tax lines, the sum of the absolute company amounts booked: their credits
      when every term line is a credit, their side-total when the merged line has no credit. */
  lemma {:induction false} TermLinesMatchGenerated(svc: Services, move: Move, g: Generation, partnerAccount: Account)
    ensures var products := ProductsFold(svc, move, g, g.invoice.lines);
            products.Success? ==>
              var generated := TaxesFold(svc, move, g, products.value, g.invoice.taxes);
              var inputs := TermInputs(g.invoice, partnerAccount, g.partner, g.isDebitCustomer, g.origin);
              generated.Success? && |NonHoldBack(g.invoice.terms)| > 0 ==>
                var before := TermLinesBeforeRounding(svc, move, inputs, |generated.value| + 1);
                var r := TermLinesCorrected(svc, move, inputs, |generated.value| + 1, SideTotal(generated.value));
                var booked := AbsCompanyTotal(g.invoice.lines) + AbsTaxTotal(g.invoice.taxes);
                (AllCredit(before) ==> SumCredit(r) == booked) &&
                (!AllCredit(before) && LastWithoutCredit(before) ==> SideTotal(r) == booked)
  {
    var products := ProductsFold(svc, move, g, g.invoice.lines);
    if products.Success? {
      var generated := TaxesFold(svc, move, g, products.value, g.invoice.taxes);
      var inputs := TermInputs(g.invoice, partnerAccount, g.partner, g.isDebitCustomer, g.origin);
      if generated.Success? && |NonHoldBack(g.invoice.terms)| > 0 {
        var total := SideTotal(generated.value);
        GeneratedLines(svc, move, g);
        assert total == AbsCompanyTotal(g.invoice.lines) + AbsTaxTotal(g.invoice.taxes);
        TermLinesMatchTotal(svc, move, inputs, |generated.value| + 1, total);
      }
    }
  }
}

/** The partner-side lines of an invoice move, one per hold-back term plus one line merging
    every other term, then corrected for rounding against the product and tax total. */
module TermLines {
  import opened Wrappers
  import opened Domain
  import opened Decimals
  import opened Collaborators
  import opened LineFactory
  import opened Rounding

  /** What the invoice generator hands to the term-line step. */
  datatype TermInputs = TermInputs(invoice: Invoice, partnerAccount: Account, partner: Partner,
                                   isDebitCustomer: bool, origin: string)

  /** A term's amount converted from the invoice currency to the company currency. */
  function CompanyAmount(svc: Services, move: Move, invoice: Invoice, term: InvoiceTerm): real
    reads move
  {
    svc.convertAtDate(invoice.currency, svc.companyCurrency(move.company), term.amount, invoice.invoiceDate)
  }

  /** The invoice-date rate from the invoice currency to the company currency. */
  function TermRate(svc: Services, move: Move, invoice: Invoice): real
    reads move
  {
    svc.conversionRate(invoice.currency, svc.companyCurrency(move.company), invoice.invoiceDate)
  }

  /** The terms that are hold-backs, in order. */
  function HoldBacks(terms: seq<InvoiceTerm>): (r: seq<InvoiceTerm>)
    ensures |r| <= |terms|
    ensures forall k | 0 <= k < |r| :: r[k].isHoldBack
    decreases |terms|
  {
    if terms == [] then []
    else HoldBacks(terms[..|terms| - 1]) + (if terms[|terms| - 1].isHoldBack then [terms[|terms| - 1]] else [])
  }

  /** The terms that are not hold-backs, in order: the ones the merged line carries. */
  function NonHoldBack(terms: seq<InvoiceTerm>): (r: seq<InvoiceTerm>)
    ensures |r| + |HoldBacks(terms)| == |terms|
    ensures forall k | 0 <= k < |r| :: !r[k].isHoldBack
    decreases |terms|
  {
    if terms == [] then []
    else NonHoldBack(terms[..|terms| - 1]) + (if terms[|terms| - 1].isHoldBack then [] else [terms[|terms| - 1]])
  }

  /** Total of the converted company amounts of `terms`. */
  function CompanySum(svc: Services, move: Move, invoice: Invoice, terms: seq<InvoiceTerm>): real
    reads move
    decreases |terms|
  {
    if terms == [] then 0.0
    else CompanySum(svc, move, invoice, terms[..|terms| - 1]) + CompanyAmount(svc, move, invoice, terms[|terms| - 1])
  }

  /** Total of the invoice-currency amounts of `terms`. */
  function AmountSum(terms: seq<InvoiceTerm>): real
    decreases |terms|
  {
    if terms == [] then 0.0 else AmountSum(terms[..|terms| - 1]) + terms[|terms| - 1].amount
  }

  /** The line of one hold-back term: on the hold-back partner account, due on the term's
      date, carrying that term alone, for the converted amount rounded to two places. */
  function HoldBackLine(svc: Services, move: Move, inp: TermInputs, term: InvoiceTerm, id: int): (line: MoveLine)
    reads move
    ensures WellSided(line)
    ensures line.debit + line.credit == Abs(SetScale(CompanyAmount(svc, move, inp.invoice, term), AMOUNT_SCALE))
    ensures line.currencyAmount == Abs(term.amount)
    ensures line.account == svc.fiscalAccount(FiscalPositionFor(move, inp.partner), Some(svc.holdBackAccount(inp.invoice)))
    ensures line.invoiceTerms == [term] && line.dueDate == term.dueDate && line.counter == id
  {
    CreateMoveLineShape(svc, move, Some(inp.partner), svc.holdBackAccount(inp.invoice), term.amount,
                        SetScale(CompanyAmount(svc, move, inp.invoice, term), AMOUNT_SCALE),
                        Some(TermRate(svc, move, inp.invoice)), inp.isDebitCustomer, inp.invoice.invoiceDate,
                        term.dueDate, inp.invoice.originDate, id, inp.origin, "");
    CreateMoveLine(svc, move, Some(inp.partner), svc.holdBackAccount(inp.invoice), term.amount,
                   SetScale(CompanyAmount(svc, move, inp.invoice, term), AMOUNT_SCALE),
                   Some(TermRate(svc, move, inp.invoice)), inp.isDebitCustomer, inp.invoice.invoiceDate,
                   term.dueDate, inp.invoice.originDate, id, inp.origin, "").(invoiceTerms := [term])
  }

  /** The merged line as the first non-hold-back term opens it: on the partner account, due on
      the latest term due date, for that term's converted amount rounded to two places. */
  function OpenedMergedLine(svc: Services, move: Move, inp: TermInputs, term: InvoiceTerm, id: int): (line: MoveLine)
    reads move
    ensures line.debit + line.credit == Abs(SetScale(CompanyAmount(svc, move, inp.invoice, term), AMOUNT_SCALE))
    ensures line.currencyAmount == Abs(term.amount)
    ensures line.account == svc.fiscalAccount(FiscalPositionFor(move, inp.partner), Some(inp.partnerAccount))
    ensures line.dueDate == svc.latestDueDate(inp.invoice) && line.counter == id
  {
    CreateMoveLineShape(svc, move, Some(inp.partner), inp.partnerAccount, term.amount,
                        SetScale(CompanyAmount(svc, move, inp.invoice, term), AMOUNT_SCALE),
                        Some(TermRate(svc, move, inp.invoice)), inp.isDebitCustomer, inp.invoice.invoiceDate,
                        svc.latestDueDate(inp.invoice), inp.invoice.originDate, id, inp.origin, "");
    CreateMoveLine(svc, move, Some(inp.partner), inp.partnerAccount, term.amount,
                   SetScale(CompanyAmount(svc, move, inp.invoice, term), AMOUNT_SCALE),
                   Some(TermRate(svc, move, inp.invoice)), inp.isDebitCustomer, inp.invoice.invoiceDate,
                   svc.latestDueDate(inp.invoice), inp.invoice.originDate, id, inp.origin, "")
  }

  /** A later term added to the merged line, unrounded, on the debit if that is non-zero and
      on the credit otherwise; its invoice-currency amount is added as it stands. */
  function Accumulated(line: MoveLine, companyAmount: real, amount: real): (r: MoveLine)
    ensures r.debit + r.credit == line.debit + line.credit + companyAmount
    ensures r.currencyAmount == line.currencyAmount + amount
    ensures line.debit != 0.0 ==> r.credit == line.credit
    ensures line.debit == 0.0 ==> r.debit == 0.0
    ensures r == line.(debit := r.debit, credit := r.credit, currencyAmount := r.currencyAmount)
  {
    if line.debit != 0.0 then
      line.(debit := line.debit + companyAmount, currencyAmount := line.currencyAmount + amount)
    else
      line.(credit := line.credit + companyAmount, currencyAmount := line.currencyAmount + amount)
  }

  /** The loop state: hold-back lines so far, the merged line if opened, the next counter. */
  datatype TermState = TermState(lines: seq<MoveLine>, merged: Option<MoveLine>, nextId: int)

  function TermStep(svc: Services, move: Move, inp: TermInputs, st: TermState, term: InvoiceTerm): TermState
    reads move
  {
    if term.isHoldBack then
      TermState(st.lines + [HoldBackLine(svc, move, inp, term, st.nextId)], st.merged, st.nextId + 1)
    else if st.merged.None? then
      TermState(st.lines, Some(OpenedMergedLine(svc, move, inp, term, st.nextId)), st.nextId + 1)
    else
      TermState(st.lines, Some(Accumulated(st.merged.value, CompanyAmount(svc, move, inp.invoice, term), term.amount)),
                st.nextId)
  }

  function TermsFold(svc: Services, move: Move, inp: TermInputs, terms: seq<InvoiceTerm>, firstId: int): TermState
    reads move
    decreases |terms|
  {
    if terms == [] then TermState([], None, firstId)
    else TermStep(svc, move, inp, TermsFold(svc, move, inp, terms[..|terms| - 1], firstId), terms[|terms| - 1])
  }

  /** The term lines before rounding: the hold-back lines, then the merged line carrying every
      non-hold-back term. */
  function TermLinesBeforeRounding(svc: Services, move: Move, inp: TermInputs, firstId: int): seq<MoveLine>
    reads move
  {
    var st := TermsFold(svc, move, inp, inp.invoice.terms, firstId);
    match st.merged
    case Some(m) => st.lines + [m.(invoiceTerms := NonHoldBack(inp.invoice.terms))]
    case None => st.lines
  }

  /** The index of the merged line among the term lines, if there is one. */
  function MergedIndex(svc: Services, move: Move, inp: TermInputs, firstId: int): Option<nat>
    reads move
  {
    var st := TermsFold(svc, move, inp, inp.invoice.terms, firstId);
    if st.merged.Some? then Some(|st.lines|) else None
  }

  /** The term lines after the rounding step as written: a null-dereference failure when no
      term is merged, otherwise the merged line's amount moved by the difference. */
  function TermLinesOf(svc: Services, move: Move, inp: TermInputs, firstId: int, totalToMatch: real)
    : Result<seq<MoveLine>, Fault>
    reads move
  {
    RoundValueAsWritten(MergedIndex(svc, move, inp, firstId), TermLinesBeforeRounding(svc, move, inp, firstId),
                        totalToMatch)
  }

  /** The term lines once the merged line has absorbed the whole rounding difference (the
      corrected rounding step). */
  function TermLinesCorrected(svc: Services, move: Move, inp: TermInputs, firstId: int, totalToMatch: real)
    : seq<MoveLine>
    reads move
  {
    Reconciled(MergedIndex(svc, move, inp, firstId), TermLinesBeforeRounding(svc, move, inp, firstId), totalToMatch)
  }

  /** `addInvoiceTermMoveLines`: the source's two loops over the terms, then the rounding
      step as written. */
  method AddInvoiceTermMoveLines(svc: Services, move: Move, inp: TermInputs, firstId: int, totalToMatch: real)
    returns (r: Result<seq<MoveLine>, Fault>)
    ensures r == TermLinesOf(svc, move, inp, firstId, totalToMatch)
  {
    var st := BookTerms(svc, move, inp, firstId);
    var lines := st.lines;
    var mergedIndex: Option<nat> := None;
    if st.merged.Some? {
      var attached := AttachedTerms(inp.invoice.terms);
      mergedIndex := Some(|lines|);
      lines := lines + [st.merged.value.(invoiceTerms := attached)];
    }
    r := UpdateRoundValueIfNecessary(mergedIndex, lines, totalToMatch);
  }

  /** The first loop: a hold-back line per hold-back term, the other terms accumulated into
      the merged line. */
  method BookTerms(svc: Services, move: Move, inp: TermInputs, firstId: int) returns (st: TermState)
    ensures st == TermsFold(svc, move, inp, inp.invoice.terms, firstId)
  {
    var terms := inp.invoice.terms;
    st := TermState([], None, firstId);
    for i := 0 to |terms|
      invariant st == TermsFold(svc, move, inp, terms[..i], firstId)
    {
      assert terms[..i + 1][..i] == terms[..i];
      st := BookTerm(svc, move, inp, st, terms[i]);
    }
    assert terms[..|terms|] == terms;
  }

  /** One turn of the first loop. */
  method BookTerm(svc: Services, move: Move, inp: TermInputs, st: TermState, term: InvoiceTerm)
    returns (next: TermState)
    ensures next == TermStep(svc, move, inp, st, term)
  {
    var lines, merged, id := st.lines, st.merged, st.nextId;
    if term.isHoldBack {
      lines := lines + [HoldBackLine(svc, move, inp, term, id)];
      id := id + 1;
    } else if merged.None? {
      merged := Some(OpenedMergedLine(svc, move, inp, term, id));
      id := id + 1;
    } else {
      merged := Some(Accumulated(merged.value, CompanyAmount(svc, move, inp.invoice, term), term.amount));
    }
    next := TermState(lines, merged, id);
  }

  /** The second loop: the terms that are not hold-backs, in order, attached to the merged line. */
  method AttachedTerms(terms: seq<InvoiceTerm>) returns (attached: seq<InvoiceTerm>)
    ensures attached == NonHoldBack(terms)
  {
    attached := [];
    for i := 0 to |terms|
      invariant attached == NonHoldBack(terms[..i])
    {
      assert terms[..i + 1][..i] == terms[..i];
      if !terms[i].isHoldBack {
        attached := attached + [terms[i]];
      }
    }
    assert terms[..|terms|] == terms;
  }

  /** One hold-back line per hold-back term; a merged line exactly when some term is not a
      hold-back; the counter advances once per line created. */
  lemma {:induction false} TermsFoldShape(svc: Services, move: Move, inp: TermInputs, terms: seq<InvoiceTerm>, firstId: int)
    ensures var st := TermsFold(svc, move, inp, terms, firstId);
            |st.lines| == |HoldBacks(terms)| &&
            (st.merged.Some? <==> |NonHoldBack(terms)| > 0) &&
            st.nextId == firstId + |st.lines| + (if st.merged.Some? then 1 else 0)
    decreases |terms|
  {
    if terms != [] {
      TermsFoldShape(svc, move, inp, terms[..|terms| - 1], firstId);
    }
  }

  /** The k-th hold-back line belongs to the k-th hold-back term, is due when it is, and holds
      its rounded converted amount on one side. */
  lemma {:induction false} TermsFoldHoldBackLines(svc: Services, move: Move, inp: TermInputs, terms: seq<InvoiceTerm>, firstId: int)
    ensures var st := TermsFold(svc, move, inp, terms, firstId);
            var held := HoldBacks(terms);
            |st.lines| == |held| &&
            forall k | 0 <= k < |held| ::
              st.lines[k].invoiceTerms == [held[k]] && st.lines[k].dueDate == held[k].dueDate &&
              WellSided(st.lines[k]) &&
              st.lines[k].debit + st.lines[k].credit == Abs(SetScale(CompanyAmount(svc, move, inp.invoice, held[k]), AMOUNT_SCALE))
    decreases |terms|
  {
    if terms != [] {
      TermsFoldHoldBackLines(svc, move, inp, terms[..|terms| - 1], firstId);
    }
  }

  /** Every counter handed out lies in [firstId, nextId), the hold-back lines' counters
      increase, and the merged line's counter is none of theirs. */
  predicate CountersWellFormed(st: TermState, firstId: int) {
    firstId <= st.nextId &&
    (forall k | 0 <= k < |st.lines| :: firstId <= st.lines[k].counter < st.nextId) &&
    (forall j, k | 0 <= j < k < |st.lines| :: st.lines[j].counter < st.lines[k].counter) &&
    (st.merged.Some? ==>
       firstId <= st.merged.value.counter < st.nextId &&
       forall k | 0 <= k < |st.lines| :: st.lines[k].counter != st.merged.value.counter)
  }

  lemma {:induction false} TermStepKeepsCounters(svc: Services, move: Move, inp: TermInputs, st: TermState, term: InvoiceTerm, firstId: int)
    requires CountersWellFormed(st, firstId)
    ensures CountersWellFormed(TermStep(svc, move, inp, st, term), firstId)
  {
    if term.isHoldBack {
      var line := HoldBackLine(svc, move, inp, term, st.nextId);
      assert line.counter == st.nextId;
      var lines' := st.lines + [line];
      assert forall k | 0 <= k < |st.lines| :: lines'[k] == st.lines[k];
    } else if st.merged.Some? {
      var m := st.merged.value;
      assert Accumulated(m, CompanyAmount(svc, move, inp.invoice, term), term.amount).counter == m.counter;
    }
  }

  lemma {:induction false} TermsFoldCounters(svc: Services, move: Move, inp: TermInputs, terms: seq<InvoiceTerm>, firstId: int)
    ensures CountersWellFormed(TermsFold(svc, move, inp, terms, firstId), firstId)
    decreases |terms|
  {
    if terms != [] {
      var init := terms[..|terms| - 1];
      TermsFoldCounters(svc, move, inp, init, firstId);
      TermStepKeepsCounters(svc, move, inp, TermsFold(svc, move, inp, init, firstId), terms[|terms| - 1], firstId);
    }
  }

  /** The merged line holds the first merged term rounded to two places plus every later
      one unrounded, and the sum of their invoice-currency amounts. */
  ghost predicate MergedHolds(svc: Services, move: Move, inp: TermInputs, merged: Option<MoveLine>,
                              merging: seq<InvoiceTerm>)
    reads move
  {
    (merged.Some? <==> |merging| > 0) &&
    (merged.Some? ==>
       merged.value.debit + merged.value.credit ==
         Abs(SetScale(CompanyAmount(svc, move, inp.invoice, merging[0]), AMOUNT_SCALE)) +
         CompanySum(svc, move, inp.invoice, merging[1..]) &&
       merged.value.currencyAmount == Abs(merging[0].amount) + AmountSum(merging[1..]) &&
       merged.value.dueDate == svc.latestDueDate(inp.invoice))
  }

  lemma {:induction false} TermStepMerges(svc: Services, move: Move, inp: TermInputs, st: TermState, merging: seq<InvoiceTerm>,
                       term: InvoiceTerm)
    requires MergedHolds(svc, move, inp, st.merged, merging)
    ensures MergedHolds(svc, move, inp, TermStep(svc, move, inp, st, term).merged,
                        merging + if term.isHoldBack then [] else [term])
  {
    if !term.isHoldBack {
      var merging' := merging + [term];
      if st.merged.Some? {
        assert merging'[0] == merging[0];
        assert merging'[1..] == merging[1..] + [term];
        assert merging'[1..][..|merging'[1..]| - 1] == merging[1..];
      } else {
        assert merging' == [term];
        assert merging'[1..] == [];
      }
    } else {
      assert merging + [] == merging;
    }
  }

  lemma {:induction false} TermsFoldMergedTotals(svc: Services, move: Move, inp: TermInputs, terms: seq<InvoiceTerm>, firstId: int)
    ensures MergedHolds(svc, move, inp, TermsFold(svc, move, inp, terms, firstId).merged, NonHoldBack(terms))
    decreases |terms|
  {
    if terms != [] {
      var init := terms[..|terms| - 1];
      TermsFoldMergedTotals(svc, move, inp, init, firstId);
      TermStepMerges(svc, move, inp, TermsFold(svc, move, inp, init, firstId), NonHoldBack(init), terms[|terms| - 1]);
    }
  }

  /** The lines' counters are pairwise distinct and lie in [first, first + number of lines). */
  predicate DistinctCountersFrom(lines: seq<MoveLine>, first: int) {
    (forall k | 0 <= k < |lines| :: first <= lines[k].counter < first + |lines|) &&
    (forall j, k | 0 <= j < k < |lines| :: lines[j].counter != lines[k].counter)
  }

  /** The term lines fail exactly when no term is merged (the rounding step dereferences the
      missing merged line); otherwise there is one line per hold-back term plus the merged
      line, last and carrying every non-hold-back term, with counters pairwise distinct within
      [firstId, firstId + number of lines). */
  lemma {:induction false} TermLinesShape(svc: Services, move: Move, inp: TermInputs, firstId: int, totalToMatch: real)
    ensures var terms := inp.invoice.terms;
            var r := TermLinesOf(svc, move, inp, firstId, totalToMatch);
            (r.Failure? <==> |NonHoldBack(terms)| == 0) &&
            (r.Failure? ==> r.error == Fault(NullDereference, RoundingLineMissing)) &&
            (r.Success? ==>
               |r.value| == |HoldBacks(terms)| + 1 &&
               r.value[|r.value| - 1].invoiceTerms == NonHoldBack(terms) &&
               DistinctCountersFrom(r.value, firstId))
  {
    var before := TermLinesBeforeRounding(svc, move, inp, firstId);
    var r := TermLinesOf(svc, move, inp, firstId, totalToMatch);
    TermLinesBeforeRoundingShape(svc, move, inp, firstId);
    if r.Success? {
      AmountChangesKeepCounters(before, r.value, MergedIndex(svc, move, inp, firstId), firstId);
    }
  }

  /** With the rounding step as written and a merged line, the term lines match the total
      exactly when they were not below it before rounding: a shortfall is doubled instead of
      absorbed. This holds for the credits when every term line is a credit, and for the
      side-total when the merged line has no credit. */
  lemma {:induction false} TermLinesMatchOnlyFromAbove(svc: Services, move: Move, inp: TermInputs, firstId: int,
                                                       totalToMatch: real)
    requires |NonHoldBack(inp.invoice.terms)| > 0
    ensures var before := TermLinesBeforeRounding(svc, move, inp, firstId);
            var r := TermLinesOf(svc, move, inp, firstId, totalToMatch);
            r.Success? &&
            (AllCredit(before) ==> (SumCredit(r.value) == totalToMatch <==> SideTotal(before) >= totalToMatch)) &&
            (!AllCredit(before) && LastWithoutCredit(before) ==>
               (SideTotal(r.value) == totalToMatch <==> SideTotal(before) >= totalToMatch))
  {
    TermLinesBeforeRoundingShape(svc, move, inp, firstId);
  }

  /** Before rounding, the term lines already have that shape. */
  lemma {:induction false} TermLinesBeforeRoundingShape(svc: Services, move: Move, inp: TermInputs, firstId: int)
    ensures var terms := inp.invoice.terms;
            var before := TermLinesBeforeRounding(svc, move, inp, firstId);
            var merged := MergedIndex(svc, move, inp, firstId);
            |before| == |HoldBacks(terms)| + (if |NonHoldBack(terms)| > 0 then 1 else 0) &&
            (merged.Some? <==> |NonHoldBack(terms)| > 0) &&
            (merged.Some? ==> merged.value == |before| - 1) &&
            (|NonHoldBack(terms)| > 0 ==> before[|before| - 1].invoiceTerms == NonHoldBack(terms)) &&
            DistinctCountersFrom(before, firstId)
  {
    var terms := inp.invoice.terms;
    TermsFoldShape(svc, move, inp, terms, firstId);
    TermsFoldCounters(svc, move, inp, terms, firstId);
  }

  /** Changing only amounts keeps the lines' counters and terms. */
  lemma {:induction false} AmountChangesKeepCounters(before: seq<MoveLine>, after: seq<MoveLine>, k: Option<nat>,
                                                     firstId: int)
    requires OnlyAmountsOfLineChanged(before, after, k)
    ensures DistinctCountersFrom(before, firstId) ==> DistinctCountersFrom(after, firstId)
    ensures forall i | 0 <= i < |after| :: after[i].invoiceTerms == before[i].invoiceTerms
  {
    assert forall i | 0 <= i < |after| :: after[i].counter == before[i].counter;
  }

  /** The last line, where the merged line sits, has no credit. */
  predicate LastWithoutCredit(lines: seq<MoveLine>) {
    |lines| > 0 && lines[|lines| - 1].credit <= 0.0
  }

  /** With the corrected rounding step and a merged line: when every term line is a credit,
      their credits add up to the total; otherwise, when the merged line has no credit (a
      customer's merged line), their side-total does. */
  lemma {:induction false} TermLinesMatchTotal(svc: Services, move: Move, inp: TermInputs, firstId: int, totalToMatch: real)
    requires |NonHoldBack(inp.invoice.terms)| > 0
    ensures var before := TermLinesBeforeRounding(svc, move, inp, firstId);
            var r := TermLinesCorrected(svc, move, inp, firstId, totalToMatch);
            (AllCredit(before) ==> SumCredit(r) == totalToMatch) &&
            (!AllCredit(before) && LastWithoutCredit(before) ==> SideTotal(r) == totalToMatch)
  {
    TermLinesBeforeRoundingShape(svc, move, inp, firstId);
    ReconciledMatchesTotal(MergedIndex(svc, move, inp, firstId), TermLinesBeforeRounding(svc, move, inp, firstId),
                           totalToMatch);
  }
}

/** `createMoveLineForAutoTax`: for a move line that carries a tax, the tax line of the move
    that accumulates base × rate, found by its key among the lines built so far, else among the
    move's existing tax lines, else created. The key is the tax account's code with the tax
    line's id appended. */
module AutoTax {
  import opened Wrappers
  import opened Domain
  import opened Text
  import opened Collaborators
  import opened LineFactory

  /** The key as the service spells it: the account code with the tax line id appended. */
  function SourceTaxLineKeyAsWritten(accountCode: string, taxLineId: nat): (key: string)
    ensures |key| > |accountCode| && key[..|accountCode|] == accountCode
    ensures AllDigits(key[|accountCode|..]) && DigitsValue(key[|accountCode|..]) == taxLineId
  {
    assert (accountCode + NatToString(taxLineId))[|accountCode|..] == NatToString(taxLineId);
    NatToStringValue(taxLineId);
    accountCode + NatToString(taxLineId)
  }

  /** The key of an accumulating tax line as a pair: its account's code and its tax line. */
  datatype TaxKey = TaxKey(accountCode: string, taxLineId: nat)

  /** Two different (account code, tax line) pairs spell the same key as written; as pairs
      they stay different. */
  lemma {:induction false} SourceTaxLineKeyCollides()
    ensures SourceTaxLineKeyAsWritten("4456", 61) == SourceTaxLineKeyAsWritten("44566", 1)
    ensures TaxKey("4456", 61) != TaxKey("44566", 1)
  {
    assert NatToString(6) == "6";
    assert NatToString(61) == NatToString(6) + [DigitChar(1)];
    assert NatToString(1) == "1";
  }

  /** The fiscal position auto-tax applies: the invoice's (or its partner's) when the move has
      an invoice, else the move partner's. */
  function AutoTaxFiscalPosition(move: Move): (fp: Option<FiscalPosition>)
    reads move
    ensures move.partner.Some? ==> fp == FiscalPositionFor(move, move.partner.value)
    ensures move.invoice.None? && move.partner.None? ==> fp.None?
  {
    if move.invoice.Some? then
      (if move.invoice.value.fiscalPosition.Some? then move.invoice.value.fiscalPosition
       else move.invoice.value.partner.fiscalPosition)
    else if move.partner.Some? then move.partner.value.fiscalPosition
    else None
  }

  /** The tax account: the fiscal position's mapping of no account if it gives one; otherwise
      by the account type — debt or charge: purchase, not fixed assets; income: sale, not
      fixed assets; asset: purchase, fixed assets; any other type: none. Comparing a missing
      account type fails on the null. */
  function TaxAccountFor(svc: Services, move: Move, taxLine: TaxLine, accountType: Option<TechnicalType>)
    : (r: Result<Option<Account>, Fault>)
    reads move
    ensures var fp := AutoTaxFiscalPosition(move);
            fp.Some? && svc.fiscalAccount(fp, None).Some? ==> r == Success(svc.fiscalAccount(fp, None))
    ensures var fp := AutoTaxFiscalPosition(move);
            (fp.None? || svc.fiscalAccount(fp, None).None?) && accountType.None? ==>
              r == Failure(Fault(NullDereference, AccountTypeMissing))
    ensures var fp := AutoTaxFiscalPosition(move);
            (fp.None? || svc.fiscalAccount(fp, None).None?) && accountType.Some? ==>
              r == Success(match accountType.value
                           case TypeDebt => svc.taxAccount(taxLine.tax, move.company, true, false)
                           case TypeCharge => svc.taxAccount(taxLine.tax, move.company, true, false)
                           case TypeIncome => svc.taxAccount(taxLine.tax, move.company, false, false)
                           case TypeAsset => svc.taxAccount(taxLine.tax, move.company, true, true)
                           case _ => None)
  {
    var fp := AutoTaxFiscalPosition(move);
    var mapped := if fp.Some? then svc.fiscalAccount(fp, None) else None;
    if mapped.Some? then Success(mapped)
    else match accountType
      case None => Failure(Fault(NullDereference, AccountTypeMissing))
      case Some(TypeDebt) | Some(TypeCharge) => Success(svc.taxAccount(taxLine.tax, move.company, true, false))
      case Some(TypeIncome) => Success(svc.taxAccount(taxLine.tax, move.company, false, false))
      case Some(TypeAsset) => Success(svc.taxAccount(taxLine.tax, move.company, true, true))
      case Some(_) => Success(None)
  }

  /** Why no tax account was found: a configuration error naming the fiscal position when
      there is one; reading the missing company's name fails first. */
  function MissingTaxAccount(move: Move, taxLine: TaxLine): (f: Fault)
    reads move
    ensures move.company.None? ==> f.category == NullDereference
    ensures move.company.Some? ==> f.category == ConfigurationError
    ensures move.company.Some? && AutoTaxFiscalPosition(move).None? ==>
              f.reason == TaxAccountMissing(taxLine.name, move.company.value.name)
    ensures move.company.Some? && AutoTaxFiscalPosition(move).Some? ==>
              f.reason == TaxAccountMissingForFiscalPosition(taxLine.name, AutoTaxFiscalPosition(move).value.name,
                                                             move.company.value.name)
  {
    match (move.company, AutoTaxFiscalPosition(move))
    case (None, _) => Fault(NullDereference, CompanyMissing(move.reference))
    case (Some(company), Some(fp)) =>
      Fault(ConfigurationError, TaxAccountMissingForFiscalPosition(taxLine.name, fp.name, company.name))
    case (Some(company), None) => Fault(ConfigurationError, TaxAccountMissing(taxLine.name, company.name))
  }

  /** The line the amounts are added to: the one built earlier in this pass, else the move's
      existing one, else `created`, a new accumulator. */
  function BaseLine<K>(existing: map<K, MoveLine>, generated: map<K, MoveLine>, key: K, created: MoveLine): MoveLine
  {
    if key in generated then generated[key]
    else if key in existing then existing[key]
    else created
  }

  /** What a call copies onto the accumulating line besides the amounts: the taxed line's VAT
      system and the move's origin, description and origin date. */
  datatype Stamp = Stamp(vatSystem: VatSystem, origin: string, description: string, originDate: Option<Date>)

  /** The accumulating line once a taxed line has been added to it: base × rate on each side,
      and the stamp. */
  function UpdatedTaxLine(base: MoveLine, line: MoveLine, rate: real, stamp: Stamp): MoveLine {
    base.(vatSystem := stamp.vatSystem, origin := stamp.origin, description := stamp.description,
          debit := base.debit + line.debit * rate,
          credit := base.credit + line.credit * rate,
          originDate := stamp.originDate)
  }

  /** The updated tax line and both maps after the call. */
  datatype AutoTaxOutcome<K(==)> = AutoTaxOutcome(line: MoveLine, existing: map<K, MoveLine>,
                                                  generated: map<K, MoveLine>)

  /** The maps hold one line object per key: a key present in both maps names the same line. */
  predicate SharedEntriesAgree<K>(existing: map<K, MoveLine>, generated: map<K, MoveLine>) {
    forall k | k in existing && k in generated :: existing[k] == generated[k]
  }

  /** Adding a taxed line to the accumulating line of `key`. The line is updated in place, so
      every map entry already holding it sees the update; a line not yet in the pass map enters
      it when non-zero. */
  function Accumulate<K>(existing: map<K, MoveLine>, generated: map<K, MoveLine>, key: K,
                         created: MoveLine, line: MoveLine, rate: real, stamp: Stamp): AutoTaxOutcome<K>
  {
    var updated := UpdatedTaxLine(BaseLine(existing, generated, key, created), line, rate, stamp);
    AutoTaxOutcome(updated,
                   if key in existing then existing[key := updated] else existing,
                   if key in generated || updated.debit != 0.0 || updated.credit != 0.0 then generated[key := updated]
                   else generated)
  }

  /** The accumulating line holds its base line's amounts plus the taxed line's amounts times
      the rate; every entry of its key in either map holds it afterwards; it is in the pass
      map exactly when it was already there or is non-zero. */
  lemma {:induction false} AccumulateAddsBaseTimesRate<K>(existing: map<K, MoveLine>, generated: map<K, MoveLine>,
                                    key: K, created: MoveLine, line: MoveLine, rate: real, stamp: Stamp)
    ensures var o := Accumulate(existing, generated, key, created, line, rate, stamp);
            var base := BaseLine(existing, generated, key, created);
            var nonZero := o.line.debit != 0.0 || o.line.credit != 0.0;
            o.line.debit == base.debit + line.debit * rate &&
            o.line.credit == base.credit + line.credit * rate &&
            (key in o.generated <==> nonZero || key in generated) &&
            (key in o.generated ==> o.generated[key] == o.line) &&
            (key in o.existing <==> key in existing) &&
            (key in existing ==> o.existing[key] == o.line)
  {
  }

  /** A call keeps a shared line the same in both maps. */
  lemma {:induction false} AccumulateKeepsEntriesShared<K>(existing: map<K, MoveLine>, generated: map<K, MoveLine>,
                                    key: K, created: MoveLine, line: MoveLine, rate: real, stamp: Stamp)
    ensures var o := Accumulate(existing, generated, key, created, line, rate, stamp);
            SharedEntriesAgree(existing, generated) ==> SharedEntriesAgree(o.existing, o.generated)
  {
    var o := Accumulate(existing, generated, key, created, line, rate, stamp);
    if SharedEntriesAgree(existing, generated) {
      forall k | k in o.existing && k in o.generated
        ensures o.existing[k] == o.generated[k]
      {
        if k != key {
          assert k in existing && k in generated;
        }
      }
    }
  }

  /** Two taxed lines fed to the same accumulating line: when the first leaves it non-zero,
      the second finds it among the generated lines, and after both it holds the starting
      amounts plus both lines' amounts times the rate. */
  lemma {:induction false} AutoTaxAccumulates<K>(existing: map<K, MoveLine>, generated: map<K, MoveLine>, key: K,
                           created1: MoveLine, created2: MoveLine, first: MoveLine, second: MoveLine, rate: real,
                           stamp1: Stamp, stamp2: Stamp)
    requires var o := Accumulate(existing, generated, key, created1, first, rate, stamp1);
             o.line.debit != 0.0 || o.line.credit != 0.0
    ensures var o1 := Accumulate(existing, generated, key, created1, first, rate, stamp1);
            var o2 := Accumulate(o1.existing, o1.generated, key, created2, second, rate, stamp2);
            var base := BaseLine(existing, generated, key, created1);
            o2.line.debit == base.debit + (first.debit + second.debit) * rate &&
            o2.line.credit == base.credit + (first.credit + second.credit) * rate
  {
    var o1 := Accumulate(existing, generated, key, created1, first, rate, stamp1);
    assert BaseLine(o1.existing, o1.generated, key, created2) == o1.line;
    assert (first.debit + second.debit) * rate == first.debit * rate + second.debit * rate;
    assert (first.credit + second.credit) * rate == first.credit * rate + second.credit * rate;
  }

  /** A call touches only the entries of its own key. */
  lemma {:induction false} AccumulateTouchesOnlyItsKey<K>(existing: map<K, MoveLine>, generated: map<K, MoveLine>,
                                    key: K, created: MoveLine, line: MoveLine, rate: real, stamp: Stamp,
                                    other: K)
    requires other != key
    ensures var o := Accumulate(existing, generated, key, created, line, rate, stamp);
            (other in o.generated <==> other in generated) &&
            (other in generated ==> o.generated[other] == generated[other]) &&
            (other in o.existing <==> other in existing) &&
            (other in existing ==> o.existing[other] == existing[other])
  {
  }

  /** With the key as written, the line of account "4456" and tax line 61 and the line of
      account "44566" and tax line 1 are one line: the second call starts from the first
      call's line and the pass ends with a single tax line holding both amounts. */
  lemma {:induction false} KeyAsWrittenMergesTaxLines(existing: map<string, MoveLine>, created1: MoveLine,
                                                      created2: MoveLine, first: MoveLine, second: MoveLine,
                                                      rate: real, stamp1: Stamp, stamp2: Stamp)
    requires SourceTaxLineKeyAsWritten("4456", 61) !in existing
    requires var o := Accumulate(existing, map[], SourceTaxLineKeyAsWritten("4456", 61), created1, first, rate, stamp1);
             o.line.debit != 0.0 || o.line.credit != 0.0
    ensures var o1 := Accumulate(existing, map[], SourceTaxLineKeyAsWritten("4456", 61), created1, first, rate,
                                 stamp1);
            var o2 := Accumulate(o1.existing, o1.generated, SourceTaxLineKeyAsWritten("44566", 1), created2, second,
                                 rate, stamp2);
            |o2.generated| == 1 &&
            o2.line.debit == created1.debit + (first.debit + second.debit) * rate &&
            o2.line.credit == created1.credit + (first.credit + second.credit) * rate
  {
    SourceTaxLineKeyCollides();
    AutoTaxAccumulates(existing, map[], SourceTaxLineKeyAsWritten("4456", 61), created1, created2, first, second,
                       rate, stamp1, stamp2);
  }

  /** With the pair key, the same two calls build two tax lines: the second starts from its
      own new line and leaves the first one as it was. */
  lemma {:induction false} PairKeysKeepTaxLinesApart(existing: map<TaxKey, MoveLine>, created1: MoveLine,
                                                     created2: MoveLine, first: MoveLine, second: MoveLine,
                                                     rate: real, stamp1: Stamp, stamp2: Stamp)
    requires TaxKey("4456", 61) !in existing && TaxKey("44566", 1) !in existing
    requires var o := Accumulate(existing, map[], TaxKey("4456", 61), created1, first, rate, stamp1);
             o.line.debit != 0.0 || o.line.credit != 0.0
    ensures var o1 := Accumulate(existing, map[], TaxKey("4456", 61), created1, first, rate, stamp1);
            var o2 := Accumulate(o1.existing, o1.generated, TaxKey("44566", 1), created2, second, rate, stamp2);
            o2.generated[TaxKey("4456", 61)] == o1.line &&
            o2.line.debit == created2.debit + second.debit * rate &&
            o2.line.credit == created2.credit + second.credit * rate &&
            (o2.line.debit != 0.0 || o2.line.credit != 0.0 ==> |o2.generated| == 2)
  {
    var o1 := Accumulate(existing, map[], TaxKey("4456", 61), created1, first, rate, stamp1);
    AccumulateTouchesOnlyItsKey(o1.existing, o1.generated, TaxKey("44566", 1), created2, second, rate, stamp2,
                                TaxKey("4456", 61));
    var o2 := Accumulate(o1.existing, o1.generated, TaxKey("44566", 1), created2, second, rate, stamp2);
    if o2.line.debit != 0.0 || o2.line.credit != 0.0 {
      assert o2.generated.Keys == {TaxKey("4456", 61), TaxKey("44566", 1)};
    }
  }

  /** The two maps the caller threads through a pass, keyed as written: the move's lines that
      already hold a tax (`map`) and the tax lines built or updated so far (`newMap`). */
  class TaxLineMaps {
    var existing: map<string, MoveLine>
    var generated: map<string, MoveLine>

    constructor(existing: map<string, MoveLine>, generated: map<string, MoveLine>)
      ensures this.existing == existing && this.generated == generated
    {
      this.existing := existing;
      this.generated := generated;
    }

    /** `createMoveLineForAutoTax`: finds the tax account (or fails), finds or creates the
        accumulating tax line under the key as written, adds the line's amounts times the rate,
        and records it in `generated` when it is non-zero. */
    method CreateMoveLineForAutoTax(svc: Services, move: Move, line: MoveLine, taxLine: TaxLine,
                                    accountType: Option<TechnicalType>) returns (r: Result<MoveLine, Fault>)
      modifies this
      ensures var found := TaxAccountFor(svc, move, taxLine, accountType);
              found.Failure? ==> r == Failure(found.error) && existing == old(existing) && generated == old(generated)
      ensures var found := TaxAccountFor(svc, move, taxLine, accountType);
              found == Success(None) ==>
                r == Failure(MissingTaxAccount(move, taxLine)) && existing == old(existing) &&
                generated == old(generated)
      ensures var found := TaxAccountFor(svc, move, taxLine, accountType);
              found.Success? && found.value.Some? ==>
                var account := found.value.value;
                var o := Accumulate(old(existing), old(generated), SourceTaxLineKeyAsWritten(account.code, taxLine.id),
                                    CreateTaxAccumulatorLine(svc, move, line.date, taxLine, account),
                                    line, taxLine.value,
                                    Stamp(svc.vatSystemOf(line), move.origin, move.description, move.originDate));
                r == Success(o.line) && existing == o.existing && generated == o.generated
      ensures SharedEntriesAgree(old(existing), old(generated)) ==> SharedEntriesAgree(existing, generated)
    {
      var found := TaxAccountFor(svc, move, taxLine, accountType);
      if found.Failure? {
        return Failure(found.error);
      }
      if found.value.None? {
        return Failure(MissingTaxAccount(move, taxLine));
      }
      var account := found.value.value;
      var key := SourceTaxLineKeyAsWritten(account.code, taxLine.id);
      var stamp := Stamp(svc.vatSystemOf(line), move.origin, move.description, move.originDate);
      var created := CreateTaxAccumulatorLine(svc, move, line.date, taxLine, account);
      AccumulateKeepsEntriesShared(existing, generated, key, created, line, taxLine.value, stamp);
      var target := FindTaxLine(svc, move, key, line.date, taxLine, account);
      target := UpdatedTaxLine(target, line, taxLine.value, stamp);
      Record(key, target);
      return Success(target);
    }

    /** Stores the updated line: every entry of its key already in a map holds it, and it
        enters the pass map when it is non-zero. */
    method Record(key: string, target: MoveLine)
      modifies this
      ensures existing == if key in old(existing) then old(existing)[key := target] else old(existing)
      ensures generated == if key in old(generated) || target.debit != 0.0 || target.credit != 0.0
                           then old(generated)[key := target] else old(generated)
    {
      if key in existing {
        existing := existing[key := target];
      }
      if key in generated || target.debit != 0.0 || target.credit != 0.0 {
        generated := generated[key := target];
      }
    }

    /** The lookup of the accumulating line: built earlier in this pass, else among the move's
        existing tax lines, else created. */
    method FindTaxLine(svc: Services, move: Move, key: string, date: Option<Date>, taxLine: TaxLine,
                       account: Account) returns (target: MoveLine)
      ensures target == BaseLine(existing, generated, key, CreateTaxAccumulatorLine(svc, move, date, taxLine, account))
    {
      if key !in existing && key !in generated {
        target := CreateTaxAccumulatorLine(svc, move, date, taxLine, account);
      } else if key in generated {
        target := generated[key];
      } else {
        target := existing[key];
      }
    }
  }
}

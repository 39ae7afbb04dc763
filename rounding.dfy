/** The rounding correction applied to the invoice-term lines so that their side-total
    matches the total of the product and tax lines. */
module Rounding {
  import opened Wrappers
  import opened Domain
  import opened Decimals

  /** The source's `isCredit`: every line has a positive credit. */
  predicate AllCredit(lines: seq<MoveLine>) {
    forall i | 0 <= i < |lines| :: lines[i].credit > 0.0
  }

  /** On lines that all have a positive credit, the side-total is the credit total. */
  lemma {:induction false} AllCreditSideTotal(lines: seq<MoveLine>)
    ensures AllCredit(lines) ==> SideTotal(lines) == SumCredit(lines)
    decreases |lines|
  {
    if lines != [] && AllCredit(lines) {
      AllCreditSideTotal(lines[..|lines| - 1]);
    }
  }

  /** The loop shared by the invoice generator and the rounding step: the side-total of the
      lines and whether all of them are credits. */
  method SideTotalAndDirection(lines: seq<MoveLine>) returns (total: real, isCredit: bool)
    ensures total == SideTotal(lines)
    ensures isCredit <==> AllCredit(lines)
  {
    total, isCredit := 0.0, true;
    for i := 0 to |lines|
      invariant total == SideTotal(lines[..i])
      invariant isCredit <==> AllCredit(lines[..i])
    {
      assert lines[..i + 1][..i] == lines[..i];
      if lines[i].credit > 0.0 {
        total := total + lines[i].credit;
      } else {
        isCredit := false;
        total := total + lines[i].debit;
      }
    }
    assert lines[..|lines|] == lines;
  }

  /** Only the amounts of line `k` may differ between `before` and `after`. */
  predicate OnlyAmountsOfLineChanged(before: seq<MoveLine>, after: seq<MoveLine>, k: Option<nat>) {
    |after| == |before| &&
    forall i | 0 <= i < |before| ::
      after[i] == before[i].(debit := after[i].debit, credit := after[i].credit) &&
      (k.None? || i != k.value ==> after[i] == before[i])
  }

  /** The rounding step as written: the difference is subtracted when positive and ADDED
      otherwise, so the merged line's amount always goes down by the size of the difference,
      on the credit when every line is a credit and on the debit otherwise; and the merged line
      is dereferenced even when there is none. When not every line is a credit but the merged
      line is one, its debit changes while its credit counts in the side-total, so the
      side-total does not move at all. */
  function RoundValueAsWritten(merged: Option<nat>, lines: seq<MoveLine>, totalToMatch: real)
    : (r: Result<seq<MoveLine>, Fault>)
    requires merged.Some? ==> merged.value < |lines|
    ensures merged.None? <==> r.Failure?
    ensures r.Failure? ==> r.error == Fault(NullDereference, RoundingLineMissing)
    ensures r.Success? ==> OnlyAmountsOfLineChanged(lines, r.value, merged)
    ensures r.Success? ==>
              (AllCredit(lines) ==> r.value[merged.value].debit == lines[merged.value].debit) &&
              (!AllCredit(lines) ==> r.value[merged.value].credit == lines[merged.value].credit)
    ensures r.Success? && AllCredit(lines) ==>
              var difference := SideTotal(lines) - totalToMatch;
              SumCredit(r.value) - totalToMatch == if difference > 0.0 then 0.0 else 2.0 * difference
    ensures r.Success? && !AllCredit(lines) && lines[merged.value].credit <= 0.0 ==>
              var difference := SideTotal(lines) - totalToMatch;
              SideTotal(r.value) - totalToMatch == if difference > 0.0 then 0.0 else 2.0 * difference
    ensures r.Success? ==>
              var k, distance := merged.value, Abs(SideTotal(lines) - totalToMatch);
              (AllCredit(lines) ==> r.value[k].credit == lines[k].credit - distance) &&
              (!AllCredit(lines) ==> r.value[k].debit == lines[k].debit - distance)
    ensures r.Success? && !AllCredit(lines) && lines[merged.value].credit > 0.0 ==>
              SideTotal(r.value) == SideTotal(lines)
  {
    match merged
    case None => Failure(Fault(NullDereference, RoundingLineMissing))
    case Some(k) =>
      var difference := SideTotal(lines) - totalToMatch;
      var line := lines[k];
      var adjusted :=
        if difference > 0.0 then
          (if AllCredit(lines) then line.(credit := line.credit - difference)
           else line.(debit := line.debit - difference))
        else
          (if AllCredit(lines) then line.(credit := line.credit + difference)
           else line.(debit := line.debit + difference));
      SumsUpdate(lines, k, adjusted);
      AllCreditSideTotal(lines);
      Success(lines[k := adjusted])
  }

  /** `updateMoveLineRoundValueIfNecessary` as written, computed with the source's loop. */
  method UpdateRoundValueIfNecessary(merged: Option<nat>, lines: seq<MoveLine>, totalToMatch: real)
    returns (r: Result<seq<MoveLine>, Fault>)
    requires merged.Some? ==> merged.value < |lines|
    ensures r == RoundValueAsWritten(merged, lines, totalToMatch)
  {
    var total, isCredit := SideTotalAndDirection(lines);
    var difference := total - totalToMatch;
    if merged.None? {
      return Failure(Fault(NullDereference, RoundingLineMissing));
    }
    var k := merged.value;
    var line := lines[k];
    if difference > 0.0 {
      if isCredit {
        line := line.(credit := line.credit - difference);
      } else {
        line := line.(debit := line.debit - difference);
      }
    } else {
      if isCredit {
        line := line.(credit := line.credit + difference);
      } else {
        line := line.(debit := line.debit + difference);
      }
    }
    r := Success(lines[k := line]);
  }

  /** The corrected rounding step: the merged line absorbs the whole difference, on the
      credit side when every line is a credit and on the debit side otherwise; without a
      merged line nothing changes. */
  function Reconciled(merged: Option<nat>, lines: seq<MoveLine>, totalToMatch: real): seq<MoveLine>
    requires merged.Some? ==> merged.value < |lines|
  {
    match merged
    case None => lines
    case Some(k) =>
      var difference := SideTotal(lines) - totalToMatch;
      var line := lines[k];
      var adjusted := if AllCredit(lines) then line.(credit := line.credit - difference)
                      else line.(debit := line.debit - difference);
      lines[k := adjusted]
  }

  /** Reconciling changes only the amounts of the merged line, leaves lines that already
      match untouched, and makes the credit total (all credits) or the side-total match. */
  lemma {:induction false} ReconciledMatchesTotal(merged: Option<nat>, lines: seq<MoveLine>, totalToMatch: real)
    requires merged.Some? ==> merged.value < |lines|
    ensures OnlyAmountsOfLineChanged(lines, Reconciled(merged, lines, totalToMatch), merged)
    ensures merged.None? || SideTotal(lines) == totalToMatch ==> Reconciled(merged, lines, totalToMatch) == lines
    ensures merged.Some? && AllCredit(lines) ==> SumCredit(Reconciled(merged, lines, totalToMatch)) == totalToMatch
    ensures merged.Some? && !AllCredit(lines) && lines[merged.value].credit <= 0.0 ==>
              SideTotal(Reconciled(merged, lines, totalToMatch)) == totalToMatch
  {
    if merged.Some? {
      if AllCredit(lines) {
        ReconciledCredits(merged.value, lines, totalToMatch);
      } else {
        ReconciledDebits(merged.value, lines, totalToMatch);
      }
    }
  }

  /** On all-credit lines the merged line's credit absorbs the difference. */
  lemma {:induction false} ReconciledCredits(k: nat, lines: seq<MoveLine>, totalToMatch: real)
    requires k < |lines| && AllCredit(lines)
    ensures var r := Reconciled(Some(k), lines, totalToMatch);
            OnlyAmountsOfLineChanged(lines, r, Some(k)) && SumCredit(r) == totalToMatch &&
            (SideTotal(lines) == totalToMatch ==> r == lines)
  {
    var line := lines[k];
    var difference := SideTotal(lines) - totalToMatch;
    var adjusted := line.(credit := line.credit - difference);
    assert Reconciled(Some(k), lines, totalToMatch) == lines[k := adjusted];
    SumsUpdate(lines, k, adjusted);
    AllCreditSideTotal(lines);
  }

  /** Otherwise the merged line's debit absorbs the difference, which matches the side-total
      when that line has no credit. */
  lemma {:induction false} ReconciledDebits(k: nat, lines: seq<MoveLine>, totalToMatch: real)
    requires k < |lines| && !AllCredit(lines)
    ensures var r := Reconciled(Some(k), lines, totalToMatch);
            OnlyAmountsOfLineChanged(lines, r, Some(k)) &&
            (lines[k].credit <= 0.0 ==> SideTotal(r) == totalToMatch) &&
            (SideTotal(lines) == totalToMatch ==> r == lines)
  {
    var line := lines[k];
    var difference := SideTotal(lines) - totalToMatch;
    var adjusted := line.(debit := line.debit - difference);
    assert Reconciled(Some(k), lines, totalToMatch) == lines[k := adjusted];
    SumsUpdate(lines, k, adjusted);
  }

  /** The corrected rounding step, computed with the source's loop. */
  method ReconcileRounding(merged: Option<nat>, lines: seq<MoveLine>, totalToMatch: real)
    returns (r: seq<MoveLine>)
    requires merged.Some? ==> merged.value < |lines|
    ensures r == Reconciled(merged, lines, totalToMatch)
  {
    r := lines;
    if merged.Some? {
      var total, isCredit := SideTotalAndDirection(lines);
      var difference := total - totalToMatch;
      var k := merged.value;
      if isCredit {
        r := r[k := r[k].(credit := r[k].credit - difference)];
      } else {
        r := r[k := r[k].(debit := r[k].debit - difference)];
      }
    }
  }

  /** A single credit line of 33.33 that should total 33.34 is moved to 33.32 as written,
      and to 33.34 once corrected. */
  lemma {:induction false} RoundingAsWrittenMovesAway()
    ensures var lines := [BlankLine.(credit := 33.33)];
            RoundValueAsWritten(Some(0), lines, 33.34) == Success([BlankLine.(credit := 33.32)]) &&
            Reconciled(Some(0), lines, 33.34) == [BlankLine.(credit := 33.34)]
  {
    var lines := [BlankLine.(credit := 33.33)];
    assert lines[..0] == [];
    assert AllCredit(lines);
    assert SideTotal(lines) == 33.33;
    assert lines[0 := BlankLine.(credit := 33.33 + (33.33 - 33.34))] == [BlankLine.(credit := 33.32)];
    assert lines[0 := BlankLine.(credit := 33.33 - (33.33 - 33.34))] == [BlankLine.(credit := 33.34)];
  }

  /** When every invoice term is a hold-back there is no merged line: as written the step
      fails even though the totals already match; corrected, it leaves the lines alone. */
  lemma {:induction false} RoundingAsWrittenFailsWithoutMergedLine(lines: seq<MoveLine>)
    requires SideTotal(lines) == 0.0
    ensures RoundValueAsWritten(None, lines, 0.0).Failure?
    ensures Reconciled(None, lines, 0.0) == lines
  {
  }
}

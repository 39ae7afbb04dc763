/** `validateWellBalancedMove`: no line may carry both a debit and a credit, and the debits
    must add up to the credits. */
module Balance {
  import opened Wrappers
  import opened Domain

  predicate TwoSided(line: MoveLine) {
    line.debit > 0.0 && line.credit > 0.0
  }

  /** The index of the first line with both a debit and a credit, if any. */
  function FirstTwoSided(lines: seq<MoveLine>): (k: Option<nat>)
    ensures k.None? <==> forall i | 0 <= i < |lines| :: !TwoSided(lines[i])
    ensures k.Some? ==> k.value < |lines| && TwoSided(lines[k.value]) &&
                        forall i | 0 <= i < k.value :: !TwoSided(lines[i])
    decreases |lines|
  {
    if lines == [] then None
    else
      var before := FirstTwoSided(lines[..|lines| - 1]);
      if before.Some? then before
      else if TwoSided(lines[|lines| - 1]) then Some(|lines| - 1)
      else None
  }

  /** A balanced move: one side per line and equal totals. */
  predicate Balanced(lines: seq<MoveLine>) {
    (forall i | 0 <= i < |lines| :: !TwoSided(lines[i])) && SumDebit(lines) == SumCredit(lines)
  }

  /** The outcome of the balance check: the first two-sided line is reported by name;
      otherwise unequal totals are reported with both totals. */
  function BalanceOutcome(lines: seq<MoveLine>, reference: string): (r: Outcome<Fault>)
    ensures r.Pass? <==> Balanced(lines)
    ensures r.Fail? ==> r.error.category == Inconsistency
  {
    match FirstTwoSided(lines)
    case Some(k) => Fail(Fault(Inconsistency, LineWithDebitAndCredit(lines[k].name)))
    case None =>
      if SumDebit(lines) != SumCredit(lines) then
        Fail(Fault(Inconsistency, MoveUnbalanced(reference, SumDebit(lines), SumCredit(lines))))
      else Pass
  }

  /** The check reports the first two-sided line by name when there is one, and otherwise
      unequal totals with both totals. */
  lemma {:induction false} BalanceOutcomeReportsFirstFault(lines: seq<MoveLine>, reference: string)
    ensures (exists i | 0 <= i < |lines| :: TwoSided(lines[i])) ==>
              exists k | 0 <= k < |lines| ::
                TwoSided(lines[k]) && (forall i | 0 <= i < k :: !TwoSided(lines[i])) &&
                BalanceOutcome(lines, reference) == Fail(Fault(Inconsistency, LineWithDebitAndCredit(lines[k].name)))
    ensures (forall i | 0 <= i < |lines| :: !TwoSided(lines[i])) && SumDebit(lines) != SumCredit(lines) ==>
              BalanceOutcome(lines, reference) ==
              Fail(Fault(Inconsistency, MoveUnbalanced(reference, SumDebit(lines), SumCredit(lines))))
  {
    if FirstTwoSided(lines).Some? {
      var k := FirstTwoSided(lines).value;
      assert TwoSided(lines[k]) && forall i | 0 <= i < k :: !TwoSided(lines[i]);
    }
  }

  /** The source's loop: stops at the first two-sided line, else compares the totals it
      accumulated. */
  method ValidateWellBalancedMove(move: Move) returns (r: Outcome<Fault>)
    ensures r == BalanceOutcome(move.lines, move.reference)
  {
    var lines := move.lines;
    var totalDebit, totalCredit := 0.0, 0.0;
    for i := 0 to |lines|
      invariant FirstTwoSided(lines[..i]).None?
      invariant totalDebit == SumDebit(lines[..i]) && totalCredit == SumCredit(lines[..i])
    {
      assert lines[..i + 1][..i] == lines[..i];
      if lines[i].debit > 0.0 && lines[i].credit > 0.0 {
        FirstTwoSidedOfPrefix(lines, i + 1);
        return Fail(Fault(Inconsistency, LineWithDebitAndCredit(lines[i].name)));
      }
      totalDebit := totalDebit + lines[i].debit;
      totalCredit := totalCredit + lines[i].credit;
    }
    assert lines[..|lines|] == lines;
    if totalDebit != totalCredit {
      return Fail(Fault(Inconsistency, MoveUnbalanced(move.reference, totalDebit, totalCredit)));
    }
    return Pass;
  }

  /** A two-sided line found in a prefix is the first one of the whole sequence too. */
  lemma {:induction false} FirstTwoSidedOfPrefix(lines: seq<MoveLine>, n: nat)
    requires n <= |lines| && FirstTwoSided(lines[..n]).Some?
    ensures FirstTwoSided(lines) == FirstTwoSided(lines[..n])
  {
    var k := FirstTwoSided(lines[..n]).value;
    assert lines[..n][k] == lines[k];
    assert forall i | 0 <= i < k :: lines[..n][i] == lines[i];
    FirstTwoSidedUnique(lines, k);
  }

  lemma {:induction false} FirstTwoSidedUnique(lines: seq<MoveLine>, k: nat)
    requires k < |lines| && TwoSided(lines[k]) && forall i | 0 <= i < k :: !TwoSided(lines[i])
    ensures FirstTwoSided(lines) == Some(k)
  {
  }

  /** Lines built one-sided, with equal totals, pass. */
  lemma {:induction false} OneSidedEqualTotalsBalance(lines: seq<MoveLine>, reference: string)
    requires forall i | 0 <= i < |lines| :: WellSided(lines[i])
    requires SumDebit(lines) == SumCredit(lines)
    ensures BalanceOutcome(lines, reference) == Pass
  {
  }
}

/** Posting a move (MoveValidateServiceImpl): completing and freezing its lines, the
    validation status rule, fixed-asset generation, posting one move and posting a batch. */
module Posting {
  import opened Wrappers
  import opened Domain
  import opened Text
  import opened Preconditions

  // ---- completeMoveLines ----

  /** The date a missing line date is filled with. */
  function FilledDate(line: MoveLine, date: Option<Date>): Option<Date> {
    if line.date.None? then date else line.date
  }

  /** Due dates are filled from the move date only on partner-balance accounts. */
  function FilledDueDate(line: MoveLine, date: Option<Date>): Option<Date> {
    if line.account.Some? && line.account.value.useForPartnerBalance && line.dueDate.None? then date
    else line.dueDate
  }

  /** A missing origin date comes from the move's origin date, else from the move date. */
  function FilledOriginDate(line: MoveLine, date: Option<Date>, originDate: Option<Date>): Option<Date> {
    if line.originDate.Some? then line.originDate
    else if originDate.Some? then originDate
    else date
  }

  /** One line completed as the `counter`-th line of its move. */
  function CompletedLine(line: MoveLine, date: Option<Date>, originDate: Option<Date>,
                         partner: Option<Partner>, counter: int): MoveLine
  {
    line.(date := FilledDate(line, date), dueDate := FilledDueDate(line, date),
          originDate := FilledOriginDate(line, date, originDate),
          partner := if partner.Some? then partner else line.partner,
          counter := counter)
  }

  /** The lines of a move dated `date`, with origin date `originDate` and partner `partner`,
      as `completeMoveLines` leaves them. */
  function CompletedLines(lines: seq<MoveLine>, date: Option<Date>, originDate: Option<Date>,
                          partner: Option<Partner>): (r: seq<MoveLine>)
    ensures |r| == |lines|
    decreases |lines|
  {
    if lines == [] then []
    else
      CompletedLines(lines[..|lines| - 1], date, originDate, partner) +
      [CompletedLine(lines[|lines| - 1], date, originDate, partner, |lines|)]
  }

  /** After completion the lines are numbered from 1 in list order, missing dates are filled
      in (due dates only on partner-balance accounts), every partner is replaced by the
      move's when it has one, and nothing else on a line changes. */
  lemma {:induction false} CompletionFillsLines(lines: seq<MoveLine>, date: Option<Date>, originDate: Option<Date>,
                                                partner: Option<Partner>)
    ensures var r := CompletedLines(lines, date, originDate, partner);
            (forall i | 0 <= i < |r| :: r[i].counter == i + 1) &&
            (forall i | 0 <= i < |r| ::
               r[i].date == FilledDate(lines[i], date) &&
               r[i].dueDate == FilledDueDate(lines[i], date) &&
               r[i].originDate == FilledOriginDate(lines[i], date, originDate)) &&
            (forall i | 0 <= i < |r| :: r[i].partner == if partner.Some? then partner else lines[i].partner) &&
            (forall i | 0 <= i < |r| ::
               r[i].(date := lines[i].date, dueDate := lines[i].dueDate, originDate := lines[i].originDate,
                     partner := lines[i].partner, counter := lines[i].counter) == lines[i])
  {
    forall i | 0 <= i < |lines| {
      CompletedLineAt(lines, date, originDate, partner, i);
    }
  }

  /** The i-th completed line is the i-th line completed with counter i + 1. */
  lemma {:induction false} CompletedLineAt(lines: seq<MoveLine>, date: Option<Date>, originDate: Option<Date>,
                                           partner: Option<Partner>, i: nat)
    requires i < |lines|
    ensures CompletedLines(lines, date, originDate, partner)[i] ==
            CompletedLine(lines[i], date, originDate, partner, i + 1)
    decreases |lines|
  {
    if i < |lines| - 1 {
      var init := lines[..|lines| - 1];
      CompletedLineAt(init, date, originDate, partner, i);
      assert init[i] == lines[i];
    }
  }

  /** Completion keeps every line's account, so a move whose lines all have one still does. */
  lemma {:induction false} CompletionKeepsAccounts(lines: seq<MoveLine>, date: Option<Date>, originDate: Option<Date>,
                                partner: Option<Partner>)
    requires AllHaveAccounts(lines)
    ensures AllHaveAccounts(CompletedLines(lines, date, originDate, partner))
  {
    forall i | 0 <= i < |lines| {
      CompletedLineAt(lines, date, originDate, partner, i);
    }
  }

  lemma {:induction false} CompletedLinesStep(lines: seq<MoveLine>, i: nat, date: Option<Date>, originDate: Option<Date>,
                           partner: Option<Partner>)
    requires i < |lines|
    ensures CompletedLines(lines[..i + 1], date, originDate, partner) ==
            CompletedLines(lines[..i], date, originDate, partner) +
            [CompletedLine(lines[i], date, originDate, partner, i + 1)]
  {
    assert lines[..i + 1][..i] == lines[..i];
  }

  /** Completing lines that were already completed changes nothing. */
  lemma {:induction false} CompletionIsIdempotent(lines: seq<MoveLine>, date: Option<Date>, originDate: Option<Date>,
                               partner: Option<Partner>)
    ensures CompletedLines(CompletedLines(lines, date, originDate, partner), date, originDate, partner) ==
            CompletedLines(lines, date, originDate, partner)
  {
    var once := CompletedLines(lines, date, originDate, partner);
    var twice := CompletedLines(once, date, originDate, partner);
    CompletionFillsLines(lines, date, originDate, partner);
    CompletionFillsLines(once, date, originDate, partner);
    forall i | 0 <= i < |lines|
      ensures twice[i] == once[i]
    {
      assert once[i].account == lines[i].account;
    }
  }

  /** Completion touches neither debits nor credits, so totals and balance are kept. */
  lemma {:induction false} CompletionKeepsTotals(lines: seq<MoveLine>, date: Option<Date>,
                                                 originDate: Option<Date>, partner: Option<Partner>)
    ensures SumDebit(CompletedLines(lines, date, originDate, partner)) == SumDebit(lines)
    ensures SumCredit(CompletedLines(lines, date, originDate, partner)) == SumCredit(lines)
    decreases |lines|
  {
    if lines != [] {
      var init := lines[..|lines| - 1];
      var done := CompletedLines(lines, date, originDate, partner);
      CompletionKeepsTotals(init, date, originDate, partner);
      assert done[..|done| - 1] == CompletedLines(init, date, originDate, partner);
      assert done[|done| - 1].debit == lines[|lines| - 1].debit;
    }
  }

  /** `completeMoveLines`: updates every line of the move in list order, with a running
      counter. */
  method CompleteMoveLines(move: Move)
    modifies move`lines
    ensures move.lines == CompletedLines(old(move.lines), move.date, move.originDate, move.partner)
  {
    var date, originDate, partner := move.date, move.originDate, move.partner;
    ghost var lines0 := move.lines;
    var counter := 1;
    var i := 0;
    while i < |move.lines|
      invariant |move.lines| == |lines0|
      invariant 0 <= i <= |lines0| && counter == i + 1
      invariant move.lines == CompletedLines(lines0[..i], date, originDate, partner) + lines0[i..]
    {
      var line := move.lines[i];
      line := line.(date := FilledDate(line, date), dueDate := FilledDueDate(line, date),
                    originDate := FilledOriginDate(line, date, originDate));
      if partner.Some? {
        line := line.(partner := partner);
      }
      line := line.(counter := counter);
      CompletedStep(move.lines, lines0, i, line, date, originDate, partner);
      move.lines := move.lines[i := line];
      counter := counter + 1;
      i := i + 1;
    }
    assert lines0[..i] == lines0;
  }

  /** One turn of the completion loop: the i-th line, once completed, extends the completed
      prefix. */
  lemma {:induction false} CompletedStep(current: seq<MoveLine>, lines0: seq<MoveLine>, i: nat, line: MoveLine,
                      date: Option<Date>, originDate: Option<Date>, partner: Option<Partner>)
    requires i < |lines0| && current == CompletedLines(lines0[..i], date, originDate, partner) + lines0[i..]
    requires line == CompletedLine(lines0[i], date, originDate, partner, i + 1)
    ensures current[i := line] == CompletedLines(lines0[..i + 1], date, originDate, partner) + lines0[i + 1..]
  {
    CompletedLinesStep(lines0, i, date, originDate, partner);
  }

  // ---- freezeAccountAndPartnerFieldsOnMoveLines ----

  predicate AllHaveAccounts(lines: seq<MoveLine>) {
    forall i | 0 <= i < |lines| :: lines[i].account.Some?
  }

  /** One line with the snapshot of its account, its partner (when set) and its tax line
      (when set) copied onto it. */
  function FrozenLine(line: MoveLine): MoveLine
    requires line.account.Some?
  {
    var account := line.account.value;
    var line := line.(frozenAccountId := Some(account.id), frozenAccountCode := account.code,
                      frozenAccountName := account.name);
    var line := if line.partner.None? then line
                else line.(frozenPartnerId := Some(line.partner.value.id),
                           frozenPartnerFullName := line.partner.value.fullName,
                           frozenPartnerSeq := line.partner.value.partnerSeq);
    if line.taxLine.None? then line
    else line.(taxRate := line.taxLine.value.value, taxCode := line.taxLine.value.tax.code)
  }

  /** The lines with their snapshots taken. */
  function FrozenLines(lines: seq<MoveLine>): (r: seq<MoveLine>)
    requires AllHaveAccounts(lines)
    ensures |r| == |lines|
  {
    seq(|lines|, i requires 0 <= i < |lines| && AllHaveAccounts(lines) => FrozenLine(lines[i]))
  }

  /** After freezing, the frozen account fields agree with each line's account, the frozen
      partner fields with its partner where there is one, and the tax rate and tax code with
      its tax line where there is one, while amounts, counters, accounts and partners are
      untouched. */
  lemma {:induction false} FreezingSnapshotsAccountAndPartner(lines: seq<MoveLine>)
    requires AllHaveAccounts(lines)
    ensures var r := FrozenLines(lines);
            (forall i | 0 <= i < |r| ::
               var account := lines[i].account.value;
               r[i].frozenAccountId == Some(account.id) && r[i].frozenAccountCode == account.code &&
               r[i].frozenAccountName == account.name) &&
            (forall i | 0 <= i < |r| && lines[i].partner.Some? ::
               r[i].frozenPartnerId == Some(lines[i].partner.value.id) &&
               r[i].frozenPartnerFullName == lines[i].partner.value.fullName &&
               r[i].frozenPartnerSeq == lines[i].partner.value.partnerSeq) &&
            (forall i | 0 <= i < |r| && lines[i].taxLine.Some? ::
               r[i].taxRate == lines[i].taxLine.value.value && r[i].taxCode == lines[i].taxLine.value.tax.code) &&
            (forall i | 0 <= i < |r| && lines[i].taxLine.None? ::
               r[i].taxRate == lines[i].taxRate && r[i].taxCode == lines[i].taxCode) &&
            (forall i | 0 <= i < |r| ::
               r[i].account == lines[i].account && r[i].partner == lines[i].partner &&
               r[i].debit == lines[i].debit && r[i].credit == lines[i].credit && r[i].counter == lines[i].counter)
  {
  }

  /** Freezing lines that were already frozen changes nothing: the snapshot depends only on
      fields freezing does not write. */
  lemma {:induction false} FreezingIsIdempotent(lines: seq<MoveLine>)
    requires AllHaveAccounts(lines)
    ensures AllHaveAccounts(FrozenLines(lines))
    ensures FrozenLines(FrozenLines(lines)) == FrozenLines(lines)
  {
    var once := FrozenLines(lines);
    forall i | 0 <= i < |lines|
      ensures FrozenLine(once[i]) == once[i]
    {
      assert once[i] == FrozenLine(lines[i]);
    }
  }

  /** `freezeAccountAndPartnerFieldsOnMoveLines`: freezes the lines one by one; a line
      without an account stops it with a null dereference, leaving the lines before it frozen
      and the rest as they were. */
  method FreezeAccountAndPartnerFields(move: Move) returns (r: Outcome<Fault>)
    modifies move`lines
    ensures r.Pass? <==> AllHaveAccounts(old(move.lines))
    ensures r.Pass? ==> move.lines == FrozenLines(old(move.lines))
    ensures r.Fail? ==>
              exists k | 0 <= k < |old(move.lines)| ::
                old(move.lines)[k].account.None? && AllHaveAccounts(old(move.lines)[..k]) &&
                r.error == Fault(NullDereference, LineAccountMissing(old(move.lines)[k].name)) &&
                move.lines == FrozenLines(old(move.lines)[..k]) + old(move.lines)[k..]
  {
    ghost var lines0 := move.lines;
    var i := 0;
    while i < |move.lines|
      invariant |move.lines| == |lines0|
      invariant 0 <= i <= |lines0| && AllHaveAccounts(lines0[..i])
      invariant move.lines == FrozenLines(lines0[..i]) + lines0[i..]
    {
      var line := move.lines[i];
      assert line == lines0[i];
      if line.account.None? {
        return Fail(Fault(NullDereference, LineAccountMissing(line.name)));
      }
      FrozenStep(move.lines, lines0, i);
      move.lines := move.lines[i := FrozenLine(line)];
      i := i + 1;
    }
    assert lines0[..i] == lines0;
    return Pass;
  }

  /** One turn of the freezing loop: the i-th line, once frozen, extends the frozen prefix. */
  lemma {:induction false} FrozenStep(current: seq<MoveLine>, lines0: seq<MoveLine>, i: nat)
    requires i < |lines0| && lines0[i].account.Some? && AllHaveAccounts(lines0[..i])
    requires current == FrozenLines(lines0[..i]) + lines0[i..]
    ensures AllHaveAccounts(lines0[..i + 1])
    ensures current[i := FrozenLine(lines0[i])] == FrozenLines(lines0[..i + 1]) + lines0[i + 1..]
  {
    assert forall j | 0 <= j < i + 1 :: lines0[..i + 1][j] == lines0[j];
    assert forall j | 0 <= j < i :: lines0[..i][j] == lines0[j];
  }

  // ---- updateValidateStatus and generateFixedAssetMoveLine ----

  /** The status a validated move takes: ACCOUNTED when it is already in the daybook, when
      daybook mode is off, or when it is an automatic opening or closure move still new or
      simulated; otherwise DAYBOOK. Reading a missing functional origin is a null dereference,
      reached only on the last of these tests. */
  function StatusAfterValidation(status: MoveStatus, daybook: bool, technicalOrigin: TechnicalOrigin,
                                 functionalOrigin: Option<nat>, reference: string): (r: Result<MoveStatus, Fault>)
    ensures r.Failure? <==>
              status != StatusDaybook && daybook && (status == StatusNew || status == StatusSimulated) &&
              technicalOrigin == OriginAutomatic && functionalOrigin.None?
    ensures r.Failure? ==> r.error == Fault(NullDereference, FunctionalOriginMissing(reference))
    ensures r.Success? ==> r.value == StatusAccounted || r.value == StatusDaybook
    ensures r.Success? ==>
              (r.value == StatusAccounted <==>
                 status == StatusDaybook || !daybook ||
                 ((status == StatusNew || status == StatusSimulated) && technicalOrigin == OriginAutomatic &&
                  IsOpeningOrClosure(functionalOrigin.value)))
  {
    if status == StatusDaybook || !daybook then Success(StatusAccounted)
    else if (status == StatusNew || status == StatusSimulated) && technicalOrigin == OriginAutomatic then
      match functionalOrigin
      case None => Failure(Fault(NullDereference, FunctionalOriginMissing(reference)))
      case Some(origin) => Success(if IsOpeningOrClosure(origin) then StatusAccounted else StatusDaybook)
    else Success(StatusDaybook)
  }

  /** A move validated outside daybook mode is accounted at once; in daybook mode an
      ordinary new move goes to the daybook first and is accounted on its next validation. */
  lemma {:induction false} DaybookThenAccounted(technicalOrigin: TechnicalOrigin, functionalOrigin: nat, reference: string)
    ensures StatusAfterValidation(StatusNew, false, technicalOrigin, Some(functionalOrigin), reference) ==
            Success(StatusAccounted)
    ensures !IsOpeningOrClosure(functionalOrigin) ==>
              StatusAfterValidation(StatusNew, true, technicalOrigin, Some(functionalOrigin), reference) ==
              Success(StatusDaybook)
    ensures StatusAfterValidation(StatusDaybook, true, technicalOrigin, Some(functionalOrigin), reference) ==
            Success(StatusAccounted)
  {
  }

  /** A line the fixed-asset generator is called for: it has a fixed-asset category and its
      account's type is immobilisation. */
  predicate IsFixedAssetLine(line: MoveLine) {
    line.fixedAssetCategory.Some? && line.account.Some? &&
    line.account.value.accountType == Some(TypeImmobilisation)
  }

  /** A line with a fixed-asset category whose account or account type is missing: reading
      the account type there is a null dereference. */
  predicate FixedAssetTypeUnreadable(line: MoveLine) {
    line.fixedAssetCategory.Some? && (line.account.None? || line.account.value.accountType.None?)
  }

  /** The fault raised on such a line. */
  function FixedAssetFault(line: MoveLine): Fault {
    if line.account.None? then Fault(NullDereference, LineAccountMissing(line.name))
    else Fault(NullDereference, FixedAssetAccountTypeMissing(line.name))
  }

  /** `generateFixedAssetMoveLine`: the indices of the lines, in order, that the fixed-asset
      generator is called for, or the null dereference on the first line whose account type
      cannot be read. */
  function FixedAssetLines(lines: seq<MoveLine>): Result<seq<nat>, Fault>
    decreases |lines|
  {
    if lines == [] then Success([])
    else
      var before := FixedAssetLines(lines[..|lines| - 1]);
      var line := lines[|lines| - 1];
      if before.Failure? then before
      else if FixedAssetTypeUnreadable(line) then Failure(FixedAssetFault(line))
      else if IsFixedAssetLine(line) then Success(before.value + [|lines| - 1])
      else before
  }

  /** The generator succeeds exactly when no fixed-asset line has an unreadable account type;
      it is then called for exactly the fixed-asset lines, in increasing line order, and
      otherwise fails on the first unreadable line. */
  lemma {:induction false} FixedAssetLinesAreTheImmobilisations(lines: seq<MoveLine>)
    ensures var r := FixedAssetLines(lines);
            (r.Success? <==> forall i | 0 <= i < |lines| :: !FixedAssetTypeUnreadable(lines[i])) &&
            (r.Success? ==>
               (forall k: nat :: k in r.value <==> k < |lines| && IsFixedAssetLine(lines[k])) &&
               (forall a, b | 0 <= a < b < |r.value| :: r.value[a] < r.value[b])) &&
            (r.Failure? ==>
               exists k | 0 <= k < |lines| ::
                 FixedAssetTypeUnreadable(lines[k]) && r.error == FixedAssetFault(lines[k]) &&
                 forall j | 0 <= j < k :: !FixedAssetTypeUnreadable(lines[j]))
    decreases |lines|
  {
    if lines != [] {
      var init := lines[..|lines| - 1];
      FixedAssetLinesAreTheImmobilisations(init);
      assert forall i | 0 <= i < |init| :: init[i] == lines[i];
      var before := FixedAssetLines(init);
      if before.Success? {
        assert forall a | 0 <= a < |before.value| :: before.value[a] in before.value;
      }
    }
  }

  /** The generator only ever fails with a null dereference. */
  lemma {:induction false} FixedAssetFailureIsNullDereference(lines: seq<MoveLine>)
    ensures FixedAssetLines(lines).Failure? ==> FixedAssetLines(lines).error.category == NullDereference
    decreases |lines|
  {
    if lines != [] {
      FixedAssetFailureIsNullDereference(lines[..|lines| - 1]);
    }
  }

  /** Once a prefix of the lines fails, the whole list fails the same way. */
  lemma {:induction false} FixedAssetFailurePersists(lines: seq<MoveLine>, n: nat)
    requires n <= |lines| && FixedAssetLines(lines[..n]).Failure?
    ensures FixedAssetLines(lines) == FixedAssetLines(lines[..n])
    decreases |lines| - n
  {
    if n < |lines| {
      assert lines[..n + 1][..n] == lines[..n];
      FixedAssetFailurePersists(lines, n + 1);
    } else {
      assert lines[..n] == lines;
    }
  }

  /** The loop of `generateFixedAssetMoveLine`, returning the lines handed to the generator. */
  method GenerateFixedAssetMoveLine(lines: seq<MoveLine>) returns (r: Result<seq<nat>, Fault>)
    ensures r == FixedAssetLines(lines)
  {
    var generated: seq<nat> := [];
    var i := 0;
    while i < |lines|
      invariant 0 <= i <= |lines|
      invariant FixedAssetLines(lines[..i]) == Success(generated)
    {
      var line := lines[i];
      assert lines[..i + 1][..i] == lines[..i];
      if FixedAssetTypeUnreadable(line) {
        FixedAssetFailurePersists(lines, i + 1);
        return Failure(FixedAssetFault(line));
      }
      if line.fixedAssetCategory.Some? && line.account.value.accountType.value == TypeImmobilisation {
        generated := generated + [i];
      }
      i := i + 1;
    }
    assert lines[..i] == lines;
    return Success(generated);
  }

  /** `updateValidateStatus`: sets the status; an accounted move gets today's accounting date
      and its fixed assets generated. Returns the lines handed to the fixed-asset generator. */
  method UpdateValidateStatus(move: Move, daybook: bool, today: Date) returns (r: Outcome<Fault>, assets: seq<nat>)
    modifies move`status, move`accountingDate
    ensures var next := StatusAfterValidation(old(move.status), daybook, move.technicalOrigin,
                                              move.functionalOrigin, move.reference);
            if next.Failure? then r == Fail(next.error) && move.status == old(move.status) &&
                                  move.accountingDate == old(move.accountingDate) && assets == []
            else move.status == next.value &&
                 (next.value == StatusAccounted ==>
                    move.accountingDate == Some(today) &&
                    (FixedAssetLines(move.lines).Success? ==> r == Pass && assets == FixedAssetLines(move.lines).value) &&
                    (FixedAssetLines(move.lines).Failure? ==> r == Fail(FixedAssetLines(move.lines).error) && assets == [])) &&
                 (next.value == StatusDaybook ==> r == Pass && assets == [] && move.accountingDate == old(move.accountingDate))
  {
    var next := StatusAfterValidation(move.status, daybook, move.technicalOrigin, move.functionalOrigin, move.reference);
    if next.Failure? {
      return Fail(next.error), [];
    }
    if next.value == StatusAccounted {
      move.status := StatusAccounted;
      move.accountingDate := Some(today);
      var generated := GenerateFixedAssetMoveLine(move.lines);
      if generated.Failure? {
        return Fail(generated.error), [];
      }
      return Pass, generated.value;
    }
    move.status := StatusDaybook;
    return Pass, [];
  }

  // ---- accounting ----

  /** Whether the move is posted in daybook mode: the company's configuration and the journal
      both allow it. */
  predicate DaybookMode(journal: Journal, ctx: PostingContext) {
    ctx.accountingDaybook && journal.allowAccountingDaybook
  }

  /** The error raised on a closed period: the daybook message for a new or simulated move in
      daybook mode, the accounting message otherwise. */
  function ClosedPeriodFault(daybookMode: bool, status: MoveStatus): (f: Fault)
    ensures f.category == ConfigurationError
    ensures f.reason == DaybookFiscalPeriodClosed <==>
              daybookMode && (status == StatusNew || status == StatusSimulated)
    ensures f.reason == DaybookFiscalPeriodClosed || f.reason == AccountingFiscalPeriodClosed
  {
    if daybookMode && (status == StatusNew || status == StatusSimulated) then
      Fault(ConfigurationError, DaybookFiscalPeriodClosed)
    else Fault(ConfigurationError, AccountingFiscalPeriodClosed)
  }

  /** Whether posting is refused because the period is closed and the move is not an automatic
      year-closure move. */
  predicate PeriodRefuses(period: Period, autoYearClosureMove: bool) {
    period.status == PeriodClosed && !autoYearClosureMove
  }

  /** Whether the last steps of `accounting` go through: every completed line has an account,
      the status rule gives a status, and for an accounted move the fixed-asset generator can
      read the account types of the frozen lines. */
  predicate ValidationSucceeds(lines: seq<MoveLine>, date: Option<Date>, originDate: Option<Date>,
                               partner: Option<Partner>, status: MoveStatus, daybook: bool,
                               technicalOrigin: TechnicalOrigin, functionalOrigin: Option<nat>, reference: string)
  {
    var completed := CompletedLines(lines, date, originDate, partner);
    var next := StatusAfterValidation(status, daybook, technicalOrigin, functionalOrigin, reference);
    AllHaveAccounts(completed) && next.Success? &&
    (next.value == StatusAccounted ==> FixedAssetLines(FrozenLines(completed)).Success?)
  }

  /** The last steps of `accounting`, once the move is known to be postable: complete and
      freeze the lines, then set the status. */
  method CompleteAndValidate(move: Move, daybook: bool, today: Date) returns (r: Outcome<Fault>, assets: seq<nat>)
    modifies move`lines, move`status, move`accountingDate
    ensures r.Pass? ==>
              var completed := CompletedLines(old(move.lines), move.date, move.originDate, move.partner);
              AllHaveAccounts(completed) && move.lines == FrozenLines(completed) &&
              StatusAfterValidation(old(move.status), daybook, move.technicalOrigin, move.functionalOrigin,
                                    move.reference) == Success(move.status) &&
              (move.status == StatusAccounted ==>
                 move.accountingDate == Some(today) && FixedAssetLines(move.lines) == Success(assets)) &&
              (move.status != StatusAccounted ==> move.accountingDate == old(move.accountingDate))
    ensures r.Fail? ==> r.error.category == NullDereference
    ensures r.Pass? <==> ValidationSucceeds(old(move.lines), move.date, move.originDate, move.partner, old(move.status),
                                           daybook, move.technicalOrigin, move.functionalOrigin, move.reference)
  {
    CompleteMoveLines(move);
    var frozen := FreezeAccountAndPartnerFields(move);
    if frozen.Fail? {
      return frozen, [];
    }
    FixedAssetFailureIsNullDereference(move.lines);
    r, assets := UpdateValidateStatus(move, daybook, today);
  }

  /** Why `accounting` refuses a move before changing it, if it does: the first failed
      precondition, else a closed period (unless the move is an automatic year closure). */
  function PostingRefusal(move: MoveSnapshot, autoYearClosureMove: bool, status: MoveStatus,
                          ctx: PostingContext): Option<Fault>
  {
    var check := CheckPreconditions(move, ctx);
    if check.Fail? then Some(check.error)
    else if PeriodRefuses(move.period.value, autoYearClosureMove) then
      Some(ClosedPeriodFault(DaybookMode(move.journal.value, ctx), status))
    else None
  }

  /** A move is refused with its first failed precondition; a move meeting them all is refused
      exactly when its period is closed and it is not an automatic year closure, with the
      closed-period error. */
  lemma {:induction false} PostingRefusalIsPreconditionsThenPeriod(move: MoveSnapshot, autoYearClosureMove: bool, status: MoveStatus,
                                                ctx: PostingContext)
    ensures var r := PostingRefusal(move, autoYearClosureMove, status, ctx);
            (CheckPreconditions(move, ctx).Fail? ==> r == Some(CheckPreconditions(move, ctx).error)) &&
            (r.None? <==>
               CheckPreconditions(move, ctx).Pass? && !PeriodRefuses(move.period.value, autoYearClosureMove)) &&
            (r.None? ==> move.journal.Some? && move.period.Some?) &&
            (CheckPreconditions(move, ctx).Pass? && PeriodRefuses(move.period.value, autoYearClosureMove) ==>
               r == Some(ClosedPeriodFault(DaybookMode(move.journal.value, ctx), status)))
  {
  }

  /** `accounting` once the move is known to be postable: assigns the sequence outside
      daybook mode or for a move already in the daybook, marks moves of an adjusting period,
      completes and freezes the lines, then sets the status. A failing step stops the posting,
      and the fields already updated in memory stay updated. */
  method PostAccepted(move: Move, ctx: PostingContext) returns (r: Outcome<Fault>, assets: seq<nat>)
    requires move.journal.Some? && move.period.Some?
    modifies move`lines, move`status, move`accountingDate, move`adjustingMove, move`sequenceAssigned
    ensures r.Pass? <==> ValidationSucceeds(old(move.lines), move.date, move.originDate, move.partner, old(move.status),
                                           DaybookMode(move.journal.value, ctx), move.technicalOrigin,
                                           move.functionalOrigin, move.reference)
    ensures var daybook := DaybookMode(move.journal.value, ctx);
            move.sequenceAssigned == (old(move.sequenceAssigned) || !daybook || old(move.status) == StatusDaybook) &&
            move.adjustingMove == (old(move.adjustingMove) || move.period.value.status == PeriodAdjusting) &&
            (r.Fail? ==> r.error.category == NullDereference) &&
            (r.Pass? ==>
               var completed := CompletedLines(old(move.lines), move.date, move.originDate, move.partner);
               AllHaveAccounts(completed) && move.lines == FrozenLines(completed) &&
               StatusAfterValidation(old(move.status), daybook, move.technicalOrigin, move.functionalOrigin,
                                     move.reference) == Success(move.status) &&
               (move.status == StatusAccounted ==>
                  move.accountingDate == Some(ctx.today) && FixedAssetLines(move.lines) == Success(assets)) &&
               (move.status != StatusAccounted ==> move.accountingDate == old(move.accountingDate)))
  {
    var journal, period := move.journal.value, move.period.value;
    var daybook := DaybookMode(journal, ctx);
    if !daybook || move.status == StatusDaybook {
      move.sequenceAssigned := true;
    }
    if period.status == PeriodAdjusting {
      move.adjustingMove := true;
    }
    r, assets := CompleteAndValidate(move, daybook, ctx.today);
  }

  /** What `accounting` reads of a move and what it may change: the checked parts, the
      dates and partner the lines are completed with, and the posting fields. */
  datatype PostingState = PostingState(
    snapshot: MoveSnapshot,
    date: Option<Date>,
    originDate: Option<Date>,
    partner: Option<Partner>,
    status: MoveStatus,
    autoYearClosureMove: bool,
    accountingDate: Option<Date>,
    adjustingMove: bool,
    sequenceAssigned: bool)

  function StateOf(move: Move): PostingState
    reads move
  {
    PostingState(Snapshot(move), move.date, move.originDate, move.partner, move.status, move.autoYearClosureMove,
                 move.accountingDate, move.adjustingMove, move.sequenceAssigned)
  }

  /** Why `accounting` refuses a move in state `st`, if it does. */
  function RefusalOf(st: PostingState, ctx: PostingContext): Option<Fault> {
    PostingRefusal(st.snapshot, st.autoYearClosureMove, st.status, ctx)
  }

  /** Whether `accounting` posts a move in state `st`: nothing refuses it and its last steps go
      through. */
  predicate PostingSucceeds(st: PostingState, ctx: PostingContext) {
    RefusalOf(st, ctx).None? && st.snapshot.journal.Some? &&
    ValidationSucceeds(st.snapshot.lines, st.date, st.originDate, st.partner, st.status,
                       DaybookMode(st.snapshot.journal.value, ctx), st.snapshot.technicalOrigin,
                       st.snapshot.functionalOrigin, st.snapshot.reference)
  }

  /** The state `accounting` leaves a move in when it posts it from state `st`: the completed
      lines frozen, the new status, today's accounting date for an accounted move, the sequence
      assigned outside daybook mode or for a move already in the daybook, and the adjusting
      flag set in an adjusting period. Only meaningful when `PostingSucceeds(st, ctx)`. */
  function PostedState(st: PostingState, ctx: PostingContext): PostingState {
    var daybook := st.snapshot.journal.Some? && DaybookMode(st.snapshot.journal.value, ctx);
    var completed := CompletedLines(st.snapshot.lines, st.date, st.originDate, st.partner);
    var next := StatusAfterValidation(st.status, daybook, st.snapshot.technicalOrigin, st.snapshot.functionalOrigin,
                                      st.snapshot.reference);
    var status := if next.Success? then next.value else st.status;
    st.(snapshot := st.snapshot.(lines := if AllHaveAccounts(completed) then FrozenLines(completed) else completed),
        status := status,
        accountingDate := if status == StatusAccounted then Some(ctx.today) else st.accountingDate,
        adjustingMove := st.adjustingMove ||
                         (st.snapshot.period.Some? && st.snapshot.period.value.status == PeriodAdjusting),
        sequenceAssigned := st.sequenceAssigned || !daybook || st.status == StatusDaybook)
  }

  /** `accounting`: checks the preconditions and refuses a closed period, leaving a refused
      move unchanged; otherwise posts it. */
  method Accounting(move: Move, ctx: PostingContext) returns (r: Outcome<Fault>, assets: seq<nat>)
    modifies move`lines, move`status, move`accountingDate, move`adjustingMove, move`sequenceAssigned
    ensures var refusal := PostingRefusal(old(Snapshot(move)), move.autoYearClosureMove, old(move.status), ctx);
            refusal.Some? ==> r == Fail(refusal.value) && unchanged(move) && assets == []
    ensures var refusal := PostingRefusal(old(Snapshot(move)), move.autoYearClosureMove, old(move.status), ctx);
            refusal.None? ==>
              move.journal.Some? && move.period.Some? &&
              var daybook := DaybookMode(move.journal.value, ctx);
              (r.Pass? <==> ValidationSucceeds(old(move.lines), move.date, move.originDate, move.partner, old(move.status),
                                               daybook, move.technicalOrigin, move.functionalOrigin, move.reference)) &&
              move.sequenceAssigned == (old(move.sequenceAssigned) || !daybook || old(move.status) == StatusDaybook) &&
              move.adjustingMove == (old(move.adjustingMove) || move.period.value.status == PeriodAdjusting) &&
              (r.Fail? ==> r.error.category == NullDereference) &&
              (r.Pass? ==>
                 var completed := CompletedLines(old(move.lines), move.date, move.originDate, move.partner);
                 AllHaveAccounts(completed) && move.lines == FrozenLines(completed) &&
                 StatusAfterValidation(old(move.status), daybook, move.technicalOrigin, move.functionalOrigin,
                                       move.reference) == Success(move.status) &&
                 (move.status == StatusAccounted ==>
                    move.accountingDate == Some(ctx.today) && FixedAssetLines(move.lines) == Success(assets)) &&
                 (move.status != StatusAccounted ==> move.accountingDate == old(move.accountingDate)))
  {
    var refusal := PostingRefusal(Snapshot(move), move.autoYearClosureMove, move.status, ctx);
    if refusal.Some? {
      return Fail(refusal.value), [];
    }
    PostingRefusalIsPreconditionsThenPeriod(Snapshot(move), move.autoYearClosureMove, move.status, ctx);
    r, assets := PostAccepted(move, ctx);
  }

  // ---- getPartnerOfMoveBeforeUpdate ----

  /** A line whose frozen account, looked up by identifier, is used for partner balance and
      whose frozen partner identifier finds a partner. Identifiers that find nothing are
      skipped. */
  predicate ImpactsPartnerBalance(line: MoveLine, accounts: map<nat, Account>, partners: map<nat, Partner>) {
    line.frozenAccountId.Some? && line.frozenAccountId.value in accounts &&
    accounts[line.frozenAccountId.value].useForPartnerBalance &&
    line.frozenPartnerId.Some? && line.frozenPartnerId.value in partners
  }

  /** The partners of the lines that impact partner balances, in line order, repeats kept. */
  function BalancePartners(lines: seq<MoveLine>, accounts: map<nat, Account>, partners: map<nat, Partner>): seq<Partner>
    decreases |lines|
  {
    if lines == [] then []
    else
      var line := lines[|lines| - 1];
      BalancePartners(lines[..|lines| - 1], accounts, partners) +
      (if ImpactsPartnerBalance(line, accounts, partners) then [partners[line.frozenPartnerId.value]] else [])
  }

  lemma {:induction false} BalancePartnersStep(lines: seq<MoveLine>, i: nat, accounts: map<nat, Account>, partners: map<nat, Partner>)
    requires i < |lines|
    ensures ImpactsPartnerBalance(lines[i], accounts, partners) ==>
              BalancePartners(lines[..i + 1], accounts, partners) ==
              BalancePartners(lines[..i], accounts, partners) + [partners[lines[i].frozenPartnerId.value]]
    ensures !ImpactsPartnerBalance(lines[i], accounts, partners) ==>
              BalancePartners(lines[..i + 1], accounts, partners) == BalancePartners(lines[..i], accounts, partners)
  {
    assert lines[..i + 1][..i] == lines[..i];
  }

  /** `getPartnerOfMoveBeforeUpdate`: the distinct partners of the partner-balance lines, in
      order of first appearance. */
  method GetPartnerOfMoveBeforeUpdate(lines: seq<MoveLine>, accounts: map<nat, Account>, partners: map<nat, Partner>)
    returns (partnerList: seq<Partner>)
    ensures partnerList == Distinct(BalancePartners(lines, accounts, partners))
    ensures NoDuplicates(partnerList)
    ensures forall p :: p in partnerList <==> p in BalancePartners(lines, accounts, partners)
  {
    partnerList := [];
    var i := 0;
    while i < |lines|
      invariant 0 <= i <= |lines|
      invariant partnerList == Distinct(BalancePartners(lines[..i], accounts, partners))
    {
      var line := lines[i];
      BalancePartnersStep(lines, i, accounts, partners);
      if line.frozenAccountId.Some? && line.frozenAccountId.value in accounts {
        var account := accounts[line.frozenAccountId.value];
        if account.useForPartnerBalance && line.frozenPartnerId.Some? && line.frozenPartnerId.value in partners {
          var partner := partners[line.frozenPartnerId.value];
          DistinctSnoc(BalancePartners(lines[..i], accounts, partners), partner);
          if partner !in partnerList {
            partnerList := partnerList + [partner];
          }
        }
      }
      i := i + 1;
    }
    assert lines[..i] == lines;
    DistinctIsDeduplication(BalancePartners(lines, accounts, partners));
  }

  // ---- accountingMultiple and simulateMultiple ----

  /** The error text after one more failed move: a ", " separator once the text is
      non-empty, then the move's reference. */
  function AppendError(errors: string, reference: string): (r: string)
    ensures |errors| > 0 ==> r == errors + ", " + reference
    ensures |errors| == 0 ==> r == reference
  {
    (if |errors| > 0 then errors + ", " else errors) + reference
  }

  /** The error text of a batch whose moves have these references and outcomes, in order. */
  function BatchErrors(references: seq<string>, outcomes: seq<Outcome<Fault>>): string
    requires |references| == |outcomes|
    decreases |references|
  {
    if references == [] then ""
    else
      var n := |references| - 1;
      var before := BatchErrors(references[..n], outcomes[..n]);
      if outcomes[n].Fail? then AppendError(before, references[n]) else before
  }

  /** The references of the failed moves, in order. */
  function FailedReferences(references: seq<string>, outcomes: seq<Outcome<Fault>>): (r: seq<string>)
    requires |references| == |outcomes|
    ensures |r| <= |references|
    ensures forall x | x in r :: x in references
    decreases |references|
  {
    if references == [] then []
    else
      var n := |references| - 1;
      FailedReferences(references[..n], outcomes[..n]) + (if outcomes[n].Fail? then [references[n]] else [])
  }

  /** When no failed move has an empty reference, the batch's error text is exactly the
      references of the failed moves, in order, joined by ", ". */
  lemma {:induction false} BatchErrorsJoinFailedReferences(references: seq<string>, outcomes: seq<Outcome<Fault>>)
    requires |references| == |outcomes|
    requires forall i | 0 <= i < |references| :: references[i] != ""
    ensures BatchErrors(references, outcomes) == JoinComma(FailedReferences(references, outcomes))
    decreases |references|
  {
    if references != [] {
      var n := |references| - 1;
      var failed := FailedReferences(references[..n], outcomes[..n]);
      BatchErrorsJoinFailedReferences(references[..n], outcomes[..n]);
      assert FailedReferences(references, outcomes) ==
             failed + (if outcomes[n].Fail? then [references[n]] else []);
      if outcomes[n].Fail? {
        forall x | x in failed ensures x != "" {
          assert x in references[..n];
          var k :| 0 <= k < n && references[..n][k] == x;
          assert references[k] == x;
        }
        JoinCommaOfNonEmpty(failed);
        var xs := failed + [references[n]];
        assert xs[..|xs| - 1] == failed;
        assert BatchErrors(references, outcomes) == AppendError(JoinComma(failed), references[n]);
      } else {
        assert failed + [] == failed;
      }
    }
  }

  /** Joining non-empty texts gives a non-empty text exactly when there is one. */
  lemma {:induction false} JoinCommaOfNonEmpty(xs: seq<string>)
    requires forall x | x in xs :: x != ""
    ensures JoinComma(xs) == "" <==> xs == []
  {
    if |xs| > 1 {
      assert xs[|xs| - 1] in xs;
    } else if |xs| == 1 {
      assert xs[0] in xs;
    }
  }

  function References(moves: seq<Move>): (r: seq<string>)
    reads set m | m in moves
    ensures |r| == |moves|
  {
    seq(|moves|, i reads set m | m in moves requires 0 <= i < |moves| => moves[i].reference)
  }

  /** The moves of a list, or none when the list is missing. */
  function Batch(moveList: Option<seq<Move>>): set<Move> {
    if moveList.Some? then set m | m in moveList.value else {}
  }

  /** No move occurs twice in the list. */
  predicate DistinctMoves(moves: seq<Move>) {
    forall i, j | 0 <= i < j < |moves| :: moves[i] != moves[j]
  }

  /** `accountingMultiple(List)`: posts every move of the list in turn, whatever happened to
      the previous ones, and returns the references of the failed ones in the error-text
      format; a missing list gives the empty text. `contextOf` gives the collaborators'
      answers for each move. When no move occurs twice, each move fails exactly when
      `accounting` on its state before the batch fails, a refused move is left as it was, and a
      posted move ends in its posted state. */
  method AccountingMultiple(moveList: Option<seq<Move>>, contextOf: Move -> PostingContext)
    returns (errors: string, ghost outcomes: seq<Outcome<Fault>>)
    modifies Batch(moveList)`lines, Batch(moveList)`status, Batch(moveList)`accountingDate,
             Batch(moveList)`adjustingMove, Batch(moveList)`sequenceAssigned
    ensures moveList.None? ==> errors == "" && outcomes == []
    ensures moveList.Some? ==>
              |outcomes| == |moveList.value| &&
              errors == BatchErrors(old(References(moveList.value)), outcomes)
    ensures moveList.Some? && DistinctMoves(moveList.value) ==>
              |outcomes| == |moveList.value| &&
              forall i | 0 <= i < |moveList.value| ::
                (outcomes[i].Pass? <==> PostingSucceeds(old(StateOf(moveList.value[i])), contextOf(moveList.value[i])))
    ensures moveList.Some? && DistinctMoves(moveList.value) ==>
              |outcomes| == |moveList.value| &&
              forall i | 0 <= i < |moveList.value| ::
                var refusal := RefusalOf(old(StateOf(moveList.value[i])), contextOf(moveList.value[i]));
                refusal.Some? ==> outcomes[i] == Fail(refusal.value) &&
                                  StateOf(moveList.value[i]) == old(StateOf(moveList.value[i]))
    ensures moveList.Some? && DistinctMoves(moveList.value) ==>
              |outcomes| == |moveList.value| &&
              forall i | 0 <= i < |moveList.value| && outcomes[i].Pass? ::
                StateOf(moveList.value[i]) == PostedState(old(StateOf(moveList.value[i])), contextOf(moveList.value[i]))
  {
    errors := "";
    outcomes := [];
    if moveList.None? {
      return;
    }
    var moves := moveList.value;
    ghost var states := seq(|moves|, j reads set m | m in moves requires 0 <= j < |moves| => StateOf(moves[j]));
    ghost var succeeds := seq(|moves|, j requires 0 <= j < |moves| => PostingSucceeds(states[j], contextOf(moves[j])));
    ghost var refusals := seq(|moves|, j requires 0 <= j < |moves| => RefusalOf(states[j], contextOf(moves[j])));
    ghost var posted := seq(|moves|, j requires 0 <= j < |moves| => PostedState(states[j], contextOf(moves[j])));
    errors, outcomes := PostEach(moves, contextOf, states, succeeds, refusals, posted);
  }

  /** The loop of `accountingMultiple` over a present list; `states` are the moves' states
      before the loop, `succeeds` and `refusals` what `accounting` does with each of them. */
  method PostEach(moves: seq<Move>, contextOf: Move -> PostingContext, ghost states: seq<PostingState>,
                  ghost succeeds: seq<bool>, ghost refusals: seq<Option<Fault>>, ghost posted: seq<PostingState>)
    returns (errors: string, ghost outcomes: seq<Outcome<Fault>>)
    requires Expected(moves, contextOf, states, succeeds, refusals, posted)
    requires forall j | 0 <= j < |moves| :: StateOf(moves[j]) == states[j]
    modifies (set m | m in moves)`lines, (set m | m in moves)`status, (set m | m in moves)`accountingDate,
             (set m | m in moves)`adjustingMove, (set m | m in moves)`sequenceAssigned
    ensures |outcomes| == |moves|
    ensures errors == BatchErrors(old(References(moves)), outcomes)
    ensures DistinctMoves(moves) ==> OutcomesAsExpected(outcomes, succeeds, refusals)
    ensures DistinctMoves(moves) ==>
              forall j | 0 <= j < |moves| && refusals[j].Some? :: StateOf(moves[j]) == states[j]
    ensures DistinctMoves(moves) ==>
              forall j | 0 <= j < |moves| && outcomes[j].Pass? :: StateOf(moves[j]) == posted[j]
  {
    errors := "";
    outcomes := [];
    ghost var references := References(moves);
    ghost var done: seq<string> := [];
    var i := 0;
    while i < |moves|
      invariant 0 <= i <= |moves| && |outcomes| == i
      invariant done == references[..i] && errors == BatchErrors(done, outcomes)
      invariant DistinctMoves(moves) ==> OutcomesAsExpected(outcomes, succeeds, refusals)
      invariant DistinctMoves(moves) ==> Settled(moves, i, outcomes, states, refusals, posted)
    {
      var move := moves[i];
      var r;
      r, errors := BatchTurn(moves, i, contextOf, states, succeeds, refusals, posted, errors, done, outcomes);
      if DistinctMoves(moves) {
        OutcomesAsExpectedStep(outcomes, r, succeeds, refusals);
      }
      done := done + [move.reference];
      outcomes := outcomes + [r];
      i := i + 1;
    }
    assert references[..i] == references;
  }

  /** After the first `i` turns of the batch, the moves not posted yet and the refused ones are
      still in their recorded states, and the posted ones are in their posted states. */
  predicate Settled(moves: seq<Move>, i: nat, outcomes: seq<Outcome<Fault>>, states: seq<PostingState>,
                    refusals: seq<Option<Fault>>, posted: seq<PostingState>)
    reads set m | m in moves
  {
    i <= |moves| && |outcomes| == i && |states| == |moves| && |refusals| == |moves| && |posted| == |moves| &&
    forall j | 0 <= j < |moves| && (i <= j || refusals[j].Some? || outcomes[j].Pass?) ::
      StateOf(moves[j]) == if i <= j || refusals[j].Some? then states[j] else posted[j]
  }

  /** `succeeds`, `refusals` and `posted` say, for each move, whether `accounting` posts it,
      why it refuses it and what it posts it as, given the move in the state `states` records. */
  predicate Expected(moves: seq<Move>, contextOf: Move -> PostingContext, states: seq<PostingState>,
                     succeeds: seq<bool>, refusals: seq<Option<Fault>>, posted: seq<PostingState>) {
    |states| == |moves| && |succeeds| == |moves| && |refusals| == |moves| && |posted| == |moves| &&
    forall j {:trigger PostingSucceeds(states[j], contextOf(moves[j]))} | 0 <= j < |moves| ::
      succeeds[j] == PostingSucceeds(states[j], contextOf(moves[j])) &&
      refusals[j] == RefusalOf(states[j], contextOf(moves[j])) &&
      posted[j] == PostedState(states[j], contextOf(moves[j]))
  }

  /** One turn of the batch loop: `accounting` on the `i`-th move, its exception caught. When
      the move is still in its recorded state, it is posted exactly as expected and then ends in
      its posted state, and a refused move keeps that state. */
  method BatchTurn(moves: seq<Move>, i: nat, contextOf: Move -> PostingContext, ghost states: seq<PostingState>,
                   ghost succeeds: seq<bool>, ghost refusals: seq<Option<Fault>>, ghost posted: seq<PostingState>,
                   errors: string,
                   ghost done: seq<string>, ghost outcomes: seq<Outcome<Fault>>)
    returns (r: Outcome<Fault>, errorsAfter: string)
    requires i < |moves| && Expected(moves, contextOf, states, succeeds, refusals, posted)
    requires |done| == |outcomes| && errors == BatchErrors(done, outcomes)
    modifies {moves[i]}`lines, {moves[i]}`status, {moves[i]}`accountingDate, {moves[i]}`adjustingMove,
             {moves[i]}`sequenceAssigned
    ensures errorsAfter == BatchErrors(done + [moves[i].reference], outcomes + [r])
    ensures forall j | 0 <= j < |moves| && moves[j] != moves[i] :: StateOf(moves[j]) == old(StateOf(moves[j]))
    ensures old(StateOf(moves[i])) == states[i] ==>
              (r.Pass? <==> succeeds[i]) &&
              (refusals[i].Some? ==> r == Fail(refusals[i].value) && StateOf(moves[i]) == states[i]) &&
              (r.Pass? ==> StateOf(moves[i]) == posted[i])
    ensures DistinctMoves(moves) && old(Settled(moves, i, outcomes, states, refusals, posted)) ==>
              Settled(moves, i + 1, outcomes + [r], states, refusals, posted)
  {
    var move := moves[i];
    r := AccountingOne(move, contextOf(move));
    assert succeeds[i] == PostingSucceeds(states[i], contextOf(moves[i]));
    BatchErrorsSnoc(done, outcomes, move.reference, r);
    errorsAfter := errors;
    if r.Fail? {
      errorsAfter := AppendError(errors, move.reference);
    }
    if DistinctMoves(moves) && old(Settled(moves, i, outcomes, states, refusals, posted)) {
      assert old(StateOf(moves[i])) == states[i];
      var next := outcomes + [r];
      forall j | 0 <= j < |moves| && (i + 1 <= j || refusals[j].Some? || next[j].Pass?)
        ensures StateOf(moves[j]) == if i + 1 <= j || refusals[j].Some? then states[j] else posted[j]
      {
        if j != i {
          assert moves[j] != moves[i];
          if j < i {
            assert next[j] == outcomes[j];
          }
        }
      }
    }
  }

  /** The outcomes so far match the expected ones: a pass exactly where posting succeeds,
      and the refusal's error wherever the move is refused. */
  predicate OutcomesAsExpected(outcomes: seq<Outcome<Fault>>, succeeds: seq<bool>, refusals: seq<Option<Fault>>) {
    |outcomes| <= |succeeds| && |outcomes| <= |refusals| &&
    (forall j | 0 <= j < |outcomes| :: outcomes[j].Pass? <==> succeeds[j]) &&
    (forall j | 0 <= j < |outcomes| :: refusals[j].Some? ==> outcomes[j] == Fail(refusals[j].value))
  }

  lemma {:induction false} OutcomesAsExpectedStep(outcomes: seq<Outcome<Fault>>, r: Outcome<Fault>, succeeds: seq<bool>,
                                                  refusals: seq<Option<Fault>>)
    requires OutcomesAsExpected(outcomes, succeeds, refusals)
    requires |outcomes| < |succeeds| && |outcomes| < |refusals|
    requires r.Pass? <==> succeeds[|outcomes|]
    requires refusals[|outcomes|].Some? ==> r == Fail(refusals[|outcomes|].value)
    ensures OutcomesAsExpected(outcomes + [r], succeeds, refusals)
  {
    var next := outcomes + [r];
    assert forall j | 0 <= j < |outcomes| :: next[j] == outcomes[j];
  }

  /** `accounting` on one move with its exception caught, as the batch calls it. The move is
      posted exactly when `accounting` succeeds on it, and then ends in its posted state; a
      refused move is left as it was. */
  method AccountingOne(move: Move, ctx: PostingContext) returns (r: Outcome<Fault>)
    modifies move`lines, move`status, move`accountingDate, move`adjustingMove, move`sequenceAssigned
    ensures r.Pass? <==> PostingSucceeds(old(StateOf(move)), ctx)
    ensures RefusalOf(old(StateOf(move)), ctx).Some? ==>
              r == Fail(RefusalOf(old(StateOf(move)), ctx).value) && StateOf(move) == old(StateOf(move))
    ensures r.Pass? ==> StateOf(move) == PostedState(old(StateOf(move)), ctx)
  {
    r := AccountingFrom(move, ctx);
  }

  /** `accounting` on one move, stated on the move's posting state: a refused move is left as
      it was; otherwise the move passes exactly when the last steps go through, and then ends
      in its posted state. */
  method AccountingFrom(move: Move, ctx: PostingContext) returns (r: Outcome<Fault>)
    modifies move`lines, move`status, move`accountingDate, move`adjustingMove, move`sequenceAssigned
    ensures var st := old(StateOf(move));
            RefusalOf(st, ctx).Some? ==> r == Fail(RefusalOf(st, ctx).value) && StateOf(move) == st
    ensures var st := old(StateOf(move));
            RefusalOf(st, ctx).None? ==>
              st.snapshot.journal.Some? &&
              (r.Pass? <==> ValidationSucceeds(st.snapshot.lines, st.date, st.originDate, st.partner, st.status,
                                               DaybookMode(st.snapshot.journal.value, ctx), st.snapshot.technicalOrigin,
                                               st.snapshot.functionalOrigin, st.snapshot.reference)) &&
              (r.Pass? ==> StateOf(move) == PostedState(st, ctx))
  {
    ghost var before := StateOf(move);
    var assets;
    r, assets := Accounting(move, ctx);
    assert StateOf(move) == before.(snapshot := before.snapshot.(lines := move.lines), status := move.status,
                                    accountingDate := move.accountingDate, adjustingMove := move.adjustingMove,
                                    sequenceAssigned := move.sequenceAssigned);
    if r.Pass? {
      PostedStateIsReached(before, move.lines, move.status, move.accountingDate, move.adjustingMove,
                           move.sequenceAssigned, ctx);
    }
  }

  /** Setting the posting fields of `st` as a successful `accounting` sets them gives the
      posted state of `st`. */
  lemma {:induction false} PostedStateIsReached(st: PostingState, lines: seq<MoveLine>, status: MoveStatus,
                                                accountingDate: Option<Date>, adjustingMove: bool,
                                                sequenceAssigned: bool, ctx: PostingContext)
    requires st.snapshot.journal.Some? && st.snapshot.period.Some?
    requires var daybook := DaybookMode(st.snapshot.journal.value, ctx);
             var completed := CompletedLines(st.snapshot.lines, st.date, st.originDate, st.partner);
             AllHaveAccounts(completed) && lines == FrozenLines(completed) &&
             StatusAfterValidation(st.status, daybook, st.snapshot.technicalOrigin, st.snapshot.functionalOrigin,
                                   st.snapshot.reference) == Success(status) &&
             (status == StatusAccounted ==> accountingDate == Some(ctx.today)) &&
             (status != StatusAccounted ==> accountingDate == st.accountingDate) &&
             sequenceAssigned == (st.sequenceAssigned || !daybook || st.status == StatusDaybook) &&
             adjustingMove == (st.adjustingMove || st.snapshot.period.value.status == PeriodAdjusting)
    ensures PostedState(st, ctx) ==
            st.(snapshot := st.snapshot.(lines := lines), status := status, accountingDate := accountingDate,
                adjustingMove := adjustingMove, sequenceAssigned := sequenceAssigned)
  {
  }

  /** One more move of the batch: its reference is appended exactly when it failed. */
  lemma {:induction false} BatchErrorsSnoc(references: seq<string>, outcomes: seq<Outcome<Fault>>, reference: string,
                                           r: Outcome<Fault>)
    requires |references| == |outcomes|
    ensures BatchErrors(references + [reference], outcomes + [r]) ==
            if r.Fail? then AppendError(BatchErrors(references, outcomes), reference)
            else BatchErrors(references, outcomes)
  {
    var refs, outs := references + [reference], outcomes + [r];
    assert refs[..|references|] == references && outs[..|references|] == outcomes;
  }

  /** `simulateMultiple`: marks every move of the list as simulated; a missing list changes
      nothing. */
  method SimulateMultiple(moveList: Option<seq<Move>>)
    modifies Batch(moveList)`status
    ensures moveList.Some? ==> forall m | m in moveList.value :: m.status == StatusSimulated
  {
    if moveList.None? {
      return;
    }
    var moves := moveList.value;
    var i := 0;
    while i < |moves|
      invariant 0 <= i <= |moves|
      invariant forall j | 0 <= j < i :: moves[j].status == StatusSimulated
    {
      moves[i].status := StatusSimulated;
      i := i + 1;
    }
  }
}

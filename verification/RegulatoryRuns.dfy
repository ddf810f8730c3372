/** The regulatory limits over whole runs of transfers under fixed rules. */
module RegulatoryRuns {
  import opened Common
  import opened Regulatory
  import Sums

  const P2P := "p2p"

  /** A single transfer is checked on one date, with queries that may or may not answer, and, if it
      completes, booked on that date or a later one; a batch books its total without a check. */
  datatype Op =
    | Single(transfer: Transfer, checked: Date, booked: Date, completed: bool, answers: Queries)
    | Batch(user: string, currency: string, amount: int, booked: Date)

  function SlotOf(op: Op): Slot {
    match op
    case Single(r, _, booked, _, _) => Slot(r.user, r.currency, r.direction, booked)
    case Batch(user, currency, _, booked) => Slot(user, currency, P2P, booked)
  }

  function AmountOf(op: Op): int { if op.Single? then op.transfer.amount else op.amount }

  ghost function Step(book: Rulebook, t: Totals, op: Op): Totals {
    match op
    case Single(r, checked, _, completed, answers) =>
      if Checked(book, t, r, checked, answers) == None && completed then Booked(t, SlotOf(op), r.amount) else t
    case Batch(_, _, amount, _) => Booked(t, SlotOf(op), amount)
  }

  ghost function AfterRun(book: Rulebook, t: Totals, ops: seq<Op>): Totals
    decreases |ops|
  {
    if ops == [] then t else AfterRun(book, Step(book, t, ops[0]), ops[1..])
  }

  // ---------------------------------------------------------------- one at a time

  predicate NotAfter(a: Date, b: Date) { a.month < b.month || (a.month == b.month && a.day <= b.day) }

  function Start(op: Op): Date { if op.Single? then op.checked else op.booked }

  /** Operations run one at a time from this date on: each starts no earlier than the one before was
      booked, though it may itself be booked on a later date than it was checked. */
  predicate OneAtATime(ops: seq<Op>, last: Date) {
    && (forall i :: 0 <= i < |ops| ==> NotAfter(last, Start(ops[i])) && NotAfter(Start(ops[i]), ops[i].booked))
    && (forall i, j :: 0 <= i < j < |ops| ==> NotAfter(ops[i].booked, Start(ops[j])))
  }

  /** Nothing is booked ahead of this date, and no total is negative. */
  predicate Tidy(t: Totals, last: Date) { forall s :: s in t ==> NotAfter(s.date, last) && t[s] >= 0 }

  /** The user's account type and KYC level stay the same, and no amount is negative. */
  predicate SteadyOp(op: Op, user: string, p: Person) {
    AmountOf(op) >= 0 && (op.Single? && op.transfer.user == user ==> op.transfer.person == p)
  }

  predicate Steady(ops: seq<Op>, user: string, p: Person) { forall op :: op in ops ==> SteadyOp(op, user, p) }

  lemma TidyStep(book: Rulebook, t: Totals, op: Op, last: Date)
    requires Tidy(t, last) && NotAfter(last, Start(op)) && NotAfter(Start(op), op.booked) && AmountOf(op) >= 0
    ensures Tidy(Step(book, t, op), op.booked)
  {
  }

  lemma RestInOrder(ops: seq<Op>, last: Date)
    requires OneAtATime(ops, last) && ops != []
    ensures OneAtATime(ops[1..], ops[0].booked)
  {
  }

  // ---------------------------------------------------------------- the daily limit

  /** Booked into the slot without its total having been read: batches, and transfers whose query failed. */
  predicate Escapes(op: Op, slot: Slot) { SlotOf(op) == slot && (op.Batch? || (op.completed && !op.answers.daily)) }

  function Unchecked(ops: seq<Op>, slot: Slot): int {
    if ops == [] then 0 else (if Escapes(ops[0], slot) then AmountOf(ops[0]) else 0) + Unchecked(ops[1..], slot)
  }

  /** One step: a transfer that straddles midnight meets an empty day, because nothing else runs meanwhile. */
  lemma DailyStep(book: Rulebook, t: Totals, op: Op, slot: Slot, p: Person, limit: int, last: Date, extra: nat)
    requires SteadyOp(op, slot.user, p) && Tidy(t, last) && NotAfter(last, Start(op)) && NotAfter(Start(op), op.booked)
    requires limit > 0 && AmountLimit(book, DAILY_LIMIT, p, slot.currency) == Some(limit) && DailyTotal(t, slot) <= limit + extra
    ensures DailyTotal(Step(book, t, op), slot) <= limit + extra + if Escapes(op, slot) then AmountOf(op) else 0
  {
    if op.Single? && SlotOf(op) == slot && op.answers.daily && Step(book, t, op) != t {
      var before := DailyTotal(t, slot.(date := op.checked));
      assert Daily(book, before, op.transfer) == None;
      assert before + op.transfer.amount <= limit;
    }
  }

  /** Over every run of transfers and batches, one at a time, no (user, currency, direction, day) total
      exceeds the resolved limit by more than what was booked into it unchecked. Transfers that straddle
      midnight are not among those: they stay within the limit. */
  lemma {:induction false} DailyLimitHolds(book: Rulebook, t: Totals, ops: seq<Op>, slot: Slot, p: Person, limit: int, last: Date, extra: nat)
    requires Steady(ops, slot.user, p) && OneAtATime(ops, last) && Tidy(t, last)
    requires limit > 0 && AmountLimit(book, DAILY_LIMIT, p, slot.currency) == Some(limit) && DailyTotal(t, slot) <= limit + extra
    ensures DailyTotal(AfterRun(book, t, ops), slot) <= limit + extra + Unchecked(ops, slot)
    decreases |ops|
  {
    if ops != [] {
      assert ops[0] in ops;
      var more := if Escapes(ops[0], slot) then AmountOf(ops[0]) else 0;
      DailyStep(book, t, ops[0], slot, p, limit, last, extra);
      TidyStep(book, t, ops[0], last);
      RestInOrder(ops, last);
      DailyLimitHolds(book, Step(book, t, ops[0]), ops[1..], slot, p, limit, ops[0].booked, extra + more);
    }
  }

  lemma {:induction false} NothingEscapes(ops: seq<Op>, slot: Slot)
    requires forall op :: op in ops ==> op.Single? && op.answers.daily
    ensures Unchecked(ops, slot) == 0
  {
    if ops != [] {
      assert ops[0] in ops;
      NothingEscapes(ops[1..], slot);
    }
  }

  /** Single transfers whose queries answer never take a total above the limit, on whatever date they are
      booked. */
  lemma SingleTransfersStayWithin(book: Rulebook, t: Totals, ops: seq<Op>, slot: Slot, p: Person, limit: int, last: Date)
    requires Steady(ops, slot.user, p) && OneAtATime(ops, last) && Tidy(t, last)
    requires forall op :: op in ops ==> op.Single? && op.answers.daily
    requires limit > 0 && AmountLimit(book, DAILY_LIMIT, p, slot.currency) == Some(limit) && DailyTotal(t, slot) <= limit
    ensures DailyTotal(AfterRun(book, t, ops), slot) <= limit
  {
    DailyLimitHolds(book, t, ops, slot, p, limit, last, 0);
    NothingEscapes(ops, slot);
  }

  /** A plain transfer between wallets. */
  function Plain(user: string, p: Person, currency: string, amount: int): Transfer {
    Transfer(user, p, P2P, amount, currency, "travel", DOMESTIC, None)
  }

  lemma PlainVerdict(book: Rulebook, t: Totals, user: string, p: Person, currency: string, amount: int, limit: int, today: Date, answers: Queries)
    requires limit > 0 && AmountLimit(book, DAILY_LIMIT, p, currency) == Some(limit)
    ensures Checked(book, t, Plain(user, p, currency, amount), today, answers) == None <==>
            (if answers.daily then DailyTotal(t, Slot(user, currency, P2P, today)) else 0) + amount <= limit
  {
    assert P2P != OUTBOUND && P2P != CARD_ABROAD by { assert |P2P| == 3; }
    assert "travel" != MEDICAL && "travel" != EDUCATION && "travel" != INVESTMENT by {
      assert "travel"[0] != MEDICAL[0] && "travel"[0] != EDUCATION[0] && "travel"[0] != INVESTMENT[0];
    }
  }

  /** A day on which the limit is used up, a batch follows, and then a transfer whose query fails. */
  function BusyDay(user: string, p: Person, currency: string, limit: int, batch: int, blind: int, today: Date): seq<Op> {
    [Single(Plain(user, p, currency, limit), today, today, true, Queries(true, true)), Batch(user, currency, batch, today),
     Single(Plain(user, p, currency, blind), today, today, true, Queries(false, true))]
  }

  lemma RunOfThree(book: Rulebook, t: Totals, a: Op, b: Op, c: Op, slot: Slot)
    ensures AfterRun(book, t, [a, b, c]) == Step(book, Step(book, Step(book, t, a), b), c)
    ensures Unchecked([a, b, c], slot)
            == (if Escapes(a, slot) then AmountOf(a) else 0) + (if Escapes(b, slot) then AmountOf(b) else 0) + (if Escapes(c, slot) then AmountOf(c) else 0)
  {
    assert [a, b, c][1..] == [b, c] && [b, c][1..] == [c] && [c][1..] == [];
    assert AfterRun(book, t, [a, b, c]) == AfterRun(book, Step(book, t, a), [b, c]);
    assert AfterRun(book, Step(book, t, a), [b, c]) == AfterRun(book, Step(book, Step(book, t, a), b), [c]);
    assert AfterRun(book, Step(book, Step(book, Step(book, t, a), b), c), []) == Step(book, Step(book, Step(book, t, a), b), c);
    assert Unchecked([c], slot) == (if Escapes(c, slot) then AmountOf(c) else 0) + Unchecked([], slot);
    assert Unchecked([b, c], slot) == (if Escapes(b, slot) then AmountOf(b) else 0) + Unchecked([c], slot);
  }

  /** The bound is reached by a run one at a time, for every limit, every batch and every transfer up to the
      limit: both the batch and the transfer that could not be checked come on top. */
  lemma BoundReached(book: Rulebook, user: string, p: Person, currency: string, limit: int, batch: nat, blind: nat, today: Date)
    requires limit > 0 && AmountLimit(book, DAILY_LIMIT, p, currency) == Some(limit) && blind <= limit
    ensures var ops, slot := BusyDay(user, p, currency, limit, batch, blind, today), Slot(user, currency, P2P, today);
            && Steady(ops, user, p) && OneAtATime(ops, today) && Unchecked(ops, slot) == batch + blind
            && DailyTotal(AfterRun(book, map[], ops), slot) == limit + Unchecked(ops, slot)
  {
    var ops, slot := BusyDay(user, p, currency, limit, batch, blind, today), Slot(user, currency, P2P, today);
    var t1 := Booked(map[], slot, limit);
    var t2 := Booked(t1, slot, batch);
    PlainVerdict(book, map[], user, p, currency, limit, limit, today, Queries(true, true));
    assert Step(book, map[], ops[0]) == t1;
    assert Step(book, t1, ops[1]) == t2;
    PlainVerdict(book, t2, user, p, currency, blind, limit, today, Queries(false, true));
    assert Step(book, t2, ops[2]) == Booked(t2, slot, blind);
    RunOfThree(book, map[], ops[0], ops[1], ops[2], slot);
  }

  // ---------------------------------------------------------------- the monthly cap

  predicate Remitted(s: Slot, user: string) { s.user == user && s.currency == USD && s.direction == OUTBOUND }

  /** The user's outbound dollar rows of one month. */
  function RowsOf(t: Totals, user: string, month: int): Totals {
    map s | s in t && Remitted(s, user) && s.date.month == month :: t[s]
  }

  ghost function Sent(t: Totals, user: string, month: int): int { Sums.Total(RowsOf(t, user, month)) }

  lemma BookedSent(t: Totals, slot: Slot, amount: int, user: string, month: int)
    ensures Sent(Booked(t, slot, amount), user, month)
            == Sent(t, user, month) + if Remitted(slot, user) && slot.date.month == month then amount else 0
  {
    var rows, after := RowsOf(t, user, month), RowsOf(Booked(t, slot, amount), user, month);
    if Remitted(slot, user) && slot.date.month == month {
      assert after == rows[slot := DailyTotal(t, slot) + amount];
      Sums.TotalUpdate(rows, slot, DailyTotal(t, slot) + amount);
    } else {
      assert after == rows;
    }
  }

  /** An outbound dollar transfer whose monthly query failed. */
  predicate EscapesCap(op: Op, user: string, month: int) {
    Remitted(SlotOf(op), user) && op.booked.month == month && op.Single? && op.completed && !op.answers.monthly
  }

  function UncheckedByCap(ops: seq<Op>, user: string, month: int): int {
    if ops == [] then 0 else (if EscapesCap(ops[0], user, month) then AmountOf(ops[0]) else 0) + UncheckedByCap(ops[1..], user, month)
  }

  /** What the check saw is at least what the month holds when the transfer is booked. */
  lemma MonthSeen(t: Totals, user: string, last: Date, checked: Date, month: int)
    requires Tidy(t, last) && NotAfter(last, checked) && checked.month <= month
    ensures Sent(t, user, month) <= MonthlyTotal(t, user, USD, OUTBOUND, checked.month)
  {
    if checked.month == month {
      assert MonthRows(t, user, USD, OUTBOUND, month) == RowsOf(t, user, month);
    } else {
      assert RowsOf(t, user, month) == map[];
      Sums.TotalNonNegative(MonthRows(t, user, USD, OUTBOUND, checked.month));
    }
  }

  lemma CapStep(book: Rulebook, t: Totals, op: Op, user: string, p: Person, month: int, cap: int, last: Date, extra: nat)
    requires SteadyOp(op, user, p) && Tidy(t, last) && NotAfter(last, Start(op)) && NotAfter(Start(op), op.booked)
    requires cap > 0 && AmountLimit(book, MONTHLY_CAP, p, USD) == Some(cap) && Sent(t, user, month) <= cap + extra
    ensures Sent(Step(book, t, op), user, month) <= cap + extra + if EscapesCap(op, user, month) then AmountOf(op) else 0
  {
    if Step(book, t, op) != t {
      BookedSent(t, SlotOf(op), AmountOf(op), user, month);
      if Remitted(SlotOf(op), user) && op.booked.month == month {
        assert OUTBOUND != P2P by { assert |P2P| == 3; }
        if op.answers.monthly {
          MonthSeen(t, user, last, op.checked, month);
          assert Monthly(book, MonthlyTotal(t, user, USD, OUTBOUND, op.checked.month), op.transfer) == None;
        }
      }
    }
  }

  /** A user's outbound dollar transfers of any month never add up to more than the cap, plus those whose
      query failed. Transfers checked in one month and booked in the next stay within it. */
  lemma {:induction false} MonthlyCapHolds(book: Rulebook, t: Totals, ops: seq<Op>, user: string, p: Person, month: int, cap: int, last: Date, extra: nat)
    requires Steady(ops, user, p) && OneAtATime(ops, last) && Tidy(t, last)
    requires cap > 0 && AmountLimit(book, MONTHLY_CAP, p, USD) == Some(cap) && Sent(t, user, month) <= cap + extra
    ensures Sent(AfterRun(book, t, ops), user, month) <= cap + extra + UncheckedByCap(ops, user, month)
    decreases |ops|
  {
    if ops != [] {
      assert ops[0] in ops;
      var more := if EscapesCap(ops[0], user, month) then AmountOf(ops[0]) else 0;
      CapStep(book, t, ops[0], user, p, month, cap, last, extra);
      TidyStep(book, t, ops[0], last);
      RestInOrder(ops, last);
      MonthlyCapHolds(book, Step(book, t, ops[0]), ops[1..], user, p, month, cap, ops[0].booked, extra + more);
    }
  }

  // ---------------------------------------------------------------- where the cap does not reach

  /** One cap's worth of another currency that is at par with the dollar. */
  function Remittance(user: string, p: Person, currency: string, cap: int, today: Date): Op {
    Single(Transfer(user, p, OUTBOUND, cap, currency, "travel", DOMESTIC, Some(1.0)), today, today, true, Queries(true, true))
  }

  function Repeated(op: Op, n: nat): seq<Op> { seq(n, _ => op) }

  lemma RunRepeated(book: Rulebook, t: Totals, op: Op, n: nat)
    requires n > 0
    ensures AfterRun(book, t, Repeated(op, n)) == AfterRun(book, Step(book, t, op), Repeated(op, n - 1))
  {
    assert Repeated(op, n)[1..] == Repeated(op, n - 1);
  }

  lemma RemittanceAllowed(book: Rulebook, t: Totals, user: string, p: Person, currency: string, cap: int, today: Date)
    requires currency != USD && cap > 0 && AmountLimit(book, MONTHLY_CAP, p, currency) == Some(cap)
    requires Active(AmountLimit(book, DAILY_LIMIT, p, currency)) == None
    requires MonthRows(t, user, USD, OUTBOUND, today.month) == map[]
    ensures Checked(book, t, Remittance(user, p, currency, cap, today).transfer, today, Queries(true, true)) == None
  {
    var r := Remittance(user, p, currency, cap, today).transfer;
    assert InDollars(r) == Some(cap) by { assert cap as real * 1.0 == cap as real; }
    assert "travel" != MEDICAL && "travel" != EDUCATION && "travel" != INVESTMENT && "travel" != GENERAL by {
      assert "travel"[0] != MEDICAL[0] && "travel"[0] != EDUCATION[0] && "travel"[0] != INVESTMENT[0] && "travel"[0] != GENERAL[0];
    }
    assert MonthlyTotal(t, user, USD, OUTBOUND, today.month) == 0;
  }

  lemma RemittanceBooked(book: Rulebook, t: Totals, user: string, p: Person, currency: string, cap: int, today: Date)
    requires currency != USD && cap > 0 && AmountLimit(book, MONTHLY_CAP, p, currency) == Some(cap)
    requires Active(AmountLimit(book, DAILY_LIMIT, p, currency)) == None
    requires MonthRows(t, user, USD, OUTBOUND, today.month) == map[]
    ensures var next := Booked(t, Slot(user, currency, OUTBOUND, today), cap);
            && Step(book, t, Remittance(user, p, currency, cap, today)) == next
            && MonthRows(next, user, USD, OUTBOUND, today.month) == map[]
  {
    RemittanceAllowed(book, t, user, p, currency, cap, today);
    assert MonthRows(Booked(t, Slot(user, currency, OUTBOUND, today), cap), user, USD, OUTBOUND, today.month)
        == MonthRows(t, user, USD, OUTBOUND, today.month);
  }

  /** The conditions of one such remittance: a cap, no daily limit, and no dollar rows. */
  ghost predicate Uncounted(book: Rulebook, t: Totals, user: string, p: Person, currency: string, cap: int, today: Date) {
    && currency != USD && cap > 0 && AmountLimit(book, MONTHLY_CAP, p, currency) == Some(cap)
    && Active(AmountLimit(book, DAILY_LIMIT, p, currency)) == None
    && MonthRows(t, user, USD, OUTBOUND, today.month) == map[]
  }

  lemma RemittanceRun(book: Rulebook, t: Totals, user: string, p: Person, currency: string, cap: int, today: Date, op: Op, slot: Slot, n: nat)
    requires n > 0 && Uncounted(book, t, user, p, currency, cap, today)
    requires op == Remittance(user, p, currency, cap, today) && slot == Slot(user, currency, OUTBOUND, today)
    ensures var next := Booked(t, slot, cap);
            && Uncounted(book, next, user, p, currency, cap, today) && DailyTotal(next, slot) == DailyTotal(t, slot) + cap
            && AfterRun(book, t, Repeated(op, n)) == AfterRun(book, next, Repeated(op, n - 1))
  {
    RemittanceBooked(book, t, user, p, currency, cap, today);
    RunRepeated(book, t, op, n);
  }

  function Times(n: nat, cap: int): int { if n == 0 then 0 else cap + Times(n - 1, cap) }

  lemma {:induction false} TimesIs(n: nat, cap: int)
    ensures Times(n, cap) == n * cap
  {
    if n > 0 { TimesIs(n - 1, cap); }
  }

  lemma {:induction false} RemittancesAddUp(
    book: Rulebook, t: Totals, user: string, p: Person, currency: string, cap: int, today: Date, op: Op, slot: Slot, n: nat)
    requires Uncounted(book, t, user, p, currency, cap, today)
    requires op == Remittance(user, p, currency, cap, today) && slot == Slot(user, currency, OUTBOUND, today)
    ensures DailyTotal(AfterRun(book, t, Repeated(op, n)), slot) == DailyTotal(t, slot) + Times(n, cap)
    decreases n
  {
    if n > 0 {
      RemittanceRun(book, t, user, p, currency, cap, today, op, slot, n);
      RemittancesAddUp(book, Booked(t, slot, cap), user, p, currency, cap, today, op, slot, n - 1);
    }
  }

  /** Outbound transfers in another currency are booked under that currency and never counted against
      the cap: any number of transfers of the whole cap are let through in one day. */
  lemma CapMissesOtherCurrencies(
    book: Rulebook, t: Totals, user: string, p: Person, currency: string, cap: int, today: Date, op: Op, slot: Slot, n: nat)
    requires Uncounted(book, t, user, p, currency, cap, today)
    requires op == Remittance(user, p, currency, cap, today) && slot == Slot(user, currency, OUTBOUND, today)
    ensures DailyTotal(AfterRun(book, t, Repeated(op, n)), slot) == DailyTotal(t, slot) + n * cap
  {
    RemittancesAddUp(book, t, user, p, currency, cap, today, op, slot, n);
    TimesIs(n, cap);
  }

  // ---------------------------------------------------------------- where the cap fails open

  /** An outbound dollar transfer. */
  function Dollars(user: string, p: Person, amount: int): Transfer {
    Transfer(user, p, OUTBOUND, amount, USD, "travel", DOMESTIC, None)
  }

  lemma DollarVerdict(book: Rulebook, t: Totals, user: string, p: Person, amount: int, cap: int, today: Date, answers: Queries)
    requires cap > 0 && AmountLimit(book, MONTHLY_CAP, p, USD) == Some(cap) && Active(AmountLimit(book, DAILY_LIMIT, p, USD)) == None
    ensures Checked(book, t, Dollars(user, p, amount), today, answers) == None <==>
            (if answers.monthly then MonthlyTotal(t, user, USD, OUTBOUND, today.month) else 0) + amount <= cap
  {
    assert "travel" != MEDICAL && "travel" != EDUCATION && "travel" != INVESTMENT && "travel" != GENERAL by {
      assert "travel"[0] != MEDICAL[0] && "travel"[0] != EDUCATION[0] && "travel"[0] != INVESTMENT[0] && "travel"[0] != GENERAL[0];
    }
  }

  lemma RunOfTwo(book: Rulebook, t: Totals, a: Op, b: Op, user: string, month: int)
    ensures AfterRun(book, t, [a, b]) == Step(book, Step(book, t, a), b)
    ensures UncheckedByCap([a, b], user, month)
            == (if EscapesCap(a, user, month) then AmountOf(a) else 0) + (if EscapesCap(b, user, month) then AmountOf(b) else 0)
  {
    assert [a, b][1..] == [b] && [b][1..] == [];
    assert AfterRun(book, Step(book, t, a), [b]) == AfterRun(book, Step(book, Step(book, t, a), b), []);
    assert UncheckedByCap([b], user, month) == (if EscapesCap(b, user, month) then AmountOf(b) else 0) + UncheckedByCap([], user, month);
  }

  /** The bound of the monthly cap is reached: the cap is used up, and a transfer whose query fails comes
      on top. */
  lemma CapReached(book: Rulebook, user: string, p: Person, cap: int, blind: nat, today: Date, first: Op, second: Op)
    requires cap > 0 && AmountLimit(book, MONTHLY_CAP, p, USD) == Some(cap) && Active(AmountLimit(book, DAILY_LIMIT, p, USD)) == None
    requires blind <= cap && first == Single(Dollars(user, p, cap), today, today, true, Queries(true, true))
    requires second == Single(Dollars(user, p, blind), today, today, true, Queries(true, false))
    ensures Steady([first, second], user, p) && OneAtATime([first, second], today)
    ensures Sent(AfterRun(book, map[], [first, second]), user, today.month) == cap + UncheckedByCap([first, second], user, today.month) == cap + blind
  {
    var slot := Slot(user, USD, OUTBOUND, today);
    var t := Booked(map[], slot, cap);
    assert MonthRows(map[], user, USD, OUTBOUND, today.month) == map[] && RowsOf(map[], user, today.month) == map[];
    DollarVerdict(book, map[], user, p, cap, cap, today, Queries(true, true));
    DollarVerdict(book, t, user, p, blind, cap, today, Queries(true, false));
    BookedSent(map[], slot, cap, user, today.month);
    BookedSent(t, slot, blind, user, today.month);
    RunOfTwo(book, map[], first, second, user, today.month);
  }
}

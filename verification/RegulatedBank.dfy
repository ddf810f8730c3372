/** The shared ledger and the regulatory counters that feed on it, as one system: payments and outbound
    transfers are checked against the counters, the counters follow those that complete, and everything else
    the bank does goes on in between. */
module RegulatedBank {
  import opened Common
  import opened Ledger
  import opened Payments
  import G = Regulatory
  import R = RegulatoryRuns
  import B = BankRuns
  import O = Outbound
  import S = SharedLedger

  /** Who the users are, to the bank and to the regulator, and the rules. */
  datatype Setting = Setting(bank: B.Setting, people: map<string, G.Person>, book: G.Rulebook)

  datatype System = System(sys: S.Sys, totals: G.Totals)

  /** The terms of a check: what the request says, the rate, the dates, and which queries answer. */
  datatype Terms = Terms(purpose: string, destination: string, rate: Option<real>, checked: G.Date, booked: G.Date, answers: G.Queries)

  /** The verdict is not part of a payment or transfer here: `permitted` and `cleared` are overwritten. */
  datatype Op =
    | Pay(payment: Payment, terms: Terms)
    | PayMany(batch: Batch, booked: G.Date)
    | Send(user: string, currency: string, request: O.Request, terms: Terms)
    | Other(step: S.Step, booked: G.Date)

  /** Other steps are those without a counter. */
  predicate Uncounted(step: S.Step) { !step.Send? && (step.Teller? ==> !step.op.Pay? && !step.op.PayMany?) }

  function BookedOn(op: Op): G.Date { if op.Pay? || op.Send? then op.terms.booked else op.booked }

  function Start(op: Op): G.Date { if op.Pay? || op.Send? then op.terms.checked else op.booked }

  function AmountOf(op: Op): int {
    match op
    case Pay(q, _) => q.amount
    case PayMany(q, _) => Sum(q.items)
    case Send(_, _, r, _) => r.amount
    case Other(_, _) => 0
  }

  /** The counter of an operation. */
  function SlotOf(op: Op): Option<G.Slot> {
    match op
    case Pay(q, _) => Some(G.Slot(q.sender, q.currency, R.P2P, BookedOn(op)))
    case PayMany(q, _) => Some(G.Slot(q.sender, q.currency, R.P2P, BookedOn(op)))
    case Send(user, currency, _, _) => Some(G.Slot(user, currency, G.OUTBOUND, BookedOn(op)))
    case Other(_, _) => None
  }

  predicate Checks(op: Op) { op.Pay? || op.Send? }

  function UserOf(op: Op): string
    requires Checks(op)
  {
    if op.Pay? then op.payment.sender else op.user
  }

  function TransferOf(e: Setting, op: Op): G.Transfer
    requires Checks(op) && UserOf(op) in e.people
  {
    match op
    case Pay(q, t) => G.Transfer(q.sender, e.people[q.sender], R.P2P, q.amount, q.currency, t.purpose, G.DOMESTIC, t.rate)
    case Send(user, currency, r, t) => G.Transfer(user, e.people[user], G.OUTBOUND, r.amount, currency, t.purpose, t.destination, t.rate)
  }

  ghost predicate Permitted(e: Setting, s: System, op: Op)
    requires Checks(op)
  {
    UserOf(op) in e.people && G.Checked(e.book, s.totals, TransferOf(e, op), op.terms.checked, op.terms.answers) == None
  }

  /** What the bank is asked to do. */
  ghost function StepOf(e: Setting, s: System, op: Op): S.Step {
    match op
    case Pay(q, _) => S.Teller(B.Pay(q.(permitted := Permitted(e, s, op))))
    case PayMany(q, _) => S.Teller(B.PayMany(q))
    case Send(_, currency, r, _) => S.Send(r.(cleared := r.cleared && Permitted(e, s, op), asset := FormatAsset(currency)))
    case Other(step, _) => step
  }

  ghost predicate Done(e: Setting, s: System, op: Op) {
    match op
    case Pay(q, _) => AfterPayment(s.sys.Bank(), e.bank.users, e.bank.cover, q.(permitted := Permitted(e, s, op))).error == None
    case PayMany(q, _) => AfterBatch(s.sys.Bank(), e.bank.users, e.bank.cover, q, e.bank.normal).error == None
    case Send(_, _, _, _) => O.AfterOutbound(s.sys.books, StepOf(e, s, op).request).ok
    case Other(_, _) => false
  }

  ghost function Step(e: Setting, s: System, op: Op): System {
    System(S.AfterStep(s.sys, e.bank, StepOf(e, s, op)),
           if Done(e, s, op) && SlotOf(op).Some? then G.Booked(s.totals, SlotOf(op).value, AmountOf(op)) else s.totals)
  }

  ghost function AfterRun(e: Setting, s: System, ops: seq<Op>): System {
    if ops == [] then s else Step(e, AfterRun(e, s, ops[..|ops| - 1]), ops[|ops| - 1])
  }

  ghost predicate Legal(e: Setting, s: System, op: Op) { S.Legal(s.sys, e.bank, StepOf(e, s, op)) && (op.Other? ==> Uncounted(op.step)) }

  ghost predicate LegalRun(e: Setting, s: System, ops: seq<Op>) {
    ops == [] || (LegalRun(e, s, ops[..|ops| - 1]) && Legal(e, AfterRun(e, s, ops[..|ops| - 1]), ops[|ops| - 1]))
  }

  // ---------------------------------------------------------------- the bank's side

  ghost function Steps(e: Setting, s: System, ops: seq<Op>): seq<S.Step> {
    if ops == [] then []
    else
      var n := |ops| - 1;
      Steps(e, s, ops[..n]) + [StepOf(e, AfterRun(e, s, ops[..n]), ops[n])]
  }

  /** Seen from the bank the system is one of the shared ledger's own legal runs. */
  lemma {:induction false} BankSide(e: Setting, s: System, ops: seq<Op>)
    requires LegalRun(e, s, ops)
    ensures AfterRun(e, s, ops).sys == S.AfterRun(s.sys, e.bank, Steps(e, s, ops)) && S.LegalRun(s.sys, e.bank, Steps(e, s, ops))
  {
    if ops != [] {
      var n := |ops| - 1;
      BankSide(e, s, ops[..n]);
      BankSnoc(s.sys, e.bank, Steps(e, s, ops[..n]), StepOf(e, AfterRun(e, s, ops[..n]), ops[n]));
    }
  }

  lemma BankSnoc(s: S.Sys, e: B.Setting, steps: seq<S.Step>, step: S.Step)
    requires S.LegalRun(s, e, steps) && S.Legal(S.AfterRun(s, e, steps), e, step)
    ensures S.AfterRun(s, e, steps + [step]) == S.AfterStep(S.AfterRun(s, e, steps), e, step) && S.LegalRun(s, e, steps + [step])
  {
    assert (steps + [step])[..|steps|] == steps;
  }

  // ---------------------------------------------------------------- the regulator's side

  /** The bookings, as the regulator's model sees them. */
  ghost function Booking(e: Setting, s: System, op: Op): seq<R.Op> {
    if !Done(e, s, op) then []
    else if Checks(op) then
      if UserOf(op) in e.people then [R.Single(TransferOf(e, op), op.terms.checked, op.terms.booked, true, op.terms.answers)] else []
    else if op.PayMany? then [R.Batch(op.batch.sender, op.batch.currency, Sum(op.batch.items), op.booked)]
    else []
  }

  ghost function Bookings(e: Setting, s: System, ops: seq<Op>): seq<R.Op> {
    if ops == [] then []
    else
      var n := |ops| - 1;
      Bookings(e, s, ops[..n]) + Booking(e, AfterRun(e, s, ops[..n]), ops[n])
  }

  lemma {:induction false} RunSnoc(book: G.Rulebook, t: G.Totals, ops: seq<R.Op>, op: R.Op)
    ensures R.AfterRun(book, t, ops + [op]) == R.Step(book, R.AfterRun(book, t, ops), op)
    decreases |ops|
  {
    if ops == [] {
      assert ops + [op] == [op] && [op][1..] == [];
      assert R.AfterRun(book, R.Step(book, t, op), []) == R.Step(book, t, op);
    } else {
      assert (ops + [op])[1..] == ops[1..] + [op];
      RunSnoc(book, R.Step(book, t, ops[0]), ops[1..], op);
    }
  }

  lemma {:induction false} PositiveSum(items: seq<Item>)
    requires forall i :: 0 <= i < |items| ==> items[i].amount > 0
    ensures Sum(items) >= 0
  {
    if items != [] { PositiveSum(items[..|items| - 1]); }
  }

  /** What completes was permitted, and was for a positive amount. */
  lemma DoneMeans(e: Setting, s: System, op: Op)
    requires Done(e, s, op)
    ensures AmountOf(op) >= 0 && (Checks(op) ==> Permitted(e, s, op)) && SlotOf(op).Some?
  {
    if op.PayMany? { PositiveSum(op.batch.items); }
  }

  lemma NothingBooked(e: Setting, s: System, op: Op)
    requires Booking(e, s, op) == []
    ensures Step(e, s, op).totals == s.totals
  {
    if Done(e, s, op) { DoneMeans(e, s, op); }
  }

  lemma BookingShape(e: Setting, s: System, op: Op)
    ensures |Booking(e, s, op)| <= 1
    ensures Booking(e, s, op) != [] ==> R.Start(Booking(e, s, op)[0]) == Start(op) && Booking(e, s, op)[0].booked == BookedOn(op)
  {}

  lemma BookingSteady(e: Setting, s: System, op: Op, user: string)
    requires user in e.people && Booking(e, s, op) != []
    ensures R.SteadyOp(Booking(e, s, op)[0], user, e.people[user])
  {
    DoneMeans(e, s, op);
  }

  lemma BookingBooks(e: Setting, s: System, op: Op)
    requires Booking(e, s, op) != []
    ensures Step(e, s, op).totals == R.Step(e.book, s.totals, Booking(e, s, op)[0])
  {
    DoneMeans(e, s, op);
  }

  /** Seen from the regulator it is a run of checked transfers and unchecked batches. */
  lemma {:induction false} RegulatorSide(e: Setting, s: System, ops: seq<Op>, user: string)
    requires user in e.people
    ensures AfterRun(e, s, ops).totals == R.AfterRun(e.book, s.totals, Bookings(e, s, ops))
    ensures R.Steady(Bookings(e, s, ops), user, e.people[user])
  {
    if ops != [] {
      var n := |ops| - 1;
      var c, front := AfterRun(e, s, ops[..n]), Bookings(e, s, ops[..n]);
      RegulatorSide(e, s, ops[..n], user);
      if Booking(e, c, ops[n]) == [] {
        NothingBooked(e, c, ops[n]);
        assert Bookings(e, s, ops) == front;
      } else {
        var b := Booking(e, c, ops[n])[0];
        BookingShape(e, c, ops[n]);
        BookingSteady(e, c, ops[n], user);
        BookingBooks(e, c, ops[n]);
        assert Bookings(e, s, ops) == front + [b];
        RunSnoc(e.book, s.totals, front, b);
      }
    }
  }

  /** The operations run one at a time, as in the regulator's model. */
  predicate OneAtATime(ops: seq<Op>, last: G.Date) {
    && (forall i :: 0 <= i < |ops| ==> R.NotAfter(last, Start(ops[i])) && R.NotAfter(Start(ops[i]), BookedOn(ops[i])))
    && (forall i, j :: 0 <= i < j < |ops| ==> R.NotAfter(BookedOn(ops[i]), Start(ops[j])))
  }

  lemma {:induction false} BookingsBefore(e: Setting, s: System, ops: seq<Op>, end: G.Date)
    requires forall i :: 0 <= i < |ops| ==> R.NotAfter(BookedOn(ops[i]), end)
    ensures forall k :: 0 <= k < |Bookings(e, s, ops)| ==> R.NotAfter(Bookings(e, s, ops)[k].booked, end)
  {
    if ops != [] {
      var n := |ops| - 1;
      BookingsBefore(e, s, ops[..n], end);
      BookingShape(e, AfterRun(e, s, ops[..n]), ops[n]);
    }
  }

  lemma OrderSnoc(front: seq<R.Op>, b: R.Op, last: G.Date)
    requires R.OneAtATime(front, last) && R.NotAfter(last, R.Start(b)) && R.NotAfter(R.Start(b), b.booked)
    requires forall k :: 0 <= k < |front| ==> R.NotAfter(front[k].booked, R.Start(b))
    ensures R.OneAtATime(front + [b], last)
  {}

  lemma {:induction false} BookingsInOrder(e: Setting, s: System, ops: seq<Op>, last: G.Date)
    requires OneAtATime(ops, last)
    ensures R.OneAtATime(Bookings(e, s, ops), last)
  {
    if ops != [] {
      var n := |ops| - 1;
      var front, b := Bookings(e, s, ops[..n]), Booking(e, AfterRun(e, s, ops[..n]), ops[n]);
      assert OneAtATime(ops[..n], last) by { assert forall i :: 0 <= i < n ==> ops[..n][i] == ops[i]; }
      BookingsInOrder(e, s, ops[..n], last);
      BookingsBefore(e, s, ops[..n], Start(ops[n]));
      BookingShape(e, AfterRun(e, s, ops[..n]), ops[n]);
      if b == [] {
        assert front + b == front;
      } else {
        assert b == [b[0]];
        OrderSnoc(front, b[0], last);
      }
    }
  }

  // ---------------------------------------------------------------- what left the wallet

  /** What an operation takes from its sender for good. */
  ghost function Moved(e: Setting, s: System, op: Op): int {
    match op
    case Pay(q, _) => if Done(e, s, op) then q.amount else 0
    case PayMany(q, _) =>
      var paid := AfterBatch(s.sys.Bank(), e.bank.users, e.bank.cover, q, e.bank.normal).paid;
      if paid <= |q.items| then Sum(q.items[..paid]) else 0
    case Send(_, _, r, _) => if O.Fate(s.sys.books, StepOf(e, s, op).request).InTransit? then r.amount else 0
    case Other(_, _) => 0
  }

  /** What payments and transfers took out of a wallet, slot by slot. */
  ghost function MovedIn(e: Setting, s: System, ops: seq<Op>, slot: G.Slot): int {
    if ops == [] then 0
    else
      var n := |ops| - 1;
      MovedIn(e, s, ops[..n], slot) + if SlotOf(ops[n]) == Some(slot) then Moved(e, AfterRun(e, s, ops[..n]), ops[n]) else 0
  }

  /** The part of it that no counter saw: batches that stopped half-way, and settlements that went through
      without being acknowledged. */
  ghost function UnseenIn(e: Setting, s: System, ops: seq<Op>, slot: G.Slot): int {
    if ops == [] then 0
    else
      var n := |ops| - 1;
      var c := AfterRun(e, s, ops[..n]);
      UnseenIn(e, s, ops[..n], slot) + if SlotOf(ops[n]) == Some(slot) && !Done(e, c, ops[n]) then Moved(e, c, ops[n]) else 0
  }

  lemma BatchMoved(e: Setting, s: System, op: Op)
    requires WalletsDistinct(e.bank.users) && S.Ok(s.sys) && Legal(e, s, op) && op.PayMany? && Done(e, s, op)
    ensures Moved(e, s, op) == AmountOf(op)
  {
    var q := op.batch;
    BatchExactly(s.sys.Bank(), e.bank.users, e.bank.cover, q, e.bank.normal, q.sender, "");
    assert q.items[..|q.items|] == q.items;
  }

  lemma CountedWhenDone(e: Setting, s: System, op: Op)
    requires WalletsDistinct(e.bank.users) && S.Ok(s.sys) && Legal(e, s, op)
    ensures Done(e, s, op) ==> Moved(e, s, op) == AmountOf(op)
  {
    if op.PayMany? && Done(e, s, op) {
      BatchMoved(e, s, op);
    } else if op.Send? {
      O.OutboundTrace(s.sys.books, StepOf(e, s, op).request);
    }
  }

  /** The counters follow the money: a day's total grows by exactly what payments and transfers took out of
      the wallet, less what no counter saw. */
  lemma {:induction false} CountersFollow(e: Setting, s: System, ops: seq<Op>, slot: G.Slot, u: string)
    requires WalletsDistinct(e.bank.users) && S.Ok(s.sys) && LegalRun(e, s, ops) && u in e.bank.users
    ensures S.Ok(AfterRun(e, s, ops).sys)
    ensures G.DailyTotal(AfterRun(e, s, ops).totals, slot) + UnseenIn(e, s, ops, slot)
            == G.DailyTotal(s.totals, slot) + MovedIn(e, s, ops, slot)
  {
    if ops != [] {
      var n := |ops| - 1;
      var c := AfterRun(e, s, ops[..n]);
      CountersFollow(e, s, ops[..n], slot, u);
      CounterStep(e, c, ops[n], slot);
      StillOk(e, c, ops[n], u);
    }
  }

  lemma StillOk(e: Setting, s: System, op: Op, u: string)
    requires WalletsDistinct(e.bank.users) && S.Ok(s.sys) && Legal(e, s, op) && u in e.bank.users
    ensures S.Ok(Step(e, s, op).sys)
  {
    S.StepKeeps(s.sys, e.bank, StepOf(e, s, op), u, "");
  }

  lemma CounterStep(e: Setting, s: System, op: Op, slot: G.Slot)
    requires WalletsDistinct(e.bank.users) && S.Ok(s.sys) && Legal(e, s, op)
    ensures G.DailyTotal(Step(e, s, op).totals, slot) == G.DailyTotal(s.totals, slot)
              + if SlotOf(op) == Some(slot) && Done(e, s, op) then Moved(e, s, op) else 0
  {
    CountedWhenDone(e, s, op);
  }

  /** The whole system: what payments and transfers take out of a user's wallet on a day exceeds the
      resolved limit at most by what was booked unchecked and what no counter saw; and all the while the shared
      ledger keeps everything it keeps. */
  lemma RegulatedRun(e: Setting, s: System, ops: seq<Op>, slot: G.Slot, limit: int, last: G.Date, u: string, a: string)
    requires WalletsDistinct(e.bank.users) && S.Ok(s.sys) && LegalRun(e, s, ops) && OneAtATime(ops, last) && R.Tidy(s.totals, last)
    requires slot.user in e.people && u in e.bank.users
    requires limit > 0 && G.AmountLimit(e.book, G.DAILY_LIMIT, e.people[slot.user], slot.currency) == Some(limit)
    requires 0 <= G.DailyTotal(s.totals, slot) <= limit
    ensures MovedIn(e, s, ops, slot) <= limit + R.Unchecked(Bookings(e, s, ops), slot) + UnseenIn(e, s, ops, slot)
    ensures S.Keeps(s.sys, AfterRun(e, s, ops).sys, e.bank, u, a, S.Fees(Steps(e, s, ops)), S.Flows(s.sys, e.bank, Steps(e, s, ops), u, a))
  {
    CountersFollow(e, s, ops, slot, u);
    RegulatorSide(e, s, ops, slot.user);
    BookingsInOrder(e, s, ops, last);
    R.DailyLimitHolds(e.book, s.totals, Bookings(e, s, ops), slot, e.people[slot.user], limit, last, 0);
    BankSide(e, s, ops);
    S.EveryRun(s.sys, e.bank, Steps(e, s, ops), u, a);
  }

  /** The same for the monthly cap on outbound dollars. */
  lemma CappedRun(e: Setting, s: System, ops: seq<Op>, user: string, month: int, cap: int, last: G.Date)
    requires OneAtATime(ops, last) && R.Tidy(s.totals, last) && user in e.people
    requires cap > 0 && G.AmountLimit(e.book, G.MONTHLY_CAP, e.people[user], G.USD) == Some(cap) && R.Sent(s.totals, user, month) <= cap
    ensures R.Sent(AfterRun(e, s, ops).totals, user, month) <= cap + R.UncheckedByCap(Bookings(e, s, ops), user, month)
  {
    RegulatorSide(e, s, ops, user);
    BookingsInOrder(e, s, ops, last);
    R.MonthlyCapHolds(e.book, s.totals, Bookings(e, s, ops), user, e.people[user], month, cap, last, 0);
  }
}

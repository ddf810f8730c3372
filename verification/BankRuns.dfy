/** Whole runs of the retail bank: every overdraft operation, payments, batches and top-ups by any
    number of users, one at a time, with no ledger acknowledgement lost. */
module BankRuns {
  import opened Common
  import opened Chart
  import opened Ledger
  import opened Overdraft
  import opened Payments

  datatype Op =
    | OptIn(user: string, profile: Option<Profile>)
    | OptOut(user: string)
    | Cover(user: string, shortfall: int, d: Delivery)
    | Repay(user: string, amount: int, d: Delivery)
    | Inflow(user: string, credit: int, d: Delivery)
    | AccrueFee(user: string, fee: int)
    | Pay(payment: Payment)
    | PayMany(batch: Batch)
    | TopUp(user: string, amount: int, asset: string, d: Delivery)

  /** The fixed surroundings of a run: who the users are, whether overdrafts are configured, and how
      recipient identifiers are normalised. */
  datatype Setting = Setting(users: Users, cover: bool, normal: string -> string)

  function Funder(user: string, e: Setting, amount: int, asset: string): Posting
    requires user in e.users
  {
    Posting(World, Main(e.users[user].wallet), amount, asset)
  }

  predicate Known(e: Setting, op: Op) {
    match op
    case Pay(_) => true
    case PayMany(_) => true
    case _ => op.user in e.users
  }

  function AfterOp(b: Bank, e: Setting, op: Op): Bank
    requires Known(e, op)
  {
    match op
    case OptIn(u, p) => AfterOptIn(b, u, p).bank
    case OptOut(u) => AfterOptOut(b, u).bank
    case Cover(u, n, d) => AfterCover(b, u, e.users[u].wallet, n, ETB, d).bank
    case Repay(u, n, d) => AfterRepay(b, u, e.users[u].wallet, n, d).bank
    case Inflow(u, n, d) => AfterAutoRepay(b, u, e.users[u].wallet, n, d)
    case AccrueFee(u, n) => AfterFee(b, u, n)
    case Pay(q) => AfterPayment(b, e.users, e.cover, q).bank
    case PayMany(q) => AfterBatch(b, e.users, e.cover, q, e.normal).bank
    case TopUp(u, n, s, d) => b.(books := Submit(b.books, [Funder(u, e, n, s)], d).books)
  }

  /** Draws are positive, fees accrue only while the facility is used, no acknowledgement is lost. */
  predicate Legal(b: Bank, e: Setting, op: Op) {
    && Known(e, op)
    && match op
       case OptIn(_, _) => true
       case OptOut(_) => true
       case Cover(_, n, d) => n > 0 && !d.Lost?
       case Repay(_, _, d) => !d.Lost?
       case Inflow(_, _, d) => !d.Lost?
       case AccrueFee(u, n) => n >= 0 && u in b.rows && b.rows[u].status.Used?
       case Pay(q) => !q.draw.Lost? && !q.debit.Lost? && !q.repay.Lost?
       case PayMany(q) => !q.draw.Lost? && NothingLost(q.items)
       case TopUp(_, _, _, d) => !d.Lost?
  }

  function AfterRun(b: Bank, e: Setting, ops: seq<Op>): Bank
    requires forall i :: 0 <= i < |ops| ==> Known(e, ops[i])
  {
    if ops == [] then b else AfterOp(AfterRun(b, e, ops[..|ops| - 1]), e, ops[|ops| - 1])
  }

  predicate LegalRun(b: Bank, e: Setting, ops: seq<Op>) {
    ops == [] || (&& (forall i :: 0 <= i < |ops| ==> Known(e, ops[i]))
                  && LegalRun(b, e, ops[..|ops| - 1])
                  && Legal(AfterRun(b, e, ops[..|ops| - 1]), e, ops[|ops| - 1]))
  }

  /** Fees accrued over a run. */
  function Fees(ops: seq<Op>): int {
    if ops == [] then 0
    else Fees(ops[..|ops| - 1]) + if ops[|ops| - 1].AccrueFee? then ops[|ops| - 1].fee else 0
  }

  /** What an operation is meant to do to one user's worth in one asset: payments that complete move
      their amounts, fees and top-ups count, and drawing or repaying an overdraft changes nothing. */
  function Effect(b: Bank, e: Setting, op: Op, u: string, s: string): int
    requires Known(e, op)
  {
    match op
    case Pay(q) => Ideal(q, AfterPayment(b, e.users, e.cover, q).error.None?, u, s)
    case PayMany(q) =>
      var paid := AfterBatch(b, e.users, e.cover, q, e.normal).paid;
      if s != FormatAsset(q.currency) || paid > |q.items| then 0
      else For(q.items[..paid], u) - if u == q.sender then Sum(q.items[..paid]) else 0
    case AccrueFee(v, n) => if u == v && s == ETB then -n else 0
    case TopUp(v, n, t, d) => if u == v && s == t && !d.Dropped? && n >= 0 then n else 0
    case _ => 0
  }

  function Effects(b: Bank, e: Setting, ops: seq<Op>, u: string, s: string): int
    requires forall i :: 0 <= i < |ops| ==> Known(e, ops[i])
  {
    if ops == [] then 0
    else Effects(b, e, ops[..|ops| - 1], u, s) + Effect(AfterRun(b, e, ops[..|ops| - 1]), e, ops[|ops| - 1], u, s)
  }

  lemma RepaymentStep(b: Bank, e: Setting, user: string, amount: int, d: Delivery, u: string, s: string)
    requires WalletsDistinct(e.users) && BankOk(b) && user in e.users && u in e.users && !d.Lost?
    requires user in b.rows && 0 <= amount <= Owed(b.rows[user])
    ensures var c := AfterRepayment(b, user, e.users[user].wallet, amount, d).bank;
            BankOk(c) && Backing(c) == Backing(b) && Worth(c, e.users, u, s) == Worth(b, e.users, u, s)
  {
    SubmitOne(b.books, Repaying(e.users[user].wallet, amount), d);
    ReducedExactly(b.rows[user], amount);
    RepaymentKeeps(b, user, e.users[user].wallet, amount, d);
  }

  lemma CoverStep(b: Bank, e: Setting, user: string, shortfall: int, d: Delivery, u: string, s: string)
    requires WalletsDistinct(e.users) && BankOk(b) && user in e.users && u in e.users && shortfall > 0 && !d.Lost?
    ensures var c := AfterCover(b, user, e.users[user].wallet, shortfall, ETB, d).bank;
            BankOk(c) && Backing(c) == Backing(b) && Worth(c, e.users, u, s) == Worth(b, e.users, u, s)
  {
    CoverKeeps(b, user, e.users[user].wallet, shortfall, d);
    CoverWorth(b, e, user, shortfall, d, u, s);
  }

  lemma CoverWorth(b: Bank, e: Setting, user: string, shortfall: int, d: Delivery, u: string, s: string)
    requires WalletsDistinct(e.users) && Solvent(b.books.balances) && user in e.users && u in e.users && shortfall > 0 && !d.Lost?
    ensures var c := AfterCover(b, user, e.users[user].wallet, shortfall, ETB, d).bank;
            Solvent(c.books.balances) && Worth(c, e.users, u, s) == Worth(b, e.users, u, s)
  {
    SubmitOne(b.books, Drawing(e.users[user].wallet, shortfall, ETB), d);
  }

  lemma PaymentStep(b: Bank, e: Setting, q: Payment, u: string, s: string)
    requires WalletsDistinct(e.users) && BankOk(b) && u in e.users && !q.draw.Lost? && !q.debit.Lost? && !q.repay.Lost?
    ensures var p := AfterPayment(b, e.users, e.cover, q);
            && BankOk(p.bank) && Backing(p.bank) == Backing(b)
            && Worth(p.bank, e.users, u, s) == Worth(b, e.users, u, s) + Ideal(q, p.error.None?, u, s)
  {
    SoundPayment(b, e.users, e.cover, q, u, s);
    if Refusal(e.users, q).None? {
      var f := Funding(b, e.users, e.cover, q);
      FundingKeeps(b, e.cover, q.sender, e.users[q.sender].wallet, q.amount, q.currency, q.read, q.draw);
      DeliveryKeeps(f.bank, e.cover, e.users[q.sender].wallet, e.users[q.recipient.value].wallet,
                    q.recipient.value, q.amount, q.currency, q.debit, q.repay);
    }
  }

  lemma TopUpStep(b: Bank, e: Setting, user: string, amount: int, asset: string, d: Delivery, u: string, s: string)
    requires WalletsDistinct(e.users) && BankOk(b) && user in e.users && u in e.users
    ensures var c := b.(books := Submit(b.books, [Funder(user, e, amount, asset)], d).books);
            && BankOk(c) && Backing(c) == Backing(b)
            && Worth(c, e.users, u, s) == Worth(b, e.users, u, s) + if u == user && s == asset && !d.Dropped? && amount >= 0 then amount else 0
  {
    SubmitOne(b.books, Funder(user, e, amount, asset), d);
  }

  /** What every operation keeps. */
  lemma Step(b: Bank, e: Setting, op: Op, u: string, s: string)
    requires WalletsDistinct(e.users) && BankOk(b) && u in e.users && Legal(b, e, op)
    ensures var c := AfterOp(b, e, op);
            && BankOk(c)
            && Backing(c) == Backing(b) + (if op.AccrueFee? then op.fee else 0)
            && Worth(c, e.users, u, s) == Worth(b, e.users, u, s) + Effect(b, e, op, u, s)
  {
    match op
    case OptIn(v, p) => OptInKeeps(b, v, p);
    case OptOut(v) => OptOutKeeps(b, v);
    case Cover(v, n, d) => CoverStep(b, e, v, n, d, u, s);
    case Repay(v, n, d) =>
      if n > 0 && v in b.rows && b.rows[v].status.Used? {
        RepaymentStep(b, e, v, Min(n, Owed(b.rows[v])), d, u, s);
      }
    case Inflow(v, n, d) =>
      if AutoAmount(b.rows, v, n) > 0 {
        RepaymentStep(b, e, v, AutoAmount(b.rows, v, n), d, u, s);
      }
    case AccrueFee(v, n) => FeeKeeps(b, v, n);
    case Pay(q) => PaymentStep(b, e, q, u, s);
    case PayMany(q) => BatchExactly(b, e.users, e.cover, q, e.normal, u, s);
    case TopUp(v, n, t, d) => TopUpStep(b, e, v, n, t, d, u, s);
  }

  /** In every reachable state the overdraft rows satisfy their state machine, nobody is overdrawn,
      ledger and table agree (capital plus everything owed is the initial amount plus the fees ever
      accrued), and each user's worth is the initial one plus the effects of the run. */
  lemma {:induction false} EveryRun(b: Bank, e: Setting, ops: seq<Op>, u: string, s: string)
    requires WalletsDistinct(e.users) && BankOk(b) && u in e.users && LegalRun(b, e, ops)
    ensures forall i :: 0 <= i < |ops| ==> Known(e, ops[i])
    ensures var c := AfterRun(b, e, ops);
            && BankOk(c)
            && Backing(c) == Backing(b) + Fees(ops)
            && Worth(c, e.users, u, s) == Worth(b, e.users, u, s) + Effects(b, e, ops, u, s)
  {
    if ops != [] {
      var n := |ops| - 1;
      EveryRun(b, e, ops[..n], u, s);
      Step(AfterRun(b, e, ops[..n]), e, ops[n], u, s);
    }
  }
}

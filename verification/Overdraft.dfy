/** The overdraft facility: database row, ledger capital pool, and the operations that move both
    (internal/services/overdraft/service.go, internal/repository/overdraft.go). */
module Overdraft {
  import opened Common
  import opened Chart
  import opened Ledger
  import Sums

  const LIMIT_PCT_OF_LOAN := 10
  const MAX_LIMIT_CENTS := 5_000_000
  const MIN_TRUST_SCORE := 600
  const ETB := "ETB/2"

  datatype Status = Inactive | Active | Used | Suspended
  datatype Row = Row(limit: int, used: int, accrued: int, status: Status)
  datatype Profile = Profile(blacklisted: bool, trustScore: int, approvedLimit: int)

  datatype Error = NotEligible | AlreadyActive | InUse | NotActive | LimitExceeded | EtbOnly | ZeroAmount | LedgerFailed

  /** The ledger and the overdrafts table, keyed by user. */
  datatype Bank = Bank(books: Books, rows: map<string, Row>)

  datatype Outcome = Outcome(bank: Bank, error: Option<Error>)

  predicate IsEtb(asset: string) { asset == "ETB" || asset == ETB }

  function Owed(r: Row): int { r.used + r.accrued }

  function OwedBy(rows: map<string, Row>, user: string): int { if user in rows then Owed(rows[user]) else 0 }

  /** Ten percent of the approved loan limit, capped; zero without a usable profile. */
  function Eligibility(p: Option<Profile>): (limit: int)
    ensures 0 <= limit <= MAX_LIMIT_CENTS
  {
    if p.None? || p.value.blacklisted || p.value.trustScore <= MIN_TRUST_SCORE || p.value.approvedLimit <= 0 then 0
    else Min(p.value.approvedLimit * LIMIT_PCT_OF_LOAN / 100, MAX_LIMIT_CENTS)
  }

  /** Upsert: limit and status are written, used and accrued survive (zero on insert). */
  function Upsert(rows: map<string, Row>, user: string, limit: int, status: Status): map<string, Row> {
    rows[user := if user in rows then rows[user].(limit := limit, status := status) else Row(limit, 0, 0, status)]
  }

  function AfterOptIn(b: Bank, user: string, p: Option<Profile>): Outcome {
    var limit := Eligibility(p);
    if limit <= 0 then Outcome(b, Some(NotEligible))
    else if user in b.rows && b.rows[user].status.Active? then Outcome(b, Some(AlreadyActive))
    else if user in b.rows && b.rows[user].status.Used? then Outcome(b, Some(InUse))
    else Outcome(b.(rows := Upsert(b.rows, user, limit, Active)), None)
  }

  function AfterOptOut(b: Bank, user: string): Outcome {
    if user !in b.rows then Outcome(b, Some(NotActive))
    else if b.rows[user].used > 0 || b.rows[user].accrued > 0 then Outcome(b, Some(InUse))
    else if b.rows[user].status.Inactive? then Outcome(b, Some(NotActive))
    else Outcome(b.(rows := Upsert(b.rows, user, b.rows[user].limit, Inactive)), None)
  }

  function Drawing(wallet: string, amount: int, asset: string): Posting {
    Posting(OverdraftCapital, Main(wallet), amount, asset)
  }

  function Repaying(wallet: string, amount: int): Posting {
    Posting(Main(wallet), OverdraftCapital, amount, ETB)
  }

  /** The row checks of UseCover, before the ledger is called. */
  function CoverRefusal(rows: map<string, Row>, user: string, shortfall: int, asset: string): Option<Error> {
    if !IsEtb(asset) then Some(EtbOnly)
    else if user !in rows || !(rows[user].status.Active? || rows[user].status.Used?) then Some(NotActive)
    else if rows[user].limit - rows[user].used < shortfall then Some(LimitExceeded)
    else None
  }

  function AfterCover(b: Bank, user: string, wallet: string, shortfall: int, asset: string, d: Delivery): Outcome {
    var refusal := CoverRefusal(b.rows, user, shortfall, asset);
    if refusal.Some? then Outcome(b, refusal)
    else
      var r := Submit(b.books, [Drawing(wallet, shortfall, asset)], d);
      if !r.ok then Outcome(b.(books := r.books), Some(LedgerFailed))
      else
        var row := b.rows[user];
        Outcome(Bank(r.books, b.rows[user := row.(used := row.used + shortfall, status := Used)]), None)
  }

  /** Fee first, then principal; the facility is Used while anything is owed. */
  function Reduced(row: Row, amount: int): Row {
    var fee := Min(amount, row.accrued);
    var principal := Min(amount - fee, row.used);
    var used, accrued := row.used - principal, Max(row.accrued - fee, 0);
    row.(used := used, accrued := accrued, status := if used > 0 || accrued > 0 then Used else Active)
  }

  function AfterRepayment(b: Bank, user: string, wallet: string, amount: int, d: Delivery): Outcome
    requires user in b.rows
  {
    var r := Submit(b.books, [Repaying(wallet, amount)], d);
    if !r.ok then Outcome(b.(books := r.books), Some(LedgerFailed))
    else Outcome(Bank(r.books, b.rows[user := Reduced(b.rows[user], amount)]), None)
  }

  function AfterRepay(b: Bank, user: string, wallet: string, amount: int, d: Delivery): Outcome {
    if amount <= 0 then Outcome(b, Some(ZeroAmount))
    else if user !in b.rows || !b.rows[user].status.Used? then Outcome(b, Some(NotActive))
    else AfterRepayment(b, user, wallet, Min(amount, Owed(b.rows[user])), d)
  }

  /** What an inflow triggers: nothing, or a repayment of the smaller of the credit and the debt. */
  function AutoAmount(rows: map<string, Row>, user: string, credit: int): int {
    if user in rows && rows[user].status.Used? && Owed(rows[user]) > 0 then Max(Min(credit, Owed(rows[user])), 0) else 0
  }

  function AfterAutoRepay(b: Bank, user: string, wallet: string, credit: int, d: Delivery): Bank {
    var repay := AutoAmount(b.rows, user, credit);
    if repay <= 0 then b else AfterRepayment(b, user, wallet, repay, d).bank
  }

  function AfterFee(b: Bank, user: string, fee: int): Bank {
    if user !in b.rows then b
    else b.(rows := b.rows[user := b.rows[user].(accrued := b.rows[user].accrued + fee)])
  }

  // ---------------------------------------------------------------- the service object

  class Service {
    const ledger: Client
    var rows: map<string, Row>

    ghost function State(): Bank
      reads this, ledger
    {
      Bank(ledger.State(), rows)
    }

    constructor (ledger: Client)
      ensures this.ledger == ledger && rows == map[]
    {
      this.ledger := ledger;
      rows := map[];
    }

    method OptIn(user: string, profile: Option<Profile>) returns (error: Option<Error>)
      modifies this
      ensures Outcome(State(), error) == AfterOptIn(old(State()), user, profile)
    {
      var limit := 0;
      if profile.Some? && !profile.value.blacklisted && profile.value.trustScore > MIN_TRUST_SCORE && profile.value.approvedLimit > 0 {
        limit := profile.value.approvedLimit * LIMIT_PCT_OF_LOAN / 100;
        if limit > MAX_LIMIT_CENTS { limit := MAX_LIMIT_CENTS; }
      }
      if limit <= 0 { return Some(NotEligible); }
      if user in rows && rows[user].status.Active? { return Some(AlreadyActive); }
      if user in rows && rows[user].status.Used? { return Some(InUse); }
      rows := Upsert(rows, user, limit, Active);
      error := None;
    }

    method OptOut(user: string) returns (error: Option<Error>)
      modifies this
      ensures Outcome(State(), error) == AfterOptOut(old(State()), user)
    {
      if user !in rows { return Some(NotActive); }
      var o := rows[user];
      if o.used > 0 || o.accrued > 0 { return Some(InUse); }
      if o.status.Inactive? { return Some(NotActive); }
      rows := Upsert(rows, user, o.limit, Inactive);
      error := None;
    }

    method UseCover(user: string, wallet: string, shortfall: int, asset: string, d: Delivery) returns (error: Option<Error>)
      modifies this, ledger
      ensures Outcome(State(), error) == AfterCover(old(State()), user, wallet, shortfall, asset, d)
    {
      if !IsEtb(asset) { return Some(EtbOnly); }
      if user !in rows || !(rows[user].status.Active? || rows[user].status.Used?) { return Some(NotActive); }
      var o := rows[user];
      var available := o.limit - o.used;
      if available < shortfall { return Some(LimitExceeded); }
      var ok := ledger.CreateTransaction([Drawing(wallet, shortfall, asset)], d);
      if !ok { return Some(LedgerFailed); }
      rows := rows[user := o.(used := o.used + shortfall, status := Used)];
      error := None;
    }

    method Repay(user: string, wallet: string, amount: int, d: Delivery) returns (error: Option<Error>)
      modifies this, ledger
      ensures Outcome(State(), error) == AfterRepay(old(State()), user, wallet, amount, d)
    {
      if amount <= 0 { return Some(ZeroAmount); }
      if user !in rows || !rows[user].status.Used? { return Some(NotActive); }
      var o := rows[user];
      var totalOwed := o.used + o.accrued;
      var amountCents := amount;
      if amountCents > totalOwed { amountCents := totalOwed; }
      var ok := ledger.CreateTransaction([Repaying(wallet, amountCents)], d);
      if !ok { return Some(LedgerFailed); }
      UpdateRepaid(user, amountCents);
      error := None;
    }

    method AutoRepayOnInflow(user: string, wallet: string, credit: int, d: Delivery) returns (repaid: int)
      modifies this, ledger
      ensures State() == AfterAutoRepay(old(State()), user, wallet, credit, d)
      ensures var due := AutoAmount(old(rows), user, credit);
              repaid == if Submit(old(ledger.State()), [Repaying(wallet, due)], d).ok then due else 0
    {
      if user !in rows || !rows[user].status.Used? { return 0; }
      var o := rows[user];
      var totalOwed := o.used + o.accrued;
      if totalOwed <= 0 { return 0; }
      var repay := credit;
      if repay > totalOwed { repay := totalOwed; }
      if repay <= 0 { return 0; }
      var ok := ledger.CreateTransaction([Repaying(wallet, repay)], d);
      if !ok { return 0; }
      UpdateRepaid(user, repay);
      repaid := repay;
    }

    /** The common tail of both repayments: fee first, then principal, then the new status. */
    method UpdateRepaid(user: string, amount: int)
      requires user in rows
      modifies this
      ensures rows == old(rows)[user := Reduced(old(rows)[user], amount)]
    {
      var o := rows[user];
      var feeRepay := amount;
      if feeRepay > o.accrued { feeRepay := o.accrued; }
      var principalRepay := amount - feeRepay;
      if principalRepay > o.used { principalRepay := o.used; }
      var newUsed, newAccrued := o.used - principalRepay, o.accrued - feeRepay;
      if newAccrued < 0 { newAccrued := 0; }
      var newStatus := Active;
      if newUsed > 0 || newAccrued > 0 { newStatus := Used; }
      rows := rows[user := o.(used := newUsed, accrued := newAccrued, status := newStatus)];
    }

    method UpdateFeeAccrual(user: string, fee: int)
      modifies this
      ensures State() == AfterFee(old(State()), user, fee)
    {
      if user in rows {
        rows := rows[user := rows[user].(accrued := rows[user].accrued + fee)];
      }
    }
  }

  // ---------------------------------------------------------------- the row's state machine

  /** What every reachable row satisfies. */
  predicate RowOk(r: Row) {
    && 0 <= r.used <= r.limit <= MAX_LIMIT_CENTS
    && 0 <= r.accrued
    && (r.status.Used? <==> Owed(r) > 0)
  }

  predicate RowsOk(rows: map<string, Row>) { forall u :: u in rows ==> RowOk(rows[u]) }

  /** A payment of at most what is owed lowers the debt by exactly that much, and touches the
      principal only once the fee is gone. */
  lemma ReducedExactly(r: Row, amount: int)
    requires RowOk(r) && 0 <= amount <= Owed(r)
    ensures Owed(Reduced(r, amount)) == Owed(r) - amount
    ensures Reduced(r, amount).used < r.used ==> Reduced(r, amount).accrued == 0
    ensures Reduced(r, amount).limit == r.limit
    ensures RowOk(Reduced(r, amount))
  {}

  // ---------------------------------------------------------------- what each operation does

  /** Everything but one user's row is as it was, and that row has changed in the named fields only. */
  ghost predicate RowWritten(before: map<string, Row>, after: map<string, Row>, user: string, limit: int, used: int, accrued: int, status: Status) {
    after.Keys == before.Keys + {user} && after[user] == Row(limit, used, accrued, status)
    && forall u :: u in before && u != user ==> after[u] == before[u]
  }

  /** Opting in goes through exactly for an eligible user whose facility is neither active nor in use.
      The limit is a tenth of the approval, at most 50,000 birr, and what was owed before stays owed. */
  lemma OptInExactly(b: Bank, user: string, p: Option<Profile>)
    ensures var o := AfterOptIn(b, user, p);
            var eligible := p.Some? && !p.value.blacklisted && p.value.trustScore > 600 && p.value.approvedLimit >= 10;
            var busy := user in b.rows && (b.rows[user].status.Active? || b.rows[user].status.Used?);
            && (o.error.None? <==> eligible && !busy)
            && (o.error == Some(NotEligible) <==> !eligible)
            && (o.error == Some(InUse) <==> eligible && user in b.rows && b.rows[user].status.Used?)
            && (o.error.Some? ==> o.bank == b)
            && (o.error.None? ==>
                  && o.bank.books == b.books
                  && RowWritten(b.rows, o.bank.rows, user, Min(p.value.approvedLimit / 10, 5_000_000),
                                if user in b.rows then b.rows[user].used else 0, if user in b.rows then b.rows[user].accrued else 0, Active))
  {
    EligibilityExactly(p);
  }

  /** Opting out goes through exactly when there is a facility, not yet inactive, on which nothing is owed. */
  lemma OptOutExactly(b: Bank, user: string)
    requires RowsOk(b.rows)
    ensures var o := AfterOptOut(b, user);
            && (o.error.None? <==> user in b.rows && OwedBy(b.rows, user) == 0 && !b.rows[user].status.Inactive?)
            && (o.error == Some(InUse) <==> OwedBy(b.rows, user) > 0)
            && (o.error.Some? ==> o.bank == b)
            && (o.error.None? ==> o.bank.books == b.books && RowWritten(b.rows, o.bank.rows, user, b.rows[user].limit, 0, 0, Inactive))
  {}

  /** A draw goes through exactly when it is acknowledged, in birr, from an active or used facility, within
      what the limit leaves, and covered by the pool. Then the pool pays it into the wallet and the row owes it. */
  lemma CoverExactly(b: Bank, user: string, wallet: string, shortfall: int, asset: string, d: Delivery)
    ensures var o := AfterCover(b, user, wallet, shortfall, asset, d);
            var open := user in b.rows && (b.rows[user].status.Active? || b.rows[user].status.Used?);
            var allowed := (asset == "ETB" || asset == "ETB/2") && open && shortfall <= b.rows[user].limit - b.rows[user].used;
            var covered := 0 <= shortfall <= Bal(b.books.balances, OverdraftCapital, asset);
            && (o.error.None? <==> allowed && covered && d.Acked?)
            && (o.error.None? ==>
                  && Shifted(b.books.balances, o.bank.books.balances, OverdraftCapital, Main(wallet), shortfall, asset)
                  && RowWritten(b.rows, o.bank.rows, user, b.rows[user].limit, b.rows[user].used + shortfall, b.rows[user].accrued, Used))
            && (o.error.Some? ==> o.bank.rows == b.rows && (o.bank.books == b.books <==> !(allowed && covered && d.Lost?)))
            && (o.error == Some(EtbOnly) <==> asset != "ETB" && asset != "ETB/2")
            && (o.error == Some(NotActive) <==> (asset == "ETB" || asset == "ETB/2") && !open)
            && (o.error == Some(LimitExceeded) <==> (asset == "ETB" || asset == "ETB/2") && open && !allowed)
  {
    SubmitOne(b.books, Drawing(wallet, shortfall, asset), d);
  }

  /** `amount` went from the wallet to the pool and off the user's debt: off the fee first, then off the
      principal. The facility is in use for as long as anything is owed. */
  ghost predicate PaidOff(b: Bank, c: Bank, user: string, wallet: string, amount: int)
    requires user in b.rows
  {
    var r := b.rows[user];
    && Shifted(b.books.balances, c.books.balances, Main(wallet), OverdraftCapital, amount, ETB)
    && RowWritten(b.rows, c.rows, user, r.limit, r.used - Max(0, amount - r.accrued), Max(0, r.accrued - amount),
                  if amount < r.used + r.accrued then Used else Active)
  }

  /** A repayment posting of at most what is owed. */
  lemma RepaymentExactly(b: Bank, user: string, wallet: string, amount: int, d: Delivery)
    requires RowsOk(b.rows) && user in b.rows && 0 < amount <= OwedBy(b.rows, user)
    ensures var o := AfterRepayment(b, user, wallet, amount, d);
            var funded := Bal(b.books.balances, Main(wallet), ETB) >= amount;
            && (o.error.None? <==> funded && d.Acked?)
            && (o.error.None? ==> PaidOff(b, o.bank, user, wallet, amount) && OwedBy(o.bank.rows, user) == OwedBy(b.rows, user) - amount)
            && (o.error.Some? ==> o.bank.rows == b.rows && (o.bank.books == b.books <==> !(funded && d.Lost?)))
  {
    SubmitOne(b.books, Repaying(wallet, amount), d);
  }

  /** Repaying by hand goes through exactly when something is owed and the wallet has the smaller of the
      amount offered and the debt; exactly that much is taken. */
  lemma RepayExactly(b: Bank, user: string, wallet: string, amount: int, d: Delivery)
    requires RowsOk(b.rows)
    ensures var o, owed := AfterRepay(b, user, wallet, amount, d), OwedBy(b.rows, user);
            && (o.error.None? <==>
                  amount > 0 && owed > 0 && Bal(b.books.balances, Main(wallet), ETB) >= Min(amount, owed) && d.Acked?)
            && (o.error.None? ==>
                  PaidOff(b, o.bank, user, wallet, Min(amount, owed)) && OwedBy(o.bank.rows, user) == Max(0, owed - amount))
            && (o.error.Some? ==> o.bank.rows == b.rows)
            && (o.error == Some(ZeroAmount) <==> amount <= 0)
            && (o.error == Some(NotActive) <==> amount > 0 && owed == 0)
  {
    if amount > 0 && OwedBy(b.rows, user) > 0 {
      RepaymentExactly(b, user, wallet, Min(amount, OwedBy(b.rows, user)), d);
    }
  }

  /** An inflow of `credit` repays the smaller of the credit and the debt, whatever part of the debt is fee
      and whatever is principal, if the wallet has it; nothing else happens, and nothing at all when nothing
      is owed. The debt is gone exactly when the credit was at least as large. */
  lemma InflowRepays(b: Bank, user: string, wallet: string, credit: int, d: Delivery)
    requires RowsOk(b.rows)
    ensures var c, owed := AfterAutoRepay(b, user, wallet, credit, d), OwedBy(b.rows, user);
            var due := Max(0, Min(credit, owed));
            var funded := Bal(b.books.balances, Main(wallet), ETB) >= due;
            && (due == 0 || !funded || d.Dropped? ==> c == b)
            && (due > 0 && funded && d.Acked? ==>
                  && PaidOff(b, c, user, wallet, due)
                  && OwedBy(c.rows, user) == Max(0, owed - credit)
                  && (c.rows[user].status.Active? <==> credit >= owed))
            && (due > 0 && funded && d.Lost? ==>
                  c.rows == b.rows && Shifted(b.books.balances, c.books.balances, Main(wallet), OverdraftCapital, due, ETB))
    ensures AutoAmount(b.rows, user, credit) == Max(0, Min(credit, OwedBy(b.rows, user)))
  {
    var due := Max(0, Min(credit, OwedBy(b.rows, user)));
    SubmitOne(b.books, Repaying(wallet, due), d);
    if due > 0 {
      RepaymentExactly(b, user, wallet, due, d);
    }
  }

  // ---------------------------------------------------------------- ledger and table agree

  function Debts(rows: map<string, Row>): map<string, int> { map u | u in rows :: Owed(rows[u]) }

  ghost function OwedTotal(rows: map<string, Row>): int { Sums.Total(Debts(rows)) }

  /** The pool plus everything owed to it. */
  ghost function Backing(b: Bank): int {
    Bal(b.books.balances, OverdraftCapital, ETB) + OwedTotal(b.rows)
  }

  lemma OwedTotalUpdate(rows: map<string, Row>, user: string, r: Row)
    ensures OwedTotal(rows[user := r]) == OwedTotal(rows) - OwedBy(rows, user) + Owed(r)
  {
    Sums.TotalUpdate(Debts(rows), user, Owed(r));
    assert Debts(rows[user := r]) == Debts(rows)[user := Owed(r)];
  }

  lemma OptInKeeps(b: Bank, user: string, p: Option<Profile>)
    requires RowsOk(b.rows)
    ensures var c := AfterOptIn(b, user, p).bank; RowsOk(c.rows) && c.books == b.books && Backing(c) == Backing(b)
  {
    if AfterOptIn(b, user, p).error.None? {
      OwedTotalUpdate(b.rows, user, Upsert(b.rows, user, Eligibility(p), Active)[user]);
    }
  }

  lemma OptOutKeeps(b: Bank, user: string)
    requires RowsOk(b.rows)
    ensures var c := AfterOptOut(b, user).bank; RowsOk(c.rows) && c.books == b.books && Backing(c) == Backing(b)
  {
    if AfterOptOut(b, user).error.None? {
      OwedTotalUpdate(b.rows, user, b.rows[user].(status := Inactive));
    }
  }

  lemma CoverKeeps(b: Bank, user: string, wallet: string, shortfall: int, d: Delivery)
    requires RowsOk(b.rows) && shortfall > 0 && !d.Lost?
    ensures var c := AfterCover(b, user, wallet, shortfall, ETB, d).bank; RowsOk(c.rows) && Backing(c) == Backing(b)
  {
    SubmitOne(b.books, Drawing(wallet, shortfall, ETB), d);
    if user in b.rows {
      var row := b.rows[user];
      OwedTotalUpdate(b.rows, user, row.(used := row.used + shortfall, status := Used));
    }
  }

  lemma RepaymentKeeps(b: Bank, user: string, wallet: string, amount: int, d: Delivery)
    requires RowsOk(b.rows) && user in b.rows && 0 <= amount <= Owed(b.rows[user]) && !d.Lost?
    ensures var c := AfterRepayment(b, user, wallet, amount, d).bank; RowsOk(c.rows) && Backing(c) == Backing(b)
  {
    SubmitOne(b.books, Repaying(wallet, amount), d);
    ReducedExactly(b.rows[user], amount);
    OwedTotalUpdate(b.rows, user, Reduced(b.rows[user], amount));
  }

  lemma FeeKeeps(b: Bank, user: string, fee: int)
    requires RowsOk(b.rows) && user in b.rows && b.rows[user].status.Used? && fee >= 0
    ensures RowsOk(AfterFee(b, user, fee).rows)
    ensures Backing(AfterFee(b, user, fee)) == Backing(b) + fee
  {
    OwedTotalUpdate(b.rows, user, b.rows[user].(accrued := b.rows[user].accrued + fee));
  }

  /** Eligibility in closed form: some limit is offered exactly to an unblacklisted user with a trust
      score above 600 and at least ten cents approved, and it is a tenth of the approval or the cap. */
  lemma EligibilityExactly(p: Option<Profile>)
    ensures Eligibility(p) > 0 <==>
            p.Some? && !p.value.blacklisted && p.value.trustScore > 600 && p.value.approvedLimit >= 10
    ensures Eligibility(p) > 0 ==> Eligibility(p) == Min(p.value.approvedLimit / 10, 5_000_000)
  {
    if p.Some? && p.value.approvedLimit > 0 {
      var a := p.value.approvedLimit;
      assert a * LIMIT_PCT_OF_LOAN / 100 == a / 10;
    }
  }
}

/** Nothing is created or destroyed: over every run of every protocol, lost and dropped postings
    included, the balances of each asset add up to what they added up to at the start. */
module Conservation {
  import opened Common
  import opened Chart
  import opened Ledger
  import Sums
  import Outbound
  import Overdraft
  import Payments
  import BankRuns
  import CardAuth
  import CardRuns
  import Lending
  import LoanRuns

  /** All accounts together, the world included, hold the same of every asset, and nobody else is newly
      overdrawn. */
  ghost predicate Same(b: Books, c: Books) {
    && (forall s :: Sums.Total(OfAsset(c.balances, s)) == Sums.Total(OfAsset(b.balances, s)))
    && (Solvent(b.balances) ==> Solvent(c.balances))
  }

  lemma SubmitSame(b: Books, tx: seq<Posting>, d: Delivery)
    ensures Same(b, Submit(b, tx, d).books)
  {
    if Lands(b, tx, d) {
      ApplyConserves(b.balances, tx, "");
      forall s ensures Sums.Total(OfAsset(Submit(b, tx, d).books.balances, s)) == Sums.Total(OfAsset(b.balances, s)) {
        ApplyConserves(b.balances, tx, s);
      }
    }
  }

  // ---------------------------------------------------------------- who touches what

  /** The accounts each line of business posts to; cards and the switch each through one hold at a time. */
  datatype Scope = Retail | Loans | Cards(hold: string) | Switch(hold: string)

  predicate InScope(scope: Scope, a: Account) {
    || a.Main?
    || match scope
       case Retail => a == OverdraftCapital || a == World
       case Loans => a == LoanCapital || a == Interest || a == World
       case Cards(h) => a == TransitCardAuth || a == World || a == Hold(h)
       case Switch(h) => a == TransitEthSwitch || a == Hold(h)
  }

  /** Everything the ledger knows about a hold, its balance apart. */
  predicate SameHold(b: Books, c: Books, h: string) {
    && Inbound(c.log, Hold(h)) == Inbound(b.log, Hold(h)) && Departures(c.log, Hold(h)) == Departures(b.log, Hold(h))
    && (h in c.holds <==> h in b.holds) && (h in b.holds ==> c.holds[h] == b.holds[h])
  }

  /** Nothing outside the scope has changed. */
  ghost predicate Apart(b: Books, c: Books, scope: Scope) {
    && (forall a, s :: !InScope(scope, a) ==> Bal(c.balances, a, s) == Bal(b.balances, a, s))
    && (forall h :: !InScope(scope, Hold(h)) ==> SameHold(b, c, h))
  }

  ghost predicate Kept(b: Books, c: Books, scope: Scope) { Same(b, c) && Apart(b, c, scope) }

  lemma KeptOn(b: Books, c: Books, d: Books, scope: Scope)
    requires Kept(b, c, scope) && Kept(c, d, scope)
    ensures Kept(b, d, scope)
  {
    forall h | !InScope(scope, Hold(h)) ensures SameHold(b, d, h) {
      assert SameHold(b, c, h) && SameHold(c, d, h);
    }
  }

  predicate AllInScope(scope: Scope, tx: seq<Posting>) {
    forall i :: 0 <= i < |tx| ==> InScope(scope, tx[i].source) && InScope(scope, tx[i].destination)
  }

  lemma {:induction false} ApplyApart(b: Balances, tx: seq<Posting>, scope: Scope, a: Account, s: string)
    requires AllInScope(scope, tx) && Apply(b, tx).Some? && !InScope(scope, a)
    ensures Bal(Apply(b, tx).value, a, s) == Bal(b, a, s)
    decreases |tx|
  {
    if tx != [] { ApplyApart(Move(b, tx[0]), tx[1..], scope, a, s); }
  }

  lemma LogApart(log: seq<seq<Posting>>, tx: seq<Posting>, scope: Scope, h: string)
    requires AllInScope(scope, tx) && !InScope(scope, Hold(h))
    ensures Inbound(log + [tx], Hold(h)) == Inbound(log, Hold(h)) && Departures(log + [tx], Hold(h)) == Departures(log, Hold(h))
  {
    assert (log + [tx])[..|log|] == log && (log + [tx])[|log|] == tx;
    assert !Reaches(tx, Hold(h));
  }

  lemma SubmitKept(b: Books, tx: seq<Posting>, d: Delivery, scope: Scope)
    requires AllInScope(scope, tx)
    ensures Kept(b, Submit(b, tx, d).books, scope)
  {
    SubmitSame(b, tx, d);
    var c := Submit(b, tx, d).books;
    if Lands(b, tx, d) {
      forall a, s | !InScope(scope, a) ensures Bal(c.balances, a, s) == Bal(b.balances, a, s) {
        ApplyApart(b.balances, tx, scope, a, s);
      }
      forall h | !InScope(scope, Hold(h)) ensures SameHold(b, c, h) {
        LogApart(b.log, tx, scope, h);
      }
    }
  }

  // ---------------------------------------------------------------- holds and outbound transfers

  lemma HoldSame(b: Books, walletID: string, transit: Account, amount: int, asset: string, holdID: string, d: Delivery)
    ensures Same(b, AfterHold(b, walletID, transit, amount, asset, holdID, d).books)
  {
    SubmitSame(b, HoldTx(walletID, holdID, amount, asset), d);
  }

  lemma SettleSame(b: Books, holdID: string, read: bool, d: Delivery)
    ensures Same(b, AfterSettle(b, holdID, read, d).books)
  {
    if holdID in b.holds {
      var meta := b.holds[holdID];
      SubmitSame(b, [Posting(Hold(holdID), meta.transit, Bal(b.balances, Hold(holdID), meta.asset), meta.asset)], d);
    }
  }

  lemma VoidSame(b: Books, holdID: string, list: bool, read: bool, d: Delivery)
    ensures Same(b, AfterVoid(b, holdID, list, read, d).books)
  {
    var txs := Inbound(b.log, Hold(holdID));
    if |txs| == 1 && holdID in b.holds {
      var asset := b.holds[holdID].asset;
      SubmitSame(b, Refunds(Hold(holdID), asset, Bal(b.balances, Hold(holdID), asset), txs[0]), d);
    }
  }

  lemma {:induction false} RetrySame(b: Books, holdID: string, phase: Outbound.Phase, attempts: seq<Outbound.Attempt>)
    ensures Same(b, Outbound.Retry(b, holdID, phase, attempts).books)
    decreases |attempts|
  {
    if attempts != [] {
      var a := attempts[0];
      SettleSame(b, holdID, a.read, a.delivery);
      VoidSame(b, holdID, a.list, a.read, a.delivery);
      RetrySame(Outbound.Try(b, holdID, phase, a).books, holdID, phase, attempts[1..]);
    }
  }

  lemma OutboundSame(b: Books, r: Outbound.Request)
    ensures Same(b, Outbound.AfterOutbound(b, r).books)
  {
    HoldSame(b, r.walletID, TransitEthSwitch, r.amount, r.asset, r.holdID, r.holding);
    var held := AfterHold(b, r.walletID, TransitEthSwitch, r.amount, r.asset, r.holdID, r.holding).books;
    RetrySame(held, r.holdID, Outbound.Settling, r.attempts);
    RetrySame(held, r.holdID, Outbound.Voiding, r.attempts);
  }

  lemma {:induction false} OutboundConserves(b: Books, rs: seq<Outbound.Request>)
    ensures Same(b, Outbound.AfterAll(b, rs))
  {
    if rs != [] {
      var n := |rs| - 1;
      OutboundConserves(b, rs[..n]);
      OutboundSame(Outbound.AfterAll(b, rs[..n]), rs[n]);
    }
  }

  // ---------------------------------------------------------------- payments and overdrafts

  lemma CoverKept(b: Overdraft.Bank, user: string, wallet: string, shortfall: int, asset: string, d: Delivery)
    ensures Kept(b.books, Overdraft.AfterCover(b, user, wallet, shortfall, asset, d).bank.books, Retail)
  {
    SubmitKept(b.books, [Overdraft.Drawing(wallet, shortfall, asset)], d, Retail);
  }

  lemma RepaymentKept(b: Overdraft.Bank, user: string, wallet: string, amount: int, d: Delivery)
    requires user in b.rows
    ensures Kept(b.books, Overdraft.AfterRepayment(b, user, wallet, amount, d).bank.books, Retail)
  {
    SubmitKept(b.books, [Overdraft.Repaying(wallet, amount)], d, Retail);
  }

  lemma AutoRepayKept(b: Overdraft.Bank, user: string, wallet: string, credit: int, d: Delivery)
    ensures Kept(b.books, Overdraft.AfterAutoRepay(b, user, wallet, credit, d).books, Retail)
  {
    if user in b.rows { RepaymentKept(b, user, wallet, Overdraft.AutoAmount(b.rows, user, credit), d); }
  }

  lemma DeliveryKept(b: Overdraft.Bank, cover: bool, from: string, to: string, user: string, amount: int, currency: string, debit: Delivery, repay: Delivery)
    ensures Kept(b.books, Payments.AfterDelivery(b, cover, from, to, user, amount, currency, debit, repay).bank.books, Retail)
  {
    var tx := [Posting(Main(from), Main(to), amount, FormatAsset(currency))];
    var debited := b.(books := Submit(b.books, tx, debit).books);
    SubmitKept(b.books, tx, debit, Retail);
    AutoRepayKept(debited, user, to, amount, repay);
    KeptOn(b.books, debited.books, Overdraft.AfterAutoRepay(debited, user, to, amount, repay).books, Retail);
  }

  lemma FundingKept(b: Overdraft.Bank, cover: bool, user: string, wallet: string, amount: int, currency: string, read: bool, draw: Delivery)
    ensures Kept(b.books, Payments.AfterFunding(b, cover, user, wallet, amount, currency, read, draw).bank.books, Retail)
  {
    var asset := FormatAsset(currency);
    CoverKept(b, user, wallet, amount - Bal(b.books.balances, Main(wallet), asset), asset, draw);
  }

  lemma PaymentKept(b: Overdraft.Bank, users: Payments.Users, cover: bool, q: Payments.Payment)
    ensures Kept(b.books, Payments.AfterPayment(b, users, cover, q).bank.books, Retail)
  {
    if Payments.Refusal(users, q).None? {
      var from, to, f := users[q.sender].wallet, users[q.recipient.value].wallet, Payments.Funding(b, users, cover, q);
      FundingKept(b, cover, q.sender, from, q.amount, q.currency, q.read, q.draw);
      if f.error.None? {
        DeliveryKept(f.bank, cover, from, to, q.recipient.value, q.amount, q.currency, q.debit, q.repay);
        KeptOn(b.books, f.bank.books, Payments.AfterPayment(b, users, cover, q).bank.books, Retail);
      }
    }
  }

  lemma {:induction false} ItemsKept(b: Overdraft.Bank, users: Payments.Users, cover: bool, sender: string, currency: string, items: seq<Payments.Item>)
    requires sender in users && Payments.Payable(users, sender, items)
    ensures Kept(b.books, Payments.AfterItems(b, users, cover, sender, currency, items).bank.books, Retail)
    decreases |items|
  {
    if items != [] {
      var n := |items| - 1;
      var f, to := Payments.AfterItems(b, users, cover, sender, currency, items[..n]), items[n].resolved.value;
      ItemsKept(b, users, cover, sender, currency, items[..n]);
      DeliveryKept(f.bank, cover, users[sender].wallet, users[to].wallet, to, items[n].amount, currency, items[n].debit, items[n].repay);
      KeptOn(b.books, f.bank.books, Payments.AfterItem(f, users, cover, sender, currency, items[n]).bank.books, Retail);
    }
  }

  lemma BatchKept(b: Overdraft.Bank, users: Payments.Users, cover: bool, q: Payments.Batch, normal: string -> string)
    ensures Kept(b.books, Payments.AfterBatch(b, users, cover, q, normal).bank.books, Retail)
  {
    if Payments.BatchRefusal(users, q, normal).None? {
      var w, total := users[q.sender].wallet, Payments.Sum(q.items);
      var f := Payments.AfterFunding(b, cover, q.sender, w, total, q.currency, q.read, q.draw);
      FundingKept(b, cover, q.sender, w, total, q.currency, q.read, q.draw);
      if f.error.None? {
        Payments.ResolvedItems(users, q.sender, q.items);
        ItemsKept(f.bank, users, cover, q.sender, q.currency, q.items);
        KeptOn(b.books, f.bank.books, Payments.AfterItems(f.bank, users, cover, q.sender, q.currency, q.items).bank.books, Retail);
      }
    }
  }

  lemma BankKept(b: Overdraft.Bank, e: BankRuns.Setting, op: BankRuns.Op)
    requires BankRuns.Known(e, op)
    ensures Kept(b.books, BankRuns.AfterOp(b, e, op).books, Retail)
  {
    match op
    case OptIn(_, _) =>
    case OptOut(_) =>
    case Cover(u, n, d) => CoverKept(b, u, e.users[u].wallet, n, Overdraft.ETB, d);
    case Repay(u, n, d) => if u in b.rows { RepaymentKept(b, u, e.users[u].wallet, Min(n, Overdraft.Owed(b.rows[u])), d); }
    case Inflow(u, n, d) => AutoRepayKept(b, u, e.users[u].wallet, n, d);
    case AccrueFee(_, _) =>
    case Pay(q) => PaymentKept(b, e.users, e.cover, q);
    case PayMany(q) => BatchKept(b, e.users, e.cover, q, e.normal);
    case TopUp(u, n, s, d) => SubmitKept(b.books, [BankRuns.Funder(u, e, n, s)], d, Retail);
  }

  lemma {:induction false} BankConserves(b: Overdraft.Bank, e: BankRuns.Setting, ops: seq<BankRuns.Op>)
    requires forall i :: 0 <= i < |ops| ==> BankRuns.Known(e, ops[i])
    ensures Same(b.books, BankRuns.AfterRun(b, e, ops).books)
  {
    if ops != [] {
      var n := |ops| - 1;
      BankConserves(b, e, ops[..n]);
      BankKept(BankRuns.AfterRun(b, e, ops[..n]), e, ops[n]);
    }
  }

  // ---------------------------------------------------------------- cards

  lemma DecideSame(d: CardAuth.Desk, q: CardAuth.Request, env: CardAuth.Env)
    ensures Same(d.books, CardAuth.AfterDecide(d, q, env).desk.books)
  {
    if CardAuth.CardGate(d, q, env).None? {
      var h := d.users[d.cards[q.pan].owner];
      var pick := CardAuth.Chosen(d.books.balances, h, CardAuth.Order(h), CardAuth.MerchantCurrency(q.currencyCode), q.amount, env);
      if pick.Some? {
        HoldSame(d.books, h.wallet, TransitCardAuth, pick.value.cents, FormatAsset(pick.value.currency), env.holdID, env.delivery);
      }
    }
  }

  lemma CardSame(d: CardAuth.Desk, step: CardRuns.Step)
    ensures Same(d.books, CardRuns.AfterStep(d, step).books)
  {
    match step
    case Decide(q, env) => DecideSame(d, q, env);
    case Clear(rrn, n, read, how) =>
      var i := CardAuth.ByRrn(d.auths, rrn);
      if i.Some? && d.auths[i.value].hold.Some? { SettleSame(d.books, d.auths[i.value].hold.value, read, how); }
    case Reverse(rrn, list, read, how) =>
      var i := CardAuth.ByRrn(d.auths, rrn);
      if i.Some? && d.auths[i.value].hold.Some? { VoidSame(d.books, d.auths[i.value].hold.value, list, read, how); }
    case TopUp(w, n, s, how) => SubmitSame(d.books, [Posting(World, Main(w), n, s)], how);
    case SetLimits(_, _, _) =>
  }

  lemma {:induction false} CardsConserve(d: CardAuth.Desk, steps: seq<CardRuns.Step>)
    ensures Same(d.books, CardRuns.AfterRun(d, steps).books)
  {
    if steps != [] {
      var n := |steps| - 1;
      CardsConserve(d, steps[..n]);
      CardSame(CardRuns.AfterRun(d, steps[..n]), steps[n]);
    }
  }

  // ---------------------------------------------------------------- loans

  lemma PortionsKept(b: Books, wallet: string, principal: int, fee: int, d: Delivery)
    ensures Kept(b, Submit(b, Lending.Collecting(wallet, principal, fee), d).books, Loans)
  {
    SubmitKept(b, Lending.Collecting(wallet, principal, fee), d, Loans);
  }

  lemma CollectKept(b: Books, l: Lending.Loan, amount: int, d: Delivery)
    requires l.TotalDue() > 0
    ensures Kept(b, Lending.Collect(b, l, amount, d).books, Loans)
  {
    var p := Lending.Share(amount, l.principal, l.TotalDue());
    assert Lending.Collect(b, l, amount, d) == Submit(b, Lending.Collecting(l.wallet, p, amount - p), d);
    PortionsKept(b, l.wallet, p, amount - p, d);
  }

  lemma {:induction false} SweepKept(b: Lending.Book, refs: seq<Lending.Ref>, ds: seq<Delivery>)
    requires Lending.BookOk(b) && Lending.Due(b, refs) && |ds| == |refs|
    ensures Kept(b.books, Lending.AfterSweep(b, refs, ds).books, Loans)
    decreases |refs|
  {
    if refs != [] {
      var l, c := b.loans[refs[0].loan], Lending.AfterInstallment(b, refs[0], ds[0]).book;
      CollectKept(b.books, l, l.installments[refs[0].index].due, ds[0]);
      Lending.InstallmentKeeps(b, refs, ds[0]);
      SweepKept(c, refs[1..], ds[1..]);
      KeptOn(b.books, c.books, Lending.AfterSweep(c, refs[1..], ds[1..]).books, Loans);
    }
  }

  lemma LoanKept(b: Lending.Book, step: LoanRuns.Step)
    requires Lending.BookOk(b) && LoanRuns.Legal(b, step)
    ensures Kept(b.books, LoanRuns.AfterStep(b, step).books, Loans)
  {
    match step
    case Disburse(_, _, w, p, _, _, d) => SubmitKept(b.books, [Posting(LoanCapital, Main(w), p, Lending.BIRR)], d, Loans);
    case Manual(id, _, n, d) => if id in b.loans { CollectKept(b.books, b.loans[id], Lending.Taken(b.loans[id], n), d); }
    case Sweep(refs, ds) => SweepKept(b, refs, ds);
    case TopUp(w, n, s, d) => SubmitKept(b.books, [Posting(World, Main(w), n, s)], d, Loans);
  }

  lemma {:induction false} LoansConserve(b: Lending.Book, steps: seq<LoanRuns.Step>)
    requires Lending.BookOk(b) && LoanRuns.LegalRun(b, steps)
    ensures Same(b.books, LoanRuns.AfterRun(b, steps).books)
    decreases |steps|
  {
    if steps != [] {
      LoanKept(b, steps[0]);
      LoanRuns.StepKeeps(b, steps[0]);
      LoansConserve(LoanRuns.AfterStep(b, steps[0]), steps[1..]);
    }
  }
}

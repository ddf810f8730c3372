/** All lines of business on the one ledger they share: payments and overdrafts, cards, loans and outbound
    transfers, interleaved in any order. Each keeps what it keeps alone. */
module SharedLedger {
  import opened Common
  import opened Chart
  import opened Ledger
  import opened Conservation
  import Sums
  import OD = Overdraft
  import P = Payments
  import B = BankRuns
  import CA = CardAuth
  import C = CardRuns
  import L = Lending
  import LR = LoanRuns
  import O = Outbound

  /** An outbound transfer that was handled: whether its hold was opened, and where the amount is. */
  datatype Dispatch = Dispatch(request: O.Request, held: bool, place: O.Place)

  /** One set of books, and every table beside it. */
  datatype Sys = Sys(
    books: Books, rows: map<string, OD.Row>,
    auths: seq<CA.Auth>, cards: map<string, CA.Card>, holders: map<string, CA.Holder>,
    loans: map<string, L.Loan>, sent: seq<Dispatch>)
  {
    function Bank(): OD.Bank { OD.Bank(books, rows) }
    function Desk(): CA.Desk { CA.Desk(books, auths, cards, holders) }
    function Book(): L.Book { L.Book(books, loans) }
  }

  datatype Step =
    | Teller(op: B.Op)
    | Card(card: C.Step)
    | Lend(loan: LR.Step)
    | Send(request: O.Request)

  function AfterStep(s: Sys, e: B.Setting, step: Step): Sys {
    match step
    case Teller(op) =>
      if !B.Known(e, op) then s else var b := B.AfterOp(s.Bank(), e, op); s.(books := b.books, rows := b.rows)
    case Card(st) =>
      var d := C.AfterStep(s.Desk(), st); s.(books := d.books, auths := d.auths, cards := d.cards)
    case Lend(st) =>
      if !L.BookOk(s.Book()) || !LR.Legal(s.Book(), st) then s
      else var b := LR.AfterStep(s.Book(), st); s.(books := b.books, loans := b.loans)
    case Send(r) =>
      s.(books := O.AfterOutbound(s.books, r).books, sent := s.sent + [Dispatch(r, O.Held(s.books, r), O.Fate(s.books, r))])
  }

  /** Each step is one its own line of business allows; acknowledgements may be lost on the switch only. */
  ghost predicate Legal(s: Sys, e: B.Setting, step: Step) {
    match step
    case Teller(op) => B.Legal(s.Bank(), e, op)
    case Card(st) => C.Legal(s.Desk(), st)
    case Lend(st) => L.BookOk(s.Book()) && LR.Legal(s.Book(), st) && LR.NothingLost(st)
    case Send(r) => Unused(s.books, r.holdID)
  }

  function AfterRun(s: Sys, e: B.Setting, steps: seq<Step>): Sys {
    if steps == [] then s else AfterStep(AfterRun(s, e, steps[..|steps| - 1]), e, steps[|steps| - 1])
  }

  ghost predicate LegalRun(s: Sys, e: B.Setting, steps: seq<Step>) {
    steps == [] || (LegalRun(s, e, steps[..|steps| - 1]) && Legal(AfterRun(s, e, steps[..|steps| - 1]), e, steps[|steps| - 1]))
  }

  // ---------------------------------------------------------------- what every state satisfies

  function MetaOf(r: O.Request): HoldMeta { HoldMeta(r.walletID, r.asset, TransitEthSwitch) }

  /** The hold of an outbound transfer contains the amount or nothing, according to where the amount is. */
  ghost predicate DispatchOk(b: Books, x: Dispatch) {
    if x.held then Funded(b, x.request.holdID, MetaOf(x.request), x.request.amount, if x.place.InHold? then x.request.amount else 0)
    else x.place.InWallet?
  }

  ghost predicate Ok(s: Sys) {
    && P.BankOk(s.Bank()) && C.Sound(s.Desk()) && L.BookOk(s.Book())
    && forall i :: 0 <= i < |s.sent| ==> DispatchOk(s.books, s.sent[i])
  }

  /** What a wallet has on the switch: on hold or in transit. */
  function Placed(sent: seq<Dispatch>, w: string, a: string): int {
    if sent == [] then 0
    else
      var x := sent[|sent| - 1];
      Placed(sent[..|sent| - 1], w, a) + if !x.place.InWallet? && x.request.walletID == w && x.request.asset == a then x.request.amount else 0
  }

  function Transited(sent: seq<Dispatch>, a: string): int {
    if sent == [] then 0
    else
      var x := sent[|sent| - 1];
      Transited(sent[..|sent| - 1], a) + if x.place.InTransit? && x.request.asset == a then x.request.amount else 0
  }

  /** What loans still owe a wallet's lender, wallet by wallet. */
  function Nets(loans: map<string, L.Loan>, w: string): map<string, int> {
    map id | id in loans :: if loans[id].wallet == w then loans[id].principal - loans[id].totalPaid else 0
  }

  ghost function Borrowed(loans: map<string, L.Loan>, w: string, a: string): int {
    if a == L.BIRR then Sums.Total(Nets(loans, w)) else 0
  }

  /** A user's worth as it would be without cards, the switch and loans. */
  ghost function Position(s: Sys, e: B.Setting, u: string, a: string): int
    requires u in e.users
  {
    var w := e.users[u].wallet;
    P.Worth(s.Bank(), e.users, u, a) + CA.SumIf(s.auths, C.SpentBy(w, a)) + Placed(s.sent, w, a) - Borrowed(s.loans, w, a)
  }

  /** Switch transit less what is recorded as being there. */
  function Unexplained(s: Sys, a: string): int { Bal(s.books.balances, TransitEthSwitch, a) - Transited(s.sent, a) }

  ghost function LoanBases(s: Sys): (int, int) { (LR.CapitalBase(s.Book()), LR.InterestBase(s.Book())) }

  /** Everything a step keeps: the state stays in order, the pool changes by the fee, and the position of
      one user in one asset by the flow. */
  ghost predicate Keeps(s: Sys, t: Sys, e: B.Setting, u: string, a: string, fee: int, flow: int)
    requires u in e.users
  {
    && Ok(t) && Same(s.books, t.books)
    && OD.Backing(t.Bank()) == OD.Backing(s.Bank()) + fee
    && LoanBases(t) == LoanBases(s)
    && C.Unexplained(t.Desk(), a) == C.Unexplained(s.Desk(), a)
    && Unexplained(t, a) == Unexplained(s, a)
    && Position(t, e, u, a) == Position(s, e, u, a) + flow
  }

  // ---------------------------------------------------------------- standing apart

  lemma FundedApart(b: Books, c: Books, scope: Scope, h: string, meta: HoldMeta, amount: int, left: int)
    requires Apart(b, c, scope) && !InScope(scope, Hold(h)) && Funded(b, h, meta, amount, left)
    ensures Funded(c, h, meta, amount, left)
  {
    assert SameHold(b, c, h);
  }

  /** Card rows survive a step that leaves their holds alone. */
  lemma DeskApart(d: CA.Desk, c: Books, scope: Scope)
    requires C.Sound(d) && Apart(d.books, c, scope)
    requires forall i :: 0 <= i < |d.auths| && d.auths[i].hold.Some? ==> !InScope(scope, Hold(d.auths[i].hold.value))
    ensures C.Sound(d.(books := c))
  {
    forall i | 0 <= i < |d.auths| ensures C.RowSound(c, d.auths[i]) {
      var r := d.auths[i];
      assert C.RowSound(d.books, r);
      if r.hold.Some? {
        FundedApart(d.books, c, scope, r.hold.value, C.MetaOf(r), r.amount, if r.status.Approved? then r.amount else 0);
      }
    }
    assert C.HoldsDistinct(d.auths);
  }

  lemma SentApart(b: Books, c: Books, scope: Scope, sent: seq<Dispatch>)
    requires Apart(b, c, scope) && forall i :: 0 <= i < |sent| ==> DispatchOk(b, sent[i])
    requires forall i :: 0 <= i < |sent| && sent[i].held ==> !InScope(scope, Hold(sent[i].request.holdID))
    ensures forall i :: 0 <= i < |sent| ==> DispatchOk(c, sent[i])
  {
    forall i | 0 <= i < |sent| ensures DispatchOk(c, sent[i]) {
      var r := sent[i].request;
      if sent[i].held { FundedApart(b, c, scope, r.holdID, MetaOf(r), r.amount, if sent[i].place.InHold? then r.amount else 0); }
    }
  }

  /** The sums of each line of business stand still while another one works. */
  lemma LoansStand(s: Sys, t: Sys, scope: Scope)
    requires Apart(s.books, t.books, scope) && !scope.Loans? && t.loans == s.loans
    ensures LoanBases(t) == LoanBases(s)
  {}

  lemma CardsStand(s: Sys, t: Sys, scope: Scope, a: string)
    requires Apart(s.books, t.books, scope) && !scope.Cards? && t.auths == s.auths
    ensures C.Unexplained(t.Desk(), a) == C.Unexplained(s.Desk(), a)
  {}

  lemma SwitchStands(s: Sys, t: Sys, scope: Scope, a: string)
    requires Apart(s.books, t.books, scope) && !scope.Switch? && t.sent == s.sent
    ensures Unexplained(t, a) == Unexplained(s, a)
  {}

  lemma PoolStands(s: Sys, t: Sys, scope: Scope)
    requires Apart(s.books, t.books, scope) && !scope.Retail? && t.rows == s.rows
    ensures OD.Backing(t.Bank()) == OD.Backing(s.Bank())
  {}

  // ---------------------------------------------------------------- payments and overdrafts

  /** Lines of business without holds leave cards and the switch in order. */
  lemma HoldsStand(s: Sys, t: Sys, scope: Scope)
    requires Ok(s) && Apart(s.books, t.books, scope) && (scope.Retail? || scope.Loans?)
    requires t.auths == s.auths && t.cards == s.cards && t.holders == s.holders && t.sent == s.sent
    ensures C.Sound(t.Desk()) && forall i :: 0 <= i < |t.sent| ==> DispatchOk(t.books, t.sent[i])
  {
    DeskApart(s.Desk(), t.books, scope);
    SentApart(s.books, t.books, scope, s.sent);
    assert t.Desk() == s.Desk().(books := t.books);
  }

  lemma RetailKeeps(s: Sys, t: Sys, e: B.Setting, op: B.Op, u: string, a: string)
    requires Ok(s) && P.WalletsDistinct(e.users) && u in e.users && B.Legal(s.Bank(), e, op) && t == AfterStep(s, e, Teller(op))
    ensures Keeps(s, t, e, u, a, if op.AccrueFee? then op.fee else 0, B.Effect(s.Bank(), e, op, u, a))
  {
    assert t.Bank() == B.AfterOp(s.Bank(), e, op);
    B.Step(s.Bank(), e, op, u, a);
    assert Kept(s.books, t.books, Retail) by { BankKept(s.Bank(), e, op); }
    HoldsStand(s, t, Retail);
    LoansStand(s, t, Retail);
    CardsStand(s, t, Retail, a);
    SwitchStands(s, t, Retail, a);
  }

  // ---------------------------------------------------------------- cards

  /** One transaction of one posting inside the scope. */
  lemma ShiftApart(b: Books, c: Books, p: Posting, scope: Scope)
    requires InScope(scope, p.source) && InScope(scope, p.destination)
    requires Shifted(b.balances, c.balances, p.source, p.destination, p.amount, p.asset) && c.log == b.log + [[p]]
    requires forall h :: !InScope(scope, Hold(h)) ==> (h in c.holds <==> h in b.holds) && (h in b.holds ==> c.holds[h] == b.holds[h])
    ensures Apart(b, c, scope)
  {
    forall h | !InScope(scope, Hold(h)) ensures SameHold(b, c, h) {
      LogGrows(b.log, p, Hold(h));
    }
  }

  /** The hold a card step works on, if any. */
  function HoldOf(d: CA.Desk, st: C.Step): string {
    match st
    case Decide(_, env) => env.holdID
    case Clear(rrn, _, _, _) => RowHold(d, rrn)
    case Reverse(rrn, _, _, _) => RowHold(d, rrn)
    case _ => ""
  }

  function RowHold(d: CA.Desk, rrn: string): string {
    var i := CA.ByRrn(d.auths, rrn);
    if i.Some? && d.auths[i.value].hold.Some? then d.auths[i.value].hold.value else ""
  }

  lemma DecideApart(d: CA.Desk, q: CA.Request, env: CA.Env)
    requires Unused(d.books, env.holdID) && !env.delivery.Lost?
    ensures Apart(d.books, CA.AfterDecide(d, q, env).desk.books, Cards(env.holdID))
  {
    if CA.CardGate(d, q, env).None? && CA.AbroadGate(d, q, env).None? {
      var h := d.users[d.cards[q.pan].owner];
      var pick := CA.Chosen(d.books.balances, h, CA.Order(h), CA.MerchantCurrency(q.currencyCode), q.amount, env);
      if pick.Some? {
        var n, asset := pick.value.cents, FormatAsset(pick.value.currency);
        var c := AfterHold(d.books, h.wallet, TransitCardAuth, n, asset, env.holdID, env.delivery).books;
        HoldOpens(d.books, h.wallet, TransitCardAuth, n, asset, env.holdID, env.delivery);
        if c != d.books { ShiftApart(d.books, c, Posting(Main(h.wallet), Hold(env.holdID), n, asset), Cards(env.holdID)); }
      }
    }
  }

  lemma ClearApart(d: CA.Desk, rrn: string, n: int, read: bool, how: Delivery)
    requires C.Sound(d)
    ensures Apart(d.books, CA.AfterClear(d, rrn, n, read, how).desk.books, Cards(RowHold(d, rrn)))
  {
    var i := CA.ByRrn(d.auths, rrn);
    if i.Some? && d.auths[i.value].status.Approved? && d.auths[i.value].hold.Some? {
      var r, c := d.auths[i.value], CA.AfterClear(d, rrn, n, read, how).desk.books;
      SettleOnce(d.books, r.hold.value, C.MetaOf(r), r.amount, r.amount, read, how);
      if c != d.books { ShiftApart(d.books, c, Posting(Hold(r.hold.value), TransitCardAuth, r.amount, FormatAsset(r.currency)), Cards(r.hold.value)); }
    }
  }

  lemma ReverseApart(d: CA.Desk, rrn: string, list: bool, read: bool, how: Delivery)
    requires C.Sound(d)
    ensures Apart(d.books, CA.AfterReverse(d, rrn, list, read, how).desk.books, Cards(RowHold(d, rrn)))
  {
    var i := CA.ByRrn(d.auths, rrn);
    if i.Some? && d.auths[i.value].status.Approved? && d.auths[i.value].hold.Some? {
      var r, c := d.auths[i.value], CA.AfterReverse(d, rrn, list, read, how).desk.books;
      VoidOnce(d.books, r.hold.value, C.MetaOf(r), r.amount, r.amount, list, read, how);
      if c != d.books { ShiftApart(d.books, c, Posting(Hold(r.hold.value), Main(r.wallet), r.amount, FormatAsset(r.currency)), Cards(r.hold.value)); }
    }
  }

  lemma CardApart(d: CA.Desk, st: C.Step)
    requires C.Sound(d) && C.Legal(d, st)
    ensures Apart(d.books, C.AfterStep(d, st).books, Cards(HoldOf(d, st)))
  {
    match st
    case Decide(q, env) => DecideApart(d, q, env);
    case Clear(rrn, n, read, how) => ClearApart(d, rrn, n, read, how);
    case Reverse(rrn, list, read, how) => ReverseApart(d, rrn, list, read, how);
    case TopUp(w, n, a, how) => SubmitKept(d.books, [Posting(World, Main(w), n, a)], how, Cards(""));
    case SetLimits(_, _, _) =>
  }

  /** Card holds and switch holds never coincide: they name different transit accounts. */
  lemma CardHoldsApart(s: Sys, st: C.Step)
    requires Ok(s) && C.Legal(s.Desk(), st)
    requires !st.TopUp? && C.AfterStep(s.Desk(), st).books != s.books
    ensures forall i :: 0 <= i < |s.sent| && s.sent[i].held ==> s.sent[i].request.holdID != HoldOf(s.Desk(), st)
  {
    forall i | 0 <= i < |s.sent| && s.sent[i].held
      ensures s.sent[i].request.holdID != HoldOf(s.Desk(), st)
    {
      assert DispatchOk(s.books, s.sent[i]);
      if !st.Decide? {
        var k := CA.ByRrn(s.auths, st.rrn);
        assert k.Some? && C.RowSound(s.books, s.auths[k.value]);
      }
    }
  }

  lemma CardSentOk(s: Sys, st: C.Step)
    requires Ok(s) && C.Legal(s.Desk(), st)
    ensures forall i :: 0 <= i < |s.sent| ==> DispatchOk(C.AfterStep(s.Desk(), st).books, s.sent[i])
  {
    var c := C.AfterStep(s.Desk(), st).books;
    if st.TopUp? {
      SubmitKept(s.books, [Posting(World, Main(st.wallet), st.amount, st.asset)], st.d, Retail);
      SentApart(s.books, c, Retail, s.sent);
    } else if c != s.books {
      CardHoldsApart(s, st);
      CardApart(s.Desk(), st);
      SentApart(s.books, c, Cards(HoldOf(s.Desk(), st)), s.sent);
    }
  }

  lemma CardFacts(s: Sys, t: Sys, e: B.Setting, st: C.Step, w: string, a: string)
    requires Ok(s) && C.Legal(s.Desk(), st) && t == AfterStep(s, e, Card(st))
    ensures C.Kept(s.Desk(), t.Desk(), w, a, C.ToppedUp(st, w, a)) && Kept(s.books, t.books, Cards(HoldOf(s.Desk(), st)))
    ensures forall i :: 0 <= i < |t.sent| ==> DispatchOk(t.books, t.sent[i])
  {
    assert t.Desk() == C.AfterStep(s.Desk(), st) by { CardTables(s.Desk(), st); }
    C.StepKeeps(s.Desk(), st, w, a);
    CardSame(s.Desk(), st);
    CardApart(s.Desk(), st);
    CardSentOk(s, st);
  }

  lemma CardPosition(s: Sys, t: Sys, e: B.Setting, u: string, a: string, flow: int)
    requires u in e.users && t.rows == s.rows && t.loans == s.loans && t.sent == s.sent
    requires C.Gross(t.Desk(), e.users[u].wallet, a) == C.Gross(s.Desk(), e.users[u].wallet, a) + flow
    ensures Position(t, e, u, a) == Position(s, e, u, a) + flow
  {}

  lemma CardKeeps(s: Sys, t: Sys, e: B.Setting, st: C.Step, u: string, a: string)
    requires Ok(s) && u in e.users && C.Legal(s.Desk(), st) && t == AfterStep(s, e, Card(st))
    ensures Keeps(s, t, e, u, a, 0, C.ToppedUp(st, e.users[u].wallet, a))
  {
    var scope := Cards(HoldOf(s.Desk(), st));
    CardFacts(s, t, e, st, e.users[u].wallet, a);
    CardPosition(s, t, e, u, a, C.ToppedUp(st, e.users[u].wallet, a));
    LoansStand(s, t, scope);
    SwitchStands(s, t, scope, a);
    PoolStands(s, t, scope);
  }

  lemma CardTables(d: CA.Desk, st: C.Step)
    ensures C.AfterStep(d, st).users == d.users
  {}

  // ---------------------------------------------------------------- loans

  function LoanTopUp(st: LR.Step, w: string, a: string): int {
    if st.TopUp? && st.wallet == w && st.asset == a && st.amount >= 0 && !st.d.Dropped? then st.amount else 0
  }

  lemma NetsWritten(loans: map<string, L.Loan>, id: string, l: L.Loan, w: string)
    ensures Sums.Total(Nets(loans[id := l], w)) == Sums.Total(Nets(loans, w))
              + (if l.wallet == w then l.principal - l.totalPaid else 0)
              - (if id in loans && loans[id].wallet == w then loans[id].principal - loans[id].totalPaid else 0)
  {
    var net := if l.wallet == w then l.principal - l.totalPaid else 0;
    Sums.TotalUpdate(Nets(loans, w), id, net);
    assert Nets(loans[id := l], w) == Nets(loans, w)[id := net];
  }

  /** A wallet less what it has borrowed. */
  ghost function Clear(b: L.Book, w: string, a: string): int { Bal(b.books.balances, Main(w), a) - Borrowed(b.loans, w, a) }

  lemma CollectClear(b: L.Book, id: string, amount: int, d: Delivery, after: L.Loan, w: string, a: string)
    requires L.BookOk(b) && id in b.loans && !d.Lost?
    requires after.wallet == b.loans[id].wallet && after.principal == b.loans[id].principal && after.totalPaid == b.loans[id].totalPaid + amount
    ensures var r := L.Collect(b.books, b.loans[id], amount, d);
            Clear(if r.ok then L.Book(r.books, b.loans[id := after]) else b.(books := r.books), w, a) == Clear(b, w, a)
  {
    L.CollectMoves(b.books, b.loans[id], amount, d);
    NetsWritten(b.loans, id, after, w);
  }

  lemma {:induction false} SweepClear(b: L.Book, refs: seq<L.Ref>, ds: seq<Delivery>, w: string, a: string)
    requires L.BookOk(b) && L.Due(b, refs) && |ds| == |refs| && forall i :: 0 <= i < |ds| ==> !ds[i].Lost?
    ensures Clear(L.AfterSweep(b, refs, ds), w, a) == Clear(b, w, a)
    decreases |refs|
  {
    if refs != [] {
      var l := b.loans[refs[0].loan];
      CollectClear(b, refs[0].loan, l.installments[refs[0].index].due, ds[0], L.Swept(l, refs[0].index), w, a);
      L.InstallmentKeeps(b, refs, ds[0]);
      SweepClear(L.AfterInstallment(b, refs[0], ds[0]).book, refs[1..], ds[1..], w, a);
    }
  }

  lemma DisburseClear(b: L.Book, id: string, u: string, x: string, n: int, days: int, approved: bool, d: Delivery, w: string, a: string)
    requires L.BookOk(b) && id !in b.loans && !d.Lost?
    ensures Clear(L.AfterDisburse(b, id, u, x, n, days, approved, d).book, w, a) == Clear(b, w, a)
  {
    SubmitOne(b.books, Posting(LoanCapital, Main(x), n, L.BIRR), d);
    if n > 0 { NetsWritten(b.loans, id, L.NewLoan(u, x, n, days), w); }
  }

  lemma LoanClear(b: L.Book, st: LR.Step, w: string, a: string)
    requires L.BookOk(b) && LR.Legal(b, st) && LR.NothingLost(st)
    ensures Clear(LR.AfterStep(b, st), w, a) == Clear(b, w, a) + LoanTopUp(st, w, a)
  {
    match st
    case Disburse(id, u, x, n, days, ok, d) => DisburseClear(b, id, u, x, n, days, ok, d, w, a);
    case Manual(id, u, n, d) =>
      if id in b.loans { CollectClear(b, id, L.Taken(b.loans[id], n), d, L.Repayment(b.loans[id], L.Taken(b.loans[id], n)), w, a); }
    case Sweep(refs, ds) => SweepClear(b, refs, ds, w, a);
    case TopUp(x, n, asset, d) => SubmitOne(b.books, Posting(World, Main(x), n, asset), d);
  }

  lemma LoanFacts(s: Sys, t: Sys, e: B.Setting, st: LR.Step, w: string, a: string)
    requires Ok(s) && LR.Legal(s.Book(), st) && LR.NothingLost(st) && t == AfterStep(s, e, Lend(st))
    ensures L.BookOk(t.Book()) && LoanBases(t) == LoanBases(s) && Kept(s.books, t.books, Loans)
    ensures Clear(t.Book(), w, a) == Clear(s.Book(), w, a) + LoanTopUp(st, w, a)
  {
    assert t.Book() == LR.AfterStep(s.Book(), st);
    LR.StepKeeps(s.Book(), st);
    LR.StepAgrees(s.Book(), st);
    LoanClear(s.Book(), st, w, a);
    LoanKept(s.Book(), st);
  }

  lemma LoanPosition(s: Sys, t: Sys, e: B.Setting, u: string, a: string, flow: int)
    requires u in e.users && t.rows == s.rows && t.auths == s.auths && t.sent == s.sent
    requires Clear(t.Book(), e.users[u].wallet, a) == Clear(s.Book(), e.users[u].wallet, a) + flow
    ensures Position(t, e, u, a) == Position(s, e, u, a) + flow
  {}

  lemma LoanKeeps(s: Sys, t: Sys, e: B.Setting, st: LR.Step, u: string, a: string)
    requires Ok(s) && u in e.users && LR.Legal(s.Book(), st) && LR.NothingLost(st) && t == AfterStep(s, e, Lend(st))
    ensures Keeps(s, t, e, u, a, 0, LoanTopUp(st, e.users[u].wallet, a))
  {
    LoanFacts(s, t, e, st, e.users[u].wallet, a);
    LoanPosition(s, t, e, u, a, LoanTopUp(st, e.users[u].wallet, a));
    HoldsStand(s, t, Loans);
    CardsStand(s, t, Loans, a);
    SwitchStands(s, t, Loans, a);
    PoolStands(s, t, Loans);
  }

  // ---------------------------------------------------------------- the switch

  lemma TracedLog(b: Books, c: Books, r: O.Request, held: bool, place: O.Place, h: string)
    requires O.Traced(b, c, r, held, place)
    ensures h != r.holdID ==> Inbound(c.log, Hold(h)) == Inbound(b.log, Hold(h)) && Departures(c.log, Hold(h)) == Departures(b.log, Hold(h))
    ensures h == r.holdID && held ==> Inbound(c.log, Hold(h)) == Inbound(b.log, Hold(h)) + [HoldTx(r.walletID, r.holdID, r.amount, r.asset)]
  {
    var p := Posting(Main(r.walletID), Hold(r.holdID), r.amount, r.asset);
    LogGrows(b.log, p, Hold(h));
    LogGrows(b.log + [[p]], O.Release(r), Hold(h));
    if !held {
      assert c.log == b.log;
    } else if place.InHold? {
      assert c.log == b.log + [[p]];
    } else {
      assert c.log == b.log + [[p]] + [[O.Release(r)]];
    }
  }

  lemma SendApart(b: Books, c: Books, r: O.Request, held: bool, place: O.Place)
    requires Unused(b, r.holdID) && O.Traced(b, c, r, held, place)
    ensures Apart(b, c, Switch(r.holdID))
  {
    forall h | h != r.holdID ensures SameHold(b, c, h) {
      TracedLog(b, c, r, held, place, h);
    }
  }

  /** The transfer just handled: its hold contains what its fate says. */
  lemma SendFunded(b: Books, c: Books, r: O.Request, held: bool, place: O.Place)
    requires Unused(b, r.holdID) && O.Traced(b, c, r, held, place)
    ensures DispatchOk(c, Dispatch(r, held, place))
  {
    if held {
      TracedLog(b, c, r, held, place, r.holdID);
      TracedBalance(b.balances, c.balances, r, place);
    }
  }

  lemma TracedBalance(b: Balances, c: Balances, r: O.Request, place: O.Place)
    requires O.Resides(b, c, r, place) && forall a :: Bal(b, Hold(r.holdID), a) == 0
    ensures forall a :: Bal(c, Hold(r.holdID), a) == if a == r.asset then (if place.InHold? then r.amount else 0) else 0
  {
    forall a ensures Bal(c, Hold(r.holdID), a) == if a == r.asset then (if place.InHold? then r.amount else 0) else 0 {
      O.ResidesAt(b, c, r, place, r.walletID, r.holdID, a);
    }
  }

  lemma SendOk(s: Sys, t: Sys, r: O.Request, x: Dispatch)
    requires Ok(s) && Unused(s.books, r.holdID) && x.request == r && O.Traced(s.books, t.books, r, x.held, x.place)
    requires t == s.(books := t.books, sent := s.sent + [x]) && Same(s.books, t.books)
    ensures Ok(t) && Apart(s.books, t.books, Switch(r.holdID))
  {
    SendApart(s.books, t.books, r, x.held, x.place);
    SendFunded(s.books, t.books, r, x.held, x.place);
    forall i | 0 <= i < |s.auths| && s.auths[i].hold.Some? ensures s.auths[i].hold.value != r.holdID {
      assert C.RowSound(s.books, s.auths[i]);
    }
    DeskApart(s.Desk(), t.books, Switch(r.holdID));
    assert t.Desk() == s.Desk().(books := t.books);
    forall i | 0 <= i < |s.sent| && s.sent[i].held ensures s.sent[i].request.holdID != r.holdID {
      assert DispatchOk(s.books, s.sent[i]);
    }
    SentApart(s.books, t.books, Switch(r.holdID), s.sent);
  }

  lemma SendMoves(s: Sys, t: Sys, x: Dispatch, w: string, a: string)
    requires O.Resides(s.books.balances, t.books.balances, x.request, x.place) && t.sent == s.sent + [x]
    ensures Unexplained(t, a) == Unexplained(s, a)
    ensures Bal(t.books.balances, Main(w), a) + Placed(t.sent, w, a) == Bal(s.books.balances, Main(w), a) + Placed(s.sent, w, a)
  {
    O.ResidesAt(s.books.balances, t.books.balances, x.request, x.place, w, "", a);
    assert t.sent[..|s.sent|] == s.sent;
  }

  lemma DispatchKeeps(s: Sys, t: Sys, e: B.Setting, x: Dispatch, u: string, a: string)
    requires Ok(s) && u in e.users && Unused(s.books, x.request.holdID) && O.Traced(s.books, t.books, x.request, x.held, x.place)
    requires t == s.(books := t.books, sent := s.sent + [x]) && Same(s.books, t.books)
    ensures Keeps(s, t, e, u, a, 0, 0)
  {
    var scope := Switch(x.request.holdID);
    SendOk(s, t, x.request, x);
    SendMoves(s, t, x, e.users[u].wallet, a);
    LoansStand(s, t, scope);
    CardsStand(s, t, scope, a);
    PoolStands(s, t, scope);
  }

  lemma SendKeeps(s: Sys, e: B.Setting, r: O.Request, u: string, a: string)
    requires Ok(s) && u in e.users && Unused(s.books, r.holdID)
    ensures Keeps(s, AfterStep(s, e, Send(r)), e, u, a, 0, 0)
  {
    O.OutboundTrace(s.books, r);
    OutboundSame(s.books, r);
    DispatchKeeps(s, AfterStep(s, e, Send(r)), e, Dispatch(r, O.Held(s.books, r), O.Fate(s.books, r)), u, a);
  }

  // ---------------------------------------------------------------- every run

  function Fee(step: Step): int { if step.Teller? && step.op.AccrueFee? then step.op.fee else 0 }

  /** What a step is meant to do to a user's position. */
  function Flow(s: Sys, e: B.Setting, step: Step, u: string, a: string): int
    requires u in e.users
  {
    match step
    case Teller(op) => if B.Known(e, op) then B.Effect(s.Bank(), e, op, u, a) else 0
    case Card(st) => C.ToppedUp(st, e.users[u].wallet, a)
    case Lend(st) => LoanTopUp(st, e.users[u].wallet, a)
    case Send(_) => 0
  }

  function Fees(steps: seq<Step>): int { if steps == [] then 0 else Fees(steps[..|steps| - 1]) + Fee(steps[|steps| - 1]) }

  function Flows(s: Sys, e: B.Setting, steps: seq<Step>, u: string, a: string): int
    requires u in e.users
  {
    if steps == [] then 0
    else
      var n := |steps| - 1;
      Flows(s, e, steps[..n], u, a) + Flow(AfterRun(s, e, steps[..n]), e, steps[n], u, a)
  }

  lemma StepKeeps(s: Sys, e: B.Setting, step: Step, u: string, a: string)
    requires Ok(s) && P.WalletsDistinct(e.users) && u in e.users && Legal(s, e, step)
    ensures Keeps(s, AfterStep(s, e, step), e, u, a, Fee(step), Flow(s, e, step, u, a))
  {
    var t := AfterStep(s, e, step);
    match step
    case Teller(op) => RetailKeeps(s, t, e, op, u, a);
    case Card(st) => CardKeeps(s, t, e, st, u, a);
    case Lend(st) => LoanKeeps(s, t, e, st, u, a);
    case Send(r) => SendKeeps(s, e, r, u, a);
  }

  /** On the shared ledger, over every interleaving of payments, overdraft operations, card decisions,
      clearings and reversals, disbursements, repayments, sweeps, top-ups and outbound transfers with lost
      acknowledgements: every card hold and every switch hold contains exactly what its record says, overdraft
      rows and loans satisfy their invariants, nobody is overdrawn, every asset adds up to the same, the
      overdraft pool plus all debts grows by the fees alone, loan capital and interest agree with the loan
      table, both transit accounts agree with the records, and every user's wallet is fully explained. */
  lemma {:induction false} EveryRun(s: Sys, e: B.Setting, steps: seq<Step>, u: string, a: string)
    requires Ok(s) && P.WalletsDistinct(e.users) && u in e.users && LegalRun(s, e, steps)
    ensures Keeps(s, AfterRun(s, e, steps), e, u, a, Fees(steps), Flows(s, e, steps, u, a))
  {
    if steps != [] {
      var n := |steps| - 1;
      EveryRun(s, e, steps[..n], u, a);
      StepKeeps(AfterRun(s, e, steps[..n]), e, steps[n], u, a);
    }
  }
}

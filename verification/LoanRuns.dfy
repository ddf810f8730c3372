/** Whole runs of the loan book: disbursements, manual repayments, sweeps and top-ups in any order. */
module LoanRuns {
  import opened Common
  import opened Chart
  import opened Ledger
  import opened Lending
  import Sums

  datatype Step =
    | Disburse(id: string, borrower: string, wallet: string, principal: int, days: int, approved: bool, d: Delivery)
    | Manual(loanID: string, user: string, amount: int, d: Delivery)
    | Sweep(refs: seq<Ref>, ds: seq<Delivery>)
    | TopUp(wallet: string, amount: int, asset: string, d: Delivery)

  /** Loan ids are fresh; a sweep works on a list of unpaid installments. */
  predicate Legal(b: Book, step: Step) {
    match step
    case Disburse(id, _, _, _, _, _, _) => id !in b.loans
    case Manual(_, _, _, _) => true
    case Sweep(refs, ds) => Due(b, refs) && |ds| == |refs|
    case TopUp(_, _, _, _) => true
  }

  function AfterStep(b: Book, step: Step): Book
    requires BookOk(b) && Legal(b, step)
  {
    match step
    case Disburse(id, u, w, p, n, ok, d) => AfterDisburse(b, id, u, w, p, n, ok, d).book
    case Manual(id, u, n, d) => AfterManual(b, id, u, n, d).book
    case Sweep(refs, ds) => AfterSweep(b, refs, ds)
    case TopUp(w, n, s, d) => b.(books := Submit(b.books, [Posting(World, Main(w), n, s)], d).books)
  }

  lemma NewLoanOk(borrower: string, wallet: string, principal: int, days: int)
    requires principal > 0
    ensures LoanOk(NewLoan(borrower, wallet, principal, days))
  {
    ScheduleAddsUp(principal + FeeOf(principal), Months(days));
  }

  lemma ManualKeeps(b: Book, id: string, user: string, amount: int, d: Delivery)
    requires BookOk(b)
    ensures BookOk(AfterManual(b, id, user, amount, d).book)
  {
    if AfterManual(b, id, user, amount, d).ok {
      var l := b.loans[id];
      var taken := Taken(l, amount);
      CollectMoves(b.books, l, taken, d);
      RepaymentOk(l, taken);
    }
  }

  lemma {:induction false} SweepKeeps(b: Book, refs: seq<Ref>, ds: seq<Delivery>)
    requires BookOk(b) && Due(b, refs) && |ds| == |refs|
    ensures BookOk(AfterSweep(b, refs, ds))
    decreases |refs|
  {
    if refs != [] {
      InstallmentKeeps(b, refs, ds[0]);
      SweepKeeps(AfterInstallment(b, refs[0], ds[0]).book, refs[1..], ds[1..]);
    }
  }

  lemma StepKeeps(b: Book, step: Step)
    requires BookOk(b) && Legal(b, step)
    ensures BookOk(AfterStep(b, step))
  {
    match step
    case Disburse(_, u, w, p, n, _, _) => if p > 0 { NewLoanOk(u, w, p, n); }
    case Manual(id, u, n, d) => ManualKeeps(b, id, u, n, d);
    case Sweep(refs, ds) => SweepKeeps(b, refs, ds);
    case TopUp(_, _, _, _) =>
  }

  predicate LegalRun(b: Book, steps: seq<Step>)
    requires BookOk(b)
    decreases |steps|
  {
    steps == [] || (Legal(b, steps[0]) && (StepKeeps(b, steps[0]); LegalRun(AfterStep(b, steps[0]), steps[1..])))
  }

  function AfterRun(b: Book, steps: seq<Step>): Book
    requires BookOk(b) && LegalRun(b, steps)
    decreases |steps|
  {
    if steps == [] then b
    else
      StepKeeps(b, steps[0]);
      AfterRun(AfterStep(b, steps[0]), steps[1..])
  }

  // ---------------------------------------------------------------- ledger and loan table agree

  /** Principal of one loan that has not come back. */
  function StillOut(l: Loan): int { l.principal - ToCapital(l.receipts) }

  function Outstanding(loans: map<string, Loan>): map<string, int> { map id | id in loans :: StillOut(loans[id]) }

  function Earned(loans: map<string, Loan>): map<string, int> { map id | id in loans :: ToInterest(loans[id].receipts) }

  /** Loan capital plus all principal still out. */
  ghost function CapitalBase(b: Book): int {
    Bal(b.books.balances, LoanCapital, BIRR) + Sums.Total(Outstanding(b.loans))
  }

  /** Interest less everything the receipts booked there. */
  ghost function InterestBase(b: Book): int {
    Bal(b.books.balances, Interest, BIRR) - Sums.Total(Earned(b.loans))
  }

  lemma OutstandingWritten(loans: map<string, Loan>, id: string, l: Loan)
    ensures Sums.Total(Outstanding(loans[id := l]))
            == Sums.Total(Outstanding(loans)) + StillOut(l) - if id in loans then StillOut(loans[id]) else 0
  {
    Sums.TotalUpdate(Outstanding(loans), id, StillOut(l));
    assert Outstanding(loans[id := l]) == Outstanding(loans)[id := StillOut(l)];
  }

  lemma EarnedWritten(loans: map<string, Loan>, id: string, l: Loan)
    ensures Sums.Total(Earned(loans[id := l]))
            == Sums.Total(Earned(loans)) + ToInterest(l.receipts) - if id in loans then ToInterest(loans[id].receipts) else 0
  {
    Sums.TotalUpdate(Earned(loans), id, ToInterest(l.receipts));
    assert Earned(loans[id := l]) == Earned(loans)[id := ToInterest(l.receipts)];
  }

  ghost predicate SameBases(b: Book, c: Book) { CapitalBase(c) == CapitalBase(b) && InterestBase(c) == InterestBase(b) }

  /** One collection, from either writer: `after` is the loan row it leaves. */
  lemma CollectionAgrees(b: Book, id: string, amount: int, d: Delivery, after: Loan)
    requires BookOk(b) && id in b.loans && !d.Lost? && amount >= 0
    requires after.principal == b.loans[id].principal && after.receipts == Collected(b.loans[id], amount).receipts
    ensures var r := Collect(b.books, b.loans[id], amount, d);
            SameBases(b, if r.ok then Book(r.books, b.loans[id := after]) else b.(books := r.books))
  {
    var l := b.loans[id];
    CollectMoves(b.books, l, amount, d);
    CollectedOk(l, amount);
    OutstandingWritten(b.loans, id, after);
    EarnedWritten(b.loans, id, after);
  }

  lemma NegativeRefused(b: Books, l: Loan, amount: int, d: Delivery)
    requires LoanOk(l) && amount < 0
    ensures Collect(b, l, amount, d) == Reply(b, false)
  {
    CollectMoves(b, l, amount, d);
  }

  lemma ManualAgrees(b: Book, id: string, user: string, amount: int, d: Delivery)
    requires BookOk(b) && !d.Lost?
    ensures SameBases(b, AfterManual(b, id, user, amount, d).book)
  {
    if id in b.loans {
      var l := b.loans[id];
      var taken := Taken(l, amount);
      if taken < 0 {
        NegativeRefused(b.books, l, taken, d);
      } else {
        CollectionAgrees(b, id, taken, d, Repayment(l, taken));
      }
    }
  }

  lemma {:induction false} SweepAgrees(b: Book, refs: seq<Ref>, ds: seq<Delivery>)
    requires BookOk(b) && Due(b, refs) && |ds| == |refs| && forall i :: 0 <= i < |ds| ==> !ds[i].Lost?
    ensures SameBases(b, AfterSweep(b, refs, ds))
    decreases |refs|
  {
    if refs != [] {
      var l := b.loans[refs[0].loan];
      CollectionAgrees(b, refs[0].loan, l.installments[refs[0].index].due, ds[0], Swept(l, refs[0].index));
      InstallmentKeeps(b, refs, ds[0]);
      SweepAgrees(AfterInstallment(b, refs[0], ds[0]).book, refs[1..], ds[1..]);
    }
  }

  lemma DisburseAgrees(b: Book, id: string, u: string, w: string, principal: int, days: int, approved: bool, d: Delivery)
    requires BookOk(b) && !d.Lost? && id !in b.loans
    ensures SameBases(b, AfterDisburse(b, id, u, w, principal, days, approved, d).book)
  {
    SubmitOne(b.books, Posting(LoanCapital, Main(w), principal, BIRR), d);
    if principal > 0 {
      OutstandingWritten(b.loans, id, NewLoan(u, w, principal, days));
      EarnedWritten(b.loans, id, NewLoan(u, w, principal, days));
    }
  }

  predicate NothingLost(step: Step) {
    match step
    case Disburse(_, _, _, _, _, _, d) => !d.Lost?
    case Manual(_, _, _, d) => !d.Lost?
    case Sweep(_, ds) => forall i :: 0 <= i < |ds| ==> !ds[i].Lost?
    case TopUp(_, _, _, _) => true
  }

  lemma StepAgrees(b: Book, step: Step)
    requires BookOk(b) && Legal(b, step) && NothingLost(step)
    ensures SameBases(b, AfterStep(b, step))
  {
    match step
    case Disburse(id, u, w, p, n, ok, d) => DisburseAgrees(b, id, u, w, p, n, ok, d);
    case Manual(id, u, n, d) => ManualAgrees(b, id, u, n, d);
    case Sweep(refs, ds) => SweepAgrees(b, refs, ds);
    case TopUp(w, n, s, d) => SubmitOne(b.books, Posting(World, Main(w), n, s), d);
  }

  /** Over any sequence of disbursements, manual repayments, sweeps and top-ups every loan stays consistent: its
      schedule adds up to its total due and the dues of installments marked paid never exceed what was
      collected. If no acknowledgement is lost, loan capital plus all principal still out is constant,
      and interest grew by exactly what the receipts booked there. */
  lemma {:induction false} EveryRun(b: Book, steps: seq<Step>)
    requires BookOk(b) && LegalRun(b, steps)
    ensures BookOk(AfterRun(b, steps))
    ensures (forall i :: 0 <= i < |steps| ==> NothingLost(steps[i])) ==> SameBases(b, AfterRun(b, steps))
    decreases |steps|
  {
    if steps != [] {
      var c := AfterStep(b, steps[0]);
      StepKeeps(b, steps[0]);
      EveryRun(c, steps[1..]);
      if NothingLost(steps[0]) { StepAgrees(b, steps[0]); }
    }
  }

  // ---------------------------------------------------------------- one writer at a time

  /** With manual repayments alone: never over the total, and Repaid exactly when it is reached. */
  predicate Tidy(l: Loan) {
    && l.totalPaid <= l.TotalDue()
    && (l.status.Repaid? <==> l.totalPaid == l.TotalDue())
  }

  lemma {:induction false} ManualOnly(b: Book, steps: seq<Step>)
    requires BookOk(b) && LegalRun(b, steps)
    requires forall i :: 0 <= i < |steps| ==> !steps[i].Sweep?
    requires forall id :: id in b.loans ==> Tidy(b.loans[id])
    ensures forall id :: id in AfterRun(b, steps).loans ==> Tidy(AfterRun(b, steps).loans[id])
    decreases |steps|
  {
    if steps != [] {
      var c := AfterStep(b, steps[0]);
      StepKeeps(b, steps[0]);
      match steps[0] {
        case Disburse(_, _, _, _, _, _, _) =>
        case Manual(id, u, n, d) =>
          if id in b.loans {
            CollectMoves(b.books, b.loans[id], Taken(b.loans[id], n), d);
          }
        case Sweep(_, _) =>
        case TopUp(_, _, _, _) =>
      }
      assert forall id :: id in c.loans ==> Tidy(c.loans[id]);
      ManualOnly(c, steps[1..]);
    }
  }

  predicate NoSlack(b: Book) { forall id :: id in b.loans ==> Slack(b.loans[id]) == 0 && !b.loans[id].status.Repaid? }

  lemma {:induction false} SweepNoSlack(b: Book, refs: seq<Ref>, ds: seq<Delivery>)
    requires BookOk(b) && Due(b, refs) && |ds| == |refs| && NoSlack(b)
    ensures NoSlack(AfterSweep(b, refs, ds))
    decreases |refs|
  {
    if refs != [] {
      SweptOk(b.loans[refs[0].loan], refs[0].index);
      InstallmentKeeps(b, refs, ds[0]);
      SweepNoSlack(AfterInstallment(b, refs[0], ds[0]).book, refs[1..], ds[1..]);
    }
  }

  lemma DisburseNoSlack(b: Book, id: string, u: string, w: string, principal: int, days: int, approved: bool, d: Delivery)
    requires BookOk(b) && NoSlack(b)
    ensures NoSlack(AfterDisburse(b, id, u, w, principal, days, approved, d).book)
  {
    if principal > 0 { ScheduleAddsUp(principal + FeeOf(principal), Months(days)); }
  }

  /** With sweeps alone the total paid is exactly the dues of the installments marked paid (so it
      reaches the total due when the last one is), and no sweep ever marks a loan Repaid. */
  lemma {:induction false} SweepOnly(b: Book, steps: seq<Step>)
    requires BookOk(b) && LegalRun(b, steps) && NoSlack(b)
    requires forall i :: 0 <= i < |steps| ==> !steps[i].Manual?
    ensures NoSlack(AfterRun(b, steps))
    decreases |steps|
  {
    if steps != [] {
      var c := AfterStep(b, steps[0]);
      StepKeeps(b, steps[0]);
      assert NoSlack(c) by {
        match steps[0]
        case Disburse(id, u, w, p, n, ok, d) => DisburseNoSlack(b, id, u, w, p, n, ok, d);
        case Manual(_, _, _, _) =>
        case Sweep(refs, ds) => SweepNoSlack(b, refs, ds);
        case TopUp(_, _, _, _) =>
      }
      SweepOnly(c, steps[1..]);
    }
  }

  // ---------------------------------------------------------------- both writers

  /** A manual repayment that goes through pays for a whole number of installments. */
  ghost predicate ExactStep(b: Book, step: Step)
    requires BookOk(b)
  {
    step.Manual? && AfterManual(b, step.loanID, step.user, step.amount, step.d).ok ==>
      Whole(b.loans[step.loanID].installments, Taken(b.loans[step.loanID], step.amount))
  }

  ghost predicate ExactRun(b: Book, steps: seq<Step>)
    requires BookOk(b) && LegalRun(b, steps)
    decreases |steps|
  {
    steps == [] || (ExactStep(b, steps[0]) && (StepKeeps(b, steps[0]); ExactRun(AfterStep(b, steps[0]), steps[1..])))
  }

  predicate AllAccounted(b: Book) { forall id :: id in b.loans ==> Slack(b.loans[id]) == 0 }

  predicate NoneOver(b: Book) { forall id :: id in b.loans ==> b.loans[id].totalPaid <= b.loans[id].TotalDue() }

  predicate Finished(l: Loan) { forall i :: 0 <= i < |l.installments| ==> l.installments[i].paid }

  lemma InstallmentAccounted(b: Book, ref: Ref, d: Delivery)
    requires BookOk(b) && Present(b, ref) && !b.loans[ref.loan].installments[ref.index].paid
    ensures AllAccounted(AfterInstallment(b, ref, d).book) <==> AllAccounted(b)
  {
    var c := AfterInstallment(b, ref, d).book;
    SweptOk(b.loans[ref.loan], ref.index);
    assert forall id :: id in b.loans ==> id in c.loans && Slack(c.loans[id]) == Slack(b.loans[id]);
  }

  lemma {:induction false} SweepAccounted(b: Book, refs: seq<Ref>, ds: seq<Delivery>)
    requires BookOk(b) && Due(b, refs) && |ds| == |refs|
    ensures AllAccounted(AfterSweep(b, refs, ds)) <==> AllAccounted(b)
    decreases |refs|
  {
    if refs != [] {
      InstallmentAccounted(b, refs[0], ds[0]);
      InstallmentKeeps(b, refs, ds[0]);
      SweepAccounted(AfterInstallment(b, refs[0], ds[0]).book, refs[1..], ds[1..]);
    }
  }

  lemma ManualAccounted(b: Book, id: string, user: string, amount: int, d: Delivery)
    requires BookOk(b)
    ensures AllAccounted(AfterManual(b, id, user, amount, d).book) <==> AllAccounted(b) && ExactStep(b, Manual(id, user, amount, d))
  {
    if AfterManual(b, id, user, amount, d).ok {
      var l, c := b.loans[id], AfterManual(b, id, user, amount, d).book;
      CollectMoves(b.books, l, Taken(l, amount), d);
      RepaymentOk(l, Taken(l, amount));
      WholeKeepsSlack(l, Taken(l, amount));
      assert c.loans[id] == Repayment(l, Taken(l, amount)) && forall other :: other in b.loans && other != id ==> c.loans[other] == b.loans[other];
    }
  }

  lemma DisburseAccounted(b: Book, id: string, u: string, w: string, principal: int, days: int, approved: bool, d: Delivery)
    requires BookOk(b) && id !in b.loans
    ensures AllAccounted(AfterDisburse(b, id, u, w, principal, days, approved, d).book) <==> AllAccounted(b)
  {
    if principal > 0 {
      ScheduleAddsUp(principal + FeeOf(principal), Months(days));
      var c := AfterDisburse(b, id, u, w, principal, days, approved, d).book;
      assert forall other :: other in b.loans ==> other in c.loans && c.loans[other] == b.loans[other];
    }
  }

  lemma StepAccounted(b: Book, step: Step)
    requires BookOk(b) && Legal(b, step)
    ensures AllAccounted(AfterStep(b, step)) <==> AllAccounted(b) && ExactStep(b, step)
  {
    match step
    case Disburse(id, u, w, p, n, ok, d) => DisburseAccounted(b, id, u, w, p, n, ok, d);
    case Manual(id, u, n, d) => ManualAccounted(b, id, u, n, d);
    case Sweep(refs, ds) => SweepAccounted(b, refs, ds);
    case TopUp(_, _, _, _) =>
  }

  lemma AccountedWithin(b: Book)
    requires BookOk(b)
    ensures AllAccounted(b) ==> NoneOver(b)
    ensures (forall id :: id in b.loans ==> Finished(b.loans[id])) ==> (NoneOver(b) <==> AllAccounted(b))
  {
    forall id | id in b.loans
      ensures Slack(b.loans[id]) == 0 ==> b.loans[id].totalPaid <= b.loans[id].TotalDue()
      ensures Finished(b.loans[id]) ==> (b.loans[id].totalPaid <= b.loans[id].TotalDue() <==> Slack(b.loans[id]) == 0)
    {
      PaidWithinDues(b.loans[id].installments);
      if Finished(b.loans[id]) { Overcollection(b.loans[id]); }
    }
  }

  /** Manual repayments and sweeps in any mixture leave every collected cent accounted for by a paid
      installment if and only if every manual repayment that went through paid for whole installments.
      Then no loan is collected beyond its total; and once every installment is paid, no loan is
      over-collected only then. */
  lemma {:induction false} ExactMixture(b: Book, steps: seq<Step>)
    requires BookOk(b) && LegalRun(b, steps)
    ensures AllAccounted(AfterRun(b, steps)) <==> AllAccounted(b) && ExactRun(b, steps)
    ensures AllAccounted(b) && ExactRun(b, steps) ==> NoneOver(AfterRun(b, steps))
    ensures (forall id :: id in AfterRun(b, steps).loans ==> Finished(AfterRun(b, steps).loans[id])) ==>
              (NoneOver(AfterRun(b, steps)) <==> AllAccounted(b) && ExactRun(b, steps))
    decreases |steps|
  {
    if steps != [] {
      StepKeeps(b, steps[0]);
      StepAccounted(b, steps[0]);
      ExactMixture(AfterStep(b, steps[0]), steps[1..]);
    } else {
      AccountedWithin(b);
    }
  }

  // ---------------------------------------------------------------- collected twice

  const LOAN := "l"
  const USER := "u"
  const PURSE := "w"

  /** One loan of this user in the table, and this much in the wallet. */
  predicate OneLoan(b: Book, l: Loan, funds: int) {
    b.loans == map[LOAN := l] && l.borrower == USER && l.wallet == PURSE && LoanOk(l) && Bal(b.books.balances, Main(PURSE), BIRR) == funds
  }

  /** A legal run after which the loan of 105 has been collected twice and the wallet is empty. */
  ghost predicate Doubles(b: Book, steps: seq<Step>) {
    && BookOk(b) && LegalRun(b, steps)
    && var c := AfterRun(b, steps);
    && LOAN in c.loans && c.loans[LOAN].TotalDue() == 105 && c.loans[LOAN].totalPaid == 210
    && Bal(c.books.balances, Main(PURSE), BIRR) == 0
  }

  lemma DoublesBefore(b: Book, step: Step, rest: seq<Step>)
    requires BookOk(b) && Legal(b, step) && Doubles(AfterStep(b, step), rest)
    ensures Doubles(b, [step] + rest)
  {
    assert ([step] + rest)[1..] == rest;
  }

  lemma PaysByHand(b: Book, l: Loan, funds: int, amount: int)
    requires OneLoan(b, l, funds) && l.status.Active? && 0 < amount <= funds && amount <= l.TotalDue() - l.totalPaid
    ensures BookOk(b) && OneLoan(AfterManual(b, LOAN, USER, amount, Acked).book, Repayment(l, amount), funds - amount)
  {
    CollectMoves(b.books, l, amount, Acked);
    RepaymentOk(l, amount);
  }

  lemma CollectedAgain(b: Book, l: Loan, funds: int)
    requires OneLoan(b, l, funds) && |l.installments| == 1 && !l.installments[0].paid && l.installments[0].due <= funds
    ensures BookOk(b) && OneLoan(AfterInstallment(b, Ref(LOAN, 0), Acked).book, Swept(l, 0), funds - l.installments[0].due)
  {
    CollectMoves(b.books, l, l.installments[0].due, Acked);
    SweptOk(l, 0);
  }

  lemma SweptAgain(b: Book, ref: Ref)
    requires BookOk(b) && Due(b, [ref])
    ensures AfterSweep(b, [ref], [Acked]) == AfterInstallment(b, ref, Acked).book
  {
    InstallmentKeeps(b, [ref], Acked);
    assert [ref][1..] == [] && [Acked][1..] == [];
  }

  lemma Lent()
    ensures var b := Book(Books(map[Slot(LoanCapital, BIRR) := 100], [], map[]), map[]);
            OneLoan(AfterDisburse(b, LOAN, USER, PURSE, 100, 30, true, Acked).book, NewLoan(USER, PURSE, 100, 30), 100)
  {
    var b := Book(Books(map[Slot(LoanCapital, BIRR) := 100], [], map[]), map[]);
    SubmitOne(b.books, Posting(LoanCapital, Main(PURSE), 100, BIRR), Acked);
    NewLoanOk(USER, PURSE, 100, 30);
  }

  lemma ToppedUp(b: Book, l: Loan, funds: int, amount: int)
    requires OneLoan(b, l, funds) && amount >= 0
    ensures BookOk(b) && OneLoan(AfterStep(b, TopUp(PURSE, amount, BIRR, Acked)), l, funds + amount)
  {
    SubmitOne(b.books, Posting(World, Main(PURSE), amount, BIRR), Acked);
  }

  /** The row of a one-month loan of 100: 105 due, paid by hand in two parts that each fall short of the
      installment, then swept. */
  lemma TwoHalves()
    ensures var l := NewLoan(USER, PURSE, 100, 30);
            && l.status.Active? && l.TotalDue() == 105 && l.totalPaid == 0 && l.installments == [Installment(1, 105, false)]
            && Repayment(l, 50).status.Active? && Repayment(l, 50).installments == l.installments
            && Repayment(Repayment(l, 50), 55).status.Repaid? && Repayment(Repayment(l, 50), 55).installments == l.installments
            && Swept(Repayment(Repayment(l, 50), 55), 0).totalPaid == 210
  {
    assert Months(30) == 1 && FeeOf(100) == 5;
    assert Schedule(105, 1) == [Installment(1, 105, false)];
  }

  lemma LastStep(b: Book, l: Loan)
    requires OneLoan(b, l, 105) && l.TotalDue() == 105 && l.totalPaid == 105 && l.installments == [Installment(1, 105, false)]
    ensures Doubles(b, [Sweep([Ref(LOAN, 0)], [Acked])] + [])
  {
    CollectedAgain(b, l, 105);
    SweptAgain(b, Ref(LOAN, 0));
    var c := AfterSweep(b, [Ref(LOAN, 0)], [Acked]);
    assert BookOk(c) && LegalRun(c, []) && AfterRun(c, []) == c;
    DoublesBefore(b, Sweep([Ref(LOAN, 0)], [Acked]), []);
  }

  lemma OwedByHand(b: Book, l: Loan)
    requires l == NewLoan(USER, PURSE, 100, 30) && OneLoan(b, l, 210)
    ensures Doubles(b, [Manual(LOAN, USER, 50, Acked)] + ([Manual(LOAN, USER, 55, Acked)] + ([Sweep([Ref(LOAN, 0)], [Acked])] + [])))
  {
    TwoHalves();
    PaysByHand(b, l, 210, 50);
    var c := AfterManual(b, LOAN, USER, 50, Acked).book;
    PaysByHand(c, Repayment(l, 50), 160, 55);
    var d := AfterManual(c, LOAN, USER, 55, Acked).book;
    LastStep(d, Repayment(Repayment(l, 50), 55));
    DoublesBefore(c, Manual(LOAN, USER, 55, Acked), [Sweep([Ref(LOAN, 0)], [Acked])] + []);
    DoublesBefore(b, Manual(LOAN, USER, 50, Acked), [Manual(LOAN, USER, 55, Acked)] + ([Sweep([Ref(LOAN, 0)], [Acked])] + []));
  }

  /** A legal run through the service and the ledger that collects a loan twice: disbursed, paid by hand
      in two parts, marked Repaid, and swept in full all the same. */
  lemma OvercollectionRun()
    ensures var b := Book(Books(map[Slot(LoanCapital, BIRR) := 100], [], map[]), map[]);
            AllAccounted(b) && Doubles(b, [Disburse(LOAN, USER, PURSE, 100, 30, true, Acked)] + ([TopUp(PURSE, 110, BIRR, Acked)]
              + ([Manual(LOAN, USER, 50, Acked)] + ([Manual(LOAN, USER, 55, Acked)] + ([Sweep([Ref(LOAN, 0)], [Acked])] + [])))))
  {
    var b := Book(Books(map[Slot(LoanCapital, BIRR) := 100], [], map[]), map[]);
    var byHand := [Manual(LOAN, USER, 50, Acked)] + ([Manual(LOAN, USER, 55, Acked)] + ([Sweep([Ref(LOAN, 0)], [Acked])] + []));
    var l := NewLoan(USER, PURSE, 100, 30);
    Lent();
    var c := AfterDisburse(b, LOAN, USER, PURSE, 100, 30, true, Acked).book;
    ToppedUp(c, l, 100, 110);
    OwedByHand(AfterStep(c, TopUp(PURSE, 110, BIRR, Acked)), l);
    DoublesBefore(c, TopUp(PURSE, 110, BIRR, Acked), byHand);
    DoublesBefore(b, Disburse(LOAN, USER, PURSE, 100, 30, true, Acked), [TopUp(PURSE, 110, BIRR, Acked)] + byHand);
  }
}

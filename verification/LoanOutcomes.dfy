/** When disbursements, repayments and sweeps go through, and what they write, read off the terms, the wallets
    and the tables alone. */
module LoanOutcomes {
  import opened Common
  import opened Chart
  import opened Ledger
  import opened Lending

  // ---------------------------------------------------------------- disbursement

  /** A plan of n equal installments, numbered from one and unpaid, with the last one taking what the division
      by n leaves over. */
  predicate EvenPlan(plan: seq<Installment>, n: int) {
    && |plan| == n >= 1
    && (forall k :: 0 <= k < n ==> plan[k].number == k + 1 && !plan[k].paid)
    && (forall k :: 0 <= k < n - 1 ==> plan[k].due == plan[0].due)
    && plan[0].due <= plan[n - 1].due < plan[0].due + n
  }

  lemma LastTakesRest(total: int, n: int)
    requires total >= 0 && n >= 1
    ensures var each := total / n; each <= total - each * (n - 1) < each + n
  {
    var each := total / n;
    assert total == each * n + total % n;
    Distribute(each, n);
  }

  lemma ScheduleIsEven(total: int, n: int)
    requires total >= 0 && n >= 1
    ensures EvenPlan(Schedule(total, n), n)
  {
    LastTakesRest(total, n);
  }

  /** A disbursement goes through exactly when the principal is positive, the duration between a week and a
      year, the borrower approved, the pool able to pay and the posting acknowledged. Then the principal goes
      from loan capital to the borrower, and one loan is written: five percent on top, rounded down, in one
      installment below thirty days and in one for every full thirty days otherwise. */
  lemma DisbursementExactly(b: Book, id: string, borrower: string, wallet: string, principal: int, days: int, approved: bool, d: Delivery)
    ensures var o := AfterDisburse(b, id, borrower, wallet, principal, days, approved, d);
            var sent := principal > 0 && 7 <= days <= 365 && approved
                        && Bal(b.books.balances, LoanCapital, "ETB/2") >= principal && !d.Dropped?;
            && (o.ok <==> sent && d.Acked?)
            && (!sent ==> o.book == b)
            && (sent ==> Shifted(b.books.balances, o.book.books.balances, LoanCapital, Main(wallet), principal, "ETB/2"))
            && (!o.ok ==> o.book.loans == b.loans)
            && (o.ok ==>
                  && o.book.loans.Keys == b.loans.Keys + {id}
                  && (forall other :: other in b.loans && other != id ==> o.book.loans[other] == b.loans[other])
                  && var l := o.book.loans[id];
                  && l.borrower == borrower && l.wallet == wallet && l.principal == principal
                  && l.totalPaid == 0 && l.status.Active? && l.receipts == []
                  && 20 * l.fee <= principal < 20 * (l.fee + 1)
                  && SumDue(l.installments) == principal + l.fee
                  && EvenPlan(l.installments, |l.installments|)
                  && (if days < 30 then |l.installments| == 1
                      else 30 * |l.installments| <= days < 30 * (|l.installments| + 1)))
  {
    SubmitOne(b.books, Posting(LoanCapital, Main(wallet), principal, BIRR), d);
    if principal > 0 {
      var total, n := principal + FeeOf(principal), Months(days);
      ScheduleAddsUp(total, n);
      ScheduleIsEven(total, n);
    }
  }

  // ---------------------------------------------------------------- repayment by hand

  /** The first k installments are paid afterwards and the rest is as it was; what was unpaid among them fits
      into the amount, and one more would not. */
  ghost predicate PaysFirst(plan: seq<Installment>, marked: seq<Installment>, amount: int, k: int) {
    && 0 <= k <= |plan| == |marked|
    && (forall i :: 0 <= i < k ==> marked[i] == plan[i].(paid := true))
    && (forall i :: k <= i < |plan| ==> marked[i] == plan[i])
    && SumDue(plan[..k]) - PaidDues(plan[..k]) <= amount
    && (k < |plan| ==> !plan[k].paid && SumDue(plan[..k]) - PaidDues(plan[..k]) + plan[k].due > amount)
  }

  lemma OneMorePaid(plan: seq<Installment>, amount: int, left: int, j: int)
    requires plan != [] && (plan[0].paid || plan[0].due <= amount) && left == amount - (if plan[0].paid then 0 else plan[0].due)
    requires PaysFirst(plan[1..], Mark(plan[1..], left), left, j)
    ensures PaysFirst(plan, Mark(plan, amount), amount, j + 1)
  {
    var rest, marked, all := plan[1..], Mark(plan[1..], left), Mark(plan, amount);
    assert plan[..j + 1] == [plan[0]] + rest[..j];
    DuesFromFront(plan[0], rest[..j]);
    assert all == [plan[0].(paid := true)] + marked;
    assert forall i :: 0 < i < |plan| ==> plan[i] == rest[i - 1] && all[i] == marked[i - 1];
  }

  /** The marking loop pays for as many installments, in order, as the amount covers. */
  lemma {:induction false} MarkPaysFirst(plan: seq<Installment>, amount: int) returns (k: int)
    requires amount >= 0
    ensures PaysFirst(plan, Mark(plan, amount), amount, k)
    decreases |plan|
  {
    if plan == [] || (!plan[0].paid && plan[0].due > amount) {
      k := 0;
    } else {
      var left := amount - if plan[0].paid then 0 else plan[0].due;
      k := MarkPaysFirst(plan[1..], left);
      OneMorePaid(plan, amount, left, k);
      k := k + 1;
    }
  }

  /** What the collection of `amount` moves: the wallet pays it, loan capital gets `share` of it and interest
      the rest. */
  ghost predicate Paid(b: Balances, c: Balances, wallet: string, amount: int, share: int) {
    forall a, s :: Bal(c, a, s) == Bal(b, a, s)
      - (if a == Main(wallet) && s == "ETB/2" then amount else 0)
      + (if a == LoanCapital && s == "ETB/2" then share else 0)
      + (if a == Interest && s == "ETB/2" then amount - share else 0)
  }

  /** A positive amount, offered by the loan's own borrower, for a loan that is active or in arrears. */
  predicate Acceptable(b: Book, id: string, user: string, amount: int) {
    && amount > 0 && id in b.loans && b.loans[id].borrower == user
    && (b.loans[id].status.Active? || b.loans[id].status.InArrears?)
  }

  /** What is left to pay, if the amount is more. */
  function Owing(l: Loan, amount: int): int { Min(amount, l.principal + l.fee - l.totalPaid) }

  /** A manual repayment goes through exactly when it is acceptable, the wallet has the smaller of the amount and
      what is left to pay, and the posting is acknowledged. */
  lemma ManualGoesThrough(b: Book, id: string, user: string, amount: int, d: Delivery)
    requires BookOk(b)
    ensures var o := AfterManual(b, id, user, amount, d);
            && (o.ok <==>
                  && Acceptable(b, id, user, amount) && d.Acked?
                  && 0 <= Owing(b.loans[id], amount) <= Bal(b.books.balances, Main(b.loans[id].wallet), "ETB/2"))
            && (!Acceptable(b, id, user, amount) ==> o.book == b)
            && (!o.ok ==> o.book.loans == b.loans)
  {
    if Acceptable(b, id, user, amount) {
      CollectMoves(b.books, b.loans[id], Owing(b.loans[id], amount), d);
    }
  }

  /** Only this loan's row has changed, and of its terms none. */
  predicate Rewritten(b: Book, c: Book, id: string) {
    && id in b.loans && c.loans.Keys == b.loans.Keys
    && (forall other :: other in b.loans && other != id ==> c.loans[other] == b.loans[other])
    && var l, m := b.loans[id], c.loans[id];
       m == l.(totalPaid := m.totalPaid, status := m.status, installments := m.installments, receipts := m.receipts)
  }

  /** One more receipt, for this amount, counted in the total. */
  predicate Receipted(l: Loan, m: Loan, amount: int) {
    && m.totalPaid == l.totalPaid + amount
    && |m.receipts| == |l.receipts| + 1 && m.receipts[..|l.receipts|] == l.receipts && m.receipts[|l.receipts|].amount == amount
  }

  /** Then exactly what is due is taken and counted; it pays for as many installments, in order, as it covers; the
      loan is repaid exactly when the total is reached. */
  lemma ManualWrites(b: Book, id: string, user: string, amount: int, d: Delivery)
    requires BookOk(b) && Acceptable(b, id, user, amount) && d.Acked?
    requires 0 <= Owing(b.loans[id], amount) <= Bal(b.books.balances, Main(b.loans[id].wallet), "ETB/2")
    ensures var c := AfterManual(b, id, user, amount, d).book;
            && Rewritten(b, c, id)
            && var l, m := b.loans[id], c.loans[id];
            var taken := Owing(l, amount);
            && Receipted(l, m, taken)
            && m.status == (if m.totalPaid >= l.principal + l.fee then Repaid else l.status)
            && Paid(b.books.balances, c.books.balances, l.wallet, taken, taken - m.receipts[|l.receipts|].fee)
            && exists k :: PaysFirst(l.installments, m.installments, taken, k)
  {
    var l := b.loans[id];
    var taken := Owing(l, amount);
    ManualGoesThrough(b, id, user, amount, d);
    CollectMoves(b.books, l, taken, d);
    var k := MarkPaysFirst(l.installments, taken);
  }

  // ---------------------------------------------------------------- the sweep

  /** The posting is acknowledged and the wallet has the whole installment. */
  predicate Collectable(b: Book, ref: Ref, d: Delivery)
    requires Present(b, ref)
  {
    var l := b.loans[ref.loan];
    d.Acked? && l.installments[ref.index].due <= Bal(b.books.balances, Main(l.wallet), "ETB/2")
  }

  /** An installment is collected exactly then, in full, and marked; the loan's status is not looked at and
      stays. */
  lemma InstallmentExactly(b: Book, ref: Ref, d: Delivery)
    requires BookOk(b) && Present(b, ref)
    ensures var o := AfterInstallment(b, ref, d);
            && (o.ok <==> Collectable(b, ref, d))
            && (!o.ok ==> o.book.loans == b.loans)
            && (o.ok ==>
                  && Rewritten(b, o.book, ref.loan)
                  && var l, m := b.loans[ref.loan], o.book.loans[ref.loan];
                  var due := l.installments[ref.index].due;
                  && Receipted(l, m, due) && m.status == l.status
                  && m.installments == l.installments[ref.index := l.installments[ref.index].(paid := true)]
                  && Paid(b.books.balances, o.book.books.balances, l.wallet, due, due - m.receipts[|l.receipts|].fee))
  {
    var l := b.loans[ref.loan];
    CollectMoves(b.books, l, l.installments[ref.index].due, d);
  }

  predicate PaidUp(b: Book, ref: Ref) { Present(b, ref) && b.loans[ref.loan].installments[ref.index].paid }

  /** The same loans with the same terms, and every installment as it was but for the listed ones. */
  ghost predicate SameButListed(b: Book, c: Book, refs: seq<Ref>) {
    && c.loans.Keys == b.loans.Keys
    && (forall id :: id in b.loans ==>
          c.loans[id].wallet == b.loans[id].wallet && |c.loans[id].installments| == |b.loans[id].installments|)
    && (forall id, i :: id in b.loans && 0 <= i < |b.loans[id].installments| ==>
          c.loans[id].installments[i].due == b.loans[id].installments[i].due
          && (Ref(id, i) !in refs ==> c.loans[id].installments[i] == b.loans[id].installments[i]))
  }

  lemma DuePrefix(b: Book, refs: seq<Ref>, i: nat)
    requires Due(b, refs) && i <= |refs|
    ensures Due(b, refs[..i])
  {}

  lemma InstallmentTouches(b: Book, ref: Ref, d: Delivery)
    requires BookOk(b) && Present(b, ref)
    ensures SameButListed(b, AfterInstallment(b, ref, d).book, [ref])
  {
    InstallmentExactly(b, ref, d);
  }

  lemma ListedThen(b: Book, c: Book, e: Book, ref: Ref, rest: seq<Ref>)
    requires SameButListed(b, c, [ref]) && SameButListed(c, e, rest)
    ensures SameButListed(b, e, [ref] + rest)
  {
    forall id, i | id in b.loans && 0 <= i < |b.loans[id].installments|
      ensures e.loans[id].installments[i].due == b.loans[id].installments[i].due
      ensures Ref(id, i) !in [ref] + rest ==> e.loans[id].installments[i] == b.loans[id].installments[i]
    {
      assert Ref(id, i) !in [ref] + rest ==> Ref(id, i) !in [ref] && Ref(id, i) !in rest;
      assert c.loans[id].installments[i].due == b.loans[id].installments[i].due;
    }
  }

  lemma {:induction false} SweepTouchesListed(b: Book, refs: seq<Ref>, ds: seq<Delivery>)
    requires BookOk(b) && Due(b, refs) && |ds| == |refs|
    ensures SameButListed(b, AfterSweep(b, refs, ds), refs)
    decreases |refs|
  {
    if refs != [] {
      InstallmentKeeps(b, refs, ds[0]);
      var c := AfterInstallment(b, refs[0], ds[0]).book;
      InstallmentTouches(b, refs[0], ds[0]);
      SweepTouchesListed(c, refs[1..], ds[1..]);
      ListedThen(b, c, AfterSweep(c, refs[1..], ds[1..]), refs[0], refs[1..]);
      assert refs == [refs[0]] + refs[1..];
    }
  }

  /** The state in which the sweep comes to entry i. */
  function Reached(b: Book, refs: seq<Ref>, ds: seq<Delivery>, i: nat): Book
    requires BookOk(b) && Due(b, refs) && |ds| == |refs| && i <= |refs|
  {
    DuePrefix(b, refs, i);
    AfterSweep(b, refs[..i], ds[..i])
  }

  lemma ReachedNext(b: Book, refs: seq<Ref>, ds: seq<Delivery>, i: nat)
    requires BookOk(b) && Due(b, refs) && |ds| == |refs| && 0 < i <= |refs|
    ensures var c := AfterInstallment(b, refs[0], ds[0]).book;
            BookOk(c) && Due(c, refs[1..]) && Reached(b, refs, ds, i) == Reached(c, refs[1..], ds[1..], i - 1)
  {
    InstallmentKeeps(b, refs, ds[0]);
    DuePrefix(b, refs, i);
    assert refs[..i][1..] == refs[1..][..i - 1] && ds[..i][1..] == ds[1..][..i - 1];
  }

  lemma FirstPays(b: Book, refs: seq<Ref>, ds: seq<Delivery>)
    requires BookOk(b) && Due(b, refs) && |ds| == |refs| && refs != []
    ensures PaidUp(AfterSweep(b, refs, ds), refs[0]) <==> Collectable(b, refs[0], ds[0])
  {
    InstallmentKeeps(b, refs, ds[0]);
    InstallmentExactly(b, refs[0], ds[0]);
    SweepTouchesListed(AfterInstallment(b, refs[0], ds[0]).book, refs[1..], ds[1..]);
    assert refs[0] !in refs[1..];
  }

  /** After the sweep an entry of its list is paid exactly when it was collectable at its turn; that others
      before it failed makes no difference. */
  lemma {:induction false} SweepPays(b: Book, refs: seq<Ref>, ds: seq<Delivery>, i: nat)
    requires BookOk(b) && Due(b, refs) && |ds| == |refs| && i < |refs|
    ensures var r := Reached(b, refs, ds, i);
            && Present(r, refs[i]) && !PaidUp(r, refs[i])
            && (PaidUp(AfterSweep(b, refs, ds), refs[i]) <==> Collectable(r, refs[i], ds[i]))
    decreases |refs|
  {
    if i == 0 {
      FirstPays(b, refs, ds);
    } else {
      ReachedNext(b, refs, ds, i);
      SweepPays(AfterInstallment(b, refs[0], ds[0]).book, refs[1..], ds[1..], i - 1);
    }
  }
}

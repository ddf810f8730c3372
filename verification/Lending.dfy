/** Loans: schedule, manual repayment and the daily sweep, both writing the same rows
    (internal/services/lending/disbursement.go, internal/services/lending/repayment.go). */
module Lending {
  import opened Common
  import opened Chart
  import opened Ledger

  const BIRR := "ETB/2"

  datatype LoanStatus = Active | InArrears | Defaulted | Repaid | WrittenOff

  datatype Installment = Installment(number: int, due: int, paid: bool)

  /** A repayment receipt: what was collected and how much of it went to interest. */
  datatype Receipt = Receipt(amount: int, fee: int)

  /** `wallet` is the borrower's. */
  datatype Loan = Loan(
    borrower: string, wallet: string, principal: int, fee: int, totalPaid: int,
    status: LoanStatus, installments: seq<Installment>, receipts: seq<Receipt>)
  {
    function TotalDue(): int { principal + fee }
  }

  datatype Book = Book(books: Books, loans: map<string, Loan>)

  datatype Outcome = Outcome(book: Book, ok: bool)

  // ---------------------------------------------------------------- schedule

  /** The flat facilitation fee: five percent, truncated. */
  function FeeOf(principal: int): int
    requires principal >= 0
  {
    principal * 5 / 100
  }

  function Months(durationDays: int): int { Max(durationDays / 30, 1) }

  function SumDue(plan: seq<Installment>): int {
    if plan == [] then 0 else SumDue(plan[..|plan| - 1]) + plan[|plan| - 1].due
  }

  function PaidDues(plan: seq<Installment>): int {
    if plan == [] then 0 else PaidDues(plan[..|plan| - 1]) + if plan[|plan| - 1].paid then plan[|plan| - 1].due else 0
  }

  /** Equal monthly amounts, the last one taking the remainder. */
  function Schedule(totalDue: int, months: int): (plan: seq<Installment>)
    requires months >= 1
    ensures |plan| == months
  {
    var each := totalDue / months;
    seq(months, k => Installment(k + 1, if k == months - 1 then totalDue - each * (months - 1) else each, false))
  }

  method MakeSchedule(totalDue: int, durationDays: int) returns (plan: seq<Installment>)
    ensures plan == Schedule(totalDue, Months(durationDays))
  {
    var months := durationDays / 30;
    if months < 1 { months := 1; }
    var each := totalDue / months;
    plan := [];
    for i := 1 to months + 1
      invariant plan == Schedule(totalDue, months)[..i - 1]
    {
      var amt := each;
      if i == months { amt := totalDue - each * (months - 1); }
      plan := plan + [Installment(i, amt, false)];
    }
  }

  lemma {:induction false} SchedulePrefix(totalDue: int, months: int, k: nat)
    requires months >= 1 && k < months
    ensures SumDue(Schedule(totalDue, months)[..k]) == totalDue / months * k
    ensures PaidDues(Schedule(totalDue, months)[..k]) == 0
  {
    if k > 0 {
      var plan := Schedule(totalDue, months);
      SchedulePrefix(totalDue, months, k - 1);
      assert plan[..k][..k - 1] == plan[..k - 1];
      Distribute(totalDue / months, k);
    }
  }

  /** The schedule always adds up to the total due, no installment is negative, and every one of them
      is positive exactly when there is at least a cent per month. */
  lemma ScheduleAddsUp(totalDue: int, months: int)
    requires totalDue >= 0 && months >= 1
    ensures var plan := Schedule(totalDue, months);
            && SumDue(plan) == totalDue && PaidDues(plan) == 0
            && (forall k :: 0 <= k < months ==> plan[k].due >= 0 && !plan[k].paid)
            && ((forall k :: 0 <= k < months ==> plan[k].due > 0) <==> totalDue >= months)
  {
    var plan := Schedule(totalDue, months);
    SchedulePrefix(totalDue, months, months - 1);
    Division(totalDue, months);
    assert plan[..months - 1] == plan[..|plan| - 1];
    assert plan[0].due > 0 ==> totalDue / months > 0 || months == 1;
  }

  lemma Distribute(x: int, i: int)
    ensures x * i == x * (i - 1) + x
  {}

  lemma Division(t: int, m: int)
    requires t >= 0 && m >= 1
    ensures t / m >= 0 && (t / m > 0 <==> t >= m) && t / m <= t - (t / m) * (m - 1)
  {
    var q := t / m;
    assert t == q * m + t % m;
    Distribute(q, m);
    if q == 0 { assert t < m; }
    if q > 0 { assert q * m >= m; }
  }

  // ---------------------------------------------------------------- disbursement

  const MIN_DAYS := 7
  const MAX_DAYS := 365

  /** Terms of a new loan: five percent on top, spread over its months. */
  function NewLoan(borrower: string, wallet: string, principal: int, days: int): Loan
    requires principal > 0
  {
    Loan(borrower, wallet, principal, FeeOf(principal), 0, Active, Schedule(principal + FeeOf(principal), Months(days)), [])
  }

  /** `approved` stands for the borrower, credit profile, active-loan and blacklist checks. */
  function AfterDisburse(b: Book, id: string, borrower: string, wallet: string, principal: int, days: int, approved: bool, d: Delivery): Outcome {
    if principal <= 0 || days < MIN_DAYS || days > MAX_DAYS || !approved then Outcome(b, false)
    else
      var r := Submit(b.books, [Posting(LoanCapital, Main(wallet), principal, BIRR)], d);
      if !r.ok then Outcome(b.(books := r.books), false)
      else Outcome(Book(r.books, b.loans[id := NewLoan(borrower, wallet, principal, days)]), true)
  }

  // ---------------------------------------------------------------- repayment

  /** The principal share of a collection: the amount times principal over total due, truncated
      towards zero. */
  function Share(amount: int, principal: int, total: int): int
    requires total > 0
  {
    if amount >= 0 then amount * principal / total else -(-amount * principal / total)
  }

  function Collecting(wallet: string, principal: int, fee: int): seq<Posting> {
    [Posting(Main(wallet), LoanCapital, principal, BIRR), Posting(Main(wallet), Interest, fee, BIRR)]
  }

  /** Installments are marked in order while the payment still covers the next unpaid one. */
  function Mark(plan: seq<Installment>, budget: int): seq<Installment> {
    if plan == [] then []
    else if plan[0].paid then [plan[0]] + Mark(plan[1..], budget)
    else if plan[0].due <= budget then [plan[0].(paid := true)] + Mark(plan[1..], budget - plan[0].due)
    else plan
  }

  function Collected(l: Loan, amount: int): Loan
    requires l.TotalDue() > 0
  {
    l.(totalPaid := l.totalPaid + amount,
       receipts := l.receipts + [Receipt(amount, amount - Share(amount, l.principal, l.TotalDue()))])
  }

  function Repayment(l: Loan, amount: int): Loan
    requires l.TotalDue() > 0
  {
    Collected(l, amount).(
      installments := Mark(l.installments, amount),
      status := if l.totalPaid + amount >= l.TotalDue() then Repaid else l.status)
  }

  /** The two-posting transaction of CollectLoanRepayment for one loan. */
  function Collect(b: Books, l: Loan, amount: int, d: Delivery): Reply
    requires l.TotalDue() > 0
  {
    var p := Share(amount, l.principal, l.TotalDue());
    Submit(b, Collecting(l.wallet, p, amount - p), d)
  }

  /** A repayment is cut to what is left of the total due. */
  function Taken(l: Loan, amount: int): int { Min(amount, l.TotalDue() - l.totalPaid) }

  function AfterManual(b: Book, loanID: string, user: string, amount: int, d: Delivery): Outcome
    requires BookOk(b)
  {
    if amount <= 0 || loanID !in b.loans || b.loans[loanID].borrower != user then Outcome(b, false)
    else
      var l := b.loans[loanID];
      if !(l.status.Active? || l.status.InArrears?) then Outcome(b, false)
      else
        var taken := Taken(l, amount);
        var r := Collect(b.books, l, taken, d);
        if !r.ok then Outcome(b.(books := r.books), false)
        else Outcome(Book(r.books, b.loans[loanID := Repayment(l, taken)]), true)
  }

  /** One entry of the sweep's list. */
  datatype Ref = Ref(loan: string, index: nat)

  predicate Present(b: Book, ref: Ref) { ref.loan in b.loans && ref.index < |b.loans[ref.loan].installments| }

  function Swept(l: Loan, index: nat): Loan
    requires l.TotalDue() > 0 && index < |l.installments|
  {
    Collected(l, l.installments[index].due).(
      installments := l.installments[index := l.installments[index].(paid := true)])
  }

  /** processInstallment: collect the full due, mark it paid, count it. The loan's status is neither
      consulted nor changed. */
  function AfterInstallment(b: Book, ref: Ref, d: Delivery): Outcome
    requires BookOk(b) && Present(b, ref)
  {
    var l := b.loans[ref.loan];
    var r := Collect(b.books, l, l.installments[ref.index].due, d);
    if !r.ok then Outcome(b.(books := r.books), false)
    else Outcome(Book(r.books, b.loans[ref.loan := Swept(l, ref.index)]), true)
  }

  // ---------------------------------------------------------------- what every loan satisfies

  function SumAmounts(rs: seq<Receipt>): int { if rs == [] then 0 else SumAmounts(rs[..|rs| - 1]) + rs[|rs| - 1].amount }

  /** What reached loan capital and interest through these receipts. */
  function ToCapital(rs: seq<Receipt>): int {
    if rs == [] then 0 else ToCapital(rs[..|rs| - 1]) + rs[|rs| - 1].amount - rs[|rs| - 1].fee
  }

  function ToInterest(rs: seq<Receipt>): int { if rs == [] then 0 else ToInterest(rs[..|rs| - 1]) + rs[|rs| - 1].fee }

  /** Terms and table of one loan hang together; paid installments never exceed what was collected,
      and every receipt was split by the loan's own ratio. */
  predicate LoanOk(l: Loan) {
    && l.principal > 0 && l.fee >= 0
    && SumDue(l.installments) == l.TotalDue()
    && (forall i :: 0 <= i < |l.installments| ==> l.installments[i].due >= 0)
    && PaidDues(l.installments) <= l.totalPaid == SumAmounts(l.receipts)
    && (forall i :: 0 <= i < |l.receipts| ==>
          && l.receipts[i].amount >= 0
          && l.receipts[i].fee == l.receipts[i].amount - Share(l.receipts[i].amount, l.principal, l.TotalDue()))
  }

  predicate BookOk(b: Book) { forall id :: id in b.loans ==> LoanOk(b.loans[id]) }

  lemma ShareBounds(amount: int, principal: int, total: int)
    requires 0 < principal <= total
    ensures amount >= 0 ==> 0 <= Share(amount, principal, total) <= amount
    ensures amount >= 0 ==> principal * amount - total < total * Share(amount, principal, total) <= principal * amount
    ensures amount < 0 ==> Share(amount, principal, total) < 0 || amount - Share(amount, principal, total) < 0
  {
    var size := if amount >= 0 then amount else -amount;
    ProductBounds(size, principal, total);
    Quotient(size * principal, total, size);
  }

  lemma ProductBounds(size: int, principal: int, total: int)
    requires size >= 0 && 0 < principal <= total
    ensures 0 <= size * principal <= total * size && size * principal == principal * size
  {
    Sum(size, principal, total - principal);
    NonNegative(size, principal);
    NonNegative(size, total - principal);
  }

  lemma NonNegative(x: int, y: int)
    requires x >= 0 && y >= 0
    ensures x * y >= 0
  {}

  lemma Quotient(n: int, total: int, bound: int)
    requires 0 <= n <= total * bound && total > 0
    ensures 0 <= n / total <= bound && n - total < total * (n / total) <= n
  {
    assert n == total * (n / total) + n % total;
    AtMost(total, n / total, bound);
  }

  /** After k collections that together make up the total due, loan capital has received at most the
      principal and more than principal minus k; interest at least the fee and less than fee plus k. */
  lemma {:induction false} RoundingDrift(rs: seq<Receipt>, principal: int, total: int)
    requires 0 < principal <= total
    requires forall i :: 0 <= i < |rs| ==> rs[i].amount >= 0 && rs[i].fee == rs[i].amount - Share(rs[i].amount, principal, total)
    ensures ToCapital(rs) + ToInterest(rs) == SumAmounts(rs)
    ensures principal * SumAmounts(rs) - total * |rs| <= total * ToCapital(rs) <= principal * SumAmounts(rs)
    ensures rs != [] ==> principal * SumAmounts(rs) - total * |rs| < total * ToCapital(rs)
    decreases |rs|
  {
    if rs != [] {
      var n := |rs| - 1;
      var front, last := rs[..n], rs[n];
      RoundingDrift(front, principal, total);
      ShareBounds(last.amount, principal, total);
      Sum(principal, SumAmounts(front), last.amount);
      Sum(total, ToCapital(front), Share(last.amount, principal, total));
      Sum(total, n, 1);
    }
  }

  lemma RoundingBound(l: Loan)
    requires LoanOk(l) && l.totalPaid == l.TotalDue()
    ensures l.principal - |l.receipts| < ToCapital(l.receipts) <= l.principal
    ensures l.fee <= ToInterest(l.receipts) < l.fee + |l.receipts|
  {
    var rs, p, t, k := l.receipts, l.principal, l.TotalDue(), |l.receipts|;
    RoundingDrift(rs, p, t);
    var c := ToCapital(rs);
    Sum(t, p - k, k);
    assert rs != [];
    assert t * (p - k) < t * c <= t * p;
    Cancel(t, p - k, c);
    Cancel(t, c - 1, p);
  }

  lemma Sum(t: int, x: int, y: int)
    ensures t * (x + y) == t * x + t * y
  {}

  lemma AtMost(t: int, x: int, y: int)
    requires t > 0 && t * x <= t * y
    ensures x <= y
  {}

  lemma Cancel(t: int, x: int, y: int)
    requires t > 0 && t * x < t * y
    ensures x < y
  {}

  // ---------------------------------------------------------------- what one collection does

  /** Collected cents that are not accounted for by a paid installment. */
  function Slack(l: Loan): int { l.totalPaid - PaidDues(l.installments) }

  lemma {:induction false} DuesFromFront(i: Installment, plan: seq<Installment>)
    ensures SumDue([i] + plan) == i.due + SumDue(plan)
    ensures PaidDues([i] + plan) == (if i.paid then i.due else 0) + PaidDues(plan)
    decreases |plan|
  {
    if plan == [] {
      assert [i] + plan == [i] && [i][..0] == [];
    } else {
      var n := |plan| - 1;
      assert ([i] + plan)[..n + 1] == [i] + plan[..n];
      DuesFromFront(i, plan[..n]);
    }
  }

  lemma MarkFromFront(plan: seq<Installment>, budget: int, left: int)
    requires plan != [] && (plan[0].paid || plan[0].due <= budget) && left == budget - (if plan[0].paid then 0 else plan[0].due)
    ensures SumDue(Mark(plan, budget)) - SumDue(plan) == SumDue(Mark(plan[1..], left)) - SumDue(plan[1..])
    ensures PaidDues(Mark(plan, budget)) - PaidDues(plan) - budget == PaidDues(Mark(plan[1..], left)) - PaidDues(plan[1..]) - left
  {
    var first := plan[0].(paid := true);
    assert Mark(plan, budget) == [first] + Mark(plan[1..], left);
    assert plan == [plan[0]] + plan[1..];
    DuesFromFront(plan[0], plan[1..]);
    DuesFromFront(first, Mark(plan[1..], left));
  }

  /** One turn of the marking loop. */
  lemma MarkAt(plan: seq<Installment>, i: nat, budget: int)
    requires i < |plan|
    ensures Mark(plan[i..], budget) ==
            if plan[i].paid then [plan[i]] + Mark(plan[i + 1..], budget)
            else if plan[i].due <= budget then [plan[i].(paid := true)] + Mark(plan[i + 1..], budget - plan[i].due)
            else plan[i..]
  {
    assert plan[i..][1..] == plan[i + 1..];
  }

  /** Marking unmarks nothing and changes nothing else. */
  lemma {:induction false} MarkShape(plan: seq<Installment>, budget: int)
    ensures |Mark(plan, budget)| == |plan|
    ensures forall i :: 0 <= i < |plan| ==> Mark(plan, budget)[i] == plan[i] || Mark(plan, budget)[i] == plan[i].(paid := true)
    decreases |plan|
  {
    if plan != [] && (plan[0].paid || plan[0].due <= budget) {
      MarkShape(plan[1..], budget - if plan[0].paid then 0 else plan[0].due);
    }
  }

  /** It changes no due, and newly marks at most the amount paid. */
  lemma {:induction false} MarkBounds(plan: seq<Installment>, budget: int)
    requires budget >= 0 && forall i :: 0 <= i < |plan| ==> plan[i].due >= 0
    ensures SumDue(Mark(plan, budget)) == SumDue(plan)
    ensures PaidDues(plan) <= PaidDues(Mark(plan, budget)) <= PaidDues(plan) + budget
    decreases |plan|
  {
    if plan != [] && (plan[0].paid || plan[0].due <= budget) {
      var left := budget - if plan[0].paid then 0 else plan[0].due;
      MarkBounds(plan[1..], left);
      MarkFromFront(plan, budget, left);
    }
  }

  lemma {:induction false} MarkOne(plan: seq<Installment>, i: nat)
    requires i < |plan| && !plan[i].paid
    ensures var m := plan[i := plan[i].(paid := true)];
            SumDue(m) == SumDue(plan) && PaidDues(m) == PaidDues(plan) + plan[i].due
    decreases |plan|
  {
    var n := |plan| - 1;
    var m := plan[i := plan[i].(paid := true)];
    if i == n {
      assert m[..n] == plan[..n];
    } else {
      assert m[..n] == plan[..n][i := plan[i].(paid := true)];
      MarkOne(plan[..n], i);
    }
  }

  lemma CollectedOk(l: Loan, amount: int)
    requires LoanOk(l) && amount >= 0
    ensures var c := Collected(l, amount);
            && c.totalPaid == SumAmounts(c.receipts)
            && (forall i :: 0 <= i < |c.receipts| ==>
                  c.receipts[i].amount >= 0 && c.receipts[i].fee == c.receipts[i].amount - Share(c.receipts[i].amount, l.principal, l.TotalDue()))
            && ToCapital(c.receipts) == ToCapital(l.receipts) + Share(amount, l.principal, l.TotalDue())
            && ToInterest(c.receipts) == ToInterest(l.receipts) + amount - Share(amount, l.principal, l.TotalDue())
  {
    var c := Collected(l, amount);
    assert c.receipts[..|l.receipts|] == l.receipts;
  }

  /** A manual repayment keeps the loan consistent and never lowers the slack. */
  lemma RepaymentOk(l: Loan, amount: int)
    requires LoanOk(l) && amount >= 0
    ensures LoanOk(Repayment(l, amount)) && Slack(l) <= Slack(Repayment(l, amount)) <= Slack(l) + amount
  {
    CollectedOk(l, amount);
    MarkShape(l.installments, amount);
    MarkBounds(l.installments, amount);
  }

  /** Sweeping an unpaid installment keeps the loan consistent and the slack where it is. */
  lemma SweptOk(l: Loan, index: nat)
    requires LoanOk(l) && index < |l.installments| && !l.installments[index].paid
    ensures LoanOk(Swept(l, index)) && Slack(Swept(l, index)) == Slack(l)
  {
    CollectedOk(l, l.installments[index].due);
    MarkOne(l.installments, index);
  }

  lemma {:induction false} PaidWithinDues(plan: seq<Installment>)
    requires forall i :: 0 <= i < |plan| ==> plan[i].due >= 0
    ensures PaidDues(plan) <= SumDue(plan)
  {
    if plan != [] { PaidWithinDues(plan[..|plan| - 1]); }
  }

  /** The amount is the unpaid dues of the first k installments, for some k. */
  ghost predicate Whole(plan: seq<Installment>, amount: int) { exists k :: WholeAt(plan, amount, k) }

  predicate WholeAt(plan: seq<Installment>, amount: int, k: int) {
    0 <= k <= |plan| && SumDue(plan[..k]) - PaidDues(plan[..k]) == amount
  }

  lemma WholeTail(plan: seq<Installment>, amount: int, k: int)
    requires plan != [] && 1 <= k <= |plan|
    ensures WholeAt(plan, amount, k) <==> WholeAt(plan[1..], amount - (if plan[0].paid then 0 else plan[0].due), k - 1)
  {
    assert plan[..k] == [plan[0]] + plan[1..][..k - 1];
    DuesFromFront(plan[0], plan[1..][..k - 1]);
  }

  /** Moving on past an installment that the budget covers. */
  lemma WholeStep(plan: seq<Installment>, budget: int)
    requires plan != [] && plan[0].due >= 0 && budget >= 0 && (plan[0].paid || plan[0].due <= budget)
    ensures Whole(plan, budget) <==> Whole(plan[1..], budget - (if plan[0].paid then 0 else plan[0].due))
  {
    var rest, left := plan[1..], budget - (if plan[0].paid then 0 else plan[0].due);
    if Whole(rest, left) {
      var k :| WholeAt(rest, left, k);
      WholeTail(plan, budget, k + 1);
    }
    if Whole(plan, budget) {
      var k :| WholeAt(plan, budget, k);
      if k == 0 { assert WholeAt(rest, left, 0); } else { WholeTail(plan, budget, k); }
    }
  }

  /** An installment the budget does not cover. */
  lemma WholeStuck(plan: seq<Installment>, budget: int)
    requires plan != [] && !plan[0].paid && 0 <= budget < plan[0].due
    requires forall i :: 0 <= i < |plan| ==> plan[i].due >= 0
    ensures Whole(plan, budget) <==> budget == 0
  {
    assert budget == 0 ==> WholeAt(plan, budget, 0);
    forall k | 1 <= k <= |plan| ensures !WholeAt(plan, budget, k) {
      WholeTail(plan, budget, k);
      PaidWithinDues(plan[1..][..k - 1]);
    }
  }

  /** Marking uses up the whole payment exactly when it pays for whole installments. */
  lemma {:induction false} MarkExact(plan: seq<Installment>, budget: int)
    requires budget >= 0 && forall i :: 0 <= i < |plan| ==> plan[i].due >= 0
    ensures PaidDues(Mark(plan, budget)) == PaidDues(plan) + budget <==> Whole(plan, budget)
    decreases |plan|
  {
    if plan == [] {
      assert WholeAt(plan, 0, 0);
    } else if plan[0].paid || plan[0].due <= budget {
      var left := budget - (if plan[0].paid then 0 else plan[0].due);
      WholeStep(plan, budget);
      MarkExact(plan[1..], left);
      MarkFromFront(plan, budget, left);
    } else {
      WholeStuck(plan, budget);
    }
  }

  /** A manual repayment leaves the slack where it is exactly when it pays for whole installments. */
  lemma WholeKeepsSlack(l: Loan, amount: int)
    requires LoanOk(l) && amount >= 0
    ensures Slack(Repayment(l, amount)) == Slack(l) <==> Whole(l.installments, amount)
  {
    MarkExact(l.installments, amount);
  }

  lemma {:induction false} AllPaid(plan: seq<Installment>)
    requires forall i :: 0 <= i < |plan| ==> plan[i].paid
    ensures PaidDues(plan) == SumDue(plan)
  {
    if plan != [] { AllPaid(plan[..|plan| - 1]); }
  }

  /** Mixing the two writers can collect more than is due. Once every installment is paid, the excess
      is exactly the slack: there is none if and only if every manual cent marked an installment. */
  lemma Overcollection(l: Loan)
    requires LoanOk(l) && forall i :: 0 <= i < |l.installments| ==> l.installments[i].paid
    ensures l.totalPaid == l.TotalDue() + Slack(l)
    ensures l.totalPaid <= l.TotalDue() <==> Slack(l) == 0
  {
    AllPaid(l.installments);
  }

  /** What a collection does to the ledger. */
  lemma CollectMoves(b: Books, l: Loan, amount: int, d: Delivery)
    requires LoanOk(l)
    ensures var r, share := Collect(b, l, amount, d), Share(amount, l.principal, l.TotalDue());
            var landed := !d.Dropped? && 0 <= amount <= Bal(b.balances, Main(l.wallet), BIRR);
            && r.ok == (landed && d.Acked?)
            && (!landed ==> r.books == b)
            && (landed ==> forall a, s :: Bal(r.books.balances, a, s) == Bal(b.balances, a, s)
                             - (if a == Main(l.wallet) && s == BIRR then amount else 0)
                             + (if a == LoanCapital && s == BIRR then share else 0)
                             + (if a == Interest && s == BIRR then amount - share else 0))
  {
    var share := Share(amount, l.principal, l.TotalDue());
    ShareBounds(amount, l.principal, l.TotalDue());
    var p, f := Posting(Main(l.wallet), LoanCapital, share, BIRR), Posting(Main(l.wallet), Interest, amount - share, BIRR);
    ApplyTwo(b.balances, p, f);
  }

  // ---------------------------------------------------------------- the sweep

  /** The sweep's list: unpaid installments, each once. */
  predicate Due(b: Book, refs: seq<Ref>) {
    && (forall i :: 0 <= i < |refs| ==> Present(b, refs[i]) && !b.loans[refs[i].loan].installments[refs[i].index].paid)
    && (forall i, j :: 0 <= i < j < |refs| ==> refs[i] != refs[j])
  }

  lemma InstallmentKeeps(b: Book, refs: seq<Ref>, d: Delivery)
    requires BookOk(b) && Due(b, refs) && refs != []
    ensures var c := AfterInstallment(b, refs[0], d).book; BookOk(c) && Due(c, refs[1..])
  {
    SweptOk(b.loans[refs[0].loan], refs[0].index);
  }

  function AfterSweep(b: Book, refs: seq<Ref>, ds: seq<Delivery>): Book
    requires BookOk(b) && Due(b, refs) && |ds| == |refs|
    decreases |refs|
  {
    if refs == [] then b
    else
      InstallmentKeeps(b, refs, ds[0]);
      AfterSweep(AfterInstallment(b, refs[0], ds[0]).book, refs[1..], ds[1..])
  }

  // ---------------------------------------------------------------- the service object

  class Service {
    const ledger: Client
    var loans: map<string, Loan>

    ghost function State(): Book
      reads this, ledger
    {
      Book(ledger.State(), loans)
    }

    constructor (ledger: Client)
      ensures this.ledger == ledger && loans == map[]
    {
      this.ledger, loans := ledger, map[];
    }

    method DisburseLoan(id: string, borrower: string, wallet: string, principal: int, days: int, approved: bool, d: Delivery) returns (ok: bool)
      modifies this, ledger
      ensures Outcome(State(), ok) == AfterDisburse(old(State()), id, borrower, wallet, principal, days, approved, d)
    {
      if principal <= 0 || days < MIN_DAYS || days > MAX_DAYS || !approved { return false; }
      var fee := FeeOf(principal);
      ok := ledger.CreateTransaction([Posting(LoanCapital, Main(wallet), principal, BIRR)], d);
      if !ok { return; }
      var plan := MakeSchedule(principal + fee, days);
      loans := loans[id := Loan(borrower, wallet, principal, fee, 0, Active, plan, [])];
    }

    method CollectLoanRepayment(l: Loan, amount: int, d: Delivery) returns (ok: bool)
      requires l.TotalDue() > 0
      modifies ledger
      ensures Reply(ledger.State(), ok) == Collect(old(ledger.State()), l, amount, d)
    {
      var principalPortion := Share(amount, l.principal, l.TotalDue());
      var feePortion := amount - principalPortion;
      ok := ledger.CreateTransaction(Collecting(l.wallet, principalPortion, feePortion), d);
    }

    method ManualRepay(loanID: string, user: string, amount: int, d: Delivery) returns (ok: bool)
      requires BookOk(State())
      modifies this, ledger
      ensures Outcome(State(), ok) == AfterManual(old(State()), loanID, user, amount, d)
    {
      if amount <= 0 || loanID !in loans || loans[loanID].borrower != user { return false; }
      var l := loans[loanID];
      if !(l.status.Active? || l.status.InArrears?) { return false; }
      var remaining := l.TotalDue() - l.totalPaid;
      var amountCents := amount;
      if amountCents > remaining { amountCents := remaining; }
      ok := CollectLoanRepayment(l, amountCents, d);
      if !ok { return; }
      var marked := MarkInstallments(l.installments, amountCents);
      var row := Collected(l, amountCents).(installments := marked);
      if l.totalPaid + amountCents >= l.TotalDue() { row := row.(status := Repaid); }
      loans := loans[loanID := row];
    }

    method MarkInstallments(plan: seq<Installment>, amount: int) returns (marked: seq<Installment>)
      ensures marked == Mark(plan, amount)
    {
      marked := [];
      var covered := 0;
      for i := 0 to |plan|
        invariant |marked| == i
        invariant marked + Mark(plan[i..], amount - covered) == Mark(plan, amount)
      {
        MarkAt(plan, i, amount - covered);
        var inst := plan[i];
        if inst.paid {
          marked := marked + [inst];
          continue;
        }
        if covered + inst.due <= amount {
          marked := marked + [inst.(paid := true)];
          covered := covered + inst.due;
        } else {
          return marked + plan[i..];
        }
      }
    }

    method ProcessInstallment(ref: Ref, d: Delivery) returns (ok: bool)
      requires BookOk(State()) && Present(State(), ref)
      modifies this, ledger
      ensures Outcome(State(), ok) == AfterInstallment(old(State()), ref, d)
    {
      var l := loans[ref.loan];
      var inst := l.installments[ref.index];
      ok := CollectLoanRepayment(l, inst.due, d);
      if !ok { return; }
      var row := l.(installments := l.installments[ref.index := inst.(paid := true)]);
      loans := loans[ref.loan := Collected(row, inst.due)];
    }

    method AutoSweep(refs: seq<Ref>, ds: seq<Delivery>)
      requires BookOk(State()) && Due(State(), refs) && |ds| == |refs|
      modifies this, ledger
      ensures State() == AfterSweep(old(State()), refs, ds)
    {
      for i := 0 to |refs|
        invariant BookOk(State()) && Due(State(), refs[i..])
        invariant AfterSweep(old(State()), refs, ds) == AfterSweep(State(), refs[i..], ds[i..])
      {
        assert refs[i..][0] == refs[i] && refs[i..][1..] == refs[i + 1..] && ds[i..][0] == ds[i] && ds[i..][1..] == ds[i + 1..];
        InstallmentKeeps(State(), refs[i..], ds[i]);
        var _ := ProcessInstallment(refs[i], ds[i]);
      }
    }
  }
}

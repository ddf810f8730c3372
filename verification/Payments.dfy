/** Wallet-to-wallet payments, single and batch, with overdraft draw and auto-repay
    (ProcessInboundTransfer and ProcessBatchTransfer of internal/services/payments/service.go). */
module Payments {
  import opened Common
  import opened Chart
  import opened Ledger
  import opened Overdraft

  datatype User = User(wallet: string, frozen: bool)
  type Users = map<string, User>

  predicate WalletsDistinct(users: Users) {
    forall u, v :: u in users && v in users && u != v ==> users[u].wallet != users[v].wallet
  }

  datatype PayError =
    | InvalidRequest | UnknownSender | SenderFrozen | Blocked | UnknownRecipient | RecipientFrozen | SelfTransfer
    | BalanceUnavailable | InsufficientFunds | CoverRefused(cause: Overdraft.Error) | DebitFailed

  datatype Stage = Stage(bank: Bank, error: Option<PayError>)

  /** Known overdraft errors are passed on, anything else becomes "insufficient funds". */
  function CoverError(e: Overdraft.Error): PayError {
    if e.NotActive? || e.NotEligible? || e.LimitExceeded? || e.EtbOnly? then CoverRefused(e) else InsufficientFunds
  }

  /** Balance check with optional overdraft draw for the shortfall. `cover` says whether an overdraft
      service is configured. */
  function AfterFunding(b: Bank, cover: bool, user: string, wallet: string, amount: int, currency: string, read: bool, draw: Delivery): Stage {
    var asset := FormatAsset(currency);
    var balance := Bal(b.books.balances, Main(wallet), asset);
    if !read then Stage(b, Some(BalanceUnavailable))
    else if balance >= amount then Stage(b, None)
    else if currency != "ETB" || !cover then Stage(b, Some(InsufficientFunds))
    else
      var o := AfterCover(b, user, wallet, amount - balance, asset, draw);
      Stage(o.bank, if o.error.None? then None else Some(CoverError(o.error.value)))
  }

  /** Debit sender to recipient, then let the recipient's inflow repay the recipient's overdraft. */
  function AfterDelivery(b: Bank, cover: bool, from: string, to: string, user: string, amount: int, currency: string, debit: Delivery, repay: Delivery): Stage {
    var r := Submit(b.books, [Posting(Main(from), Main(to), amount, FormatAsset(currency))], debit);
    var debited := b.(books := r.books);
    if !r.ok then Stage(debited, Some(DebitFailed))
    else if currency != "ETB" || !cover then Stage(debited, None)
    else Stage(AfterAutoRepay(debited, user, to, amount, repay), None)
  }

  // ---------------------------------------------------------------- one payment

  /** `recipient` is what recipient resolution returns; `permitted` is the regulatory verdict. */
  datatype Payment = Payment(
    sender: string, recipient: Option<string>, amount: int, currency: string,
    permitted: bool, read: bool, draw: Delivery, debit: Delivery, repay: Delivery)

  function Refusal(users: Users, q: Payment): Option<PayError> {
    if q.amount <= 0 then Some(InvalidRequest)
    else if q.sender !in users then Some(UnknownSender)
    else if users[q.sender].frozen then Some(SenderFrozen)
    else if !q.permitted then Some(Blocked)
    else if q.recipient.None? || q.recipient.value !in users then Some(UnknownRecipient)
    else if users[q.recipient.value].frozen then Some(RecipientFrozen)
    else if q.sender == q.recipient.value then Some(SelfTransfer)
    else None
  }

  function Funding(b: Bank, users: Users, cover: bool, q: Payment): Stage
    requires Refusal(users, q).None?
  {
    AfterFunding(b, cover, q.sender, users[q.sender].wallet, q.amount, q.currency, q.read, q.draw)
  }

  function AfterPayment(b: Bank, users: Users, cover: bool, q: Payment): Stage {
    var refusal := Refusal(users, q);
    if refusal.Some? then Stage(b, refusal)
    else
      var funded := Funding(b, users, cover, q);
      if funded.error.Some? then funded
      else AfterDelivery(funded.bank, cover, users[q.sender].wallet, users[q.recipient.value].wallet,
                         q.recipient.value, q.amount, q.currency, q.debit, q.repay)
  }

  // ---------------------------------------------------------------- net worth

  /** Wallet balance less, in birr, what the user owes on the overdraft. */
  function Worth(b: Bank, users: Users, user: string, asset: string): int
    requires user in users
  {
    Bal(b.books.balances, Main(users[user].wallet), asset) - if asset == ETB then OwedBy(b.rows, user) else 0
  }

  /** The draw reached the ledger but its acknowledgement did not come back. */
  predicate DrawLost(b: Bank, cover: bool, user: string, wallet: string, amount: int, currency: string, read: bool, draw: Delivery) {
    var balance := Bal(b.books.balances, Main(wallet), ETB);
    && read && cover && currency == "ETB" && draw.Lost? && balance < amount
    && CoverRefusal(b.rows, user, amount - balance, ETB).None?
    && Bal(b.books.balances, OverdraftCapital, ETB) >= amount - balance
  }

  lemma EtbAsset()
    ensures FormatAsset("ETB") == ETB
  {
    assert Upper("ETB") == "ETB";
  }

  lemma FundingWorth(b: Bank, users: Users, cover: bool, user: string, amount: int, currency: string, read: bool, draw: Delivery, u: string, s: string)
    requires WalletsDistinct(users) && user in users && u in users
    ensures var w := users[user].wallet;
            var f, lost := AfterFunding(b, cover, user, w, amount, currency, read, draw), DrawLost(b, cover, user, w, amount, currency, read, draw);
            && Worth(f.bank, users, u, s) == Worth(b, users, u, s)
                 + (if lost && u == user && s == ETB then amount - Bal(b.books.balances, Main(w), ETB) else 0)
            && (f.error.None? ==> Bal(f.bank.books.balances, Main(w), FormatAsset(currency)) >= amount)
            && (lost ==> f.error.Some?)
            && (u != user ==> OwedBy(f.bank.rows, u) == OwedBy(b.rows, u) && (u in f.bank.rows <==> u in b.rows)
                              && (u in b.rows ==> f.bank.rows[u] == b.rows[u]))
  {
    EtbAsset();
    var w := users[user].wallet;
    var shortfall := amount - Bal(b.books.balances, Main(w), ETB);
    SubmitOne(b.books, Drawing(w, shortfall, ETB), draw);
  }

  predicate RepayLost(b: Bank, cover: bool, user: string, amount: int, currency: string, repay: Delivery) {
    cover && currency == "ETB" && repay.Lost? && AutoAmount(b.rows, user, amount) > 0
  }

  lemma AutoRepayWorth(b: Bank, users: Users, user: string, amount: int, repay: Delivery, u: string, s: string)
    requires WalletsDistinct(users) && user in users && u in users && RowsOk(b.rows)
    requires Bal(b.books.balances, Main(users[user].wallet), ETB) >= amount > 0
    ensures Worth(AfterAutoRepay(b, user, users[user].wallet, amount, repay), users, u, s) == Worth(b, users, u, s)
              - if repay.Lost? && u == user && s == ETB then AutoAmount(b.rows, user, amount) else 0
  {
    var due := AutoAmount(b.rows, user, amount);
    SubmitOne(b.books, Repaying(users[user].wallet, due), repay);
    if due > 0 { ReducedExactly(b.rows[user], due); }
  }

  lemma DeliveryWorth(b: Bank, users: Users, cover: bool, from: string, to: string, amount: int, currency: string, debit: Delivery, repay: Delivery, u: string, s: string)
    requires WalletsDistinct(users) && from in users && to in users && from != to && u in users && RowsOk(b.rows)
    requires amount > 0 && Bal(b.books.balances, Main(users[from].wallet), FormatAsset(currency)) >= amount
    requires forall v :: v in users ==> Bal(b.books.balances, Main(users[v].wallet), ETB) >= 0
    ensures var d := AfterDelivery(b, cover, users[from].wallet, users[to].wallet, to, amount, currency, debit, repay);
            var moved := if debit.Dropped? || s != FormatAsset(currency) then 0 else amount;
            && d.error.None? == debit.Acked?
            && Worth(d.bank, users, u, s) == Worth(b, users, u, s)
                 - (if u == from then moved else 0) + (if u == to then moved else 0)
                 - (if debit.Acked? && RepayLost(b, cover, to, amount, currency, repay) && u == to && s == ETB
                    then AutoAmount(b.rows, to, amount) else 0)
  {
    EtbAsset();
    var p := Posting(Main(users[from].wallet), Main(users[to].wallet), amount, FormatAsset(currency));
    SubmitOne(b.books, p, debit);
    var debited := b.(books := Submit(b.books, [p], debit).books);
    if debit.Acked? && cover && currency == "ETB" {
      AutoRepayWorth(debited, users, to, amount, repay, u, s);
    }
  }

  /** What a payment should do to a user's worth: move the amount if it completes, nothing if not. */
  function Ideal(q: Payment, done: bool, u: string, s: string): int {
    if !done || s != FormatAsset(q.currency) then 0
    else (if q.recipient == Some(u) then q.amount else 0) - (if u == q.sender then q.amount else 0)
  }

  ghost predicate Exact(b: Bank, c: Bank, users: Users, q: Payment, done: bool) {
    forall u, s :: u in users ==> Worth(c, users, u, s) == Worth(b, users, u, s) + Ideal(q, done, u, s)
  }

  /** A posting of this payment reached the ledger without the service hearing of it. */
  predicate Stray(b: Bank, users: Users, cover: bool, q: Payment) {
    && Refusal(users, q).None?
    && (|| DrawLost(b, cover, q.sender, users[q.sender].wallet, q.amount, q.currency, q.read, q.draw)
        || (&& Funding(b, users, cover, q).error.None?
            && (q.debit.Lost? || (q.debit.Acked? && RepayLost(b, cover, q.recipient.value, q.amount, q.currency, q.repay)))))
  }

  /** Rows are reachable ones and no account but the world is overdrawn. */
  predicate BankOk(b: Bank) { RowsOk(b.rows) && Solvent(b.books.balances) }

  lemma FundingKeeps(b: Bank, cover: bool, user: string, wallet: string, amount: int, currency: string, read: bool, draw: Delivery)
    requires BankOk(b)
    ensures var f := AfterFunding(b, cover, user, wallet, amount, currency, read, draw).bank;
            BankOk(f) && (!draw.Lost? ==> Backing(f) == Backing(b))
  {
    EtbAsset();
    var shortfall := amount - Bal(b.books.balances, Main(wallet), ETB);
    SubmitOne(b.books, Drawing(wallet, shortfall, ETB), draw);
    if shortfall > 0 && !draw.Lost? {
      CoverKeeps(b, user, wallet, shortfall, draw);
    }
  }

  lemma AutoRepayKeeps(b: Bank, user: string, wallet: string, credit: int, repay: Delivery)
    requires BankOk(b)
    ensures var c := AfterAutoRepay(b, user, wallet, credit, repay);
            BankOk(c) && (!repay.Lost? ==> Backing(c) == Backing(b))
  {
    var due := AutoAmount(b.rows, user, credit);
    SubmitOne(b.books, Repaying(wallet, due), repay);
    if due > 0 {
      ReducedExactly(b.rows[user], due);
      if !repay.Lost? { RepaymentKeeps(b, user, wallet, due, repay); }
    }
  }

  lemma DeliveryKeeps(b: Bank, cover: bool, from: string, to: string, user: string, amount: int, currency: string, debit: Delivery, repay: Delivery)
    requires BankOk(b)
    ensures var d := AfterDelivery(b, cover, from, to, user, amount, currency, debit, repay).bank;
            BankOk(d) && (!repay.Lost? ==> Backing(d) == Backing(b))
  {
    var p := Posting(Main(from), Main(to), amount, FormatAsset(currency));
    SubmitOne(b.books, p, debit);
    AutoRepayKeeps(b.(books := Submit(b.books, [p], debit).books), user, to, amount, repay);
  }

  /** Worth after a payment, user by user: the ideal movement plus whatever went astray. */
  lemma PaymentWorth(b: Bank, users: Users, cover: bool, q: Payment, u: string, s: string)
    requires WalletsDistinct(users) && BankOk(b) && u in users && Refusal(users, q).None?
    ensures var p, f, from, to := AfterPayment(b, users, cover, q), Funding(b, users, cover, q), q.sender, q.recipient.value;
            var lost := DrawLost(b, cover, from, users[from].wallet, q.amount, q.currency, q.read, q.draw);
            var moved := if f.error.Some? || q.debit.Dropped? || s != FormatAsset(q.currency) then 0 else q.amount;
            && p.error.None? == (f.error.None? && q.debit.Acked?)
            && Worth(p.bank, users, u, s) == Worth(b, users, u, s)
                 + (if lost && u == from && s == ETB then q.amount - Bal(b.books.balances, Main(users[from].wallet), ETB) else 0)
                 - (if u == from then moved else 0) + (if u == to then moved else 0)
                 - (if f.error.None? && q.debit.Acked? && RepayLost(b, cover, to, q.amount, q.currency, q.repay) && u == to && s == ETB
                    then AutoAmount(b.rows, to, q.amount) else 0)
  {
    var f, from, to := Funding(b, users, cover, q), q.sender, q.recipient.value;
    FundingWorth(b, users, cover, from, q.amount, q.currency, q.read, q.draw, u, s);
    if f.error.None? {
      FundingKeeps(b, cover, from, users[from].wallet, q.amount, q.currency, q.read, q.draw);
      FundingWorth(b, users, cover, from, q.amount, q.currency, q.read, q.draw, to, s);
      DeliveryWorth(f.bank, users, cover, from, to, q.amount, q.currency, q.debit, q.repay, u, s);
    }
  }

  lemma SoundPayment(b: Bank, users: Users, cover: bool, q: Payment, u: string, s: string)
    requires WalletsDistinct(users) && BankOk(b) && u in users && !Stray(b, users, cover, q)
    ensures var p := AfterPayment(b, users, cover, q);
            Worth(p.bank, users, u, s) == Worth(b, users, u, s) + Ideal(q, p.error.None?, u, s)
  {
    if Refusal(users, q).None? {
      PaymentWorth(b, users, cover, q, u, s);
    }
  }

  lemma StrayPayment(b: Bank, users: Users, cover: bool, q: Payment) returns (u: string, s: string)
    requires WalletsDistinct(users) && BankOk(b) && Stray(b, users, cover, q)
    ensures var p := AfterPayment(b, users, cover, q);
            u in users && Worth(p.bank, users, u, s) != Worth(b, users, u, s) + Ideal(q, p.error.None?, u, s)
  {
    EtbAsset();
    var funded := Funding(b, users, cover, q).error.None?;
    u, s := if q.debit.Acked? && funded then q.recipient.value else q.sender, FormatAsset(q.currency);
    FundingWorth(b, users, cover, q.sender, q.amount, q.currency, q.read, q.draw, u, s);
    PaymentWorth(b, users, cover, q, u, s);
  }

  /** Net worth: a completed payment lowers the sender's worth by exactly the amount, raises the
      recipient's by exactly the amount and leaves everyone else's alone, whatever mix of draw and
      auto-repay happens inside; a payment that fails at any point changes nobody's. This holds if
      and only if no posting of the payment is applied without being acknowledged. */
  lemma PaymentExactly(b: Bank, users: Users, cover: bool, q: Payment)
    requires WalletsDistinct(users) && BankOk(b)
    ensures var p := AfterPayment(b, users, cover, q);
            Exact(b, p.bank, users, q, p.error.None?) <==> !Stray(b, users, cover, q)
  {
    if Stray(b, users, cover, q) {
      var u, s := StrayPayment(b, users, cover, q);
    } else {
      forall u, s | u in users
        ensures var p := AfterPayment(b, users, cover, q);
                Worth(p.bank, users, u, s) == Worth(b, users, u, s) + Ideal(q, p.error.None?, u, s)
      {
        SoundPayment(b, users, cover, q, u, s);
      }
    }
  }

  /** A debit that is applied but not acknowledged: the payment fails and the money has moved. */
  lemma StrayExample()
    ensures var users: Users := map["a" := User("x", false), "b" := User("y", false)];
            var bank := Bank(Books(map[Slot(Main("x"), ETB) := 10], [], map[]), map[]);
            var q := Payment("a", Some("b"), 5, "ETB", true, true, Acked, Lost, Acked);
            var p := AfterPayment(bank, users, true, q);
            && WalletsDistinct(users) && BankOk(bank) && Stray(bank, users, true, q) && p.error == Some(DebitFailed)
            && Worth(p.bank, users, "a", ETB) == Worth(bank, users, "a", ETB) - 5 && Worth(p.bank, users, "b", ETB) == Worth(bank, users, "b", ETB) + 5
  {
    EtbAsset();
    var users: Users := map["a" := User("x", false), "b" := User("y", false)];
    var bank := Bank(Books(map[Slot(Main("x"), ETB) := 10], [], map[]), map[]);
    assert Funding(bank, users, true, Payment("a", Some("b"), 5, "ETB", true, true, Acked, Lost, Acked)).error == None;
    SubmitOne(bank.books, Posting(Main("x"), Main("y"), 5, ETB), Lost);
  }

  // ---------------------------------------------------------------- batches

  /** `resolved` is what recipient resolution returns for the identifier. */
  datatype Item = Item(identifier: string, resolved: Option<string>, amount: int, debit: Delivery, repay: Delivery)

  datatype Batch = Batch(sender: string, items: seq<Item>, currency: string, read: bool, draw: Delivery)

  datatype Progress = Progress(bank: Bank, paid: nat, error: Option<PayError>)

  const MIN_ITEMS := 2
  const MAX_ITEMS := 10

  /** Validate accepts exactly 2 to 10 items of positive amount with distinct normalised recipients. */
  predicate BatchValid(items: seq<Item>, normal: string -> string) {
    && MIN_ITEMS <= |items| <= MAX_ITEMS
    && (forall i :: 0 <= i < |items| ==> items[i].amount > 0)
    && (forall i, j :: 0 <= i < j < |items| ==> normal(items[i].identifier) != normal(items[j].identifier))
  }

  method ValidateBatch(items: seq<Item>, normal: string -> string) returns (ok: bool)
    ensures ok == BatchValid(items, normal)
  {
    if |items| < MIN_ITEMS || |items| > MAX_ITEMS { return false; }
    var seen: set<string> := {};
    for i := 0 to |items|
      invariant seen == set k | 0 <= k < i :: normal(items[k].identifier)
      invariant forall k :: 0 <= k < i ==> items[k].amount > 0
      invariant forall j, k :: 0 <= j < k < i ==> normal(items[j].identifier) != normal(items[k].identifier)
    {
      if items[i].amount <= 0 { return false; }
      var norm := normal(items[i].identifier);
      if norm in seen { return false; }
      seen := seen + {norm};
    }
    ok := true;
  }

  function Sum(items: seq<Item>): int { if items == [] then 0 else Sum(items[..|items| - 1]) + items[|items| - 1].amount }

  method TotalCents(items: seq<Item>) returns (total: int)
    ensures total == Sum(items)
  {
    total := 0;
    for i := 0 to |items|
      invariant total == Sum(items[..i])
    {
      total := total + items[i].amount;
      assert items[..i + 1][..i] == items[..i];
    }
    assert items[..|items|] == items;
  }

  /** The first thing wrong with an item's recipient, if any. */
  function ItemsRefusal(users: Users, sender: string, items: seq<Item>): Option<PayError> {
    if items == [] then None
    else
      var front := ItemsRefusal(users, sender, items[..|items| - 1]);
      var r := items[|items| - 1].resolved;
      if front.Some? then front
      else if r.None? || r.value !in users then Some(UnknownRecipient)
      else if users[r.value].frozen then Some(RecipientFrozen)
      else if r.value == sender then Some(SelfTransfer)
      else None
  }

  function BatchRefusal(users: Users, q: Batch, normal: string -> string): Option<PayError> {
    if !BatchValid(q.items, normal) then Some(InvalidRequest)
    else if q.sender !in users then Some(UnknownSender)
    else if users[q.sender].frozen then Some(SenderFrozen)
    else ItemsRefusal(users, q.sender, q.items)
  }

  predicate PayableItem(users: Users, sender: string, item: Item) {
    item.amount > 0 && item.resolved.Some? && item.resolved.value in users && item.resolved.value != sender
  }

  predicate Payable(users: Users, sender: string, items: seq<Item>) {
    forall i :: 0 <= i < |items| ==> PayableItem(users, sender, items[i])
  }

  lemma {:induction false} ResolvedItems(users: Users, sender: string, items: seq<Item>)
    requires ItemsRefusal(users, sender, items).None? && forall i :: 0 <= i < |items| ==> items[i].amount > 0
    ensures Payable(users, sender, items)
  {
    if items != [] { ResolvedItems(users, sender, items[..|items| - 1]); }
  }

  function AfterItem(f: Progress, users: Users, cover: bool, sender: string, currency: string, item: Item): Progress
    requires sender in users && item.resolved.Some? && item.resolved.value in users
  {
    if f.error.Some? then f
    else
      var d := AfterDelivery(f.bank, cover, users[sender].wallet, users[item.resolved.value].wallet,
                             item.resolved.value, item.amount, currency, item.debit, item.repay);
      Progress(d.bank, if d.error.None? then f.paid + 1 else f.paid, d.error)
  }

  /** The debit loop: stops at the first debit that fails. */
  function AfterItems(b: Bank, users: Users, cover: bool, sender: string, currency: string, items: seq<Item>): Progress
    requires sender in users && Payable(users, sender, items)
  {
    if items == [] then Progress(b, 0, None)
    else
      AfterItem(AfterItems(b, users, cover, sender, currency, items[..|items| - 1]), users, cover, sender, currency, items[|items| - 1])
  }

  function AfterBatch(b: Bank, users: Users, cover: bool, q: Batch, normal: string -> string): Progress {
    var refusal := BatchRefusal(users, q, normal);
    if refusal.Some? then Progress(b, 0, refusal)
    else
      var f := AfterFunding(b, cover, q.sender, users[q.sender].wallet, Sum(q.items), q.currency, q.read, q.draw);
      if f.error.Some? then Progress(f.bank, 0, f.error)
      else
        assert Payable(users, q.sender, q.items) by { ResolvedItems(users, q.sender, q.items); }
        AfterItems(f.bank, users, cover, q.sender, q.currency, q.items)
  }

  /** What the given items bring to one recipient. */
  function For(items: seq<Item>, u: string): int {
    if items == [] then 0
    else For(items[..|items| - 1], u) + if items[|items| - 1].resolved == Some(u) then items[|items| - 1].amount else 0
  }

  predicate NothingLost(items: seq<Item>) {
    forall i :: 0 <= i < |items| ==> !items[i].debit.Lost? && !items[i].repay.Lost?
  }

  lemma {:induction false} SumGrows(items: seq<Item>, k: nat)
    requires k <= |items| && forall i :: 0 <= i < |items| ==> items[i].amount > 0
    ensures Sum(items[..k]) <= Sum(items)
    decreases |items|
  {
    if k < |items| {
      SumGrows(items[..|items| - 1], k);
      assert items[..|items| - 1][..k] == items[..k];
    } else {
      assert items[..k] == items;
    }
  }

  /** A delivery takes exactly its amount from the sender's wallet, or nothing. */
  lemma DeliveryDebits(b: Bank, users: Users, cover: bool, from: string, to: string, amount: int, currency: string, debit: Delivery, repay: Delivery)
    requires WalletsDistinct(users) && from in users && to in users && from != to && amount > 0
    requires Bal(b.books.balances, Main(users[from].wallet), FormatAsset(currency)) >= amount
    ensures var d := AfterDelivery(b, cover, users[from].wallet, users[to].wallet, to, amount, currency, debit, repay);
            Bal(d.bank.books.balances, Main(users[from].wallet), FormatAsset(currency))
            == Bal(b.books.balances, Main(users[from].wallet), FormatAsset(currency)) - if debit.Dropped? then 0 else amount
  {
    var p := Posting(Main(users[from].wallet), Main(users[to].wallet), amount, FormatAsset(currency));
    SubmitOne(b.books, p, debit);
    var debited := b.(books := Submit(b.books, [p], debit).books);
    SubmitOne(debited.books, Repaying(users[to].wallet, AutoAmount(b.rows, to, amount)), repay);
  }

  /** Exactly the first `paid` items have been transferred, and nothing else has changed u's worth. */
  ghost predicate Paying(b: Bank, f: Progress, users: Users, sender: string, asset: string, items: seq<Item>, u: string, s: string)
    requires sender in users && u in users
  {
    && BankOk(f.bank) && Backing(f.bank) == Backing(b)
    && f.paid <= |items| && (f.error.None? <==> f.paid == |items|)
    && (f.error.None? <==> forall i :: 0 <= i < |items| ==> items[i].debit.Acked?)
    && Bal(f.bank.books.balances, Main(users[sender].wallet), asset)
       == Bal(b.books.balances, Main(users[sender].wallet), asset) - Sum(items[..f.paid])
    && Worth(f.bank, users, u, s) == Worth(b, users, u, s)
         + if s != asset then 0 else For(items[..f.paid], u) - if u == sender then Sum(items[..f.paid]) else 0
  }

  ghost predicate PaidOne(f: Progress, g: Progress, users: Users, sender: string, asset: string, item: Item, u: string, s: string)
    requires sender in users && u in users
  {
    var moved := if item.debit.Acked? then item.amount else 0;
    && BankOk(g.bank) && Backing(g.bank) == Backing(f.bank)
    && g.error.None? == item.debit.Acked? && g.paid == f.paid + (if item.debit.Acked? then 1 else 0)
    && Bal(g.bank.books.balances, Main(users[sender].wallet), asset)
       == Bal(f.bank.books.balances, Main(users[sender].wallet), asset) - moved
    && Worth(g.bank, users, u, s) == Worth(f.bank, users, u, s)
         + if s != asset then 0 else (if item.resolved == Some(u) then moved else 0) - (if u == sender then moved else 0)
  }

  lemma PayOne(f: Progress, users: Users, cover: bool, sender: string, currency: string, item: Item, u: string, s: string)
    requires WalletsDistinct(users) && BankOk(f.bank) && f.error.None? && sender in users && u in users
    requires PayableItem(users, sender, item) && !item.debit.Lost? && !item.repay.Lost?
    requires Bal(f.bank.books.balances, Main(users[sender].wallet), FormatAsset(currency)) >= item.amount
    ensures PaidOne(f, AfterItem(f, users, cover, sender, currency, item), users, sender, FormatAsset(currency), item, u, s)
  {
    var to := item.resolved.value;
    DeliveryDebits(f.bank, users, cover, sender, to, item.amount, currency, item.debit, item.repay);
    DeliveryKeeps(f.bank, cover, users[sender].wallet, users[to].wallet, to, item.amount, currency, item.debit, item.repay);
    DeliveryWorth(f.bank, users, cover, sender, to, item.amount, currency, item.debit, item.repay, u, s);
  }

  lemma PayingStopped(b: Bank, f: Progress, users: Users, sender: string, asset: string, items: seq<Item>, u: string, s: string)
    requires sender in users && u in users && items != [] && f.error.Some?
    requires Paying(b, f, users, sender, asset, items[..|items| - 1], u, s)
    ensures Paying(b, f, users, sender, asset, items, u, s)
  {
    var front := items[..|items| - 1];
    assert front[..f.paid] == items[..f.paid];
    var i :| 0 <= i < |front| && !front[i].debit.Acked?;
    assert items[i] == front[i];
  }

  lemma PayingOn(b: Bank, f: Progress, g: Progress, users: Users, sender: string, asset: string, items: seq<Item>, u: string, s: string)
    requires sender in users && u in users && items != [] && f.error.None?
    requires Paying(b, f, users, sender, asset, items[..|items| - 1], u, s)
    requires PaidOne(f, g, users, sender, asset, items[|items| - 1], u, s)
    ensures Paying(b, g, users, sender, asset, items, u, s)
  {
    var n := |items| - 1;
    assert items[..n][..n] == items[..n] && items[..n + 1] == items;
    assert forall i :: 0 <= i < n ==> items[..n][i] == items[i];
  }

  /** The loop from funds that suffice for all items: it fails only where a debit is dropped, the
      wallet is down by the items debited so far, and ledger and overdraft table stay in step. */
  lemma {:induction false} ItemsProgress(b: Bank, users: Users, cover: bool, sender: string, currency: string, items: seq<Item>, u: string, s: string)
    requires WalletsDistinct(users) && BankOk(b) && sender in users && Payable(users, sender, items) && NothingLost(items)
    requires Bal(b.books.balances, Main(users[sender].wallet), FormatAsset(currency)) >= Sum(items) && u in users
    ensures Paying(b, AfterItems(b, users, cover, sender, currency, items), users, sender, FormatAsset(currency), items, u, s)
    decreases |items|
  {
    if items != [] {
      var n := |items| - 1;
      SumGrows(items, n);
      ItemsProgress(b, users, cover, sender, currency, items[..n], u, s);
      var f := AfterItems(b, users, cover, sender, currency, items[..n]);
      if f.error.Some? {
        PayingStopped(b, f, users, sender, FormatAsset(currency), items, u, s);
      } else {
        assert items[..n][..f.paid] == items[..n];
        PayOne(f, users, cover, sender, currency, items[n], u, s);
        PayingOn(b, f, AfterItem(f, users, cover, sender, currency, items[n]), users, sender, FormatAsset(currency), items, u, s);
      }
    }
  }

  /** Batches, with no acknowledgement lost: exactly the first `paid` items are transferred and
      nothing else changes anyone's worth. Absent ledger faults a batch stops before any debit or
      performs all of them, so the sender's worth falls by the total and each recipient's rises by
      the sum of their items. */
  lemma BatchExactly(b: Bank, users: Users, cover: bool, q: Batch, normal: string -> string, u: string, s: string)
    requires WalletsDistinct(users) && BankOk(b) && u in users && !q.draw.Lost? && NothingLost(q.items)
    ensures var p := AfterBatch(b, users, cover, q, normal);
            && p.paid <= |q.items|
            && Worth(p.bank, users, u, s) == Worth(b, users, u, s)
                 + (if s != FormatAsset(q.currency) then 0
                    else For(q.items[..p.paid], u) - if u == q.sender then Sum(q.items[..p.paid]) else 0)
            && (p.error.None? <==> p.paid == |q.items| && BatchRefusal(users, q, normal).None?)
            && ((forall i :: 0 <= i < |q.items| ==> q.items[i].debit.Acked?) ==> p.error.None? || p.paid == 0)
            && BankOk(p.bank) && Backing(p.bank) == Backing(b)
  {
    assert For([], u) == 0 && q.items[..0] == [];
    if BatchRefusal(users, q, normal).None? {
      var w := users[q.sender].wallet;
      var f := AfterFunding(b, cover, q.sender, w, Sum(q.items), q.currency, q.read, q.draw);
      FundingWorth(b, users, cover, q.sender, Sum(q.items), q.currency, q.read, q.draw, u, s);
      FundingKeeps(b, cover, q.sender, w, Sum(q.items), q.currency, q.read, q.draw);
      if f.error.None? {
        ResolvedItems(users, q.sender, q.items);
        ItemsProgress(f.bank, users, cover, q.sender, q.currency, q.items, u, s);
      }
    }
  }

  // ---------------------------------------------------------------- the service object

  lemma {:induction false} StoppedItems(b: Bank, users: Users, cover: bool, sender: string, currency: string, items: seq<Item>, k: nat)
    requires sender in users && Payable(users, sender, items) && k <= |items|
    requires AfterItems(b, users, cover, sender, currency, items[..k]).error.Some?
    ensures AfterItems(b, users, cover, sender, currency, items) == AfterItems(b, users, cover, sender, currency, items[..k])
    decreases |items|
  {
    if k == |items| {
      assert items[..k] == items;
    } else {
      assert items[..|items| - 1][..k] == items[..k];
      StoppedItems(b, users, cover, sender, currency, items[..|items| - 1], k);
    }
  }

  lemma NextItem(b: Bank, users: Users, cover: bool, sender: string, currency: string, items: seq<Item>, i: nat)
    requires sender in users && Payable(users, sender, items) && i < |items|
    ensures AfterItems(b, users, cover, sender, currency, items[..i + 1])
            == AfterItem(AfterItems(b, users, cover, sender, currency, items[..i]), users, cover, sender, currency, items[i])
  {
    assert items[..i + 1][..i] == items[..i];
  }

  lemma {:induction false} RefusedItems(users: Users, sender: string, items: seq<Item>, k: nat)
    requires k <= |items| && ItemsRefusal(users, sender, items[..k]).Some?
    ensures ItemsRefusal(users, sender, items) == ItemsRefusal(users, sender, items[..k])
    decreases |items|
  {
    if k == |items| {
      assert items[..k] == items;
    } else {
      assert items[..|items| - 1][..k] == items[..k];
      RefusedItems(users, sender, items[..|items| - 1], k);
    }
  }

  class Service {
    const overdraft: Overdraft.Service
    const covers: bool
    var users: Users

    constructor (overdraft: Overdraft.Service, covers: bool, users: Users)
      ensures this.overdraft == overdraft && this.covers == covers && this.users == users
    {
      this.overdraft, this.covers, this.users := overdraft, covers, users;
    }

    method ProcessInboundTransfer(q: Payment) returns (error: Option<PayError>)
      modifies overdraft, overdraft.ledger
      ensures Stage(overdraft.State(), error) == AfterPayment(old(overdraft.State()), users, covers, q)
    {
      if q.amount <= 0 { return Some(InvalidRequest); }
      if q.sender !in users { return Some(UnknownSender); }
      var sender := users[q.sender];
      if sender.frozen { return Some(SenderFrozen); }
      if !q.permitted { return Some(Blocked); }
      if q.recipient.None? || q.recipient.value !in users { return Some(UnknownRecipient); }
      var recipient := users[q.recipient.value];
      if recipient.frozen { return Some(RecipientFrozen); }
      if q.sender == q.recipient.value { return Some(SelfTransfer); }

      error := Fund(q.sender, sender.wallet, q.amount, q.currency, q.read, q.draw);
      if error.Some? { return; }
      error := Deliver(sender.wallet, recipient.wallet, q.recipient.value, q.amount, q.currency, q.debit, q.repay);
    }

    method Fund(user: string, wallet: string, amount: int, currency: string, read: bool, draw: Delivery) returns (error: Option<PayError>)
      modifies overdraft, overdraft.ledger
      ensures Stage(overdraft.State(), error) == AfterFunding(old(overdraft.State()), covers, user, wallet, amount, currency, read, draw)
    {
      if !read { return Some(BalanceUnavailable); }
      var asset := FormatAsset(currency);
      var balance := overdraft.ledger.GetAccountBalance(Main(wallet), asset);
      if balance < amount {
        if currency != "ETB" || !covers { return Some(InsufficientFunds); }
        var shortfall := amount - balance;
        var refused := overdraft.UseCover(user, wallet, shortfall, asset, draw);
        if refused.Some? { return Some(CoverError(refused.value)); }
      }
      error := None;
    }

    method Deliver(from: string, to: string, user: string, amount: int, currency: string, debit: Delivery, repay: Delivery) returns (error: Option<PayError>)
      modifies overdraft, overdraft.ledger
      ensures Stage(overdraft.State(), error) == AfterDelivery(old(overdraft.State()), covers, from, to, user, amount, currency, debit, repay)
    {
      var ok := overdraft.ledger.CreateTransaction([Posting(Main(from), Main(to), amount, FormatAsset(currency))], debit);
      if !ok { return Some(DebitFailed); }
      if currency == "ETB" && covers {
        var _ := overdraft.AutoRepayOnInflow(user, to, amount, repay);
      }
      error := None;
    }

    method ProcessBatchTransfer(q: Batch, normal: string -> string) returns (error: Option<PayError>, paid: nat)
      modifies overdraft, overdraft.ledger
      ensures Progress(overdraft.State(), paid, error) == AfterBatch(old(overdraft.State()), users, covers, q, normal)
    {
      var valid := ValidateBatch(q.items, normal);
      if !valid { return Some(InvalidRequest), 0; }
      if q.sender !in users { return Some(UnknownSender), 0; }
      var sender := users[q.sender];
      if sender.frozen { return Some(SenderFrozen), 0; }
      error := ResolveItems(q.sender, q.items);
      if error.Some? { return error, 0; }
      var total := TotalCents(q.items);
      error := Fund(q.sender, sender.wallet, total, q.currency, q.read, q.draw);
      if error.Some? { return error, 0; }
      ResolvedItems(users, q.sender, q.items);
      error, paid := DebitItems(q);
    }

    method ResolveItems(sender: string, items: seq<Item>) returns (error: Option<PayError>)
      ensures error == ItemsRefusal(users, sender, items)
    {
      for i := 0 to |items|
        invariant ItemsRefusal(users, sender, items[..i]).None?
      {
        assert items[..i + 1][..i] == items[..i];
        var r := items[i].resolved;
        if r.None? || r.value !in users {
          error := Some(UnknownRecipient);
        } else if users[r.value].frozen {
          error := Some(RecipientFrozen);
        } else if r.value == sender {
          error := Some(SelfTransfer);
        } else {
          error := None;
        }
        assert error == ItemsRefusal(users, sender, items[..i + 1]);
        if error.Some? {
          RefusedItems(users, sender, items, i + 1);
          return;
        }
      }
      assert items[..|items|] == items;
      error := None;
    }

    method DebitItems(q: Batch) returns (error: Option<PayError>, paid: nat)
      requires q.sender in users && Payable(users, q.sender, q.items)
      modifies overdraft, overdraft.ledger
      ensures Progress(overdraft.State(), paid, error) == AfterItems(old(overdraft.State()), users, covers, q.sender, q.currency, q.items)
    {
      ghost var start := overdraft.State();
      paid := 0;
      for i := 0 to |q.items|
        invariant Progress(overdraft.State(), paid, None) == AfterItems(start, users, covers, q.sender, q.currency, q.items[..i])
      {
        NextItem(start, users, covers, q.sender, q.currency, q.items, i);
        error := DebitItem(q.sender, q.currency, q.items[i], paid);
        if error.Some? {
          StoppedItems(start, users, covers, q.sender, q.currency, q.items, i + 1);
          return;
        }
        paid := paid + 1;
      }
      assert q.items[..|q.items|] == q.items;
      error := None;
    }

    method DebitItem(sender: string, currency: string, item: Item, paid: nat) returns (error: Option<PayError>)
      requires sender in users && PayableItem(users, sender, item)
      modifies overdraft, overdraft.ledger
      ensures Progress(overdraft.State(), if error.None? then paid + 1 else paid, error)
              == AfterItem(Progress(old(overdraft.State()), paid, None), users, covers, sender, currency, item)
    {
      error := Deliver(users[sender].wallet, users[item.resolved.value].wallet, item.resolved.value, item.amount, currency, item.debit, item.repay);
    }
  }
}

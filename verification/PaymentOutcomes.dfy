/** When payments and batches complete, and what a completed one does to both wallets, both overdrafts and
    the pool, read off the users, the amounts and the balances alone. */
module PaymentOutcomes {
  import opened Common
  import opened Chart
  import opened Ledger
  import opened Overdraft
  import opened Payments

  /** What the wallet lacks; in birr that is what a draw has to bring. */
  function Lacking(b: Bank, wallet: string, amount: int, currency: string): int {
    Max(0, amount - Bal(b.books.balances, Main(wallet), FormatAsset(currency)))
  }

  /** The wallet has the amount, or an active or used overdraft with enough left of its limit, and the pool
      behind it, make up what is missing in birr. */
  predicate Fundable(b: Bank, cover: bool, user: string, wallet: string, amount: int, currency: string, draw: Delivery) {
    var lacking := Lacking(b, wallet, amount, currency);
    || lacking == 0
    || (&& currency == "ETB" && cover && draw.Acked?
        && user in b.rows && (b.rows[user].status.Active? || b.rows[user].status.Used?)
        && lacking <= b.rows[user].limit - b.rows[user].used
        && lacking <= Bal(b.books.balances, OverdraftCapital, ETB))
  }

  /** Funding succeeds exactly when the balance can be read and there are funds. It draws what is missing and
      no more, and nothing when nothing is missing. */
  lemma FundingExactly(b: Bank, cover: bool, user: string, wallet: string, amount: int, currency: string, read: bool, draw: Delivery)
    ensures var f := AfterFunding(b, cover, user, wallet, amount, currency, read, draw);
            var lacking := Lacking(b, wallet, amount, currency);
            && (f.error.None? <==> read && Fundable(b, cover, user, wallet, amount, currency, draw))
            && (f.error == Some(BalanceUnavailable) <==> !read)
            && (f.error.None? && lacking == 0 ==> f.bank == b)
            && (f.error.None? && lacking > 0 ==>
                  && Shifted(b.books.balances, f.bank.books.balances, OverdraftCapital, Main(wallet), lacking, ETB)
                  && RowWritten(b.rows, f.bank.rows, user, b.rows[user].limit, b.rows[user].used + lacking, b.rows[user].accrued, Used))
            && (f.error.Some? ==> f.bank.rows == b.rows)
  {
    EtbAsset();
    CoverExactly(b, user, wallet, Lacking(b, wallet, amount, currency), FormatAsset(currency), draw);
  }

  // ---------------------------------------------------------------- one payment

  predicate GoodUser(users: Users, user: string) { user in users && !users[user].frozen }

  /** The sender and the recipient are two known users, neither of them frozen, and the regulator agrees. */
  predicate Proper(users: Users, q: Payment) {
    && q.amount > 0 && q.permitted && GoodUser(users, q.sender)
    && q.recipient.Some? && GoodUser(users, q.recipient.value) && q.recipient.value != q.sender
  }

  predicate Funds(b: Bank, users: Users, cover: bool, q: Payment)
    requires q.sender in users
  {
    q.read && Fundable(b, cover, q.sender, users[q.sender].wallet, q.amount, q.currency, q.draw)
  }

  /** A payment completes exactly when it is proper, there are funds, and its debit is acknowledged. One that
      is not proper touches nothing, and its error names the first thing wrong with it. */
  lemma PaymentCompletes(b: Bank, users: Users, cover: bool, q: Payment)
    requires WalletsDistinct(users)
    ensures var p := AfterPayment(b, users, cover, q);
            && (p.error.None? <==> Proper(users, q) && Funds(b, users, cover, q) && q.debit.Acked?)
            && (!Proper(users, q) ==> p.bank == b)
            && (q.amount <= 0 <==> p.error == Some(InvalidRequest))
            && (q.amount > 0 && q.sender !in users <==> p.error == Some(UnknownSender))
            && (q.amount > 0 && q.sender in users && users[q.sender].frozen <==> p.error == Some(SenderFrozen))
            && (q.amount > 0 && GoodUser(users, q.sender) && !q.permitted <==> p.error == Some(Blocked))
            && (p.error == Some(UnknownRecipient) <==>
                  q.amount > 0 && GoodUser(users, q.sender) && q.permitted && (q.recipient.None? || q.recipient.value !in users))
            && (p.error == Some(RecipientFrozen) <==>
                  q.amount > 0 && GoodUser(users, q.sender) && q.permitted
                  && q.recipient.Some? && q.recipient.value in users && users[q.recipient.value].frozen)
            && (p.error == Some(DebitFailed) <==> Proper(users, q) && Funds(b, users, cover, q) && !q.debit.Acked?)
  {
    if Proper(users, q) {
      var f, from := Funding(b, users, cover, q), users[q.sender].wallet;
      FundingExactly(b, cover, q.sender, from, q.amount, q.currency, q.read, q.draw);
      if f.error.None? {
        FundingWorth(b, users, cover, q.sender, q.amount, q.currency, q.read, q.draw, q.sender, "");
        SubmitOne(f.bank.books, Posting(Main(from), Main(users[q.recipient.value].wallet), q.amount, FormatAsset(q.currency)), q.debit);
      }
    }
  }

  /** After the debit: the recipient's own debt, up to the amount, goes on from the recipient's wallet to the
      pool. */
  lemma InflowSettled(b: Bank, users: Users, from: string, to: string, amount: int, repay: Delivery)
    requires WalletsDistinct(users) && from in users && to in users && from != to && BankOk(b) && amount > 0 && repay.Acked?
    requires Bal(b.books.balances, Main(users[from].wallet), ETB) >= amount
    ensures var c, due := AfterDelivery(b, true, users[from].wallet, users[to].wallet, to, amount, "ETB", Acked, repay).bank,
                          Min(amount, OwedBy(b.rows, to));
            && Bal(c.books.balances, Main(users[from].wallet), ETB) == Bal(b.books.balances, Main(users[from].wallet), ETB) - amount
            && Bal(c.books.balances, Main(users[to].wallet), ETB) == Bal(b.books.balances, Main(users[to].wallet), ETB) + amount - due
            && Bal(c.books.balances, OverdraftCapital, ETB) == Bal(b.books.balances, OverdraftCapital, ETB) + due
            && OwedBy(c.rows, to) == Max(0, OwedBy(b.rows, to) - amount)
            && (OwedBy(b.rows, to) > 0 ==> (c.rows[to].status.Active? <==> amount >= OwedBy(b.rows, to)))
            && (forall u :: u != to ==> OwedBy(c.rows, u) == OwedBy(b.rows, u))
  {
    EtbAsset();
    var p := Posting(Main(users[from].wallet), Main(users[to].wallet), amount, ETB);
    SubmitOne(b.books, p, Acked);
    InflowRepays(b.(books := Submit(b.books, [p], Acked).books), to, users[to].wallet, amount, repay);
  }

  /** A completed birr payment whose repayment is acknowledged, with an overdraft service: the sender pays out
      of the wallet and, for what is missing, out of the overdraft; the recipient's debt is repaid by the
      smaller of amount and debt and only the rest stays in the recipient's wallet; the recipient is out of the
      overdraft exactly when the amount was at least the debt. */
  lemma CompletedPayment(b: Bank, users: Users, q: Payment)
    requires WalletsDistinct(users) && BankOk(b) && q.currency == "ETB" && q.repay.Acked?
    requires AfterPayment(b, users, true, q).error.None?
    ensures Proper(users, q)
    ensures var c, from, to := AfterPayment(b, users, true, q).bank, q.sender, q.recipient.value;
            var drawn, due := Lacking(b, users[from].wallet, q.amount, "ETB"), Min(q.amount, OwedBy(b.rows, to));
            && Bal(c.books.balances, Main(users[from].wallet), ETB) == Bal(b.books.balances, Main(users[from].wallet), ETB) + drawn - q.amount
            && OwedBy(c.rows, from) == OwedBy(b.rows, from) + drawn
            && Bal(c.books.balances, Main(users[to].wallet), ETB) == Bal(b.books.balances, Main(users[to].wallet), ETB) + q.amount - due
            && OwedBy(c.rows, to) == Max(0, OwedBy(b.rows, to) - q.amount)
            && (OwedBy(b.rows, to) > 0 ==> (c.rows[to].status.Active? <==> q.amount >= OwedBy(b.rows, to)))
            && Bal(c.books.balances, OverdraftCapital, ETB) == Bal(b.books.balances, OverdraftCapital, ETB) - drawn + due
  {
    PaymentCompletes(b, users, true, q);
    var from, to := q.sender, q.recipient.value;
    EtbAsset();
    var f := Funding(b, users, true, q);
    FundingExactly(b, true, from, users[from].wallet, q.amount, q.currency, q.read, q.draw);
    FundingKeeps(b, true, from, users[from].wallet, q.amount, q.currency, q.read, q.draw);
    FundingWorth(b, users, true, from, q.amount, q.currency, q.read, q.draw, from, ETB);
    InflowSettled(f.bank, users, from, to, q.amount, q.repay);
  }

  // ---------------------------------------------------------------- batches

  /** Between two and ten items of positive amount, no recipient twice, all of them known, unfrozen and not
      the sender, who is known and not frozen either. */
  predicate ProperBatch(users: Users, q: Batch, normal: string -> string) {
    && 2 <= |q.items| <= 10 && GoodUser(users, q.sender)
    && (forall i :: 0 <= i < |q.items| ==>
          && q.items[i].amount > 0 && q.items[i].resolved.Some?
          && GoodUser(users, q.items[i].resolved.value) && q.items[i].resolved.value != q.sender)
    && (forall i, j :: 0 <= i < j < |q.items| ==> normal(q.items[i].identifier) != normal(q.items[j].identifier))
  }

  lemma {:induction false} ItemsProper(users: Users, sender: string, items: seq<Item>)
    ensures ItemsRefusal(users, sender, items).None? <==>
            forall i :: 0 <= i < |items| ==>
              items[i].resolved.Some? && GoodUser(users, items[i].resolved.value) && items[i].resolved.value != sender
  {
    if items != [] {
      var n := |items| - 1;
      ItemsProper(users, sender, items[..n]);
      assert forall i :: 0 <= i < n ==> items[..n][i] == items[i];
    }
  }

  lemma BatchProper(users: Users, q: Batch, normal: string -> string)
    ensures BatchRefusal(users, q, normal).None? <==> ProperBatch(users, q, normal)
  {
    ItemsProper(users, q.sender, q.items);
  }

  /** One turn of the loop, from funds for the item. */
  lemma ItemCompletes(f: Progress, users: Users, cover: bool, sender: string, currency: string, item: Item)
    requires WalletsDistinct(users) && sender in users && PayableItem(users, sender, item) && f.error.None?
    requires Bal(f.bank.books.balances, Main(users[sender].wallet), FormatAsset(currency)) >= item.amount
    ensures var g := AfterItem(f, users, cover, sender, currency, item);
            && (g.error.None? <==> item.debit.Acked?)
            && (g.error.None? ==>
                  && g.paid == f.paid + 1
                  && Bal(g.bank.books.balances, Main(users[sender].wallet), FormatAsset(currency))
                     == Bal(f.bank.books.balances, Main(users[sender].wallet), FormatAsset(currency)) - item.amount)
  {
    var to := item.resolved.value;
    DeliveryDebits(f.bank, users, cover, sender, to, item.amount, currency, item.debit, item.repay);
    SubmitOne(f.bank.books, Posting(Main(users[sender].wallet), Main(users[to].wallet), item.amount, FormatAsset(currency)), item.debit);
  }

  /** From funds for all items the loop gets through exactly when every debit is acknowledged. */
  lemma {:induction false} ItemsComplete(b: Bank, users: Users, cover: bool, sender: string, currency: string, items: seq<Item>)
    requires WalletsDistinct(users) && sender in users && Payments.Payable(users, sender, items)
    requires Bal(b.books.balances, Main(users[sender].wallet), FormatAsset(currency)) >= Sum(items)
    ensures var f := AfterItems(b, users, cover, sender, currency, items);
            && (f.error.None? <==> forall i :: 0 <= i < |items| ==> items[i].debit.Acked?)
            && (f.error.None? ==>
                  && f.paid == |items|
                  && Bal(f.bank.books.balances, Main(users[sender].wallet), FormatAsset(currency))
                     == Bal(b.books.balances, Main(users[sender].wallet), FormatAsset(currency)) - Sum(items))
    decreases |items|
  {
    if items != [] {
      var n := |items| - 1;
      ItemsComplete(b, users, cover, sender, currency, items[..n]);
      assert forall i :: 0 <= i < n ==> items[..n][i] == items[i];
      var f := AfterItems(b, users, cover, sender, currency, items[..n]);
      if f.error.None? {
        ItemCompletes(f, users, cover, sender, currency, items[n]);
      }
    }
  }

  /** A batch completes exactly when it is proper, there are funds for its total, and every debit is
      acknowledged; an improper one touches nothing. */
  lemma BatchCompletes(b: Bank, users: Users, cover: bool, q: Batch, normal: string -> string)
    requires WalletsDistinct(users)
    ensures var p := AfterBatch(b, users, cover, q, normal);
            && (p.error.None? <==>
                  && ProperBatch(users, q, normal) && q.read
                  && Fundable(b, cover, q.sender, users[q.sender].wallet, Sum(q.items), q.currency, q.draw)
                  && forall i :: 0 <= i < |q.items| ==> q.items[i].debit.Acked?)
            && (!ProperBatch(users, q, normal) ==> p.bank == b && p.paid == 0)
            && (p.error.None? ==> p.paid == |q.items|)
  {
    BatchProper(users, q, normal);
    if ProperBatch(users, q, normal) {
      var w := users[q.sender].wallet;
      FundingExactly(b, cover, q.sender, w, Sum(q.items), q.currency, q.read, q.draw);
      FundingWorth(b, users, cover, q.sender, Sum(q.items), q.currency, q.read, q.draw, q.sender, "");
      var f := AfterFunding(b, cover, q.sender, w, Sum(q.items), q.currency, q.read, q.draw);
      if f.error.None? {
        ResolvedItems(users, q.sender, q.items);
        ItemsComplete(f.bank, users, cover, q.sender, q.currency, q.items);
      }
    }
  }

  predicate AllAcked(items: seq<Item>) { forall i :: 0 <= i < |items| ==> items[i].debit.Acked? && items[i].repay.Acked? }

  /** One turn of the loop. */
  lemma ItemRepays(f: Progress, users: Users, sender: string, item: Item, u: string)
    requires WalletsDistinct(users) && BankOk(f.bank) && f.error.None? && sender in users && PayableItem(users, sender, item)
    requires Bal(f.bank.books.balances, Main(users[sender].wallet), ETB) >= item.amount && item.debit.Acked? && item.repay.Acked?
    ensures var g := AfterItem(f, users, true, sender, "ETB", item);
            && BankOk(g.bank) && g.error.None?
            && OwedBy(g.bank.rows, u) == Max(0, OwedBy(f.bank.rows, u) - if item.resolved == Some(u) then item.amount else 0)
  {
    EtbAsset();
    var to := item.resolved.value;
    InflowSettled(f.bank, users, sender, to, item.amount, item.repay);
    DeliveryKeeps(f.bank, true, users[sender].wallet, users[to].wallet, to, item.amount, "ETB", item.debit, item.repay);
    SubmitOne(f.bank.books, Posting(Main(users[sender].wallet), Main(users[to].wallet), item.amount, ETB), Acked);
  }

  /** Every recipient of these items owes what they owed less what the items brought them. */
  ghost predicate Repaid(b: Bank, f: Progress, items: seq<Item>, u: string) {
    && BankOk(f.bank) && f.error.None? && For(items, u) >= 0
    && OwedBy(f.bank.rows, u) == Max(0, OwedBy(b.rows, u) - For(items, u))
  }

  lemma RepaidOn(b: Bank, f: Progress, users: Users, sender: string, items: seq<Item>, u: string)
    requires WalletsDistinct(users) && sender in users && items != [] && PayableItem(users, sender, items[|items| - 1])
    requires Repaid(b, f, items[..|items| - 1], u) && items[|items| - 1].debit.Acked? && items[|items| - 1].repay.Acked?
    requires Bal(f.bank.books.balances, Main(users[sender].wallet), ETB) >= items[|items| - 1].amount
    ensures Repaid(b, AfterItem(f, users, true, sender, "ETB", items[|items| - 1]), items, u)
  {
    ItemRepays(f, users, sender, items[|items| - 1], u);
  }

  /** The debit loop repays every recipient's debt out of what that recipient is sent. */
  lemma {:induction false} ItemsRepay(b: Bank, users: Users, sender: string, items: seq<Item>, u: string)
    requires WalletsDistinct(users) && BankOk(b) && sender in users && Payments.Payable(users, sender, items)
    requires Bal(b.books.balances, Main(users[sender].wallet), ETB) >= Sum(items) && AllAcked(items)
    ensures Repaid(b, AfterItems(b, users, true, sender, "ETB", items), items, u)
    decreases |items|
  {
    if items == [] {
      assert OwedBy(b.rows, u) >= 0;
    } else {
      var n := |items| - 1;
      SumGrows(items, n);
      ItemsRepay(b, users, sender, items[..n], u);
      EtbAsset();
      ItemsComplete(b, users, true, sender, "ETB", items[..n]);
      RepaidOn(b, AfterItems(b, users, true, sender, "ETB", items[..n]), users, sender, items, u);
    }
  }

  lemma {:induction false} NothingForSender(users: Users, sender: string, items: seq<Item>)
    requires Payments.Payable(users, sender, items)
    ensures For(items, sender) == 0
  {
    if items != [] { NothingForSender(users, sender, items[..|items| - 1]); }
  }

  /** After a completed birr batch whose repayments are acknowledged every recipient owes what they owed
      before less what they were sent, down to nothing, and the sender owes what was drawn on top. */
  lemma CompletedBatch(b: Bank, users: Users, q: Batch, normal: string -> string, u: string)
    requires WalletsDistinct(users) && BankOk(b) && q.currency == "ETB" && forall i :: 0 <= i < |q.items| ==> q.items[i].repay.Acked?
    requires AfterBatch(b, users, true, q, normal).error.None?
    ensures ProperBatch(users, q, normal)
    ensures OwedBy(AfterBatch(b, users, true, q, normal).bank.rows, u) ==
            if u == q.sender then OwedBy(b.rows, u) + Lacking(b, users[u].wallet, Sum(q.items), "ETB")
            else Max(0, OwedBy(b.rows, u) - For(q.items, u))
  {
    BatchCompletes(b, users, true, q, normal);
    EtbAsset();
    var w := users[q.sender].wallet;
    var f := AfterFunding(b, true, q.sender, w, Sum(q.items), q.currency, q.read, q.draw);
    FundingExactly(b, true, q.sender, w, Sum(q.items), q.currency, q.read, q.draw);
    FundingKeeps(b, true, q.sender, w, Sum(q.items), q.currency, q.read, q.draw);
    FundingWorth(b, users, true, q.sender, Sum(q.items), q.currency, q.read, q.draw, q.sender, ETB);
    BatchProper(users, q, normal);
    ResolvedItems(users, q.sender, q.items);
    ItemsRepay(f.bank, users, q.sender, q.items, u);
    NothingForSender(users, q.sender, q.items);
  }
}

/** Whole runs of the card desk: decisions, clearings, reversals, top-ups and new limits, one at a time,
    each with a fresh hold id and no ledger acknowledgement lost. */
module CardRuns {
  import opened Common
  import opened Chart
  import opened Ledger
  import opened CardAuth

  datatype Step =
    | Decide(request: Request, env: Env)
    | Clear(rrn: string, settlement: int, read: bool, d: Delivery)
    | Reverse(rrn: string, list: bool, read: bool, d: Delivery)
    | TopUp(wallet: string, amount: int, asset: string, d: Delivery)
    | SetLimits(pan: string, daily: int, monthly: int)

  function AfterStep(d: Desk, step: Step): Desk {
    match step
    case Decide(q, env) => AfterDecide(d, q, env).desk
    case Clear(rrn, n, read, how) => AfterClear(d, rrn, n, read, how).desk
    case Reverse(rrn, list, read, how) => AfterReverse(d, rrn, list, read, how).desk
    case TopUp(w, n, s, how) => d.(books := Submit(d.books, [Posting(World, Main(w), n, s)], how).books)
    case SetLimits(pan, daily, monthly) =>
      if pan in d.cards then d.(cards := d.cards[pan := d.cards[pan].(daily := daily, monthly := monthly)]) else d
  }

  /** Fresh holds and no lost acknowledgement. */
  ghost predicate Legal(d: Desk, step: Step) {
    match step
    case Decide(_, env) => Unused(d.books, env.holdID) && !env.delivery.Lost?
    case Clear(_, _, _, how) => !how.Lost?
    case Reverse(_, _, _, how) => !how.Lost?
    case TopUp(_, _, _, how) => !how.Lost?
    case SetLimits(_, _, _) => true
  }

  function AfterRun(d: Desk, steps: seq<Step>): Desk {
    if steps == [] then d else AfterStep(AfterRun(d, steps[..|steps| - 1]), steps[|steps| - 1])
  }

  ghost predicate LegalRun(d: Desk, steps: seq<Step>) {
    steps == [] || (LegalRun(d, steps[..|steps| - 1]) && Legal(AfterRun(d, steps[..|steps| - 1]), steps[|steps| - 1]))
  }

  // ---------------------------------------------------------------- hold lifecycle

  function MetaOf(a: Auth): HoldMeta { HoldMeta(a.wallet, FormatAsset(a.currency), TransitCardAuth) }

  /** An approved row's hold account contains exactly its amount in its currency and nothing else;
      a cleared or reversed row's hold account is empty; a row without a hold is a decline. */
  ghost predicate RowSound(b: Books, a: Auth) {
    match a.hold
    case None => a.status.Declined?
    case Some(h) =>
      && (a.status.Approved? || a.status.Cleared? || a.status.Reversed?) && a.amount >= 0
      && Funded(b, h, MetaOf(a), a.amount, if a.status.Approved? then a.amount else 0)
  }

  predicate HoldsDistinct(auths: seq<Auth>) {
    forall i, j :: 0 <= i < j < |auths| && auths[i].hold.Some? ==> auths[i].hold != auths[j].hold
  }

  ghost predicate Sound(d: Desk) {
    && (forall i :: 0 <= i < |d.auths| ==> RowSound(d.books, d.auths[i]))
    && HoldsDistinct(d.auths)
  }

  function SpentBy(wallet: string, asset: string): Auth -> bool {
    (a: Auth) => (a.status.Approved? || a.status.Cleared?) && a.wallet == wallet && FormatAsset(a.currency) == asset
  }

  function ClearedIn(asset: string): Auth -> bool { (a: Auth) => a.status.Cleared? && FormatAsset(a.currency) == asset }

  /** Wallet balance plus what its approved and cleared authorizations took out of it. */
  function Gross(d: Desk, wallet: string, asset: string): int {
    Bal(d.books.balances, Main(wallet), asset) + SumIf(d.auths, SpentBy(wallet, asset))
  }

  /** Card transit less what was cleared into it. */
  function Unexplained(d: Desk, asset: string): int {
    Bal(d.books.balances, TransitCardAuth, asset) - SumIf(d.auths, ClearedIn(asset))
  }

  function ToppedUp(step: Step, wallet: string, asset: string): int {
    if step.TopUp? && step.wallet == wallet && step.asset == asset && step.amount >= 0 && !step.d.Dropped? then step.amount else 0
  }

  // ---------------------------------------------------------------- one step at a time

  /** Sound rows are the same before and after a transaction that avoids their holds. */
  lemma RowsUntouched(b: Books, c: Books, p: Posting, a: Auth)
    requires RowSound(b, a)
    requires c.log == b.log + [[p]] && Shifted(b.balances, c.balances, p.source, p.destination, p.amount, p.asset)
    requires a.hold.Some? ==> p.source != Hold(a.hold.value) && p.destination != Hold(a.hold.value)
    requires a.hold.Some? && a.hold.value in b.holds ==> a.hold.value in c.holds && c.holds[a.hold.value] == b.holds[a.hold.value]
    ensures RowSound(c, a)
  {
    if a.hold.Some? {
      FundedElsewhere(b, c, p, a.hold.value, MetaOf(a), a.amount, if a.status.Approved? then a.amount else 0);
    }
  }

  lemma AppendSound(b: Books, auths: seq<Auth>, a: Auth)
    requires (forall i :: 0 <= i < |auths| ==> RowSound(b, auths[i])) && HoldsDistinct(auths) && RowSound(b, a)
    requires a.hold.Some? ==> forall i :: 0 <= i < |auths| ==> auths[i].hold != a.hold
    ensures var after := auths + [a]; (forall i :: 0 <= i < |after| ==> RowSound(b, after[i])) && HoldsDistinct(after)
  {}

  /** Row c is row a cleared or reversed. */
  predicate Closes(a: Auth, c: Auth) {
    (c.status.Cleared? || c.status.Reversed?) && c == a.(status := c.status, settlement := c.settlement)
  }

  /** What a step may do to the table: rows are only ever appended or, once, closed. */
  ghost predicate Evolves(before: seq<Auth>, after: seq<Auth>) {
    && |before| <= |after|
    && forall i :: 0 <= i < |before| ==>
         || after[i] == before[i]
         || (before[i].status.Approved? && Closes(before[i], after[i]))
  }

  /** Everything a step keeps, for one wallet and one asset. */
  ghost predicate Kept(d: Desk, e: Desk, w: string, s: string, topUp: int) {
    && Sound(e) && Evolves(d.auths, e.auths)
    && Gross(e, w, s) == Gross(d, w, s) + topUp
    && Unexplained(e, s) == Unexplained(d, s)
  }

  lemma DeclineKeeps(d: Desk, q: Request, env: Env, code: string, merchant: Option<string>, w: string, s: string)
    requires Sound(d)
    ensures Kept(d, Decline(d, q, env, code, merchant).desk, w, s, 0)
  {
    if q.pan in d.cards {
      var e := Decline(d, q, env, code, merchant).desk;
      var a := e.auths[|d.auths|];
      AppendSound(d.books, d.auths, a);
      SumIfAppend(d.auths, a, SpentBy(w, s));
      SumIfAppend(d.auths, a, ClearedIn(s));
    }
  }

  /** Opening a hold and writing its row. */
  lemma ApproveKeeps(d: Desk, a: Auth, e: Desk, w: string, s: string)
    requires Sound(d) && a.status.Approved? && a.hold.Some? && Unused(d.books, a.hold.value) && a.amount >= 0
    requires Bal(d.books.balances, Main(a.wallet), FormatAsset(a.currency)) >= a.amount
    requires e == d.(books := AfterHold(d.books, a.wallet, TransitCardAuth, a.amount, FormatAsset(a.currency), a.hold.value, Acked).books,
                     auths := d.auths + [a])
    ensures Kept(d, e, w, s, 0)
  {
    var h, asset := a.hold.value, FormatAsset(a.currency);
    HoldOpens(d.books, a.wallet, TransitCardAuth, a.amount, asset, h, Acked);
    forall i | 0 <= i < |d.auths|
      ensures RowSound(e.books, d.auths[i]) && d.auths[i].hold != a.hold
    {
      RowsUntouched(d.books, e.books, Posting(Main(a.wallet), Hold(h), a.amount, asset), d.auths[i]);
    }
    AppendSound(e.books, d.auths, a);
    OpenBalances(d, e, a, w, s);
  }

  lemma OpenBalances(d: Desk, e: Desk, a: Auth, w: string, s: string)
    requires a.status.Approved? && a.hold.Some? && e.auths == d.auths + [a]
    requires Shifted(d.books.balances, e.books.balances, Main(a.wallet), Hold(a.hold.value), a.amount, FormatAsset(a.currency))
    ensures Gross(e, w, s) == Gross(d, w, s) && Unexplained(e, s) == Unexplained(d, s)
  {
    SumIfAppend(d.auths, a, SpentBy(w, s));
    SumIfAppend(d.auths, a, ClearedIn(s));
  }

  /** Closing one row leaves every other row's hold as it was. */
  lemma OthersUntouched(d: Desk, b: Books, i: nat, p: Posting)
    requires Sound(d) && i < |d.auths| && d.auths[i].hold.Some? && p.source == Hold(d.auths[i].hold.value) && !p.destination.Hold?
    requires Shifted(d.books.balances, b.balances, p.source, p.destination, p.amount, p.asset)
    requires b.log == d.books.log + [[p]] && b.holds == d.books.holds
    ensures forall j :: 0 <= j < |d.auths| && j != i ==> RowSound(b, d.auths[j])
  {
    forall j | 0 <= j < |d.auths| && j != i
      ensures RowSound(b, d.auths[j])
    {
      assert d.auths[j].hold.Some? ==> d.auths[j].hold != d.auths[i].hold by {
        assert HoldsDistinct(d.auths);
      }
      RowsUntouched(d.books, b, p, d.auths[j]);
    }
  }

  /** Emptying row i's hold into transit (cleared) or back into the wallet (reversed). */
  lemma CloseKeeps(d: Desk, e: Desk, i: nat, c: Auth, p: Posting, w: string, s: string)
    requires Sound(d) && i < |d.auths| && d.auths[i].status.Approved? && d.auths[i].hold.Some?
    requires var a := d.auths[i];
             && Closes(a, c) && e == d.(books := e.books, auths := d.auths[i := c])
             && p == Posting(Hold(a.hold.value), if c.status.Cleared? then TransitCardAuth else Main(a.wallet), a.amount, FormatAsset(a.currency))
             && Shifted(d.books.balances, e.books.balances, p.source, p.destination, p.amount, p.asset)
             && e.books.log == d.books.log + [[p]] && e.books.holds == d.books.holds
             && Funded(e.books, a.hold.value, MetaOf(a), a.amount, 0)
    ensures Kept(d, e, w, s, 0)
  {
    var a := d.auths[i];
    assert Sound(e) by {
      OthersUntouched(d, e.books, i, p);
      assert HoldsDistinct(d.auths);
      assert forall j :: 0 <= j < |d.auths| ==> e.auths[j].hold == d.auths[j].hold;
    }
    CloseBalances(d, e, i, c, w, s);
  }

  lemma CloseBalances(d: Desk, e: Desk, i: nat, c: Auth, w: string, s: string)
    requires i < |d.auths| && d.auths[i].status.Approved? && d.auths[i].hold.Some? && Closes(d.auths[i], c)
    requires var a := d.auths[i];
             && e.auths == d.auths[i := c]
             && Shifted(d.books.balances, e.books.balances, Hold(a.hold.value),
                        if c.status.Cleared? then TransitCardAuth else Main(a.wallet), a.amount, FormatAsset(a.currency))
    ensures Gross(e, w, s) == Gross(d, w, s) && Unexplained(e, s) == Unexplained(d, s)
  {
    SumIfUpdate(d.auths, i, c, SpentBy(w, s));
    SumIfUpdate(d.auths, i, c, ClearedIn(s));
  }

  lemma ClearKeeps(d: Desk, rrn: string, n: int, read: bool, how: Delivery, w: string, s: string)
    requires Sound(d) && !how.Lost?
    ensures Kept(d, AfterClear(d, rrn, n, read, how).desk, w, s, 0)
  {
    var i := ByRrn(d.auths, rrn);
    if i.Some? && d.auths[i.value].status.Approved? && d.auths[i.value].hold.Some? {
      var a := d.auths[i.value];
      SettleOnce(d.books, a.hold.value, MetaOf(a), a.amount, a.amount, read, how);
      if AfterClear(d, rrn, n, read, how).ok {
        CloseKeeps(d, AfterClear(d, rrn, n, read, how).desk, i.value, a.(status := Cleared, settlement := Some(n)),
                   Posting(Hold(a.hold.value), TransitCardAuth, a.amount, FormatAsset(a.currency)), w, s);
      }
    }
  }

  lemma ReverseKeeps(d: Desk, rrn: string, list: bool, read: bool, how: Delivery, w: string, s: string)
    requires Sound(d) && !how.Lost?
    ensures Kept(d, AfterReverse(d, rrn, list, read, how).desk, w, s, 0)
  {
    var i := ByRrn(d.auths, rrn);
    if i.Some? && d.auths[i.value].status.Approved? && d.auths[i.value].hold.Some? {
      var a := d.auths[i.value];
      VoidOnce(d.books, a.hold.value, MetaOf(a), a.amount, a.amount, list, read, how);
      if AfterReverse(d, rrn, list, read, how).ok {
        CloseKeeps(d, AfterReverse(d, rrn, list, read, how).desk, i.value, a.(status := Reversed),
                   Posting(Hold(a.hold.value), Main(a.wallet), a.amount, FormatAsset(a.currency)), w, s);
      }
    }
  }

  lemma TopUpKeeps(d: Desk, step: Step, w: string, s: string)
    requires Sound(d) && step.TopUp?
    ensures Kept(d, AfterStep(d, step), w, s, ToppedUp(step, w, s))
  {
    var p := Posting(World, Main(step.wallet), step.amount, step.asset);
    SubmitOne(d.books, p, step.d);
    if Lands(d.books, [p], step.d) {
      var e := AfterStep(d, step);
      forall i | 0 <= i < |d.auths| ensures RowSound(e.books, d.auths[i]) {
        RowsUntouched(d.books, e.books, p, d.auths[i]);
      }
    }
  }

  /** A decision either appends a decline and leaves the ledger alone, or opens one hold. */
  lemma DecideKeeps(d: Desk, q: Request, env: Env, w: string, s: string)
    requires Sound(d) && Unused(d.books, env.holdID) && !env.delivery.Lost?
    ensures Kept(d, AfterDecide(d, q, env).desk, w, s, 0)
  {
    var first := CardGate(d, q, env);
    if first.Some? {
      DeclineKeeps(d, q, env, first.value, None, w, s);
    } else {
      var merchant := MerchantCurrency(q.currencyCode);
      var second := AbroadGate(d, q, env);
      var h := d.users[d.cards[q.pan].owner];
      var pick := Chosen(d.books.balances, h, Order(h), merchant, q.amount, env);
      if second.Some? {
        DeclineKeeps(d, q, env, second.value, Some(merchant), w, s);
      } else if pick.None? {
        DeclineKeeps(d, q, env, INSUFFICIENT_FUNDS, Some(merchant), w, s);
      } else {
        var asset := FormatAsset(pick.value.currency);
        HoldOpens(d.books, h.wallet, TransitCardAuth, pick.value.cents, asset, env.holdID, env.delivery);
        if AfterHold(d.books, h.wallet, TransitCardAuth, pick.value.cents, asset, env.holdID, env.delivery).ok {
          ApproveKeeps(d, Approval(q, env, h.wallet, pick.value), AfterDecide(d, q, env).desk, w, s);
        } else {
          DeclineKeeps(d, q, env, INSUFFICIENT_FUNDS, Some(merchant), w, s);
        }
      }
    }
  }

  lemma StepKeeps(d: Desk, step: Step, w: string, s: string)
    requires Sound(d) && Legal(d, step)
    ensures Kept(d, AfterStep(d, step), w, s, ToppedUp(step, w, s))
  {
    match step
    case Decide(q, env) => DecideKeeps(d, q, env, w, s);
    case Clear(rrn, n, read, how) => ClearKeeps(d, rrn, n, read, how, w, s);
    case Reverse(rrn, list, read, how) => ReverseKeeps(d, rrn, list, read, how, w, s);
    case TopUp(_, _, _, _) => TopUpKeeps(d, step, w, s);
    case SetLimits(_, _, _) =>
  }

  // ---------------------------------------------------------------- every run

  function TopUps(steps: seq<Step>, wallet: string, asset: string): int {
    if steps == [] then 0 else TopUps(steps[..|steps| - 1], wallet, asset) + ToppedUp(steps[|steps| - 1], wallet, asset)
  }

  /** Hold lifecycle over every run: each approved row's hold contains exactly its amount, closed rows'
      holds are empty, a row once cleared or reversed stays so, each wallet is down by exactly its
      approved plus cleared amounts (net of top-ups), and card transit is up by the cleared ones. */
  lemma {:induction false} EveryRun(d: Desk, steps: seq<Step>, w: string, s: string)
    requires Sound(d) && LegalRun(d, steps)
    ensures var e := AfterRun(d, steps);
            && Sound(e)
            && Gross(e, w, s) == Gross(d, w, s) + TopUps(steps, w, s)
            && Unexplained(e, s) == Unexplained(d, s)
  {
    if steps != [] {
      var n := |steps| - 1;
      EveryRun(d, steps[..n], w, s);
      StepKeeps(AfterRun(d, steps[..n]), steps[n], w, s);
    }
  }

  /** No authorization is both cleared and reversed: from the moment a row is closed it never changes. */
  lemma {:induction false} ClosedForGood(d: Desk, steps: seq<Step>, i: nat)
    requires Sound(d) && LegalRun(d, steps) && i < |d.auths|
    ensures var e := AfterRun(d, steps);
            i < |e.auths| && (!d.auths[i].status.Approved? ==> e.auths[i] == d.auths[i])
  {
    if steps != [] {
      var n := |steps| - 1;
      ClosedForGood(d, steps[..n], i);
      EveryRun(d, steps[..n], "", "");
      StepKeeps(AfterRun(d, steps[..n]), steps[n], "", "");
    }
  }
}

/** What a card decision answers and why, and what its clearing or reversal does, read off the card, the
    holder and the request alone. */
module CardOutcomes {
  import opened Common
  import opened Chart
  import opened Ledger
  import opened CardAuth
  import opened CardRuns

  // ---------------------------------------------------------------- who may spend

  /** Manual and stored-credential entry need online payments, the two contactless entry modes contactless
      ones, and withdrawals (processing code 01) the ATM switch. */
  predicate ChannelOpen(card: Card, q: Request) {
    && (q.entryMode in {"010", "810"} ==> card.online)
    && (q.entryMode in {"071", "910"} ==> card.contactless)
    && (|q.processingCode| >= 2 && q.processingCode[0] == '0' && q.processingCode[1] == '1' ==> card.atm)
  }

  /** Per transaction, and over the day and the month so far where those sums can be read. */
  predicate WithinLimits(d: Desk, q: Request, env: Env)
    requires q.pan in d.cards
  {
    var card := d.cards[q.pan];
    && q.amount <= card.perTxn
    && (env.dailyQuery ==> SumIf(d.auths, Today(q.pan, env.day)) + q.amount <= card.daily)
    && (env.monthlyQuery ==> SumIf(d.auths, ThisMonth(q.pan, env.month)) + q.amount <= card.monthly)
  }

  predicate HolderGood(d: Desk, q: Request)
    requires q.pan in d.cards
  {
    d.cards[q.pan].owner in d.users && !d.users[d.cards[q.pan].owner].frozen
  }

  /** Data element 49 names dollars or euros; everything else is birr. */
  function Merchant(q: Request): string { if q.currencyCode == "840" then "USD" else if q.currencyCode == "978" then "EUR" else "ETB" }

  predicate Foreign(q: Request) { q.currencyCode == "840" || q.currencyCode == "978" }

  /** Under regulation a foreign purchase needs the national and the card's own switch. */
  predicate AbroadOpen(d: Desk, q: Request, env: Env)
    requires q.pan in d.cards
  {
    Foreign(q) && env.regulated ==> env.abroad && d.cards[q.pan].international
  }

  /** The cap is held against foreign purchases under regulation when it is set. */
  predicate Capped(q: Request, env: Env) { Foreign(q) && env.regulated && env.cap.Some? && env.cap.value > 0 }

  /** Dollars as they are, euros at the middle rate. */
  function Dollars(q: Request, env: Env): Option<int> {
    if q.currencyCode == "840" then Some(q.amount)
    else if ("EUR", "USD") in env.rates then Some(Round(AtRate(q.amount, env.rates[("EUR", "USD")].mid)))
    else None
  }

  predicate WithinCap(d: Desk, q: Request, env: Env)
    requires q.pan in d.cards
  {
    Capped(q, env) ==>
      && Dollars(q, env).Some?
      && (if env.abroadQuery then SumIf(d.auths, Abroad(d.cards, d.cards[q.pan].owner, env.month)) else 0) + Dollars(q, env).value
         <= env.cap.value
  }

  /** Everything that is asked of card, holder and request before the money is looked for. */
  predicate Admissible(d: Desk, q: Request, env: Env) {
    && q.pan in d.cards && d.cards[q.pan].status.ActiveCard? && ChannelOpen(d.cards[q.pan], q)
    && WithinLimits(d, q, env) && HolderGood(d, q) && AbroadOpen(d, q, env) && WithinCap(d, q, env)
  }

  lemma Codes()
    ensures APPROVED != DO_NOT_HONOR && APPROVED != INSUFFICIENT_FUNDS && APPROVED != EXPIRED_CARD
    ensures APPROVED != EXCEEDS_LIMIT && APPROVED != CARD_FROZEN && APPROVED != SYSTEM_ERROR
    ensures INSUFFICIENT_FUNDS != DO_NOT_HONOR && INSUFFICIENT_FUNDS != EXPIRED_CARD && INSUFFICIENT_FUNDS != EXCEEDS_LIMIT
    ensures INSUFFICIENT_FUNDS != CARD_FROZEN && INSUFFICIENT_FUNDS != SYSTEM_ERROR
  {
    assert forall s :: s in {DO_NOT_HONOR, INSUFFICIENT_FUNDS, EXPIRED_CARD, EXCEEDS_LIMIT, CARD_FROZEN, SYSTEM_ERROR} ==>
      s[0] != '0' || s[1] != '0';
    assert INSUFFICIENT_FUNDS[0] == '5' && INSUFFICIENT_FUNDS[1] == '1';
    assert forall s :: s in {DO_NOT_HONOR, EXPIRED_CARD, EXCEEDS_LIMIT, CARD_FROZEN, SYSTEM_ERROR} ==> s[0] != '5' || s[1] != '1';
  }

  lemma WithdrawalCode(q: Request)
    ensures |q.processingCode| >= 2 ==>
              (q.processingCode[..2] == "01" <==> q.processingCode[0] == '0' && q.processingCode[1] == '1')
  {
    if |q.processingCode| >= 2 {
      assert q.processingCode[..2] == [q.processingCode[0], q.processingCode[1]];
    }
  }

  lemma MerchantMeans(q: Request)
    ensures MerchantCurrency(q.currencyCode) == "USD" <==> q.currencyCode == "840"
    ensures MerchantCurrency(q.currencyCode) == "EUR" <==> q.currencyCode == "978"
    ensures MerchantCurrency(q.currencyCode) == "ETB" <==> !Foreign(q)
  {
    assert "USD"[0] != "EUR"[0] && "USD"[0] != "ETB"[0] && "EUR"[1] != "ETB"[1];
  }

  /** The two gates of the decision pass exactly the admissible requests. */
  lemma GatesAdmit(d: Desk, q: Request, env: Env)
    ensures CardGate(d, q, env).None? && AbroadGate(d, q, env).None? <==> Admissible(d, q, env)
  {
    WithdrawalCode(q);
    MerchantMeans(q);
  }

  /** The request is turned away with this code: nothing is held, and a declined row of the amount asked for, in
      birr, says so. The row names the merchant's currency once the card itself has been accepted. */
  predicate TurnedAway(d: Desk, q: Request, env: Env, code: string, merchant: Option<string>) {
    var e := AfterDecide(d, q, env);
    && e.code == code && e.desk.books == d.books && e.desk.cards == d.cards && e.desk.users == d.users
    && |e.desk.auths| == |d.auths| + 1 && e.desk.auths[..|d.auths|] == d.auths
    && var a := e.desk.auths[|d.auths|];
    && a.status.Declined? && a.code == code && a.hold.None? && a.settlement.None?
    && a.rrn == q.rrn && a.card == q.pan && a.amount == q.amount && a.currency == "ETB" && a.merchantCurrency == merchant
    && a.day == env.day && a.month == env.month
  }

  /** Why a card is turned away: 05 for an unknown one, with no row; 62 for a frozen one; 54 for an expired or
      cancelled one; 05 for any other that is not active, and for a channel that is switched off. */
  lemma CardRefused(d: Desk, q: Request, env: Env)
    ensures q.pan !in d.cards ==> AfterDecide(d, q, env) == Decision(d, "05")
    ensures q.pan in d.cards && d.cards[q.pan].status.FrozenCard? ==> TurnedAway(d, q, env, "62", None)
    ensures q.pan in d.cards && (d.cards[q.pan].status.ExpiredCard? || d.cards[q.pan].status.CancelledCard?) ==> TurnedAway(d, q, env, "54", None)
    ensures q.pan in d.cards && d.cards[q.pan].status.PendingCard? ==> TurnedAway(d, q, env, "05", None)
    ensures q.pan in d.cards && d.cards[q.pan].status.ActiveCard? && !ChannelOpen(d.cards[q.pan], q) ==> TurnedAway(d, q, env, "05", None)
  {
    WithdrawalCode(q);
  }

  /** Why an active card with its channel open is turned away: 61 above a limit, 05 for an unknown or frozen
      holder. */
  lemma SpendingRefused(d: Desk, q: Request, env: Env)
    requires q.pan in d.cards && d.cards[q.pan].status.ActiveCard? && ChannelOpen(d.cards[q.pan], q)
    ensures !WithinLimits(d, q, env) ==> TurnedAway(d, q, env, "61", None)
    ensures WithinLimits(d, q, env) && !HolderGood(d, q) ==> TurnedAway(d, q, env, "05", None)
  {
    WithdrawalCode(q);
  }

  /** Why a purchase is turned away after that: 05 where spending abroad is off, 96 for euros without a rate, 61
      above the cap. */
  lemma AbroadRefused(d: Desk, q: Request, env: Env)
    requires q.pan in d.cards && d.cards[q.pan].status.ActiveCard? && ChannelOpen(d.cards[q.pan], q)
    requires WithinLimits(d, q, env) && HolderGood(d, q)
    ensures !AbroadOpen(d, q, env) ==> TurnedAway(d, q, env, "05", Some(Merchant(q)))
    ensures AbroadOpen(d, q, env) && Capped(q, env) && Dollars(q, env).None? ==> TurnedAway(d, q, env, "96", Some(Merchant(q)))
    ensures AbroadOpen(d, q, env) && Dollars(q, env).Some? && !WithinCap(d, q, env) ==> TurnedAway(d, q, env, "61", Some(Merchant(q)))
  {
    WithdrawalCode(q);
    MerchantMeans(q);
  }

  /** Codes 00 and 51 are for admissible requests alone, and an admissible one gets no other. */
  lemma AdmittedMeans(d: Desk, q: Request, env: Env)
    ensures AfterDecide(d, q, env).code == "00" || AfterDecide(d, q, env).code == "51" <==> Admissible(d, q, env)
  {
    Codes();
    GatesAdmit(d, q, env);
  }

  /** Some entry of the holder's list, or of "the merchant's currency, then birr" where there is none, is
      active, readable and funded: in the merchant's currency with the amount itself, in another, where
      conversion is permitted and a rate known, with the amount at the ask rate. */
  predicate Affordable(d: Desk, q: Request, env: Env)
    requires q.pan in d.cards && HolderGood(d, q)
  {
    var h := d.users[d.cards[q.pan].owner];
    exists i :: 0 <= i < |Entries(h)| && Usable(d.books.balances, h, Entries(h)[i], Merchant(q), q.amount, env)
  }

  function Entries(h: Holder): seq<string> { if h.waterfall == [] then ["merchant_currency", "ETB"] else h.waterfall }
  lemma AffordableIsPayable(d: Desk, q: Request, env: Env)
    requires q.pan in d.cards && HolderGood(d, q) && CardGate(d, q, env).None?
    ensures Affordable(d, q, env) <==> Payable(d, q, env)
  {
    var h := d.users[d.cards[q.pan].owner];
    assert Order(h) == Entries(h);
  }

  /** Who is approved: with a fresh hold, an acknowledged posting and sane rates, exactly an admissible request
      that is affordable gets 00, and exactly an admissible one that is not gets 51. */
  lemma ApprovedExactly(d: Desk, q: Request, env: Env)
    requires Unused(d.books, env.holdID) && env.delivery.Acked?
    requires q.amount >= 0 && forall k :: k in env.rates ==> env.rates[k].ask >= 0.0
    ensures AfterDecide(d, q, env).code == "00" <==> Admissible(d, q, env) && Affordable(d, q, env)
    ensures AfterDecide(d, q, env).code == "51" <==> Admissible(d, q, env) && !Affordable(d, q, env)
  {
    GatesAdmit(d, q, env);
    DecisionExactly(d, q, env);
    if Admissible(d, q, env) { AffordableIsPayable(d, q, env); }
  }

  // ---------------------------------------------------------------- what is held

  /** An approval holds the row's amount out of the holder's wallet and appends the row; nothing else changes. */
  lemma ApprovalHolds(d: Desk, q: Request, env: Env)
    requires Unused(d.books, env.holdID) && AfterDecide(d, q, env).code == "00"
    ensures Admissible(d, q, env)
    ensures var e := AfterDecide(d, q, env).desk;
            && e.cards == d.cards && e.users == d.users
            && |e.auths| == |d.auths| + 1 && e.auths[..|d.auths|] == d.auths
            && var a := e.auths[|d.auths|];
            && a.status.Approved? && a.code == "00" && a.rrn == q.rrn && a.card == q.pan && a.hold == Some(env.holdID)
            && a.wallet == d.users[d.cards[q.pan].owner].wallet && a.currency in d.users[d.cards[q.pan].owner].currencies
            && a.day == env.day && a.month == env.month && a.settlement.None? && a.amount >= 0
            && a.merchantCurrency == Some(Merchant(q))
            && Shifted(d.books.balances, e.books.balances, Main(a.wallet), Hold(env.holdID), a.amount, FormatAsset(a.currency))
  {
    Codes();
    AdmittedMeans(d, q, env);
    GatesAdmit(d, q, env);
    var h, merchant := d.users[d.cards[q.pan].owner], MerchantCurrency(q.currencyCode);
    var pick := Chosen(d.books.balances, h, Order(h), merchant, q.amount, env);
    WaterfallRefines(d.books.balances, h, Order(h), merchant, q.amount, env);
    HoldOpens(d.books, h.wallet, TransitCardAuth, pick.value.cents, FormatAsset(pick.value.currency), env.holdID, env.delivery);
  }

  /** A request answered 51 holds nothing, unless the hold was posted and its acknowledgement lost. */
  lemma ShortOfFunds(d: Desk, q: Request, env: Env)
    requires AfterDecide(d, q, env).code == "51" && Unused(d.books, env.holdID) && !env.delivery.Lost?
    ensures TurnedAway(d, q, env, "51", Some(Merchant(q)))
  {
    Codes();
    AdmittedMeans(d, q, env);
    GatesAdmit(d, q, env);
    var h := d.users[d.cards[q.pan].owner];
    var pick := Chosen(d.books.balances, h, Order(h), MerchantCurrency(q.currencyCode), q.amount, env);
    if pick.Some? {
      HoldOpens(d.books, h.wallet, TransitCardAuth, pick.value.cents, FormatAsset(pick.value.currency), env.holdID, env.delivery);
    }
  }

  lemma FirstChoice(b: Balances, h: Holder, merchant: string, amount: int, env: Env)
    requires h.waterfall == [] && merchant in h.currencies && merchant !in env.unreadable
    requires Bal(b, Main(h.wallet), FormatAsset(merchant)) >= amount
    ensures Chosen(b, h, Order(h), merchant, amount, env) == Some(Pick(merchant, amount))
  {}

  /** A holder without a list of their own pays in the merchant's currency where it is active, readable and
      funded. */
  lemma DefaultPays(d: Desk, q: Request, env: Env)
    requires Admissible(d, q, env) && Unused(d.books, env.holdID) && env.delivery.Acked? && q.amount >= 0
    requires d.users[d.cards[q.pan].owner].waterfall == []
    requires Merchant(q) in d.users[d.cards[q.pan].owner].currencies && Merchant(q) !in env.unreadable
    requires Bal(d.books.balances, Main(d.users[d.cards[q.pan].owner].wallet), FormatAsset(Merchant(q))) >= q.amount
    ensures var e := AfterDecide(d, q, env);
            && e.code == "00"
            && Shifted(d.books.balances, e.desk.books.balances, Main(d.users[d.cards[q.pan].owner].wallet), Hold(env.holdID), q.amount,
                       FormatAsset(Merchant(q)))
  {
    GatesAdmit(d, q, env);
    var h := d.users[d.cards[q.pan].owner];
    FirstChoice(d.books.balances, h, Merchant(q), q.amount, env);
    HoldOpens(d.books, h.wallet, TransitCardAuth, q.amount, FormatAsset(Merchant(q)), env.holdID, Acked);
  }

  // ---------------------------------------------------------------- closing

  /** Row i is the first with the given retrieval reference number. */
  predicate FirstRow(auths: seq<Auth>, rrn: string, i: int) {
    0 <= i < |auths| && auths[i].rrn == rrn && forall j :: 0 <= j < i ==> auths[j].rrn != rrn
  }

  lemma {:induction false} ByRrnIsFirst(auths: seq<Auth>, rrn: string)
    ensures match ByRrn(auths, rrn)
            case None => forall j :: 0 <= j < |auths| ==> auths[j].rrn != rrn
            case Some(i) => FirstRow(auths, rrn, i)
    decreases |auths|
  {
    if auths != [] && auths[0].rrn != rrn {
      ByRrnIsFirst(auths[1..], rrn);
      assert forall j :: 0 < j < |auths| ==> auths[j] == auths[1..][j - 1];
    }
  }

  lemma FirstRowIs(auths: seq<Auth>, rrn: string, i: int)
    requires FirstRow(auths, rrn, i)
    ensures ByRrn(auths, rrn) == Some(i)
  {
    ByRrnIsFirst(auths, rrn);
  }

  /** A clearing goes through exactly when the first row of that number is approved, its hold can be read and
      holds something, and the posting is acknowledged. Then the whole hold goes to card transit, the row is
      cleared with the settlement amount written down, and nothing else changes. In every other case no row
      changes, and the books only by a posting whose acknowledgement is lost. */
  lemma ClearingExactly(d: Desk, rrn: string, i: nat, settlement: int, read: bool, delivery: Delivery)
    requires Sound(d) && FirstRow(d.auths, rrn, i)
    ensures var a, c := d.auths[i], AfterClear(d, rrn, settlement, read, delivery);
            var moved := a.status.Approved? && a.amount > 0 && read && !delivery.Dropped?;
            && (c.ok <==> moved && delivery.Acked?)
            && c.desk.cards == d.cards && c.desk.users == d.users
            && c.desk.auths == (if c.ok then d.auths[i := a.(status := Cleared, settlement := Some(settlement))] else d.auths)
            && (!moved ==> c.desk.books == d.books)
            && (moved ==> Shifted(d.books.balances, c.desk.books.balances, Hold(a.hold.value), TransitCardAuth, a.amount, FormatAsset(a.currency)))
  {
    FirstRowIs(d.auths, rrn, i);
    var a := d.auths[i];
    assert RowSound(d.books, a);
    if a.status.Approved? {
      SettleOnce(d.books, a.hold.value, MetaOf(a), a.amount, a.amount, read, delivery);
    }
  }

  /** A reversal goes through exactly when the first row of that number is approved, the transactions into its
      hold can be listed, the hold can be read and holds something, and the posting is acknowledged. Then the
      whole hold goes back into the wallet it came from, the row is reversed, and nothing else changes. */
  lemma ReversalExactly(d: Desk, rrn: string, i: nat, list: bool, read: bool, delivery: Delivery)
    requires Sound(d) && FirstRow(d.auths, rrn, i)
    ensures var a, c := d.auths[i], AfterReverse(d, rrn, list, read, delivery);
            var moved := a.status.Approved? && a.amount > 0 && list && read && !delivery.Dropped?;
            && (c.ok <==> moved && delivery.Acked?)
            && c.desk.cards == d.cards && c.desk.users == d.users
            && c.desk.auths == (if c.ok then d.auths[i := a.(status := Reversed)] else d.auths)
            && (!moved ==> c.desk.books == d.books)
            && (moved ==> Shifted(d.books.balances, c.desk.books.balances, Hold(a.hold.value), Main(a.wallet), a.amount, FormatAsset(a.currency)))
  {
    FirstRowIs(d.auths, rrn, i);
    var a := d.auths[i];
    assert RowSound(d.books, a);
    if a.status.Approved? {
      VoidOnce(d.books, a.hold.value, MetaOf(a), a.amount, a.amount, list, read, delivery);
    }
  }

  /** A number that no row has closes nothing. */
  lemma UnknownNumber(d: Desk, rrn: string, settlement: int, list: bool, read: bool, delivery: Delivery)
    requires forall j :: 0 <= j < |d.auths| ==> d.auths[j].rrn != rrn
    ensures AfterClear(d, rrn, settlement, read, delivery) == Closing(d, false)
    ensures AfterReverse(d, rrn, list, read, delivery) == Closing(d, false)
  {
    ByRrnIsFirst(d.auths, rrn);
  }

  // ---------------------------------------------------------------- what counts against the limits

  /** Appending a row adds what it counts. */
  lemma AppendCounts(auths: seq<Auth>, a: Auth, cards: map<string, Card>, card: string, user: string, day: int, month: int)
    ensures var n, after := if Counts(a) then a.amount else 0, auths + [a];
            && SumIf(after, Today(card, day)) == SumIf(auths, Today(card, day)) + (if a.card == card && a.day == day then n else 0)
            && SumIf(after, ThisMonth(card, month)) == SumIf(auths, ThisMonth(card, month)) + (if a.card == card && a.month == month then n else 0)
            && SumIf(after, Abroad(cards, user, month)) == SumIf(auths, Abroad(cards, user, month))
                 + (if a.card in cards && cards[a.card].owner == user && a.month == month
                       && a.merchantCurrency.Some? && a.merchantCurrency.value != "ETB" then n else 0)
  {
    SumIfAppend(auths, a, Today(card, day));
    SumIfAppend(auths, a, ThisMonth(card, month));
    SumIfAppend(auths, a, Abroad(cards, user, month));
  }

  lemma DeclineAppends(d: Desk, q: Request, env: Env)
    requires AfterDecide(d, q, env).code != "00"
    ensures var e := AfterDecide(d, q, env).desk.auths;
            e == d.auths || (|e| == |d.auths| + 1 && e == d.auths + [e[|d.auths|]] && e[|d.auths|].status.Declined?)
  {}

  /** An approval counts in full, on its own card, day and month and, where it is foreign, for its holder
      abroad; a request that is turned away counts nowhere. */
  lemma ApprovalCounts(d: Desk, q: Request, env: Env, card: string, user: string, day: int, month: int)
    requires Unused(d.books, env.holdID)
    ensures var e := AfterDecide(d, q, env);
            if e.code == "00" then
              var n := e.desk.auths[|d.auths|].amount;
              && SumIf(e.desk.auths, Today(card, day)) == SumIf(d.auths, Today(card, day)) + (if card == q.pan && day == env.day then n else 0)
              && SumIf(e.desk.auths, ThisMonth(card, month)) == SumIf(d.auths, ThisMonth(card, month)) + (if card == q.pan && month == env.month then n else 0)
              && SumIf(e.desk.auths, Abroad(d.cards, user, month)) == SumIf(d.auths, Abroad(d.cards, user, month))
                   + (if d.cards[q.pan].owner == user && month == env.month && Foreign(q) then n else 0)
            else
              && SumIf(e.desk.auths, Today(card, day)) == SumIf(d.auths, Today(card, day))
              && SumIf(e.desk.auths, ThisMonth(card, month)) == SumIf(d.auths, ThisMonth(card, month))
              && SumIf(e.desk.auths, Abroad(d.cards, user, month)) == SumIf(d.auths, Abroad(d.cards, user, month))
  {
    var e := AfterDecide(d, q, env).desk.auths;
    if AfterDecide(d, q, env).code == "00" {
      ApprovalHolds(d, q, env);
      MerchantMeans(q);
      AppendCounts(d.auths, e[|d.auths|], d.cards, card, user, day, month);
      assert e == d.auths + [e[|d.auths|]];
    } else {
      DeclineAppends(d, q, env);
      if e != d.auths {
        AppendCounts(d.auths, e[|d.auths|], d.cards, card, user, day, month);
      }
    }
  }

  /** A clearing leaves every sum where it is. */
  lemma ClearingCountsOn(d: Desk, rrn: string, i: nat, settlement: int, read: bool, delivery: Delivery, card: string, day: int, month: int)
    requires Sound(d) && FirstRow(d.auths, rrn, i)
    ensures var c := AfterClear(d, rrn, settlement, read, delivery).desk;
            && SumIf(c.auths, Today(card, day)) == SumIf(d.auths, Today(card, day))
            && SumIf(c.auths, ThisMonth(card, month)) == SumIf(d.auths, ThisMonth(card, month))
  {
    ClearingExactly(d, rrn, i, settlement, read, delivery);
    var cleared := d.auths[i].(status := Cleared, settlement := Some(settlement));
    SumIfUpdate(d.auths, i, cleared, Today(card, day));
    SumIfUpdate(d.auths, i, cleared, ThisMonth(card, month));
  }

  /** A reversal takes the row's amount out of the sums it was in. */
  lemma ReversalCountsOut(d: Desk, rrn: string, i: nat, list: bool, read: bool, delivery: Delivery, card: string, day: int, month: int)
    requires Sound(d) && FirstRow(d.auths, rrn, i)
    ensures var a, c := d.auths[i], AfterReverse(d, rrn, list, read, delivery);
            var n := if c.ok then a.amount else 0;
            && SumIf(c.desk.auths, Today(card, day)) == SumIf(d.auths, Today(card, day)) - (if a.card == card && a.day == day then n else 0)
            && SumIf(c.desk.auths, ThisMonth(card, month)) == SumIf(d.auths, ThisMonth(card, month)) - (if a.card == card && a.month == month then n else 0)
  {
    ReversalExactly(d, rrn, i, list, read, delivery);
    var reversed := d.auths[i].(status := Reversed);
    SumIfUpdate(d.auths, i, reversed, Today(card, day));
    SumIfUpdate(d.auths, i, reversed, ThisMonth(card, month));
  }

  // ---------------------------------------------------------------- the whole life of one purchase

  /** The desk after an approval, with the new row found under its number. */
  lemma ApprovedRow(d: Desk, q: Request, env: Env)
    requires Sound(d) && Unused(d.books, env.holdID) && AfterDecide(d, q, env).code == "00"
    requires forall j :: 0 <= j < |d.auths| ==> d.auths[j].rrn != q.rrn
    ensures var e := AfterDecide(d, q, env).desk;
            Sound(e) && FirstRow(e.auths, q.rrn, |d.auths|) && e.auths == d.auths + [e.auths[|d.auths|]]
  {
    ApprovalHolds(d, q, env);
    if env.delivery.Lost? { LostIsDeclined(d, q, env); }
    DecideKeeps(d, q, env, "", "");
    var e := AfterDecide(d, q, env).desk;
    assert forall j :: 0 <= j < |d.auths| ==> e.auths[j] == e.auths[..|d.auths|][j];
  }

  lemma LostIsDeclined(d: Desk, q: Request, env: Env)
    requires Unused(d.books, env.holdID) && env.delivery.Lost?
    ensures AfterDecide(d, q, env).code != "00"
  {
    Codes();
    GateCodes(d, q, env);
    if CardGate(d, q, env).None? && AbroadGate(d, q, env).None? {
      var h := d.users[d.cards[q.pan].owner];
      var pick := Chosen(d.books.balances, h, Order(h), MerchantCurrency(q.currencyCode), q.amount, env);
      if pick.Some? {
        HoldOpens(d.books, h.wallet, TransitCardAuth, pick.value.cents, FormatAsset(pick.value.currency), env.holdID, env.delivery);
      }
    }
  }

  /** Row i is the first of its number, approved, and its amount was held out of balances b. */
  ghost predicate HeldFrom(b: Balances, e: Desk, rrn: string, i: int) {
    && Sound(e) && FirstRow(e.auths, rrn, i) && e.auths[i].status.Approved? && e.auths[i].hold.Some?
    && var a := e.auths[i];
       Shifted(b, e.books.balances, Main(a.wallet), Hold(a.hold.value), a.amount, FormatAsset(a.currency))
  }

  lemma HeldThenCleared(b: Balances, e: Desk, rrn: string, i: nat, settlement: int)
    requires HeldFrom(b, e, rrn, i)
    ensures var a, c := e.auths[i], AfterClear(e, rrn, settlement, true, Acked);
            && (c.ok <==> a.amount > 0)
            && (c.ok ==> Shifted(b, c.desk.books.balances, Main(a.wallet), TransitCardAuth, a.amount, FormatAsset(a.currency)))
  {
    var a := e.auths[i];
    ClearingExactly(e, rrn, i, settlement, true, Acked);
    if a.amount > 0 {
      ShiftOn(b, e.books.balances, AfterClear(e, rrn, settlement, true, Acked).desk.books.balances,
              Main(a.wallet), Hold(a.hold.value), TransitCardAuth, a.amount, FormatAsset(a.currency));
    }
  }

  lemma HeldThenReversed(b: Balances, e: Desk, rrn: string, i: nat)
    requires HeldFrom(b, e, rrn, i)
    ensures var c := AfterReverse(e, rrn, true, true, Acked);
            (c.ok <==> e.auths[i].amount > 0) && SameBalances(b, c.desk.books.balances)
  {
    var a, c := e.auths[i], AfterReverse(e, rrn, true, true, Acked).desk.books.balances;
    ReversalExactly(e, rrn, i, true, true, Acked);
    assert RowSound(e.books, a);
    if a.amount > 0 {
      ShiftOn(b, e.books.balances, c, Main(a.wallet), Hold(a.hold.value), Main(a.wallet), a.amount, FormatAsset(a.currency));
      ShiftBack(b, c, Main(a.wallet), a.amount, FormatAsset(a.currency));
    }
  }

  /** An approval cleared under its number: what was held has gone from the wallet to card transit, and no other
      balance has changed. One of nothing cannot be cleared. */
  lemma ApproveThenClear(d: Desk, q: Request, env: Env, settlement: int)
    requires Sound(d) && Unused(d.books, env.holdID) && AfterDecide(d, q, env).code == "00"
    requires forall j :: 0 <= j < |d.auths| ==> d.auths[j].rrn != q.rrn
    ensures var e := AfterDecide(d, q, env).desk;
            |e.auths| > |d.auths|
            && var a, c := e.auths[|d.auths|], AfterClear(e, q.rrn, settlement, true, Acked);
            && (c.ok <==> a.amount > 0)
            && (c.ok ==> Shifted(d.books.balances, c.desk.books.balances, Main(a.wallet), TransitCardAuth, a.amount, FormatAsset(a.currency)))
  {
    ApprovalHolds(d, q, env);
    ApprovedRow(d, q, env);
    HeldThenCleared(d.books.balances, AfterDecide(d, q, env).desk, q.rrn, |d.auths|, settlement);
  }

  /** An approval reversed under its number leaves every balance as it was before. */
  lemma ApproveThenReverse(d: Desk, q: Request, env: Env)
    requires Sound(d) && Unused(d.books, env.holdID) && AfterDecide(d, q, env).code == "00"
    requires forall j :: 0 <= j < |d.auths| ==> d.auths[j].rrn != q.rrn
    ensures SameBalances(d.books.balances, AfterReverse(AfterDecide(d, q, env).desk, q.rrn, true, true, Acked).desk.books.balances)
  {
    ApprovalHolds(d, q, env);
    ApprovedRow(d, q, env);
    HeldThenReversed(d.books.balances, AfterDecide(d, q, env).desk, q.rrn, |d.auths|);
  }
}

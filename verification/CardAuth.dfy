/** Card authorization on the ledger: limit checks, spend waterfall, hold, and the clearing or
    reversal that consumes the hold (internal/services/card_auth/service.go). */
module CardAuth {
  import opened Common
  import opened Chart
  import opened Ledger

  const APPROVED := "00"
  const DO_NOT_HONOR := "05"
  const INSUFFICIENT_FUNDS := "51"
  const EXPIRED_CARD := "54"
  const EXCEEDS_LIMIT := "61"
  const CARD_FROZEN := "62"
  const SYSTEM_ERROR := "96"
  const BIRR := "ETB"
  const USD := "USD"

  datatype CardStatus = ActiveCard | FrozenCard | ExpiredCard | CancelledCard | PendingCard

  datatype Card = Card(
    status: CardStatus, online: bool, atm: bool, contactless: bool, international: bool,
    perTxn: int, daily: int, monthly: int, owner: string)

  /** `currencies` are the user's active balances. */
  datatype Holder = Holder(wallet: string, frozen: bool, waterfall: seq<string>, currencies: set<string>)

  datatype AuthStatus = Approved | Declined | Cleared | Reversed | PartiallyCleared | Expired

  /** A row of the authorizations table; `wallet` is what the row reaches through card and user, and
      `settlement` the amount the clearing file named. */
  datatype Auth = Auth(
    rrn: string, card: string, wallet: string, amount: int, currency: string, merchantCurrency: Option<string>,
    status: AuthStatus, code: string, hold: Option<string>, day: int, month: int, settlement: Option<int>)

  datatype Request = Request(rrn: string, pan: string, processingCode: string, entryMode: string, amount: int, currencyCode: string)

  datatype Rate = Rate(mid: real, ask: real)

  /** What the surroundings contribute to one decision: the calendar, whether the three sum queries answer,
      the regulatory settings, the rates, unreadable balances, and the fate of the hold posting. */
  datatype Env = Env(
    day: int, month: int, dailyQuery: bool, monthlyQuery: bool, abroadQuery: bool,
    regulated: bool, abroad: bool, cap: Option<int>, autoConvert: bool,
    rates: map<(string, string), Rate>, unreadable: set<string>, holdID: string, delivery: Delivery)

  datatype Desk = Desk(books: Books, auths: seq<Auth>, cards: map<string, Card>, users: map<string, Holder>)

  datatype Decision = Decision(desk: Desk, code: string)

  /** Numeric currency code of data element 49; unknown codes fall back to birr. */
  function MerchantCurrency(code: string): string {
    if code == "840" then USD else if code == "978" then "EUR" else BIRR
  }

  // ---------------------------------------------------------------- sums over the table

  function SumIf(auths: seq<Auth>, f: Auth -> bool): int {
    if auths == [] then 0
    else SumIf(auths[..|auths| - 1], f) + if f(auths[|auths| - 1]) then auths[|auths| - 1].amount else 0
  }

  predicate Counts(a: Auth) { a.status.Approved? || a.status.Cleared? || a.status.PartiallyCleared? }

  function Today(card: string, day: int): Auth -> bool { (a: Auth) => Counts(a) && a.card == card && a.day == day }

  function ThisMonth(card: string, month: int): Auth -> bool { (a: Auth) => Counts(a) && a.card == card && a.month == month }

  function Abroad(cards: map<string, Card>, user: string, month: int): Auth -> bool {
    (a: Auth) => Counts(a) && a.card in cards && cards[a.card].owner == user && a.month == month
                 && a.merchantCurrency.Some? && a.merchantCurrency.value != BIRR
  }

  lemma {:induction false} SumIfAppend(auths: seq<Auth>, a: Auth, f: Auth -> bool)
    ensures SumIf(auths + [a], f) == SumIf(auths, f) + if f(a) then a.amount else 0
  {
    assert (auths + [a])[..|auths|] == auths;
  }

  lemma {:induction false} SumIfUpdate(auths: seq<Auth>, i: nat, a: Auth, f: Auth -> bool)
    requires i < |auths|
    ensures SumIf(auths[i := a], f) == SumIf(auths, f)
              - (if f(auths[i]) then auths[i].amount else 0) + (if f(a) then a.amount else 0)
    decreases |auths|
  {
    var n := |auths| - 1;
    if i == n {
      assert auths[i := a][..n] == auths[..n];
    } else {
      assert auths[i := a][..n] == auths[..n][i := a];
      SumIfUpdate(auths[..n], i, a, f);
    }
  }

  // ---------------------------------------------------------------- spend waterfall

  /** Least integer not below x. */
  function Ceil(x: real): int { -((-x).Floor) }

  lemma CeilIsLeast(x: real, n: int)
    ensures x <= n as real <==> Ceil(x) <= n
  {}

  /** An amount of cents at a given rate. */
  function AtRate(cents: int, rate: real): real { cents as real * rate }

  function Candidate(entry: string, merchant: string): string { if entry == "merchant_currency" then merchant else entry }

  /** What holding the amount in one waterfall entry would cost there; None when the currency is not
      active, may not or cannot be converted, or is not readable or not sufficiently funded. */
  function Price(b: Balances, h: Holder, entry: string, merchant: string, amount: int, env: Env): Option<int> {
    var c := Candidate(entry, merchant);
    if c !in h.currencies || c in env.unreadable then None
    else
      var cents := if c == merchant then Some(amount)
                   else if merchant != BIRR && env.regulated && !env.autoConvert then None
                   else if (merchant, c) !in env.rates then None
                   else Some(Ceil(AtRate(amount, env.rates[(merchant, c)].ask)));
      if cents.Some? && Bal(b, Main(h.wallet), FormatAsset(c)) >= cents.value then cents else None
  }

  datatype Pick = Pick(currency: string, cents: int)

  const DEFAULT_WATERFALL := ["merchant_currency", BIRR]

  function Order(h: Holder): seq<string> { if h.waterfall == [] then DEFAULT_WATERFALL else h.waterfall }

  /** Specification of the loop: the earliest entry with a price. */
  function Chosen(b: Balances, h: Holder, order: seq<string>, merchant: string, amount: int, env: Env): Option<Pick> {
    if order == [] then None
    else
      var p := Price(b, h, order[0], merchant, amount, env);
      if p.Some? then Some(Pick(Candidate(order[0], merchant), p.value)) else Chosen(b, h, order[1..], merchant, amount, env)
  }

  /** The loop of decide, entry by entry, stopping at the first one that works. */
  method Waterfall(b: Balances, h: Holder, merchant: string, amount: int, env: Env) returns (pick: Option<Pick>)
    ensures pick == Chosen(b, h, Order(h), merchant, amount, env)
  {
    var order := h.waterfall;
    if |order| == 0 { order := DEFAULT_WATERFALL; }
    for i := 0 to |order|
      invariant Chosen(b, h, order, merchant, amount, env) == Chosen(b, h, order[i..], merchant, amount, env)
    {
      assert order[i..][0] == order[i] && order[i..][1..] == order[i + 1..];
      var c := order[i];
      if order[i] == "merchant_currency" { c := merchant; }
      if c !in h.currencies { continue; }
      var cents: int;
      if c == merchant {
        cents := amount;
      } else {
        if merchant != BIRR && env.regulated && !env.autoConvert { continue; }
        if (merchant, c) !in env.rates { continue; }
        cents := Ceil(AtRate(amount, env.rates[(merchant, c)].ask));
      }
      if c in env.unreadable || Bal(b, Main(h.wallet), FormatAsset(c)) < cents { continue; }
      assert c == Candidate(order[i], merchant);
      assert Price(b, h, order[i], merchant, amount, env) == Some(cents);
      return Some(Pick(c, cents));
    }
    pick := None;
  }

  /** An entry is usable when its currency is active and readable and the wallet holds enough of it:
      the request amount in the merchant's own currency, or, where conversion is permitted and a rate
      is known, at least amount times ask. */
  predicate Usable(b: Balances, h: Holder, entry: string, merchant: string, amount: int, env: Env) {
    var c := if entry == "merchant_currency" then merchant else entry;
    var funds := Bal(b, Main(h.wallet), FormatAsset(c));
    && c in h.currencies && c !in env.unreadable
    && (|| (c == merchant && amount <= funds)
        || (&& c != merchant && (merchant == BIRR || !env.regulated || env.autoConvert)
            && (merchant, c) in env.rates && AtRate(amount, env.rates[(merchant, c)].ask) <= funds as real))
  }

  lemma PriceMeans(b: Balances, h: Holder, entry: string, merchant: string, amount: int, env: Env)
    ensures Price(b, h, entry, merchant, amount, env).Some? <==> Usable(b, h, entry, merchant, amount, env)
  {
    var c := Candidate(entry, merchant);
    if (merchant, c) in env.rates {
      CeilIsLeast(AtRate(amount, env.rates[(merchant, c)].ask), Bal(b, Main(h.wallet), FormatAsset(c)));
    }
  }

  /** The waterfall refines its specification: it picks the earliest usable entry, and nothing exactly
      when no entry is usable. What it holds is the request amount in the merchant's currency, or the
      least integer not below amount times ask, and never more than the wallet has in that currency. */
  lemma {:induction false} WaterfallRefines(b: Balances, h: Holder, order: seq<string>, merchant: string, amount: int, env: Env)
    ensures match Chosen(b, h, order, merchant, amount, env)
            case None => forall i :: 0 <= i < |order| ==> !Usable(b, h, order[i], merchant, amount, env)
            case Some(p) =>
              && (exists i :: 0 <= i < |order| && Usable(b, h, order[i], merchant, amount, env)
                              && p.currency == Candidate(order[i], merchant)
                              && forall j :: 0 <= j < i ==> !Usable(b, h, order[j], merchant, amount, env))
              && p.cents <= Bal(b, Main(h.wallet), FormatAsset(p.currency))
              && if p.currency == merchant then p.cents == amount
                 else (merchant, p.currency) in env.rates
                      && var exact := AtRate(amount, env.rates[(merchant, p.currency)].ask);
                      exact <= p.cents as real < exact + 1.0
    decreases |order|
  {
    if order != [] {
      PriceMeans(b, h, order[0], merchant, amount, env);
      if !Usable(b, h, order[0], merchant, amount, env) {
        var rest := order[1..];
        WaterfallRefines(b, h, rest, merchant, amount, env);
        match Chosen(b, h, order, merchant, amount, env)
        case None =>
        case Some(p) =>
          var i :| 0 <= i < |rest| && Usable(b, h, rest[i], merchant, amount, env)
                   && p.currency == Candidate(rest[i], merchant)
                   && forall j :: 0 <= j < i ==> !Usable(b, h, rest[j], merchant, amount, env);
          assert order[i + 1] == rest[i];
          assert forall j :: 0 < j < i + 1 ==> order[j] == rest[j - 1];
      }
    }
  }

  // ---------------------------------------------------------------- the decision

  predicate Online(q: Request) { q.entryMode == "010" || q.entryMode == "810" }
  predicate Contactless(q: Request) { q.entryMode == "071" || q.entryMode == "910" }
  predicate Atm(q: Request) { |q.processingCode| >= 2 && q.processingCode[..2] == "01" }

  /** Card status, channel, spending limits, and the holder. */
  function CardGate(d: Desk, q: Request, env: Env): Option<string> {
    if q.pan !in d.cards then Some(DO_NOT_HONOR)
    else
      var card := d.cards[q.pan];
      if card.status.FrozenCard? then Some(CARD_FROZEN)
      else if card.status.ExpiredCard? || card.status.CancelledCard? then Some(EXPIRED_CARD)
      else if !card.status.ActiveCard? then Some(DO_NOT_HONOR)
      else if (Online(q) && !card.online) || (Atm(q) && !card.atm) || (Contactless(q) && !card.contactless) then Some(DO_NOT_HONOR)
      else if q.amount > card.perTxn then Some(EXCEEDS_LIMIT)
      else if env.dailyQuery && SumIf(d.auths, Today(q.pan, env.day)) + q.amount > card.daily then Some(EXCEEDS_LIMIT)
      else if env.monthlyQuery && SumIf(d.auths, ThisMonth(q.pan, env.month)) + q.amount > card.monthly then Some(EXCEEDS_LIMIT)
      else if card.owner !in d.users || d.users[card.owner].frozen then Some(DO_NOT_HONOR)
      else None
  }

  /** The regulatory gate for spending abroad. A sum query that fails reads as zero, and the check goes on. */
  function AbroadGate(d: Desk, q: Request, env: Env): Option<string>
    requires q.pan in d.cards
  {
    var merchant, card := MerchantCurrency(q.currencyCode), d.cards[q.pan];
    if merchant == BIRR || !env.regulated then None
    else if !env.abroad || !card.international then Some(DO_NOT_HONOR)
    else if env.cap.None? || env.cap.value <= 0 then None
    else if merchant != USD && (merchant, USD) !in env.rates then Some(SYSTEM_ERROR)
    else
      var usd := if merchant == USD then q.amount else Round(AtRate(q.amount, env.rates[(merchant, USD)].mid));
      var total := if env.abroadQuery then SumIf(d.auths, Abroad(d.cards, card.owner, env.month)) else 0;
      if total + usd > env.cap.value then Some(EXCEEDS_LIMIT) else None
  }

  function Decline(d: Desk, q: Request, env: Env, code: string, merchant: Option<string>): Decision {
    if q.pan !in d.cards then Decision(d, code)
    else
      var owner := d.cards[q.pan].owner;
      var wallet := if owner in d.users then d.users[owner].wallet else "";
      Decision(d.(auths := d.auths + [Auth(q.rrn, q.pan, wallet, q.amount, BIRR, merchant, Declined, code, None, env.day, env.month, None)]), code)
  }

  /** The row written for an approval. */
  function Approval(q: Request, env: Env, wallet: string, p: Pick): Auth {
    Auth(q.rrn, q.pan, wallet, p.cents, p.currency, Some(MerchantCurrency(q.currencyCode)), Approved, APPROVED, Some(env.holdID), env.day, env.month, None)
  }

  function AfterDecide(d: Desk, q: Request, env: Env): Decision {
    var first := CardGate(d, q, env);
    if first.Some? then Decline(d, q, env, first.value, None)
    else
      var merchant := MerchantCurrency(q.currencyCode);
      var second := AbroadGate(d, q, env);
      if second.Some? then Decline(d, q, env, second.value, Some(merchant))
      else
        var h := d.users[d.cards[q.pan].owner];
        var pick := Chosen(d.books.balances, h, Order(h), merchant, q.amount, env);
        if pick.None? then Decline(d, q, env, INSUFFICIENT_FUNDS, Some(merchant))
        else
          var r := AfterHold(d.books, h.wallet, TransitCardAuth, pick.value.cents, FormatAsset(pick.value.currency), env.holdID, env.delivery);
          var held := d.(books := r.books);
          if !r.ok then Decline(held, q, env, INSUFFICIENT_FUNDS, Some(merchant))
          else Decision(held.(auths := d.auths + [Approval(q, env, h.wallet, pick.value)]), APPROVED)
  }

  /** No gate answers with the codes of an approval or of missing funds. */
  lemma GateCodes(d: Desk, q: Request, env: Env)
    ensures CardGate(d, q, env).Some? ==> CardGate(d, q, env).value != APPROVED && CardGate(d, q, env).value != INSUFFICIENT_FUNDS
    ensures q.pan in d.cards && AbroadGate(d, q, env).Some? ==>
              AbroadGate(d, q, env).value != APPROVED && AbroadGate(d, q, env).value != INSUFFICIENT_FUNDS
  {
    assert forall code :: code in {DO_NOT_HONOR, EXPIRED_CARD, EXCEEDS_LIMIT, CARD_FROZEN, SYSTEM_ERROR} ==>
      (code[0] != APPROVED[0] || code[1] != APPROVED[1]) && (code[0] != INSUFFICIENT_FUNDS[0] || code[1] != INSUFFICIENT_FUNDS[1]);
    assert APPROVED[0] != INSUFFICIENT_FUNDS[0];
  }

  /** Some entry of the holder's waterfall is usable. */
  predicate Payable(d: Desk, q: Request, env: Env)
    requires CardGate(d, q, env).None?
  {
    var h := d.users[d.cards[q.pan].owner];
    exists i :: 0 <= i < |Order(h)| && Usable(d.books.balances, h, Order(h)[i], MerchantCurrency(q.currencyCode), q.amount, env)
  }

  lemma PickPayable(d: Desk, q: Request, env: Env)
    requires CardGate(d, q, env).None? && q.amount >= 0 && forall k :: k in env.rates ==> env.rates[k].ask >= 0.0
    ensures var h := d.users[d.cards[q.pan].owner];
            var pick := Chosen(d.books.balances, h, Order(h), MerchantCurrency(q.currencyCode), q.amount, env);
            && (pick.Some? <==> Payable(d, q, env))
            && (pick.Some? ==> 0 <= pick.value.cents <= Bal(d.books.balances, Main(h.wallet), FormatAsset(pick.value.currency)))
  {
    var h, merchant := d.users[d.cards[q.pan].owner], MerchantCurrency(q.currencyCode);
    WaterfallRefines(d.books.balances, h, Order(h), merchant, q.amount, env);
    var pick := Chosen(d.books.balances, h, Order(h), merchant, q.amount, env);
    if pick.Some? && pick.value.currency != merchant {
      NonNegativeRate(q.amount, env.rates[(merchant, pick.value.currency)].ask);
    }
  }

  lemma NonNegativeRate(cents: int, rate: real)
    requires cents >= 0 && rate >= 0.0
    ensures AtRate(cents, rate) >= 0.0
  {}

  /** The decision, for a fresh hold and an acknowledged posting: code 51 exactly when both gates pass
      and no entry is usable, code 00 exactly when both pass and some entry is; the ledger never turns
      down what the waterfall chose. */
  lemma DecisionExactly(d: Desk, q: Request, env: Env)
    requires Unused(d.books, env.holdID) && env.delivery.Acked?
    requires q.amount >= 0 && forall k :: k in env.rates ==> env.rates[k].ask >= 0.0
    ensures AfterDecide(d, q, env).code == INSUFFICIENT_FUNDS <==>
            CardGate(d, q, env).None? && AbroadGate(d, q, env).None? && !Payable(d, q, env)
    ensures AfterDecide(d, q, env).code == APPROVED <==>
            CardGate(d, q, env).None? && AbroadGate(d, q, env).None? && Payable(d, q, env)
  {
    GateCodes(d, q, env);
    if CardGate(d, q, env).None? && AbroadGate(d, q, env).None? {
      var h := d.users[d.cards[q.pan].owner];
      var pick := Chosen(d.books.balances, h, Order(h), MerchantCurrency(q.currencyCode), q.amount, env);
      PickPayable(d, q, env);
      if pick.Some? {
        HoldOpens(d.books, h.wallet, TransitCardAuth, pick.value.cents, FormatAsset(pick.value.currency), env.holdID, Acked);
      }
      assert APPROVED[0] != INSUFFICIENT_FUNDS[0];
    }
  }

  /** First row with the given retrieval reference number. */
  function ByRrn(auths: seq<Auth>, rrn: string): (i: Option<nat>)
    ensures i.Some? ==> i.value < |auths| && auths[i.value].rrn == rrn
  {
    if auths == [] then None
    else if auths[0].rrn == rrn then Some(0)
    else
      var later := ByRrn(auths[1..], rrn);
      if later.Some? then Some(later.value + 1) else None
  }

  datatype Closing = Closing(desk: Desk, ok: bool)

  /** The whole hold is settled; the settlement amount is only written down. */
  function AfterClear(d: Desk, rrn: string, settlement: int, read: bool, delivery: Delivery): Closing {
    var i := ByRrn(d.auths, rrn);
    if i.None? || !d.auths[i.value].status.Approved? || d.auths[i.value].hold.None? then Closing(d, false)
    else
      var a := d.auths[i.value];
      var r := AfterSettle(d.books, a.hold.value, read, delivery);
      if !r.ok then Closing(d.(books := r.books), false)
      else Closing(d.(books := r.books, auths := d.auths[i.value := a.(status := Cleared, settlement := Some(settlement))]), true)
  }

  function AfterReverse(d: Desk, rrn: string, list: bool, read: bool, delivery: Delivery): Closing {
    var i := ByRrn(d.auths, rrn);
    if i.None? || !d.auths[i.value].status.Approved? || d.auths[i.value].hold.None? then Closing(d, false)
    else
      var a := d.auths[i.value];
      var r := AfterVoid(d.books, a.hold.value, list, read, delivery);
      if !r.ok then Closing(d.(books := r.books), false)
      else Closing(d.(books := r.books, auths := d.auths[i.value := a.(status := Reversed)]), true)
  }

  // ---------------------------------------------------------------- the service object

  class Service {
    const ledger: Client
    var auths: seq<Auth>
    var cards: map<string, Card>
    var users: map<string, Holder>

    ghost function State(): Desk
      reads this, ledger
    {
      Desk(ledger.State(), auths, cards, users)
    }

    constructor (ledger: Client, cards: map<string, Card>, users: map<string, Holder>)
      ensures this.ledger == ledger && auths == [] && this.cards == cards && this.users == users
    {
      this.ledger, auths, this.cards, this.users := ledger, [], cards, users;
    }

    method RecordDecline(q: Request, env: Env, code: string, merchant: Option<string>)
      modifies this
      ensures Decision(State(), code) == Decline(old(State()), q, env, code, merchant)
    {
      if q.pan in cards {
        var owner := cards[q.pan].owner;
        var wallet := "";
        if owner in users { wallet := users[owner].wallet; }
        auths := auths + [Auth(q.rrn, q.pan, wallet, q.amount, BIRR, merchant, Declined, code, None, env.day, env.month, None)];
      }
    }

    method Decide(q: Request, env: Env) returns (code: string)
      modifies this, ledger
      ensures Decision(State(), code) == AfterDecide(old(State()), q, env)
    {
      var first := CheckCard(q, env);
      if first.Some? { RecordDecline(q, env, first.value, None); return first.value; }
      var merchant := MerchantCurrency(q.currencyCode);
      var second := CheckAbroad(q, env, merchant);
      if second.Some? { RecordDecline(q, env, second.value, Some(merchant)); return second.value; }

      var h := users[cards[q.pan].owner];
      var pick := Waterfall(ledger.balances, h, merchant, q.amount, env);
      if pick.None? {
        RecordDecline(q, env, INSUFFICIENT_FUNDS, Some(merchant));
        return INSUFFICIENT_FUNDS;
      }
      var ok := ledger.HoldFunds(h.wallet, TransitCardAuth, pick.value.cents, FormatAsset(pick.value.currency), env.holdID, env.delivery);
      if !ok {
        RecordDecline(q, env, INSUFFICIENT_FUNDS, Some(merchant));
        return INSUFFICIENT_FUNDS;
      }
      auths := auths + [Auth(q.rrn, q.pan, h.wallet, pick.value.cents, pick.value.currency, Some(merchant), Approved, APPROVED,
                             Some(env.holdID), env.day, env.month, None)];
      code := APPROVED;
    }

    method CheckCard(q: Request, env: Env) returns (code: Option<string>)
      ensures code == CardGate(State(), q, env)
    {
      if q.pan !in cards { return Some(DO_NOT_HONOR); }
      var card := cards[q.pan];
      if card.status.FrozenCard? { return Some(CARD_FROZEN); }
      if card.status.ExpiredCard? || card.status.CancelledCard? { return Some(EXPIRED_CARD); }
      if !card.status.ActiveCard? { return Some(DO_NOT_HONOR); }
      if Online(q) && !card.online { return Some(DO_NOT_HONOR); }
      if Atm(q) && !card.atm { return Some(DO_NOT_HONOR); }
      if Contactless(q) && !card.contactless { return Some(DO_NOT_HONOR); }
      if q.amount > card.perTxn { return Some(EXCEEDS_LIMIT); }
      if env.dailyQuery {
        var dailyTotal := SumApproved(Today(q.pan, env.day));
        if dailyTotal + q.amount > card.daily { return Some(EXCEEDS_LIMIT); }
      }
      if env.monthlyQuery {
        var monthlyTotal := SumApproved(ThisMonth(q.pan, env.month));
        if monthlyTotal + q.amount > card.monthly { return Some(EXCEEDS_LIMIT); }
      }
      if card.owner !in users || users[card.owner].frozen { return Some(DO_NOT_HONOR); }
      code := None;
    }

    method SumApproved(f: Auth -> bool) returns (total: int)
      ensures total == SumIf(auths, f)
    {
      total := 0;
      for i := 0 to |auths|
        invariant total == SumIf(auths[..i], f)
      {
        if f(auths[i]) { total := total + auths[i].amount; }
        assert auths[..i + 1][..i] == auths[..i];
      }
      assert auths[..|auths|] == auths;
    }

    method CheckAbroad(q: Request, env: Env, merchant: string) returns (code: Option<string>)
      requires q.pan in cards && merchant == MerchantCurrency(q.currencyCode)
      ensures code == AbroadGate(State(), q, env)
    {
      if merchant == BIRR || !env.regulated { return None; }
      var card := cards[q.pan];
      if !env.abroad { return Some(DO_NOT_HONOR); }
      if !card.international { return Some(DO_NOT_HONOR); }
      if env.cap.Some? && env.cap.value > 0 {
        var total := 0;
        if env.abroadQuery { total := SumApproved(Abroad(cards, card.owner, env.month)); }
        var usd := q.amount;
        if merchant != USD {
          if (merchant, USD) !in env.rates { return Some(SYSTEM_ERROR); }
          usd := Round(AtRate(q.amount, env.rates[(merchant, USD)].mid));
        }
        if total + usd > env.cap.value { return Some(EXCEEDS_LIMIT); }
      }
      code := None;
    }

    method SettleAuthorization(rrn: string, settlement: int, read: bool, delivery: Delivery) returns (ok: bool)
      modifies this, ledger
      ensures Closing(State(), ok) == AfterClear(old(State()), rrn, settlement, read, delivery)
    {
      var i := ByRrn(auths, rrn);
      if i.None? { return false; }
      var a := auths[i.value];
      if !a.status.Approved? || a.hold.None? { return false; }
      ok := ledger.SettleHold(a.hold.value, read, delivery);
      if ok { auths := auths[i.value := a.(status := Cleared, settlement := Some(settlement))]; }
    }

    method ReverseAuthorization(rrn: string, list: bool, read: bool, delivery: Delivery) returns (ok: bool)
      modifies this, ledger
      ensures Closing(State(), ok) == AfterReverse(old(State()), rrn, list, read, delivery)
    {
      var i := ByRrn(auths, rrn);
      if i.None? { return false; }
      var a := auths[i.value];
      if !a.status.Approved? || a.hold.None? { return false; }
      ok := ledger.VoidHold(a.hold.value, list, read, delivery);
      if ok { auths := auths[i.value := a.(status := Reversed)]; }
    }
  }
}

/** Where the spending limits stop: the exact conditions, and runs that reach the bounds. */
module CardExtremes {
  import opened Common
  import opened Chart
  import opened Ledger
  import opened CardAuth
  import opened CardRuns
  import opened CardMeters

  const WALLET := "w"
  const PAN := "pan"
  const OWNER := "u"
  const ETB_ASSET := "ETB/2"

  /** One card, one holder with a birr wallet, nothing spent yet. */
  function Fresh(funds: int, daily: int, others: int): Desk {
    Desk(Books(map[Slot(Main(WALLET), ETB_ASSET) := funds], [], map[]), [],
         map[PAN := Card(ActiveCard, true, true, true, true, others, daily, others, OWNER)],
         map[OWNER := Holder(WALLET, false, [BIRR], {BIRR})])
  }

  function Ask(amount: int, code: string): Request { Request("r", PAN, "000000", "051", amount, code) }

  /** Which queries answer, the international cap, the ask rate from dollars to birr, and the hold's id. */
  function Conditions(daily: bool, abroad: bool, cap: Option<int>, ask: real, hold: string): Env {
    Env(1, 1, daily, true, abroad, cap.Some?, true, cap, true, map[(USD, BIRR) := Rate(ask, ask)], {}, hold, Acked)
  }

  predicate Usual(env: Env) {
    env.day == 1 && env.month == 1 && env.delivery.Acked? && env.unreadable == {} && env.autoConvert && (USD, BIRR) in env.rates
  }

  /** What a request of this amount holds in birr. */
  predicate Holds(amount: int, code: string, env: Env, cents: int) {
    if MerchantCurrency(code) == BIRR then cents == amount
    else MerchantCurrency(code) == USD && (USD, BIRR) in env.rates && cents == Ceil(AtRate(amount, env.rates[(USD, BIRR)].ask))
  }

  /** The card and holder of Fresh, at any point of a run. */
  predicate Ours(d: Desk, funds: int) {
    && PAN in d.cards && d.cards[PAN].owner == OWNER && OWNER in d.users && d.users[OWNER] == Holder(WALLET, false, [BIRR], {BIRR})
    && Bal(d.books.balances, Main(WALLET), ETB_ASSET) == funds
  }

  lemma BirrPick(d: Desk, funds: int, amount: int, code: string, env: Env, cents: int)
    requires Ours(d, funds) && Usual(env) && cents <= funds && Holds(amount, code, env, cents)
    ensures Chosen(d.books.balances, d.users[OWNER], [BIRR], MerchantCurrency(code), amount, env) == Some(Pick(BIRR, cents))
  {
    assert FormatAsset(BIRR) == ETB_ASSET by { assert Upper(BIRR) == BIRR; }
    assert [BIRR][0] == BIRR && Candidate(BIRR, MerchantCurrency(code)) == BIRR;
    assert Price(d.books.balances, d.users[OWNER], BIRR, MerchantCurrency(code), amount, env) == Some(cents);
  }

  /** Taking the money into a fresh hold leaves unused holds unused. */
  lemma BirrHeld(b: Books, funds: int, cents: int, hold: string, other: string)
    requires 0 <= cents <= funds && Bal(b.balances, Main(WALLET), ETB_ASSET) == funds && Unused(b, hold)
    ensures var r := AfterHold(b, WALLET, TransitCardAuth, cents, ETB_ASSET, hold, Acked);
            && r.ok && Bal(r.books.balances, Main(WALLET), ETB_ASSET) == funds - cents
            && (other != hold && Unused(b, other) ==> Unused(r.books, other))
  {
    HoldOpens(b, WALLET, TransitCardAuth, cents, ETB_ASSET, hold, Acked);
    LogGrows(b.log, Posting(Main(WALLET), Hold(hold), cents, ETB_ASSET), Hold(other));
  }

  /** A request that passes the gates and is affordable in birr is approved. */
  lemma Spend(d: Desk, funds: int, amount: int, code: string, env: Env, cents: int, other: string)
    requires Ours(d, funds) && Usual(env) && 0 <= cents <= funds && Holds(amount, code, env, cents) && Unused(d.books, env.holdID)
    requires CardGate(d, Ask(amount, code), env).None? && AbroadGate(d, Ask(amount, code), env).None?
    ensures var e := AfterDecide(d, Ask(amount, code), env).desk;
            && e.auths == d.auths + [Approval(Ask(amount, code), env, WALLET, Pick(BIRR, cents))]
            && e.cards == d.cards && Ours(e, funds - cents)
            && (other != env.holdID && Unused(d.books, other) ==> Unused(e.books, other))
  {
    BirrPick(d, funds, amount, code, env, cents);
    assert FormatAsset(BIRR) == ETB_ASSET by { assert Upper(BIRR) == BIRR; }
    BirrHeld(d.books, funds, cents, env.holdID, other);
    var r := AfterHold(d.books, WALLET, TransitCardAuth, cents, ETB_ASSET, env.holdID, Acked);
    var e := AfterDecide(d, Ask(amount, code), env).desk;
    assert e == d.(books := r.books, auths := d.auths + [Approval(Ask(amount, code), env, WALLET, Pick(BIRR, cents))]);
  }

  lemma Readings(d: Desk, e: Desk, a: Auth, m: Meter)
    requires e.auths == d.auths + [a] && e.cards == d.cards
    ensures Reading(e, m) == Reading(d, m) + if In(m, d.cards, a) then a.amount else 0
  {
    SumIfAppend(d.auths, a, Rows(m, d.cards));
    RowsMean(m, d.cards, a);
  }

  lemma OneStep(d: Desk, step: Step)
    ensures AfterRun(d, [step]) == AfterStep(d, step) && (LegalRun(d, [step]) <==> Legal(d, step)) && (WatchedRun(d, [step]) <==> Watched(d, step))
    ensures forall m, limit, k :: SlippedIn(d, [step], m, limit, k) == Slipped(d, step, m, limit, k)
    ensures forall k :: HeldWithinRun(d, [step], k) <==> HeldWithin(d, step, k)
  {
    assert [step][..0] == [];
  }

  lemma FirstGates(funds: int, daily: int, others: int, amount: int, code: string, env: Env)
    requires Usual(env) && amount <= others && (env.dailyQuery ==> amount <= daily) && (env.cap.Some? ==> amount <= env.cap.value && env.abroad)
    requires (MerchantCurrency(code) == BIRR || MerchantCurrency(code) == USD) && (env.regulated <==> env.cap.Some?)
    ensures var d := Fresh(funds, daily, others); CardGate(d, Ask(amount, code), env).None? && AbroadGate(d, Ask(amount, code), env).None?
    ensures Ours(Fresh(funds, daily, others), funds) && Sound(Fresh(funds, daily, others)) && forall h :: Unused(Fresh(funds, daily, others).books, h)
  {
  }

  /** A first request that the gates let through. */
  predicate Goes(daily: int, others: int, amount: int, code: string, env: Env, cents: int) {
    && Usual(env) && amount <= others && (env.dailyQuery ==> amount <= daily) && (env.cap.Some? ==> amount <= env.cap.value && env.abroad)
    && (env.regulated <==> env.cap.Some?) && 0 <= cents && Holds(amount, code, env, cents)
  }

  lemma FirstRow(d: Desk, funds: int, daily: int, others: int, amount: int, code: string, env: Env, cents: int, other: string)
    requires d == Fresh(funds, daily, others) && Goes(daily, others, amount, code, env, cents) && cents <= funds
    ensures var step, a := Decide(Ask(amount, code), env), Approval(Ask(amount, code), env, WALLET, Pick(BIRR, cents));
            && Sound(d) && Legal(d, step) && Ours(AfterStep(d, step), funds - cents)
            && AfterStep(d, step).auths == [a] && AfterStep(d, step).cards == d.cards && Row(d, Ask(amount, code), env) == Some(a)
            && (other != env.holdID ==> Unused(AfterStep(d, step).books, other))
  {
    FirstGates(funds, daily, others, amount, code, env);
    Spend(d, funds, amount, code, env, cents, other);
    var a := Approval(Ask(amount, code), env, WALLET, Pick(BIRR, cents));
    assert d.auths + [a] == [a];
  }

  /** The first request on a fresh card, and what the meters read after it. */
  lemma FirstSpend(d: Desk, funds: int, daily: int, others: int, amount: int, code: string, env: Env, cents: int, other: string)
    requires d == Fresh(funds, daily, others) && Goes(daily, others, amount, code, env, cents) && cents <= funds
    ensures var step, a := Decide(Ask(amount, code), env), Approval(Ask(amount, code), env, WALLET, Pick(BIRR, cents));
            && Sound(d) && Legal(d, step) && Ours(AfterStep(d, step), funds - cents)
            && AfterStep(d, step).cards == d.cards && Row(d, Ask(amount, code), env) == Some(a)
            && (other != env.holdID ==> Unused(AfterStep(d, step).books, other))
            && Reading(AfterStep(d, step), Daily(PAN, 1)) == cents
            && Reading(AfterStep(d, step), Monthly(PAN, 1)) == cents
            && (MerchantCurrency(code) == USD ==> Reading(AfterStep(d, step), International(OWNER, 1)) == cents)
  {
    FirstRow(d, funds, daily, others, amount, code, env, cents, other);
    var e, a := AfterStep(d, Decide(Ask(amount, code), env)), Approval(Ask(amount, code), env, WALLET, Pick(BIRR, cents));
    FirstReadings(d, e, a);
  }

  lemma FirstReadings(d: Desk, e: Desk, a: Auth)
    requires d.auths == [] && e.auths == [a] && e.cards == d.cards && PAN in d.cards && d.cards[PAN].owner == OWNER
    requires a.status.Approved? && a.card == PAN && a.day == 1 && a.month == 1
    ensures Reading(e, Daily(PAN, 1)) == a.amount && Reading(e, Monthly(PAN, 1)) == a.amount
    ensures a.merchantCurrency == Some(USD) ==> Reading(e, International(OWNER, 1)) == a.amount
  {
    assert e.auths == d.auths + [a];
    Readings(d, e, a, Daily(PAN, 1));
    Readings(d, e, a, Monthly(PAN, 1));
    Readings(d, e, a, International(OWNER, 1));
  }

  // ---------------------------------------------------------------- conversion and the limits

  const HOLD := "h"
  const SECOND_HOLD := "i"

  lemma Above(amount: int, ask: real)
    requires amount > 0 && ask > 1.0
    ensures AtRate(amount, ask) > amount as real && Ceil(AtRate(amount, ask)) > amount
  {
    CeilIsLeast(AtRate(amount, ask), amount);
  }

  /** The bound with conversions is reached: for every amount and every ask rate above one, a card whose
      limits are that amount ends the day above them by all that the conversion holds above what was asked. */
  lemma MarkupReached(amount: int, ask: real)
    requires amount > 0 && ask > 1.0
    ensures var cents := Ceil(AtRate(amount, ask));
            var d, step := Fresh(cents, amount, amount), Decide(Ask(amount, "840"), Conditions(true, true, None, ask, HOLD));
            && Sound(d) && LegalRun(d, [step]) && WatchedRun(d, [step]) && RatesUpTo([step], ask) && d.auths == []
            && cents > amount && HeldWithinRun(d, [step], cents - amount)
            && AfterRun(d, [step]).cards == d.cards
            && Reading(AfterRun(d, [step]), Daily(PAN, 1)) == d.cards[PAN].daily + (cents - amount)
  {
    var cents, env := Ceil(AtRate(amount, ask)), Conditions(true, true, None, ask, HOLD);
    Above(amount, ask);
    FirstSpend(Fresh(cents, amount, amount), cents, amount, amount, amount, "840", env, cents, "");
    OneStep(Fresh(cents, amount, amount), Decide(Ask(amount, "840"), env));
  }

  ghost predicate Respects(d: Desk, steps: seq<Step>, ask: real, m: Meter) {
    && Sound(d) && d.auths == [] && LegalRun(d, steps) && WatchedRun(d, steps) && RatesUpTo(steps, ask)
    && !m.International? && m.card in d.cards && m.card in AfterRun(d, steps).cards
    ==> Reading(AfterRun(d, steps), m) <= Max(0, CardLimit(AfterRun(d, steps), m))
  }

  /** The limits hold in every watched run, for every card, day and month, if and only if no ask rate
      exceeds one: the limits are enforced exactly as long as conversion never marks an amount up. */
  lemma LimitsIffNoMarkup(ask: real)
    requires ask >= 0.0
    ensures (forall d, steps, m :: Respects(d, steps, ask, m)) <==> ask <= 1.0
  {
    if ask <= 1.0 {
      forall d, steps, m ensures Respects(d, steps, ask, m) {
        if Sound(d) && d.auths == [] && LegalRun(d, steps) && WatchedRun(d, steps) && RatesUpTo(steps, ask) && !m.International? && m.card in d.cards {
          ParRun(d, steps);
          LimitsHold(d, steps, m, 0);
        }
      }
    } else {
      var d, step := Fresh(Ceil(AtRate(1, ask)), 1, 1), Decide(Ask(1, "840"), Conditions(true, true, None, ask, HOLD));
      MarkupReached(1, ask);
      assert !Respects(d, [step], ask, Daily(PAN, 1));
    }
  }

  // ---------------------------------------------------------------- conversion and the international cap

  /** So is the bound of the international cap: a request of the whole cap at a dollar merchant, paid in
      birr, leaves the sum above the cap by all that the conversion adds. */
  lemma CapMissesConversion(amount: int, ask: real)
    requires amount > 0 && ask > 1.0
    ensures var cents := Ceil(AtRate(amount, ask));
            var d, step := Fresh(cents, amount, amount), Decide(Ask(amount, "840"), Conditions(true, true, Some(amount), ask, HOLD));
            && Sound(d) && LegalRun(d, [step]) && CappedRun([step], amount) && RatesUpTo([step], ask) && d.auths == []
            && cents > amount && HeldWithinRun(d, [step], cents - amount)
            && Reading(AfterRun(d, [step]), International(OWNER, 1)) == amount + (cents - amount)
  {
    var cents, env := Ceil(AtRate(amount, ask)), Conditions(true, true, Some(amount), ask, HOLD);
    Above(amount, ask);
    FirstSpend(Fresh(cents, amount, amount), cents, amount, amount, amount, "840", env, cents, "");
    OneStep(Fresh(cents, amount, amount), Decide(Ask(amount, "840"), env));
  }

  ghost predicate RespectsCap(d: Desk, steps: seq<Step>, ask: real, user: string, month: int, cap: nat) {
    Sound(d) && d.auths == [] && LegalRun(d, steps) && CappedRun(steps, cap) && RatesUpTo(steps, ask)
    ==> Reading(AfterRun(d, steps), International(user, month)) <= cap
  }

  /** The cap on foreign spending holds in every run of checked dollar requests, for every user and month,
      if and only if no ask rate exceeds one. */
  lemma CapIffNoMarkup(ask: real)
    requires ask >= 0.0
    ensures (forall d, steps, user, month, cap: nat :: RespectsCap(d, steps, ask, user, month, cap)) <==> ask <= 1.0
  {
    if ask <= 1.0 {
      forall d, steps, user, month, cap: nat ensures RespectsCap(d, steps, ask, user, month, cap) {
        if Sound(d) && d.auths == [] && LegalRun(d, steps) && CappedRun(steps, cap) && RatesUpTo(steps, ask) {
          ParRun(d, steps);
          CapHolds(d, steps, user, month, cap, 0);
        }
      }
    } else {
      var d, step := Fresh(Ceil(AtRate(1, ask)), 1, 1), Decide(Ask(1, "840"), Conditions(true, true, Some(1), ask, HOLD));
      CapMissesConversion(1, ask);
      assert !RespectsCap(d, [step], ask, OWNER, 1, 1);
    }
  }

  // ---------------------------------------------------------------- queries that fail

  /** The check fails open: with the daily query down, any amount is approved on a card whose daily limit
      is zero, and all of it slips past the meter, so that the general bound is reached. */
  lemma FailsOpen(amount: nat)
    requires amount > 0
    ensures var d, step := Fresh(amount, 0, amount), Decide(Ask(amount, "230"), Conditions(false, true, None, 1.0, HOLD));
            && Sound(d) && LegalRun(d, [step]) && d.cards[PAN].daily == 0
            && Reading(AfterRun(d, [step]), Daily(PAN, 1)) == amount == SlippedIn(d, [step], Daily(PAN, 1), 0, 0)
  {
    var d, env := Fresh(amount, 0, amount), Conditions(false, true, None, 1.0, HOLD);
    assert MerchantCurrency("230") == BIRR by { assert "230"[0] != "840"[0] && "230"[0] != "978"[0]; }
    FirstSpend(d, amount, 0, amount, amount, "230", env, amount, "");
    OneStep(d, Decide(Ask(amount, "230"), env));
  }

  lemma TwoSteps(d: Desk, a: Step, b: Step, m: Meter, limit: int, k: int)
    ensures AfterRun(d, [a, b]) == AfterStep(AfterStep(d, a), b)
    ensures LegalRun(d, [a, b]) <==> Legal(d, a) && Legal(AfterStep(d, a), b)
    ensures SlippedIn(d, [a, b], m, limit, k) == Slipped(d, a, m, limit, k) + Slipped(AfterStep(d, a), b, m, limit, k)
  {
    assert [a, b][..1] == [a];
    OneStep(d, a);
  }

  /** A month in which the whole cap is used up. */
  ghost predicate UsedUp(d: Desk, amount: int) {
    && Ours(d, amount) && Unused(d.books, SECOND_HOLD) && d.cards == Fresh(0, 2 * amount, 2 * amount).cards
    && Reading(d, Daily(PAN, 1)) == amount && Reading(d, Monthly(PAN, 1)) == amount && Reading(d, International(OWNER, 1)) == amount
  }

  lemma ParPrice(amount: int)
    ensures Ceil(AtRate(amount, 1.0)) == amount
  {
  }

  lemma UsesUp(d: Desk, amount: int, twice: int, env: Env)
    requires amount > 0 && twice == 2 * amount && d == Fresh(twice, twice, twice) && env == Conditions(true, true, Some(amount), 1.0, HOLD)
    ensures var step := Decide(Ask(amount, "840"), env);
            Sound(d) && Legal(d, step) && UsedUp(AfterStep(d, step), amount)
  {
    ParPrice(amount);
    assert HOLD != SECOND_HOLD by { assert HOLD[0] != SECOND_HOLD[0]; }
    assert Goes(twice, twice, amount, "840", env, amount);
    FirstSpend(d, twice, twice, twice, amount, "840", env, amount, SECOND_HOLD);
  }

  lemma NoneSlips(d: Desk, amount: int, env: Env)
    requires amount > 0 && env == Conditions(true, true, Some(amount), 1.0, HOLD)
    ensures Slipped(d, Decide(Ask(amount, "840"), env), International(OWNER, 1), amount, 0) == 0
  {
    ParHolds(d, Ask(amount, "840"), env);
    CappedStep(d, Decide(Ask(amount, "840"), env), International(OWNER, 1), amount, 0);
  }

  /** Then, with the international sum no longer answering, the same request is approved again. */
  lemma SecondSpend(d: Desk, amount: int, env: Env)
    requires amount > 0 && env == Conditions(true, false, Some(amount), 1.0, SECOND_HOLD)
    requires UsedUp(d, amount)
    ensures var step := Decide(Ask(amount, "840"), env);
            Legal(d, step) && Reading(AfterStep(d, step), International(OWNER, 1)) == 2 * amount
            && Slipped(d, step, International(OWNER, 1), amount, 0) == amount
  {
    var q := Ask(amount, "840");
    ParPrice(amount);
    assert CardGate(d, q, env).None? && AbroadGate(d, q, env).None?;
    Spend(d, amount, amount, "840", env, amount, "");
    Readings(d, AfterStep(d, Decide(q, env)), Approval(q, env, WALLET, Pick(BIRR, amount)), International(OWNER, 1));
  }

  /** The international check fails open too, although it is still made: a sum that cannot be read counts
      as zero, a second request of the whole cap is approved, and the sum is twice the cap. */
  lemma AbroadFailsOpen(d: Desk, amount: int, first: Step, second: Step)
    requires amount > 0 && d == Fresh(2 * amount, 2 * amount, 2 * amount)
    requires first == Decide(Ask(amount, "840"), Conditions(true, true, Some(amount), 1.0, HOLD))
    requires second == Decide(Ask(amount, "840"), Conditions(true, false, Some(amount), 1.0, SECOND_HOLD))
    ensures Sound(d) && LegalRun(d, [first, second])
    ensures Reading(AfterRun(d, [first, second]), International(OWNER, 1)) == 2 * amount
    ensures SlippedIn(d, [first, second], International(OWNER, 1), amount, 0) == amount
  {
    UsesUp(d, amount, 2 * amount, first.env);
    NoneSlips(d, amount, first.env);
    SecondSpend(AfterStep(d, first), amount, second.env);
    TwoSteps(d, first, second, International(OWNER, 1), amount, 0);
  }
}

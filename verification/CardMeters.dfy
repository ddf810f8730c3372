/** What the spending limits bound over whole runs of the card desk: the daily and monthly sums of a card
    and the international sum of a user, as the service itself computes them. */
module CardMeters {
  import opened Common
  import opened Chart
  import opened Ledger
  import opened CardAuth
  import opened CardRuns

  /** The sums a limit is held against, and the parts of them spent in the merchant's own currency. */
  datatype Meter =
    | Daily(card: string, day: int)
    | Monthly(card: string, month: int)
    | OwnDaily(card: string, day: int)
    | OwnMonthly(card: string, month: int)
    | International(user: string, month: int)

  predicate Own(a: Auth) { a.merchantCurrency == Some(a.currency) }

  /** The rows a meter adds up. */
  function Rows(m: Meter, cards: map<string, Card>): Auth -> bool {
    match m
    case Daily(c, day) => Today(c, day)
    case Monthly(c, month) => ThisMonth(c, month)
    case OwnDaily(c, day) => (a: Auth) => Today(c, day)(a) && Own(a)
    case OwnMonthly(c, month) => (a: Auth) => ThisMonth(c, month)(a) && Own(a)
    case International(u, month) => Abroad(cards, u, month)
  }

  predicate In(m: Meter, cards: map<string, Card>, a: Auth) {
    && Counts(a)
    && match m
       case Daily(c, day) => a.card == c && a.day == day
       case Monthly(c, month) => a.card == c && a.month == month
       case OwnDaily(c, day) => a.card == c && a.day == day && Own(a)
       case OwnMonthly(c, month) => a.card == c && a.month == month && Own(a)
       case International(u, month) =>
         a.card in cards && cards[a.card].owner == u && a.month == month && a.merchantCurrency.Some? && a.merchantCurrency.value != BIRR
  }

  lemma RowsMean(m: Meter, cards: map<string, Card>, a: Auth)
    ensures Rows(m, cards)(a) <==> In(m, cards, a)
  {
    match m
    case Daily(c, day) => assert Today(c, day)(a) <==> In(m, cards, a);
    case Monthly(c, month) => assert ThisMonth(c, month)(a) <==> In(m, cards, a);
    case OwnDaily(c, day) => assert Today(c, day)(a) && Own(a) <==> In(m, cards, a);
    case OwnMonthly(c, month) => assert ThisMonth(c, month)(a) && Own(a) <==> In(m, cards, a);
    case International(u, month) => assert Abroad(cards, u, month)(a) <==> In(m, cards, a);
  }

  function Reading(d: Desk, m: Meter): int { SumIf(d.auths, Rows(m, d.cards)) }

  // ---------------------------------------------------------------- what a decision adds

  /** The row a decision approves, if it does. */
  function Row(d: Desk, q: Request, env: Env): Option<Auth> {
    var after := AfterDecide(d, q, env).desk.auths;
    if |after| > |d.auths| && after[|d.auths|].status.Approved? then Some(after[|d.auths|]) else None
  }

  /** What the check behind a meter counts for a request; None when it is not made, or not against the sum. */
  function CountedAs(q: Request, env: Env, m: Meter): Option<int> {
    match m
    case Daily(_, _) => if env.dailyQuery then Some(q.amount) else None
    case OwnDaily(_, _) => if env.dailyQuery then Some(q.amount) else None
    case Monthly(_, _) => if env.monthlyQuery then Some(q.amount) else None
    case OwnMonthly(_, _) => if env.monthlyQuery then Some(q.amount) else None
    case International(_, _) =>
      var merchant := MerchantCurrency(q.currencyCode);
      if !env.regulated || env.cap.None? || env.cap.value <= 0 || !env.abroadQuery then None
      else if merchant == USD then Some(q.amount)
      else if (merchant, USD) !in env.rates then None
      else Some(Round(AtRate(q.amount, env.rates[(merchant, USD)].mid)))
  }

  /** The limit it is held against. */
  function Ceiling(d: Desk, q: Request, env: Env, m: Meter): int
    requires q.pan in d.cards
  {
    match m
    case Daily(_, _) => d.cards[q.pan].daily
    case OwnDaily(_, _) => d.cards[q.pan].daily
    case Monthly(_, _) => d.cards[q.pan].monthly
    case OwnMonthly(_, _) => d.cards[q.pan].monthly
    case International(_, _) => if env.cap.Some? then env.cap.value else 0
  }

  lemma {:induction false} SumIfMonotone(auths: seq<Auth>, f: Auth -> bool, g: Auth -> bool)
    requires forall i :: 0 <= i < |auths| ==> (f(auths[i]) ==> g(auths[i])) && (g(auths[i]) ==> auths[i].amount >= 0)
    ensures SumIf(auths, f) <= SumIf(auths, g)
  {
    if auths != [] { SumIfMonotone(auths[..|auths| - 1], f, g); }
  }

  lemma OwnIsPart(d: Desk, c: string, t: int)
    requires Sound(d)
    ensures Reading(d, OwnDaily(c, t)) <= Reading(d, Daily(c, t)) && Reading(d, OwnMonthly(c, t)) <= Reading(d, Monthly(c, t))
  {
    forall i, m | 0 <= i < |d.auths| ensures Rows(m, d.cards)(d.auths[i]) <==> In(m, d.cards, d.auths[i]) {
      RowsMean(m, d.cards, d.auths[i]);
    }
    SumIfMonotone(d.auths, Rows(OwnDaily(c, t), d.cards), Rows(Daily(c, t), d.cards));
    SumIfMonotone(d.auths, Rows(OwnMonthly(c, t), d.cards), Rows(Monthly(c, t), d.cards));
  }

  /** A decision appends at most one row; the row counts only if it is approved, and then both gates
      passed and the row carries the card, the dates and what the waterfall chose. */
  lemma DecideAdds(d: Desk, q: Request, env: Env)
    ensures var e, row := AfterDecide(d, q, env).desk, Row(d, q, env);
            && e.cards == d.cards
            && (row.None? ==> e.auths == d.auths || (|e.auths| == |d.auths| + 1 && e.auths[..|d.auths|] == d.auths && !Counts(e.auths[|d.auths|])))
            && (row.Some? ==> e.auths == d.auths + [row.value] && CardGate(d, q, env).None? && AbroadGate(d, q, env).None?)
    ensures match Row(d, q, env)
            case None => true
            case Some(a) =>
              && a.card == q.pan && a.day == env.day && a.month == env.month
              && a.merchantCurrency == Some(MerchantCurrency(q.currencyCode))
              && (Own(a) ==> a.amount == q.amount)
              && (!Own(a) ==> (MerchantCurrency(q.currencyCode), a.currency) in env.rates
                              && var exact := AtRate(q.amount, env.rates[(MerchantCurrency(q.currencyCode), a.currency)].ask);
                              exact <= a.amount as real < exact + 1.0)
  {
    if CardGate(d, q, env).None? {
      var h := d.users[d.cards[q.pan].owner];
      WaterfallRefines(d.books.balances, h, Order(h), MerchantCurrency(q.currencyCode), q.amount, env);
    }
  }

  /** Whatever is approved passed every check that was made: the reading before it, plus what the check
      counted, is within the limit. */
  lemma MeterGate(d: Desk, q: Request, env: Env, m: Meter)
    requires Sound(d) && Row(d, q, env).Some? && In(m, d.cards, Row(d, q, env).value) && CountedAs(q, env, m).Some?
    ensures q.pan in d.cards && Reading(d, m) + CountedAs(q, env, m).value <= Ceiling(d, q, env, m)
  {
    DecideAdds(d, q, env);
    match m
    case OwnDaily(c, day) => OwnIsPart(d, c, day);
    case OwnMonthly(c, month) => OwnIsPart(d, c, month);
    case _ =>
  }

  // ---------------------------------------------------------------- one step

  /** The check was made, against at most this limit, and what is held is at most k above what it counted. */
  predicate Metered(d: Desk, q: Request, env: Env, a: Auth, m: Meter, limit: int, k: int) {
    && q.pan in d.cards && CountedAs(q, env, m).Some? && Ceiling(d, q, env, m) <= limit
    && (a.amount <= 0 || a.amount <= CountedAs(q, env, m).value + k)
  }

  /** What a step adds to a meter without its check having been made on those terms. */
  function Slipped(d: Desk, step: Step, m: Meter, limit: int, k: int): int {
    if !step.Decide? || Row(d, step.request, step.env).None? then 0
    else
      var a := Row(d, step.request, step.env).value;
      if In(m, d.cards, a) && !Metered(d, step.request, step.env, a, m, limit, k) then a.amount else 0
  }

  lemma DecideMeter(d: Desk, q: Request, env: Env, m: Meter, limit: nat, k: nat, extra: nat)
    requires Sound(d) && Reading(d, m) <= limit + k + extra
    ensures Reading(AfterDecide(d, q, env).desk, m) <= limit + k + extra + Slipped(d, Decide(q, env), m, limit, k)
  {
    DecideAdds(d, q, env);
    var e, row, f := AfterDecide(d, q, env).desk, Row(d, q, env), Rows(m, d.cards);
    if row.Some? {
      SumIfAppend(d.auths, row.value, f);
      RowsMean(m, d.cards, row.value);
      if f(row.value) && CountedAs(q, env, m).Some? { MeterGate(d, q, env, m); }
    } else if e.auths != d.auths {
      var a := e.auths[|d.auths|];
      RowsMean(m, d.cards, a);
      assert e.auths == d.auths + [a];
      SumIfAppend(d.auths, a, f);
    }
  }

  /** Closing a row never raises a meter. */
  lemma CloseMeter(d: Desk, e: Desk, i: nat, c: Auth, m: Meter)
    requires i < |d.auths| && d.auths[i].status.Approved? && d.auths[i].amount >= 0 && Closes(d.auths[i], c)
    requires e.auths == d.auths[i := c] && e.cards == d.cards
    ensures Reading(e, m) <= Reading(d, m)
  {
    SumIfUpdate(d.auths, i, c, Rows(m, d.cards));
    RowsMean(m, d.cards, d.auths[i]);
    RowsMean(m, d.cards, c);
  }

  lemma ClearMeter(d: Desk, rrn: string, n: int, read: bool, how: Delivery, m: Meter)
    requires Sound(d)
    ensures Reading(AfterClear(d, rrn, n, read, how).desk, m) <= Reading(d, m)
  {
    if AfterClear(d, rrn, n, read, how).ok {
      var i := ByRrn(d.auths, rrn).value;
      CloseMeter(d, AfterClear(d, rrn, n, read, how).desk, i, d.auths[i].(status := Cleared, settlement := Some(n)), m);
    }
  }

  lemma ReverseMeter(d: Desk, rrn: string, list: bool, read: bool, how: Delivery, m: Meter)
    requires Sound(d)
    ensures Reading(AfterReverse(d, rrn, list, read, how).desk, m) <= Reading(d, m)
  {
    if AfterReverse(d, rrn, list, read, how).ok {
      var i := ByRrn(d.auths, rrn).value;
      CloseMeter(d, AfterReverse(d, rrn, list, read, how).desk, i, d.auths[i].(status := Reversed), m);
    }
  }

  lemma LimitsMeter(d: Desk, pan: string, daily: int, monthly: int, m: Meter)
    requires Sound(d)
    ensures Reading(AfterStep(d, SetLimits(pan, daily, monthly)), m) <= Reading(d, m)
  {
    var cards := AfterStep(d, SetLimits(pan, daily, monthly)).cards;
    forall i | 0 <= i < |d.auths| ensures Rows(m, cards)(d.auths[i]) == Rows(m, d.cards)(d.auths[i]) && (Counts(d.auths[i]) <== Rows(m, d.cards)(d.auths[i])) {
      RowsMean(m, cards, d.auths[i]);
      RowsMean(m, d.cards, d.auths[i]);
    }
    SumIfMonotone(d.auths, Rows(m, cards), Rows(m, d.cards));
  }

  lemma MeterStep(d: Desk, step: Step, m: Meter, limit: nat, k: nat, extra: nat)
    requires Sound(d) && Reading(d, m) <= limit + k + extra
    ensures Reading(AfterStep(d, step), m) <= limit + k + extra + Slipped(d, step, m, limit, k)
  {
    match step
    case Decide(q, env) => DecideMeter(d, q, env, m, limit, k, extra);
    case Clear(rrn, n, read, how) => ClearMeter(d, rrn, n, read, how, m);
    case Reverse(rrn, list, read, how) => ReverseMeter(d, rrn, list, read, how, m);
    case TopUp(_, _, _, _) =>
    case SetLimits(pan, daily, monthly) => LimitsMeter(d, pan, daily, monthly, m);
  }

  // ---------------------------------------------------------------- every run

  function SlippedIn(d: Desk, steps: seq<Step>, m: Meter, limit: int, k: int): int {
    if steps == [] then 0
    else
      var n := |steps| - 1;
      SlippedIn(d, steps[..n], m, limit, k) + Slipped(AfterRun(d, steps[..n]), steps[n], m, limit, k)
  }

  lemma {:induction false} SlippedNonNegative(d: Desk, steps: seq<Step>, m: Meter, limit: int, k: int)
    requires Sound(d) && LegalRun(d, steps)
    ensures SlippedIn(d, steps, m, limit, k) >= 0
  {
    if steps != [] {
      var n := |steps| - 1;
      var c := AfterRun(d, steps[..n]);
      SlippedNonNegative(d, steps[..n], m, limit, k);
      EveryRun(d, steps[..n], "", "");
      EveryRun(d, steps, "", "");
      if steps[n].Decide? {
        DecideAdds(c, steps[n].request, steps[n].env);
        var row := Row(c, steps[n].request, steps[n].env);
        if row.Some? { assert RowSound(AfterRun(d, steps).books, AfterRun(d, steps).auths[|c.auths|]); }
      }
    }
  }

  /** Over every run, with failed queries, lowered limits and conversions included: no sum exceeds the
      highest limit it was checked against, plus the most that a checked approval held above what its
      check counted, plus everything approved without that check. */
  lemma {:induction false} MeterBound(d: Desk, steps: seq<Step>, m: Meter, limit: nat, k: nat)
    requires Sound(d) && LegalRun(d, steps) && Reading(d, m) <= limit + k
    ensures Reading(AfterRun(d, steps), m) <= limit + k + SlippedIn(d, steps, m, limit, k)
  {
    if steps != [] {
      var n := |steps| - 1;
      MeterBound(d, steps[..n], m, limit, k);
      SlippedNonNegative(d, steps[..n], m, limit, k);
      EveryRun(d, steps[..n], "", "");
      MeterStep(AfterRun(d, steps[..n]), steps[n], m, limit, k, SlippedIn(d, steps[..n], m, limit, k));
    }
  }

  // ---------------------------------------------------------------- when the limits hold

  /** Every sum query answers and no limit is lowered. */
  predicate Watched(d: Desk, step: Step) {
    match step
    case Decide(_, env) => env.dailyQuery && env.monthlyQuery
    case SetLimits(pan, daily, monthly) => pan in d.cards ==> d.cards[pan].daily <= daily && d.cards[pan].monthly <= monthly
    case _ => true
  }

  predicate WatchedRun(d: Desk, steps: seq<Step>) {
    steps == [] || (WatchedRun(d, steps[..|steps| - 1]) && Watched(AfterRun(d, steps[..|steps| - 1]), steps[|steps| - 1]))
  }

  /** No approval holds more than k above what was asked. */
  predicate HeldWithin(d: Desk, step: Step, k: int) {
    step.Decide? && Row(d, step.request, step.env).Some? ==>
      var held := Row(d, step.request, step.env).value.amount;
      held <= 0 || held <= step.request.amount + k
  }

  predicate HeldWithinRun(d: Desk, steps: seq<Step>, k: int) {
    steps == [] || (HeldWithinRun(d, steps[..|steps| - 1], k) && HeldWithin(AfterRun(d, steps[..|steps| - 1]), steps[|steps| - 1], k))
  }

  function CardLimit(d: Desk, m: Meter): int
    requires !m.International? && m.card in d.cards
  {
    if m.Daily? || m.OwnDaily? then d.cards[m.card].daily else d.cards[m.card].monthly
  }

  lemma NothingSlips(d: Desk, step: Step, m: Meter, limit: int, k: nat)
    requires !m.International? && Watched(d, step) && (m.Daily? || m.Monthly? ==> HeldWithin(d, step, k))
    requires m.card in d.cards && CardLimit(d, m) <= limit
    ensures Slipped(d, step, m, limit, k) == 0
  {
    if step.Decide? { DecideAdds(d, step.request, step.env); }
  }

  lemma StepLimits(d: Desk, step: Step, m: Meter)
    requires !m.International? && Watched(d, step) && m.card in d.cards
    ensures m.card in AfterStep(d, step).cards && CardLimit(d, m) <= CardLimit(AfterStep(d, step), m)
  {
    if step.Decide? { DecideAdds(d, step.request, step.env); }
  }

  /** With answering queries and limits that are not lowered, no day's or month's sum of a card exceeds
      its limit by more than k, the most that an approval held above what was asked; and what was spent
      in the merchant's own currency never exceeds it at all. */
  lemma {:induction false} LimitsHold(d: Desk, steps: seq<Step>, m: Meter, k: nat)
    requires Sound(d) && LegalRun(d, steps) && WatchedRun(d, steps) && (m.Daily? || m.Monthly? ==> HeldWithinRun(d, steps, k))
    requires !m.International? && m.card in d.cards && Reading(d, m) <= Max(0, CardLimit(d, m)) + k
    ensures var e := AfterRun(d, steps); m.card in e.cards && Reading(e, m) <= Max(0, CardLimit(e, m)) + k
  {
    if steps != [] {
      var n := |steps| - 1;
      var c := AfterRun(d, steps[..n]);
      LimitsHold(d, steps[..n], m, k);
      EveryRun(d, steps[..n], "", "");
      StepLimits(c, steps[n], m);
      var limit := Max(0, CardLimit(AfterStep(c, steps[n]), m));
      NothingSlips(c, steps[n], m, limit, k);
      MeterStep(c, steps[n], m, limit, k, 0);
    }
  }

  // ---------------------------------------------------------------- conversion

  /** Every ask rate of the run lies between zero and this one. */
  predicate RatesUpTo(steps: seq<Step>, ask: real) {
    forall i, p :: 0 <= i < |steps| && steps[i].Decide? && p in steps[i].env.rates ==> 0.0 <= steps[i].env.rates[p].ask <= ask
  }

  lemma RateBounds(cents: int, rate: real)
    requires 0.0 <= rate <= 1.0
    ensures cents >= 0 ==> AtRate(cents, rate) <= cents as real
    ensures cents <= 0 ==> AtRate(cents, rate) <= 0.0
  {}

  lemma ParHolds(d: Desk, q: Request, env: Env)
    requires forall p :: p in env.rates ==> 0.0 <= env.rates[p].ask <= 1.0
    ensures HeldWithin(d, Decide(q, env), 0)
  {
    DecideAdds(d, q, env);
    var row := Row(d, q, env);
    if row.Some? && !Own(row.value) {
      RateBounds(q.amount, env.rates[(MerchantCurrency(q.currencyCode), row.value.currency)].ask);
    }
  }

  lemma {:induction false} ParRun(d: Desk, steps: seq<Step>)
    requires RatesUpTo(steps, 1.0)
    ensures HeldWithinRun(d, steps, 0)
  {
    if steps != [] {
      var n := |steps| - 1;
      assert forall i :: 0 <= i < n ==> steps[..n][i] == steps[i];
      ParRun(d, steps[..n]);
      if steps[n].Decide? { ParHolds(AfterRun(d, steps[..n]), steps[n].request, steps[n].env); }
    }
  }

  // ---------------------------------------------------------------- the international cap

  /** Every foreign request is a dollar request, checked against the user's sum and at most this cap. */
  predicate Capped(step: Step, cap: int) {
    step.Decide? && MerchantCurrency(step.request.currencyCode) != BIRR ==>
      && MerchantCurrency(step.request.currencyCode) == USD
      && step.env.regulated && step.env.abroadQuery && step.env.cap.Some? && 0 < step.env.cap.value <= cap
  }

  predicate CappedRun(steps: seq<Step>, cap: int) { forall i :: 0 <= i < |steps| ==> Capped(steps[i], cap) }

  lemma {:induction false} NothingSlipsCap(d: Desk, steps: seq<Step>, m: Meter, cap: int, k: nat)
    requires m.International? && CappedRun(steps, cap) && HeldWithinRun(d, steps, k)
    ensures SlippedIn(d, steps, m, cap, k) == 0
  {
    if steps != [] {
      var n := |steps| - 1;
      assert forall i :: 0 <= i < n ==> steps[..n][i] == steps[i];
      NothingSlipsCap(d, steps[..n], m, cap, k);
      CappedStep(AfterRun(d, steps[..n]), steps[n], m, cap, k);
    }
  }

  lemma CappedStep(d: Desk, step: Step, m: Meter, cap: int, k: nat)
    requires m.International? && Capped(step, cap) && HeldWithin(d, step, k)
    ensures Slipped(d, step, m, cap, k) == 0
  {
    if step.Decide? { DecideAdds(d, step.request, step.env); }
  }

  /** Where foreign requests are dollar requests and the check is made, a user's international sum of a
      month exceeds the cap by at most k, the most that an approval held above what was asked. */
  lemma CapHolds(d: Desk, steps: seq<Step>, user: string, month: int, cap: nat, k: nat)
    requires Sound(d) && LegalRun(d, steps) && CappedRun(steps, cap) && HeldWithinRun(d, steps, k)
    requires Reading(d, International(user, month)) <= cap + k
    ensures Reading(AfterRun(d, steps), International(user, month)) <= cap + k
  {
    NothingSlipsCap(d, steps, International(user, month), cap, k);
    MeterBound(d, steps, International(user, month), cap, k);
  }
}

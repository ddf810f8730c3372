/** Regulatory limits: rule resolution and transfer checks of internal/services/regulatory/service.go,
    with the counters of internal/repository/transfer_totals.go. */
module Regulatory {
  import opened Common
  import opened Cache
  import Decimal
  import Sums

  datatype Scope = Global | AccountType | KycLevel | Currency | OtherScope

  datatype Rule = Rule(scope: Scope, scopeValue: string, value: string)

  datatype Person = Person(accountType: string, kyc: nat)

  // ---------------------------------------------------------------- resolving a rule

  /** How specifically a rule matches; -1 is no match. */
  function Priority(r: Rule, p: Person, currency: string): int {
    match r.scope
    case Currency => if currency != "" && r.scopeValue == currency then 4 else -1
    case AccountType => if p.accountType == r.scopeValue then 3 else if r.scopeValue == "fx_holder" then 2 else -1
    case KycLevel => if Decimal.Text(p.kyc) == r.scopeValue then 2 else -1
    case Global => 1
    case OtherScope => -1
  }

  predicate Matches(r: Rule, p: Person, currency: string) { Priority(r, p, currency) > -1 }

  /** No rule in the list matches more specifically. */
  predicate Top(rules: seq<Rule>, r: Rule, p: Person, currency: string) {
    r in rules && Matches(r, p, currency) && forall q :: q in rules ==> Priority(q, p, currency) <= Priority(r, p, currency)
  }

  /** Rule i is the first of the most specific ones. */
  predicate FirstTop(rules: seq<Rule>, i: int, p: Person, currency: string) {
    0 <= i < |rules| && Top(rules, rules[i], p, currency)
    && forall j :: 0 <= j < i ==> Priority(rules[j], p, currency) < Priority(rules[i], p, currency)
  }

  /** The scan: the index of the rule it ends with. */
  function Best(rules: seq<Rule>, p: Person, currency: string): (r: Option<nat>)
    ensures r.Some? ==> r.value < |rules| && Matches(rules[r.value], p, currency)
  {
    if rules == [] then None
    else
      var last := |rules| - 1;
      var b := Best(rules[..last], p, currency);
      if Priority(rules[last], p, currency) > (if b.Some? then Priority(rules[b.value], p, currency) else -1) then Some(last) else b
  }

  /** The scan ends with the first rule of maximal priority, and with none exactly when none matches. */
  lemma {:induction false} BestIsFirstTop(rules: seq<Rule>, p: Person, currency: string)
    ensures Best(rules, p, currency) == None <==> forall r :: r in rules ==> !Matches(r, p, currency)
    ensures Best(rules, p, currency).Some? ==> FirstTop(rules, Best(rules, p, currency).value, p, currency)
  {
    if rules != [] {
      var last := |rules| - 1;
      var init, r := rules[..last], rules[last];
      BestIsFirstTop(init, p, currency);
      assert rules == init + [r];
      assert forall q :: q in rules <==> q in init || q == r;
      if Best(rules, p, currency) == Some(last) {
        TopLast(init, r, p, currency);
      } else if Best(init, p, currency).Some? {
        TopStays(init, r, Best(init, p, currency).value, p, currency);
      }
    }
  }

  /** A last rule that beats the best so far. */
  lemma TopLast(init: seq<Rule>, r: Rule, p: Person, currency: string)
    requires Matches(r, p, currency) && forall q :: q in init ==> Priority(q, p, currency) < Priority(r, p, currency)
    ensures FirstTop(init + [r], |init|, p, currency)
  {
    assert forall j :: 0 <= j < |init| ==> (init + [r])[j] == init[j] && init[j] in init;
  }

  /** A last rule that does not. */
  lemma TopStays(init: seq<Rule>, r: Rule, i: int, p: Person, currency: string)
    requires FirstTop(init, i, p, currency) && Priority(r, p, currency) <= Priority(init[i], p, currency)
    ensures FirstTop(init + [r], i, p, currency)
  {
    assert forall j :: 0 <= j < |init| ==> (init + [r])[j] == init[j];
    assert (init + [r])[i] in init + [r];
  }

  lemma FirstTopUnique(rules: seq<Rule>, i: int, j: int, p: Person, currency: string)
    requires FirstTop(rules, i, p, currency)
    ensures FirstTop(rules, j, p, currency) <==> i == j
  {
    assert rules[i] in rules;
    assert 0 <= j < |rules| ==> rules[j] in rules;
  }

  function BestValue(rules: seq<Rule>, p: Person, currency: string): Option<string> {
    var b := Best(rules, p, currency);
    if b == None then None else Some(rules[b.value].value)
  }

  /** The most specific rules do not contradict each other. */
  predicate TopAgree(rules: seq<Rule>, p: Person, currency: string) {
    forall r, q :: r in rules && q in rules && Top(rules, r, p, currency) && Top(rules, q, p, currency) ==> r.value == q.value
  }

  lemma SameElements(rules: seq<Rule>, other: seq<Rule>)
    requires multiset(rules) == multiset(other)
    ensures forall r :: r in rules <==> r in other
  {
    forall r ensures r in rules <==> r in other {
      assert r in rules <==> r in multiset(rules);
      assert r in other <==> r in multiset(other);
    }
  }

  lemma SameTop(rules: seq<Rule>, other: seq<Rule>, p: Person, currency: string)
    requires multiset(rules) == multiset(other) && TopAgree(rules, p, currency)
    ensures BestValue(rules, p, currency) == BestValue(other, p, currency)
  {
    SameElements(rules, other);
    BestIsFirstTop(rules, p, currency);
    BestIsFirstTop(other, p, currency);
    var b, c := Best(rules, p, currency), Best(other, p, currency);
    if b.Some? && c.Some? {
      assert Top(rules, other[c.value], p, currency);
    }
  }

  /** Moving one of the most specific rules to the front makes it the one that is picked. */
  lemma TopFirst(rules: seq<Rule>, r: Rule, p: Person, currency: string) returns (other: seq<Rule>)
    requires Top(rules, r, p, currency)
    ensures multiset(other) == multiset(rules) && BestValue(other, p, currency) == Some(r.value)
  {
    var i :| 0 <= i < |rules| && rules[i] == r;
    other := [r] + (rules[..i] + rules[i + 1..]);
    assert rules == rules[..i] + [r] + rules[i + 1..];
    SameElements(rules, other);
    assert FirstTop(other, 0, p, currency);
    BestIsFirstTop(other, p, currency);
    assert other[0] in other;
    FirstTopUnique(other, 0, Best(other, p, currency).value, p, currency);
  }

  /** The resolved value is the same in every order of the list exactly when the most specific rules
      carry one value. */
  lemma OrderIndependent(rules: seq<Rule>, p: Person, currency: string)
    ensures (forall other: seq<Rule> :: multiset(other) == multiset(rules) ==> BestValue(other, p, currency) == BestValue(rules, p, currency))
            <==> TopAgree(rules, p, currency)
  {
    if TopAgree(rules, p, currency) {
      forall other: seq<Rule> | multiset(other) == multiset(rules)
        ensures BestValue(other, p, currency) == BestValue(rules, p, currency)
      {
        SameTop(rules, other, p, currency);
      }
    } else {
      var r, q :| r in rules && q in rules && Top(rules, r, p, currency) && Top(rules, q, p, currency) && r.value != q.value;
      var first := TopFirst(rules, r, p, currency);
      var second := TopFirst(rules, q, p, currency);
      assert BestValue(first, p, currency) != BestValue(second, p, currency);
    }
  }

  // ---------------------------------------------------------------- which rule decides, and what it says

  /** The rule was written for this currency, this account type, this KYC level, or everybody. "fx_holder"
      stands beside the KYC levels, unless it is the person's own account type. */
  predicate ForCurrency(r: Rule, currency: string) { r.scope.Currency? && r.scopeValue == currency && currency != "" }
  predicate ForAccount(r: Rule, p: Person) { r.scope.AccountType? && r.scopeValue == p.accountType }
  predicate ForLevel(r: Rule, p: Person) {
    || (r.scope.KycLevel? && r.scopeValue == Decimal.Text(p.kyc))
    || (r.scope.AccountType? && r.scopeValue == "fx_holder" && p.accountType != "fx_holder")
  }

  /** Rule i is the first that the test picks out. */
  predicate FirstOf(rules: seq<Rule>, i: int, test: Rule -> bool) {
    0 <= i < |rules| && test(rules[i]) && forall j :: 0 <= j < i ==> !test(rules[j])
  }

  predicate Any(rules: seq<Rule>, test: Rule -> bool) { exists i :: 0 <= i < |rules| && test(rules[i]) }

  /** The order of precedence: a rule for the currency beats one for the account type, that one beats one for
      the KYC level, and that one a global rule; among equals the first in the list decides, and without any
      none does. */
  lemma Precedence(rules: seq<Rule>, p: Person, currency: string)
    ensures var b := Best(rules, p, currency);
            var money, account, level, all := (r: Rule) => ForCurrency(r, currency), (r: Rule) => ForAccount(r, p),
                                              (r: Rule) => ForLevel(r, p), (r: Rule) => r.scope.Global?;
            if Any(rules, money) then b.Some? && FirstOf(rules, b.value, money)
            else if Any(rules, account) then b.Some? && FirstOf(rules, b.value, account)
            else if Any(rules, level) then b.Some? && FirstOf(rules, b.value, level)
            else if Any(rules, all) then b.Some? && FirstOf(rules, b.value, all)
            else b.None?
  {
    BestIsFirstTop(rules, p, currency);
    assert forall i :: 0 <= i < |rules| ==> rules[i] in rules;
  }

  /** A signed decimal number that fits in 64 bits. */
  function ParseInt(s: string): Option<int> {
    var digits := if s != "" && (s[0] == '+' || s[0] == '-') then s[1..] else s;
    if digits == "" || !Decimal.AllDigits(digits) then None
    else
      var v := if s[0] == '-' then 0 - Decimal.Value(digits) else Decimal.Value(digits);
      if -0x8000_0000_0000_0000 <= v < 0x8000_0000_0000_0000 then Some(v) else None
  }

  lemma ParseSigned(t: string)
    requires t != "" && Decimal.AllDigits(t)
    ensures ParseInt("+" + t) == (if Decimal.Value(t) < 0x8000_0000_0000_0000 then Some(Decimal.Value(t)) else None)
    ensures ParseInt("-" + t) == (if Decimal.Value(t) <= 0x8000_0000_0000_0000 then Some(0 - Decimal.Value(t)) else None)
  {
    assert ("+" + t)[1..] == t && ("-" + t)[1..] == t;
  }

  /** Reading back what was written: every number of 64 bits, with or without a sign, and no larger one. */
  lemma ParseReads(n: nat)
    ensures ParseInt(Decimal.Text(n)) == (if n < 0x8000_0000_0000_0000 then Some(n) else None)
    ensures ParseInt("+" + Decimal.Text(n)) == (if n < 0x8000_0000_0000_0000 then Some(n) else None)
    ensures ParseInt("-" + Decimal.Text(n)) == (if n <= 0x8000_0000_0000_0000 then Some(0 - n) else None)
  {
    var t := Decimal.Text(n);
    assert Decimal.IsDigit(t[0]);
    ParseSigned(t);
  }

  type Rulebook = map<string, seq<Rule>>

  function RulesFor(book: Rulebook, key: string): seq<Rule> { if key in book then book[key] else [] }

  /** GetAmountLimit; None is any error. */
  function AmountLimit(book: Rulebook, key: string, p: Person, currency: string): Option<int> {
    var v := BestValue(RulesFor(book, key), p, currency);
    if v == None then None else ParseInt(v.value)
  }

  function Enabled(book: Rulebook, key: string, p: Person): bool { BestValue(RulesFor(book, key), p, "") == Some("true") }

  // ---------------------------------------------------------------- totals

  /** Months are numbered through; a date orders by month, then day. */
  datatype Date = Date(month: int, day: int)

  datatype Slot = Slot(user: string, currency: string, direction: string, date: Date)

  type Totals = map<Slot, int>

  function DailyTotal(t: Totals, s: Slot): int { if s in t then t[s] else 0 }

  /** The rows GetMonthlyTotal adds up: those dated in this month or later. */
  function MonthRows(t: Totals, user: string, currency: string, direction: string, month: int): Totals {
    map s | s in t && s.user == user && s.currency == currency && s.direction == direction && s.date.month >= month :: t[s]
  }

  ghost function MonthlyTotal(t: Totals, user: string, currency: string, direction: string, month: int): int {
    Sums.Total(MonthRows(t, user, currency, direction, month))
  }

  function Booked(t: Totals, s: Slot, amount: int): Totals { t[s := DailyTotal(t, s) + amount] }

  // ---------------------------------------------------------------- the transfer check

  const DAILY_LIMIT := "daily_transfer_limit"
  const MONTHLY_CAP := "outbound_remittance_monthly_cap"
  const ADVANCE_CAP := "advance_payment_medical_education_cap"
  const INVESTMENT_ENABLED := "outbound_investment_enabled"
  const DOC_THRESHOLD := "outbound_remittance_doc_threshold"
  const OUTBOUND := "outbound"
  const CARD_ABROAD := "card_international"
  const USD := "USD"
  const ETB := "ETB"
  const DOMESTIC := "domestic"
  const MEDICAL := "medical"
  const EDUCATION := "education"
  const INVESTMENT := "investment"
  const GENERAL := "general"

  /** `rate` is the mid-market rate from the currency to US dollars, if the provider has one. */
  datatype Transfer = Transfer(
    user: string, person: Person, direction: string, amount: int, currency: string, purpose: string, destination: string,
    rate: Option<real>)

  datatype Error =
    DailyLimitExceeded | RemittanceCapExceeded | TransferBlocked | KycInsufficient | InvestmentNotEnabled | DocumentRequired | NoRate

  function InDollars(r: Transfer): Option<int> {
    if r.currency == USD then Some(r.amount)
    else if r.rate == None then None
    else Some(Round(r.amount as real * r.rate.value))
  }

  /** A limit that cannot be resolved, or that is not positive, is switched off. */
  function Active(limit: Option<int>): Option<int> { if limit.Some? && limit.value > 0 then limit else None }

  function Daily(book: Rulebook, total: int, r: Transfer): Option<Error> {
    var limit := Active(AmountLimit(book, DAILY_LIMIT, r.person, r.currency));
    if limit.Some? && total + r.amount > limit.value then Some(DailyLimitExceeded) else None
  }

  /** A dollar amount held against a limit that is switched on. */
  function Held(limit: Option<int>, base: int, dollars: Option<int>, error: Error): Option<Error> {
    if limit == None then None
    else if dollars == None then Some(NoRate)
    else if base + dollars.value > limit.value then Some(error)
    else None
  }

  /** The monthly cap is held against the dollar rows whatever the currency of the transfer. */
  function Monthly(book: Rulebook, total: int, r: Transfer): Option<Error> {
    if r.direction != OUTBOUND && r.direction != CARD_ABROAD then None
    else Held(Active(AmountLimit(book, MONTHLY_CAP, r.person, r.currency)), total, InDollars(r), RemittanceCapExceeded)
  }

  function Advance(book: Rulebook, r: Transfer): Option<Error> {
    if r.purpose != MEDICAL && r.purpose != EDUCATION then None
    else Held(Active(AmountLimit(book, ADVANCE_CAP, r.person, USD)), 0, InDollars(r), TransferBlocked)
  }

  predicate Abroad(r: Transfer) { r.direction == OUTBOUND && r.destination != "" && r.destination != DOMESTIC }

  function Place(r: Transfer): Option<Error> {
    if Abroad(r) && r.currency == ETB then Some(TransferBlocked)
    else if Abroad(r) && r.person.kyc < 2 then Some(KycInsufficient)
    else None
  }

  function Investing(book: Rulebook, r: Transfer): Option<Error> {
    if r.purpose == INVESTMENT && !Enabled(book, INVESTMENT_ENABLED, r.person) then Some(InvestmentNotEnabled) else None
  }

  /** Above the threshold only a general transfer needs documents, but every one needs a rate. */
  function Documents(book: Rulebook, r: Transfer): Option<Error> {
    var e := Held(Active(AmountLimit(book, DOC_THRESHOLD, r.person, USD)), 0, InDollars(r), DocumentRequired);
    if r.direction != OUTBOUND || (e == Some(DocumentRequired) && r.purpose != GENERAL) then None else e
  }

  function Or(a: Option<Error>, b: Option<Error>): Option<Error> { if a.Some? then a else b }

  /** The rules in order; the first that objects decides. */
  function Verdict(book: Rulebook, daily: int, monthly: int, r: Transfer): Option<Error> {
    Or(Daily(book, daily, r), Or(Monthly(book, monthly, r), Or(Advance(book, r), Or(Place(r), Or(Investing(book, r), Documents(book, r))))))
  }

  /** A total and an amount within a limit; a limit that is absent or not positive bars nothing. */
  predicate Within(limit: Option<int>, amount: int) { limit.Some? && limit.value > 0 ==> amount <= limit.value }

  /** The same for the transfer in dollars, which must then have a rate. */
  predicate WithinDollars(limit: Option<int>, base: int, r: Transfer) {
    limit.Some? && limit.value > 0 ==> InDollars(r).Some? && base + InDollars(r).value <= limit.value
  }

  predicate DailyFine(book: Rulebook, daily: int, r: Transfer) {
    Within(AmountLimit(book, "daily_transfer_limit", r.person, r.currency), daily + r.amount)
  }

  /** The cap is for outbound transfers and card payments abroad. */
  predicate CapFine(book: Rulebook, monthly: int, r: Transfer) {
    r.direction in {"outbound", "card_international"} ==>
      WithinDollars(AmountLimit(book, "outbound_remittance_monthly_cap", r.person, r.currency), monthly, r)
  }

  predicate AdvanceFine(book: Rulebook, r: Transfer) {
    r.purpose in {"medical", "education"} ==>
      WithinDollars(AmountLimit(book, "advance_payment_medical_education_cap", r.person, "USD"), 0, r)
  }

  predicate GoesAbroad(r: Transfer) { r.direction == "outbound" && r.destination !in {"", "domestic"} }

  predicate InvestmentFine(book: Rulebook, r: Transfer) {
    r.purpose == "investment" ==> BestValue(RulesFor(book, "outbound_investment_enabled"), r.person, "") == Some("true")
  }

  /** Without documents an outbound transfer must have a rate, and a general one stay below the threshold. */
  predicate PapersFine(book: Rulebook, r: Transfer) {
    var limit := AmountLimit(book, "outbound_remittance_doc_threshold", r.person, "USD");
    r.direction == "outbound" && limit.Some? && limit.value > 0 ==>
      InDollars(r).Some? && (r.purpose == "general" ==> InDollars(r).value <= limit.value)
  }

  /** A transfer is allowed exactly when the day's total, the monthly cap and the advance cap have room for it,
      birr stays in the country, whoever sends money abroad is verified, investing is switched on where it is
      one, and no papers are missing. */
  lemma AllowedExactly(book: Rulebook, daily: int, monthly: int, r: Transfer)
    ensures Verdict(book, daily, monthly, r).None? <==>
            && DailyFine(book, daily, r) && CapFine(book, monthly, r) && AdvanceFine(book, r)
            && (GoesAbroad(r) ==> r.currency != "ETB" && r.person.kyc >= 2)
            && InvestmentFine(book, r) && PapersFine(book, r)
  {}

  /** Which limit is named: the first that has no room, or the missing rate. */
  lemma RefusedByLimit(book: Rulebook, daily: int, monthly: int, r: Transfer)
    ensures var v := Verdict(book, daily, monthly, r);
            && (!DailyFine(book, daily, r) ==> v == Some(DailyLimitExceeded))
            && (DailyFine(book, daily, r) && !CapFine(book, monthly, r) ==>
                  v == Some(if InDollars(r).None? then NoRate else RemittanceCapExceeded))
            && (DailyFine(book, daily, r) && CapFine(book, monthly, r) && !AdvanceFine(book, r) ==>
                  v == Some(if InDollars(r).None? then NoRate else TransferBlocked))
  {}

  /** And within the limits: the first of the other rules that is not met. */
  lemma RefusedByRule(book: Rulebook, daily: int, monthly: int, r: Transfer)
    requires DailyFine(book, daily, r) && CapFine(book, monthly, r) && AdvanceFine(book, r)
    ensures Verdict(book, daily, monthly, r) ==
            if GoesAbroad(r) && r.currency == "ETB" then Some(TransferBlocked)
            else if GoesAbroad(r) && r.person.kyc < 2 then Some(KycInsufficient)
            else if !InvestmentFine(book, r) then Some(InvestmentNotEnabled)
            else if !PapersFine(book, r) then Some(if InDollars(r).None? then NoRate else DocumentRequired)
            else None
  {}

  /** Whether the two total queries answer; one that fails reads as zero, and the check goes on. */
  datatype Queries = Queries(daily: bool, monthly: bool)

  ghost function Checked(book: Rulebook, t: Totals, r: Transfer, today: Date, answers: Queries): Option<Error> {
    Verdict(book,
            if answers.daily then DailyTotal(t, Slot(r.user, r.currency, r.direction, today)) else 0,
            if answers.monthly then MonthlyTotal(t, r.user, USD, r.direction, today.month) else 0, r)
  }

  // ---------------------------------------------------------------- the service

  const RULES := "neo:rules:"

  function RuleKey(key: string): string { RULES + key }

  lemma RuleKeyInjective(a: string, b: string)
    ensures RuleKey(a) == RuleKey(b) ==> a == b
  {
    assert RuleKey(a)[|RULES|..] == a && RuleKey(b)[|RULES|..] == b;
  }

  class Service {
    const cache: MemoryCache<seq<Rule>>
    const ttl: int
    var book: Rulebook
    var totals: Totals

    /** Whatever is cached, expired or not, is what the rule table has. */
    ghost predicate Valid()
      reads this, cache
    {
      forall key :: RuleKey(key) in cache.items ==> cache.items[RuleKey(key)].value == Some(RulesFor(book, key))
    }

    constructor (cache: MemoryCache<seq<Rule>>, ttl: int, book: Rulebook)
      requires cache.items == map[]
      ensures Valid() && this.cache == cache && this.book == book && totals == map[]
    {
      this.cache := cache;
      this.ttl := ttl;
      this.book := book;
      this.totals := map[];
    }

    method EffectiveRules(key: string, now: int) returns (rules: seq<Rule>)
      requires Valid()
      modifies cache
      ensures Valid() && rules == RulesFor(book, key)
      ensures Lookup(cache.items, RuleKey(key), now) == Some(rules)
    {
      var hit := cache.Get(RuleKey(key), now);
      if hit.Some? { return hit.value; }
      rules := RulesFor(book, key);
      ghost var before := cache.items;
      cache.Set(RuleKey(key), rules, ttl, now);
      forall k | RuleKey(k) in cache.items
        ensures cache.items[RuleKey(k)].value == Some(RulesFor(book, k))
      {
        RuleKeyInjective(k, key);
      }
    }

    /** Rules change through the administration interface, which then clears the cache. */
    method ReplaceRules(book: Rulebook)
      modifies this, cache
      ensures Valid() && this.book == book && totals == old(totals)
    {
      this.book := book;
      cache.DeleteByPrefix(RULES);
      forall k ensures RuleKey(k) !in cache.items {
        assert HasPrefix(RuleKey(k), RULES) by { assert RuleKey(k)[..|RULES|] == RULES; }
      }
    }

    method BestRule(rules: seq<Rule>, p: Person, currency: string) returns (best: Option<Rule>)
      ensures best == None <==> forall r :: r in rules ==> !Matches(r, p, currency)
      ensures best.Some? ==> exists i :: FirstTop(rules, i, p, currency) && rules[i] == best.value
      ensures BestValue(rules, p, currency) == if best == None then None else Some(best.value.value)
    {
      best := None;
      var bestPriority := -1;
      for i := 0 to |rules|
        invariant best == None <==> Best(rules[..i], p, currency) == None
        invariant best.Some? ==> best.value == rules[Best(rules[..i], p, currency).value]
        invariant bestPriority == if best == None then -1 else Priority(best.value, p, currency)
      {
        assert rules[..i + 1][..i] == rules[..i];
        var priority := Priority(rules[i], p, currency);
        if priority > bestPriority {
          best := Some(rules[i]);
          bestPriority := priority;
        }
      }
      assert rules[..|rules|] == rules;
      BestIsFirstTop(rules, p, currency);
    }

    method GetAmountLimit(key: string, p: Person, currency: string, now: int) returns (limit: Option<int>)
      requires Valid()
      modifies cache
      ensures Valid() && limit == AmountLimit(book, key, p, currency)
    {
      var rules := EffectiveRules(key, now);
      var best := BestRule(rules, p, currency);
      if best == None { return None; }
      limit := ParseInt(best.value.value);
    }

    method IsEnabled(key: string, p: Person, now: int) returns (on: bool)
      requires Valid()
      modifies cache
      ensures Valid() && on == Enabled(book, key, p)
    {
      var rules := EffectiveRules(key, now);
      var best := BestRule(rules, p, "");
      if best == None { return false; }
      on := best.value.value == "true";
    }

    /** A query that fails, or finds no row, reads as zero. */
    method GetDailyTotal(slot: Slot, answers: bool) returns (total: int)
      ensures total == if answers then DailyTotal(totals, slot) else 0
    {
      if !answers || slot !in totals { return 0; }
      total := totals[slot];
    }

    method GetMonthlyTotal(user: string, currency: string, direction: string, month: int, answers: bool) returns (sum: int)
      ensures sum == if answers then MonthlyTotal(totals, user, currency, direction, month) else 0
    {
      if !answers { return 0; }
      var rows := MonthRows(totals, user, currency, direction, month);
      sum := 0;
      while rows != map[]
        invariant sum + Sums.Total(rows) == MonthlyTotal(totals, user, currency, direction, month)
        decreases |rows|
      {
        var s :| s in rows;
        Sums.TotalWithout(rows, s);
        sum := sum + rows[s];
        rows := rows - {s};
      }
    }

    method Increment(slot: Slot, amount: int)
      modifies this`totals
      ensures totals == Booked(old(totals), slot, amount)
    {
      totals := totals[slot := if slot in totals then totals[slot] + amount else amount];
    }

    method CheckTransferAllowed(r: Transfer, today: Date, answers: Queries, now: int) returns (error: Option<Error>)
      requires Valid()
      modifies cache
      ensures Valid() && error == Checked(book, totals, r, today, answers)
    {
      error := CheckDaily(r, today, answers.daily, now);
      if error.Some? { return; }
      error := CheckMonthly(r, today, answers.monthly, now);
      if error.Some? { return; }
      error := CheckAdvance(r, now);
      if error.Some? { return; }
      if r.currency == ETB && r.destination != "" && r.destination != DOMESTIC && r.direction == OUTBOUND {
        return Some(TransferBlocked);
      }
      if r.direction == OUTBOUND && r.destination != DOMESTIC && r.destination != "" {
        if r.person.kyc < 2 { return Some(KycInsufficient); }
      }
      if r.purpose == INVESTMENT {
        var on := IsEnabled(INVESTMENT_ENABLED, r.person, now);
        if !on { return Some(InvestmentNotEnabled); }
      }
      error := CheckDocuments(r, now);
    }

    method CheckDaily(r: Transfer, today: Date, answers: bool, now: int) returns (error: Option<Error>)
      requires Valid()
      modifies cache
      ensures Valid() && error == Daily(book, if answers then DailyTotal(totals, Slot(r.user, r.currency, r.direction, today)) else 0, r)
    {
      var limit := GetAmountLimit(DAILY_LIMIT, r.person, r.currency, now);
      if limit.Some? && limit.value > 0 {
        var total := GetDailyTotal(Slot(r.user, r.currency, r.direction, today), answers);
        if total + r.amount > limit.value { return Some(DailyLimitExceeded); }
      }
      error := None;
    }

    method CheckMonthly(r: Transfer, today: Date, answers: bool, now: int) returns (error: Option<Error>)
      requires Valid()
      modifies cache
      ensures Valid() && error == Monthly(book, if answers then MonthlyTotal(totals, r.user, USD, r.direction, today.month) else 0, r)
    {
      if r.direction == OUTBOUND || r.direction == CARD_ABROAD {
        var limit := GetAmountLimit(MONTHLY_CAP, r.person, r.currency, now);
        if limit.Some? && limit.value > 0 {
          var total := GetMonthlyTotal(r.user, USD, r.direction, today.month, answers);
          var dollars := InDollars(r);
          if dollars == None { return Some(NoRate); }
          if total + dollars.value > limit.value { return Some(RemittanceCapExceeded); }
        }
      }
      error := None;
    }

    method CheckAdvance(r: Transfer, now: int) returns (error: Option<Error>)
      requires Valid()
      modifies cache
      ensures Valid() && error == Advance(book, r)
    {
      if r.purpose == MEDICAL || r.purpose == EDUCATION {
        var limit := GetAmountLimit(ADVANCE_CAP, r.person, USD, now);
        if limit.Some? && limit.value > 0 {
          var dollars := InDollars(r);
          if dollars == None { return Some(NoRate); }
          if dollars.value > limit.value { return Some(TransferBlocked); }
        }
      }
      error := None;
    }

    method CheckDocuments(r: Transfer, now: int) returns (error: Option<Error>)
      requires Valid()
      modifies cache
      ensures Valid() && error == Documents(book, r)
    {
      if r.direction == OUTBOUND {
        var limit := GetAmountLimit(DOC_THRESHOLD, r.person, USD, now);
        if limit.Some? && limit.value > 0 {
          var dollars := InDollars(r);
          if dollars == None { return Some(NoRate); }
          if dollars.value > limit.value && r.purpose == GENERAL { return Some(DocumentRequired); }
        }
      }
      error := None;
    }
  }
}

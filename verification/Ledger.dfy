/** The double-entry ledger behind internal/ledger/formance.go. The remote ledger is replaced by
    one atomic posting operation; the balance checks the client itself performs are kept. */
module Ledger {
  import opened Common
  import opened Chart
  import Sums

  datatype Posting = Posting(source: Account, destination: Account, amount: int, asset: string)
  datatype Slot = Slot(account: Account, asset: string)
  type Balances = map<Slot, int>

  /** Metadata the client writes on a hold account. */
  datatype HoldMeta = HoldMeta(walletID: string, asset: string, transit: Account)

  datatype Books = Books(balances: Balances, log: seq<seq<Posting>>, holds: map<string, HoldMeta>)

  /** New books, and whether the caller was told that the call succeeded. */
  datatype Reply = Reply(books: Books, ok: bool)

  function Bal(b: Balances, a: Account, asset: string): int {
    if Slot(a, asset) in b then b[Slot(a, asset)] else 0
  }

  /** Only the world account may go below zero, and no amount may be negative. */
  predicate Covered(b: Balances, p: Posting) {
    p.amount >= 0 && (p.source == World || Bal(b, p.source, p.asset) >= p.amount)
  }

  function Move(b: Balances, p: Posting): Balances {
    var debited := b[Slot(p.source, p.asset) := Bal(b, p.source, p.asset) - p.amount];
    debited[Slot(p.destination, p.asset) := Bal(debited, p.destination, p.asset) + p.amount]
  }

  /** All postings of a transaction in order, or nothing at all. */
  function Apply(b: Balances, tx: seq<Posting>): Option<Balances>
    decreases |tx|
  {
    if tx == [] then Some(b)
    else if !Covered(b, tx[0]) then None
    else Apply(Move(b, tx[0]), tx[1..])
  }

  /** createTransaction: the ledger applies the transaction unless the call is dropped on the way
      or a posting is not covered; the client hears of it only when the reply is not lost. */
  function Submit(b: Books, tx: seq<Posting>, d: Delivery): Reply {
    var after := Apply(b.balances, tx);
    if d.Dropped? || after.None? then Reply(b, false)
    else Reply(b.(balances := after.value, log := b.log + [tx]), d.Acked?)
  }

  predicate Lands(b: Books, tx: seq<Posting>, d: Delivery) {
    !d.Dropped? && Apply(b.balances, tx).Some?
  }

  predicate Reaches(tx: seq<Posting>, a: Account) {
    exists i :: 0 <= i < |tx| && tx[i].destination == a
  }

  /** Transactions with a posting into the given account, oldest first. */
  function Inbound(log: seq<seq<Posting>>, a: Account): seq<seq<Posting>> {
    if log == [] then []
    else
      var last := log[|log| - 1];
      Inbound(log[..|log| - 1], a) + (if Reaches(last, a) then [last] else [])
  }

  /** Number of transactions whose first posting leaves the given account. */
  function Departures(log: seq<seq<Posting>>, a: Account): nat {
    if log == [] then 0
    else
      var last := log[|log| - 1];
      Departures(log[..|log| - 1], a) + (if last != [] && last[0].source == a then 1 else 0)
  }

  function HoldTx(walletID: string, holdID: string, amount: int, asset: string): seq<Posting> {
    [Posting(Main(walletID), Hold(holdID), amount, asset)]
  }

  function AfterHold(b: Books, walletID: string, transit: Account, amount: int, asset: string, holdID: string, d: Delivery): Reply {
    var tx := HoldTx(walletID, holdID, amount, asset);
    var r := Submit(b, tx, d);
    if Lands(b, tx, d) then r.(books := r.books.(holds := b.holds[holdID := HoldMeta(walletID, asset, transit)])) else r
  }

  /** What is left in the hold goes to its transit account; a closed hold is refused. The script's
      second send, of whatever remains after that, finds nothing to move and is not modelled. */
  function AfterSettle(b: Books, holdID: string, read: bool, d: Delivery): Reply {
    if !read || holdID !in b.holds then Reply(b, false)
    else
      var meta := b.holds[holdID];
      var remaining := Bal(b.balances, Hold(holdID), meta.asset);
      if remaining <= 0 then Reply(b, false)
      else Submit(b, [Posting(Hold(holdID), meta.transit, remaining, meta.asset)], d)
  }

  /** Each posting of the original transaction is sent back, up to its amount, while funds remain. */
  function Refunds(hold: Account, asset: string, remaining: int, original: seq<Posting>): seq<Posting>
    decreases |original|
  {
    if original == [] then []
    else
      var share := Min(remaining, original[0].amount);
      [Posting(hold, original[0].source, share, asset)] + Refunds(hold, asset, remaining - share, original[1..])
  }

  function AfterVoid(b: Books, holdID: string, list: bool, read: bool, d: Delivery): Reply {
    var txs := Inbound(b.log, Hold(holdID));
    if !list || |txs| != 1 || !read || holdID !in b.holds then Reply(b, false)
    else
      var asset := b.holds[holdID].asset;
      var remaining := Bal(b.balances, Hold(holdID), asset);
      if remaining <= 0 then Reply(b, false)
      else Submit(b, Refunds(Hold(holdID), asset, remaining, txs[0]), d)
  }

  // ---------------------------------------------------------------- what postings preserve

  /** Exactly `amount` of `asset` went from one account to the other; nothing else moved. */
  ghost predicate Shifted(b: Balances, c: Balances, from: Account, to: Account, amount: int, asset: string) {
    forall a, s :: Bal(c, a, s) == Bal(b, a, s)
      - (if a == from && s == asset then amount else 0)
      + (if a == to && s == asset then amount else 0)
  }

  ghost predicate SameBalances(b: Balances, c: Balances) {
    forall a, s :: Bal(c, a, s) == Bal(b, a, s)
  }

  lemma ShiftOn(b: Balances, c: Balances, d: Balances, from: Account, via: Account, to: Account, amount: int, asset: string)
    requires Shifted(b, c, from, via, amount, asset) && Shifted(c, d, via, to, amount, asset)
    ensures Shifted(b, d, from, to, amount, asset)
  {}

  lemma ShiftBack(b: Balances, c: Balances, from: Account, amount: int, asset: string)
    requires Shifted(b, c, from, from, amount, asset)
    ensures SameBalances(b, c)
  {}

  lemma SubmitOne(b: Books, p: Posting, d: Delivery)
    ensures Lands(b, [p], d) <==> !d.Dropped? && Covered(b.balances, p)
    ensures Submit(b, [p], d) ==
            if Lands(b, [p], d) then Reply(b.(balances := Move(b.balances, p), log := b.log + [[p]]), d.Acked?)
            else Reply(b, false)
    ensures Lands(b, [p], d) ==> Shifted(b.balances, Move(b.balances, p), p.source, p.destination, p.amount, p.asset)
  {
    assert Apply(Move(b.balances, p), [p][1..]) == Some(Move(b.balances, p));
  }

  lemma ApplyTwo(b: Balances, p: Posting, q: Posting)
    ensures Apply(b, [p, q]) == if Covered(b, p) && Covered(Move(b, p), q) then Some(Move(Move(b, p), q)) else None
  {
    assert [p, q][1..] == [q] && [q][1..] == [];
    assert Apply(Move(b, p), [q]) == if Covered(Move(b, p), q) then Apply(Move(Move(b, p), q), []) else None;
  }

  /** No account but the world is ever overdrawn. */
  predicate Solvent(b: Balances) {
    forall k :: k in b && k.account != World ==> b[k] >= 0
  }

  ghost function OfAsset(b: Balances, asset: string): map<Slot, int> {
    map k | k in b && k.asset == asset :: b[k]
  }

  lemma OfAssetUpdate(b: Balances, k: Slot, v: int, asset: string)
    ensures OfAsset(b[k := v], asset) == if k.asset == asset then OfAsset(b, asset)[k := v] else OfAsset(b, asset)
  {}

  lemma MoveBalances(b: Balances, p: Posting, asset: string)
    ensures Sums.Total(OfAsset(Move(b, p), asset)) == Sums.Total(OfAsset(b, asset))
  {
    var s, t := Slot(p.source, p.asset), Slot(p.destination, p.asset);
    var debited := b[s := Bal(b, p.source, p.asset) - p.amount];
    OfAssetUpdate(b, s, Bal(b, p.source, p.asset) - p.amount, asset);
    OfAssetUpdate(debited, t, Bal(debited, p.destination, p.asset) + p.amount, asset);
    if p.asset == asset {
      Sums.TotalUpdate(OfAsset(b, asset), s, Bal(b, p.source, p.asset) - p.amount);
      Sums.TotalUpdate(OfAsset(debited, asset), t, Bal(debited, p.destination, p.asset) + p.amount);
    }
  }

  /** Double entry: a transaction, whatever its postings, leaves every asset's grand total alone
      and overdraws nobody but the world. */
  lemma {:induction false} ApplyConserves(b: Balances, tx: seq<Posting>, asset: string)
    requires Apply(b, tx).Some?
    ensures Sums.Total(OfAsset(Apply(b, tx).value, asset)) == Sums.Total(OfAsset(b, asset))
    ensures Solvent(b) ==> Solvent(Apply(b, tx).value)
    decreases |tx|
  {
    if tx != [] {
      MoveBalances(b, tx[0], asset);
      ApplyConserves(Move(b, tx[0]), tx[1..], asset);
    }
  }

  // ---------------------------------------------------------------- life of one hold

  /** Nothing has ever been sent to this hold account. */
  ghost predicate Unused(b: Books, holdID: string) {
    holdID !in b.holds && Inbound(b.log, Hold(holdID)) == [] && Departures(b.log, Hold(holdID)) == 0
    && forall s :: Bal(b.balances, Hold(holdID), s) == 0
  }

  /** The hold was funded once, with `amount`, and `left` of it is still there. */
  ghost predicate Funded(b: Books, holdID: string, meta: HoldMeta, amount: int, left: int) {
    holdID in b.holds && b.holds[holdID] == meta
    && Inbound(b.log, Hold(holdID)) == [HoldTx(meta.walletID, holdID, amount, meta.asset)]
    && (forall s :: Bal(b.balances, Hold(holdID), s) == if s == meta.asset then left else 0)
  }

  lemma LogGrows(log: seq<seq<Posting>>, p: Posting, a: Account)
    ensures Inbound(log + [[p]], a) == Inbound(log, a) + if p.destination == a then [[p]] else []
    ensures Departures(log + [[p]], a) == Departures(log, a) + if p.source == a then 1 else 0
  {
    assert (log + [[p]])[..|log|] == log;
    assert Reaches([p], a) <==> p.destination == a by {
      if p.destination == a { assert [p][0].destination == a; }
    }
  }

  lemma HoldOpens(b: Books, walletID: string, transit: Account, amount: int, asset: string, holdID: string, d: Delivery)
    requires Unused(b, holdID)
    ensures var r := AfterHold(b, walletID, transit, amount, asset, holdID, d);
            var landed := !d.Dropped? && 0 <= amount <= Bal(b.balances, Main(walletID), asset);
            && r.ok == (landed && d.Acked?)
            && (!landed ==> r.books == b)
            && (landed ==>
                  && Shifted(b.balances, r.books.balances, Main(walletID), Hold(holdID), amount, asset)
                  && r.books.log == b.log + [HoldTx(walletID, holdID, amount, asset)]
                  && r.books.holds == b.holds[holdID := HoldMeta(walletID, asset, transit)]
                  && Funded(r.books, holdID, HoldMeta(walletID, asset, transit), amount, amount)
                  && Departures(r.books.log, Hold(holdID)) == 0)
  {
    var p := Posting(Main(walletID), Hold(holdID), amount, asset);
    SubmitOne(b, p, d);
    LogGrows(b.log, p, Hold(holdID));
  }

  /** An open hold is emptied by one settlement that lands; a closed one refuses every further call. */
  lemma SettleOnce(b: Books, holdID: string, meta: HoldMeta, amount: int, left: int, read: bool, d: Delivery)
    requires Funded(b, holdID, meta, amount, left) && (left == 0 || left == amount) && meta.transit != Hold(holdID)
    ensures var r := AfterSettle(b, holdID, read, d);
            var landed := read && !d.Dropped? && left > 0;
            && r.ok == (landed && d.Acked?)
            && (!landed ==> r.books == b)
            && (landed ==>
                  && Shifted(b.balances, r.books.balances, Hold(holdID), meta.transit, amount, meta.asset)
                  && r.books.log == b.log + [[Posting(Hold(holdID), meta.transit, amount, meta.asset)]]
                  && r.books.holds == b.holds
                  && Funded(r.books, holdID, meta, amount, 0)
                  && Departures(r.books.log, Hold(holdID)) == Departures(b.log, Hold(holdID)) + 1)
  {
    var p := Posting(Hold(holdID), meta.transit, left, meta.asset);
    SubmitOne(b, p, d);
    LogGrows(b.log, p, Hold(holdID));
  }

  lemma VoidOnce(b: Books, holdID: string, meta: HoldMeta, amount: int, left: int, list: bool, read: bool, d: Delivery)
    requires Funded(b, holdID, meta, amount, left) && (left == 0 || left == amount)
    ensures var r := AfterVoid(b, holdID, list, read, d);
            var landed := list && read && !d.Dropped? && left > 0;
            && r.ok == (landed && d.Acked?)
            && (!landed ==> r.books == b)
            && (landed ==>
                  && Shifted(b.balances, r.books.balances, Hold(holdID), Main(meta.walletID), amount, meta.asset)
                  && r.books.log == b.log + [[Posting(Hold(holdID), Main(meta.walletID), amount, meta.asset)]]
                  && r.books.holds == b.holds
                  && Funded(r.books, holdID, meta, amount, 0)
                  && Departures(r.books.log, Hold(holdID)) == Departures(b.log, Hold(holdID)) + 1)
  {
    var original := HoldTx(meta.walletID, holdID, amount, meta.asset);
    var p := Posting(Hold(holdID), Main(meta.walletID), left, meta.asset);
    if left > 0 {
      assert Refunds(Hold(holdID), meta.asset, left, original) == [p];
    }
    SubmitOne(b, p, d);
    LogGrows(b.log, p, Hold(holdID));
  }

  /** A transaction that does not touch the hold account leaves its record alone. */
  lemma FundedElsewhere(b: Books, c: Books, p: Posting, holdID: string, meta: HoldMeta, amount: int, left: int)
    requires Funded(b, holdID, meta, amount, left)
    requires c.log == b.log + [[p]] && Shifted(b.balances, c.balances, p.source, p.destination, p.amount, p.asset)
    requires p.source != Hold(holdID) && p.destination != Hold(holdID)
    requires holdID in c.holds && c.holds[holdID] == meta
    ensures Funded(c, holdID, meta, amount, left)
  {
    LogGrows(b.log, p, Hold(holdID));
  }

  // ---------------------------------------------------------------- the client object

  class Client {
    var balances: Balances
    var log: seq<seq<Posting>>
    var holds: map<string, HoldMeta>

    ghost function State(): Books
      reads this
    {
      Books(balances, log, holds)
    }

    constructor ()
      ensures State() == Books(map[], [], map[])
    {
      balances, log, holds := map[], [], map[];
    }

    /** accountBalance: what came in less what went out. */
    method GetAccountBalance(a: Account, asset: string) returns (r: int)
      ensures r == Bal(State().balances, a, asset)
    {
      r := if Slot(a, asset) in balances then balances[Slot(a, asset)] else 0;
    }

    method CreateTransaction(tx: seq<Posting>, d: Delivery) returns (ok: bool)
      modifies this
      ensures Reply(State(), ok) == Submit(old(State()), tx, d)
    {
      if d.Dropped? { return false; }
      var working := balances;
      for i := 0 to |tx|
        invariant Apply(old(balances), tx) == Apply(working, tx[i..])
      {
        var p := tx[i];
        if !Covered(working, p) { return false; }
        working := Move(working, p);
        assert tx[i..][1..] == tx[i + 1..];
      }
      balances := working;
      log := log + [tx];
      ok := d.Acked?;
    }

    method HoldFunds(walletID: string, transit: Account, amount: int, asset: string, holdID: string, d: Delivery)
      returns (ok: bool)
      modifies this
      ensures Reply(State(), ok) == AfterHold(old(State()), walletID, transit, amount, asset, holdID, d)
    {
      var tx := HoldTx(walletID, holdID, amount, asset);
      var before := |log|;
      ok := CreateTransaction(tx, d);
      if |log| > before {
        holds := holds[holdID := HoldMeta(walletID, asset, transit)];
      }
    }

    method SettleHold(holdID: string, read: bool, d: Delivery) returns (ok: bool)
      modifies this
      ensures Reply(State(), ok) == AfterSettle(old(State()), holdID, read, d)
    {
      if !read || holdID !in holds { return false; }
      var meta := holds[holdID];
      var remaining := GetAccountBalance(Hold(holdID), meta.asset);
      if remaining <= 0 { return false; }
      ok := CreateTransaction([Posting(Hold(holdID), meta.transit, remaining, meta.asset)], d);
    }

    method VoidHold(holdID: string, list: bool, read: bool, d: Delivery) returns (ok: bool)
      modifies this
      ensures Reply(State(), ok) == AfterVoid(old(State()), holdID, list, read, d)
    {
      if !list { return false; }
      var txs := Inbound(log, Hold(holdID));
      if |txs| != 1 { return false; }
      if !read || holdID !in holds { return false; }
      var asset := holds[holdID].asset;
      var remaining := GetAccountBalance(Hold(holdID), asset);
      if remaining <= 0 { return false; }
      var tx := [];
      var left := remaining;
      for i := 0 to |txs[0]|
        invariant Refunds(Hold(holdID), asset, remaining, txs[0]) == tx + Refunds(Hold(holdID), asset, left, txs[0][i..])
      {
        var share := Min(left, txs[0][i].amount);
        tx := tx + [Posting(Hold(holdID), txs[0][i].source, share, asset)];
        left := left - share;
        assert txs[0][i..][1..] == txs[0][i + 1..];
      }
      assert tx + Refunds(Hold(holdID), asset, left, []) == tx;
      ok := CreateTransaction(tx, d);
    }
  }
}

/** Outbound transfers: hold, transmit, then settle or void with retries
    (ProcessOutboundTransfer and retryLedgerOp of internal/services/payments/service.go). */
module Outbound {
  import opened Common
  import opened Chart
  import opened Ledger

  /** What came back from EthSwitch: a transport error, status SUCCESS, or any other status. */
  datatype SwitchReply = TransportError | Success | Rejected

  datatype Phase = Settling | Voiding

  /** One pass of the retry loop: whether the look-ups before the posting answer, what happens to
      the posting, and whether the context ends during the pause that follows a failure. */
  datatype Attempt = Attempt(list: bool, read: bool, delivery: Delivery, cancelled: bool)

  /** A request together with everything the outside world decides about it. `cleared` says that
      the user exists, is not frozen and passes the regulatory check. */
  datatype Request = Request(
    cleared: bool, walletID: string, amount: int, asset: string, holdID: string,
    holding: Delivery, reply: SwitchReply, attempts: seq<Attempt>)

  const RETRIES := 3

  function Try(b: Books, holdID: string, phase: Phase, a: Attempt): Reply {
    match phase
    case Settling => AfterSettle(b, holdID, a.read, a.delivery)
    case Voiding => AfterVoid(b, holdID, a.list, a.read, a.delivery)
  }

  function Retry(b: Books, holdID: string, phase: Phase, attempts: seq<Attempt>): Reply
    decreases |attempts|
  {
    if attempts == [] then Reply(b, false)
    else
      var r := Try(b, holdID, phase, attempts[0]);
      if r.ok || attempts[0].cancelled then r else Retry(r.books, holdID, phase, attempts[1..])
  }

  function AfterOutbound(b: Books, r: Request): Reply {
    if !r.cleared || r.amount <= 0 then Reply(b, false)
    else
      var held := AfterHold(b, r.walletID, TransitEthSwitch, r.amount, r.asset, r.holdID, r.holding);
      if !held.ok || r.reply.TransportError? then Reply(held.books, false)
      else if r.reply.Success? then Retry(held.books, r.holdID, Settling, r.attempts)
      else Reply(Retry(held.books, r.holdID, Voiding, r.attempts).books, false)
  }

  class Service {
    const ledger: Client

    constructor (ledger: Client)
      ensures this.ledger == ledger
    {
      this.ledger := ledger;
    }

    method RetryLedgerOp(holdID: string, phase: Phase, attempts: seq<Attempt>) returns (ok: bool)
      requires |attempts| == 3
      modifies ledger
      ensures Reply(ledger.State(), ok) == Retry(old(ledger.State()), holdID, phase, attempts)
    {
      for i := 0 to RETRIES
        invariant Retry(old(ledger.State()), holdID, phase, attempts) == Retry(ledger.State(), holdID, phase, attempts[i..])
      {
        var a := attempts[i];
        assert attempts[i..][0] == a && attempts[i..][1..] == attempts[i + 1..];
        if phase.Settling? {
          ok := ledger.SettleHold(holdID, a.read, a.delivery);
        } else {
          ok := ledger.VoidHold(holdID, a.list, a.read, a.delivery);
        }
        if ok || a.cancelled { return; }
      }
      ok := false;
    }

    method ProcessOutboundTransfer(r: Request) returns (ok: bool)
      requires |r.attempts| == 3
      modifies ledger
      ensures Reply(ledger.State(), ok) == AfterOutbound(old(ledger.State()), r)
    {
      if !r.cleared || r.amount <= 0 { return false; }
      var held := ledger.HoldFunds(r.walletID, TransitEthSwitch, r.amount, r.asset, r.holdID, r.holding);
      if !held { return false; }
      match r.reply {
        case TransportError =>
          ok := false;
        case Success =>
          ok := RetryLedgerOp(r.holdID, Settling, r.attempts);
        case Rejected =>
          var _ := RetryLedgerOp(r.holdID, Voiding, r.attempts);
          ok := false;
      }
    }
  }

  // ---------------------------------------------------------------- where the money is

  datatype Place = InWallet | InHold | InTransit

  /** The index of the first attempt that reaches the ledger before the loop gives up. */
  function FirstHit(attempts: seq<Attempt>, phase: Phase): Option<nat>
    ensures var i := FirstHit(attempts, phase); i.Some? ==> i.value < |attempts|
    decreases |attempts|
  {
    if attempts == [] then None
    else if attempts[0].read && (phase.Voiding? ==> attempts[0].list) && !attempts[0].delivery.Dropped? then Some(0)
    else if attempts[0].cancelled then None
    else
      var later := FirstHit(attempts[1..], phase);
      if later.Some? then Some(later.value + 1) else None
  }

  function PhaseOf(r: Request): Phase { if r.reply.Success? then Settling else Voiding }

  predicate Held(b: Books, r: Request) {
    r.cleared && !r.holding.Dropped? && 0 < r.amount <= Bal(b.balances, Main(r.walletID), r.asset)
  }

  /** Where the amount ends up, read off the request and the sender's balance alone. */
  function Fate(b: Books, r: Request): Place {
    if !Held(b, r) then InWallet
    else if r.holding.Lost? || r.reply.TransportError? || FirstHit(r.attempts, PhaseOf(r)).None? then InHold
    else if r.reply.Success? then InTransit
    else InWallet
  }

  ghost predicate Resides(b: Balances, c: Balances, r: Request, place: Place) {
    match place
    case InWallet => SameBalances(b, c)
    case InHold => Shifted(b, c, Main(r.walletID), Hold(r.holdID), r.amount, r.asset)
    case InTransit => Shifted(b, c, Main(r.walletID), TransitEthSwitch, r.amount, r.asset)
  }

  lemma PlaceIsUnique(b: Balances, c: Balances, r: Request, p: Place, q: Place)
    requires r.amount > 0 && Resides(b, c, r, p) && Resides(b, c, r, q)
    ensures p == q
  {
    var inHold, inTransit := Bal(c, Hold(r.holdID), r.asset), Bal(c, TransitEthSwitch, r.asset);
    assert inHold == Bal(b, Hold(r.holdID), r.asset) + if p.InHold? then r.amount else 0;
    assert inTransit == Bal(b, TransitEthSwitch, r.asset) + if p.InTransit? then r.amount else 0;
    assert Bal(c, Main(r.walletID), r.asset) == Bal(b, Main(r.walletID), r.asset) - if p.InWallet? then 0 else r.amount;
  }

  lemma {:induction false} RetryClosed(b: Books, holdID: string, phase: Phase, meta: HoldMeta, amount: int, attempts: seq<Attempt>)
    requires Funded(b, holdID, meta, amount, 0) && meta.transit != Hold(holdID)
    ensures Retry(b, holdID, phase, attempts) == Reply(b, false)
    decreases |attempts|
  {
    if attempts != [] {
      var a := attempts[0];
      SettleOnce(b, holdID, meta, amount, 0, a.read, a.delivery);
      VoidOnce(b, holdID, meta, amount, 0, a.list, a.read, a.delivery);
      RetryClosed(b, holdID, phase, meta, amount, attempts[1..]);
    }
  }

  /** Over all retries the hold is emptied at most once, by the first attempt that gets through;
      the caller is told so only if that very attempt is acknowledged. */
  lemma {:induction false} RetryOpen(b: Books, holdID: string, phase: Phase, meta: HoldMeta, amount: int, attempts: seq<Attempt>)
    requires Funded(b, holdID, meta, amount, amount) && amount > 0 && meta.transit != Hold(holdID)
    ensures Retry(b, holdID, phase, attempts) ==
            match FirstHit(attempts, phase)
            case None => Reply(b, false)
            case Some(i) => Reply(Try(b, holdID, phase, attempts[i]).books, attempts[i].delivery.Acked?)
    decreases |attempts|
  {
    if attempts != [] {
      var a, rest := attempts[0], attempts[1..];
      SettleOnce(b, holdID, meta, amount, amount, a.read, a.delivery);
      VoidOnce(b, holdID, meta, amount, amount, a.list, a.read, a.delivery);
      var r := Try(b, holdID, phase, a);
      if FirstHit(attempts, phase) == Some(0) {
        RetryClosed(r.books, holdID, phase, meta, amount, rest);
      } else {
        RetryOpen(b, holdID, phase, meta, amount, rest);
      }
    }
  }

  /** The transaction that takes the amount out of the hold. */
  function Release(r: Request): Posting {
    Posting(Hold(r.holdID), if r.reply.Success? then TransitEthSwitch else Main(r.walletID), r.amount, r.asset)
  }

  /** Once the hold is open and acknowledged, the retry loop does what Fate says. */
  lemma ResolveTrace(b: Books, h: Books, r: Request)
    requires Held(b, r) && r.holding.Acked? && !r.reply.TransportError?
    requires Funded(h, r.holdID, HoldMeta(r.walletID, r.asset, TransitEthSwitch), r.amount, r.amount)
    requires Departures(h.log, Hold(r.holdID)) == 0
    requires Shifted(b.balances, h.balances, Main(r.walletID), Hold(r.holdID), r.amount, r.asset)
    ensures var o, hit := Retry(h, r.holdID, PhaseOf(r), r.attempts), FirstHit(r.attempts, PhaseOf(r));
            && Resides(b.balances, o.books.balances, r, Fate(b, r))
            && o.books.log == h.log + (if hit.Some? then [[Release(r)]] else [])
            && o.books.holds == h.holds
            && Departures(o.books.log, Hold(r.holdID)) == (if hit.Some? then 1 else 0)
            && o.ok == (hit.Some? && r.attempts[hit.value].delivery.Acked?)
  {
    var meta := HoldMeta(r.walletID, r.asset, TransitEthSwitch);
    RetryOpen(h, r.holdID, PhaseOf(r), meta, r.amount, r.attempts);
    FirstHitReaches(r.attempts, PhaseOf(r));
    match FirstHit(r.attempts, PhaseOf(r))
    case None =>
    case Some(i) =>
      var a := r.attempts[i];
      var o := Try(h, r.holdID, PhaseOf(r), a).books;
      if r.reply.Success? {
        SettleOnce(h, r.holdID, meta, r.amount, r.amount, a.read, a.delivery);
        ShiftOn(b.balances, h.balances, o.balances, Main(r.walletID), Hold(r.holdID), TransitEthSwitch, r.amount, r.asset);
      } else {
        VoidOnce(h, r.holdID, meta, r.amount, r.amount, a.list, a.read, a.delivery);
        ShiftOn(b.balances, h.balances, o.balances, Main(r.walletID), Hold(r.holdID), Main(r.walletID), r.amount, r.asset);
        ShiftBack(b.balances, o.balances, Main(r.walletID), r.amount, r.asset);
      }
  }

  /** The books after one run of the protocol. */
  ghost predicate Traced(b: Books, c: Books, r: Request, held: bool, place: Place) {
    && Resides(b.balances, c.balances, r, place) && (!held ==> place.InWallet?)
    && c.log == b.log + (if held then [HoldTx(r.walletID, r.holdID, r.amount, r.asset)] else [])
                      + (if held && place != InHold then [[Release(r)]] else [])
    && c.holds == (if held then b.holds[r.holdID := HoldMeta(r.walletID, r.asset, TransitEthSwitch)] else b.holds)
    && Departures(c.log, Hold(r.holdID)) == (if held && place != InHold then 1 else 0)
  }

  /** A transfer that settles nothing: refused, left on hold, or never acknowledged. */
  lemma UnresolvedTrace(b: Books, r: Request)
    requires Unused(b, r.holdID) && !(Held(b, r) && r.holding.Acked? && !r.reply.TransportError?)
    ensures Traced(b, AfterOutbound(b, r).books, r, Held(b, r), Fate(b, r)) && !AfterOutbound(b, r).ok && !Fate(b, r).InTransit?
  {
    HoldOpens(b, r.walletID, TransitEthSwitch, r.amount, r.asset, r.holdID, r.holding);
  }

  lemma ResolvedTrace(b: Books, r: Request)
    requires Unused(b, r.holdID) && Held(b, r) && r.holding.Acked? && !r.reply.TransportError?
    ensures Traced(b, AfterOutbound(b, r).books, r, true, Fate(b, r))
    ensures AfterOutbound(b, r).ok == (Fate(b, r).InTransit? && r.attempts[FirstHit(r.attempts, Settling).value].delivery.Acked?)
  {
    var h := AfterHold(b, r.walletID, TransitEthSwitch, r.amount, r.asset, r.holdID, r.holding).books;
    HoldOpens(b, r.walletID, TransitEthSwitch, r.amount, r.asset, r.holdID, r.holding);
    ResolveTrace(b, h, r);
    assert AfterOutbound(b, r).books == Retry(h, r.holdID, PhaseOf(r), r.attempts).books;
  }

  /** Everything one run of the protocol does to the books. */
  lemma OutboundTrace(b: Books, r: Request)
    requires Unused(b, r.holdID)
    ensures Traced(b, AfterOutbound(b, r).books, r, Held(b, r), Fate(b, r))
    ensures AfterOutbound(b, r).ok == (Fate(b, r).InTransit? && r.attempts[FirstHit(r.attempts, Settling).value].delivery.Acked?)
  {
    if Held(b, r) && r.holding.Acked? && !r.reply.TransportError? {
      ResolvedTrace(b, r);
    } else {
      UnresolvedTrace(b, r);
    }
  }

  lemma {:induction false} FirstHitReaches(attempts: seq<Attempt>, phase: Phase)
    ensures match FirstHit(attempts, phase)
            case None => true
            case Some(i) => attempts[i].read && (phase.Voiding? ==> attempts[i].list) && !attempts[i].delivery.Dropped?
    decreases |attempts|
  {
    if attempts != [] {
      FirstHitReaches(attempts[1..], phase);
    }
  }

  /** Two-phase safety when acknowledgements may be lost: the amount is in exactly one of wallet,
      hold and transit, leaves the hold at most once, reaches transit only on SUCCESS, comes back
      only on another reply, stays put on a transport error, and nil means it is in transit. */
  lemma OutboundSafety(b: Books, r: Request)
    requires Unused(b, r.holdID)
    ensures var o := AfterOutbound(b, r);
            && Resides(b.balances, o.books.balances, r, Fate(b, r))
            && (forall q :: r.amount > 0 && Resides(b.balances, o.books.balances, r, q) ==> q == Fate(b, r))
            && Departures(o.books.log, Hold(r.holdID)) <= 1
            && (Fate(b, r).InTransit? ==> r.reply.Success?)
            && (Held(b, r) && Fate(b, r).InWallet? ==> r.reply.Rejected?)
            && (Held(b, r) && r.reply.TransportError? ==> Fate(b, r).InHold?)
            && (o.ok ==> Fate(b, r).InTransit?)
  {
    OutboundTrace(b, r);
    var o := AfterOutbound(b, r);
    forall q | r.amount > 0 && Resides(b.balances, o.books.balances, r, q)
      ensures q == Fate(b, r)
    {
      PlaceIsUnique(b.balances, o.books.balances, r, q, Fate(b, r));
    }
  }

  /** The converse of "nil means in transit" fails: a settlement whose acknowledgement is lost is
      reported as an error, because every further attempt finds the hold closed. For a transfer that
      reaches transit, the caller learns of it if and only if no acknowledgement was lost there. */
  lemma SettledButReportedFailed(b: Books, r: Request)
    requires Unused(b, r.holdID) && Fate(b, r).InTransit?
    ensures AfterOutbound(b, r).ok <==> !r.attempts[FirstHit(r.attempts, Settling).value].delivery.Lost?
  {
    OutboundTrace(b, r);
    FirstHitReaches(r.attempts, Settling);
  }

  lemma LostSettlementExample()
    ensures var up := Attempt(true, true, Acked, false);
            var r := Request(true, "w", 5, "ETB/2", "h", Acked, Success, [up.(delivery := Lost), up, up]);
            var b := Books(map[Slot(Main("w"), "ETB/2") := 5], [], map[]);
            Fate(b, r).InTransit? && !AfterOutbound(b, r).ok
  {
    var up := Attempt(true, true, Acked, false);
    var r := Request(true, "w", 5, "ETB/2", "h", Acked, Success, [up.(delivery := Lost), up, up]);
    var b := Books(map[Slot(Main("w"), "ETB/2") := 5], [], map[]);
    assert FirstHit(r.attempts, Settling) == Some(0);
    OutboundTrace(b, r);
  }

  // ---------------------------------------------------------------- many transfers

  function AfterAll(b: Books, rs: seq<Request>): Books {
    if rs == [] then b else AfterOutbound(AfterAll(b, rs[..|rs| - 1]), rs[|rs| - 1]).books
  }

  function Fates(b: Books, rs: seq<Request>): (fs: seq<Place>)
    ensures |fs| == |rs|
  {
    if rs == [] then []
    else Fates(b, rs[..|rs| - 1]) + [Fate(AfterAll(b, rs[..|rs| - 1]), rs[|rs| - 1])]
  }

  /** Sum of the amounts of the given wallet and asset (all wallets when None) that sit in one place. */
  function Amount(rs: seq<Request>, fs: seq<Place>, wallet: Option<string>, asset: string, place: Place): int
    requires |fs| == |rs|
  {
    if rs == [] then 0
    else
      var n := |rs| - 1;
      Amount(rs[..n], fs[..n], wallet, asset, place)
      + if fs[n] == place && rs[n].asset == asset && (wallet.None? || wallet.value == rs[n].walletID) then rs[n].amount else 0
  }

  ghost predicate DistinctHolds(b: Books, rs: seq<Request>) {
    && (forall i :: 0 <= i < |rs| ==> Unused(b, rs[i].holdID))
    && (forall i, j :: 0 <= i < j < |rs| ==> rs[i].holdID != rs[j].holdID)
  }

  lemma OtherLog(b: Books, r: Request, h: string)
    requires Unused(b, r.holdID) && h != r.holdID
    ensures var log := AfterOutbound(b, r).books.log;
            Inbound(log, Hold(h)) == Inbound(b.log, Hold(h)) && Departures(log, Hold(h)) == Departures(b.log, Hold(h))
  {
    OutboundTrace(b, r);
    var p := Posting(Main(r.walletID), Hold(r.holdID), r.amount, r.asset);
    var log := AfterOutbound(b, r).books.log;
    LogGrows(b.log, p, Hold(h));
    LogGrows(b.log + [[p]], Release(r), Hold(h));
    if !Held(b, r) {
      assert log == b.log;
    } else if Fate(b, r).InHold? {
      assert log == b.log + [[p]];
    } else {
      assert log == b.log + [[p]] + [[Release(r)]];
    }
  }

  /** The balances one transfer leaves behind, account by account. */
  lemma ResidesAt(b: Balances, c: Balances, r: Request, place: Place, w: string, h: string, asset: string)
    requires Resides(b, c, r, place)
    ensures Bal(c, Main(w), asset) == Bal(b, Main(w), asset)
              - if w == r.walletID && asset == r.asset && place != InWallet then r.amount else 0
    ensures Bal(c, TransitEthSwitch, asset) == Bal(b, TransitEthSwitch, asset)
              + if asset == r.asset && place == InTransit then r.amount else 0
    ensures Bal(c, Hold(h), asset) == Bal(b, Hold(h), asset)
              + if h == r.holdID && asset == r.asset && place == InHold then r.amount else 0
  {}

  lemma OtherHold(b: Books, r: Request, h: string)
    requires Unused(b, r.holdID) && h != r.holdID && Unused(b, h)
    ensures Unused(AfterOutbound(b, r).books, h)
  {
    OtherLog(b, r, h);
    OutboundTrace(b, r);
    var c := AfterOutbound(b, r).books;
    forall s ensures Bal(c.balances, Hold(h), s) == 0 {
      ResidesAt(b.balances, c.balances, r, Fate(b, r), r.walletID, h, s);
    }
  }

  lemma {:induction false} LaterHoldsUnused(b: Books, rs: seq<Request>, h: string)
    requires DistinctHolds(b, rs) && Unused(b, h) && forall i :: 0 <= i < |rs| ==> rs[i].holdID != h
    ensures Unused(AfterAll(b, rs), h)
    decreases |rs|
  {
    if rs != [] {
      var n := |rs| - 1;
      LaterHoldsUnused(b, rs[..n], h);
      LaterHoldsUnused(b, rs[..n], rs[n].holdID);
      OtherHold(AfterAll(b, rs[..n]), rs[n], h);
    }
  }

  lemma LastTransfer(b: Books, rs: seq<Request>)
    requires DistinctHolds(b, rs) && rs != []
    ensures var n := |rs| - 1;
            && Resides(AfterAll(b, rs[..n]).balances, AfterAll(b, rs).balances, rs[n], Fates(b, rs)[n])
            && Fates(b, rs)[..n] == Fates(b, rs[..n])
            && Bal(AfterAll(b, rs[..n]).balances, Hold(rs[n].holdID), rs[n].asset) == 0
  {
    var n := |rs| - 1;
    LaterHoldsUnused(b, rs[..n], rs[n].holdID);
    OutboundTrace(AfterAll(b, rs[..n]), rs[n]);
  }

  lemma {:induction false} HoldsAfterAll(b: Books, rs: seq<Request>, i: nat)
    requires DistinctHolds(b, rs) && i < |rs|
    ensures Bal(AfterAll(b, rs).balances, Hold(rs[i].holdID), rs[i].asset)
            == if Fates(b, rs)[i].InHold? then rs[i].amount else 0
    decreases |rs|
  {
    var n := |rs| - 1;
    LastTransfer(b, rs);
    ResidesAt(AfterAll(b, rs[..n]).balances, AfterAll(b, rs).balances, rs[n], Fates(b, rs)[n], "", rs[i].holdID, rs[i].asset);
    if i < n {
      HoldsAfterAll(b, rs[..n], i);
      assert Fates(b, rs)[..n][i] == Fates(b, rs)[i];
    }
  }

  /** Wallet and transit agree with the amounts placed so far. */
  ghost predicate Accounted(b: Balances, c: Balances, rs: seq<Request>, fs: seq<Place>, w: string, asset: string)
    requires |fs| == |rs|
  {
    && Bal(c, Main(w), asset) == Bal(b, Main(w), asset)
         - Amount(rs, fs, Some(w), asset, InHold) - Amount(rs, fs, Some(w), asset, InTransit)
    && Bal(c, TransitEthSwitch, asset) == Bal(b, TransitEthSwitch, asset) + Amount(rs, fs, None, asset, InTransit)
  }

  lemma AccountedStep(b: Balances, c: Balances, d: Balances, rs: seq<Request>, fs: seq<Place>, w: string, asset: string)
    requires |fs| == |rs| > 0
    requires Accounted(b, c, rs[..|rs| - 1], fs[..|rs| - 1], w, asset)
    requires Resides(c, d, rs[|rs| - 1], fs[|rs| - 1])
    ensures Accounted(b, d, rs, fs, w, asset)
  {
    ResidesAt(c, d, rs[|rs| - 1], fs[|rs| - 1], w, "", asset);
  }

  lemma {:induction false} AccountedAfterAll(b: Books, rs: seq<Request>, w: string, asset: string)
    requires DistinctHolds(b, rs)
    ensures Accounted(b.balances, AfterAll(b, rs).balances, rs, Fates(b, rs), w, asset)
    decreases |rs|
  {
    if rs != [] {
      var n := |rs| - 1;
      AccountedAfterAll(b, rs[..n], w, asset);
      LastTransfer(b, rs);
      AccountedStep(b.balances, AfterAll(b, rs[..n]).balances, AfterAll(b, rs).balances, rs, Fates(b, rs), w, asset);
    }
  }

  /** Over any sequence of transfers by any number of users: every hold account contains exactly its
      transfer's amount or nothing, according to where that transfer ended; each wallet is down by
      what it has in holds and in transit; and transit is up by what all senders have in transit. */
  lemma OutboundRun(b: Books, rs: seq<Request>, w: string, asset: string)
    requires DistinctHolds(b, rs)
    ensures Accounted(b.balances, AfterAll(b, rs).balances, rs, Fates(b, rs), w, asset)
    ensures forall i :: 0 <= i < |rs| ==>
              Bal(AfterAll(b, rs).balances, Hold(rs[i].holdID), rs[i].asset)
              == if Fates(b, rs)[i].InHold? then rs[i].amount else 0
  {
    AccountedAfterAll(b, rs, w, asset);
    forall i | 0 <= i < |rs|
      ensures Bal(AfterAll(b, rs).balances, Hold(rs[i].holdID), rs[i].asset)
              == if Fates(b, rs)[i].InHold? then rs[i].amount else 0
    {
      HoldsAfterAll(b, rs, i);
    }
  }
}

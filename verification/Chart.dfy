/** Account addresses of the ledger (internal/ledger/chart.go). */
module Chart {
  /** The accounts the modelled services post to. */
  datatype Account =
    | Main(walletID: string)
    | Hold(holdID: string)
    | TransitEthSwitch
    | TransitCardAuth
    | LoanCapital
    | Interest
    | OverdraftCapital
    | World

  function Base(prefix: string): string { if prefix != "" then prefix + ":" else "" }

  /** Drops every hyphen. */
  function Sanitize(s: string): string {
    if s == "" then "" else (if s[0] == '-' then "" else [s[0]]) + Sanitize(s[1..])
  }

  function Address(prefix: string, a: Account): string {
    match a
    case Main(w) => Base(prefix) + "wallets:" + Sanitize(w) + ":main"
    case Hold(h) => Base(prefix) + "wallets:holds:" + Sanitize(h)
    case TransitEthSwitch => Base(prefix) + "transit:ethswitch_out"
    case TransitCardAuth => Base(prefix) + "transit:card_auth"
    case LoanCapital => Base(prefix) + "system:loan_capital"
    case Interest => Base(prefix) + "system:interest"
    case OverdraftCapital => Base(prefix) + "system:overdraft_capital"
    case World => "world"
  }

  predicate HexDigit(c: char) { '0' <= c <= '9' || 'a' <= c <= 'f' }

  predicate HyphenPosition(i: int) { i == 8 || i == 13 || i == 18 || i == 23 }

  /** The canonical text form of a UUID: 36 characters, hyphens at 8, 13, 18 and 23. */
  predicate Uuid(s: string) {
    |s| == 36 && forall i :: 0 <= i < 36 ==> if HyphenPosition(i) then s[i] == '-' else HexDigit(s[i])
  }

  /** Ids as the services mint them: bare UUIDs for holds, "wallet:" plus a UUID for wallets. */
  predicate WellFormed(a: Account) {
    match a
    case Main(w) => |w| == 43 && w[..7] == "wallet:" && Uuid(w[7..])
    case Hold(h) => Uuid(h)
    case _ => true
  }

  lemma {:induction false} SanitizeConcat(s: string, t: string)
    ensures Sanitize(s + t) == Sanitize(s) + Sanitize(t)
  {
    if s == "" {
      assert s + t == t;
    } else {
      assert (s + t)[1..] == s[1..] + t;
      SanitizeConcat(s[1..], t);
    }
  }

  lemma {:induction false} SanitizePlain(s: string)
    requires forall i :: 0 <= i < |s| ==> s[i] != '-'
    ensures Sanitize(s) == s
  {
    if s != "" {
      SanitizePlain(s[1..]);
    }
  }

  lemma SanitizeGroup(s: string, n: nat)
    requires n < |s| && s[n] == '-'
    requires forall i :: 0 <= i < n ==> s[i] != '-'
    ensures Sanitize(s) == s[..n] + Sanitize(s[n + 1..])
  {
    var head, tail := s[..n], s[n..];
    assert s == head + tail;
    SanitizeConcat(head, tail);
    SanitizePlain(head);
    assert Sanitize(tail) == Sanitize(s[n + 1..]) by {
      SanitizeHyphen(tail);
      assert tail[1..] == s[n + 1..];
    }
  }

  lemma SanitizeHyphen(s: string)
    requires s != "" && s[0] == '-'
    ensures Sanitize(s) == Sanitize(s[1..])
  {}

  /** The five hyphen-free groups of a UUID. */
  lemma SanitizedUuid(s: string)
    requires Uuid(s)
    ensures Sanitize(s) == s[..8] + (s[9..13] + (s[14..18] + (s[19..23] + s[24..])))
  {
    SanitizeGroup(s, 8);
    var t := s[9..];
    SanitizeGroup(t, 4);
    var u := t[5..];
    assert u == s[14..] && t[..4] == s[9..13];
    SanitizeGroup(u, 4);
    var v := u[5..];
    assert v == s[19..] && u[..4] == s[14..18];
    SanitizeGroup(v, 4);
    assert v[5..] == s[24..] && v[..4] == s[19..23];
    SanitizePlain(s[24..]);
  }

  /** Stripping the hyphens loses nothing: two UUIDs with the same sanitized form are equal. */
  lemma SanitizeInjective(s: string, t: string)
    requires Uuid(s) && Uuid(t) && Sanitize(s) == Sanitize(t)
    ensures s == t
  {
    SanitizedUuid(s);
    SanitizedUuid(t);
    var a, b := Sanitize(s), Sanitize(t);
    forall i | 0 <= i < 36
      ensures s[i] == t[i]
    {
      if !HyphenPosition(i) {
        var j := if i < 8 then i else if i < 13 then i - 1 else if i < 18 then i - 2 else if i < 23 then i - 3 else i - 4;
        assert s[i] == a[j] && t[i] == b[j];
      }
    }
  }

  lemma SanitizedWallet(w: string)
    requires WellFormed(Main(w))
    ensures Sanitize(w) == "wallet:" + Sanitize(w[7..])
    ensures |Sanitize(w)| == 39
  {
    var head, id := w[..7], w[7..];
    assert w == head + id;
    SanitizePlain(head);
    SanitizeConcat(head, id);
    assert |Sanitize(id)| == 32 by { SanitizedUuid(id); }
  }

  lemma CommonPrefix(p: string, s: string, t: string)
    requires p + s == p + t
    ensures s == t
  {
    assert (p + s)[|p|..] == s;
    assert (p + t)[|p|..] == t;
  }

  /** The part of the address after the configured prefix; the world account carries no prefix. */
  function Tail(a: Account): string {
    match a
    case Main(w) => "wallets:" + Sanitize(w) + ":main"
    case Hold(h) => "wallets:holds:" + Sanitize(h)
    case TransitEthSwitch => "transit:ethswitch_out"
    case TransitCardAuth => "transit:card_auth"
    case LoanCapital => "system:loan_capital"
    case Interest => "system:interest"
    case OverdraftCapital => "system:overdraft_capital"
    case World => ""
  }

  lemma AddressSplits(prefix: string, a: Account)
    requires a != World
    ensures Address(prefix, a) == Base(prefix) + Tail(a)
    ensures ':' in Tail(a)
  {
    if a.Main? {
      Regroup(Base(prefix), "wallets:" + Sanitize(a.walletID), ":main");
      Regroup(Base(prefix), "wallets:", Sanitize(a.walletID));
    } else if a.Hold? {
      Regroup(Base(prefix), "wallets:holds:", Sanitize(a.holdID));
    }
    var at := if a.Main? || a.Hold? || a.TransitEthSwitch? || a.TransitCardAuth? then 7 else 6;
    assert Tail(a)[at] == ':';
  }

  lemma Regroup(p: string, s: string, t: string)
    ensures p + s + t == p + (s + t)
  {
  }

  /** The families have tails of different lengths. */
  function TailLength(a: Account): int {
    match a
    case Main(_) => 52
    case Hold(_) => 46
    case TransitEthSwitch => 21
    case TransitCardAuth => 17
    case LoanCapital => 19
    case Interest => 15
    case OverdraftCapital => 24
    case World => 0
  }

  lemma TailLengths(a: Account)
    requires WellFormed(a)
    ensures |Tail(a)| == TailLength(a)
  {
    match a
    case Main(w) => SanitizedWallet(w);
    case Hold(h) => SanitizedUuid(h);
    case _ =>
  }

  lemma TailInjective(a: Account, b: Account)
    requires a != World && b != World && WellFormed(a) && WellFormed(b)
    ensures Tail(a) == Tail(b) ==> a == b
  {
    TailLengths(a);
    TailLengths(b);
    if a.Main? && b.Main? {
      MainTailInjective(a, b);
    } else if a.Hold? && b.Hold? {
      HoldTailInjective(a, b);
    }
  }

  lemma MainTailInjective(a: Account, b: Account)
    requires a.Main? && b.Main? && WellFormed(a) && WellFormed(b)
    ensures Tail(a) == Tail(b) ==> a == b
  {
    var v, w := a.walletID, b.walletID;
    SanitizedWallet(v);
    SanitizedWallet(w);
    assert Tail(a)[15..47] == Sanitize(v[7..]);
    assert Tail(b)[15..47] == Sanitize(w[7..]);
    if Tail(a) == Tail(b) { SanitizeInjective(v[7..], w[7..]); }
    assert v == v[..7] + v[7..] && w == w[..7] + w[7..];
  }

  lemma HoldTailInjective(a: Account, b: Account)
    requires a.Hold? && b.Hold? && WellFormed(a) && WellFormed(b)
    ensures Tail(a) == Tail(b) ==> a == b
  {
    assert Tail(a)[14..] == Sanitize(a.holdID);
    assert Tail(b)[14..] == Sanitize(b.holdID);
    if Tail(a) == Tail(b) { SanitizeInjective(a.holdID, b.holdID); }
  }

  /** For ids of the shape the services mint, distinct accounts never share an address:
      the families do not collide and, within a family, the address determines the id. */
  lemma AddressInjective(prefix: string, a: Account, b: Account)
    requires WellFormed(a) && WellFormed(b)
    ensures Address(prefix, a) == Address(prefix, b) <==> a == b
  {
    if a != World { AddressSplits(prefix, a); }
    if b != World { AddressSplits(prefix, b); }
    if a != World && b != World {
      TailInjective(a, b);
      if Address(prefix, a) == Address(prefix, b) {
        CommonPrefix(Base(prefix), Tail(a), Tail(b));
      }
    }
  }
}

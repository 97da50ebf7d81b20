/**
 * The investor's view: what holdings are worth, and that their floored values never
 * add up to more than the asset's face value.
 */
module Investor {
  import opened Wrappers
  import opened Sums
  import opened Amounts
  import opened Trail
  import opened Holders
  import opened ProRata

  // --- balances of a wallet ------------------------------------------------------------

  /** The balances under the addresses whose lower case is `w`. */
  function Spellings(balances: Table, w: string, lower: string -> string): Table {
    map x | x in balances && lower(x) == w :: balances[x]
  }

  ghost function WalletBalance(balances: Table, wallet: string, lower: string -> string): int {
    Total(Spellings(balances, lower(wallet), lower))
  }

  method BalanceOfWallet(balances: Table, wallet: string, lower: string -> string) returns (total: int)
    ensures total == WalletBalance(balances, wallet, lower)
  {
    hide Total;
    total := 0;
    var todo := balances.Keys;
    NothingYet();
    ghost var done: Table := map[];
    while todo != {}
      invariant todo <= balances.Keys
      invariant done == (map x | x in balances && x !in todo && lower(x) == lower(wallet) :: balances[x])
      invariant total == Total(done)
      decreases |todo|
    {
      var x :| x in todo;
      todo := todo - {x};
      if lower(x) == lower(wallet) {
        TotalSet(done, x, balances[x]);
        done := done[x := balances[x]];
        total := total + balances[x];
      }
    }
    assert done == Spellings(balances, lower(wallet), lower);
  }

  lemma {:induction false} NothingYet()
    ensures Total<string>(map[]) == 0
  {
  }

  /** One entry for each wallet, however many spellings of it the fold has met. */
  ghost function ByWallet(balances: Table, lower: string -> string): Table {
    map w | w in (set x | x in balances :: lower(x)) :: Total(Spellings(balances, w, lower))
  }

  lemma {:induction false} GetByWallet(balances: Table, w: string, lower: string -> string)
    ensures Get(ByWallet(balances, lower), w) == Total(Spellings(balances, w, lower))
  {
  }

  lemma {:induction false} SpellingsWithout(balances: Table, k: string, w: string, lower: string -> string)
    requires k in balances
    ensures Total(Spellings(balances, w, lower))
      == Total(Spellings(balances - {k}, w, lower)) + if lower(k) == w then balances[k] else 0
  {
    var all, rest := Spellings(balances, w, lower), Spellings(balances - {k}, w, lower);
    if lower(k) == w {
      TotalWithout(all, k);
      assert all - {k} == rest;
    } else {
      assert all == rest;
    }
  }

  /** Grouping addresses into wallets loses nothing and counts nothing twice. */
  lemma {:induction false} WalletsAddUp(balances: Table, lower: string -> string)
    ensures Total(ByWallet(balances, lower)) == Total(balances)
    decreases balances
  {
    if k :| k in balances {
      var rest := balances - {k};
      WalletsAddUp(rest, lower);
      TotalWithout(balances, k);
      hide ByWallet, Total, Spellings;
      var grown := Add(ByWallet(rest, lower), lower(k), balances[k]);
      forall w: string ensures Get(ByWallet(balances, lower), w) == Get(grown, w) {
        GetByWallet(balances, w, lower);
        GetByWallet(rest, w, lower);
        SpellingsWithout(balances, k, w, lower);
      }
      SameReadsSameTotal(ByWallet(balances, lower), grown);
      TotalAdd(ByWallet(rest, lower), lower(k), balances[k]);
    } else {
      assert balances == map[] && ByWallet(balances, lower) == map[];
    }
  }

  // --- the value of a holding ------------------------------------------------------------

  /** A metadata field: decimal digits, a number or decimal fraction that rounds to one, or neither. */
  datatype Face = Digits(text: string) | Rounds(n: nat) | Unreadable

  datatype Asset = Asset(id: string, unitPrice: Option<string>, currency: Option<string>,
    valuation: Option<(Face, string)>)

  datatype Money = Money(currency: string, amount: int)

  /** JavaScript's integer division, which drops the remainder whatever the signs. */
  function Truncated(n: int, d: int): int
    requires d > 0
  {
    if n >= 0 then n / d else -(-n / d)
  }

  function HoldingValue(a: Asset, units: int, supply: int): Option<Money> {
    if a.unitPrice.Some? && a.currency.Some? && a.currency.value != "" && IsDecimal(a.unitPrice.value)
    then Some(Money(a.currency.value, units * Value(10, a.unitPrice.value)))
    else if a.valuation.Some? && supply > 0 then
      match a.valuation.value.0
      case Digits(text) =>
        if IsDecimal(text) then Some(Money(a.valuation.value.1, Truncated(units * Value(10, text), supply))) else None
      case Rounds(n) => Some(Money(a.valuation.value.1, Truncated(units * n, supply)))
      case Unreadable => None
    else None
  }

  /** With a unit price of `p`, units are worth `p` each, in the currency of the price and whatever the supply is. */
  lemma {:induction false} PricedByUnit(a: Asset, zeros: nat, p: nat, currency: string, units: int, supply: int)
    requires a.unitPrice == Some(InDecimal(zeros, p)) && a.currency == Some(currency) && currency != ""
    ensures HoldingValue(a, units, supply) == Some(Money(currency, units * p))
  {
    InDecimalIs(zeros, p);
    hide InDecimal, Value, IsDecimal, Truncated;
  }

  /**
   * Without a readable price and its currency, units are worth their part of the face value `n`, cut off
   * towards zero, in the currency of the valuation; and nothing without supply.
   */
  lemma {:induction false} PricedByFace(a: Asset, zeros: nat, n: nat, face: Face, currency: string, units: int,
      supply: int)
    requires a.unitPrice.None? || a.currency.None? || a.currency == Some("") || !IsDecimal(a.unitPrice.value)
    requires a.valuation == Some((face, currency)) && (face == Digits(InDecimal(zeros, n)) || face == Rounds(n))
    ensures supply <= 0 ==> HoldingValue(a, units, supply) == None
    ensures supply > 0 ==>
      var value := HoldingValue(a, units, supply);
      && value.Some? && value.value.currency == currency
      && var m := value.value.amount;
         if units >= 0 then m >= 0 && m * supply <= units * n < (m + 1) * supply
         else m <= 0 && (m - 1) * supply < units * n <= m * supply
  {
    InDecimalIs(zeros, n);
    FaceValueIs(a, InDecimal(zeros, n), n, face, currency, units, supply);
    hide *;
    if supply > 0 { TruncatedBetween(units * n, supply); SameSign(units, n); }
  }

  lemma {:induction false} FaceValueIs(a: Asset, text: string, n: nat, face: Face, currency: string, units: int,
      supply: int)
    requires a.unitPrice.None? || a.currency.None? || a.currency == Some("") || !IsDecimal(a.unitPrice.value)
    requires a.valuation == Some((face, currency)) && (face == Digits(text) || face == Rounds(n))
    requires IsDecimal(text) && Value(10, text) == n
    ensures HoldingValue(a, units, supply)
      == if supply > 0 then Some(Money(currency, Truncated(units * n, supply))) else None
  {
    hide IsDecimal, Value, Truncated;
  }

  /** Without a price, what cannot be read as a face value is worth nothing that could be said. */
  lemma {:induction false} WithoutAPrice(a: Asset, units: int, supply: int)
    requires a.unitPrice.None? || a.currency.None? || a.currency == Some("") || !IsDecimal(a.unitPrice.value)
    requires a.valuation.None? || a.valuation.value.0 == Unreadable
      || (a.valuation.value.0.Digits? && !IsDecimal(a.valuation.value.0.text))
    ensures HoldingValue(a, units, supply) == None
  {
  }

  lemma {:induction false} SameSign(units: int, n: nat)
    ensures units >= 0 ==> units * n >= 0
    ensures units < 0 ==> units * n <= 0
  {
  }

  lemma {:induction false} TruncatedBetween(n: int, d: int)
    requires d > 0
    ensures
      var m := Truncated(n, d);
      && (n >= 0 ==> m >= 0 && m * d <= n < (m + 1) * d)
      && (n <= 0 ==> m <= 0 && (m - 1) * d < n <= m * d)
  {
    if n >= 0 { FloorBetween(n, d); SharePositive(n, d); }
    if n <= 0 { FloorBetween(-n, d); SharePositive(-n, d); Negated(-n, d); }
  }

  lemma {:induction false} Negated(n: int, d: int)
    requires d > 0 && n / d * d <= n < (n / d + 1) * d
    ensures (-(n / d) - 1) * d < -n <= -(n / d) * d
  {
    assert (-(n / d) - 1) * d == -((n / d + 1) * d);
  }

  /** The wallets that hold something, and what each of their holdings is worth by face value. */
  ghost function Values(a: Asset, balances: Table, supply: int, lower: string -> string): Table {
    map w | w in Positives(ByWallet(balances, lower)) ::
      match HoldingValue(a, Positives(ByWallet(balances, lower))[w], supply) case Some(m) => m.amount case None => 0
  }

  ghost predicate ValuedByFace(a: Asset, face: nat) {
    && !(a.unitPrice.Some? && a.currency.Some? && a.currency.value != "" && IsDecimal(a.unitPrice.value))
    && a.valuation.Some?
    && (a.valuation.value.0 == Rounds(face)
        || (a.valuation.value.0.Digits? && IsDecimal(a.valuation.value.0.text)
            && face == Value(10, a.valuation.value.0.text)))
  }

  lemma {:induction false} ValuesAreShares(a: Asset, face: nat, balances: Table, supply: int, lower: string -> string)
    requires ValuedByFace(a, face) && supply > 0 && NonNegative(Positives(ByWallet(balances, lower)))
    ensures Values(a, balances, supply, lower) == Shares(face, Positives(ByWallet(balances, lower)), supply)
  {
    var holders := Positives(ByWallet(balances, lower));
    hide HoldingValue, Share, ValuedByFace, ByWallet, Positives, Spellings;
    forall w | w in holders ensures Values(a, balances, supply, lower)[w] == Share(face, holders[w], supply) {
      FaceShare(a, face, holders[w], supply);
    }
  }

  lemma {:induction false} NoWalletNegative(balances: Table, lower: string -> string)
    requires forall x :: x in balances ==> balances[x] >= 0
    ensures NoneOverdrawn(balances, lower)
  {
    forall w | w in ByWallet(balances, lower) ensures ByWallet(balances, lower)[w] >= 0 {
      TotalNonNegative(Spellings(balances, w, lower));
    }
  }

  lemma {:induction false} PositivesAddUp(m: Table)
    requires forall x :: x in m ==> m[x] >= 0
    ensures Total(Positives(m)) == Total(m) && NonNegative(Positives(m))
    ensures forall x :: x in Positives(m) ==> Positives(m)[x] > 0
  {
    SameReadsSameTotal(Positives(m), m);
  }

  /** No wallet has spent more than it was given, under all the spellings of its address together. */
  ghost predicate NoneOverdrawn(balances: Table, lower: string -> string) {
    NonNegative(ByWallet(balances, lower))
  }

  /**
   * Where the supply is what the wallets hold between them, and none is overdrawn, the
   * floored values add up to at most the face value, and fall short of it by less than
   * one for each holder.
   */
  lemma {:induction false} ValuesNearFace(a: Asset, face: nat, balances: Table, supply: int, lower: string -> string)
    requires ValuedByFace(a, face) && supply > 0 && supply == Total(balances) && NoneOverdrawn(balances, lower)
    ensures face - |Positives(ByWallet(balances, lower))| < Total(Values(a, balances, supply, lower)) <= face
  {
    hide ByWallet, Values, Total, Positives, Spellings, HoldingValue;
    var wallets := ByWallet(balances, lower);
    WalletsAddUp(balances, lower);
    PositivesAddUp(wallets);
    SharesNearTotal(face, Positives(wallets), supply);
    ValuesAreShares(a, face, balances, supply, lower);
  }

  /** An asset of nothing but a face value. */
  function FaceAsset(id: string, face: nat, currency: string): Asset {
    Asset(id, None, None, Some((Rounds(face), currency)))
  }

  /**
   * Exactly when no face value is ever overstated: when nothing is valued for want of
   * supply, or no wallet is overdrawn.
   */
  lemma {:induction false} NeverOverstatesIff(id: string, currency: string, balances: Table, supply: int,
      lower: string -> string)
    requires supply == Total(balances)
    ensures
      (forall face: nat :: Total(Values(FaceAsset(id, face, currency), balances, supply, lower)) <= face)
      <==> supply <= 0 || NoneOverdrawn(balances, lower)
  {
    if supply <= 0 {
      forall face: nat ensures Total(Values(FaceAsset(id, face, currency), balances, supply, lower)) <= face {
        WithoutSupply(FaceAsset(id, face, currency), face, balances, supply, lower);
      }
    } else if NoneOverdrawn(balances, lower) {
      hide Total, Values, NoneOverdrawn;
      forall face: nat ensures Total(Values(FaceAsset(id, face, currency), balances, supply, lower)) <= face {
        ValuesNearFace(FaceAsset(id, face, currency), face, balances, supply, lower);
      }
    } else {
      OverdraftShows(FaceAsset(id, supply, currency), balances, supply, lower);
    }
  }

  lemma {:induction false} WithoutSupply(a: Asset, face: nat, balances: Table, supply: int, lower: string -> string)
    requires ValuedByFace(a, face) && supply <= 0
    ensures Total(Values(a, balances, supply, lower)) == 0
  {
    hide ByWallet, Positives, Value, IsDecimal;
    TotalZero(Values(a, balances, supply, lower));
  }

  /** With as much face value as supply, each unit is worth one, and the overdraft is valued at somebody else. */
  lemma {:induction false} OverdraftShows(a: Asset, balances: Table, supply: int, lower: string -> string)
    requires supply > 0 && ValuedByFace(a, supply) && supply == Total(balances) && !NoneOverdrawn(balances, lower)
    ensures Total(Values(a, balances, supply, lower)) > supply
  {
    var wallets := ByWallet(balances, lower);
    var w :| w in wallets && wallets[w] < 0;
    WalletsAddUp(balances, lower);
    PositivesExceed(wallets, w);
    var holders := Positives(wallets);
    assert NonNegative(holders);
    hide *;
    ValuesAreShares(a, supply, balances, supply, lower);
    WholeShares(holders, supply);
  }

  lemma {:induction false} WholeShares(holders: Table, supply: int)
    requires supply > 0 && NonNegative(holders)
    ensures Shares(supply, holders, supply) == holders
  {
    forall x | x in holders ensures Share(supply, holders[x], supply) == holders[x] {
      WholeShare(holders[x], supply);
    }
    hide Share;
  }

  lemma {:induction false} WholeShare(units: nat, supply: int)
    requires supply > 0
    ensures Share(supply, units, supply) == units
  {
    FloorUnique(supply * units, supply, supply * units / supply, units);
  }

  lemma {:induction false} FloorUnique(n: int, d: int, q: int, r: int)
    requires d > 0 && q * d <= n < (q + 1) * d && r * d <= n < (r + 1) * d
    ensures q == r
  {
    Multiples(q, r, d);
    Multiples(r, q, d);
  }

  lemma {:induction false} Multiples(q: int, r: int, d: int)
    requires d > 0
    ensures q < r ==> (q + 1) * d <= r * d
  {
    if q < r { assert r * d == (q + 1) * d + (r - q - 1) * d; }
  }

  lemma {:induction false} PositivesExceed(m: Table, w: string)
    requires w in m && m[w] < 0
    ensures Total(Positives(m)) > Total(m)
  {
    var raised := map x | x in m :: if m[x] > 0 then m[x] else 0;
    SameReadsSameTotal(Positives(m), raised);
    TotalWithout(m, w);
    TotalWithout(raised, w);
    TotalBound(raised - {w}, m - {w});
  }

  lemma {:induction false} FaceShare(a: Asset, face: nat, units: nat, supply: int)
    requires ValuedByFace(a, face) && supply > 0
    ensures HoldingValue(a, units, supply) == Some(Money(a.valuation.value.1, Share(face, units, supply)))
  {
    hide Value, IsDecimal;
    SameProduct(units, face);
  }

  lemma {:induction false} SameProduct(x: int, y: int)
    requires x >= 0 && y >= 0
    ensures x * y == y * x >= 0
  {
  }

  // --- which trails have such folds --------------------------------------------------------

  /** Every side of a movement is named. */
  predicate Addressed(e: Entry) {
    match e.action
    case Mint => Named(e.p.to)
    case Transfer => Named(e.p.from) && Named(e.p.to)
    case Buy => Named(if e.p.secondary && e.p.seller.Some? then e.p.seller else e.p.from) && Named(e.p.to)
    case Burn => TokenOf(e).Some? || Named(e.p.from)
    case _ => true
  }

  ghost predicate SupplyIsSum(s: Folded) {
    s.supply == Total(s.balances) && forall t :: t in s.owners ==> s.owners[t] != ""
  }

  lemma {:induction false} StepKeepsSum(s: Folded, e: Entry)
    requires SupplyIsSum(s) && Addressed(e)
    ensures SupplyIsSum(FoldStep(s, e))
  {
    hide AmountOf, Total, Bump;
    var amt, t := AmountOf(e.p.amount), TokenOf(e);
    match e.action
    case Mint => TotalBump(s.balances, e.p.to, if t.Some? then 1 else amt);
    case Transfer =>
      if t.Some? {
        TotalMove(s.balances, if t.value in s.owners then Some(s.owners[t.value]) else e.p.from, e.p.to, 1);
      } else {
        TotalMove(s.balances, e.p.from, e.p.to, amt);
      }
    case Buy => TotalMove(s.balances, if e.p.secondary && e.p.seller.Some? then e.p.seller else e.p.from, e.p.to, amt);
    case Burn =>
      if t.None? { TotalBump(s.balances, e.p.from, -amt); }
      else if t.value in s.owners { TotalBump(s.balances, Some(s.owners[t.value]), -1); }
    case _ =>
  }

  /** On every trail whose movements name both sides, tokens and units alike, supply is the sum of the balances. */
  lemma {:induction false} FoldKeepsSum(entries: seq<Entry>)
    requires forall i :: 0 <= i < |entries| ==> Addressed(entries[i])
    ensures SupplyIsSum(FoldOf(entries))
  {
    if entries != [] {
      var init := entries[..|entries| - 1];
      assert forall i :: 0 <= i < |init| ==> init[i] == entries[i];
      FoldKeepsSum(init);
      StepKeepsSum(FoldOf(init), entries[|entries| - 1]);
    }
  }
}

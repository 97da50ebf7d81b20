/**
 * Pro-rata splits: floored shares of a total over positive balances.
 */
module ProRata {
  import opened Sums

  predicate Holder(balances: Table, x: string) {
    x in balances && balances[x] > 0
  }

  function Positives(balances: Table): Table {
    map x | x in balances && Holder(balances, x) :: balances[x]
  }

  /** `total` times a holding over `supply`, floored; nothing is negative here, so truncation is flooring. */
  function Share(total: int, holding: int, supply: int): (s: int)
    requires total >= 0 && holding >= 0 && supply > 0
    ensures s >= 0
  {
    FloorBounds(total * holding, supply);
    total * holding / supply
  }

  predicate Floored(total: int, holding: int, supply: int, s: int) {
    s * supply <= total * holding < (s + 1) * supply
  }

  lemma {:induction false} ShareIsFloor(total: int, holding: int, supply: int)
    requires total >= 0 && holding >= 0 && supply > 0
    ensures Floored(total, holding, supply, Share(total, holding, supply))
  {
  }

  lemma {:induction false} FloorBounds(n: int, d: int)
    requires n >= 0 && d > 0
    ensures n / d >= 0 && (n / d) * d <= n < (n / d + 1) * d
  {
  }

  ghost function Shares(total: int, holdings: Table, supply: int): Table
    requires total >= 0 && supply > 0 && NonNegative(holdings)
  {
    map x | x in holdings :: Share(total, holdings[x], supply)
  }

  /** `n` floors with sum `shares` of exact parts that come to `total * sum / supply`. */
  predicate Near(total: int, sum: int, shares: int, n: nat, supply: int) {
    shares * supply <= total * sum <= (shares + n) * supply && (n > 0 ==> total * sum < (shares + n) * supply)
  }

  lemma {:induction false} AddFloor(total: int, one: int, others: int, supply: int, share: int, shares: int, n: nat)
    requires Floored(total, one, supply, share)
    requires Near(total, others, shares, n, supply)
    ensures Near(total, one + others, share + shares, n + 1, supply)
  {
  }

  /** However many floors are taken, less than one unit is lost to each. */
  lemma {:induction false} FloorsAddUp(total: int, holdings: Table, supply: int)
    requires total >= 0 && supply > 0 && NonNegative(holdings)
    ensures Near(total, Total(holdings), Total(Shares(total, holdings, supply)), |holdings|, supply)
    decreases holdings
  {
    hide Near, Total, Share, Floored;
    if k :| k in holdings {
      var rest, shares := holdings - {k}, Shares(total, holdings, supply);
      FloorsAddUp(total, rest, supply);
      assert shares - {k} == Shares(total, rest, supply);
      TotalWithout(holdings, k);
      TotalWithout(shares, k);
      Smaller(holdings, k);
      ShareIsFloor(total, holdings[k], supply);
      AddFloor(total, holdings[k], Total(rest), supply, shares[k], Total(shares - {k}), |rest|);
    } else {
      assert holdings == map[] && Shares(total, holdings, supply) == map[];
      NearNothing(total, supply);
    }
  }

  lemma {:induction false} NearNothing(total: int, supply: int)
    ensures Near(total, Total<string>(map[]), Total<string>(map[]), 0, supply)
  {
  }

  /** When the holdings make up the supply, the shares are at most the total and short of it by less than one each. */
  lemma {:induction false} SharesNearTotal(total: int, holdings: Table, supply: int)
    requires total >= 0 && supply > 0 && NonNegative(holdings) && Total(holdings) == supply
    ensures total - |holdings| < Total(Shares(total, holdings, supply)) <= total
  {
    FloorsAddUp(total, holdings, supply);
    assert holdings != map[];
    NearWhole(total, supply, Total(Shares(total, holdings, supply)), |holdings|);
  }

  lemma {:induction false} NearWhole(total: int, supply: int, shares: int, n: nat)
    requires supply > 0 && n > 0 && Near(total, supply, shares, n, supply)
    ensures total - n < shares <= total
  {
  }

  // --- the split -------------------------------------------------------------------------

  ghost function Split(total: int, balances: Table): Table {
    var holdings := Positives(balances);
    if total <= 0 || Total(holdings) <= 0 then map[]
    else
      map x | x in holdings && Share(total, holdings[x], Total(holdings)) > 0 ::
        Share(total, holdings[x], Total(holdings))
  }

  method SumPositive(balances: Table) returns (supply: int)
    ensures supply == Total(Positives(balances))
  {
    supply := 0;
    var todo := balances.Keys;
    ghost var done: Table := map[];
    while todo != {}
      invariant todo <= balances.Keys
      invariant done == (map x | x in Positives(balances) && x !in todo :: balances[x])
      invariant supply == Total(done)
      decreases |todo|
    {
      var x :| x in todo;
      todo := todo - {x};
      if balances[x] > 0 {
        supply := supply + balances[x];
        TotalSet(done, x, balances[x]);
        done := done[x := balances[x]];
      }
    }
    assert done == Positives(balances);
  }

  /** Holders are met in whatever order; each gets its floored share if that is not nothing. */
  method SplitProRata(total: int, balances: Table) returns (out: Table)
    ensures out == Split(total, balances)
  {
    out := map[];
    if total <= 0 { return; }
    var supply := SumPositive(balances);
    if supply <= 0 { return; }
    var todo := balances.Keys;
    while todo != {}
      invariant todo <= balances.Keys
      invariant out == (map x | x in Split(total, balances) && x !in todo :: Split(total, balances)[x])
      decreases |todo|
    {
      var x :| x in todo;
      todo := todo - {x};
      if balances[x] <= 0 { continue; }
      var share := total * balances[x] / supply;
      assert share == Share(total, Positives(balances)[x], supply);
      if share > 0 { out := out[x := share]; }
    }
  }

  /** The shares go to positive holders only, are positive, and never add up to more than the total. */
  lemma {:induction false} SplitWithinTotal(total: int, balances: Table)
    ensures forall x :: x in Split(total, balances) ==> Holder(balances, x) && Split(total, balances)[x] > 0
    ensures Total(Split(total, balances)) <= if total <= 0 then 0 else total
    ensures total > 0 && Positives(balances) != map[] ==> Total(Split(total, balances)) > total - |Positives(balances)|
  {
    var holdings, split := Positives(balances), Split(total, balances);
    if total > 0 && holdings != map[] {
      SupplyPositive(holdings);
      var supply := Total(holdings);
      SharesNearTotal(total, holdings, supply);
      ZerosDropped(Shares(total, holdings, supply), split);
    }
  }

  lemma {:induction false} SupplyPositive(holdings: Table)
    requires holdings != map[] && forall x :: x in holdings ==> holdings[x] > 0
    ensures Total(holdings) > 0
  {
    var k :| k in holdings;
    TotalWithout(holdings, k);
    TotalNonNegative(holdings - {k});
  }

  lemma {:induction false} ZerosDropped(all: Table, kept: Table)
    requires forall x: string :: Get(all, x) == Get(kept, x)
    ensures Total(all) == Total(kept)
  {
    SameReadsSameTotal(all, kept);
  }

  /** Without the payer's own share: every spelling of the payer's address counts as the payer. */
  function WithoutPayer(split: Table, payer: string, lower: string -> string): Table {
    map x | x in split && lower(x) != lower(payer) :: split[x]
  }

  method DropPayerShare(split: Table, payer: string, lower: string -> string) returns (kept: Table)
    ensures kept == WithoutPayer(split, payer, lower)
  {
    kept := split;
    var todo := split.Keys;
    while todo != {}
      invariant todo <= split.Keys
      invariant kept == (map x | x in split && (x in todo || lower(x) != lower(payer)) :: split[x])
      decreases |todo|
    {
      var key :| key in todo;
      todo := todo - {key};
      if lower(key) == lower(payer) { kept := kept - {key}; }
    }
  }

  /** Under any spelling. */
  function OnlyPayer(split: Table, payer: string, lower: string -> string): Table {
    map x | x in split && lower(x) == lower(payer) :: split[x]
  }

  lemma {:induction false} NoSpellingIsPaid(split: Table, payer: string, lower: string -> string, x: string)
    ensures
      var paid := Get(WithoutPayer(split, payer, lower), x);
      paid == if lower(x) == lower(payer) then 0 else Get(split, x)
  {
  }

  /** What is dropped is exactly what the payer would have got, under all spellings together. */
  lemma {:induction false} DroppedIsThePayers(split: Table, payer: string, lower: string -> string)
    ensures Total(WithoutPayer(split, payer, lower)) + Total(OnlyPayer(split, payer, lower)) == Total(split)
    decreases split
  {
    hide Total;
    var kept, dropped := WithoutPayer(split, payer, lower), OnlyPayer(split, payer, lower);
    if k :| k in split {
      var rest := split - {k};
      DroppedIsThePayers(rest, payer, lower);
      TotalWithout(split, k);
      if lower(k) == lower(payer) {
        TotalWithout(dropped, k);
        assert dropped - {k} == OnlyPayer(rest, payer, lower) && kept == WithoutPayer(rest, payer, lower);
      } else {
        TotalWithout(kept, k);
        assert kept - {k} == WithoutPayer(rest, payer, lower) && dropped == OnlyPayer(rest, payer, lower);
      }
    } else {
      assert kept == map[] && dropped == map[] && split == map[];
      TotalOfNothing();
    }
  }

  lemma {:induction false} TotalOfNothing()
    ensures Total<string>(map[]) == 0
  {
  }

  /** Each share is the floor of the holder's part of the total. */
  lemma {:induction false} SharesAreFloors(total: int, balances: Table, x: string)
    requires total > 0 && x in balances && balances[x] > 0
    ensures
      var share, supply := Get(Split(total, balances), x), Total(Positives(balances));
      supply > 0 && share * supply <= total * balances[x] < (share + 1) * supply
  {
    PositivesKeep(balances, x);
    assert x in Positives(balances);
    SupplyPositive(Positives(balances));
    var supply := Total(Positives(balances));
    FloorBetween(total * balances[x], supply);
    SharePositive(total * balances[x], supply);
    hide Positives, Total;
  }

  lemma {:induction false} PositivesKeep(balances: Table, x: string)
    requires x in balances && balances[x] > 0
    ensures x in Positives(balances) && Positives(balances)[x] == balances[x]
  {
  }

  lemma {:induction false} FloorBetween(n: int, d: int)
    requires d > 0
    ensures n / d * d <= n < (n / d + 1) * d
  {
  }

  lemma {:induction false} SharePositive(n: int, d: int)
    requires d > 0 && n >= 0
    ensures n / d >= 0
  {
  }
}

/**
 * The Fabric chaincode: the same asset rules over a key-value store, with a
 * redundant list of the tokens each account owns. A transaction reads committed
 * state only; its writes take effect together, and only if it succeeds.
 */
module Chaincode {
  import opened Wrappers
  import opened Amounts
  import opened Ledger

  /** Keys with their parts kept apart. */
  datatype Key =
    | AssetKey(ref: string)
    | BalKey(ref: string, acct: string)
    | SupplyKey(ref: string)
    | FrozenKey(ref: string, acct: string)
    | AllowedKey(ref: string, acct: string)
    | OwnerKey(ref: string, tokenId: string)
    | OwnedKey(ref: string, acct: string)

  /** What the stored bytes decode to. */
  datatype Val = AssetVal(tokenType: TokenType, allowlistEnabled: bool) | Num(n: int) | One | Acct(a: string)
    | Ids(ids: seq<string>)

  type Store = map<Key, Val>

  function BigState(s: Store, k: Key): int {
    if k in s && s[k].Num? then s[k].n else 0
  }

  predicate Flag(s: Store, k: Key) {
    k in s && s[k] == One
  }

  function Owner(s: Store, ref: string, tokenId: string): Option<string> {
    var k := OwnerKey(ref, tokenId);
    if k in s && s[k].Acct? then Some(s[k].a) else None
  }

  function OwnedList(s: Store, ref: string, acct: string): seq<string> {
    var k := OwnedKey(ref, acct);
    if k in s && s[k].Ids? then s[k].ids else []
  }

  function LoadAsset(s: Store, ref: string): Option<Val> {
    var k := AssetKey(ref);
    if k in s && s[k].AssetVal? then Some(s[k]) else None
  }

  function Without(ids: seq<string>, tokenId: string): seq<string> {
    if ids == [] then [] else
      Without(ids[..|ids| - 1], tokenId) + if ids[|ids| - 1] != tokenId then [ids[|ids| - 1]] else []
  }

  function AmountGiven(amount: string): Result<int, LedgerError> {
    var n := GoBigInt(amount);
    if n.None? || n.value <= 0 then Failure(BadAmount) else Success(n.value)
  }

  /** The per-account test of the transfer loops: freeze first, then allowlist. */
  function Cleared(s: Store, a: Val, ref: string, acct: string): Option<LedgerError>
    requires a.AssetVal?
  {
    if Flag(s, FrozenKey(ref, acct)) then Some(AccountFrozen)
    else if a.allowlistEnabled && !Flag(s, AllowedKey(ref, acct)) then Some(NotAllowlisted)
    else None
  }

  /** The store after a transaction, or the error for which nothing is written. */
  function Invoke(s: Store, ref: string, op: Op): Result<Store, LedgerError> {
    var asset := LoadAsset(s, ref);
    match op
    case Mint(to, amount) =>
      if asset.None? then Failure(UnknownAsset)
      else if asset.value.allowlistEnabled && !Flag(s, AllowedKey(ref, to)) then Failure(NotAllowlisted)
      else if Flag(s, FrozenKey(ref, to)) then Failure(AccountFrozen)
      else if AmountGiven(amount).Failure? then Failure(BadAmount)
      else
        var amt := AmountGiven(amount).value;
        Success(s[BalKey(ref, to) := Num(BigState(s, BalKey(ref, to)) + amt)]
                 [SupplyKey(ref) := Num(BigState(s, SupplyKey(ref)) + amt)])
    case Transfer(from, to, amount) =>
      if asset.None? then Failure(UnknownAsset)
      else if Cleared(s, asset.value, ref, from).Some? then Failure(Cleared(s, asset.value, ref, from).value)
      else if Cleared(s, asset.value, ref, to).Some? then Failure(Cleared(s, asset.value, ref, to).value)
      else if AmountGiven(amount).Failure? then Failure(BadAmount)
      else
        var amt, fromBal, toBal :=
          AmountGiven(amount).value, BigState(s, BalKey(ref, from)), BigState(s, BalKey(ref, to));
        if fromBal < amt then Failure(InsufficientBalance)
        else Success(s[BalKey(ref, from) := Num(fromBal - amt)][BalKey(ref, to) := Num(toBal + amt)])
    case Burn(from, amount) =>
      if asset.None? then Failure(UnknownAsset)
      else if AmountGiven(amount).Failure? then Failure(BadAmount)
      else
        var amt, bal := AmountGiven(amount).value, BigState(s, BalKey(ref, from));
        if bal < amt then Failure(InsufficientBalance)
        else Success(s[BalKey(ref, from) := Num(bal - amt)][SupplyKey(ref) := Num(BigState(s, SupplyKey(ref)) - amt)])
    case MintToken(to, tokenId, _) =>
      if asset.None? then Failure(UnknownAsset)
      else if Owner(s, ref, tokenId).Some? then Failure(TokenExists)
      else if asset.value.allowlistEnabled && !Flag(s, AllowedKey(ref, to)) then Failure(NotAllowlisted)
      else if Flag(s, FrozenKey(ref, to)) then Failure(AccountFrozen)
      else Success(s[OwnerKey(ref, tokenId) := Acct(to)][OwnedKey(ref, to) := Ids(OwnedList(s, ref, to) + [tokenId])])
    case TransferToken(from, to, tokenId) =>
      if asset.None? then Failure(UnknownAsset)
      else if Owner(s, ref, tokenId) != Some(from) then Failure(NotTheOwner)
      else if Cleared(s, asset.value, ref, from).Some? then Failure(Cleared(s, asset.value, ref, from).value)
      else if Cleared(s, asset.value, ref, to).Some? then Failure(Cleared(s, asset.value, ref, to).value)
      else Success(s[OwnedKey(ref, from) := Ids(Without(OwnedList(s, ref, from), tokenId))]
                    [OwnerKey(ref, tokenId) := Acct(to)]
                    [OwnedKey(ref, to) := Ids(OwnedList(s, ref, to) + [tokenId])])
    case BurnToken(tokenId) =>
      var owner := Owner(s, ref, tokenId);
      if owner.None? then Failure(NoSuchToken)
      else Success(s[OwnedKey(ref, owner.value) := Ids(Without(OwnedList(s, ref, owner.value), tokenId))]
        - {OwnerKey(ref, tokenId)})
    case SetFrozen(acct, on) => Success(SetFlag(s, FrozenKey(ref, acct), on))
    case SetAllowed(acct, on) => Success(SetFlag(s, AllowedKey(ref, acct), on))
  }

  /** A refusal names something that is the case. */
  lemma {:induction false} ChainRefusesForCause(s: Store, ref: string, op: Op)
    requires Invoke(s, ref, op).Failure?
    ensures
      var e, asset := Invoke(s, ref, op).error, LoadAsset(s, ref);
      && e != NotPositive
      && (e == UnknownAsset ==> asset.None?)
      && (e == NotAllowlisted ==>
            asset.Some? && asset.value.allowlistEnabled && exists x :: x in Parties(op) && !Flag(s, AllowedKey(ref, x)))
      && (e == AccountFrozen ==> exists x :: x in Parties(op) && Flag(s, FrozenKey(ref, x)))
      && (e == BadAmount ==>
        (op.Mint? || op.Transfer? || op.Burn?) && (GoBigInt(op.amount).None? || GoBigInt(op.amount).value <= 0))
      && (e == InsufficientBalance ==>
        && (op.Transfer? || op.Burn?) && GoBigInt(op.amount).Some?
        && BigState(s, BalKey(ref, op.from)) < GoBigInt(op.amount).value)
      && (e == TokenExists ==> op.MintToken? && Owner(s, ref, op.tokenId).Some?)
      && (e == NotTheOwner ==> op.TransferToken? && Owner(s, ref, op.tokenId) != Some(op.from))
      && (e == NoSuchToken ==> op.BurnToken? && Owner(s, ref, op.tokenId).None?)
  {
    hide GoBigInt, Flag, Owner, OwnedList, BigState, Without;
    match op
    case Mint(to, _) => assert to in Parties(op);
    case MintToken(to, _, _) => assert to in Parties(op);
    case Transfer(from, to, _) => assert from in Parties(op) && to in Parties(op);
    case TransferToken(from, to, _) => assert from in Parties(op) && to in Parties(op);
    case _ =>
  }

  function SetFlag(s: Store, k: Key, on: bool): Store {
    if on then s[k := One] else s - {k}
  }

  // --- readers -------------------------------------------------------------------

  function ChainBalanceOf(s: Store, ref: string, acct: string): Result<int, LedgerError> {
    var a := LoadAsset(s, ref);
    if a.None? then Failure(UnknownAsset)
    else if a.value.tokenType == NonFungible then Success(|OwnedList(s, ref, acct)|)
    else Success(BigState(s, BalKey(ref, acct)))
  }

  function ChainTotalSupply(s: Store, ref: string): int {
    BigState(s, SupplyKey(ref))
  }

  // --- the contract as written ------------------------------------------------------

  ghost predicate Committed(before: Store, ref: string, op: Op, after: Store, r: Result<(), LedgerError>) {
    match Invoke(before, ref, op)
    case Success(s) => r == Success(()) && after == s
    case Failure(e) => r == Failure(e) && after == before
  }

  class SmartContract {
    var store: Store

    constructor ()
      ensures store == map[]
    {
      store := map[];
    }

    method DeployAsset(ref: string, tokenType: TokenType, allowlistEnabled: bool)
      modifies this
      ensures store == old(store)[AssetKey(ref) := AssetVal(tokenType, allowlistEnabled)]
    {
      store := store[AssetKey(ref) := AssetVal(tokenType, allowlistEnabled)];
    }

    method MintAmount(ref: string, to: string, amount: string) returns (r: Result<(), LedgerError>)
      modifies this
      ensures Committed(old(store), ref, Mint(to, amount), store, r)
    {
      var a := LoadAsset(store, ref);
      if a.None? { return Failure(UnknownAsset); }
      if a.value.allowlistEnabled && !Flag(store, AllowedKey(ref, to)) { return Failure(NotAllowlisted); }
      if Flag(store, FrozenKey(ref, to)) { return Failure(AccountFrozen); }
      var amt := GoBigInt(amount);
      if amt.None? || amt.value <= 0 { return Failure(BadAmount); }
      var writes := store;
      var bal, supply := BigState(store, BalKey(ref, to)), BigState(store, SupplyKey(ref));
      writes := writes[BalKey(ref, to) := Num(bal + amt.value)];
      writes := writes[SupplyKey(ref) := Num(supply + amt.value)];
      store := writes;
      r := Success(());
    }

    method TransferAmount(ref: string, from: string, to: string, amount: string) returns (r: Result<(), LedgerError>)
      modifies this
      ensures Committed(old(store), ref, Transfer(from, to, amount), store, r)
    {
      var a := LoadAsset(store, ref);
      if a.None? { return Failure(UnknownAsset); }
      var refusal := ClearBoth(a.value, ref, from, to);
      if refusal.Some? { return Failure(refusal.value); }
      var amt := GoBigInt(amount);
      if amt.None? || amt.value <= 0 { return Failure(BadAmount); }
      var fromBal := BigState(store, BalKey(ref, from));
      if fromBal < amt.value { return Failure(InsufficientBalance); }
      var toBal := BigState(store, BalKey(ref, to));
      var writes := store;
      writes := writes[BalKey(ref, from) := Num(fromBal - amt.value)];
      writes := writes[BalKey(ref, to) := Num(toBal + amt.value)];
      store := writes;
      r := Success(());
    }

    /** The loop over both parties: the first refusal met. */
    method ClearBoth(a: Val, ref: string, from: string, to: string) returns (refusal: Option<LedgerError>)
      requires a.AssetVal?
      ensures refusal == if Cleared(store, a, ref, from).Some? then Cleared(store, a, ref, from)
        else Cleared(store, a, ref, to)
    {
      var accts := [from, to];
      for i := 0 to |accts|
        invariant i >= 1 ==> Cleared(store, a, ref, from).None?
        invariant i >= 2 ==> Cleared(store, a, ref, to).None?
      {
        assert accts[i] == if i == 0 then from else to;
        if Flag(store, FrozenKey(ref, accts[i])) { return Some(AccountFrozen); }
        if a.allowlistEnabled && !Flag(store, AllowedKey(ref, accts[i])) { return Some(NotAllowlisted); }
      }
      refusal := None;
    }

    method BurnAmount(ref: string, from: string, amount: string) returns (r: Result<(), LedgerError>)
      modifies this
      ensures Committed(old(store), ref, Burn(from, amount), store, r)
    {
      if LoadAsset(store, ref).None? { return Failure(UnknownAsset); }
      var amt := GoBigInt(amount);
      if amt.None? || amt.value <= 0 { return Failure(BadAmount); }
      var bal := BigState(store, BalKey(ref, from));
      if bal < amt.value { return Failure(InsufficientBalance); }
      var supply, writes := BigState(store, SupplyKey(ref)), store;
      writes := writes[BalKey(ref, from) := Num(bal - amt.value)];
      writes := writes[SupplyKey(ref) := Num(supply - amt.value)];
      store := writes;
      r := Success(());
    }

    method MintNft(ref: string, to: string, tokenId: string, uri: Option<string>) returns (r: Result<(), LedgerError>)
      modifies this
      ensures Committed(old(store), ref, MintToken(to, tokenId, uri), store, r)
    {
      var a := LoadAsset(store, ref);
      if a.None? { return Failure(UnknownAsset); }
      if Owner(store, ref, tokenId).Some? { return Failure(TokenExists); }
      if a.value.allowlistEnabled && !Flag(store, AllowedKey(ref, to)) { return Failure(NotAllowlisted); }
      if Flag(store, FrozenKey(ref, to)) { return Failure(AccountFrozen); }
      var writes := store;
      writes := writes[OwnerKey(ref, tokenId) := Acct(to)];
      writes := writes[OwnedKey(ref, to) := Ids(OwnedList(store, ref, to) + [tokenId])];
      store := writes;
      r := Success(());
    }

    method TransferNft(ref: string, from: string, to: string, tokenId: string) returns (r: Result<(), LedgerError>)
      modifies this
      ensures Committed(old(store), ref, TransferToken(from, to, tokenId), store, r)
    {
      var a := LoadAsset(store, ref);
      if a.None? { return Failure(UnknownAsset); }
      if Owner(store, ref, tokenId) != Some(from) { return Failure(NotTheOwner); }
      var refusal := ClearBoth(a.value, ref, from, to);
      if refusal.Some? { return Failure(refusal.value); }
      var writes := store;
      var kept := RemoveOwned(OwnedList(store, ref, from), tokenId);
      writes := writes[OwnedKey(ref, from) := Ids(kept)];
      writes := writes[OwnerKey(ref, tokenId) := Acct(to)];
      writes := writes[OwnedKey(ref, to) := Ids(OwnedList(store, ref, to) + [tokenId])];
      store := writes;
      r := Success(());
    }

    method BurnNft(ref: string, tokenId: string) returns (r: Result<(), LedgerError>)
      modifies this
      ensures Committed(old(store), ref, BurnToken(tokenId), store, r)
    {
      var owner := Owner(store, ref, tokenId);
      if owner.None? { return Failure(NoSuchToken); }
      var writes := store;
      var kept := RemoveOwned(OwnedList(store, ref, owner.value), tokenId);
      writes := writes[OwnedKey(ref, owner.value) := Ids(kept)];
      writes := writes - {OwnerKey(ref, tokenId)};
      store := writes;
      r := Success(());
    }

    method PutFlag(ref: string, acct: string, frozen: bool, on: bool) returns (r: Result<(), LedgerError>)
      modifies this
      ensures Committed(old(store), ref, if frozen then SetFrozen(acct, on) else SetAllowed(acct, on), store, r)
    {
      var k := if frozen then FrozenKey(ref, acct) else AllowedKey(ref, acct);
      if on { store := store[k := One]; } else { store := store - {k}; }
      r := Success(());
    }
  }

  method RemoveOwned(list: seq<string>, tokenId: string) returns (kept: seq<string>)
    ensures kept == Without(list, tokenId)
  {
    var ids := new string[|list|](i requires 0 <= i < |list| => list[i]);
    assert ids[..] == list;
    var n := FilterInPlace(ids, tokenId);
    kept := ids[..n];
  }

  /** Filters over the backing array of the list it reads, as `out := ids[:0]` does. */
  method FilterInPlace(ids: array<string>, tokenId: string) returns (n: nat)
    modifies ids
    ensures n <= ids.Length && ids[..n] == Without(old(ids[..]), tokenId)
  {
    ghost var was := ids[..];
    n := 0;
    for i := 0 to ids.Length
      invariant n <= i && ids[..n] == Without(was[..i], tokenId)
      invariant ids[i..] == was[i..]
    {
      assert was[..i + 1][..i] == was[..i];
      var id := ids[i];
      assert id == ids[i..][0] == was[i];
      if id != tokenId {
        ids[n] := id;
        n := n + 1;
      }
      assert ids[i + 1..] == was[i..][1..];
    }
    assert was[..ids.Length] == was;
  }
}

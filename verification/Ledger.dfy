/**
 * The in-memory ledger behind the simulated chains: one compliance-aware asset
 * per contract, fungible or non-fungible, with an allowlist and a freeze list.
 */
module Ledger {
  import opened Wrappers
  import opened Sums
  import opened Amounts

  datatype TokenType = Fungible | NonFungible

  datatype AssetState = AssetState(
    tokenType: TokenType,
    allowlistEnabled: bool,
    balances: Table,
    supply: int,
    owners: map<string, string>,
    uris: map<string, string>,
    frozen: set<string>,
    allowed: set<string>)

  datatype Op =
    | Mint(to: string, amount: string)
    | Transfer(from: string, to: string, amount: string)
    | Burn(from: string, amount: string)
    | MintToken(to: string, tokenId: string, uri: Option<string>)
    | TransferToken(from: string, to: string, tokenId: string)
    | BurnToken(tokenId: string)
    | SetFrozen(account: string, on: bool)
    | SetAllowed(account: string, on: bool)

  datatype LedgerError =
    | UnknownAsset | BadAmount | NotPositive | NotAllowlisted | AccountFrozen
    | InsufficientBalance | TokenExists | NotTheOwner | NoSuchToken

  function Fresh(tokenType: TokenType, allowlistEnabled: bool): AssetState {
    AssetState(tokenType, allowlistEnabled, map[], 0, map[], map[], {}, {})
  }

  function Positive(amount: string): (r: Result<int, LedgerError>)
    ensures r.Success? ==> r.value > 0
  {
    match JsBigInt(amount)
    case None => Failure(BadAmount)
    case Some(n) => if n <= 0 then Failure(NotPositive) else Success(n)
  }

  predicate MayHold(a: AssetState, account: string) {
    a.allowlistEnabled ==> account in a.allowed
  }

  /** The accounts that a mint or a transfer names. */
  function Parties(op: Op): set<string> {
    match op
    case Mint(to, _) => {to}
    case MintToken(to, _, _) => {to}
    case Transfer(from, to, _) => {from, to}
    case TransferToken(from, to, _) => {from, to}
    case _ => {}
  }

  /** What one operation does to one asset; a Failure leaves the asset as it was. */
  function Apply(a: AssetState, op: Op): Result<AssetState, LedgerError> {
    match op
    case Mint(to, amount) =>
      var amt := Positive(amount);
      if amt.Failure? then Failure(amt.error)
      else if !MayHold(a, to) then Failure(NotAllowlisted)
      else if to in a.frozen then Failure(AccountFrozen)
      else Success(a.(balances := Add(a.balances, to, amt.value), supply := a.supply + amt.value))
    case Transfer(from, to, amount) =>
      var amt := Positive(amount);
      if amt.Failure? then Failure(amt.error)
      else if from in a.frozen || to in a.frozen then Failure(AccountFrozen)
      else if !MayHold(a, from) || !MayHold(a, to) then Failure(NotAllowlisted)
      else if Get(a.balances, from) < amt.value then Failure(InsufficientBalance)
      else Success(a.(balances := Add(Add(a.balances, from, -amt.value), to, amt.value)))
    case Burn(from, amount) =>
      var amt := Positive(amount);
      if amt.Failure? then Failure(amt.error)
      else if Get(a.balances, from) < amt.value then Failure(InsufficientBalance)
      else Success(a.(balances := Add(a.balances, from, -amt.value), supply := a.supply - amt.value))
    case MintToken(to, tokenId, uri) =>
      if tokenId in a.owners then Failure(TokenExists)
      else if !MayHold(a, to) then Failure(NotAllowlisted)
      else if to in a.frozen then Failure(AccountFrozen)
      else Success(a.(owners := a.owners[tokenId := to], uris := WithUri(a.uris, tokenId, uri)))
    case TransferToken(from, to, tokenId) =>
      if tokenId !in a.owners || a.owners[tokenId] != from then Failure(NotTheOwner)
      else if from in a.frozen || to in a.frozen then Failure(AccountFrozen)
      else if !MayHold(a, from) || !MayHold(a, to) then Failure(NotAllowlisted)
      else Success(a.(owners := a.owners[tokenId := to]))
    case BurnToken(tokenId) =>
      if tokenId !in a.owners then Failure(NoSuchToken)
      else Success(a.(owners := a.owners - {tokenId}, uris := a.uris - {tokenId}))
    case SetFrozen(account, on) =>
      Success(a.(frozen := if on then a.frozen + {account} else a.frozen - {account}))
    case SetAllowed(account, on) =>
      Success(a.(allowed := if on then a.allowed + {account} else a.allowed - {account}))
  }

  /** An empty or absent uri is not recorded. */
  function WithUri(uris: map<string, string>, tokenId: string, uri: Option<string>): map<string, string> {
    if uri.Some? && uri.value != "" then uris[tokenId := uri.value] else uris
  }

  /** The asset after an attempt: rejected operations change nothing. */
  function Attempt(a: AssetState, op: Op): (b: AssetState)
    ensures b.tokenType == a.tokenType && b.allowlistEnabled == a.allowlistEnabled
  {
    var r := Apply(a, op);
    if r.Success? then r.value else a
  }

  function Run(a: AssetState, ops: seq<Op>): AssetState {
    if ops == [] then a else Attempt(Run(a, ops[..|ops| - 1]), ops[|ops| - 1])
  }

  /** The caller's view of a run: for each operation, the error it got or None. */
  function Outcomes(a: AssetState, ops: seq<Op>): seq<Option<LedgerError>> {
    if ops == [] then [] else
      var r := Apply(Run(a, ops[..|ops| - 1]), ops[|ops| - 1]);
      Outcomes(a, ops[..|ops| - 1]) + [if r.Success? then None else Some(r.error)]
  }

  // --- readers ---------------------------------------------------------------

  function Held(owners: map<string, string>, account: string): set<string> {
    set t | t in owners && owners[t] == account
  }

  function TokensOf(a: AssetState, account: string): set<string> {
    Held(a.owners, account)
  }

  function OwnerOf(a: AssetState, tokenId: string): Option<string> {
    if tokenId in a.owners then Some(a.owners[tokenId]) else None
  }

  function BalanceOf(a: AssetState, account: string): int {
    if a.tokenType == NonFungible then |TokensOf(a, account)| else Get(a.balances, account)
  }

  function TotalSupply(a: AssetState): int {
    if a.tokenType == NonFungible then |a.owners| else a.supply
  }

  // --- conservation ------------------------------------------------------------

  ghost predicate Conserved(a: AssetState) {
    a.supply == Total(a.balances) && NonNegative(a.balances)
  }

  lemma {:induction false} ApplyConserves(a: AssetState, op: Op)
    requires Conserved(a)
    ensures Conserved(Attempt(a, op))
  {
    hide JsBigInt, Total;
    if Apply(a, op).Success? {
      match op
      case Mint(to, amount) => AddKeeps(a.balances, to, Positive(amount).value);
      case Transfer(from, to, amount) => TransferConserves(a, from, to, Positive(amount).value);
      case Burn(from, amount) => AddKeeps(a.balances, from, -Positive(amount).value);
      case _ =>
    }
  }

  lemma {:induction false} TransferConserves(a: AssetState, from: string, to: string, amt: int)
    requires NonNegative(a.balances) && 0 <= amt <= Get(a.balances, from)
    ensures
      var b := Add(Add(a.balances, from, -amt), to, amt);
      NonNegative(b) && Total(b) == Total(a.balances)
  {
    AddKeeps(a.balances, from, -amt);
    AddKeeps(Add(a.balances, from, -amt), to, amt);
  }

  /** In every reachable state, whatever was attempted, supply is the sum of the balances and none is negative. */
  lemma {:induction false} RunConserves(a: AssetState, ops: seq<Op>)
    requires Conserved(a)
    ensures Conserved(Run(a, ops))
  {
    if ops != [] {
      RunConserves(a, ops[..|ops| - 1]);
      ApplyConserves(Run(a, ops[..|ops| - 1]), ops[|ops| - 1]);
    }
  }

  lemma {:induction false} LedgerConserves(tokenType: TokenType, allowlistEnabled: bool, ops: seq<Op>)
    ensures Conserved(Run(Fresh(tokenType, allowlistEnabled), ops))
  {
    RunConserves(Fresh(tokenType, allowlistEnabled), ops);
  }

  ghost function Holdings(a: AssetState, accounts: set<string>): map<string, int> {
    map x | x in accounts :: BalanceOf(a, x)
  }

  /**
   * Through the readers, for both kinds of token: the total supply is the sum of
   * `balanceOf` over any set of accounts that includes every holder.
   */
  lemma {:induction false} SupplyIsSumOfHoldings(a: AssetState, accounts: set<string>)
    requires Conserved(a)
    requires forall x :: BalanceOf(a, x) != 0 ==> x in accounts
    ensures TotalSupply(a) == Total(Holdings(a, accounts))
  {
    if a.tokenType == Fungible {
      forall x: string ensures Get(Holdings(a, accounts), x) == Get(a.balances, x) {
        assert BalanceOf(a, x) == Get(a.balances, x);
      }
      SameReadsSameTotal(Holdings(a, accounts), a.balances);
    } else {
      forall t | t in a.owners ensures a.owners[t] in accounts {
        assert t in TokensOf(a, a.owners[t]);
        assert BalanceOf(a, a.owners[t]) != 0;
      }
      OwnersCounted(a.owners, accounts);
      assert Holdings(a, accounts) == Counts(a.owners, accounts);
    }
  }

  ghost function Counts(owners: map<string, string>, accounts: set<string>): map<string, int> {
    map x | x in accounts :: |Held(owners, x)|
  }

  /** Giving a token to `x` adds one to the count of `x` and to no other. */
  lemma {:induction false} HeldAfterGain(owners: map<string, string>, t: string, x: string)
    requires t !in owners
    ensures |Held(owners[t := x], x)| == |Held(owners, x)| + 1
    ensures forall y :: y != x ==> Held(owners[t := x], y) == Held(owners, y)
  {
    assert Held(owners[t := x], x) == Held(owners, x) + {t};
    forall y | y != x ensures Held(owners[t := x], y) == Held(owners, y) { }
  }

  lemma {:induction false} OwnersCounted(owners: map<string, string>, accounts: set<string>)
    requires forall t :: t in owners ==> owners[t] in accounts
    ensures |owners| == Total(Counts(owners, accounts))
    decreases owners
  {
    if t :| t in owners {
      var x, rest := owners[t], owners - {t};
      OwnersCounted(rest, accounts);
      Smaller(owners, t);
      assert owners == rest[t := x];
      HeldAfterGain(rest, t, x);
      assert Counts(owners, accounts) == Counts(rest, accounts)[x := |Held(rest, x)| + 1];
      TotalSet(Counts(rest, accounts), x, |Held(rest, x)| + 1);
    } else {
      forall x | x in accounts ensures |Held(owners, x)| == 0 { assert Held(owners, x) == {}; }
      TotalZero(Counts(owners, accounts));
    }
  }

  /** A transfer, accepted, moves exactly its amount between its two accounts; to oneself it changes no balance. */
  lemma {:induction false} TransferMoves(a: AssetState, from: string, to: string, amount: string, x: string)
    requires Apply(a, Transfer(from, to, amount)).Success?
    ensures
      var b, amt := Attempt(a, Transfer(from, to, amount)), Positive(amount).value;
      && Get(b.balances, x) == Get(a.balances, x) + (if x == to then amt else 0) - (if x == from then amt else 0)
      && amt > 0 && b == a.(balances := b.balances)
  {
  }

  /** What a method call leaves behind: the state and the answer that `Apply` gives, for that contract alone. */
  ghost predicate Performed(before: map<string, AssetState>, ref: string, op: Op,
                            after: map<string, AssetState>, r: Result<(), LedgerError>) {
    if ref !in before then r == Failure(UnknownAsset) && after == before
    else match Apply(before[ref], op)
      case Success(b) => r == Success(()) && after == before[ref := b]
      case Failure(e) => r == Failure(e) && after == before
  }

  class SimulatedLedger {
    var assets: map<string, AssetState>

    constructor ()
      ensures assets == map[]
    {
      assets := map[];
    }

    method Create(ref: string, tokenType: TokenType, allowlistEnabled: bool)
      modifies this
      ensures assets == old(assets)[ref := Fresh(tokenType, allowlistEnabled)]
    {
      assets := assets[ref := AssetState(tokenType, allowlistEnabled, map[], 0, map[], map[], {}, {})];
    }

    /** Installs a whole state, whatever the contract held before, without any check. */
    method Hydrate(ref: string, state: AssetState)
      modifies this
      ensures assets == old(assets)[ref := state]
    {
      assets := assets[ref := state];
    }

    method MintAmount(ref: string, to: string, amount: string) returns (r: Result<(), LedgerError>)
      modifies this
      ensures Performed(old(assets), ref, Mint(to, amount), assets, r)
    {
      if ref !in assets { return Failure(UnknownAsset); }
      var a := assets[ref];
      var amt := Positive(amount);
      if amt.Failure? { return Failure(amt.error); }
      if a.allowlistEnabled && to !in a.allowed { return Failure(NotAllowlisted); }
      if to in a.frozen { return Failure(AccountFrozen); }
      a := a.(balances := a.balances[to := Get(a.balances, to) + amt.value]);
      a := a.(supply := a.supply + amt.value);
      assets := assets[ref := a];
      r := Success(());
    }

    method TransferAmount(ref: string, from: string, to: string, amount: string) returns (r: Result<(), LedgerError>)
      modifies this
      ensures Performed(old(assets), ref, Transfer(from, to, amount), assets, r)
    {
      if ref !in assets { return Failure(UnknownAsset); }
      var a := assets[ref];
      var amt := Positive(amount);
      if amt.Failure? { return Failure(amt.error); }
      if from in a.frozen || to in a.frozen { return Failure(AccountFrozen); }
      if a.allowlistEnabled && (from !in a.allowed || to !in a.allowed) { return Failure(NotAllowlisted); }
      var bal := Get(a.balances, from);
      if bal < amt.value { return Failure(InsufficientBalance); }
      a := a.(balances := a.balances[from := bal - amt.value]);
      a := a.(balances := a.balances[to := Get(a.balances, to) + amt.value]);
      assets := assets[ref := a];
      r := Success(());
    }

    method BurnAmount(ref: string, from: string, amount: string) returns (r: Result<(), LedgerError>)
      modifies this
      ensures Performed(old(assets), ref, Burn(from, amount), assets, r)
    {
      if ref !in assets { return Failure(UnknownAsset); }
      var a := assets[ref];
      var amt := Positive(amount);
      if amt.Failure? { return Failure(amt.error); }
      var bal := Get(a.balances, from);
      if bal < amt.value { return Failure(InsufficientBalance); }
      a := a.(balances := a.balances[from := bal - amt.value]);
      a := a.(supply := a.supply - amt.value);
      assets := assets[ref := a];
      r := Success(());
    }

    method MintNft(ref: string, to: string, tokenId: string, uri: Option<string>) returns (r: Result<(), LedgerError>)
      modifies this
      ensures Performed(old(assets), ref, MintToken(to, tokenId, uri), assets, r)
    {
      if ref !in assets { return Failure(UnknownAsset); }
      var a := assets[ref];
      if tokenId in a.owners { return Failure(TokenExists); }
      if a.allowlistEnabled && to !in a.allowed { return Failure(NotAllowlisted); }
      if to in a.frozen { return Failure(AccountFrozen); }
      a := a.(owners := a.owners[tokenId := to]);
      if uri.Some? && uri.value != "" { a := a.(uris := a.uris[tokenId := uri.value]); }
      assets := assets[ref := a];
      r := Success(());
    }

    method TransferNft(ref: string, from: string, to: string, tokenId: string) returns (r: Result<(), LedgerError>)
      modifies this
      ensures Performed(old(assets), ref, TransferToken(from, to, tokenId), assets, r)
    {
      if ref !in assets { return Failure(UnknownAsset); }
      var a := assets[ref];
      if tokenId !in a.owners || a.owners[tokenId] != from { return Failure(NotTheOwner); }
      if from in a.frozen || to in a.frozen { return Failure(AccountFrozen); }
      if a.allowlistEnabled && (from !in a.allowed || to !in a.allowed) { return Failure(NotAllowlisted); }
      a := a.(owners := a.owners[tokenId := to]);
      assets := assets[ref := a];
      r := Success(());
    }

    method BurnNft(ref: string, tokenId: string) returns (r: Result<(), LedgerError>)
      modifies this
      ensures Performed(old(assets), ref, BurnToken(tokenId), assets, r)
    {
      if ref !in assets { return Failure(UnknownAsset); }
      var a := assets[ref];
      if tokenId !in a.owners { return Failure(NoSuchToken); }
      a := a.(owners := a.owners - {tokenId});
      a := a.(uris := a.uris - {tokenId});
      assets := assets[ref := a];
      r := Success(());
    }

    method Freeze(ref: string, account: string, on: bool) returns (r: Result<(), LedgerError>)
      modifies this
      ensures Performed(old(assets), ref, SetFrozen(account, on), assets, r)
    {
      if ref !in assets { return Failure(UnknownAsset); }
      var a := assets[ref];
      if on { a := a.(frozen := a.frozen + {account}); } else { a := a.(frozen := a.frozen - {account}); }
      assets := assets[ref := a];
      r := Success(());
    }

    method Allow(ref: string, account: string, on: bool) returns (r: Result<(), LedgerError>)
      modifies this
      ensures Performed(old(assets), ref, SetAllowed(account, on), assets, r)
    {
      if ref !in assets { return Failure(UnknownAsset); }
      var a := assets[ref];
      if on { a := a.(allowed := a.allowed + {account}); } else { a := a.(allowed := a.allowed - {account}); }
      assets := assets[ref := a];
      r := Success(());
    }
  }
}

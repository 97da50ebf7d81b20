/**
 * Boot replay: a contract's combined audit trail is folded into the ledger
 * state it should have, and installed over the empty shell.
 */
module LedgerReplay {
  import opened Wrappers
  import opened Sums
  import opened Amounts
  import opened Ledger
  import opened Trail

  datatype Replayed = Replayed(
    balances: Table, supply: int, owners: map<string, string>, uris: map<string, string>,
    frozen: set<string>, allowed: set<string>)

  const NOTHING_REPLAYED: Replayed := Replayed(map[], 0, map[], map[], {}, {})

  function ReplayStep(s: Replayed, e: Entry): Replayed {
    var amt := AmountOf(e.p.amount);
    match e.action
    case Mint =>
      if TokenOf(e).Some? then
        var t := TokenOf(e).value;
        if t in s.owners then s else
          s.(owners := s.owners[t := Text(e.p.to)], uris := WithUri(s.uris, t, e.p.uri),
             supply := s.supply + 1, balances := Bump(s.balances, e.p.to, 1))
      else s.(supply := s.supply + amt, balances := Bump(s.balances, e.p.to, amt))
    case Transfer =>
      if TokenOf(e).Some? then
        var t := TokenOf(e).value;
        var cur := if t in s.owners then Some(s.owners[t]) else e.p.from;
        s.(owners := s.owners[t := Text(e.p.to)], balances := Bump(Bump(s.balances, cur, -1), e.p.to, 1))
      else s.(balances := Bump(Bump(s.balances, e.p.from, -amt), e.p.to, amt))
    case Buy =>
      var debit := if e.p.secondary && e.p.seller.Some? then e.p.seller else e.p.from;
      s.(balances := Bump(Bump(s.balances, debit, -amt), e.p.to, amt))
    case Burn =>
      if TokenOf(e).Some? then
        var t := TokenOf(e).value;
        if t !in s.owners then s else
          s.(supply := s.supply - 1, balances := Bump(s.balances, Some(s.owners[t]), -1),
             owners := s.owners - {t}, uris := s.uris - {t})
      else s.(supply := s.supply - amt, balances := Bump(s.balances, e.p.from, -amt))
    case Freeze => if e.p.account.Some? then s.(frozen := s.frozen + {e.p.account.value}) else s
    case Unfreeze => if e.p.account.Some? then s.(frozen := s.frozen - {e.p.account.value}) else s
    case Allow => if e.p.account.Some? then s.(allowed := s.allowed + {e.p.account.value}) else s
    case Disallow => if e.p.account.Some? then s.(allowed := s.allowed - {e.p.account.value}) else s
    case _ => s
  }

  function Replay(entries: seq<Entry>): Replayed {
    if entries == [] then NOTHING_REPLAYED
    else ReplayStep(Replay(entries[..|entries| - 1]), entries[|entries| - 1])
  }

  method FoldLedgerState(entries: seq<Entry>) returns (r: Replayed)
    ensures r == Replay(entries)
  {
    var balances: Table := map[];
    var owners: map<string, string> := map[];
    var uris: map<string, string> := map[];
    var frozen: set<string> := {};
    var allowed: set<string> := {};
    var supply := 0;
    for i := 0 to |entries|
      invariant Replayed(balances, supply, owners, uris, frozen, allowed) == Replay(entries[..i])
    {
      assert entries[..i + 1][..i] == entries[..i];
      var e := entries[i];
      var p := e.p;
      var tokenId := TokenOf(e);
      match e.action {
        case Mint =>
          if tokenId.Some? {
            if tokenId.value !in owners {
              owners := owners[tokenId.value := Text(p.to)];
              if p.uri.Some? && p.uri.value != "" { uris := uris[tokenId.value := p.uri.value]; }
              supply := supply + 1;
              balances := Bump(balances, p.to, 1);
            }
          } else {
            var amt := AmountOf(p.amount);
            supply := supply + amt;
            balances := Bump(balances, p.to, amt);
          }
        case Transfer =>
          if tokenId.Some? {
            var cur := if tokenId.value in owners then Some(owners[tokenId.value]) else p.from;
            balances := Bump(balances, cur, -1);
            owners := owners[tokenId.value := Text(p.to)];
            balances := Bump(balances, p.to, 1);
          } else {
            var amt := AmountOf(p.amount);
            balances := Bump(balances, p.from, -amt);
            balances := Bump(balances, p.to, amt);
          }
        case Buy =>
          var amt := AmountOf(p.amount);
          var debit := if p.secondary && p.seller.Some? then p.seller else p.from;
          balances := Bump(balances, debit, -amt);
          balances := Bump(balances, p.to, amt);
        case Burn =>
          if tokenId.Some? {
            if tokenId.value in owners {
              var cur := owners[tokenId.value];
              supply := supply - 1;
              balances := Bump(balances, Some(cur), -1);
              owners := owners - {tokenId.value};
              uris := uris - {tokenId.value};
            }
          } else {
            var amt := AmountOf(p.amount);
            supply := supply - amt;
            balances := Bump(balances, p.from, -amt);
          }
        case Freeze => if p.account.Some? { frozen := frozen + {p.account.value}; }
        case Unfreeze => if p.account.Some? { frozen := frozen - {p.account.value}; }
        case Allow => if p.account.Some? { allowed := allowed + {p.account.value}; }
        case Disallow => if p.account.Some? { allowed := allowed - {p.account.value}; }
        case _ =>
      }
    }
    assert entries[..|entries|] == entries;
    r := Replayed(balances, supply, owners, uris, frozen, allowed);
  }

  /** The asset that `hydrate` installs. */
  function Hydrated(kind: TokenType, allowlistEnabled: bool, r: Replayed): AssetState {
    AssetState(kind, allowlistEnabled, r.balances, r.supply, r.owners, r.uris, r.frozen, r.allowed)
  }

  // --- bisimulation -------------------------------------------------------------

  /**
   * No reader and no operation of the asset's own kind can tell the two apart.
   * A replayed non-fungible contract carries balances and a supply that the live
   * one does not, and nothing of its kind ever looks at them.
   */
  ghost predicate Agree(a: AssetState, h: AssetState) {
    && a.tokenType == h.tokenType && a.allowlistEnabled == h.allowlistEnabled
    && a.owners == h.owners && a.uris == h.uris
    && a.frozen == h.frozen && a.allowed == h.allowed
    && (a.tokenType == Fungible ==> SameReads(a.balances, h.balances) && a.supply == h.supply)
  }

  /** Every reader answers the same on both. */
  ghost predicate ReadTheSame(a: AssetState, h: AssetState) {
    && (forall x :: BalanceOf(a, x) == BalanceOf(h, x))
    && TotalSupply(a) == TotalSupply(h)
    && (forall t :: OwnerOf(a, t) == OwnerOf(h, t))
    && (forall x :: TokensOf(a, x) == TokensOf(h, x))
    && (forall x :: x in a.frozen <==> x in h.frozen)
    && (forall x :: x in a.allowed <==> x in h.allowed)
  }

  lemma {:induction false} AgreeReads(a: AssetState, h: AssetState)
    requires Agree(a, h)
    ensures ReadTheSame(a, h)
  {
  }

  lemma {:induction false} SameReadsAdd(a: Table, b: Table, k: string, d: int)
    requires SameReads(a, b)
    ensures SameReads(Add(a, k, d), Add(b, k, d))
  {
    assert Get(a, k) == Get(b, k);
    forall j: string ensures Get(Add(a, k, d), j) == Get(Add(b, k, d), j) {
      assert Get(a, j) == Get(b, j);
    }
  }

  /** One operation: the same answer, the same error, and agreement afterwards. */
  lemma {:induction false} AgreeStep(a: AssetState, h: AssetState, op: Op)
    requires Agree(a, h) && OfKind(a.tokenType, op)
    ensures Apply(a, op).Success? <==> Apply(h, op).Success?
    ensures Apply(a, op).Failure? ==> Apply(a, op) == Apply(h, op)
    ensures Agree(Attempt(a, op), Attempt(h, op))
  {
    hide JsBigInt, Add;
    match op
    case Mint(to, amount) =>
      var amt := Positive(amount);
      if amt.Success? { SameReadsAdd(a.balances, h.balances, to, amt.value); }
    case Transfer(from, to, amount) =>
      assert Get(a.balances, from) == Get(h.balances, from);
      var amt := Positive(amount);
      if amt.Success? {
        SameReadsAdd(a.balances, h.balances, from, -amt.value);
        SameReadsAdd(Add(a.balances, from, -amt.value), Add(h.balances, from, -amt.value), to, amt.value);
      }
    case Burn(from, amount) =>
      assert Get(a.balances, from) == Get(h.balances, from);
      var amt := Positive(amount);
      if amt.Success? { SameReadsAdd(a.balances, h.balances, from, -amt.value); }
    case _ =>
  }

  predicate AllOfKind(kind: TokenType, ops: seq<Op>) {
    forall i :: 0 <= i < |ops| ==> OfKind(kind, ops[i])
  }

  lemma {:induction false} AgreeForever(a: AssetState, h: AssetState, ops: seq<Op>)
    requires Agree(a, h) && AllOfKind(a.tokenType, ops)
    ensures Outcomes(a, ops) == Outcomes(h, ops)
    ensures Agree(Run(a, ops), Run(h, ops))
    ensures Run(a, ops).tokenType == a.tokenType
  {
    if ops != [] {
      var init := ops[..|ops| - 1];
      AgreeForever(a, h, init);
      AgreeStep(Run(a, init), Run(h, init), ops[|ops| - 1]);
    }
  }

  /** Calls that move nothing through escrow. */
  predicate NonMarket(c: Call) {
    !c.EscrowList? && !c.EscrowRelease? && !c.SettleFromEscrow?
  }

  /** The calls whose audit entry says what the ledger did. */
  predicate Replayable(c: Call) {
    match c
    case DoMint(to, amount) => to != "" && IsDecimal(amount)
    case DoTransfer(from, to, amount) => from == to || (from != "" && to != "" && IsDecimal(amount))
    case DoBuy(from, to, amount) => from == to || (from != "" && to != "" && IsDecimal(amount))
    case DoBurn(from, amount) => from != "" && IsDecimal(amount)
    case DoMintToken(_, tokenId, _) => tokenId != ""
    case DoTransferToken(from, to, tokenId) => tokenId != "" || from == to
    case DoBurnToken(tokenId) => tokenId != ""
    case _ => true
  }

  ghost predicate InStep(a: AssetState, r: Replayed) {
    Agree(a, Hydrated(a.tokenType, a.allowlistEnabled, r))
  }

  /** A transfer-shaped entry against the transfer it records. */
  lemma {:induction false} MoveAgreesIff(live: Table, replayed: Table, from: string, to: string, amt: int, read: int)
    requires SameReads(live, replayed) && amt > 0 && (read == amt || read == 0)
    ensures
      SameReads(Add(Add(live, from, -amt), to, amt), Bump(Bump(replayed, Some(from), -read), Some(to), read))
      <==> from == to || (from != "" && to != "" && read == amt)
  {
    var l, r := Add(Add(live, from, -amt), to, amt), Bump(Bump(replayed, Some(from), -read), Some(to), read);
    assert Get(live, from) == Get(replayed, from) && Get(live, to) == Get(replayed, to);
    if from == to || (from != "" && to != "" && read == amt) {
      forall k: string ensures Get(l, k) == Get(r, k) { assert Get(live, k) == Get(replayed, k); }
    } else {
      assert Get(l, from) != Get(r, from) || Get(l, to) != Get(r, to);
    }
  }

  lemma {:induction false} BumpAgreesIff(live: Table, replayed: Table, who: string, amt: int, read: int)
    requires SameReads(live, replayed) && amt != 0 && (read == amt || read == 0)
    ensures SameReads(Add(live, who, amt), Bump(replayed, Some(who), read)) <==> who != "" && read == amt
  {
    var l, r := Add(live, who, amt), Bump(replayed, Some(who), read);
    assert Get(live, who) == Get(replayed, who);
    if who != "" && read == amt {
      forall k: string ensures Get(l, k) == Get(r, k) { assert Get(live, k) == Get(replayed, k); }
    } else {
      assert Get(l, who) != Get(r, who);
    }
  }

  /** The amount an accepted call moved, and what the fold reads for it. */
  lemma {:induction false} ReadAmount(amount: string)
    requires Positive(amount).Success?
    ensures AmountOf(Some(amount)) == if IsDecimal(amount) then Positive(amount).value else 0
  {
  }

  /**
   * One accepted call and its entry keep replay in step with the live ledger
   * exactly when the call is replayable: "0x10", an empty address and an empty
   * token id are where the two part.
   */
  lemma {:induction false} StepReplaysIff(a: AssetState, r: Replayed, c: Call)
    requires InStep(a, r) && NonMarket(c) && OfKind(a.tokenType, LedgerOp(c))
    requires Apply(a, LedgerOp(c)).Success?
    ensures InStep(Attempt(a, LedgerOp(c)), ReplayStep(r, EntryOf(c))) <==> Replayable(c)
  {
    if c.DoMint? || c.DoBurn? {
      SupplyStepReplaysIff(a, r, c);
    } else if c.DoTransfer? || c.DoBuy? {
      MoveStepReplaysIff(a, r, c);
    } else {
      TokenStepReplaysIff(a, r, c);
    }
  }

  lemma {:induction false} SupplyStepReplaysIff(a: AssetState, r: Replayed, c: Call)
    requires InStep(a, r) && a.tokenType == Fungible && (c.DoMint? || c.DoBurn?)
    requires Apply(a, LedgerOp(c)).Success?
    ensures InStep(Attempt(a, LedgerOp(c)), ReplayStep(r, EntryOf(c))) <==> Replayable(c)
  {
    hide JsBigInt, Add, Get;
    ReadAmount(c.amount);
    var b, s := Attempt(a, LedgerOp(c)), ReplayStep(r, EntryOf(c));
    var read, amt := AmountOf(Some(c.amount)), Positive(c.amount).value;
    if c.DoMint? {
      assert b == a.(balances := Add(a.balances, c.to, amt), supply := a.supply + amt);
      assert s == r.(balances := Bump(r.balances, Some(c.to), read), supply := r.supply + read);
      BumpAgreesIff(a.balances, r.balances, c.to, amt, read);
    } else {
      assert b == a.(balances := Add(a.balances, c.from, -amt), supply := a.supply - amt);
      assert s == r.(balances := Bump(r.balances, Some(c.from), -read), supply := r.supply - read);
      BumpAgreesIff(a.balances, r.balances, c.from, -amt, -read);
    }
    FungibleInStep(a, r, b, s);
  }

  lemma {:induction false} FungibleInStep(a: AssetState, r: Replayed, b: AssetState, s: Replayed)
    requires InStep(a, r) && a.tokenType == Fungible
    requires b == a.(balances := b.balances, supply := b.supply)
    requires s == r.(balances := s.balances, supply := s.supply)
    ensures InStep(b, s) <==> SameReads(b.balances, s.balances) && b.supply == s.supply
  {
  }

  lemma {:induction false} MoveStepReplaysIff(a: AssetState, r: Replayed, c: Call)
    requires InStep(a, r) && a.tokenType == Fungible && (c.DoTransfer? || c.DoBuy?)
    requires Apply(a, LedgerOp(c)).Success?
    ensures InStep(Attempt(a, LedgerOp(c)), ReplayStep(r, EntryOf(c))) <==> Replayable(c)
  {
    hide JsBigInt, Add, Get;
    ReadAmount(c.amount);
    var b, s := Attempt(a, LedgerOp(c)), ReplayStep(r, EntryOf(c));
    var read, amt := AmountOf(Some(c.amount)), Positive(c.amount).value;
    assert b == a.(balances := Add(Add(a.balances, c.from, -amt), c.to, amt));
    assert s == r.(balances := Bump(Bump(r.balances, Some(c.from), -read), Some(c.to), read));
    MoveAgreesIff(a.balances, r.balances, c.from, c.to, amt, read);
    FungibleInStep(a, r, b, s);
  }

  lemma {:induction false} TokenStepReplaysIff(a: AssetState, r: Replayed, c: Call)
    requires InStep(a, r) && OfKind(a.tokenType, LedgerOp(c))
    requires c.DoMintToken? || c.DoTransferToken? || c.DoBurnToken? || c.DoFreeze? || c.DoAllow?
    requires Apply(a, LedgerOp(c)).Success?
    ensures InStep(Attempt(a, LedgerOp(c)), ReplayStep(r, EntryOf(c))) <==> Replayable(c)
  {
    hide IsDecimal, Positive, AmountOf, Bump;
    if c.DoTransferToken? && c.tokenId == "" && c.from != c.to {
      assert Attempt(a, LedgerOp(c)).owners[c.tokenId] == c.to != a.owners[c.tokenId];
    } else if c.DoBurnToken? && c.tokenId == "" {
      assert c.tokenId !in Attempt(a, LedgerOp(c)).owners;
    }
  }

  predicate Ordinary(calls: seq<Call>) {
    forall i :: 0 <= i < |calls| ==> NonMarket(calls[i]) && Replayable(calls[i])
  }

  lemma {:induction false} OrdinaryMore(calls: seq<Call>, c: Call)
    ensures Ordinary(calls + [c]) <==> Ordinary(calls) && NonMarket(c) && Replayable(c)
  {
    if Ordinary(calls + [c]) {
      assert (calls + [c])[|calls|] == c;
      forall i | 0 <= i < |calls| ensures NonMarket(calls[i]) && Replayable(calls[i]) {
        assert (calls + [c])[i] == calls[i];
      }
    }
  }

  lemma {:induction false} ReplayKeepsStep(a: AssetState, calls: seq<Call>)
    requires InStep(a, NOTHING_REPLAYED) && OfOneKind(a.tokenType, Accepted(a, calls)) && Ordinary(Accepted(a, calls))
    ensures InStep(After(a, calls), Replay(TrailOf(a, calls)))
  {
    if calls != [] {
      var init, c := calls[..|calls| - 1], calls[|calls| - 1];
      OneKindMore(a.tokenType, Accepted(a, init), c);
      OrdinaryMore(Accepted(a, init), c);
      ReplayKeepsStep(a, init);
      var live, trail := After(a, init), TrailOf(a, init);
      if Apply(live, LedgerOp(c)).Success? {
        StepReplaysIff(live, Replay(trail), c);
        assert (trail + [EntryOf(c)])[..|trail|] == trail;
      } else {
        assert trail + [] == trail;
      }
    }
  }

  /**
   * A restart is invisible. For every run on a one-kind contract of which the
   * accepted calls are not the market's, whatever was refused besides, hydrating from
   * the folded trail gives a ledger that answers every reader as the live one does,
   * gives every later operation the same answer, and still agrees after every
   * continuation.
   */
  lemma {:induction false} RestartIsInvisible(kind: TokenType, allowlistEnabled: bool, calls: seq<Call>, more: seq<Op>)
    requires
      var accepted := Accepted(Fresh(kind, allowlistEnabled), calls);
      OfOneKind(kind, accepted) && Ordinary(accepted) && AllOfKind(kind, more)
    ensures
      var shell := Fresh(kind, allowlistEnabled);
      var live, restarted := After(shell, calls), Hydrated(kind, allowlistEnabled, Replay(TrailOf(shell, calls)));
      && Outcomes(live, more) == Outcomes(restarted, more)
      && ReadTheSame(Run(live, more), Run(restarted, more))
  {
    var shell := Fresh(kind, allowlistEnabled);
    ReplayKeepsStep(shell, calls);
    var live, restarted := After(shell, calls), Hydrated(kind, allowlistEnabled, Replay(TrailOf(shell, calls)));
    AgreeForever(live, restarted, more);
    AgreeReads(Run(live, more), Run(restarted, more));
  }

  // --- a call whose record is lost --------------------------------------------------------------------

  /** The call leaves the ledger as it is. */
  predicate MovesNothing(a: AssetState, op: Op) {
    match op
    case Transfer(from, to, _) => from == to
    case TransferToken(from, to, _) => from == to
    case SetFrozen(account, on) => (account in a.frozen) == on
    case SetAllowed(account, on) => (account in a.allowed) == on
    case _ => false
  }

  /**
   * The record is written after the ledger is. If that fails, or a crash comes between
   * them, the trail stays in step with the ledger exactly when the call moved nothing.
   */
  lemma {:induction false} UnrecordedKeepsStepIff(a: AssetState, r: Replayed, op: Op)
    requires InStep(a, r) && OfKind(a.tokenType, op) && Apply(a, op).Success?
    ensures InStep(Attempt(a, op), r) <==> MovesNothing(a, op)
  {
    if op.Mint? || op.Burn? || op.Transfer? { UnrecordedUnits(a, r, op); } else { UnrecordedTokens(a, r, op); }
  }

  lemma {:induction false} UnrecordedUnits(a: AssetState, r: Replayed, op: Op)
    requires InStep(a, r) && a.tokenType == Fungible && (op.Mint? || op.Burn? || op.Transfer?)
    requires Apply(a, op).Success?
    ensures InStep(Attempt(a, op), r) <==> MovesNothing(a, op)
  {
    hide JsBigInt;
    var b := Attempt(a, op);
    FungibleInStep(a, r, b, r);
    if op.Transfer? {
      assert Get(a.balances, op.from) == Get(r.balances, op.from);
      if op.from == op.to {
        assert SameReads(b.balances, a.balances);
      } else {
        assert Get(b.balances, op.from) != Get(r.balances, op.from);
      }
    }
  }

  lemma {:induction false} UnrecordedTokens(a: AssetState, r: Replayed, op: Op)
    requires InStep(a, r) && OfKind(a.tokenType, op) && Apply(a, op).Success?
    requires op.MintToken? || op.TransferToken? || op.BurnToken? || op.SetFrozen? || op.SetAllowed?
    ensures InStep(Attempt(a, op), r) <==> MovesNothing(a, op)
  {
    hide JsBigInt, Get, Add;
    var b := Attempt(a, op);
    if op.MintToken? { assert op.tokenId in b.owners && op.tokenId !in a.owners; }
    else if op.BurnToken? { assert op.tokenId !in b.owners && op.tokenId in a.owners; }
    else if op.TransferToken? { assert b.owners[op.tokenId] == op.to && a.owners[op.tokenId] == op.from; }
    else if op.SetFrozen? { assert op.account in b.frozen <==> op.on; }
    else { assert op.account in b.allowed <==> op.on; }
  }
}

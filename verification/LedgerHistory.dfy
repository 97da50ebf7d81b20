/**
 * The ledger as its history: what the calls that were accepted say that every account and
 * every token has, and which calls they make lawful.
 */
module LedgerHistory {
  import opened Wrappers
  import opened Sums
  import opened Amounts
  import opened Ledger

  /** The operations of a run that were accepted. */
  function Accepted(a: AssetState, ops: seq<Op>): seq<Op> {
    if ops == [] then [] else
      var init, op := ops[..|ops| - 1], ops[|ops| - 1];
      Accepted(a, init) + if Apply(Run(a, init), op).Success? then [op] else []
  }

  /** What one accepted operation gives an account, less what it takes from it. */
  function Gain(op: Op, account: string): int {
    match op
    case Mint(to, amount) => if to == account then Units(amount) else 0
    case Transfer(from, to, amount) =>
      (if to == account then Units(amount) else 0) - (if from == account then Units(amount) else 0)
    case Burn(from, amount) => if from == account then -Units(amount) else 0
    case _ => 0
  }

  function Gains(past: seq<Op>, account: string): int {
    if past == [] then 0 else Gains(past[..|past| - 1], account) + Gain(past[|past| - 1], account)
  }

  /** Everything minted, less everything burned. */
  function Issued(past: seq<Op>): int {
    if past == [] then 0 else
      Issued(past[..|past| - 1])
        + match past[|past| - 1] case Mint(_, n) => Units(n) case Burn(_, n) => -Units(n) case _ => 0
  }

  /** Whom a token last went to, unless it has been burned since. */
  function Owner(past: seq<Op>, tokenId: string): Option<string> {
    if past == [] then None else
      var before := Owner(past[..|past| - 1], tokenId);
      match past[|past| - 1]
      case MintToken(to, t, _) => if t == tokenId then Some(to) else before
      case TransferToken(_, to, t) => if t == tokenId then Some(to) else before
      case BurnToken(t) => if t == tokenId then None else before
      case _ => before
  }

  /** The uri it was minted with, if that was not empty and it has not been burned since. */
  function Uri(past: seq<Op>, tokenId: string): Option<string> {
    if past == [] then None else
      var before := Uri(past[..|past| - 1], tokenId);
      match past[|past| - 1]
      case MintToken(_, t, uri) => if t != tokenId then before else if uri == Some("") then None else uri
      case BurnToken(t) => if t == tokenId then None else before
      case _ => before
  }

  /** The last word on an account, of those that freeze it or release it. */
  predicate Frozen(past: seq<Op>, account: string) {
    past != [] &&
    match past[|past| - 1]
    case SetFrozen(x, on) => if x == account then on else Frozen(past[..|past| - 1], account)
    case _ => Frozen(past[..|past| - 1], account)
  }

  predicate Allowed(past: seq<Op>, account: string) {
    past != [] &&
    match past[|past| - 1]
    case SetAllowed(x, on) => if x == account then on else Allowed(past[..|past| - 1], account)
    case _ => Allowed(past[..|past| - 1], account)
  }

  /** An account that is not frozen and, where there is an allowlist, is on it. */
  predicate Clear(past: seq<Op>, allowlist: bool, account: string) {
    !Frozen(past, account) && (allowlist ==> Allowed(past, account))
  }

  /**
   * What the accepted calls so far make lawful: an amount is positive and covered, a token is
   * new or its owner's, and every account that a mint or a transfer names is clear.
   */
  predicate Lawful(past: seq<Op>, allowlist: bool, op: Op) {
    match op
    case Mint(to, amount) => Units(amount) > 0 && Clear(past, allowlist, to)
    case Transfer(from, to, amount) =>
      && 0 < Units(amount) <= Gains(past, from)
      && Clear(past, allowlist, from) && Clear(past, allowlist, to)
    case Burn(from, amount) => 0 < Units(amount) <= Gains(past, from)
    case MintToken(to, tokenId, _) => Owner(past, tokenId) == None && Clear(past, allowlist, to)
    case TransferToken(from, to, tokenId) =>
      && Owner(past, tokenId) == Some(from)
      && Clear(past, allowlist, from) && Clear(past, allowlist, to)
    case BurnToken(tokenId) => Owner(past, tokenId) != None
    case SetFrozen(_, _) => true
    case SetAllowed(_, _) => true
  }

  /** The state tells what the history does. */
  ghost predicate Tells(a: AssetState, past: seq<Op>) {
    && a.supply == Issued(past)
    && (forall x: string :: Get(a.balances, x) == Gains(past, x))
    && (forall x: string :: x in a.frozen <==> Frozen(past, x))
    && (forall x: string :: x in a.allowed <==> Allowed(past, x))
    && (forall t: string :: OwnerOf(a, t) == Owner(past, t))
    && (forall t: string :: (if t in a.uris then Some(a.uris[t]) else None) == Uri(past, t))
    && (forall t: string :: t in a.uris ==> t in a.owners)
  }

  lemma {:induction false} OneMoreTold(a: AssetState, past: seq<Op>, op: Op)
    requires Tells(a, past) && Apply(a, op).Success?
    ensures Tells(Apply(a, op).value, past + [op])
  {
    hide Apply, Tells, Issued, Gains, Frozen, Allowed, Owner, Uri;
    match op
    case Mint(_, _) => UnitsTold(a, past, op);
    case Transfer(_, _, _) => UnitsTold(a, past, op);
    case Burn(_, _) => UnitsTold(a, past, op);
    case SetFrozen(_, _) => ListsTold(a, past, op);
    case SetAllowed(_, _) => ListsTold(a, past, op);
    case _ => TokensTold(a, past, op);
  }

  predicate OfUnits(op: Op) {
    op.Mint? || op.Transfer? || op.Burn?
  }

  predicate OfLists(op: Op) {
    op.SetFrozen? || op.SetAllowed?
  }

  /** What an operation leaves unsaid stays as it was said before. */
  lemma {:induction false} Unsaid(past: seq<Op>, op: Op)
    ensures forall x: string :: Gains(past + [op], x) == Gains(past, x) + Gain(op, x)
    ensures !OfLists(op) ==>
      (forall x: string :: Frozen(past + [op], x) <==> Frozen(past, x))
      && (forall x: string :: Allowed(past + [op], x) <==> Allowed(past, x))
    ensures OfLists(op) || OfUnits(op) ==>
      (forall t: string :: Owner(past + [op], t) == Owner(past, t)) && forall t: string ::
        Uri(past + [op], t) == Uri(past, t)
    ensures !OfUnits(op) ==> Issued(past + [op]) == Issued(past) && forall x: string :: Gain(op, x) == 0
  {
    assert (past + [op])[..|past|] == past;
  }

  lemma {:induction false} UnitsTold(a: AssetState, past: seq<Op>, op: Op)
    requires Tells(a, past) && Apply(a, op).Success? && OfUnits(op)
    ensures Tells(Apply(a, op).value, past + [op])
  {
    Unsaid(past, op);
    SupplyTold(a, past, op);
    OnlyUnits(a, op);
    hide Apply, Issued, Gains, Frozen, Allowed, Owner, Uri, Gain;
    var b := Apply(a, op).value;
    forall x: string ensures Get(b.balances, x) == Gains(past + [op], x) { UnitsMoved(a, op, x); }
    forall t: string ensures OwnerOf(b, t) == OwnerOf(a, t) { }
  }

  lemma {:induction false} OnlyUnits(a: AssetState, op: Op)
    requires OfUnits(op) && Apply(a, op).Success?
    ensures var b := Apply(a, op).value; b == a.(balances := b.balances, supply := b.supply)
  {
    hide JsBigInt;
  }

  lemma {:induction false} UnitsMoved(a: AssetState, op: Op, x: string)
    requires OfUnits(op) && Apply(a, op).Success?
    ensures Get(Apply(a, op).value.balances, x) == Get(a.balances, x) + Gain(op, x)
  {
    hide JsBigInt;
  }

  lemma {:induction false} SupplyTold(a: AssetState, past: seq<Op>, op: Op)
    requires a.supply == Issued(past) && OfUnits(op) && Apply(a, op).Success?
    ensures Apply(a, op).value.supply == Issued(past + [op])
  {
    hide JsBigInt;
    assert (past + [op])[..|past|] == past;
  }

  lemma {:induction false} ListsTold(a: AssetState, past: seq<Op>, op: Op)
    requires Tells(a, past) && OfLists(op)
    ensures Apply(a, op).Success? && Tells(Apply(a, op).value, past + [op])
  {
    Unsaid(past, op);
    forall x: string
      ensures x in Apply(a, op).value.frozen <==> Frozen(past + [op], x)
      ensures x in Apply(a, op).value.allowed <==> Allowed(past + [op], x)
    {
      assert (past + [op])[..|past|] == past;
    }
    hide Issued, Gains, Frozen, Allowed, Owner, Uri, Gain;
  }

  lemma {:induction false} TokensTold(a: AssetState, past: seq<Op>, op: Op)
    requires Tells(a, past) && Apply(a, op).Success? && !OfLists(op) && !OfUnits(op)
    ensures Tells(Apply(a, op).value, past + [op])
  {
    var b := Apply(a, op).value;
    Unsaid(past, op);
    forall t: string
      ensures OwnerOf(b, t) == Owner(past + [op], t)
      ensures (if t in b.uris then Some(b.uris[t]) else None) == Uri(past + [op], t)
      ensures t in b.uris ==> t in b.owners
    {
      TokenTold(a, past, op, t);
    }
    assert b == a.(owners := b.owners, uris := b.uris);
    hide Apply, Issued, Gains, Frozen, Allowed, Owner, Uri, Gain;
  }

  lemma {:induction false} TokenTold(a: AssetState, past: seq<Op>, op: Op, t: string)
    requires Apply(a, op).Success? && !OfLists(op) && !OfUnits(op) && (t in a.uris ==> t in a.owners)
    requires OwnerOf(a, t) == Owner(past, t) && (if t in a.uris then Some(a.uris[t]) else None) == Uri(past, t)
    ensures
      var b := Apply(a, op).value;
      && OwnerOf(b, t) == Owner(past + [op], t) && (t in b.uris ==> t in b.owners)
      && (if t in b.uris then Some(b.uris[t]) else None) == Uri(past + [op], t)
  {
    assert (past + [op])[..|past|] == past;
  }

  /** Balances, supply, owners, uris and both lists are what the accepted calls say, and nothing else. */
  lemma {:induction false} LedgerIsHistory(tokenType: TokenType, allowlist: bool, ops: seq<Op>)
    ensures Tells(Run(Fresh(tokenType, allowlist), ops), Accepted(Fresh(tokenType, allowlist), ops))
    ensures
      var a := Run(Fresh(tokenType, allowlist), ops);
      a.tokenType == tokenType && a.allowlistEnabled == allowlist
  {
    var start := Fresh(tokenType, allowlist);
    if ops != [] {
      var init, op := ops[..|ops| - 1], ops[|ops| - 1];
      LedgerIsHistory(tokenType, allowlist, init);
      hide Apply, Tells;
      var past := Accepted(start, init);
      assert past + [] == past;
      if Apply(Run(start, init), op).Success? { OneMoreTold(Run(start, init), past, op); }
    }
  }

  lemma {:induction false} AppliesIff(a: AssetState, past: seq<Op>, op: Op)
    requires Tells(a, past)
    ensures Apply(a, op).Success? <==> Lawful(past, a.allowlistEnabled, op)
  {
    hide JsBigInt, Gains, Frozen, Allowed, Owner, Uri, Issued;
    match op
    case TransferToken(from, _, t) => assert OwnerOf(a, t) == Owner(past, t);
    case MintToken(_, t, _) => assert OwnerOf(a, t) == Owner(past, t);
    case BurnToken(t) => assert OwnerOf(a, t) == Owner(past, t);
    case _ =>
  }

  /** After any attempts, a call is accepted exactly when the calls accepted before it make it lawful. */
  lemma {:induction false} AcceptedIffLawful(tokenType: TokenType, allowlist: bool, ops: seq<Op>, op: Op)
    ensures
      var start := Fresh(tokenType, allowlist);
      Apply(Run(start, ops), op).Success? <==> Lawful(Accepted(start, ops), allowlist, op)
  {
    LedgerIsHistory(tokenType, allowlist, ops);
    hide Apply, Tells, Lawful, Run, Accepted;
    AppliesIff(Run(Fresh(tokenType, allowlist), ops), Accepted(Fresh(tokenType, allowlist), ops), op);
  }

  /** A refusal names something that is the case. */
  lemma {:induction false} RefusedForCause(a: AssetState, op: Op)
    requires Apply(a, op).Failure?
    ensures
      var e := Apply(a, op).error;
      && e != UnknownAsset
      && (e == BadAmount ==> OfUnits(op) && JsBigInt(op.amount) == None)
      && (e == NotPositive ==> OfUnits(op) && JsBigInt(op.amount).Some? && Units(op.amount) <= 0)
      && (e == NotAllowlisted ==> a.allowlistEnabled && exists x :: x in Parties(op) && x !in a.allowed)
      && (e == AccountFrozen ==> exists x :: x in Parties(op) && x in a.frozen)
      && (e == InsufficientBalance ==>
            (op.Transfer? || op.Burn?) && Get(a.balances, op.from) < Units(op.amount))
      && (e == TokenExists ==> op.MintToken? && op.tokenId in a.owners)
      && (e == NotTheOwner ==> op.TransferToken? && OwnerOf(a, op.tokenId) != Some(op.from))
      && (e == NoSuchToken ==> op.BurnToken? && op.tokenId !in a.owners)
  {
    hide JsBigInt;
    match op
    case Mint(to, _) => assert to in Parties(op);
    case MintToken(to, _, _) => assert to in Parties(op);
    case Transfer(from, to, _) => assert from in Parties(op) && to in Parties(op);
    case TransferToken(from, to, _) => assert from in Parties(op) && to in Parties(op);
    case _ =>
  }

  /** Nothing but a burn changes what a frozen account has, nor, where there is an allowlist, what one not on it has. */
  lemma {:induction false} BarredAccountsKeep(a: AssetState, op: Op, account: string)
    requires account in a.frozen || (a.allowlistEnabled && account !in a.allowed)
    requires !op.Burn? && !op.BurnToken?
    ensures Get(Attempt(a, op).balances, account) == Get(a.balances, account)
    ensures Held(Attempt(a, op).owners, account) == Held(a.owners, account)
  {
    hide JsBigInt;
  }
}

/**
 * The audit trail: what the lifecycle engine records for each ledger call it
 * makes, and the field readings that every fold of the trail shares.
 */
module Trail {
  import opened Wrappers
  import opened Sums
  import opened Ledger

  datatype Action =
    | Mint | Transfer | Buy | Burn | Freeze | Unfreeze | Allow | Disallow
    | List | CancelListing | Other

  /** The payload fields that some fold reads; None where absent or not a string. */
  datatype Payload = Payload(
    to: Option<string>, from: Option<string>, amount: Option<string>,
    tokenId: Option<string>, uri: Option<string>, account: Option<string>,
    seller: Option<string>, escrow: Option<string>, secondary: bool)

  const EMPTY_PAYLOAD: Payload := Payload(None, None, None, None, None, None, None, None, false)

  datatype Entry = Entry(action: Action, p: Payload)

  /** An entry as stored: under the asset it was recorded for. */
  datatype Tagged = Tagged(assetId: string, entry: Entry)

  function Entries(rows: seq<Tagged>): seq<Entry> {
    if rows == [] then [] else Entries(rows[..|rows| - 1]) + [rows[|rows| - 1].entry]
  }

  /** The rows of the given assets, in the order they were recorded. */
  function RowsOf(rows: seq<Tagged>, ids: set<string>): seq<Tagged> {
    if rows == [] then [] else
      RowsOf(rows[..|rows| - 1], ids) + if rows[|rows| - 1].assetId in ids then [rows[|rows| - 1]] else []
  }

  /** The token an entry is about: the folds test `tokenId` for truth, so "" is no token. */
  function TokenOf(e: Entry): Option<string> {
    if e.p.tokenId.Some? && e.p.tokenId.value != "" then e.p.tokenId else None
  }

  /** `String(field)` */
  function Text(field: Option<string>): string {
    if field.Some? then field.value else "undefined"
  }

  /** `bump`: an absent or empty address is skipped. */
  function Bump(m: Table, addr: Option<string>, delta: int): Table {
    if addr.Some? && addr.value != "" then Add(m, addr.value, delta) else m
  }

  // --- the engine ------------------------------------------------------------

  /** The engine operations that write the ledger. */
  datatype Call =
    | DoMint(to: string, amount: string)
    | DoTransfer(from: string, to: string, amount: string)
    | DoBuy(from: string, to: string, amount: string)
    | EscrowList(seller: string, escrow: string, amount: string)
    | EscrowRelease(escrow: string, seller: string, amount: string)
    | SettleFromEscrow(escrow: string, seller: string, to: string, amount: string)
    | DoBurn(from: string, amount: string)
    | DoMintToken(to: string, tokenId: string, uri: Option<string>)
    | DoTransferToken(from: string, to: string, tokenId: string)
    | DoBurnToken(tokenId: string)
    | DoFreeze(account: string, on: bool)
    | DoAllow(account: string, on: bool)

  /** The one ledger operation a call makes. Every market leg is a plain transfer. */
  function LedgerOp(c: Call): Op {
    match c
    case DoMint(to, amount) => Op.Mint(to, amount)
    case DoTransfer(from, to, amount) => Op.Transfer(from, to, amount)
    case DoBuy(from, to, amount) => Op.Transfer(from, to, amount)
    case EscrowList(seller, escrow, amount) => Op.Transfer(seller, escrow, amount)
    case EscrowRelease(escrow, seller, amount) => Op.Transfer(escrow, seller, amount)
    case SettleFromEscrow(escrow, _, to, amount) => Op.Transfer(escrow, to, amount)
    case DoBurn(from, amount) => Op.Burn(from, amount)
    case DoMintToken(to, tokenId, uri) => Op.MintToken(to, tokenId, uri)
    case DoTransferToken(from, to, tokenId) => Op.TransferToken(from, to, tokenId)
    case DoBurnToken(tokenId) => Op.BurnToken(tokenId)
    case DoFreeze(account, on) => Op.SetFrozen(account, on)
    case DoAllow(account, on) => Op.SetAllowed(account, on)
  }

  /** The entry the engine records once the ledger has accepted the call. */
  function EntryOf(c: Call): Entry {
    match c
    case DoMint(to, amount) => Entry(Action.Mint, EMPTY_PAYLOAD.(to := Some(to), amount := Some(amount)))
    case DoTransfer(from, to, amount) =>
      Entry(Action.Transfer, EMPTY_PAYLOAD.(from := Some(from), to := Some(to), amount := Some(amount)))
    case DoBuy(from, to, amount) =>
      Entry(Action.Buy, EMPTY_PAYLOAD.(from := Some(from), to := Some(to), amount := Some(amount)))
    case EscrowList(seller, escrow, amount) =>
      Entry(Action.List, EMPTY_PAYLOAD.(seller := Some(seller), escrow := Some(escrow), amount := Some(amount)))
    case EscrowRelease(escrow, seller, amount) =>
      Entry(Action.CancelListing,
        EMPTY_PAYLOAD.(escrow := Some(escrow), seller := Some(seller), amount := Some(amount)))
    case SettleFromEscrow(escrow, seller, to, amount) =>
      Entry(Action.Buy,
        EMPTY_PAYLOAD.(from := Some(escrow), to := Some(to), amount := Some(amount), seller := Some(seller),
          secondary := true))
    case DoBurn(from, amount) => Entry(Action.Burn, EMPTY_PAYLOAD.(from := Some(from), amount := Some(amount)))
    case DoMintToken(to, tokenId, uri) =>
      Entry(Action.Mint, EMPTY_PAYLOAD.(to := Some(to), tokenId := Some(tokenId), uri := uri))
    case DoTransferToken(from, to, tokenId) =>
      Entry(Action.Transfer, EMPTY_PAYLOAD.(from := Some(from), to := Some(to), tokenId := Some(tokenId)))
    case DoBurnToken(tokenId) => Entry(Action.Burn, EMPTY_PAYLOAD.(tokenId := Some(tokenId)))
    case DoFreeze(account, on) =>
      Entry(if on then Action.Freeze else Action.Unfreeze, EMPTY_PAYLOAD.(account := Some(account)))
    case DoAllow(account, on) =>
      Entry(if on then Action.Allow else Action.Disallow, EMPTY_PAYLOAD.(account := Some(account)))
  }

  /** The call that an entry of the engine's tells of. */
  function CallOf(e: Entry): Call {
    var p := e.p;
    match e.action
    case Mint =>
      if p.tokenId.Some? then DoMintToken(Text(p.to), Text(p.tokenId), p.uri) else DoMint(Text(p.to), Text(p.amount))
    case Transfer =>
      if p.tokenId.Some? then DoTransferToken(Text(p.from), Text(p.to), Text(p.tokenId))
      else DoTransfer(Text(p.from), Text(p.to), Text(p.amount))
    case Buy =>
      if p.secondary then SettleFromEscrow(Text(p.from), Text(p.seller), Text(p.to), Text(p.amount))
      else DoBuy(Text(p.from), Text(p.to), Text(p.amount))
    case List => EscrowList(Text(p.seller), Text(p.escrow), Text(p.amount))
    case CancelListing => EscrowRelease(Text(p.escrow), Text(p.seller), Text(p.amount))
    case Burn => if p.tokenId.Some? then DoBurnToken(Text(p.tokenId)) else DoBurn(Text(p.from), Text(p.amount))
    case Freeze => DoFreeze(Text(p.account), true)
    case Unfreeze => DoFreeze(Text(p.account), false)
    case Allow => DoAllow(Text(p.account), true)
    case Disallow => DoAllow(Text(p.account), false)
    case _ => DoBurn("", "")
  }

  /** The entry says which call was made, and with what. */
  lemma {:induction false} EntryTellsCall(c: Call)
    ensures CallOf(EntryOf(c)) == c
  {
  }

  /** The live asset after a run of calls, some of them rejected. */
  function After(a: AssetState, calls: seq<Call>): (b: AssetState)
    ensures b.tokenType == a.tokenType && b.allowlistEnabled == a.allowlistEnabled
  {
    if calls == [] then a else Attempt(After(a, calls[..|calls| - 1]), LedgerOp(calls[|calls| - 1]))
  }

  /** The trail of a run: one entry for each call the ledger accepted. */
  function TrailOf(a: AssetState, calls: seq<Call>): seq<Entry> {
    if calls == [] then [] else
      var init, c := calls[..|calls| - 1], calls[|calls| - 1];
      TrailOf(a, init) + if Apply(After(a, init), LedgerOp(c)).Success? then [EntryOf(c)] else []
  }

  /** The calls of a run that the ledger accepted; the others change nothing and are not recorded. */
  function Accepted(a: AssetState, calls: seq<Call>): seq<Call> {
    if calls == [] then [] else
      var init, c := calls[..|calls| - 1], calls[|calls| - 1];
      Accepted(a, init) + if Apply(After(a, init), LedgerOp(c)).Success? then [c] else []
  }

  /** A contract's use case is of one token kind, and the engine refuses calls of the other. */
  predicate OfKind(kind: TokenType, op: Op) {
    match op
    case Mint(_, _) => kind == Fungible
    case Transfer(_, _, _) => kind == Fungible
    case Burn(_, _) => kind == Fungible
    case MintToken(_, _, _) => kind == NonFungible
    case TransferToken(_, _, _) => kind == NonFungible
    case BurnToken(_) => kind == NonFungible
    case _ => true
  }

  predicate OfOneKind(kind: TokenType, calls: seq<Call>) {
    forall i :: 0 <= i < |calls| ==> OfKind(kind, LedgerOp(calls[i]))
  }

  lemma {:induction false} OneKindMore(kind: TokenType, calls: seq<Call>, c: Call)
    ensures OfOneKind(kind, calls + [c]) <==> OfOneKind(kind, calls) && OfKind(kind, LedgerOp(c))
    ensures calls + [] == calls
  {
    if OfOneKind(kind, calls + [c]) {
      assert (calls + [c])[|calls|] == c;
      forall i | 0 <= i < |calls| ensures OfKind(kind, LedgerOp(calls[i])) { assert (calls + [c])[i] == calls[i]; }
    }
  }

  lemma {:induction false} AfterConserves(a: AssetState, calls: seq<Call>)
    requires Conserved(a)
    ensures Conserved(After(a, calls))
  {
    if calls != [] {
      AfterConserves(a, calls[..|calls| - 1]);
      ApplyConserves(After(a, calls[..|calls| - 1]), LedgerOp(calls[|calls| - 1]));
    }
  }
}

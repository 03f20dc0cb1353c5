/** What every message of the p2p-trading contract does to its store, and the chain around
    it. The state of a counter-trade is re-derived from its trade on every load; `Eager`
    is the design it stands for, in which accepting or cancelling a trade rewrites the
    stored state of all its counter-trades at once and loads take it as it is. */
module P2PSpec {
  import opened Base
  import opened Ledger
  import opened P2PTypes
  import opened P2PAssets

  datatype Mode = Lazy | Eager

  // ----- Loading (state.rs)

  function ActualState(trade: TradeState, counter: TradeState): TradeState {
    match trade
    case Refused => Cancelled
    case Cancelled => Cancelled
    case Accepted => if counter == Accepted then Accepted else Refused
    case _ => counter
  }

  function LoadTrade(s: Store, t: nat): Result<TradeInfo, Error> {
    if t in s.trades then Ok(s.trades[t]) else Err(NotFoundInTradeInfo)
  }

  function IsTrader(s: Store, sender: Addr, t: nat): Result<TradeInfo, Error> {
    var info :- LoadTrade(s, t);
    if info.owner == sender then Ok(info) else Err(TraderNotCreator)
  }

  function LoadCounter(m: Mode, s: Store, t: nat, c: nat): Result<TradeInfo, Error> {
    if (t, c) !in s.counters then Err(NotFoundInCounterTradeInfo)
    else if m == Eager then Ok(s.counters[(t, c)])
    else if t !in s.trades then Err(Std)
    else Ok(s.counters[(t, c)].(state := ActualState(s.trades[t].state, s.counters[(t, c)].state)))
  }

  function IsCounterTrader(m: Mode, s: Store, sender: Addr, t: nat, c: nat): Result<TradeInfo, Error> {
    var info :- LoadCounter(m, s, t, c);
    if info.owner == sender then Ok(info) else Err(CounterTraderNotCreator)
  }

  function CanSuggest(s: Store, t: nat, sender: Addr): Result<TradeInfo, Error> {
    var info :- LoadTrade(s, t);
    if info.state != Published && info.state != Countered then Err(NotCounterable)
    else if info.whitelistedUsers != {} && sender !in info.whitelistedUsers then Err(AddressNotWhitelisted)
    else Ok(info)
  }

  function TradeIdOrLast(s: Store, trader: Addr, id: Option<nat>): Result<nat, Error> {
    match id
    case Some(t) => Ok(t)
    case None =>
      if trader in s.lastUserTrade then Ok(s.lastUserTrade[trader]) else Err(NotFoundInTradeInfo)
  }

  function CounterIdOrLast(s: Store, trader: Addr, t: nat, id: Option<nat>): Result<nat, Error> {
    match id
    case Some(c) => Ok(c)
    case None =>
      if (trader, t) in s.lastUserCounter then Ok(s.lastUserCounter[(trader, t)])
      else Err(NotFoundInCounterTradeInfo)
  }

  function PutTrade(s: Store, t: nat, info: TradeInfo): Store {
    s.(trades := s.trades[t := info])
  }

  function PutCounter(s: Store, t: nat, c: nat, info: TradeInfo): Store {
    s.(counters := s.counters[(t, c) := info])
  }

  function NextId(last: Option<nat>): nat {
    match last case None => 0 case Some(n) => n + 1
  }

  // ----- Trades (trade.rs)

  function CanModify(s: Store, sender: Addr, t: nat): Result<TradeInfo, Error> {
    var info :- IsTrader(s, sender, t);
    if info.state != Created then Err(WrongTradeState(info.state)) else Ok(info)
  }

  function AddWhitelistedUsers(s: Store, sender: Addr, t: nat, users: seq<Addr>): Result<Store, Error> {
    var info :- CanModify(s, sender, t);
    Ok(PutTrade(s, t, info.(whitelistedUsers := info.whitelistedUsers + set u | u in users)))
  }

  function RemoveWhitelistedUsers(s: Store, sender: Addr, t: nat, users: seq<Addr>): Result<Store, Error> {
    var info :- CanModify(s, sender, t);
    Ok(PutTrade(s, t, info.(whitelistedUsers := info.whitelistedUsers - set u | u in users)))
  }

  /** Writes the derived counter state back along with the comment. */
  function SetComment(m: Mode, s: Store, sender: Addr, t: nat, c: Option<nat>, comment: string): Result<Store, Error> {
    match c
    case Some(c) =>
      var info :- IsCounterTrader(m, s, sender, t, c);
      Ok(PutCounter(s, t, c, info.(ownerComment := Some(comment))))
    case None =>
      var info :- IsTrader(s, sender, t);
      Ok(PutTrade(s, t, info.(ownerComment := Some(comment))))
  }

  function CreateTrade(m: Mode, s: Store, sender: Addr, whitelist: Option<seq<Addr>>, comment: Option<string>): Outcome {
    var t := NextId(s.lastTradeId);
    if t in s.trades then Err(ExistsInTradeInfo)
    else
      var s1 := PutTrade(s.(lastTradeId := Some(t)), t, NewTradeInfo(sender));
      var s2 :- match whitelist case None => Ok(s1) case Some(users) => AddWhitelistedUsers(s1, sender, t, users);
      var s3 := s2.(lastUserTrade := s2.lastUserTrade[sender := t]);
      var s4 :- match comment case None => Ok(s3) case Some(text) => SetComment(m, s3, sender, t, None, text);
      Ok((s4, Silent()))
  }

  function Receive(self: Addr, sender: Addr, a: Asset): Response {
    Response(if a.Native? then [] else [Transfer(sender, self, a)], NoPayout)
  }

  // What a handler does to the one record it rewrites.

  function Added(info: TradeInfo, a: Asset, funds: seq<Coin>): Result<TradeInfo, Error> {
    var _ :- Need(info.state == Created, WrongTradeState(info.state));
    var assets :- AddToList(info.assets, a, funds);
    Ok(info.(assets := assets))
  }

  function Removed(info: TradeInfo, rs: seq<Request>, tooLate: Error): Result<TradeInfo, Error> {
    var _ :- Need(info.state == Created, tooLate);
    var assets :- Removal(info.assets, rs);
    Ok(info.(assets := assets))
  }

  function ConfirmedTrade(trade: TradeInfo): Result<TradeInfo, Error> {
    var _ :- Need(trade.state == Created, CantChangeTradeState(trade.state, Published));
    Ok(trade.(state := Published))
  }

  function AcceptedCounter(trade: TradeInfo, counter: TradeInfo, comment: Option<string>): Result<TradeInfo, Error> {
    var _ :- Need(trade.state == Countered, CantChangeTradeState(trade.state, Accepted));
    var _ :- Need(counter.state == Published, CantAcceptNotPublishedCounter);
    Ok(counter.(traderComment := comment, state := Accepted))
  }

  function RefusedCounter(trade: TradeInfo, counter: TradeInfo): Result<TradeInfo, Error> {
    var _ :- Need(trade.state != Accepted, TradeAlreadyAccepted);
    var _ :- Need(trade.state != Cancelled, TradeCancelled);
    Ok(counter.(state := Refused))
  }

  function ReviewedCounter(trade: TradeInfo, counter: TradeInfo, comment: Option<string>): Result<TradeInfo, Error> {
    var _ :- Need(trade.state != Accepted, TradeAlreadyAccepted);
    var _ :- Need(trade.state != Cancelled, TradeCancelled);
    var _ :- Need(counter.state == Published, CantChangeCounterTradeState(counter.state, Created));
    Ok(counter.(state := Created, traderComment := comment))
  }

  function ConfirmedCounter(counter: TradeInfo): Result<TradeInfo, Error> {
    var _ :- Need(counter.state == Created, CantChangeCounterTradeState(counter.state, Published));
    Ok(counter.(state := Published))
  }

  function CancelledCounter(counter: TradeInfo): Result<TradeInfo, Error> {
    var _ :- Need(counter.state != Accepted, CantChangeCounterTradeState(counter.state, Cancelled));
    Ok(counter.(state := Cancelled))
  }

  function EmptiedTrade(trade: TradeInfo): Result<TradeInfo, Error> {
    var _ :- Need(trade.state == Created || trade.state == Cancelled, TradeNotCancelled);
    var _ :- Need(!trade.assetsWithdrawn, TradeAlreadyWithdrawn);
    Ok(trade.(state := Cancelled, assetsWithdrawn := true))
  }

  function EmptiedCounter(counter: TradeInfo): Result<TradeInfo, Error> {
    var next := if counter.state == Created then Cancelled else counter.state;
    var _ :- Need(next == Refused || next == Cancelled, CounterTradeNotAborted);
    var _ :- Need(!counter.assetsWithdrawn, TradeAlreadyWithdrawn);
    Ok(counter.(state := next, assetsWithdrawn := true))
  }

  /** Settlement leaves the state alone. */
  function Settled(info: TradeInfo): Result<TradeInfo, Error> {
    var _ :- Need(!info.assetsWithdrawn, TradeAlreadyWithdrawn);
    Ok(info.(assetsWithdrawn := true))
  }

  function AddToTrade(self: Addr, s: Store, info: Info, id: Option<nat>, a: Asset): Outcome {
    var t :- TradeIdOrLast(s, info.sender, id);
    var trade :- IsTrader(s, info.sender, t);
    var next :- Added(trade, a, info.funds);
    Ok((PutTrade(s, t, next), Receive(self, info.sender, a)))
  }

  function RemoveFromTrade(self: Addr, s: Store, sender: Addr, t: nat, rs: seq<Request>): Outcome {
    var trade :- IsTrader(s, sender, t);
    var next :- Removed(trade, rs, TradeAlreadyPublished);
    Ok((PutTrade(s, t, next), Response(Sends(self, sender, Requested(rs)), NoPayout)))
  }

  function ConfirmTrade(s: Store, sender: Addr, id: Option<nat>): Outcome {
    var t :- TradeIdOrLast(s, sender, id);
    var trade :- IsTrader(s, sender, t);
    var next :- ConfirmedTrade(trade);
    Ok((PutTrade(s, t, next), Silent()))
  }

  /** Rewrites the stored state of every counter of `t`; `kept` alone becomes Accepted. */
  function Sweep(s: Store, t: nat, kept: Option<nat>, rest: TradeState): Store {
    s.(counters := map k | k in s.counters ::
         if k.0 != t then s.counters[k]
         else s.counters[k].(state := if kept == Some(k.1) then Accepted else rest))
  }

  function AcceptTrade(m: Mode, s: Store, sender: Addr, t: nat, c: nat, comment: Option<string>): Outcome {
    var trade :- IsTrader(s, sender, t);
    var counter :- LoadCounter(m, s, t, c);
    var next :- AcceptedCounter(trade, counter, comment);
    var s1 := PutTrade(s, t, trade.(state := Accepted, acceptedInfo := Some((t, c))));
    var s2 := PutCounter(s1, t, c, next);
    Ok((if m == Lazy then s2 else Sweep(s2, t, Some(c), Refused), Silent()))
  }

  function RefuseCounterTrade(m: Mode, s: Store, sender: Addr, t: nat, c: nat): Outcome {
    var trade :- IsTrader(s, sender, t);
    var counter :- LoadCounter(m, s, t, c);
    var next :- RefusedCounter(trade, counter);
    Ok((PutCounter(s, t, c, next), Silent()))
  }

  function CancelTrade(m: Mode, s: Store, sender: Addr, t: nat): Outcome {
    var trade :- IsTrader(s, sender, t);
    var _ :- Need(trade.state != Accepted, CantChangeTradeState(trade.state, Cancelled));
    var s1 := PutTrade(s, t, trade.(state := Cancelled));
    Ok((if m == Lazy then s1 else Sweep(s1, t, None, Cancelled), Silent()))
  }

  function WithdrawAllFromTrade(self: Addr, s: Store, sender: Addr, t: nat): Outcome {
    var trade :- IsTrader(s, sender, t);
    var next :- EmptiedTrade(trade);
    Ok((PutTrade(s, t, next), Response(Sends(self, sender, trade.assets), TradePaid(t, sender))))
  }

  // ----- Counter-trades (counter_trade.rs, messages.rs)

  function SuggestCounterTrade(m: Mode, s: Store, sender: Addr, t: nat, comment: Option<string>): Outcome {
    var trade :- CanSuggest(s, t, sender);
    var c := NextId(trade.lastCounterId);
    var s1 := PutTrade(s, t, trade.(lastCounterId := Some(c),
                                    state := if trade.state == Published then Countered else trade.state));
    if (t, c) in s1.counters then Err(ExistsInCounterTradeInfo)
    else
      var s2 := PutCounter(s1, t, c, NewTradeInfo(sender));
      var s3 := s2.(lastUserCounter := s2.lastUserCounter[(sender, t) := c]);
      var s4 :- match comment case None => Ok(s3) case Some(text) => SetComment(m, s3, sender, t, Some(c), text);
      Ok((s4, Silent()))
  }

  function AddToCounter(m: Mode, self: Addr, s: Store, info: Info, t: nat, id: Option<nat>, a: Asset): Outcome {
    var c :- CounterIdOrLast(s, info.sender, t, id);
    var counter :- IsCounterTrader(m, s, info.sender, t, c);
    var next :- Added(counter, a, info.funds);
    var _ :- LoadTrade(s, t);
    Ok((PutCounter(s, t, c, next), Receive(self, info.sender, a)))
  }

  function RemoveFromCounter(m: Mode, self: Addr, s: Store, sender: Addr, t: nat, c: nat, rs: seq<Request>): Outcome {
    var counter :- IsCounterTrader(m, s, sender, t, c);
    var next :- Removed(counter, rs, CounterTradeAlreadyPublished);
    var _ :- LoadTrade(s, t);
    Ok((PutCounter(s, t, c, next), Response(Sends(self, sender, Requested(rs)), NoPayout)))
  }

  function ConfirmCounterTrade(m: Mode, s: Store, sender: Addr, t: nat, id: Option<nat>): Outcome {
    var c :- CounterIdOrLast(s, sender, t, id);
    var counter :- IsCounterTrader(m, s, sender, t, c);
    var next :- ConfirmedCounter(counter);
    var _ :- LoadTrade(s, t);
    Ok((PutCounter(s, t, c, next), Silent()))
  }

  function CancelCounterTrade(m: Mode, s: Store, sender: Addr, t: nat, c: nat): Outcome {
    var counter :- IsCounterTrader(m, s, sender, t, c);
    var next :- CancelledCounter(counter);
    var _ :- LoadTrade(s, t);
    Ok((PutCounter(s, t, c, next), Silent()))
  }

  function ReviewCounterTrade(m: Mode, s: Store, sender: Addr, t: nat, c: nat, comment: Option<string>): Outcome {
    var trade :- IsTrader(s, sender, t);
    var counter :- LoadCounter(m, s, t, c);
    var next :- ReviewedCounter(trade, counter, comment);
    Ok((PutCounter(s, t, c, next), Silent()))
  }

  function WithdrawAllFromCounter(m: Mode, self: Addr, s: Store, sender: Addr, t: nat, c: nat): Outcome {
    var counter :- IsCounterTrader(m, s, sender, t, c);
    var next :- EmptiedCounter(counter);
    var _ :- LoadTrade(s, t);
    Ok((PutCounter(s, t, c, next), Response(Sends(self, sender, counter.assets), CounterPaid((t, c), sender))))
  }

  // ----- Settlement and administration (contract.rs)

  /** The fee contract pays each side the other side's list. */
  function WithdrawAcceptedFunds(m: Mode, self: Addr, s: Store, sender: Addr, trader: Addr, t: nat): Outcome {
    var _ :- Need(s.feeContract == Some(sender), Unauthorized);
    var trade :- LoadTrade(s, t);
    var _ :- Need(trade.state == Accepted, TradeNotAccepted);
    var _ :- Need(trade.acceptedInfo.Some?, ContractBug);
    var c := trade.acceptedInfo.value.1;
    var counter :- LoadCounter(m, s, t, c);
    Settle(self, s, t, c, trade, counter, trader)
  }

  function Settle(self: Addr, s: Store, t: nat, c: nat, trade: TradeInfo, counter: TradeInfo, trader: Addr): Outcome {
    if trade.owner == trader then
      var next :- Settled(counter);
      Ok((PutCounter(s, t, c, next), Response(Sends(self, trader, counter.assets), CounterPaid((t, c), trader))))
    else if counter.owner == trader then
      var next :- Settled(trade);
      Ok((PutTrade(s, t, next), Response(Sends(self, trader, trade.assets), TradePaid(t, trader))))
    else Err(NotWithdrawableByYou)
  }

  function SetNewOwner(s: Store, sender: Addr, owner: Addr): Outcome {
    if sender == s.admin then Ok((s.(admin := owner), Silent())) else Err(Unauthorized)
  }

  function SetNewFeeContract(s: Store, sender: Addr, feeContract: Addr): Outcome {
    if sender == s.admin then Ok((s.(feeContract := Some(feeContract)), Silent())) else Err(Unauthorized)
  }

  function Quiet(r: Result<Store, Error>): Outcome {
    match r case Ok(s) => Ok((s, Silent())) case Err(e) => Err(e)
  }

  function Step(m: Mode, self: Addr, s: Store, info: Info, msg: ExecuteMsg): Outcome {
    var sender := info.sender;
    match msg
    case CreateTradeMsg(whitelist, comment) => CreateTrade(m, s, sender, whitelist, comment)
    case AddAssetMsg(ToLastTrade, a) => AddToTrade(self, s, info, None, a)
    case AddAssetMsg(ToTrade(t), a) => AddToTrade(self, s, info, Some(t), a)
    case AddAssetMsg(ToLastCounterTrade(t), a) => AddToCounter(m, self, s, info, t, None, a)
    case AddAssetMsg(ToCounterTrade(t, c), a) => AddToCounter(m, self, s, info, t, Some(c), a)
    case RemoveAssetsMsg(t, None, rs) => RemoveFromTrade(self, s, sender, t, rs)
    case RemoveAssetsMsg(t, Some(c), rs) => RemoveFromCounter(m, self, s, sender, t, c, rs)
    case AddWhitelistedUsersMsg(t, users) => Quiet(AddWhitelistedUsers(s, sender, t, users))
    case RemoveWhitelistedUsersMsg(t, users) => Quiet(RemoveWhitelistedUsers(s, sender, t, users))
    case SetCommentMsg(t, c, comment) => Quiet(SetComment(m, s, sender, t, c, comment))
    case ConfirmTradeMsg(id) => ConfirmTrade(s, sender, id)
    case SuggestCounterTradeMsg(t, comment) => SuggestCounterTrade(m, s, sender, t, comment)
    case ConfirmCounterTradeMsg(t, c) => ConfirmCounterTrade(m, s, sender, t, c)
    case AcceptTradeMsg(t, c, comment) => AcceptTrade(m, s, sender, t, c, comment)
    case CancelTradeMsg(t) => CancelTrade(m, s, sender, t)
    case CancelCounterTradeMsg(t, c) => CancelCounterTrade(m, s, sender, t, c)
    case RefuseCounterTradeMsg(t, c) => RefuseCounterTrade(m, s, sender, t, c)
    case ReviewCounterTradeMsg(t, c, comment) => ReviewCounterTrade(m, s, sender, t, c, comment)
    case WithdrawPendingAssetsMsg(trader, t) => WithdrawAcceptedFunds(m, self, s, sender, trader, t)
    case WithdrawAllFromTradeMsg(t) => WithdrawAllFromTrade(self, s, sender, t)
    case WithdrawAllFromCounterMsg(t, c) => WithdrawAllFromCounter(m, self, s, sender, t, c)
    case SetNewOwnerMsg(owner) => SetNewOwner(s, sender, owner)
    case SetNewFeeContractMsg(feeContract) => SetNewFeeContract(s, sender, feeContract)
  }

  // ----- The chain

  datatype Chain = Chain(store: Store, wallets: Wallets)

  /** One transaction: who sends what, and whether the wallets it pulls from approved. */
  datatype Tx = Tx(info: Info, allow: bool, msg: ExecuteMsg)

  /** A transaction in full: the sent coins arrive, the handler runs, its messages run. */
  function Try(m: Mode, self: Addr, c: Chain, tx: Tx): Option<(Chain, Response)> {
    match c.wallets.MoveAll(self, true, Fund(tx.info.sender, self, tx.info.funds))
    case None => None
    case Some(funded) =>
      match Step(m, self, c.store, tx.info, tx.msg)
      case Err(_) => None
      case Ok((s, r)) =>
        match funded.MoveAll(self, tx.allow, r.messages)
        case None => None
        case Some(w) => Some((Chain(s, w), r))
  }

  /** A transaction that fails anywhere leaves no trace. */
  function Exec(m: Mode, self: Addr, c: Chain, tx: Tx): Chain {
    match Try(m, self, c, tx) case None => c case Some((d, _)) => d
  }

  function Run(m: Mode, self: Addr, c: Chain, txs: seq<Tx>): Chain
    decreases |txs|
  {
    if txs == [] then c else Run(m, self, Exec(m, self, c, txs[0]), txs[1..])
  }

  /** The outcome of every transaction of a run, in order. */
  function Trace(m: Mode, self: Addr, c: Chain, txs: seq<Tx>): seq<Option<Response>>
    decreases |txs|
  {
    if txs == [] then []
    else
      [match Try(m, self, c, txs[0]) case None => None case Some((_, r)) => Some(r)]
      + Trace(m, self, Exec(m, self, c, txs[0]), txs[1..])
  }
}

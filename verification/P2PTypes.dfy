/** The stored records and messages of the p2p-trading contract. */
module P2PTypes {
  import opened Base
  import opened Ledger

  datatype TradeState = Created | Published | Countered | Refused | Accepted | Cancelled

  /** A counter-trade is named by its trade and its own number. */
  type CounterKey = (nat, nat)

  /** One record serves trades and counter-trades alike. */
  datatype TradeInfo = TradeInfo(
    owner: Addr,
    assets: seq<Asset>,
    state: TradeState,
    lastCounterId: Option<nat>,
    whitelistedUsers: set<Addr>,
    ownerComment: Option<string>,
    traderComment: Option<string>,
    acceptedInfo: Option<CounterKey>,
    assetsWithdrawn: bool)

  function NewTradeInfo(owner: Addr): TradeInfo {
    TradeInfo(owner, [], Created, None, {}, None, None, None, false)
  }

  datatype Store = Store(
    admin: Addr,
    feeContract: Option<Addr>,
    lastTradeId: Option<nat>,
    trades: map<nat, TradeInfo>,
    counters: map<CounterKey, TradeInfo>,
    lastUserTrade: map<Addr, nat>,
    lastUserCounter: map<(Addr, nat), nat>)

  function NewStore(admin: Addr): Store {
    Store(admin, None, None, map[], map[], map[], map[])
  }

  datatype Error =
    | Std
    | Overflow
    | Unauthorized
    | ContractBug
    | ExistsInTradeInfo
    | NotFoundInTradeInfo
    | TraderNotCreator
    | ExistsInCounterTradeInfo
    | NotFoundInCounterTradeInfo
    | CounterTraderNotCreator
    | NotCounterable
    | WrongTradeState(state: TradeState)
    | CantChangeTradeState(from: TradeState, to: TradeState)
    | TradeAlreadyAccepted
    | TradeAlreadyPublished
    | TradeNotAccepted
    | TradeCancelled
    | TradeNotCancelled
    | TradeAlreadyWithdrawn
    | CantChangeCounterTradeState(from: TradeState, to: TradeState)
    | CantAcceptNotPublishedCounter
    | CounterTradeAlreadyPublished
    | CounterTradeNotAborted
    | NotWithdrawableByYou
    | AddressNotWhitelisted
    | AssetNotFound(position: nat)
    | TooMuchWithdrawn(address: string, wanted: nat, available: nat)

  datatype AddAssetAction =
    | ToLastTrade
    | ToTrade(tradeId: nat)
    | ToLastCounterTrade(tradeId: nat)
    | ToCounterTrade(tradeId: nat, counterId: nat)

  /** A position in the stored list, and what to take from it. */
  type Request = (nat, Asset)

  datatype ExecuteMsg =
    | CreateTradeMsg(whitelist: Option<seq<Addr>>, newComment: Option<string>)
    | AddAssetMsg(action: AddAssetAction, asset: Asset)
    | RemoveAssetsMsg(tradeId: nat, ofCounter: Option<nat>, assets: seq<Request>)
    | AddWhitelistedUsersMsg(tradeId: nat, users: seq<Addr>)
    | RemoveWhitelistedUsersMsg(tradeId: nat, users: seq<Addr>)
    | SetCommentMsg(tradeId: nat, ofCounter: Option<nat>, comment: string)
    | ConfirmTradeMsg(lastOrId: Option<nat>)
    | SuggestCounterTradeMsg(tradeId: nat, newComment: Option<string>)
    | ConfirmCounterTradeMsg(tradeId: nat, ofCounter: Option<nat>)
    | AcceptTradeMsg(tradeId: nat, counterId: nat, newComment: Option<string>)
    | CancelTradeMsg(tradeId: nat)
    | CancelCounterTradeMsg(tradeId: nat, counterId: nat)
    | RefuseCounterTradeMsg(tradeId: nat, counterId: nat)
    | ReviewCounterTradeMsg(tradeId: nat, counterId: nat, newComment: Option<string>)
    | WithdrawPendingAssetsMsg(trader: Addr, tradeId: nat)
    | WithdrawAllFromTradeMsg(tradeId: nat)
    | WithdrawAllFromCounterMsg(tradeId: nat, counterId: nat)
    | SetNewOwnerMsg(owner: Addr)
    | SetNewFeeContractMsg(feeContract: Addr)

  /** Which whole list, if any, a message paid out, and to whom (the response's `action`,
      `type` and id attributes). */
  datatype Event =
    | NoPayout
    | TradePaid(tradeId: nat, to: Addr)
    | CounterPaid(counter: CounterKey, to: Addr)

  datatype Response = Response(messages: seq<Transfer>, event: Event)

  function Silent(): Response { Response([], NoPayout) }

  /** A handler's new store and response. The chain drops the store of a failed handler. */
  type Outcome = Result<(Store, Response), Error>
}

/** Who may change what: each record moves only at the hands of those it concerns. */
module P2PAuthority {
  import opened Base
  import opened Ledger
  import opened P2PTypes
  import opened P2PSpec
  import opened P2PInvariant
  import opened P2PSettlement

  /** A trade is its owner's, but for being countered and being settled. */
  predicate MayChangeTrade(s: Store, info: Info, msg: ExecuteMsg, t: nat, a: TradeInfo, b: TradeInfo) {
    || info.sender == a.owner
    || (msg.SuggestCounterTradeMsg? && msg.tradeId == t && b == a.(lastCounterId := b.lastCounterId, state := Countered))
    || (msg.WithdrawPendingAssetsMsg? && msg.tradeId == t && s.feeContract == Some(info.sender)
        && b == a.(assetsWithdrawn := true))
  }

  /** A counter is its owner's; the trade's owner may accept, refuse or review it. */
  predicate MayChangeCounter(s: Store, info: Info, msg: ExecuteMsg, q: CounterKey, a: TradeInfo, b: TradeInfo) {
    || info.sender == a.owner
    || ((msg.AcceptTradeMsg? || msg.RefuseCounterTradeMsg? || msg.ReviewCounterTradeMsg?)
        && (msg.tradeId, msg.counterId) == q && q.0 in s.trades && info.sender == s.trades[q.0].owner
        && b == a.(state := b.state, traderComment := b.traderComment))
    || (msg.WithdrawPendingAssetsMsg? && msg.tradeId == q.0 && s.feeContract == Some(info.sender)
        && b == a.(assetsWithdrawn := true))
  }

  ghost predicate Authorised(s: Store, s1: Store, info: Info, msg: ExecuteMsg) {
    && (forall t :: t in s.trades ==>
          t in s1.trades && (s1.trades[t] == s.trades[t] || MayChangeTrade(s, info, msg, t, s.trades[t], s1.trades[t])))
    && (forall q :: q in s.counters ==>
          q in s1.counters && (s1.counters[q] == s.counters[q] || MayChangeCounter(s, info, msg, q, s.counters[q], s1.counters[q])))
    && ((s1.admin == s.admin && s1.feeContract == s.feeContract) || info.sender == s.admin)
  }

  lemma {:induction false} OneTrade(s: Store, s1: Store, info: Info, msg: ExecuteMsg, t: nat)
    requires t in s.trades && t in s1.trades && s1 == PutTrade(s, t, s1.trades[t])
    requires MayChangeTrade(s, info, msg, t, s.trades[t], s1.trades[t])
    ensures Authorised(s, s1, info, msg)
  {
  }

  lemma {:induction false} OneCounter(s: Store, s1: Store, info: Info, msg: ExecuteMsg, q: CounterKey)
    requires q in s.counters && q in s1.counters && s1 == PutCounter(s, q.0, q.1, s1.counters[q])
    requires MayChangeCounter(s, info, msg, q, s.counters[q], s1.counters[q])
    ensures Authorised(s, s1, info, msg)
  {
  }

  lemma {:induction false} TradeMsgAuthorised(self: Addr, s: Store, info: Info, msg: ExecuteMsg)
    requires Step(Lazy, self, s, info, msg).Ok?
    requires msg.AddWhitelistedUsersMsg? || msg.RemoveWhitelistedUsersMsg? || msg.ConfirmTradeMsg? || msg.CancelTradeMsg?
             || (msg.SetCommentMsg? && msg.ofCounter.None?) || msg.WithdrawAllFromTradeMsg?
             || (msg.AddAssetMsg? && (msg.action.ToLastTrade? || msg.action.ToTrade?)) || (msg.RemoveAssetsMsg? && msg.ofCounter.None?)
    ensures Authorised(s, Step(Lazy, self, s, info, msg).value.0, info, msg)
  {
    var t := if msg.ConfirmTradeMsg? then TradeIdOrLast(s, info.sender, msg.lastOrId).value
             else if msg.AddAssetMsg? then
               TradeIdOrLast(s, info.sender, if msg.action.ToTrade? then Some(msg.action.tradeId) else None).value
             else msg.tradeId;
    OneTrade(s, Step(Lazy, self, s, info, msg).value.0, info, msg, t);
  }

  lemma {:induction false} CounterMsgAuthorised(self: Addr, s: Store, info: Info, msg: ExecuteMsg)
    requires Step(Lazy, self, s, info, msg).Ok?
    requires msg.ConfirmCounterTradeMsg? || msg.CancelCounterTradeMsg? || msg.RefuseCounterTradeMsg? || msg.ReviewCounterTradeMsg?
             || msg.WithdrawAllFromCounterMsg? || (msg.SetCommentMsg? && msg.ofCounter.Some?)
    ensures Authorised(s, Step(Lazy, self, s, info, msg).value.0, info, msg)
  {
    var c := if msg.ConfirmCounterTradeMsg? then CounterIdOrLast(s, info.sender, msg.tradeId, msg.ofCounter).value
             else if msg.SetCommentMsg? then msg.ofCounter.value
             else msg.counterId;
    OneCounter(s, Step(Lazy, self, s, info, msg).value.0, info, msg, (msg.tradeId, c));
  }

  lemma {:induction false} CounterListAuthorised(self: Addr, s: Store, info: Info, msg: ExecuteMsg)
    requires Step(Lazy, self, s, info, msg).Ok?
    requires (msg.AddAssetMsg? && (msg.action.ToLastCounterTrade? || msg.action.ToCounterTrade?)) || (msg.RemoveAssetsMsg? && msg.ofCounter.Some?)
    ensures Authorised(s, Step(Lazy, self, s, info, msg).value.0, info, msg)
  {
    var t := if msg.RemoveAssetsMsg? then msg.tradeId else msg.action.tradeId;
    var c := if msg.RemoveAssetsMsg? then msg.ofCounter.value
             else CounterIdOrLast(s, info.sender, t, if msg.action.ToCounterTrade? then Some(msg.action.counterId) else None).value;
    OneCounter(s, Step(Lazy, self, s, info, msg).value.0, info, msg, (t, c));
  }

  lemma {:induction false} SuggestAuthorised(s: Store, info: Info, t: nat, comment: Option<string>)
    requires Inv(s) && SuggestCounterTrade(Lazy, s, info.sender, t, comment).Ok?
    ensures Authorised(s, SuggestCounterTrade(Lazy, s, info.sender, t, comment).value.0, info, SuggestCounterTradeMsg(t, comment))
  {
    FreshCounter(s, t);
    Suggested(Lazy, s, info.sender, t, comment);
  }

  lemma {:induction false} SettleAuthorised(self: Addr, s: Store, info: Info, trader: Addr, t: nat)
    requires Inv(s) && WithdrawAcceptedFunds(Lazy, self, s, info.sender, trader, t).Ok?
    ensures Authorised(s, WithdrawAcceptedFunds(Lazy, self, s, info.sender, trader, t).value.0, info, WithdrawPendingAssetsMsg(trader, t))
  {
    var s1 := WithdrawAcceptedFunds(Lazy, self, s, info.sender, trader, t).value.0;
    var c := s.trades[t].acceptedInfo.value.1;
    LoadedCounter(s, t, c);
    assert s.trades[t].acceptedInfo == Some((t, c));
    if s.trades[t].owner == trader {
      OneCounter(s, s1, info, WithdrawPendingAssetsMsg(trader, t), (t, c));
    } else {
      OneTrade(s, s1, info, WithdrawPendingAssetsMsg(trader, t), t);
    }
  }

  lemma {:induction false} AcceptAuthorised(s: Store, info: Info, t: nat, c: nat, comment: Option<string>)
    requires AcceptTrade(Lazy, s, info.sender, t, c, comment).Ok?
    ensures Authorised(s, AcceptTrade(Lazy, s, info.sender, t, c, comment).value.0, info, AcceptTradeMsg(t, c, comment))
  {
  }

  lemma {:induction false} CreateAuthorised(s: Store, info: Info, whitelist: Option<seq<Addr>>, comment: Option<string>)
    requires Inv(s)
    ensures CreateTrade(Lazy, s, info.sender, whitelist, comment).Ok?
    ensures Authorised(s, CreateTrade(Lazy, s, info.sender, whitelist, comment).value.0, info, CreateTradeMsg(whitelist, comment))
  {
    FreshTrade(s);
    CreatedTrade(Lazy, s, info.sender, whitelist, comment);
  }

  /** Every change of a record is made by its owner, by the other side of the deal in the
      ways open to it, or by the fee contract settling it. */
  lemma {:induction false} StepAuthorised(self: Addr, s: Store, info: Info, msg: ExecuteMsg)
    requires Inv(s) && Step(Lazy, self, s, info, msg).Ok?
    ensures Authorised(s, Step(Lazy, self, s, info, msg).value.0, info, msg)
  {
    match msg
    case CreateTradeMsg(whitelist, comment) => CreateAuthorised(s, info, whitelist, comment);
    case AcceptTradeMsg(t, c, comment) => AcceptAuthorised(s, info, t, c, comment);
    case SetNewOwnerMsg(_) =>
    case SetNewFeeContractMsg(_) =>
    case SuggestCounterTradeMsg(t, comment) => SuggestAuthorised(s, info, t, comment);
    case WithdrawPendingAssetsMsg(trader, t) => SettleAuthorised(self, s, info, trader, t);
    case AddAssetMsg(ToLastTrade, _) => TradeMsgAuthorised(self, s, info, msg);
    case AddAssetMsg(ToTrade(_), _) => TradeMsgAuthorised(self, s, info, msg);
    case AddAssetMsg(_, _) => CounterListAuthorised(self, s, info, msg);
    case RemoveAssetsMsg(_, None, _) => TradeMsgAuthorised(self, s, info, msg);
    case RemoveAssetsMsg(_, Some(_), _) => CounterListAuthorised(self, s, info, msg);
    case SetCommentMsg(_, Some(_), _) => CounterMsgAuthorised(self, s, info, msg);
    case ConfirmCounterTradeMsg(_, _) => CounterMsgAuthorised(self, s, info, msg);
    case CancelCounterTradeMsg(_, _) => CounterMsgAuthorised(self, s, info, msg);
    case RefuseCounterTradeMsg(_, _) => CounterMsgAuthorised(self, s, info, msg);
    case ReviewCounterTradeMsg(_, _, _) => CounterMsgAuthorised(self, s, info, msg);
    case WithdrawAllFromCounterMsg(_, _) => CounterMsgAuthorised(self, s, info, msg);
    case _ => TradeMsgAuthorised(self, s, info, msg);
  }

  ghost predicate OwnersList(s: Store, s1: Store, sender: Addr, l: ListId) {
    match l
    case TradeList(t) => t in s.trades ==> t in s1.trades && (s1.trades[t].assets == s.trades[t].assets || sender == s.trades[t].owner)
    case CounterList(q) => q in s.counters ==> q in s1.counters && (s1.counters[q].assets == s.counters[q].assets || sender == s.counters[q].owner)
  }

  lemma {:induction false} AuthorisedLists(s: Store, s1: Store, info: Info, msg: ExecuteMsg, l: ListId)
    requires Authorised(s, s1, info, msg)
    ensures OwnersList(s, s1, info.sender, l)
  {
  }

  /** In particular a list changes only at its owner's hands. */
  lemma {:induction false} ListsChangeByOwner(self: Addr, s: Store, info: Info, msg: ExecuteMsg, l: ListId)
    requires Inv(s) && Step(Lazy, self, s, info, msg).Ok?
    ensures OwnersList(s, Step(Lazy, self, s, info, msg).value.0, info.sender, l)
  {
    StepAuthorised(self, s, info, msg);
    AuthorisedLists(s, Step(Lazy, self, s, info, msg).value.0, info, msg, l);
  }
}

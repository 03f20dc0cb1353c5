/** What every message keeps of the store's structure, and the errors that therefore never
    occur. */
module P2PInvariant {
  import opened Base
  import opened Ledger
  import opened P2PTypes
  import opened P2PAssets
  import opened P2PSpec
  import P2PRemoval

  ghost predicate TradeIds(s: Store) {
    forall t: nat :: t in s.trades <==> s.lastTradeId.Some? && t <= s.lastTradeId.value
  }

  ghost predicate CounterIds(s: Store) {
    forall t: nat, c: nat :: (t, c) in s.counters
                   <==> t in s.trades && s.trades[t].lastCounterId.Some? && c <= s.trades[t].lastCounterId.value
  }

  /** A trade record in itself. */
  ghost predicate TradeShape(info: TradeInfo) {
    && info.state != Refused
    && (info.state == Created || info.state == Published ==> info.lastCounterId.None?)
    && (info.state == Countered ==> info.lastCounterId.Some?)
    && (info.state == Accepted <==> info.acceptedInfo.Some?)
    && (info.assetsWithdrawn ==> info.state == Cancelled || info.state == Accepted)
    && UniqueFungible(info.assets)
  }

  /** A counter record in itself. */
  ghost predicate CounterShape(info: TradeInfo) {
    && info.state != Countered
    && (info.assetsWithdrawn ==> info.state == Refused || info.state == Cancelled || info.state == Accepted)
    && UniqueFungible(info.assets)
  }

  /** The accepted counter of `t`, from the trade's side and from the counter's. */
  ghost predicate AcceptedAgree(s: Store) {
    && (forall t :: t in s.trades && s.trades[t].acceptedInfo.Some? ==>
          var k := s.trades[t].acceptedInfo.value;
          k.0 == t && k in s.counters && s.counters[k].state == Accepted)
    && (forall k :: k in s.counters && s.counters[k].state == Accepted ==>
          k.0 in s.trades && s.trades[k.0].acceptedInfo == Some(k))
  }

  ghost predicate Inv(s: Store) {
    && TradeIds(s)
    && CounterIds(s)
    && (forall t :: t in s.trades ==> TradeShape(s.trades[t]))
    && (forall k :: k in s.counters ==> CounterShape(s.counters[k]))
    && AcceptedAgree(s)
  }

  lemma {:induction false} InitInv(admin: Addr)
    ensures Inv(NewStore(admin))
  {
  }

  // ----- Writing one record

  lemma {:induction false} PutTradeInv(s: Store, t: nat, info: TradeInfo)
    requires Inv(s) && t in s.trades && TradeShape(info)
    requires info.lastCounterId == s.trades[t].lastCounterId && info.acceptedInfo == s.trades[t].acceptedInfo
    ensures Inv(PutTrade(s, t, info))
  {
    var s1 := PutTrade(s, t, info);
    assert TradeIds(s1);
    assert CounterIds(s1);
    assert AcceptedAgree(s1);
  }

  lemma {:induction false} PutCounterInv(s: Store, t: nat, c: nat, info: TradeInfo)
    requires Inv(s) && (t, c) in s.counters && CounterShape(info)
    requires info.state == Accepted <==> s.counters[(t, c)].state == Accepted
    ensures Inv(PutCounter(s, t, c, info))
  {
    var s1 := PutCounter(s, t, c, info);
    assert CounterIds(s1);
    assert AcceptedAgree(s1);
  }

  /** A load shows an accepted state only where one is stored. */
  lemma {:induction false} LoadedCounter(s: Store, t: nat, c: nat)
    requires Inv(s) && LoadCounter(Lazy, s, t, c).Ok?
    ensures var info := LoadCounter(Lazy, s, t, c).value;
            (t, c) in s.counters && t in s.trades && CounterShape(info)
            && (info.state == Accepted <==> s.counters[(t, c)].state == Accepted)
            && (info.state == Created || info.state == Published ==> info == s.counters[(t, c)])
            && info == s.counters[(t, c)].(state := info.state)
            && (info.assetsWithdrawn ==> info.state == Refused || info.state == Cancelled || info.state == Accepted)
  {
    if s.counters[(t, c)].state == Accepted {
      assert s.trades[t].acceptedInfo == Some((t, c));
      assert TradeShape(s.trades[t]);
    }
  }

  // ----- What the creating messages come to

  function Users(whitelist: Option<seq<Addr>>): set<Addr> {
    match whitelist case None => {} case Some(us) => set u | u in us
  }

  lemma {:induction false} Whitelisted(s: Store, sender: Addr, t: nat, whitelist: Option<seq<Addr>>)
    requires t in s.trades && s.trades[t] == NewTradeInfo(sender)
    ensures (match whitelist case None => Ok(s) case Some(users) => AddWhitelistedUsers(s, sender, t, users))
         == Ok(PutTrade(s, t, NewTradeInfo(sender).(whitelistedUsers := Users(whitelist))))
  {
    if whitelist.Some? {
      assert {} + Users(whitelist) == Users(whitelist);
    } else {
      assert s.trades[t := NewTradeInfo(sender)] == s.trades;
    }
  }

  lemma {:induction false} Commented(m: Mode, s: Store, sender: Addr, t: nat, comment: Option<string>, info: TradeInfo)
    requires t in s.trades && s.trades[t] == info && info.owner == sender && info.ownerComment.None?
    ensures (match comment case None => Ok(s) case Some(text) => SetComment(m, s, sender, t, None, text))
         == Ok(PutTrade(s, t, info.(ownerComment := comment)))
  {
    if comment.None? {
      assert s.trades[t := info] == s.trades;
    }
  }

  /** What creating a trade comes to, comment and whitelist included. */
  lemma {:induction false} CreatedTrade(m: Mode, s: Store, sender: Addr, whitelist: Option<seq<Addr>>, comment: Option<string>)
    requires NextId(s.lastTradeId) !in s.trades
    ensures var t := NextId(s.lastTradeId);
            CreateTrade(m, s, sender, whitelist, comment)
            == Ok((s.(lastTradeId := Some(t), lastUserTrade := s.lastUserTrade[sender := t],
                      trades := s.trades[t := NewTradeInfo(sender).(whitelistedUsers := Users(whitelist), ownerComment := comment)]), Silent()))
  {
    var t := NextId(s.lastTradeId);
    var s1 := PutTrade(s.(lastTradeId := Some(t)), t, NewTradeInfo(sender));
    Whitelisted(s1, sender, t, whitelist);
    var info := NewTradeInfo(sender).(whitelistedUsers := Users(whitelist));
    var s3 := PutTrade(s1, t, info).(lastUserTrade := s1.lastUserTrade[sender := t]);
    Commented(m, s3, sender, t, comment, info);
    assert PutTrade(s3, t, info.(ownerComment := comment)).trades == s.trades[t := info.(ownerComment := comment)];
  }

  /** What suggesting a counter comes to, comment included. */
  lemma {:induction false} Suggested(m: Mode, s: Store, sender: Addr, t: nat, comment: Option<string>)
    requires CanSuggest(s, t, sender).Ok?
    requires (t, NextId(s.trades[t].lastCounterId)) !in s.counters
    ensures var trade := s.trades[t];
            var c := NextId(trade.lastCounterId);
            SuggestCounterTrade(m, s, sender, t, comment)
            == Ok((PutCounter(PutTrade(s, t, CounteredTrade(trade)), t, c, NewTradeInfo(sender).(ownerComment := comment))
                   .(lastUserCounter := s.lastUserCounter[(sender, t) := c]), Silent()))
  {
    if comment.Some? {
      var trade := s.trades[t];
      var c := NextId(trade.lastCounterId);
      var s3 := PutCounter(PutTrade(s, t, CounteredTrade(trade)), t, c, NewTradeInfo(sender)).(lastUserCounter := s.lastUserCounter[(sender, t) := c]);
      assert LoadCounter(m, s3, t, c) == Ok(NewTradeInfo(sender));
      var s4 := PutCounter(s3, t, c, NewTradeInfo(sender).(ownerComment := comment));
      assert SetComment(m, s3, sender, t, Some(c), comment.value) == Ok(s4);
      assert s4.counters == s.counters[(t, c) := NewTradeInfo(sender).(ownerComment := comment)];
    }
  }

  // ----- Every message keeps the structure

  lemma {:induction false} SetCommentInv(s: Store, sender: Addr, t: nat, c: Option<nat>, comment: string)
    requires Inv(s) && SetComment(Lazy, s, sender, t, c, comment).Ok?
    ensures Inv(SetComment(Lazy, s, sender, t, c, comment).value)
  {
    match c
    case Some(c) =>
      LoadedCounter(s, t, c);
      PutCounterInv(s, t, c, LoadCounter(Lazy, s, t, c).value.(ownerComment := Some(comment)));
    case None =>
      PutTradeInv(s, t, s.trades[t].(ownerComment := Some(comment)));
  }

  /** The structure is a matter of the trades, the counters and the last trade id. */
  lemma {:induction false} InvFrame(s: Store, s1: Store)
    requires Inv(s) && s1.trades == s.trades && s1.counters == s.counters && s1.lastTradeId == s.lastTradeId
    ensures Inv(s1)
  {
    assert TradeIds(s1) && CounterIds(s1) && AcceptedAgree(s1);
  }

  lemma {:induction false} FreshTrade(s: Store)
    requires TradeIds(s)
    ensures NextId(s.lastTradeId) !in s.trades
  {
  }

  lemma {:induction false} FreshTradeInv(s: Store, sender: Addr)
    requires Inv(s)
    ensures NextId(s.lastTradeId) !in s.trades
    ensures Inv(PutTrade(s.(lastTradeId := Some(NextId(s.lastTradeId))), NextId(s.lastTradeId), NewTradeInfo(sender)))
  {
    var t := NextId(s.lastTradeId);
    assert t !in s.trades;
    var s1 := PutTrade(s.(lastTradeId := Some(t)), t, NewTradeInfo(sender));
    assert TradeIds(s1);
    assert CounterIds(s1);
    assert AcceptedAgree(s1);
  }

  lemma {:induction false} CreateTradeInv(s: Store, sender: Addr, whitelist: Option<seq<Addr>>, comment: Option<string>)
    requires Inv(s)
    ensures CreateTrade(Lazy, s, sender, whitelist, comment).Ok?
    ensures Inv(CreateTrade(Lazy, s, sender, whitelist, comment).value.0)
  {
    FreshTradeInv(s, sender);
    var t := NextId(s.lastTradeId);
    var s1 := PutTrade(s.(lastTradeId := Some(t)), t, NewTradeInfo(sender));
    var s2 := s1;
    match whitelist {
      case Some(users) =>
        WhitelistInv(s1, sender, t, users);
        s2 := AddWhitelistedUsers(s1, sender, t, users).value;
      case None =>
    }
    var s3 := s2.(lastUserTrade := s2.lastUserTrade[sender := t]);
    InvFrame(s2, s3);
    if comment.Some? {
      SetCommentInv(s3, sender, t, None, comment.value);
    }
  }

  /** The trade a suggestion leaves. */
  function CounteredTrade(trade: TradeInfo): TradeInfo {
    trade.(lastCounterId := Some(NextId(trade.lastCounterId)), state := if trade.state == Published then Countered else trade.state)
  }

  lemma {:induction false} FreshCounter(s: Store, t: nat)
    requires CounterIds(s) && t in s.trades
    ensures (t, NextId(s.trades[t].lastCounterId)) !in s.counters
  {
  }

  lemma {:induction false} FreshCounterIds(s: Store, t: nat, sender: Addr)
    requires CounterIds(s) && t in s.trades
    ensures CounterIds(PutCounter(PutTrade(s, t, CounteredTrade(s.trades[t])), t, NextId(s.trades[t].lastCounterId), NewTradeInfo(sender)))
  {
  }

  lemma {:induction false} FreshCounterAgree(s: Store, t: nat, c: nat, sender: Addr)
    requires AcceptedAgree(s) && t in s.trades && (t, c) !in s.counters
    ensures AcceptedAgree(PutCounter(PutTrade(s, t, CounteredTrade(s.trades[t])), t, c, NewTradeInfo(sender)))
  {
  }

  lemma {:induction false} FreshCounterInv(s: Store, sender: Addr, t: nat)
    requires Inv(s) && CanSuggest(s, t, sender).Ok?
    ensures Inv(PutCounter(PutTrade(s, t, CounteredTrade(s.trades[t])), t, NextId(s.trades[t].lastCounterId), NewTradeInfo(sender)))
  {
    var trade := s.trades[t];
    assert TradeShape(trade);
    FreshCounter(s, t);
    FreshCounterIds(s, t, sender);
    FreshCounterAgree(s, t, NextId(trade.lastCounterId), sender);
    assert TradeIds(PutTrade(s, t, CounteredTrade(trade)));
  }

  lemma {:induction false} SuggestInv(s: Store, sender: Addr, t: nat, comment: Option<string>)
    requires Inv(s) && CanSuggest(s, t, sender).Ok?
    ensures SuggestCounterTrade(Lazy, s, sender, t, comment).Ok?
    ensures Inv(SuggestCounterTrade(Lazy, s, sender, t, comment).value.0)
  {
    FreshCounter(s, t);
    FreshCounterInv(s, sender, t);
    var c := NextId(s.trades[t].lastCounterId);
    var s2 := PutCounter(PutTrade(s, t, CounteredTrade(s.trades[t])), t, c, NewTradeInfo(sender));
    var s3 := s2.(lastUserCounter := s2.lastUserCounter[(sender, t) := c]);
    InvFrame(s2, s3);
    if comment.Some? {
      SetCommentInv(s3, sender, t, Some(c), comment.value);
    }
  }

  lemma {:induction false} AcceptAgree(s: Store, t: nat, c: nat, trade: TradeInfo, counter: TradeInfo)
    requires AcceptedAgree(s) && t in s.trades && s.trades[t].acceptedInfo.None? && (t, c) in s.counters
    requires trade.acceptedInfo == Some((t, c)) && counter.state == Accepted
    ensures AcceptedAgree(PutCounter(PutTrade(s, t, trade), t, c, counter))
  {
    assert forall k :: k in s.counters && k.0 == t ==> s.counters[k].state != Accepted;
  }

  lemma {:induction false} AcceptInv(s: Store, sender: Addr, t: nat, c: nat, comment: Option<string>)
    requires Inv(s) && AcceptTrade(Lazy, s, sender, t, c, comment).Ok?
    ensures Inv(AcceptTrade(Lazy, s, sender, t, c, comment).value.0)
  {
    LoadedCounter(s, t, c);
    var s1 := AcceptTrade(Lazy, s, sender, t, c, comment).value.0;
    assert TradeShape(s.trades[t]);
    assert TradeIds(s1);
    assert CounterIds(s1);
    AcceptAgree(s, t, c, s1.trades[t], s1.counters[(t, c)]);
  }

  lemma {:induction false} AddToListUnique(assets: seq<Asset>, a: Asset, funds: seq<Coin>)
    requires UniqueFungible(assets) && AddToList(assets, a, funds).Ok?
    ensures UniqueFungible(AddToList(assets, a, funds).value)
  {
    DepositKeepsUnique(assets, a);
  }

  lemma {:induction false} AddToTradeInv(self: Addr, s: Store, info: Info, id: Option<nat>, a: Asset)
    requires Inv(s) && AddToTrade(self, s, info, id, a).Ok?
    ensures Inv(AddToTrade(self, s, info, id, a).value.0)
  {
    var t := TradeIdOrLast(s, info.sender, id).value;
    AddToListUnique(s.trades[t].assets, a, info.funds);
    PutTradeInv(s, t, s.trades[t].(assets := AddToList(s.trades[t].assets, a, info.funds).value));
  }

  lemma {:induction false} RemoveFromTradeInv(self: Addr, s: Store, sender: Addr, t: nat, rs: seq<Request>)
    requires Inv(s) && RemoveFromTrade(self, s, sender, t, rs).Ok?
    ensures Inv(RemoveFromTrade(self, s, sender, t, rs).value.0)
  {
    P2PRemoval.RemovalKeepsForm(s.trades[t].assets, rs);
    PutTradeInv(s, t, s.trades[t].(assets := Removal(s.trades[t].assets, rs).value));
  }

  lemma {:induction false} WhitelistInv(s: Store, sender: Addr, t: nat, users: seq<Addr>)
    requires Inv(s) && CanModify(s, sender, t).Ok?
    ensures Inv(AddWhitelistedUsers(s, sender, t, users).value)
    ensures Inv(RemoveWhitelistedUsers(s, sender, t, users).value)
  {
    var trade := s.trades[t];
    PutTradeInv(s, t, trade.(whitelistedUsers := trade.whitelistedUsers + set u | u in users));
    PutTradeInv(s, t, trade.(whitelistedUsers := trade.whitelistedUsers - set u | u in users));
  }

  lemma {:induction false} ConfirmTradeInv(s: Store, sender: Addr, id: Option<nat>)
    requires Inv(s) && ConfirmTrade(s, sender, id).Ok?
    ensures Inv(ConfirmTrade(s, sender, id).value.0)
  {
    var t := TradeIdOrLast(s, sender, id).value;
    PutTradeInv(s, t, s.trades[t].(state := Published));
  }

  lemma {:induction false} CancelTradeInv(s: Store, sender: Addr, t: nat)
    requires Inv(s) && CancelTrade(Lazy, s, sender, t).Ok?
    ensures Inv(CancelTrade(Lazy, s, sender, t).value.0)
  {
    PutTradeInv(s, t, s.trades[t].(state := Cancelled));
  }

  lemma {:induction false} WithdrawAllFromTradeInv(self: Addr, s: Store, sender: Addr, t: nat)
    requires Inv(s) && WithdrawAllFromTrade(self, s, sender, t).Ok?
    ensures Inv(WithdrawAllFromTrade(self, s, sender, t).value.0)
  {
    PutTradeInv(s, t, s.trades[t].(state := Cancelled, assetsWithdrawn := true));
  }

  lemma {:induction false} AddToCounterInv(self: Addr, s: Store, info: Info, t: nat, id: Option<nat>, a: Asset)
    requires Inv(s) && AddToCounter(Lazy, self, s, info, t, id, a).Ok?
    ensures Inv(AddToCounter(Lazy, self, s, info, t, id, a).value.0)
  {
    var c := CounterIdOrLast(s, info.sender, t, id).value;
    LoadedCounter(s, t, c);
    var counter := s.counters[(t, c)];
    AddToListUnique(counter.assets, a, info.funds);
    PutCounterInv(s, t, c, counter.(assets := AddToList(counter.assets, a, info.funds).value));
  }

  lemma {:induction false} RemoveFromCounterInv(self: Addr, s: Store, sender: Addr, t: nat, c: nat, rs: seq<Request>)
    requires Inv(s) && RemoveFromCounter(Lazy, self, s, sender, t, c, rs).Ok?
    ensures Inv(RemoveFromCounter(Lazy, self, s, sender, t, c, rs).value.0)
  {
    LoadedCounter(s, t, c);
    var counter := LoadCounter(Lazy, s, t, c).value;
    P2PRemoval.RemovalKeepsForm(counter.assets, rs);
    PutCounterInv(s, t, c, counter.(assets := Removal(counter.assets, rs).value));
  }

  lemma {:induction false} OwnerMarkInv(self: Addr, s: Store, info: Info, msg: ExecuteMsg)
    requires Inv(s) && Step(Lazy, self, s, info, msg).Ok?
    requires msg.ConfirmCounterTradeMsg? || msg.CancelCounterTradeMsg? || msg.WithdrawAllFromCounterMsg?
    ensures Inv(Step(Lazy, self, s, info, msg).value.0)
  {
    var t := msg.tradeId;
    var c := if msg.ConfirmCounterTradeMsg? then CounterIdOrLast(s, info.sender, t, msg.ofCounter).value else msg.counterId;
    LoadedCounter(s, t, c);
    var s1 := Step(Lazy, self, s, info, msg).value.0;
    PutCounterInv(s, t, c, s1.counters[(t, c)]);
    assert s1 == PutCounter(s, t, c, s1.counters[(t, c)]);
  }

  lemma {:induction false} TraderMarkInv(self: Addr, s: Store, info: Info, msg: ExecuteMsg)
    requires Inv(s) && Step(Lazy, self, s, info, msg).Ok?
    requires msg.RefuseCounterTradeMsg? || msg.ReviewCounterTradeMsg?
    ensures Inv(Step(Lazy, self, s, info, msg).value.0)
  {
    LoadedCounter(s, msg.tradeId, msg.counterId);
    assert TradeShape(s.trades[msg.tradeId]);
    var s1 := Step(Lazy, self, s, info, msg).value.0;
    PutCounterInv(s, msg.tradeId, msg.counterId, s1.counters[(msg.tradeId, msg.counterId)]);
    assert s1 == PutCounter(s, msg.tradeId, msg.counterId, s1.counters[(msg.tradeId, msg.counterId)]);
  }

  /** The handlers that only set a counter's state, its comment or its withdrawn flag. */
  lemma {:induction false} MarkCounterInv(self: Addr, s: Store, info: Info, msg: ExecuteMsg)
    requires Inv(s) && Step(Lazy, self, s, info, msg).Ok?
    requires msg.ConfirmCounterTradeMsg? || msg.CancelCounterTradeMsg? || msg.RefuseCounterTradeMsg?
             || msg.ReviewCounterTradeMsg? || msg.WithdrawAllFromCounterMsg?
    ensures Inv(Step(Lazy, self, s, info, msg).value.0)
  {
    if msg.RefuseCounterTradeMsg? || msg.ReviewCounterTradeMsg? {
      TraderMarkInv(self, s, info, msg);
    } else {
      OwnerMarkInv(self, s, info, msg);
    }
  }

  lemma {:induction false} WithdrawAcceptedInv(self: Addr, s: Store, sender: Addr, trader: Addr, t: nat)
    requires Inv(s) && WithdrawAcceptedFunds(Lazy, self, s, sender, trader, t).Ok?
    ensures Inv(WithdrawAcceptedFunds(Lazy, self, s, sender, trader, t).value.0)
  {
    var c := s.trades[t].acceptedInfo.value.1;
    LoadedCounter(s, t, c);
    var counter := LoadCounter(Lazy, s, t, c).value;
    if s.trades[t].owner == trader {
      PutCounterInv(s, t, c, counter.(assetsWithdrawn := true));
    } else {
      PutTradeInv(s, t, s.trades[t].(assetsWithdrawn := true));
    }
  }

  lemma {:induction false} AdminInv(self: Addr, s: Store, info: Info, msg: ExecuteMsg)
    requires Inv(s) && Step(Lazy, self, s, info, msg).Ok?
    requires msg.SetNewOwnerMsg? || msg.SetNewFeeContractMsg?
    ensures Inv(Step(Lazy, self, s, info, msg).value.0)
  {
    var s1 := Step(Lazy, self, s, info, msg).value.0;
    assert TradeIds(s1) && CounterIds(s1) && AcceptedAgree(s1);
  }

  lemma {:induction false} StepInv(self: Addr, s: Store, info: Info, msg: ExecuteMsg)
    requires Inv(s) && Step(Lazy, self, s, info, msg).Ok?
    ensures Inv(Step(Lazy, self, s, info, msg).value.0)
  {
    match msg
    case CreateTradeMsg(whitelist, comment) => CreateTradeInv(s, info.sender, whitelist, comment);
    case AddAssetMsg(ToLastTrade, a) => AddToTradeInv(self, s, info, None, a);
    case AddAssetMsg(ToTrade(t), a) => AddToTradeInv(self, s, info, Some(t), a);
    case AddAssetMsg(ToLastCounterTrade(t), a) => AddToCounterInv(self, s, info, t, None, a);
    case AddAssetMsg(ToCounterTrade(t, c), a) => AddToCounterInv(self, s, info, t, Some(c), a);
    case RemoveAssetsMsg(t, None, rs) => RemoveFromTradeInv(self, s, info.sender, t, rs);
    case RemoveAssetsMsg(t, Some(c), rs) => RemoveFromCounterInv(self, s, info.sender, t, c, rs);
    case AddWhitelistedUsersMsg(t, users) => WhitelistInv(s, info.sender, t, users);
    case RemoveWhitelistedUsersMsg(t, users) => WhitelistInv(s, info.sender, t, users);
    case SetCommentMsg(t, c, comment) => SetCommentInv(s, info.sender, t, c, comment);
    case ConfirmTradeMsg(id) => ConfirmTradeInv(s, info.sender, id);
    case SuggestCounterTradeMsg(t, comment) => SuggestInv(s, info.sender, t, comment);
    case AcceptTradeMsg(t, c, comment) => AcceptInv(s, info.sender, t, c, comment);
    case CancelTradeMsg(t) => CancelTradeInv(s, info.sender, t);
    case WithdrawPendingAssetsMsg(trader, t) => WithdrawAcceptedInv(self, s, info.sender, trader, t);
    case WithdrawAllFromTradeMsg(t) => WithdrawAllFromTradeInv(self, s, info.sender, t);
    case SetNewOwnerMsg(_) => AdminInv(self, s, info, msg);
    case SetNewFeeContractMsg(_) => AdminInv(self, s, info, msg);
    case _ => MarkCounterInv(self, s, info, msg);
  }

  // ----- Over whole runs

  lemma {:induction false} RunInv(self: Addr, c: Chain, txs: seq<Tx>)
    requires Inv(c.store)
    ensures Inv(Run(Lazy, self, c, txs).store)
    decreases |txs|
  {
    if txs != [] {
      if Try(Lazy, self, c, txs[0]).Some? {
        StepInv(self, c.store, txs[0].info, txs[0].msg);
      }
      RunInv(self, Exec(Lazy, self, c, txs[0]), txs[1..]);
    }
  }

  /** The errors the source marks as impossible. */
  predicate IsBug(e: Error) {
    e.Std? || e.ContractBug? || e.ExistsInTradeInfo? || e.ExistsInCounterTradeInfo?
  }

  lemma {:induction false} ChecksNoBug(assets: seq<Asset>, rs: seq<Request>)
    ensures CheckRequests(assets, rs).Err? ==> !IsBug(CheckRequests(assets, rs).error)
  {
    if rs != [] {
      ChecksNoBug(assets, rs[1..]);
    }
  }

  lemma {:induction false} RemovalNoBug(assets: seq<Asset>, rs: seq<Request>)
    ensures Removal(assets, rs).Err? ==> !IsBug(Removal(assets, rs).error)
  {
    ChecksNoBug(assets, rs);
    if CheckRequests(assets, rs).Ok? {
      CheckedInRange(assets, rs);
      P2PRemoval.TakeAllOverflows(assets, rs);
    }
  }

  predicate MatchesFunds(info: Info, msg: ExecuteMsg) {
    msg.AddAssetMsg? && msg.asset.Native? ==> info.funds == [msg.asset.coin]
  }

  /** A coin deposit that comes with other coins is answered with a standard error; no other
      message is. */
  predicate Impossible(info: Info, msg: ExecuteMsg, e: Error) {
    IsBug(e) && (e.Std? ==> MatchesFunds(info, msg))
  }

  lemma {:induction false} NoBugCreating(s: Store, sender: Addr, t: nat, whitelist: Option<seq<Addr>>, comment: Option<string>)
    requires Inv(s)
    ensures CreateTrade(Lazy, s, sender, whitelist, comment).Ok?
    ensures SuggestCounterTrade(Lazy, s, sender, t, comment).Err? ==> !IsBug(SuggestCounterTrade(Lazy, s, sender, t, comment).error)
  {
    CreateTradeInv(s, sender, whitelist, comment);
    if CanSuggest(s, t, sender).Ok? {
      SuggestInv(s, sender, t, comment);
    }
  }

  lemma {:induction false} NoBugRemoving(self: Addr, s: Store, sender: Addr, t: nat, c: nat, rs: seq<Request>)
    requires Inv(s)
    ensures RemoveFromTrade(self, s, sender, t, rs).Err? ==> !IsBug(RemoveFromTrade(self, s, sender, t, rs).error)
    ensures RemoveFromCounter(Lazy, self, s, sender, t, c, rs).Err?
            ==> !IsBug(RemoveFromCounter(Lazy, self, s, sender, t, c, rs).error)
  {
    if t in s.trades { RemovalNoBug(s.trades[t].assets, rs); }
    if (t, c) in s.counters { RemovalNoBug(s.counters[(t, c)].assets, rs); }
  }

  ghost predicate CountersHaveTrades(s: Store) {
    forall t, c :: (t, c) in s.counters ==> t in s.trades
  }

  lemma {:induction false} NoBugAdding(self: Addr, s: Store, info: Info, msg: ExecuteMsg)
    requires CountersHaveTrades(s) && msg.AddAssetMsg?
    ensures Step(Lazy, self, s, info, msg).Err? ==> !Impossible(info, msg, Step(Lazy, self, s, info, msg).error)
  {
  }

  lemma {:induction false} NoBugInTrade(self: Addr, s: Store, info: Info, msg: ExecuteMsg)
    requires CountersHaveTrades(s)
    requires msg.AddWhitelistedUsersMsg? || msg.RemoveWhitelistedUsersMsg? || msg.SetCommentMsg?
             || msg.ConfirmTradeMsg? || msg.AcceptTradeMsg? || msg.CancelTradeMsg? || msg.WithdrawAllFromTradeMsg?
    ensures Step(Lazy, self, s, info, msg).Err? ==> !IsBug(Step(Lazy, self, s, info, msg).error)
  {
  }

  lemma {:induction false} NoBugInCounter(self: Addr, s: Store, info: Info, msg: ExecuteMsg)
    requires CountersHaveTrades(s)
    requires msg.ConfirmCounterTradeMsg? || msg.CancelCounterTradeMsg? || msg.RefuseCounterTradeMsg?
             || msg.ReviewCounterTradeMsg? || msg.WithdrawAllFromCounterMsg?
    ensures Step(Lazy, self, s, info, msg).Err? ==> !IsBug(Step(Lazy, self, s, info, msg).error)
  {
  }

  lemma {:induction false} NoBugSettling(self: Addr, s: Store, info: Info, msg: ExecuteMsg)
    requires Inv(s)
    requires msg.WithdrawPendingAssetsMsg? || msg.SetNewOwnerMsg? || msg.SetNewFeeContractMsg?
    ensures Step(Lazy, self, s, info, msg).Err? ==> !IsBug(Step(Lazy, self, s, info, msg).error)
  {
    if msg.WithdrawPendingAssetsMsg? && msg.tradeId in s.trades {
      assert TradeShape(s.trades[msg.tradeId]);
    }
  }

  lemma {:induction false} NoBugIn(self: Addr, s: Store, info: Info, msg: ExecuteMsg)
    requires Inv(s)
    ensures Step(Lazy, self, s, info, msg).Err? ==> !Impossible(info, msg, Step(Lazy, self, s, info, msg).error)
  {
    if msg.CreateTradeMsg? {
      NoBugCreating(s, info.sender, 0, msg.whitelist, msg.newComment);
    } else if msg.SuggestCounterTradeMsg? {
      NoBugCreating(s, info.sender, msg.tradeId, None, msg.newComment);
    } else if msg.RemoveAssetsMsg? {
      NoBugRemoving(self, s, info.sender, msg.tradeId, Or(msg.ofCounter, 0), msg.assets);
    } else if msg.AddAssetMsg? {
      NoBugAdding(self, s, info, msg);
    } else if msg.WithdrawPendingAssetsMsg? || msg.SetNewOwnerMsg? || msg.SetNewFeeContractMsg? {
      NoBugSettling(self, s, info, msg);
    } else if msg.ConfirmCounterTradeMsg? || msg.CancelCounterTradeMsg? || msg.RefuseCounterTradeMsg?
              || msg.ReviewCounterTradeMsg? || msg.WithdrawAllFromCounterMsg? {
      NoBugInCounter(self, s, info, msg);
    } else {
      NoBugInTrade(self, s, info, msg);
    }
  }

  /** In every reachable state no message fails with one of them, but for the standard error
      that answers a coin deposit whose coins are not the ones announced. */
  lemma {:induction false} NeverABug(self: Addr, admin: Addr, w: Wallets, txs: seq<Tx>, info: Info, msg: ExecuteMsg)
    ensures var s := Run(Lazy, self, Chain(NewStore(admin), w), txs).store;
            Step(Lazy, self, s, info, msg).Err? ==> !Impossible(info, msg, Step(Lazy, self, s, info, msg).error)
  {
    InitInv(admin);
    RunInv(self, Chain(NewStore(admin), w), txs);
    NoBugIn(self, Run(Lazy, self, Chain(NewStore(admin), w), txs).store, info, msg);
  }
}

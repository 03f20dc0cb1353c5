/** Settlement: each list is paid out at most once, to the side it is due to, and what an
    accepted trade pays is what both sides had listed when it was accepted. */
module P2PSettlement {
  import opened Base
  import opened Ledger
  import opened P2PTypes
  import opened P2PSpec
  import opened P2PInvariant

  // ----- What a step may do to any record

  ghost function ReadState(s: Store, q: CounterKey): TradeState
    requires q in s.counters && q.0 in s.trades
  {
    ActualState(s.trades[q.0].state, s.counters[q].state)
  }

  predicate Aborted(st: TradeState) {
    st == Refused || st == Cancelled
  }

  ghost predicate TradeMoves(a: TradeInfo, b: TradeInfo) {
    && b.owner == a.owner
    && (a.state != Created ==> b.state != Created && b.assets == a.assets)
    && (a.state == Cancelled ==> b.state == Cancelled)
    && (a.state == Accepted ==> b.state == Accepted && b.acceptedInfo == a.acceptedInfo)
    && (a.assetsWithdrawn ==> b.assetsWithdrawn && b.assets == a.assets)
  }

  /** A reviewed counter may be edited again, so a counter's list is final only once its read
      state is. */
  ghost predicate CounterMoves(a: TradeInfo, aRead: TradeState, b: TradeInfo, bRead: TradeState) {
    && b.owner == a.owner
    && (aRead == Accepted || Aborted(aRead) ==> b.assets == a.assets)
    && (Aborted(aRead) ==> Aborted(bRead))
    && (aRead == Accepted ==> bRead == Accepted)
    && (a.assetsWithdrawn ==> b.assetsWithdrawn && b.assets == a.assets)
  }

  ghost predicate Moves(s: Store, s1: Store) {
    && (forall t :: t in s.trades ==> t in s1.trades && TradeMoves(s.trades[t], s1.trades[t]))
    && (forall q :: q in s.counters ==> (
          q.0 in s.trades && q in s1.counters && q.0 in s1.trades
          && CounterMoves(s.counters[q], ReadState(s, q), s1.counters[q], ReadState(s1, q))))
  }

  ghost predicate Anchored(s: Store) {
    forall q :: q in s.counters ==> q.0 in s.trades
  }

  lemma {:induction false} InvAnchored(s: Store)
    requires Inv(s)
    ensures Anchored(s)
  {
    forall q | q in s.counters ensures q.0 in s.trades {
      assert (q.0, q.1) in s.counters;
    }
  }

  /** One trade rewritten. Ending a trade ends its counters' life, it never revives one. */
  lemma {:induction false} PutTradeMoves(s: Store, s1: Store, t: nat)
    requires Anchored(s) && AcceptedAgree(s) && t in s.trades && TradeShape(s.trades[t]) && t in s1.trades
    requires s1.trades == s.trades[t := s1.trades[t]] && s1.counters == s.counters
    requires TradeMoves(s.trades[t], s1.trades[t])
    requires s1.trades[t].state == Accepted ==> s.trades[t].state == Accepted
    requires s1.trades[t].state != Refused
    ensures Moves(s, s1)
  {
    forall q | q in s.counters
      ensures q.0 in s.trades && CounterMoves(s.counters[q], ReadState(s, q), s1.counters[q], ReadState(s1, q))
    {
      assert s.counters[q].state == Accepted ==> s.trades[q.0].acceptedInfo == Some(q);
    }
  }

  lemma {:induction false} PutCounterMoves(s: Store, s1: Store, q: CounterKey)
    requires Anchored(s) && q in s.counters && q in s1.counters
    requires s1.counters == s.counters[q := s1.counters[q]] && s1.trades == s.trades
    requires CounterMoves(s.counters[q], ReadState(s, q), s1.counters[q], ReadState(s1, q))
    ensures Moves(s, s1)
  {
  }

  lemma {:induction false} SameRecordsMoves(s: Store, s1: Store)
    requires Anchored(s)
    requires forall t :: t in s.trades ==> t in s1.trades && s1.trades[t] == s.trades[t]
    requires forall q :: q in s.counters ==> q in s1.counters && s1.counters[q] == s.counters[q]
    ensures Moves(s, s1)
  {
  }

  lemma {:induction false} TradeMsgMoves(self: Addr, s: Store, info: Info, msg: ExecuteMsg)
    requires Inv(s) && Step(Lazy, self, s, info, msg).Ok?
    requires msg.AddWhitelistedUsersMsg? || msg.RemoveWhitelistedUsersMsg? || msg.ConfirmTradeMsg? || msg.CancelTradeMsg?
             || (msg.SetCommentMsg? && msg.ofCounter.None?) || msg.WithdrawAllFromTradeMsg?
    ensures Moves(s, Step(Lazy, self, s, info, msg).value.0)
  {
    InvAnchored(s);
    var t := if msg.ConfirmTradeMsg? then TradeIdOrLast(s, info.sender, msg.lastOrId).value else msg.tradeId;
    assert TradeShape(s.trades[t]);
    PutTradeMoves(s, Step(Lazy, self, s, info, msg).value.0, t);
  }

  lemma {:induction false} TradeListMoves(self: Addr, s: Store, info: Info, msg: ExecuteMsg)
    requires Inv(s) && Step(Lazy, self, s, info, msg).Ok?
    requires (msg.AddAssetMsg? && (msg.action.ToLastTrade? || msg.action.ToTrade?)) || (msg.RemoveAssetsMsg? && msg.ofCounter.None?)
    ensures Moves(s, Step(Lazy, self, s, info, msg).value.0)
  {
    InvAnchored(s);
    var t := if msg.RemoveAssetsMsg? then msg.tradeId
             else TradeIdOrLast(s, info.sender, if msg.action.ToTrade? then Some(msg.action.tradeId) else None).value;
    assert TradeShape(s.trades[t]);
    PutTradeMoves(s, Step(Lazy, self, s, info, msg).value.0, t);
  }

  lemma {:induction false} OwnerEndMoves(self: Addr, s: Store, info: Info, msg: ExecuteMsg)
    requires Inv(s) && Step(Lazy, self, s, info, msg).Ok?
    requires msg.CancelCounterTradeMsg? || msg.WithdrawAllFromCounterMsg?
    ensures Moves(s, Step(Lazy, self, s, info, msg).value.0)
  {
    InvAnchored(s);
    LoadedCounter(s, msg.tradeId, msg.counterId);
    assert TradeShape(s.trades[msg.tradeId]);
    PutCounterMoves(s, Step(Lazy, self, s, info, msg).value.0, (msg.tradeId, msg.counterId));
  }

  lemma {:induction false} TraderMarkMoves(self: Addr, s: Store, info: Info, msg: ExecuteMsg)
    requires Inv(s) && Step(Lazy, self, s, info, msg).Ok?
    requires msg.RefuseCounterTradeMsg? || msg.ReviewCounterTradeMsg?
    ensures Moves(s, Step(Lazy, self, s, info, msg).value.0)
  {
    InvAnchored(s);
    LoadedCounter(s, msg.tradeId, msg.counterId);
    assert TradeShape(s.trades[msg.tradeId]);
    PutCounterMoves(s, Step(Lazy, self, s, info, msg).value.0, (msg.tradeId, msg.counterId));
  }

  lemma {:induction false} CounterMarkMoves(self: Addr, s: Store, info: Info, msg: ExecuteMsg)
    requires Inv(s) && Step(Lazy, self, s, info, msg).Ok?
    requires msg.ConfirmCounterTradeMsg? || (msg.SetCommentMsg? && msg.ofCounter.Some?)
    ensures Moves(s, Step(Lazy, self, s, info, msg).value.0)
  {
    InvAnchored(s);
    var c := if msg.ConfirmCounterTradeMsg? then CounterIdOrLast(s, info.sender, msg.tradeId, msg.ofCounter).value
             else msg.ofCounter.value;
    LoadedCounter(s, msg.tradeId, c);
    assert TradeShape(s.trades[msg.tradeId]);
    PutCounterMoves(s, Step(Lazy, self, s, info, msg).value.0, (msg.tradeId, c));
  }

  lemma {:induction false} CounterListMoves(self: Addr, s: Store, info: Info, msg: ExecuteMsg)
    requires Inv(s) && Step(Lazy, self, s, info, msg).Ok?
    requires (msg.AddAssetMsg? && (msg.action.ToLastCounterTrade? || msg.action.ToCounterTrade?)) || (msg.RemoveAssetsMsg? && msg.ofCounter.Some?)
    ensures Moves(s, Step(Lazy, self, s, info, msg).value.0)
  {
    InvAnchored(s);
    var t := if msg.RemoveAssetsMsg? then msg.tradeId else msg.action.tradeId;
    var c := if msg.RemoveAssetsMsg? then msg.ofCounter.value
             else CounterIdOrLast(s, info.sender, t, if msg.action.ToCounterTrade? then Some(msg.action.counterId) else None).value;
    LoadedCounter(s, t, c);
    PutCounterMoves(s, Step(Lazy, self, s, info, msg).value.0, (t, c));
  }

  lemma {:induction false} CreateTradeMoves(s: Store, sender: Addr, whitelist: Option<seq<Addr>>, comment: Option<string>)
    requires Inv(s)
    ensures CreateTrade(Lazy, s, sender, whitelist, comment).Ok?
    ensures Moves(s, CreateTrade(Lazy, s, sender, whitelist, comment).value.0)
  {
    InvAnchored(s);
    FreshTrade(s);
    CreatedTrade(Lazy, s, sender, whitelist, comment);
    SameRecordsMoves(s, CreateTrade(Lazy, s, sender, whitelist, comment).value.0);
  }

  /** Records that join change nothing for those there. */
  lemma {:induction false} JoinedMoves(s: Store, s0: Store, s1: Store)
    requires Moves(s, s0) && s1.trades == s0.trades
    requires forall q :: q in s0.counters ==> q in s1.counters && s1.counters[q] == s0.counters[q]
    ensures Moves(s, s1)
  {
    forall q | q in s.counters
      ensures q.0 in s.trades && q in s1.counters && q.0 in s1.trades
              && CounterMoves(s.counters[q], ReadState(s, q), s1.counters[q], ReadState(s1, q))
    {
      assert q in s0.counters;
    }
  }

  lemma {:induction false} SuggestMoves(s: Store, sender: Addr, t: nat, comment: Option<string>)
    requires Inv(s) && CanSuggest(s, t, sender).Ok?
    ensures SuggestCounterTrade(Lazy, s, sender, t, comment).Ok?
    ensures Moves(s, SuggestCounterTrade(Lazy, s, sender, t, comment).value.0)
  {
    FreshCounter(s, t);
    Suggested(Lazy, s, sender, t, comment);
    InvAnchored(s);
    assert TradeShape(s.trades[t]);
    SuggestedMoves(s, t, SuggestCounterTrade(Lazy, s, sender, t, comment).value.0, NewTradeInfo(sender).(ownerComment := comment));
  }

  lemma {:induction false} SuggestedMoves(s: Store, t: nat, s1: Store, counter: TradeInfo)
    requires Anchored(s) && AcceptedAgree(s) && t in s.trades && TradeShape(s.trades[t])
    requires s.trades[t].state == Published || s.trades[t].state == Countered
    requires (t, NextId(s.trades[t].lastCounterId)) !in s.counters
    requires s1.trades == s.trades[t := CounteredTrade(s.trades[t])]
    requires s1.counters == s.counters[(t, NextId(s.trades[t].lastCounterId)) := counter]
    ensures Moves(s, s1)
  {
    PutTradeMoves(s, PutTrade(s, t, CounteredTrade(s.trades[t])), t);
    JoinedMoves(s, PutTrade(s, t, CounteredTrade(s.trades[t])), s1);
  }

  lemma {:induction false} AcceptedMoves(s: Store, s1: Store, t: nat, c: nat, counter: TradeInfo)
    requires Anchored(s) && AcceptedAgree(s) && t in s.trades && TradeShape(s.trades[t]) && s.trades[t].state == Countered
    requires (t, c) in s.counters && s.counters[(t, c)].state == Published && !s.counters[(t, c)].assetsWithdrawn
    requires counter.owner == s.counters[(t, c)].owner && counter.state == Accepted
    requires s1 == PutCounter(PutTrade(s, t, s.trades[t].(state := Accepted, acceptedInfo := Some((t, c)))), t, c, counter)
    ensures Moves(s, s1)
  {
    forall q | q in s.counters
      ensures q in s1.counters && CounterMoves(s.counters[q], ReadState(s, q), s1.counters[q], ReadState(s1, q))
    {
      assert s.counters[q].state == Accepted ==> s.trades[q.0].acceptedInfo == Some(q);
    }
  }

  lemma {:induction false} AcceptMoves(s: Store, sender: Addr, t: nat, c: nat, comment: Option<string>)
    requires Inv(s) && AcceptTrade(Lazy, s, sender, t, c, comment).Ok?
    ensures Moves(s, AcceptTrade(Lazy, s, sender, t, c, comment).value.0)
  {
    InvAnchored(s);
    LoadedCounter(s, t, c);
    assert TradeShape(s.trades[t]) && CounterShape(s.counters[(t, c)]);
    var s1 := AcceptTrade(Lazy, s, sender, t, c, comment).value.0;
    AcceptedMoves(s, s1, t, c, s1.counters[(t, c)]);
  }

  lemma {:induction false} WithdrawAcceptedMoves(self: Addr, s: Store, sender: Addr, trader: Addr, t: nat)
    requires Inv(s) && WithdrawAcceptedFunds(Lazy, self, s, sender, trader, t).Ok?
    ensures Moves(s, WithdrawAcceptedFunds(Lazy, self, s, sender, trader, t).value.0)
  {
    InvAnchored(s);
    var s1 := WithdrawAcceptedFunds(Lazy, self, s, sender, trader, t).value.0;
    var c := s.trades[t].acceptedInfo.value.1;
    LoadedCounter(s, t, c);
    assert TradeShape(s.trades[t]);
    if s.trades[t].owner == trader {
      PutCounterMoves(s, s1, (t, c));
    } else {
      PutTradeMoves(s, s1, t);
    }
  }

  lemma {:induction false} StepMoves(self: Addr, s: Store, info: Info, msg: ExecuteMsg)
    requires Inv(s) && Step(Lazy, self, s, info, msg).Ok?
    ensures Moves(s, Step(Lazy, self, s, info, msg).value.0)
  {
    match msg
    case CreateTradeMsg(whitelist, comment) => CreateTradeMoves(s, info.sender, whitelist, comment);
    case SuggestCounterTradeMsg(t, comment) => SuggestMoves(s, info.sender, t, comment);
    case AcceptTradeMsg(t, c, comment) => AcceptMoves(s, info.sender, t, c, comment);
    case WithdrawPendingAssetsMsg(trader, t) => WithdrawAcceptedMoves(self, s, info.sender, trader, t);
    case SetNewOwnerMsg(_) => InvAnchored(s); SameRecordsMoves(s, Step(Lazy, self, s, info, msg).value.0);
    case SetNewFeeContractMsg(_) => InvAnchored(s); SameRecordsMoves(s, Step(Lazy, self, s, info, msg).value.0);
    case AddAssetMsg(ToLastTrade, _) => TradeListMoves(self, s, info, msg);
    case AddAssetMsg(ToTrade(_), _) => TradeListMoves(self, s, info, msg);
    case AddAssetMsg(_, _) => CounterListMoves(self, s, info, msg);
    case RemoveAssetsMsg(_, None, _) => TradeListMoves(self, s, info, msg);
    case RemoveAssetsMsg(_, Some(_), _) => CounterListMoves(self, s, info, msg);
    case SetCommentMsg(_, Some(_), _) => CounterMarkMoves(self, s, info, msg);
    case ConfirmCounterTradeMsg(_, _) => CounterMarkMoves(self, s, info, msg);
    case CancelCounterTradeMsg(_, _) => OwnerEndMoves(self, s, info, msg);
    case RefuseCounterTradeMsg(_, _) => TraderMarkMoves(self, s, info, msg);
    case ReviewCounterTradeMsg(_, _, _) => TraderMarkMoves(self, s, info, msg);
    case WithdrawAllFromCounterMsg(_, _) => OwnerEndMoves(self, s, info, msg);
    case _ => TradeMsgMoves(self, s, info, msg);
  }

  lemma {:induction false} MovesTransitive(a: Store, b: Store, c: Store)
    requires Moves(a, b) && Moves(b, c)
    ensures Moves(a, c)
  {
    forall t | t in a.trades ensures t in c.trades && TradeMoves(a.trades[t], c.trades[t]) {
      assert t in b.trades;
    }
    forall q | q in a.counters
      ensures q.0 in a.trades && q in c.counters && q.0 in c.trades
              && CounterMoves(a.counters[q], ReadState(a, q), c.counters[q], ReadState(c, q))
    {
      assert q in b.counters;
    }
  }

  lemma {:induction false} RunMoves(self: Addr, c: Chain, txs: seq<Tx>)
    requires Inv(c.store)
    ensures Moves(c.store, Run(Lazy, self, c, txs).store)
    decreases |txs|
  {
    InvAnchored(c.store);
    if txs == [] {
      SameRecordsMoves(c.store, c.store);
    } else {
      var d := Exec(Lazy, self, c, txs[0]);
      if Try(Lazy, self, c, txs[0]).Some? {
        StepMoves(self, c.store, txs[0].info, txs[0].msg);
        StepInv(self, c.store, txs[0].info, txs[0].msg);
      } else {
        SameRecordsMoves(c.store, d.store);
      }
      RunMoves(self, d, txs[1..]);
      MovesTransitive(c.store, d.store, Run(Lazy, self, c, txs).store);
    }
  }

  // ----- Whole-list payouts

  datatype ListId = TradeList(t: nat) | CounterList(q: CounterKey)

  ghost predicate Withdrawn(s: Store, l: ListId) {
    match l
    case TradeList(t) => t in s.trades && s.trades[t].assetsWithdrawn
    case CounterList(q) => q in s.counters && s.counters[q].assetsWithdrawn
  }

  predicate PaysList(e: Event, l: ListId) {
    match l
    case TradeList(t) => e.TradePaid? && e.tradeId == t
    case CounterList(q) => e.CounterPaid? && e.counter == q
  }

  /** The side a trade's list is due to once paid. */
  ghost predicate TradeDue(s: Store, t: nat, to: Addr) {
    t in s.trades &&
    var trade := s.trades[t];
    (trade.state == Cancelled && to == trade.owner)
    || (trade.state == Accepted && trade.acceptedInfo.Some? && trade.acceptedInfo.value in s.counters
        && to == s.counters[trade.acceptedInfo.value].owner)
  }

  ghost predicate CounterDue(s: Store, q: CounterKey, to: Addr) {
    q in s.counters && q.0 in s.trades &&
    ((Aborted(ReadState(s, q)) && to == s.counters[q].owner)
     || (ReadState(s, q) == Accepted && to == s.trades[q.0].owner))
  }

  /** A payout event is the whole list, now marked withdrawn, sent to the side it is due to. */
  ghost predicate PayoutRight(self: Addr, s: Store, s1: Store, r: Response) {
    match r.event
    case NoPayout => true
    case TradePaid(t, to) =>
      t in s.trades && t in s1.trades && s1.trades[t].assets == s.trades[t].assets
      && r.messages == Sends(self, to, s.trades[t].assets) && TradeDue(s1, t, to)
    case CounterPaid(q, to) =>
      q in s.counters && q in s1.counters && s1.counters[q].assets == s.counters[q].assets
      && r.messages == Sends(self, to, s.counters[q].assets) && CounterDue(s1, q, to)
  }

  /** A list is paid by exactly the step that marks it withdrawn. */
  ghost predicate MarksPaid(s: Store, s1: Store, e: Event) {
    forall l :: (PaysList(e, l) ==> !Withdrawn(s, l))
             && (Withdrawn(s1, l) <==> Withdrawn(s, l) || PaysList(e, l))
  }

  predicate PayoutMsg(msg: ExecuteMsg) {
    msg.WithdrawAllFromTradeMsg? || msg.WithdrawAllFromCounterMsg? || msg.WithdrawPendingAssetsMsg?
  }

  lemma {:induction false} EmptyTradePays(self: Addr, s: Store, sender: Addr, t: nat)
    requires WithdrawAllFromTrade(self, s, sender, t).Ok?
    ensures var (s1, r) := WithdrawAllFromTrade(self, s, sender, t).value;
            PayoutRight(self, s, s1, r) && MarksPaid(s, s1, r.event)
  {
  }

  lemma {:induction false} EmptyCounterPays(self: Addr, s: Store, sender: Addr, t: nat, c: nat)
    requires Inv(s) && WithdrawAllFromCounter(Lazy, self, s, sender, t, c).Ok?
    ensures var (s1, r) := WithdrawAllFromCounter(Lazy, self, s, sender, t, c).value;
            PayoutRight(self, s, s1, r) && MarksPaid(s, s1, r.event)
  {
    LoadedCounter(s, t, c);
    assert TradeShape(s.trades[t]);
  }

  lemma {:induction false} SettlePays(self: Addr, s: Store, t: nat, c: nat, counter: TradeInfo, trader: Addr,
                                      s1: Store, r: Response)
    requires t in s.trades && s.trades[t].state == Accepted && s.trades[t].acceptedInfo == Some((t, c)) && (t, c) in s.counters
    requires counter == s.counters[(t, c)] && counter.state == Accepted
    requires Settle(self, s, t, c, s.trades[t], counter, trader) == Ok((s1, r))
    ensures PayoutRight(self, s, s1, r) && MarksPaid(s, s1, r.event)
  {
  }

  lemma {:induction false} SettlementPays(self: Addr, s: Store, sender: Addr, trader: Addr, t: nat)
    requires Inv(s) && WithdrawAcceptedFunds(Lazy, self, s, sender, trader, t).Ok?
    ensures var (s1, r) := WithdrawAcceptedFunds(Lazy, self, s, sender, trader, t).value;
            PayoutRight(self, s, s1, r) && MarksPaid(s, s1, r.event)
  {
    var c := s.trades[t].acceptedInfo.value.1;
    LoadedCounter(s, t, c);
    assert s.trades[t].acceptedInfo == Some((t, c));
    var (s1, r) := WithdrawAcceptedFunds(Lazy, self, s, sender, trader, t).value;
    SettlePays(self, s, t, c, s.counters[(t, c)], trader, s1, r);
  }

  // The messages that pay no whole list.

  lemma {:induction false} SameFlags(s: Store, s1: Store)
    requires forall t :: (t in s1.trades && s1.trades[t].assetsWithdrawn) <==> (t in s.trades && s.trades[t].assetsWithdrawn)
    requires forall q :: (q in s1.counters && s1.counters[q].assetsWithdrawn) <==> (q in s.counters && s.counters[q].assetsWithdrawn)
    ensures MarksPaid(s, s1, NoPayout)
  {
  }

  lemma {:induction false} CreatingPaysNothing(s: Store, sender: Addr, whitelist: Option<seq<Addr>>, comment: Option<string>)
    requires TradeIds(s)
    ensures var out := CreateTrade(Lazy, s, sender, whitelist, comment);
            out.Ok? && out.value.1.event == NoPayout && MarksPaid(s, out.value.0, NoPayout)
  {
    FreshTrade(s);
    CreatedTrade(Lazy, s, sender, whitelist, comment);
    SameFlags(s, CreateTrade(Lazy, s, sender, whitelist, comment).value.0);
  }

  lemma {:induction false} SuggestingPaysNothing(s: Store, sender: Addr, t: nat, comment: Option<string>)
    requires CounterIds(s) && SuggestCounterTrade(Lazy, s, sender, t, comment).Ok?
    ensures var (s1, r) := SuggestCounterTrade(Lazy, s, sender, t, comment).value;
            r.event == NoPayout && MarksPaid(s, s1, NoPayout)
  {
    FreshCounter(s, t);
    Suggested(Lazy, s, sender, t, comment);
    SameFlags(s, SuggestCounterTrade(Lazy, s, sender, t, comment).value.0);
  }

  lemma {:induction false} AcceptingPaysNothing(self: Addr, s: Store, info: Info, msg: ExecuteMsg)
    requires Step(Lazy, self, s, info, msg).Ok?
    requires msg.AcceptTradeMsg? || msg.SetNewOwnerMsg? || msg.SetNewFeeContractMsg?
    ensures var (s1, r) := Step(Lazy, self, s, info, msg).value;
            r.event == NoPayout && MarksPaid(s, s1, NoPayout)
  {
    SameFlags(s, Step(Lazy, self, s, info, msg).value.0);
  }

  lemma {:induction false} PutTradeFlags(s: Store, s1: Store, t: nat)
    requires t in s.trades && t in s1.trades && s1.trades[t].assetsWithdrawn == s.trades[t].assetsWithdrawn
    requires s1.trades == s.trades[t := s1.trades[t]] && s1.counters == s.counters
    ensures MarksPaid(s, s1, NoPayout)
  {
  }

  lemma {:induction false} PutCounterFlags(s: Store, s1: Store, q: CounterKey)
    requires q in s.counters && q in s1.counters && s1.counters[q].assetsWithdrawn == s.counters[q].assetsWithdrawn
    requires s1.counters == s.counters[q := s1.counters[q]] && s1.trades == s.trades
    ensures MarksPaid(s, s1, NoPayout)
  {
  }

  lemma {:induction false} TradeMsgPaysNothing(self: Addr, s: Store, info: Info, msg: ExecuteMsg)
    requires Step(Lazy, self, s, info, msg).Ok?
    requires msg.AddWhitelistedUsersMsg? || msg.RemoveWhitelistedUsersMsg? || msg.ConfirmTradeMsg? || msg.CancelTradeMsg?
             || (msg.SetCommentMsg? && msg.ofCounter.None?)
    ensures var (s1, r) := Step(Lazy, self, s, info, msg).value;
            r.event == NoPayout && MarksPaid(s, s1, NoPayout)
  {
    var t := if msg.ConfirmTradeMsg? then TradeIdOrLast(s, info.sender, msg.lastOrId).value else msg.tradeId;
    PutTradeFlags(s, Step(Lazy, self, s, info, msg).value.0, t);
  }

  lemma {:induction false} TradeListPaysNothing(self: Addr, s: Store, info: Info, msg: ExecuteMsg)
    requires Step(Lazy, self, s, info, msg).Ok?
    requires (msg.RemoveAssetsMsg? && msg.ofCounter.None?) || (msg.AddAssetMsg? && (msg.action.ToLastTrade? || msg.action.ToTrade?))
    ensures var (s1, r) := Step(Lazy, self, s, info, msg).value;
            r.event == NoPayout && MarksPaid(s, s1, NoPayout)
  {
    var t := if msg.RemoveAssetsMsg? then msg.tradeId
             else TradeIdOrLast(s, info.sender, if msg.action.ToTrade? then Some(msg.action.tradeId) else None).value;
    PutTradeFlags(s, Step(Lazy, self, s, info, msg).value.0, t);
  }

  lemma {:induction false} CounterMsgPaysNothing(self: Addr, s: Store, info: Info, msg: ExecuteMsg)
    requires Step(Lazy, self, s, info, msg).Ok?
    requires msg.ConfirmCounterTradeMsg? || msg.CancelCounterTradeMsg? || msg.RefuseCounterTradeMsg? || msg.ReviewCounterTradeMsg?
             || (msg.SetCommentMsg? && msg.ofCounter.Some?)
    ensures var (s1, r) := Step(Lazy, self, s, info, msg).value;
            r.event == NoPayout && MarksPaid(s, s1, NoPayout)
  {
    var c := if msg.ConfirmCounterTradeMsg? then CounterIdOrLast(s, info.sender, msg.tradeId, msg.ofCounter).value
             else if msg.SetCommentMsg? then msg.ofCounter.value else msg.counterId;
    PutCounterFlags(s, Step(Lazy, self, s, info, msg).value.0, (msg.tradeId, c));
  }

  lemma {:induction false} CounterListPaysNothing(self: Addr, s: Store, info: Info, msg: ExecuteMsg)
    requires Step(Lazy, self, s, info, msg).Ok?
    requires (msg.RemoveAssetsMsg? && msg.ofCounter.Some?)
             || (msg.AddAssetMsg? && (msg.action.ToLastCounterTrade? || msg.action.ToCounterTrade?))
    ensures var (s1, r) := Step(Lazy, self, s, info, msg).value;
            r.event == NoPayout && MarksPaid(s, s1, NoPayout)
  {
    var t := if msg.RemoveAssetsMsg? then msg.tradeId else msg.action.tradeId;
    var c := if msg.RemoveAssetsMsg? then msg.ofCounter.value
             else CounterIdOrLast(s, info.sender, t, if msg.action.ToCounterTrade? then Some(msg.action.counterId) else None).value;
    PutCounterFlags(s, Step(Lazy, self, s, info, msg).value.0, (t, c));
  }

  /** A step pays at most one list, in full, to the side it is due to, and marks it. */
  lemma {:induction false} StepPays(self: Addr, s: Store, info: Info, msg: ExecuteMsg)
    requires Inv(s) && Step(Lazy, self, s, info, msg).Ok?
    ensures var (s1, r) := Step(Lazy, self, s, info, msg).value;
            PayoutRight(self, s, s1, r) && MarksPaid(s, s1, r.event) && (r.event.NoPayout? || PayoutMsg(msg))
  {
    match msg
    case WithdrawAllFromTradeMsg(t) => EmptyTradePays(self, s, info.sender, t);
    case WithdrawAllFromCounterMsg(t, c) => EmptyCounterPays(self, s, info.sender, t, c);
    case WithdrawPendingAssetsMsg(trader, t) => SettlementPays(self, s, info.sender, trader, t);
    case CreateTradeMsg(whitelist, comment) => CreatingPaysNothing(s, info.sender, whitelist, comment);
    case SuggestCounterTradeMsg(t, comment) => SuggestingPaysNothing(s, info.sender, t, comment);
    case AcceptTradeMsg(_, _, _) => AcceptingPaysNothing(self, s, info, msg);
    case SetNewOwnerMsg(_) => AcceptingPaysNothing(self, s, info, msg);
    case SetNewFeeContractMsg(_) => AcceptingPaysNothing(self, s, info, msg);
    case AddAssetMsg(ToLastTrade, _) => TradeListPaysNothing(self, s, info, msg);
    case AddAssetMsg(ToTrade(_), _) => TradeListPaysNothing(self, s, info, msg);
    case AddAssetMsg(_, _) => CounterListPaysNothing(self, s, info, msg);
    case RemoveAssetsMsg(_, None, _) => TradeListPaysNothing(self, s, info, msg);
    case RemoveAssetsMsg(_, Some(_), _) => CounterListPaysNothing(self, s, info, msg);
    case SetCommentMsg(_, None, _) => TradeMsgPaysNothing(self, s, info, msg);
    case AddWhitelistedUsersMsg(_, _) => TradeMsgPaysNothing(self, s, info, msg);
    case RemoveWhitelistedUsersMsg(_, _) => TradeMsgPaysNothing(self, s, info, msg);
    case ConfirmTradeMsg(_) => TradeMsgPaysNothing(self, s, info, msg);
    case CancelTradeMsg(_) => TradeMsgPaysNothing(self, s, info, msg);
    case _ => CounterMsgPaysNothing(self, s, info, msg);
  }

  // ----- Over whole runs

  function Paid(outcome: Option<Response>, l: ListId): nat {
    if outcome.Some? && PaysList(outcome.value.event, l) then 1 else 0
  }

  /** How often a run paid out the list `l`. */
  function Payouts(trace: seq<Option<Response>>, l: ListId): nat {
    if trace == [] then 0 else Paid(trace[0], l) + Payouts(trace[1..], l)
  }

  ghost function Mark(s: Store, l: ListId): nat {
    if Withdrawn(s, l) then 1 else 0
  }

  /** Every list is paid at most once ever, and it has been exactly when it is marked
      withdrawn. */
  lemma {:induction false} PaidAtMostOnce(self: Addr, c: Chain, txs: seq<Tx>, l: ListId)
    requires Inv(c.store)
    ensures Payouts(Trace(Lazy, self, c, txs), l) + Mark(c.store, l) == Mark(Run(Lazy, self, c, txs).store, l)
    decreases |txs|
  {
    if txs != [] {
      var d := Exec(Lazy, self, c, txs[0]);
      var trace := Trace(Lazy, self, c, txs);
      assert trace[1..] == Trace(Lazy, self, d, txs[1..]);
      if Try(Lazy, self, c, txs[0]).Some? {
        StepPays(self, c.store, txs[0].info, txs[0].msg);
        StepInv(self, c.store, txs[0].info, txs[0].msg);
        assert Paid(trace[0], l) + Mark(c.store, l) == Mark(d.store, l);
      }
      PaidAtMostOnce(self, d, txs[1..], l);
    }
  }

  /** A payout as the final store shows it: the whole list, to the side it is due to. */
  ghost predicate PaidRight(self: Addr, s: Store, r: Response) {
    match r.event
    case NoPayout => true
    case TradePaid(t, to) => TradeDue(s, t, to) && r.messages == Sends(self, to, s.trades[t].assets)
    case CounterPaid(q, to) => CounterDue(s, q, to) && r.messages == Sends(self, to, s.counters[q].assets)
  }

  lemma {:induction false} PaidStaysRight(self: Addr, s: Store, s1: Store, r: Response)
    requires Moves(s, s1) && PaidRight(self, s, r)
    ensures PaidRight(self, s1, r)
  {
    match r.event
    case NoPayout =>
    case TradePaid(t, to) => assert TradeMoves(s.trades[t], s1.trades[t]);
    case CounterPaid(q, to) => assert CounterMoves(s.counters[q], ReadState(s, q), s1.counters[q], ReadState(s1, q));
  }

  lemma {:induction false} ExecInv(self: Addr, c: Chain, tx: Tx)
    requires Inv(c.store)
    ensures Inv(Exec(Lazy, self, c, tx).store)
  {
    if Try(Lazy, self, c, tx).Some? {
      StepInv(self, c.store, tx.info, tx.msg);
    }
  }

  lemma {:induction false} PayoutStaysRight(self: Addr, c: Chain, tx: Tx, r: Response, txs: seq<Tx>)
    requires Inv(c.store) && Try(Lazy, self, c, tx).Some? && Try(Lazy, self, c, tx).value.1 == r
    ensures PaidRight(self, Run(Lazy, self, Exec(Lazy, self, c, tx), txs).store, r)
  {
    var d := Exec(Lazy, self, c, tx);
    ExecInv(self, c, tx);
    StepPays(self, c.store, tx.info, tx.msg);
    RunMoves(self, d, txs);
    assert PaidRight(self, d.store, r);
    PaidStaysRight(self, d.store, Run(Lazy, self, d, txs).store, r);
  }

  /** Every whole-list payout of a run went to the owner of an aborted list, or across an
      accepted trade, and was all of the list. */
  lemma {:induction false} PayoutsRight(self: Addr, c: Chain, txs: seq<Tx>, i: nat, r: Response)
    requires Inv(c.store) && i < |Trace(Lazy, self, c, txs)| && Trace(Lazy, self, c, txs)[i] == Some(r)
    ensures PaidRight(self, Run(Lazy, self, c, txs).store, r)
    decreases |txs|
  {
    if i == 0 {
      PayoutStaysRight(self, c, txs[0], r, txs[1..]);
    } else {
      ExecInv(self, c, txs[0]);
      PayoutsRight(self, Exec(Lazy, self, c, txs[0]), txs[1..], i - 1, r);
    }
  }

  /** The two payouts an acceptance calls for, as the store stood when it was made. */
  ghost predicate AsAgreed(self: Addr, s: Store, q: CounterKey, r: Response)
    requires q in s.counters && q.0 in s.trades
  {
    && (PaysList(r.event, TradeList(q.0)) ==>
          r.event.to == s.counters[q].owner && r.messages == Sends(self, s.counters[q].owner, s.trades[q.0].assets))
    && (PaysList(r.event, CounterList(q)) ==>
          r.event.to == s.trades[q.0].owner && r.messages == Sends(self, s.trades[q.0].owner, s.counters[q].assets))
  }

  lemma {:induction false} JustAccepted(self: Addr, c: Chain, tx: Tx)
    requires tx.msg.AcceptTradeMsg? && Try(Lazy, self, c, tx).Some?
    ensures var d := Exec(Lazy, self, c, tx).store;
            var q := (tx.msg.tradeId, tx.msg.counterId);
            && q in c.store.counters && q.0 in c.store.trades && q in d.counters && q.0 in d.trades
            && d.trades[q.0] == c.store.trades[q.0].(state := Accepted, acceptedInfo := Some(q))
            && d.counters[q].owner == c.store.counters[q].owner && d.counters[q].assets == c.store.counters[q].assets
            && ReadState(d, q) == Accepted
  {
  }

  /** Settlement swaps what was agreed: whatever happens after a trade accepts a counter,
      a payout of either list is that list as it stood then, sent to the other side. */
  lemma {:induction false} SettlementSwapsWhatWasAgreed(self: Addr, c: Chain, tx: Tx, txs: seq<Tx>, i: nat, r: Response)
    requires Inv(c.store) && tx.msg.AcceptTradeMsg? && Try(Lazy, self, c, tx).Some?
    requires var trace := Trace(Lazy, self, Exec(Lazy, self, c, tx), txs); i < |trace| && trace[i] == Some(r)
    ensures (tx.msg.tradeId, tx.msg.counterId) in c.store.counters && tx.msg.tradeId in c.store.trades
    ensures AsAgreed(self, c.store, (tx.msg.tradeId, tx.msg.counterId), r)
  {
    var d := Exec(Lazy, self, c, tx);
    var q := (tx.msg.tradeId, tx.msg.counterId);
    ExecInv(self, c, tx);
    JustAccepted(self, c, tx);
    var last := Run(Lazy, self, d, txs).store;
    RunMoves(self, d, txs);
    assert TradeMoves(d.store.trades[q.0], last.trades[q.0]);
    assert CounterMoves(d.store.counters[q], ReadState(d.store, q), last.counters[q], ReadState(last, q));
    PayoutsRight(self, d, txs, i, r);
  }
}

/** The books: what a message adds to and takes from the lists not yet withdrawn, and what it
    orders to be moved. */
module P2PBooks {
  import opened Base
  import opened Ledger
  import opened P2PTypes
  import opened P2PAssets
  import opened P2PSpec
  import opened P2PInvariant
  import opened P2PRemoval

  function Weight(info: TradeInfo, k: Key): nat {
    if info.assetsWithdrawn then 0 else Total(info.assets, k)
  }

  function Weights<K>(m: map<K, TradeInfo>, k: Key): map<K, nat> {
    map x | x in m :: Weight(m[x], k)
  }

  /** The total of `k` over all lists not yet withdrawn. */
  ghost function Recorded(s: Store, k: Key): nat {
    MapSum(Weights(s.trades, k)) + MapSum(Weights(s.counters, k))
  }

  lemma {:induction false} WeightsUpdate<K(!new)>(m: map<K, TradeInfo>, x: K, info: TradeInfo, k: Key)
    ensures MapSum(Weights(m[x := info], k)) + (if x in m then Weight(m[x], k) else 0)
         == MapSum(Weights(m, k)) + Weight(info, k)
  {
    assert Weights(m[x := info], k) == Weights(m, k)[x := Weight(info, k)];
    MapSumUpdate(Weights(m, k), x, Weight(info, k));
  }

  lemma {:induction false} PutTradeRecorded(s: Store, t: nat, info: TradeInfo, k: Key)
    ensures Recorded(PutTrade(s, t, info), k) + (if t in s.trades then Weight(s.trades[t], k) else 0)
         == Recorded(s, k) + Weight(info, k)
  {
    WeightsUpdate(s.trades, t, info, k);
  }

  lemma {:induction false} PutCounterRecorded(s: Store, t: nat, c: nat, info: TradeInfo, k: Key)
    ensures Recorded(PutCounter(s, t, c, info), k) + (if (t, c) in s.counters then Weight(s.counters[(t, c)], k) else 0)
         == Recorded(s, k) + Weight(info, k)
  {
    WeightsUpdate(s.counters, (t, c), info, k);
  }

  // ----- The books of one message

  /** Coins sent along with a message that does not announce them. */
  function Stray(info: Info, msg: ExecuteMsg, k: Key): nat {
    if msg.AddAssetMsg? && msg.asset.Native? then 0 else Total(Natives(info.funds), k)
  }

  /** The list a removal works on. */
  function RemovalList(s: Store, msg: ExecuteMsg): seq<Asset>
    requires msg.RemoveAssetsMsg?
  {
    match msg.ofCounter
    case None => if msg.tradeId in s.trades then s.trades[msg.tradeId].assets else []
    case Some(c) => if (msg.tradeId, c) in s.counters then s.counters[(msg.tradeId, c)].assets else []
  }

  /** What a removal sends out beyond what it takes off its list. */
  function Leak(s: Store, msg: ExecuteMsg, k: Key): nat {
    if !msg.RemoveAssetsMsg? then 0
    else
      var assets := RemovalList(s, msg);
      if CheckRequests(assets, msg.assets).Err? then 0
      else
        CheckedInRange(assets, msg.assets);
        Excess(assets, msg.assets, k)
  }

  /** What a message adds to and takes from the books, in full: recorded after + sent
      + stray = recorded before + received + leaked. */
  ghost predicate Books(self: Addr, s: Store, info: Info, msg: ExecuteMsg, k: Key)
    requires Step(Lazy, self, s, info, msg).Ok?
  {
    var (s1, r) := Step(Lazy, self, s, info, msg).value;
    Recorded(s1, k) + Outgoing(self, r.messages, k) + Stray(info, msg, k)
    == Recorded(s, k) + Total(Natives(info.funds), k) + Incoming(self, r.messages, k) + Leak(s, msg, k)
  }

  /** Every list lives at real contracts, and nobody's record is the contract's own. */
  ghost predicate RecordsOk(self: Addr, s: Store) {
    && (forall t :: t in s.trades ==> Proper(s.trades[t].assets) && s.trades[t].owner != self)
    && (forall q :: q in s.counters ==> Proper(s.counters[q].assets) && s.counters[q].owner != self)
  }

  /** A deposit, on whichever record. */
  lemma {:induction false} AddedWeight(info: TradeInfo, a: Asset, funds: seq<Coin>, k: Key)
    requires Added(info, a, funds).Ok? && !info.assetsWithdrawn
    ensures Weight(Added(info, a, funds).value, k) == Weight(info, k) + a.Of(k)
    ensures a.Native? ==> Total(Natives(funds), k) == a.Of(k)
  {
    DepositTotal(info.assets, a, k);
    if a.Native? {
      NativesOne(a.coin, k);
    }
  }

  lemma {:induction false} AddToTradeBooks(self: Addr, s: Store, info: Info, id: Option<nat>, a: Asset, k: Key)
    requires Inv(s) && AddToTrade(self, s, info, id, a).Ok? && info.sender != self
    ensures var (s1, r) := AddToTrade(self, s, info, id, a).value;
            Recorded(s1, k) + Outgoing(self, r.messages, k)
            == Recorded(s, k) + (if a.Native? then Total(Natives(info.funds), k) else 0) + Incoming(self, r.messages, k)
  {
    var t := TradeIdOrLast(s, info.sender, id).value;
    assert TradeShape(s.trades[t]);
    AddedWeight(s.trades[t], a, info.funds, k);
    PutTradeRecorded(s, t, Added(s.trades[t], a, info.funds).value, k);
  }

  lemma {:induction false} AddToCounterBooks(self: Addr, s: Store, info: Info, t: nat, id: Option<nat>, a: Asset, k: Key)
    requires Inv(s) && AddToCounter(Lazy, self, s, info, t, id, a).Ok? && info.sender != self
    ensures var (s1, r) := AddToCounter(Lazy, self, s, info, t, id, a).value;
            Recorded(s1, k) + Outgoing(self, r.messages, k)
            == Recorded(s, k) + (if a.Native? then Total(Natives(info.funds), k) else 0) + Incoming(self, r.messages, k)
  {
    var c := CounterIdOrLast(s, info.sender, t, id).value;
    LoadedCounter(s, t, c);
    var counter := LoadCounter(Lazy, s, t, c).value;
    AddedWeight(counter, a, info.funds, k);
    PutCounterRecorded(s, t, c, Added(counter, a, info.funds).value, k);
  }

  /** A removal, on whichever record. */
  lemma {:induction false} RemovedWeight(info: TradeInfo, rs: seq<Request>, tooLate: Error, k: Key)
    requires Removed(info, rs, tooLate).Ok? && !info.assetsWithdrawn && Proper(info.assets)
    ensures InRange(info.assets, rs)
    ensures Weight(info, k) + Excess(info.assets, rs, k)
         == Weight(Removed(info, rs, tooLate).value, k) + Total(Requested(rs), k)
  {
    CheckedFits(info.assets, rs);
    CheckedInRange(info.assets, rs);
    LiveProper(info.assets, k);
    TakeAllTotals(info.assets, rs, k);
  }

  lemma {:induction false} RemoveFromTradeBooks(self: Addr, s: Store, sender: Addr, t: nat, rs: seq<Request>, k: Key)
    requires Inv(s) && RecordsOk(self, s) && RemoveFromTrade(self, s, sender, t, rs).Ok?
    ensures var (s1, r) := RemoveFromTrade(self, s, sender, t, rs).value;
            InRange(s.trades[t].assets, rs) &&
            Recorded(s1, k) + Outgoing(self, r.messages, k)
            == Recorded(s, k) + Incoming(self, r.messages, k) + Excess(s.trades[t].assets, rs, k)
  {
    assert TradeShape(s.trades[t]);
    RemovedWeight(s.trades[t], rs, TradeAlreadyPublished, k);
    PutTradeRecorded(s, t, Removed(s.trades[t], rs, TradeAlreadyPublished).value, k);
    SendsOutgoing(self, sender, Requested(rs), k);
  }

  lemma {:induction false} RemoveFromCounterBooks(self: Addr, s: Store, sender: Addr, t: nat, c: nat, rs: seq<Request>, k: Key)
    requires Inv(s) && RecordsOk(self, s) && RemoveFromCounter(Lazy, self, s, sender, t, c, rs).Ok?
    ensures var (s1, r) := RemoveFromCounter(Lazy, self, s, sender, t, c, rs).value;
            InRange(s.counters[(t, c)].assets, rs) &&
            Recorded(s1, k) + Outgoing(self, r.messages, k)
            == Recorded(s, k) + Incoming(self, r.messages, k) + Excess(s.counters[(t, c)].assets, rs, k)
  {
    LoadedCounter(s, t, c);
    var counter := LoadCounter(Lazy, s, t, c).value;
    RemovedWeight(counter, rs, CounterTradeAlreadyPublished, k);
    PutCounterRecorded(s, t, c, Removed(counter, rs, CounterTradeAlreadyPublished).value, k);
    SendsOutgoing(self, sender, Requested(rs), k);
  }

  /** Paying a whole list moves it off the books. */
  lemma {:induction false} WithdrawAllFromTradeBooks(self: Addr, s: Store, sender: Addr, t: nat, k: Key)
    requires RecordsOk(self, s) && WithdrawAllFromTrade(self, s, sender, t).Ok?
    ensures var (s1, r) := WithdrawAllFromTrade(self, s, sender, t).value;
            Recorded(s1, k) + Outgoing(self, r.messages, k) == Recorded(s, k) + Incoming(self, r.messages, k)
  {
    PutTradeRecorded(s, t, EmptiedTrade(s.trades[t]).value, k);
    SendsOutgoing(self, sender, s.trades[t].assets, k);
  }

  lemma {:induction false} WithdrawAllFromCounterBooks(self: Addr, s: Store, sender: Addr, t: nat, c: nat, k: Key)
    requires RecordsOk(self, s) && WithdrawAllFromCounter(Lazy, self, s, sender, t, c).Ok?
    ensures var (s1, r) := WithdrawAllFromCounter(Lazy, self, s, sender, t, c).value;
            Recorded(s1, k) + Outgoing(self, r.messages, k) == Recorded(s, k) + Incoming(self, r.messages, k)
  {
    var counter := LoadCounter(Lazy, s, t, c).value;
    PutCounterRecorded(s, t, c, EmptiedCounter(counter).value, k);
    SendsOutgoing(self, sender, counter.assets, k);
  }

  lemma {:induction false} WithdrawAcceptedBooks(self: Addr, s: Store, sender: Addr, trader: Addr, t: nat, k: Key)
    requires RecordsOk(self, s) && WithdrawAcceptedFunds(Lazy, self, s, sender, trader, t).Ok?
    ensures var (s1, r) := WithdrawAcceptedFunds(Lazy, self, s, sender, trader, t).value;
            Recorded(s1, k) + Outgoing(self, r.messages, k) == Recorded(s, k) + Incoming(self, r.messages, k)
  {
    var trade := s.trades[t];
    var c := trade.acceptedInfo.value.1;
    var counter := LoadCounter(Lazy, s, t, c).value;
    if trade.owner == trader {
      PutCounterRecorded(s, t, c, Settled(counter).value, k);
      SendsOutgoing(self, trader, counter.assets, k);
    } else {
      PutTradeRecorded(s, t, Settled(trade).value, k);
      SendsOutgoing(self, trader, trade.assets, k);
    }
  }

  // ----- Messages that move nothing

  lemma {:induction false} QuietTrade(s: Store, s1: Store, t: nat, k: Key)
    requires s1.counters == s.counters && t in s1.trades && s1.trades == s.trades[t := s1.trades[t]]
    requires Weight(s1.trades[t], k) == if t in s.trades then Weight(s.trades[t], k) else 0
    ensures Recorded(s1, k) == Recorded(s, k)
  {
    PutTradeRecorded(s, t, s1.trades[t], k);
  }

  lemma {:induction false} QuietCounter(s: Store, s1: Store, q: CounterKey, k: Key)
    requires s1.trades == s.trades && q in s1.counters && s1.counters == s.counters[q := s1.counters[q]]
    requires Weight(s1.counters[q], k) == if q in s.counters then Weight(s.counters[q], k) else 0
    ensures Recorded(s1, k) == Recorded(s, k)
  {
    PutCounterRecorded(s, q.0, q.1, s1.counters[q], k);
  }

  predicate MovesNothing(msg: ExecuteMsg) {
    !msg.AddAssetMsg? && !msg.RemoveAssetsMsg? && !msg.WithdrawPendingAssetsMsg?
    && !msg.WithdrawAllFromTradeMsg? && !msg.WithdrawAllFromCounterMsg?
  }

  lemma {:induction false} CreateTradeQuiet(s: Store, sender: Addr, whitelist: Option<seq<Addr>>, comment: Option<string>, k: Key)
    requires Inv(s)
    ensures CreateTrade(Lazy, s, sender, whitelist, comment).Ok?
    ensures Recorded(CreateTrade(Lazy, s, sender, whitelist, comment).value.0, k) == Recorded(s, k)
    ensures CreateTrade(Lazy, s, sender, whitelist, comment).value.1 == Silent()
  {
    FreshTrade(s);
    CreatedTrade(Lazy, s, sender, whitelist, comment);
    QuietTrade(s, CreateTrade(Lazy, s, sender, whitelist, comment).value.0, NextId(s.lastTradeId), k);
  }

  lemma {:induction false} SuggestQuiet(s: Store, sender: Addr, t: nat, comment: Option<string>, k: Key)
    requires Inv(s) && CanSuggest(s, t, sender).Ok?
    ensures SuggestCounterTrade(Lazy, s, sender, t, comment).Ok?
    ensures Recorded(SuggestCounterTrade(Lazy, s, sender, t, comment).value.0, k) == Recorded(s, k)
    ensures SuggestCounterTrade(Lazy, s, sender, t, comment).value.1 == Silent()
  {
    FreshCounter(s, t);
    Suggested(Lazy, s, sender, t, comment);
    var s0 := PutTrade(s, t, CounteredTrade(s.trades[t]));
    QuietTrade(s, s0, t, k);
    QuietCounter(s0, SuggestCounterTrade(Lazy, s, sender, t, comment).value.0, (t, NextId(s.trades[t].lastCounterId)), k);
  }

  lemma {:induction false} AcceptQuiet(s: Store, sender: Addr, t: nat, c: nat, comment: Option<string>, k: Key)
    requires AcceptTrade(Lazy, s, sender, t, c, comment).Ok?
    ensures Recorded(AcceptTrade(Lazy, s, sender, t, c, comment).value.0, k) == Recorded(s, k)
  {
    var s0 := PutTrade(s, t, s.trades[t].(state := Accepted, acceptedInfo := Some((t, c))));
    QuietTrade(s, s0, t, k);
    QuietCounter(s0, AcceptTrade(Lazy, s, sender, t, c, comment).value.0, (t, c), k);
  }

  lemma {:induction false} MarkTradeQuiet(self: Addr, s: Store, info: Info, msg: ExecuteMsg, k: Key)
    requires Step(Lazy, self, s, info, msg).Ok?
    requires msg.AddWhitelistedUsersMsg? || msg.RemoveWhitelistedUsersMsg? || msg.ConfirmTradeMsg?
             || msg.CancelTradeMsg? || (msg.SetCommentMsg? && msg.ofCounter.None?)
    ensures Recorded(Step(Lazy, self, s, info, msg).value.0, k) == Recorded(s, k)
    ensures Step(Lazy, self, s, info, msg).value.1 == Silent()
  {
    var t := if msg.ConfirmTradeMsg? then TradeIdOrLast(s, info.sender, msg.lastOrId).value else msg.tradeId;
    QuietTrade(s, Step(Lazy, self, s, info, msg).value.0, t, k);
  }

  lemma {:induction false} MarkCounterQuiet(self: Addr, s: Store, info: Info, msg: ExecuteMsg, k: Key)
    requires Step(Lazy, self, s, info, msg).Ok?
    requires msg.ConfirmCounterTradeMsg? || msg.CancelCounterTradeMsg? || msg.RefuseCounterTradeMsg?
             || msg.ReviewCounterTradeMsg? || (msg.SetCommentMsg? && msg.ofCounter.Some?)
    ensures Recorded(Step(Lazy, self, s, info, msg).value.0, k) == Recorded(s, k)
    ensures Step(Lazy, self, s, info, msg).value.1 == Silent()
  {
    var c := if msg.ConfirmCounterTradeMsg? then CounterIdOrLast(s, info.sender, msg.tradeId, msg.ofCounter).value
             else if msg.SetCommentMsg? then msg.ofCounter.value
             else msg.counterId;
    QuietCounter(s, Step(Lazy, self, s, info, msg).value.0, (msg.tradeId, c), k);
  }

  lemma {:induction false} QuietBooks(self: Addr, s: Store, info: Info, msg: ExecuteMsg, k: Key)
    requires Inv(s) && Step(Lazy, self, s, info, msg).Ok? && MovesNothing(msg)
    ensures Recorded(Step(Lazy, self, s, info, msg).value.0, k) == Recorded(s, k)
    ensures Step(Lazy, self, s, info, msg).value.1 == Silent()
  {
    match msg
    case CreateTradeMsg(whitelist, comment) => CreateTradeQuiet(s, info.sender, whitelist, comment, k);
    case SuggestCounterTradeMsg(t, comment) => SuggestQuiet(s, info.sender, t, comment, k);
    case AcceptTradeMsg(t, c, comment) => AcceptQuiet(s, info.sender, t, c, comment, k);
    case AddWhitelistedUsersMsg(_, _) => MarkTradeQuiet(self, s, info, msg, k);
    case RemoveWhitelistedUsersMsg(_, _) => MarkTradeQuiet(self, s, info, msg, k);
    case ConfirmTradeMsg(_) => MarkTradeQuiet(self, s, info, msg, k);
    case CancelTradeMsg(_) => MarkTradeQuiet(self, s, info, msg, k);
    case SetCommentMsg(_, None, _) => MarkTradeQuiet(self, s, info, msg, k);
    case SetCommentMsg(_, Some(_), _) => MarkCounterQuiet(self, s, info, msg, k);
    case SetNewOwnerMsg(_) =>
    case SetNewFeeContractMsg(_) =>
    case _ => MarkCounterQuiet(self, s, info, msg, k);
  }

  lemma {:induction false} DepositBooks(self: Addr, s: Store, info: Info, msg: ExecuteMsg, k: Key)
    requires Inv(s) && info.sender != self && Step(Lazy, self, s, info, msg).Ok? && msg.AddAssetMsg?
    ensures Books(self, s, info, msg, k)
  {
    match msg.action
    case ToLastTrade => AddToTradeBooks(self, s, info, None, msg.asset, k);
    case ToTrade(t) => AddToTradeBooks(self, s, info, Some(t), msg.asset, k);
    case ToLastCounterTrade(t) => AddToCounterBooks(self, s, info, t, None, msg.asset, k);
    case ToCounterTrade(t, c) => AddToCounterBooks(self, s, info, t, Some(c), msg.asset, k);
  }

  lemma {:induction false} TradeRemovalBooks(self: Addr, s: Store, info: Info, t: nat, rs: seq<Request>, k: Key)
    requires Inv(s) && RecordsOk(self, s) && RemoveFromTrade(self, s, info.sender, t, rs).Ok?
    ensures Books(self, s, info, RemoveAssetsMsg(t, None, rs), k)
  {
    RemoveFromTradeBooks(self, s, info.sender, t, rs, k);
  }

  lemma {:induction false} CounterRemovalBooks(self: Addr, s: Store, info: Info, t: nat, c: nat, rs: seq<Request>, k: Key)
    requires Inv(s) && RecordsOk(self, s) && RemoveFromCounter(Lazy, self, s, info.sender, t, c, rs).Ok?
    ensures Books(self, s, info, RemoveAssetsMsg(t, Some(c), rs), k)
  {
    RemoveFromCounterBooks(self, s, info.sender, t, c, rs, k);
  }

  lemma {:induction false} RemovalBooks(self: Addr, s: Store, info: Info, msg: ExecuteMsg, k: Key)
    requires Inv(s) && RecordsOk(self, s) && Step(Lazy, self, s, info, msg).Ok? && msg.RemoveAssetsMsg?
    ensures Books(self, s, info, msg, k)
  {
    if msg.ofCounter.None? {
      TradeRemovalBooks(self, s, info, msg.tradeId, msg.assets, k);
    } else {
      CounterRemovalBooks(self, s, info, msg.tradeId, msg.ofCounter.value, msg.assets, k);
    }
  }

  lemma {:induction false} PayoutBooks(self: Addr, s: Store, info: Info, msg: ExecuteMsg, k: Key)
    requires RecordsOk(self, s) && Step(Lazy, self, s, info, msg).Ok?
    requires msg.WithdrawAllFromTradeMsg? || msg.WithdrawAllFromCounterMsg? || msg.WithdrawPendingAssetsMsg?
    ensures Books(self, s, info, msg, k)
  {
    match msg
    case WithdrawAllFromTradeMsg(t) => WithdrawAllFromTradeBooks(self, s, info.sender, t, k);
    case WithdrawAllFromCounterMsg(t, c) => WithdrawAllFromCounterBooks(self, s, info.sender, t, c, k);
    case WithdrawPendingAssetsMsg(trader, t) => WithdrawAcceptedBooks(self, s, info.sender, trader, t, k);
  }

  /** The full account of every message. */
  lemma {:induction false} StepBooks(self: Addr, s: Store, info: Info, msg: ExecuteMsg, k: Key)
    requires Inv(s) && RecordsOk(self, s) && info.sender != self
    requires Step(Lazy, self, s, info, msg).Ok?
    ensures Books(self, s, info, msg, k)
  {
    if msg.AddAssetMsg? {
      DepositBooks(self, s, info, msg, k);
    } else if msg.RemoveAssetsMsg? {
      RemovalBooks(self, s, info, msg, k);
    } else if MovesNothing(msg) {
      QuietBooks(self, s, info, msg, k);
    } else {
      PayoutBooks(self, s, info, msg, k);
    }
  }

  // ----- When the books balance

  predicate NoStray(info: Info, msg: ExecuteMsg) {
    (msg.AddAssetMsg? && msg.asset.Native?) || NoCoins(info.funds)
  }

  /** Coins come only with a deposit that announces them; a removal names a coin where a
      coin is stored, and no NFT position twice. */
  predicate Orderly(s: Store, info: Info, msg: ExecuteMsg) {
    NoStray(info, msg)
    && (msg.RemoveAssetsMsg? ==>
          KindsAgree(RemovalList(s, msg), msg.assets) && NftsOnce(RemovalList(s, msg), msg.assets))
  }

  /** Recorded after + sent == recorded before + received. */
  ghost predicate BalancedAt(self: Addr, s: Store, info: Info, msg: ExecuteMsg, k: Key)
    requires Step(Lazy, self, s, info, msg).Ok?
  {
    var (s1, r) := Step(Lazy, self, s, info, msg).value;
    Recorded(s1, k) + Outgoing(self, r.messages, k)
    == Recorded(s, k) + Total(Natives(info.funds), k) + Incoming(self, r.messages, k)
  }

  ghost predicate BooksBalance(self: Addr, s: Store, info: Info, msg: ExecuteMsg)
    requires Step(Lazy, self, s, info, msg).Ok?
  {
    forall k :: BalancedAt(self, s, info, msg, k)
  }

  lemma {:induction false} LeakNeverNative(assets: seq<Asset>, rs: seq<Request>, k: Key)
    requires AllFit(assets, rs) && InRange(assets, rs) && k.NativeKey?
    ensures Excess(assets, rs, k) == 0
    decreases |rs|
  {
    if rs != [] {
      assert Fits(assets, rs[0]);
      if TakeOne(assets, rs[0]).Ok? {
        FitsStep(assets, rs);
        LeakNeverNative(TakeOne(assets, rs[0]).value, rs[1..], k);
      }
    }
  }

  lemma {:induction false} RemovalSucceeded(self: Addr, s: Store, info: Info, msg: ExecuteMsg)
    requires Step(Lazy, self, s, info, msg).Ok? && msg.RemoveAssetsMsg?
    ensures Removal(RemovalList(s, msg), msg.assets).Ok?
    ensures RecordsOk(self, s) ==> Proper(RemovalList(s, msg))
  {
  }

  /** A leak is absent, asset by asset, exactly when the removal is orderly. */
  lemma {:induction false} LeakIff(self: Addr, s: Store, info: Info, msg: ExecuteMsg)
    requires RecordsOk(self, s) && Step(Lazy, self, s, info, msg).Ok? && msg.RemoveAssetsMsg?
    ensures (forall k :: Leak(s, msg, k) == 0)
            <==> KindsAgree(RemovalList(s, msg), msg.assets) && NftsOnce(RemovalList(s, msg), msg.assets)
    ensures forall k: Key :: k.NativeKey? ==> Leak(s, msg, k) == 0
  {
    RemovalSucceeded(self, s, info, msg);
    var assets := RemovalList(s, msg);
    CheckedFits(assets, msg.assets);
    CheckedInRange(assets, msg.assets);
    ExcessZero(assets, msg.assets);
    assert Unmarked(assets, msg.assets);
    assert forall k :: Leak(s, msg, k) == Excess(assets, msg.assets, k);
    forall k: Key | k.NativeKey? ensures Leak(s, msg, k) == 0 {
      LeakNeverNative(assets, msg.assets, k);
    }
    if forall k :: Leak(s, msg, k) == 0 {
      forall k ensures Excess(assets, msg.assets, k) == 0 {
        assert Leak(s, msg, k) == 0;
      }
    }
  }

  lemma {:induction false} StrayIff(info: Info, msg: ExecuteMsg)
    ensures (forall k: Key :: k.NativeKey? ==> Stray(info, msg, k) == 0) <==> NoStray(info, msg)
    ensures forall k: Key :: !k.NativeKey? ==> Stray(info, msg, k) == 0
  {
    forall k: Key ensures !k.NativeKey? ==> Stray(info, msg, k) == 0 {
      StrayOnlyNative(info.funds, k);
    }
    if NoStray(info, msg) {
      forall k ensures Stray(info, msg, k) == 0 {
        StrayOnlyNative(info.funds, k);
      }
    }
    if forall k: Key :: k.NativeKey? ==> Stray(info, msg, k) == 0 {
      forall i | 0 <= i < |info.funds| && !(msg.AddAssetMsg? && msg.asset.Native?)
        ensures info.funds[i].amount == 0
      {
        TotalMember(Natives(info.funds), i);
        assert Stray(info, msg, NativeKey(info.funds[i].denom)) == 0;
      }
    }
  }

  lemma {:induction false} BalanceIsNoDifference(self: Addr, s: Store, info: Info, msg: ExecuteMsg)
    requires Inv(s) && RecordsOk(self, s) && info.sender != self
    requires Step(Lazy, self, s, info, msg).Ok?
    ensures BooksBalance(self, s, info, msg) <==> forall k :: Stray(info, msg, k) == Leak(s, msg, k)
  {
    forall k
      ensures BalancedAt(self, s, info, msg, k) <==> Stray(info, msg, k) == Leak(s, msg, k)
    {
      StepBooks(self, s, info, msg, k);
    }
    if forall k :: Stray(info, msg, k) == Leak(s, msg, k) {
      forall k ensures BalancedAt(self, s, info, msg, k) {
        assert Stray(info, msg, k) == Leak(s, msg, k);
      }
    }
    if BooksBalance(self, s, info, msg) {
      forall k ensures Stray(info, msg, k) == Leak(s, msg, k) {
        assert BalancedAt(self, s, info, msg, k);
      }
    }
  }

  /** The books balance for every asset if and only if the message is orderly. */
  lemma {:induction false} BooksBalanceIffOrderly(self: Addr, s: Store, info: Info, msg: ExecuteMsg)
    requires Inv(s) && RecordsOk(self, s) && info.sender != self
    requires Step(Lazy, self, s, info, msg).Ok?
    ensures BooksBalance(self, s, info, msg) <==> Orderly(s, info, msg)
  {
    BalanceIsNoDifference(self, s, info, msg);
    StrayIff(info, msg);
    if msg.RemoveAssetsMsg? {
      LeakIff(self, s, info, msg);
    }
    if forall k :: Stray(info, msg, k) == Leak(s, msg, k) {
      forall k ensures Stray(info, msg, k) == 0 && Leak(s, msg, k) == 0 {
        assert Stray(info, msg, k) == Leak(s, msg, k);
      }
    }
    if Orderly(s, info, msg) {
      forall k ensures Stray(info, msg, k) == Leak(s, msg, k) {
        assert Stray(info, msg, k) == 0;
      }
    }
  }
}

/** No stuck assets: whoever is owed a list can always have it, in at most two messages. */
module P2PNoStuck {
  import opened Base
  import opened Ledger
  import opened P2PTypes
  import opened P2PSpec
  import opened P2PInvariant
  import opened P2PBooks
  import opened P2PCustody
  import opened P2PSettlement

  // ----- Where the promise holds

  /** Each accepted counter belongs to somebody other than the trade's owner. */
  ghost predicate PartiesDiffer(s: Store) {
    forall t :: t in s.trades && s.trades[t].acceptedInfo.Some? && s.trades[t].acceptedInfo.value in s.counters ==>
      s.counters[s.trades[t].acceptedInfo.value].owner != s.trades[t].owner
  }

  ghost predicate Ready(self: Addr, c: Chain) {
    && ChainInv(self, c)
    && c.store.feeContract.Some? && c.store.feeContract.value != self
    && PartiesDiffer(c.store)
  }

  predicate IsList(s: Store, l: ListId) {
    match l
    case TradeList(t) => t in s.trades
    case CounterList(q) => q in s.counters
  }

  function ListOf(s: Store, l: ListId): TradeInfo
    requires IsList(s, l)
  {
    match l
    case TradeList(t) => s.trades[t]
    case CounterList(q) => s.counters[q]
  }

  function Plain(sender: Addr, msg: ExecuteMsg): Tx {
    Tx(Info(sender, []), false, msg)
  }

  /** The messages that bring the list `l` to the side it is due to. */
  ghost function Rescue(s: Store, l: ListId): (txs: seq<Tx>)
    requires Inv(s) && IsList(s, l) && s.feeContract.Some?
    ensures 1 <= |txs| <= 2
  {
    match l
    case TradeList(t) => RescueTrade(s, t)
    case CounterList(q) => RescueCounter(s, q)
  }

  ghost function RescueTrade(s: Store, t: nat): (txs: seq<Tx>)
    requires Inv(s) && t in s.trades && s.feeContract.Some?
    ensures 1 <= |txs| <= 2
  {
    var trade := s.trades[t];
    assert TradeShape(trade);
    if trade.state == Accepted then
      [Plain(s.feeContract.value, WithdrawPendingAssetsMsg(s.counters[trade.acceptedInfo.value].owner, t))]
    else if trade.state == Created || trade.state == Cancelled then
      [Plain(trade.owner, WithdrawAllFromTradeMsg(t))]
    else
      [Plain(trade.owner, CancelTradeMsg(t)), Plain(trade.owner, WithdrawAllFromTradeMsg(t))]
  }

  ghost function RescueCounter(s: Store, q: CounterKey): (txs: seq<Tx>)
    requires Inv(s) && q in s.counters && s.feeContract.Some?
    ensures 1 <= |txs| <= 2
  {
    InvAnchored(s);
    var counter := s.counters[q];
    var state := ReadState(s, q);
    if state == Accepted then
      [Plain(s.feeContract.value, WithdrawPendingAssetsMsg(s.trades[q.0].owner, q.0))]
    else if state == Created || Aborted(state) then
      [Plain(counter.owner, WithdrawAllFromCounterMsg(q.0, q.1))]
    else
      [Plain(counter.owner, CancelCounterTradeMsg(q.0, q.1)), Plain(counter.owner, WithdrawAllFromCounterMsg(q.0, q.1))]
  }

  // ----- Each message of a rescue goes through

  predicate RescueMsg(msg: ExecuteMsg) {
    msg.CancelTradeMsg? || msg.CancelCounterTradeMsg? || PayoutMsg(msg)
  }

  /** A payout stays within what the contract holds. */
  lemma {:induction false} PayoutCovered(self: Addr, c: Chain, l: ListId, to: Addr)
    requires ChainInv(self, c) && IsList(c.store, l) && !Withdrawn(c.store, l) && to != self
    ensures c.wallets.MoveAll(self, false, Sends(self, to, ListOf(c.store, l).assets)).Some?
  {
    var assets := ListOf(c.store, l).assets;
    forall k ensures Outgoing(self, Sends(self, to, assets), k) <= c.wallets.Held(self, k) {
      SendsOutgoing(self, to, assets, k);
      assert c.wallets.Held(self, k) == Recorded(c.store, k);
      match l
      case TradeList(t) => MapSumBounds(Weights(c.store.trades, k), t);
      case CounterList(q) => MapSumBounds(Weights(c.store.counters, k), q);
    }
    PushSucceeds(c.wallets, self, false, Sends(self, to, assets));
  }

  /** The recipient of a payout is somebody's record's owner. */
  lemma {:induction false} PayeeOutside(self: Addr, s: Store, info: Info, msg: ExecuteMsg)
    requires Inv(s) && RecordsOk(self, s) && info.sender != self && PayoutMsg(msg) && Step(Lazy, self, s, info, msg).Ok?
    ensures var e := Step(Lazy, self, s, info, msg).value.1.event;
            match e case NoPayout => false case TradePaid(_, to) => to != self case CounterPaid(_, to) => to != self
  {
    if msg.WithdrawPendingAssetsMsg? {
      LoadedCounter(s, msg.tradeId, s.trades[msg.tradeId].acceptedInfo.value.1);
    }
  }

  lemma {:induction false} PayoutGoes(self: Addr, c: Chain, sender: Addr, msg: ExecuteMsg, s1: Store, r: Response)
    requires ChainInv(self, c) && sender != self && PayoutMsg(msg)
    requires Step(Lazy, self, c.store, Info(sender, []), msg) == Ok((s1, r))
    ensures c.wallets.MoveAll(self, false, r.messages).Some?
  {
    StepPays(self, c.store, Info(sender, []), msg);
    PayeeOutside(self, c.store, Info(sender, []), msg);
    var l := if r.event.TradePaid? then TradeList(r.event.tradeId) else CounterList(r.event.counter);
    assert PaysList(r.event, l);
    PayoutCovered(self, c, l, r.event.to);
  }

  lemma {:induction false} CancelSendsNothing(self: Addr, s: Store, sender: Addr, msg: ExecuteMsg, s1: Store, r: Response)
    requires (msg.CancelTradeMsg? || msg.CancelCounterTradeMsg?) && Step(Lazy, self, s, Info(sender, []), msg) == Ok((s1, r))
    ensures r.messages == []
  {
  }

  lemma {:induction false} PlainTry(self: Addr, c: Chain, sender: Addr, msg: ExecuteMsg, s1: Store, r: Response)
    requires Step(Lazy, self, c.store, Info(sender, []), msg) == Ok((s1, r)) && c.wallets.MoveAll(self, false, r.messages).Some?
    ensures Try(Lazy, self, c, Plain(sender, msg)) == Some((Chain(s1, c.wallets.MoveAll(self, false, r.messages).value), r))
  {
    assert Fund(sender, self, []) == [];
  }

  /** In custody, a rescue message the contract accepts is carried out by the chain. */
  lemma {:induction false} RescueGoesThrough(self: Addr, c: Chain, sender: Addr, msg: ExecuteMsg, s1: Store, r: Response)
    requires ChainInv(self, c) && sender != self && RescueMsg(msg)
    requires Step(Lazy, self, c.store, Info(sender, []), msg) == Ok((s1, r))
    ensures Try(Lazy, self, c, Plain(sender, msg)).Some?
    ensures Exec(Lazy, self, c, Plain(sender, msg)).store == s1
    ensures ChainInv(self, Exec(Lazy, self, c, Plain(sender, msg)))
  {
    if PayoutMsg(msg) {
      PayoutGoes(self, c, sender, msg, s1, r);
    } else {
      CancelSendsNothing(self, c.store, sender, msg, s1, r);
    }
    PlainTry(self, c, sender, msg, s1, r);
    assert OrderlyTx(self, c, Plain(sender, msg));
    CustodyStep(self, c, Plain(sender, msg));
  }

  // ----- One list

  /** What a rescue leaves alone: the lists there are, who owns them, who settles. */
  ghost predicate SameParties(s: Store, s1: Store) {
    && s1.trades.Keys == s.trades.Keys && s1.counters.Keys == s.counters.Keys
    && s1.feeContract == s.feeContract
    && (forall t :: t in s.trades ==> SameParty(s.trades[t], s1.trades[t]))
    && (forall q :: q in s.counters ==> SameParty(s.counters[q], s1.counters[q]))
  }

  ghost predicate SameParty(a: TradeInfo, b: TradeInfo) {
    b.owner == a.owner && b.acceptedInfo == a.acceptedInfo && (a.assetsWithdrawn ==> b.assetsWithdrawn)
  }

  lemma {:induction false} PutTradeParties(s: Store, s1: Store, t: nat)
    requires t in s.trades && t in s1.trades && SameParty(s.trades[t], s1.trades[t])
    requires s1 == PutTrade(s, t, s1.trades[t])
    ensures SameParties(s, s1)
  {
  }

  lemma {:induction false} PutCounterParties(s: Store, s1: Store, q: CounterKey)
    requires q in s.counters && q in s1.counters && SameParty(s.counters[q], s1.counters[q])
    requires s1 == PutCounter(s, q.0, q.1, s1.counters[q])
    ensures SameParties(s, s1)
  {
  }

  lemma {:induction false} SettlingKeepsParties(self: Addr, s: Store, sender: Addr, trader: Addr, t: nat, s1: Store, r: Response)
    requires Inv(s) && WithdrawAcceptedFunds(Lazy, self, s, sender, trader, t) == Ok((s1, r))
    ensures SameParties(s, s1)
  {
    var c := s.trades[t].acceptedInfo.value.1;
    LoadedCounter(s, t, c);
    if s.trades[t].owner == trader {
      PutCounterParties(s, s1, (t, c));
    } else {
      PutTradeParties(s, s1, t);
    }
  }

  lemma {:induction false} RescueKeepsParties(self: Addr, s: Store, info: Info, msg: ExecuteMsg, s1: Store, r: Response)
    requires Inv(s) && RescueMsg(msg) && Step(Lazy, self, s, info, msg) == Ok((s1, r))
    ensures SameParties(s, s1)
  {
    if msg.CancelTradeMsg? || msg.WithdrawAllFromTradeMsg? {
      PutTradeParties(s, s1, msg.tradeId);
    } else if msg.WithdrawPendingAssetsMsg? {
      SettlingKeepsParties(self, s, info.sender, msg.trader, msg.tradeId, s1, r);
    } else {
      PutCounterParties(s, s1, (msg.tradeId, msg.counterId));
    }
  }

  ghost predicate Emptied(self: Addr, c: Chain, d: Chain, l: ListId) {
    Ready(self, d) && SameParties(c.store, d.store) && Withdrawn(d.store, l)
  }

  lemma {:induction false} StillDiffer(s: Store, s1: Store)
    requires PartiesDiffer(s) && SameParties(s, s1)
    ensures PartiesDiffer(s1)
  {
    forall t | t in s1.trades && s1.trades[t].acceptedInfo.Some? && s1.trades[t].acceptedInfo.value in s1.counters
      ensures s1.counters[s1.trades[t].acceptedInfo.value].owner != s1.trades[t].owner
    {
      assert SameParty(s.trades[t], s1.trades[t]);
      assert SameParty(s.counters[s.trades[t].acceptedInfo.value], s1.counters[s.trades[t].acceptedInfo.value]);
    }
  }

  /** One message of a rescue, carried out. */
  lemma {:induction false} RescueStep(self: Addr, c: Chain, sender: Addr, msg: ExecuteMsg, s1: Store, r: Response)
    requires Ready(self, c) && sender != self && RescueMsg(msg)
    requires Step(Lazy, self, c.store, Info(sender, []), msg) == Ok((s1, r))
    ensures var d := Exec(Lazy, self, c, Plain(sender, msg));
            && Try(Lazy, self, c, Plain(sender, msg)).Some? && d.store == s1
            && Ready(self, d) && SameParties(c.store, d.store)
  {
    RescueGoesThrough(self, c, sender, msg, s1, r);
    RescueKeepsParties(self, c.store, Info(sender, []), msg, s1, r);
    StillDiffer(c.store, s1);
  }

  /** Every message of `txs` succeeds. */
  predicate AllSucceed(self: Addr, c: Chain, txs: seq<Tx>)
    decreases |txs|
  {
    txs == [] || (Try(Lazy, self, c, txs[0]).Some? && AllSucceed(self, Exec(Lazy, self, c, txs[0]), txs[1..]))
  }

  lemma {:induction false} OneTx(self: Addr, c: Chain, tx: Tx)
    ensures Run(Lazy, self, c, [tx]) == Exec(Lazy, self, c, tx)
    ensures AllSucceed(self, c, [tx]) == Try(Lazy, self, c, tx).Some?
  {
    assert [tx][1..] == [];
  }

  lemma {:induction false} TwoTxs(self: Addr, c: Chain, a: Tx, b: Tx)
    ensures Run(Lazy, self, c, [a, b]) == Exec(Lazy, self, Exec(Lazy, self, c, a), b)
    ensures AllSucceed(self, c, [a, b])
        == (Try(Lazy, self, c, a).Some? && Try(Lazy, self, Exec(Lazy, self, c, a), b).Some?)
  {
    assert [a, b][1..] == [b];
    OneTx(self, Exec(Lazy, self, c, a), b);
  }

  /** A single message that pays `l`. */
  lemma {:induction false} RescueByOne(self: Addr, c: Chain, l: ListId, sender: Addr, msg: ExecuteMsg, s1: Store, r: Response)
    requires Ready(self, c) && sender != self && PayoutMsg(msg)
    requires Step(Lazy, self, c.store, Info(sender, []), msg) == Ok((s1, r)) && PaysList(r.event, l)
    ensures AllSucceed(self, c, [Plain(sender, msg)])
    ensures Emptied(self, c, Run(Lazy, self, c, [Plain(sender, msg)]), l)
  {
    RescueStep(self, c, sender, msg, s1, r);
    StepPays(self, c.store, Info(sender, []), msg);
    OneTx(self, c, Plain(sender, msg));
  }

  lemma {:induction false} PartiesTransitive(a: Store, b: Store, c: Store)
    requires SameParties(a, b) && SameParties(b, c)
    ensures SameParties(a, c)
  {
    forall t | t in a.trades ensures SameParty(a.trades[t], c.trades[t]) {
      assert SameParty(a.trades[t], b.trades[t]);
    }
    forall q | q in a.counters ensures SameParty(a.counters[q], c.counters[q]) {
      assert SameParty(a.counters[q], b.counters[q]);
    }
  }

  /** A cancellation, then a message that pays `l`. */
  lemma {:induction false} RescueByTwo(self: Addr, c: Chain, l: ListId, sender: Addr, first: ExecuteMsg, s1: Store, r1: Response,
                                       msg: ExecuteMsg, s2: Store, r2: Response)
    requires Ready(self, c) && sender != self && RescueMsg(first) && PayoutMsg(msg)
    requires Step(Lazy, self, c.store, Info(sender, []), first) == Ok((s1, r1))
    requires Step(Lazy, self, s1, Info(sender, []), msg) == Ok((s2, r2)) && PaysList(r2.event, l)
    ensures AllSucceed(self, c, [Plain(sender, first), Plain(sender, msg)])
    ensures Emptied(self, c, Run(Lazy, self, c, [Plain(sender, first), Plain(sender, msg)]), l)
  {
    RescueStep(self, c, sender, first, s1, r1);
    var d := Exec(Lazy, self, c, Plain(sender, first));
    RescueByOne(self, d, l, sender, msg, s2, r2);
    OneTx(self, d, Plain(sender, msg));
    TwoTxs(self, c, Plain(sender, first), Plain(sender, msg));
    PartiesTransitive(c.store, d.store, Run(Lazy, self, d, [Plain(sender, msg)]).store);
  }

  lemma {:induction false} SettleTrade(self: Addr, s: Store, t: nat, sender: Addr)
    requires Inv(s) && t in s.trades && s.trades[t].state == Accepted && !s.trades[t].assetsWithdrawn && s.feeContract == Some(sender)
    requires s.trades[t].acceptedInfo.Some? && s.trades[t].acceptedInfo.value in s.counters
    requires s.counters[s.trades[t].acceptedInfo.value].owner != s.trades[t].owner
    ensures var out := Step(Lazy, self, s, Info(sender, []),
                            WithdrawPendingAssetsMsg(s.counters[s.trades[t].acceptedInfo.value].owner, t));
            out.Ok? && PaysList(out.value.1.event, TradeList(t))
  {
    assert s.trades[t].acceptedInfo.value.0 == t;
  }

  lemma {:induction false} EmptyTrade(self: Addr, s: Store, t: nat)
    requires t in s.trades && (s.trades[t].state == Created || s.trades[t].state == Cancelled) && !s.trades[t].assetsWithdrawn
    ensures var out := Step(Lazy, self, s, Info(s.trades[t].owner, []), WithdrawAllFromTradeMsg(t));
            out.Ok? && PaysList(out.value.1.event, TradeList(t))
  {
  }

  lemma {:induction false} CancelTradeFirst(self: Addr, s: Store, t: nat)
    requires t in s.trades && s.trades[t].state != Accepted
    ensures Step(Lazy, self, s, Info(s.trades[t].owner, []), CancelTradeMsg(t))
         == Ok((PutTrade(s, t, s.trades[t].(state := Cancelled)), Silent()))
  {
  }

  lemma {:induction false} RescueTradeWorks(self: Addr, c: Chain, t: nat)
    requires Ready(self, c) && t in c.store.trades && !c.store.trades[t].assetsWithdrawn
    ensures AllSucceed(self, c, RescueTrade(c.store, t))
    ensures Emptied(self, c, Run(Lazy, self, c, RescueTrade(c.store, t)), TradeList(t))
  {
    var (s, trade) := (c.store, c.store.trades[t]);
    assert TradeShape(trade);
    if trade.state == Accepted {
      var msg := WithdrawPendingAssetsMsg(s.counters[trade.acceptedInfo.value].owner, t);
      SettleTrade(self, s, t, s.feeContract.value);
      var (s1, r) := Step(Lazy, self, s, Info(s.feeContract.value, []), msg).value;
      RescueByOne(self, c, TradeList(t), s.feeContract.value, msg, s1, r);
    } else if trade.state == Created || trade.state == Cancelled {
      EmptyTrade(self, s, t);
      var (s1, r) := Step(Lazy, self, s, Info(trade.owner, []), WithdrawAllFromTradeMsg(t)).value;
      RescueByOne(self, c, TradeList(t), trade.owner, WithdrawAllFromTradeMsg(t), s1, r);
    } else {
      CancelTradeFirst(self, s, t);
      var s1 := PutTrade(s, t, trade.(state := Cancelled));
      EmptyTrade(self, s1, t);
      var (s2, r2) := Step(Lazy, self, s1, Info(trade.owner, []), WithdrawAllFromTradeMsg(t)).value;
      RescueByTwo(self, c, TradeList(t), trade.owner, CancelTradeMsg(t), s1, Silent(), WithdrawAllFromTradeMsg(t), s2, r2);
    }
  }

  lemma {:induction false} SettleCounter(self: Addr, s: Store, q: CounterKey, sender: Addr)
    requires Inv(s) && q in s.counters && q.0 in s.trades && !s.counters[q].assetsWithdrawn && s.feeContract == Some(sender)
    requires ReadState(s, q) == Accepted
    ensures var out := Step(Lazy, self, s, Info(sender, []), WithdrawPendingAssetsMsg(s.trades[q.0].owner, q.0));
            out.Ok? && PaysList(out.value.1.event, CounterList(q))
  {
    assert s.trades[q.0].acceptedInfo == Some(q);
    assert TradeShape(s.trades[q.0]);
  }

  lemma {:induction false} EmptyCounter(self: Addr, s: Store, q: CounterKey)
    requires q in s.counters && q.0 in s.trades && !s.counters[q].assetsWithdrawn
    requires ReadState(s, q) == Created || Aborted(ReadState(s, q))
    ensures var out := Step(Lazy, self, s, Info(s.counters[q].owner, []), WithdrawAllFromCounterMsg(q.0, q.1));
            out.Ok? && PaysList(out.value.1.event, CounterList(q))
  {
  }

  /** A published counter of a live trade can be cancelled. */
  lemma {:induction false} CancelCounterFirst(self: Addr, s: Store, q: CounterKey)
    requires q in s.counters && q.0 in s.trades && ReadState(s, q) == Published
    ensures var s1 := PutCounter(s, q.0, q.1, s.counters[q].(state := Cancelled));
            && Step(Lazy, self, s, Info(s.counters[q].owner, []), CancelCounterTradeMsg(q.0, q.1)) == Ok((s1, Silent()))
            && Aborted(ReadState(s1, q))
  {
  }

  lemma {:induction false} RescueCounterWorks(self: Addr, c: Chain, q: CounterKey)
    requires Ready(self, c) && q in c.store.counters && !c.store.counters[q].assetsWithdrawn
    ensures AllSucceed(self, c, RescueCounter(c.store, q))
    ensures Emptied(self, c, Run(Lazy, self, c, RescueCounter(c.store, q)), CounterList(q))
  {
    InvAnchored(c.store);
    var (s, counter) := (c.store, c.store.counters[q]);
    assert CounterShape(counter) && TradeShape(s.trades[q.0]);
    var state := ReadState(s, q);
    var withdraw := WithdrawAllFromCounterMsg(q.0, q.1);
    if state == Accepted {
      var msg := WithdrawPendingAssetsMsg(s.trades[q.0].owner, q.0);
      SettleCounter(self, s, q, s.feeContract.value);
      var (s1, r) := Step(Lazy, self, s, Info(s.feeContract.value, []), msg).value;
      RescueByOne(self, c, CounterList(q), s.feeContract.value, msg, s1, r);
    } else if state == Created || Aborted(state) {
      EmptyCounter(self, s, q);
      var (s1, r) := Step(Lazy, self, s, Info(counter.owner, []), withdraw).value;
      RescueByOne(self, c, CounterList(q), counter.owner, withdraw, s1, r);
    } else {
      CancelCounterFirst(self, s, q);
      var s1 := PutCounter(s, q.0, q.1, counter.(state := Cancelled));
      EmptyCounter(self, s1, q);
      var (s2, r2) := Step(Lazy, self, s1, Info(counter.owner, []), withdraw).value;
      RescueByTwo(self, c, CounterList(q), counter.owner, CancelCounterTradeMsg(q.0, q.1), s1, Silent(), withdraw, s2, r2);
    }
  }

  /** Any list not yet paid is emptied by at most two messages, none of which fails. */
  lemma {:induction false} RescueWorks(self: Addr, c: Chain, l: ListId)
    requires Ready(self, c) && IsList(c.store, l) && !Withdrawn(c.store, l)
    ensures AllSucceed(self, c, Rescue(c.store, l))
    ensures Emptied(self, c, Run(Lazy, self, c, Rescue(c.store, l)), l)
  {
    match l
    case TradeList(t) => RescueTradeWorks(self, c, t);
    case CounterList(q) => RescueCounterWorks(self, c, q);
  }

  // ----- All lists

  function Unpaid(s: Store): set<ListId> {
    (set t | t in s.trades && !s.trades[t].assetsWithdrawn :: TradeList(t))
    + (set q | q in s.counters && !s.counters[q].assetsWithdrawn :: CounterList(q))
  }

  lemma {:induction false} RunConcat(self: Addr, c: Chain, a: seq<Tx>, b: seq<Tx>)
    ensures Run(Lazy, self, c, a + b) == Run(Lazy, self, Run(Lazy, self, c, a), b)
    ensures AllSucceed(self, c, a + b) == (AllSucceed(self, c, a) && AllSucceed(self, Run(Lazy, self, c, a), b))
    decreases |a|
  {
    if a == [] {
      assert a + b == b;
    } else {
      assert (a + b)[1..] == a[1..] + b;
      RunConcat(self, Exec(Lazy, self, c, a[0]), a[1..], b);
    }
  }

  lemma {:induction false} NothingUnpaid(s: Store, k: Key)
    requires Unpaid(s) == {}
    ensures Recorded(s, k) == 0
  {
    forall t | t in s.trades ensures Weights(s.trades, k)[t] == 0 {
      assert TradeList(t) !in Unpaid(s);
    }
    forall q | q in s.counters ensures Weights(s.counters, k)[q] == 0 {
      assert CounterList(q) !in Unpaid(s);
    }
    MapSumZero(Weights(s.trades, k));
    MapSumZero(Weights(s.counters, k));
  }

  lemma {:induction false} UnpaidMember(s: Store, l: ListId)
    ensures l in Unpaid(s) <==> IsList(s, l) && !Withdrawn(s, l)
  {
  }

  lemma {:induction false} FewerUnpaid(s: Store, s1: Store, l: ListId)
    requires l in Unpaid(s) && SameParties(s, s1) && Withdrawn(s1, l)
    ensures |Unpaid(s1)| < |Unpaid(s)|
  {
    forall m | m in Unpaid(s1) ensures m in Unpaid(s) - {l} {
      UnpaidMember(s, m);
      UnpaidMember(s1, m);
      if IsList(s, m) {
        assert SameParty(ListOf(s, m), ListOf(s1, m));
      }
    }
    SubsetSize(Unpaid(s1), Unpaid(s) - {l});
  }

  lemma {:induction false} SubsetSize<T>(a: set<T>, b: set<T>)
    requires a <= b
    ensures |a| <= |b|
  {
    if a != {} {
      var x :| x in a;
      SubsetSize(a - {x}, b - {x});
    }
  }

  ghost predicate Empties(self: Addr, c: Chain, txs: seq<Tx>) {
    && AllSucceed(self, c, txs)
    && (forall k :: Run(Lazy, self, c, txs).wallets.Held(self, k) == 0)
  }

  lemma {:induction false} Drain(self: Addr, c: Chain) returns (txs: seq<Tx>)
    requires Ready(self, c)
    ensures |txs| <= 2 * |Unpaid(c.store)| && Empties(self, c, txs)
    decreases |Unpaid(c.store)|
  {
    if Unpaid(c.store) == {} {
      txs := [];
      forall k ensures c.wallets.Held(self, k) == 0 {
        NothingUnpaid(c.store, k);
      }
    } else {
      var l :| l in Unpaid(c.store);
      var first := Rescue(c.store, l);
      RescueWorks(self, c, l);
      var d := Run(Lazy, self, c, first);
      FewerUnpaid(c.store, d.store, l);
      var rest := Drain(self, d);
      RunConcat(self, c, first, rest);
      txs := first + rest;
    }
  }

  /** No stuck assets: after any orderly run that leaves a fee contract set and no trade
      settled with its own owner, some continuation of at most two messages for each unpaid
      list, none failing, leaves the contract holding nothing at all. */
  lemma {:induction false} NothingIsStuck(self: Addr, admin: Addr, w: Wallets, txs: seq<Tx>)
    requires forall k :: w.Held(self, k) == 0
    requires OrderlyRun(self, Chain(NewStore(admin), w), txs)
    requires var s := Run(Lazy, self, Chain(NewStore(admin), w), txs).store;
             s.feeContract.Some? && s.feeContract.value != self && PartiesDiffer(s)
    ensures var c := Run(Lazy, self, Chain(NewStore(admin), w), txs);
            exists more :: |more| <= 2 * |Unpaid(c.store)| && Empties(self, c, more)
  {
    var c0 := Chain(NewStore(admin), w);
    InitInv(admin);
    assert ChainInv(self, c0) by {
      assert forall k: Key :: Weights(NewStore(admin).trades, k) == map[];
      assert forall k: Key :: Weights(NewStore(admin).counters, k) == map[];
    }
    CustodyRun(self, c0, txs);
    var more := Drain(self, Run(Lazy, self, c0, txs));
  }

  // ----- The exact limit

  ghost predicate SelfDealt(s: Store, t: nat) {
    && t in s.trades && s.trades[t].state == Accepted && s.trades[t].acceptedInfo.Some?
    && s.trades[t].acceptedInfo.value in s.counters
    && s.counters[s.trades[t].acceptedInfo.value].owner == s.trades[t].owner
  }

  lemma {:induction false} SelfDealtNotPaid(self: Addr, s: Store, t: nat, info: Info, msg: ExecuteMsg)
    requires Inv(s) && SelfDealt(s, t) && PayoutMsg(msg) && Step(Lazy, self, s, info, msg).Ok?
    ensures !PaysList(Step(Lazy, self, s, info, msg).value.1.event, TradeList(t))
  {
    assert s.trades[t].acceptedInfo.value.0 == t;
  }

  lemma {:induction false} SelfDealtStep(self: Addr, s: Store, t: nat, info: Info, msg: ExecuteMsg)
    requires Inv(s) && SelfDealt(s, t) && Step(Lazy, self, s, info, msg).Ok?
    ensures var s1 := Step(Lazy, self, s, info, msg).value.0;
            SelfDealt(s1, t) && (Withdrawn(s1, TradeList(t)) ==> Withdrawn(s, TradeList(t)))
  {
    StepMoves(self, s, info, msg);
    StepPays(self, s, info, msg);
    var (s1, r) := Step(Lazy, self, s, info, msg).value;
    if PayoutMsg(msg) {
      SelfDealtNotPaid(self, s, t, info, msg);
    }
    var q := s.trades[t].acceptedInfo.value;
    assert TradeMoves(s.trades[t], s1.trades[t]);
    assert CounterMoves(s.counters[q], ReadState(s, q), s1.counters[q], ReadState(s1, q));
  }

  /** Whoever accepts a counter of their own never gets the trade's list back: settlement
      always answers with the counter's list first, whatever messages follow. */
  lemma {:induction false} SelfDealtIsStuck(self: Addr, c: Chain, t: nat, txs: seq<Tx>)
    requires Inv(c.store) && SelfDealt(c.store, t) && !c.store.trades[t].assetsWithdrawn
    ensures !Withdrawn(Run(Lazy, self, c, txs).store, TradeList(t))
    decreases |txs|
  {
    if txs != [] {
      if Try(Lazy, self, c, txs[0]).Some? {
        SelfDealtStep(self, c.store, t, txs[0].info, txs[0].msg);
        StepInv(self, c.store, txs[0].info, txs[0].msg);
      }
      SelfDealtIsStuck(self, Exec(Lazy, self, c, txs[0]), t, txs[1..]);
    }
  }

  /** With a fee contract in place, an accepted trade's unpaid list can still be paid out if
      and only if the accepted counter is somebody else's. */
  lemma {:induction false} AcceptedListPayableIff(self: Addr, c: Chain, t: nat)
    requires ChainInv(self, c) && c.store.feeContract.Some? && c.store.feeContract.value != self
    requires t in c.store.trades && c.store.trades[t].state == Accepted && !c.store.trades[t].assetsWithdrawn
    ensures (exists txs :: Withdrawn(Run(Lazy, self, c, txs).store, TradeList(t))) <==> !SelfDealt(c.store, t)
  {
    assert TradeShape(c.store.trades[t]);
    if SelfDealt(c.store, t) {
      forall txs ensures !Withdrawn(Run(Lazy, self, c, txs).store, TradeList(t)) {
        SelfDealtIsStuck(self, c, t, txs);
      }
    } else {
      var txs := RescueTrade(c.store, t);
      SettleTrade(self, c.store, t, c.store.feeContract.value);
      var (s1, r) := Step(Lazy, self, c.store, txs[0].info, txs[0].msg).value;
      RescueGoesThrough(self, c, txs[0].info.sender, txs[0].msg, s1, r);
      StepPays(self, c.store, txs[0].info, txs[0].msg);
      OneTx(self, c, txs[0]);
      assert Withdrawn(Run(Lazy, self, c, txs).store, TradeList(t));
    }
  }
}

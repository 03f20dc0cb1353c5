/** Runs of the trading contract, from instantiation, that end where a promise stops. */
module P2PWitness {
  import opened Base
  import opened Ledger
  import opened P2PTypes
  import opened P2PAssets
  import opened P2PRemoval
  import opened P2PSpec
  import opened P2PInvariant
  import opened P2PBooks
  import opened P2PCustody
  import opened P2PSettlement
  import opened P2PNoStuck

  function Plain(a: Addr, msg: ExecuteMsg): Tx {
    Tx(Info(a, []), false, msg)
  }

  function Deposits(a: Addr, t: nat, coin: Coin): Tx {
    Tx(Info(a, [coin]), false, AddAssetMsg(ToTrade(t), Native(coin)))
  }

  lemma {:induction false} OneMore(self: Addr, c: Chain, txs: seq<Tx>, tx: Tx)
    ensures Run(Lazy, self, c, txs + [tx]) == Exec(Lazy, self, Run(Lazy, self, c, txs), tx)
    decreases |txs|
  {
    if txs == [] {
      assert [] + [tx] == [tx];
      assert [tx][1..] == [];
    } else {
      assert (txs + [tx])[1..] == txs[1..] + [tx];
      OneMore(self, Exec(Lazy, self, c, txs[0]), txs[1..], tx);
    }
  }

  /** A message without coins that orders nothing only changes the records. */
  lemma {:induction false} PlainStep(self: Addr, c: Chain, a: Addr, msg: ExecuteMsg, s1: Store)
    requires Step(Lazy, self, c.store, Info(a, []), msg) == Ok((s1, Silent()))
    ensures Exec(Lazy, self, c, Plain(a, msg)) == Chain(s1, c.wallets)
    ensures Try(Lazy, self, c, Plain(a, msg)) == Some((Chain(s1, c.wallets), Silent()))
  {
    assert Fund(a, self, []) == [];
  }

  /** A message without coins that orders one transfer. */
  lemma {:induction false} OrderingStep(self: Addr, c: Chain, a: Addr, allow: bool, msg: ExecuteMsg, s1: Store,
                                        t: Transfer, event: Event)
    requires Step(Lazy, self, c.store, Info(a, []), msg) == Ok((s1, Response([t], event)))
    requires c.wallets.Move(self, allow, t).Some?
    ensures Exec(Lazy, self, c, Tx(Info(a, []), allow, msg)) == Chain(s1, c.wallets.Move(self, allow, t).value)
  {
    assert Fund(a, self, []) == [];
    MoveOne(c.wallets, self, allow, t);
  }

  // ----- A counter of one's own

  /** A trade of one coin, confirmed. */
  function Listing(a: Addr, coin: Coin): seq<Tx> {
    [Plain(a, CreateTradeMsg(None, None))] + [Deposits(a, 0, coin)] + [Plain(a, ConfirmTradeMsg(Some(0)))]
  }

  /** The same user suggests, publishes and accepts an empty counter. */
  function SelfDealing(a: Addr, coin: Coin): seq<Tx> {
    Listing(a, coin) + [Plain(a, SuggestCounterTradeMsg(0, None))] + [Plain(a, ConfirmCounterTradeMsg(0, Some(0)))]
    + [Plain(a, AcceptTradeMsg(0, 0, None))]
  }

  function Sole(a: Addr, coin: Coin): TradeInfo {
    NewTradeInfo(a).(assets := [Native(coin)])
  }

  lemma {:induction false} CoinDeposited(self: Addr, c: Chain, a: Addr, coin: Coin)
    requires a != self && coin.amount <= c.wallets.Held(a, NativeKey(coin.denom))
    requires 0 in c.store.trades && c.store.trades[0] == NewTradeInfo(a)
    ensures Exec(Lazy, self, c, Deposits(a, 0, coin)).store == PutTrade(c.store, 0, Sole(a, coin))
    ensures Exec(Lazy, self, c, Deposits(a, 0, coin)).wallets.nftOwner == c.wallets.nftOwner
  {
    PaidIn(c.wallets, a, self, coin, a, NativeKey(coin.denom));
    assert Fund(a, self, [coin])[1..] == [];
    assert Deposit([], Native(coin)) == [Native(coin)];
    assert Step(Lazy, self, c.store, Info(a, [coin]), AddAssetMsg(ToTrade(0), Native(coin))) == Ok((PutTrade(c.store, 0, Sole(a, coin)), Silent()));
  }

  lemma {:induction false} Created(self: Addr, admin: Addr, w: Wallets, a: Addr) returns (c: Chain)
    ensures c == Run(Lazy, self, Chain(NewStore(admin), w), [Plain(a, CreateTradeMsg(None, None))])
    ensures c == Exec(Lazy, self, Chain(NewStore(admin), w), Plain(a, CreateTradeMsg(None, None)))
    ensures c.wallets == w
    ensures c.store == PutTrade(NewStore(admin), 0, NewTradeInfo(a)).(lastTradeId := Some(0), lastUserTrade := map[a := 0])
  {
    var c0 := Chain(NewStore(admin), w);
    var s := PutTrade(NewStore(admin), 0, NewTradeInfo(a)).(lastTradeId := Some(0), lastUserTrade := map[a := 0]);
    PlainStep(self, c0, a, CreateTradeMsg(None, None), s);
    OneMore(self, c0, [], Plain(a, CreateTradeMsg(None, None)));
    assert [] + [Plain(a, CreateTradeMsg(None, None))] == [Plain(a, CreateTradeMsg(None, None))];
    c := Chain(s, w);
  }

  lemma {:induction false} Listed(self: Addr, admin: Addr, w: Wallets, a: Addr, coin: Coin) returns (c: Chain)
    requires a != self && coin.amount <= w.Held(a, NativeKey(coin.denom))
    ensures c == Run(Lazy, self, Chain(NewStore(admin), w), Listing(a, coin))
    ensures c.store.trades == map[0 := Sole(a, coin).(state := Published)] && c.store.counters == map[]
  {
    var c0 := Chain(NewStore(admin), w);
    var c1 := Created(self, admin, w, a);
    CoinDeposited(self, c1, a, coin);
    OneMore(self, c0, [Plain(a, CreateTradeMsg(None, None))], Deposits(a, 0, coin));
    var c2 := Exec(Lazy, self, c1, Deposits(a, 0, coin));
    c := Chain(PutTrade(c2.store, 0, Sole(a, coin).(state := Published)), c2.wallets);
    PlainStep(self, c2, a, ConfirmTradeMsg(Some(0)), c.store);
    OneMore(self, c0, [Plain(a, CreateTradeMsg(None, None))] + [Deposits(a, 0, coin)], Plain(a, ConfirmTradeMsg(Some(0))));
  }

  /** The same user suggests and publishes an empty counter. */
  lemma {:induction false} Countering(self: Addr, c: Chain, a: Addr, trade: TradeInfo) returns (d: Chain)
    requires c.store.trades == map[0 := trade] && c.store.counters == map[]
    requires trade.owner == a && trade.state == Published && trade.lastCounterId.None? && trade.whitelistedUsers == {}
    ensures d == Exec(Lazy, self, Exec(Lazy, self, c, Plain(a, SuggestCounterTradeMsg(0, None))), Plain(a, ConfirmCounterTradeMsg(0, Some(0))))
    ensures d.store.trades == map[0 := trade.(state := Countered, lastCounterId := Some(0))]
    ensures d.store.counters == map[(0, 0) := NewTradeInfo(a).(state := Published)]
  {
    var s4 := PutCounter(PutTrade(c.store, 0, trade.(state := Countered, lastCounterId := Some(0))), 0, 0, NewTradeInfo(a))
              .(lastUserCounter := c.store.lastUserCounter[(a, 0) := 0]);
    PlainStep(self, c, a, SuggestCounterTradeMsg(0, None), s4);
    d := Chain(PutCounter(s4, 0, 0, NewTradeInfo(a).(state := Published)), c.wallets);
    PlainStep(self, Chain(s4, c.wallets), a, ConfirmCounterTradeMsg(0, Some(0)), d.store);
  }

  lemma {:induction false} Accepting(self: Addr, c: Chain, a: Addr, trade: TradeInfo) returns (d: Chain)
    requires c.store.trades == map[0 := trade] && c.store.counters == map[(0, 0) := NewTradeInfo(a).(state := Published)]
    requires trade.owner == a && trade.state == Countered
    ensures d == Exec(Lazy, self, c, Plain(a, AcceptTradeMsg(0, 0, None)))
    ensures SelfDealt(d.store, 0) && d.store.trades[0] == trade.(state := Accepted, acceptedInfo := Some((0, 0)))
  {
    var s := PutCounter(PutTrade(c.store, 0, trade.(state := Accepted, acceptedInfo := Some((0, 0)))), 0, 0, NewTradeInfo(a).(state := Accepted));
    d := Chain(s, c.wallets);
    PlainStep(self, c, a, AcceptTradeMsg(0, 0, None), s);
  }

  /** Six messages of one sender reach an accepted trade whose counter is its owner's own, and
      the coin listed is not paid out by any continuation. */
  lemma {:induction false} OwnCounterStrands(self: Addr, admin: Addr, w: Wallets, a: Addr, coin: Coin, more: seq<Tx>)
    requires a != self && coin.amount <= w.Held(a, NativeKey(coin.denom))
    ensures var c := Run(Lazy, self, Chain(NewStore(admin), w), SelfDealing(a, coin));
            && SelfDealt(c.store, 0) && c.store.trades[0].assets == [Native(coin)]
            && !Withdrawn(Run(Lazy, self, c, more).store, TradeList(0))
  {
    var c0 := Chain(NewStore(admin), w);
    var c3 := Listed(self, admin, w, a, coin);
    var c5 := Countering(self, c3, a, Sole(a, coin).(state := Published));
    var c6 := Accepting(self, c5, a, Sole(a, coin).(state := Countered, lastCounterId := Some(0)));
    OneMore(self, c0, Listing(a, coin), Plain(a, SuggestCounterTradeMsg(0, None)));
    OneMore(self, c0, Listing(a, coin) + [Plain(a, SuggestCounterTradeMsg(0, None))], Plain(a, ConfirmCounterTradeMsg(0, Some(0))));
    OneMore(self, c0, Listing(a, coin) + [Plain(a, SuggestCounterTradeMsg(0, None))] + [Plain(a, ConfirmCounterTradeMsg(0, Some(0)))],
            Plain(a, AcceptTradeMsg(0, 0, None)));
    InitInv(admin);
    RunInv(self, c0, SelfDealing(a, coin));
    SelfDealtIsStuck(self, c6, 0, more);
  }

  // ----- Custody broken

  function NftTx(a: Addr, t: nat, nft: Asset): Tx {
    Tx(Info(a, []), true, AddAssetMsg(ToTrade(t), nft))
  }

  lemma {:induction false} NftDeposited(self: Addr, c: Chain, a: Addr, t: nat, nft: Asset, info: TradeInfo)
    requires nft.Cw721? && nft.HasContract() && nft.Key() in c.wallets.nftOwner
    requires t in c.store.trades && c.store.trades[t] == info && info.owner == a && info.state == TradeState.Created
    ensures Exec(Lazy, self, c, NftTx(a, t, nft)).store == PutTrade(c.store, t, info.(assets := info.assets + [nft]))
    ensures Exec(Lazy, self, c, NftTx(a, t, nft)).wallets.nftOwner == c.wallets.nftOwner[nft.Key() := self]
  {
    var s1 := PutTrade(c.store, t, info.(assets := info.assets + [nft]));
    OrderingStep(self, c, a, true, AddAssetMsg(ToTrade(t), nft), s1, Transfer(a, self, nft), NoPayout);
  }

  lemma {:induction false} OneListRecorded(s: Store, info: TradeInfo, k: Key)
    requires s.trades == map[0 := info] && s.counters == map[] && !info.assetsWithdrawn
    ensures Recorded(s, k) == Total(info.assets, k)
  {
    var none: map<nat, TradeInfo> := map[];
    WeightsUpdate(none, 0, info, k);
    assert s.trades == none[0 := info];
    assert Weights(none, k) == map[] && Weights(s.counters, k) == map[];
  }

  /** One NFT deposited twice into the same trade is recorded twice and owned once. */
  lemma {:induction false} NftListedTwice(self: Addr, admin: Addr, w: Wallets, a: Addr, nft: Asset)
    requires a != self && nft.Cw721? && nft.HasContract() && Lookup(w.nftOwner, nft.Key()) == Some(a)
    ensures var c := Run(Lazy, self, Chain(NewStore(admin), w), [Plain(a, CreateTradeMsg(None, None))] + [NftTx(a, 0, nft)] + [NftTx(a, 0, nft)]);
            Recorded(c.store, nft.Key()) == 2 && c.wallets.Held(self, nft.Key()) == 1 && !Custody(self, c)
  {
    var c0 := Chain(NewStore(admin), w);
    var c1 := Created(self, admin, w, a);
    NftDeposited(self, c1, a, 0, nft, NewTradeInfo(a));
    OneMore(self, c0, [Plain(a, CreateTradeMsg(None, None))], NftTx(a, 0, nft));
    var c2 := Exec(Lazy, self, c1, NftTx(a, 0, nft));
    var once := NewTradeInfo(a).(assets := [nft]);
    assert c2.store.trades[0] == once by { assert [] + [nft] == [nft]; }
    NftDeposited(self, c2, a, 0, nft, once);
    OneMore(self, c0, [Plain(a, CreateTradeMsg(None, None))] + [NftTx(a, 0, nft)], NftTx(a, 0, nft));
    var c3 := Exec(Lazy, self, c2, NftTx(a, 0, nft));
    var twice := once.(assets := [nft] + [nft]);
    OneListRecorded(c3.store, twice, nft.Key());
    TotalConcat([nft], [nft], nft.Key());
    assert [nft][1..] == [];
    assert Total([nft], nft.Key()) == 1;
  }

  // ----- A coin position asked for something else

  function AsksAt(a: Addr, t: nat, p: nat, asset: Asset): Tx {
    Plain(a, RemoveAssetsMsg(t, None, [(p, asset)]))
  }

  lemma {:induction false} MismatchAccepted(assets: seq<Asset>, p: nat, asset: Asset)
    requires p < |assets| && assets[p].Native? && !asset.Native?
    ensures Removal(assets, [(p, asset)]) == Ok(Retain(assets)) && Requested([(p, asset)]) == [asset]
  {
    var rs: seq<Request> := [(p, asset)];
    assert rs[1..] == [];
    assert CheckRequest(assets, rs[0]) == Ok(());
    assert CheckRequests(assets, rs) == Ok(());
    assert TakeOne(assets, rs[0]) == Ok(assets);
    assert TakeAll(assets, rs) == Ok(assets);
  }

  /** The owner of a trade being created, asking its coin position for any other asset, has sent
      to them what the contract holds of that asset, up to the amount asked, and nothing is taken
      off any list. */
  lemma {:induction false} CoinPositionReleases(self: Addr, c: Chain, t: nat, p: nat, asset: Asset)
    requires Inv(c.store) && RecordsOk(self, c.store) && t in c.store.trades && c.store.trades[t].state == TradeState.Created
    requires p < |c.store.trades[t].assets| && c.store.trades[t].assets[p].Native? && !asset.Native? && asset.HasContract()
    requires asset.Quantity() <= c.wallets.Held(self, asset.Key())
    ensures var owner := c.store.trades[t].owner;
            var d := Exec(Lazy, self, c, AsksAt(owner, t, p, asset));
            && Try(Lazy, self, c, AsksAt(owner, t, p, asset)).Some?
            && d.wallets.Held(owner, asset.Key()) == c.wallets.Held(owner, asset.Key()) + asset.Quantity()
            && d.wallets.Held(self, asset.Key()) + asset.Quantity() == c.wallets.Held(self, asset.Key())
            && (forall k :: Recorded(d.store, k) == Recorded(c.store, k))
  {
    var info := c.store.trades[t];
    var s1 := PutTrade(c.store, t, info.(assets := Retain(info.assets)));
    assert TradeShape(info);
    MismatchAccepted(info.assets, p, asset);
    assert Sends(self, info.owner, [asset]) == [Transfer(self, info.owner, asset)];
    MoveOne(c.wallets, self, false, Transfer(self, info.owner, asset));
    assert Fund(info.owner, self, []) == [];
    assert Step(Lazy, self, c.store, Info(info.owner, []), RemoveAssetsMsg(t, None, [(p, asset)]))
        == Ok((s1, Response([Transfer(self, info.owner, asset)], NoPayout)));
    forall k ensures Recorded(s1, k) == Recorded(c.store, k) {
      LiveProper(info.assets, k);
      PutTradeRecorded(c.store, t, s1.trades[t], k);
    }
  }

  /** Someone with a coin in their trade, and someone else with an NFT in theirs. */
  function TwoTrades(a: Addr, b: Addr, coin: Coin, nft: Asset): seq<Tx> {
    [Plain(a, CreateTradeMsg(None, None))] + [Deposits(a, 0, coin)] + [Plain(b, CreateTradeMsg(None, None))] + [NftTx(b, 1, nft)]
  }

  lemma {:induction false} TwoTraded(self: Addr, admin: Addr, w: Wallets, a: Addr, b: Addr, coin: Coin,
                                     nft: Asset) returns (c: Chain)
    requires a != self && b != self && coin.amount <= w.Held(a, NativeKey(coin.denom))
    requires nft.Cw721? && nft.HasContract() && Lookup(w.nftOwner, nft.Key()) == Some(b)
    ensures c == Run(Lazy, self, Chain(NewStore(admin), w), TwoTrades(a, b, coin, nft))
    ensures c.store.trades == map[0 := Sole(a, coin), 1 := NewTradeInfo(b).(assets := [nft])] && c.store.counters == map[]
    ensures Lookup(c.wallets.nftOwner, nft.Key()) == Some(self)
  {
    var c0 := Chain(NewStore(admin), w);
    var c1 := Created(self, admin, w, a);
    CoinDeposited(self, c1, a, coin);
    OneMore(self, c0, [Plain(a, CreateTradeMsg(None, None))], Deposits(a, 0, coin));
    var c2 := Exec(Lazy, self, c1, Deposits(a, 0, coin));
    var s3 := PutTrade(c2.store, 1, NewTradeInfo(b)).(lastTradeId := Some(1), lastUserTrade := c2.store.lastUserTrade[b := 1]);
    PlainStep(self, c2, b, CreateTradeMsg(None, None), s3);
    var c3 := Chain(s3, c2.wallets);
    OneMore(self, c0, [Plain(a, CreateTradeMsg(None, None))] + [Deposits(a, 0, coin)], Plain(b, CreateTradeMsg(None, None)));
    NftDeposited(self, c3, b, 1, nft, NewTradeInfo(b));
    OneMore(self, c0, [Plain(a, CreateTradeMsg(None, None))] + [Deposits(a, 0, coin)] + [Plain(b, CreateTradeMsg(None, None))],
            NftTx(b, 1, nft));
    c := Exec(Lazy, self, c3, NftTx(b, 1, nft));
    assert [] + [nft] == [nft];
  }

  lemma {:induction false} TwoRecorded(s: Store, first: TradeInfo, second: TradeInfo, coin: Coin, nft: Asset)
    requires s.trades == map[0 := first, 1 := second] && s.counters == map[] && nft.Cw721?
    requires first.assets == [Native(coin)] && second.assets == [nft] && !first.assetsWithdrawn && !second.assetsWithdrawn
    ensures Recorded(s, nft.Key()) == 1
  {
    var s0 := s.(trades := map[0 := first]);
    OneListRecorded(s0, first, nft.Key());
    assert PutTrade(s0, 1, second) == s;
    PutTradeRecorded(s0, 1, second, nft.Key());
    assert [nft][1..] == [] && [Native(coin)][1..] == [];
  }

  /** A removal that names another party's NFT at a coin's position: the NFT leaves, to the owner
      of the coin, and its list stays. */
  lemma {:induction false} NftLeavesListStays(self: Addr, admin: Addr, w: Wallets, a: Addr, b: Addr, coin: Coin, nft: Asset)
    requires a != self && b != self && coin.amount <= w.Held(a, NativeKey(coin.denom))
    requires nft.Cw721? && nft.HasContract() && Lookup(w.nftOwner, nft.Key()) == Some(b)
    ensures var c := Run(Lazy, self, Chain(NewStore(admin), w), TwoTrades(a, b, coin, nft) + [AsksAt(a, 0, 0, nft)]);
            && c.wallets.Held(a, nft.Key()) == 1 && Recorded(c.store, nft.Key()) == 1
            && c.wallets.Held(self, nft.Key()) == 0 && !Custody(self, c)
  {
    var (c0, txs) := (Chain(NewStore(admin), w), TwoTrades(a, b, coin, nft));
    var c := TwoTraded(self, admin, w, a, b, coin, nft);
    var d := Exec(Lazy, self, c, AsksAt(a, 0, 0, nft));
    InitInv(admin);
    RunInv(self, c0, txs);
    assert RecordsOk(self, c.store);
    CoinPositionReleases(self, c, 0, 0, nft);
    OneMore(self, c0, txs, AsksAt(a, 0, 0, nft));
    TwoRecorded(c.store, Sole(a, coin), NewTradeInfo(b).(assets := [nft]), coin, nft);
    assert Recorded(d.store, nft.Key()) == Recorded(c.store, nft.Key());
  }

  /** A coin sent along with a message that does not announce it belongs to no list. */
  lemma {:induction false} StrayCoinUnrecorded(self: Addr, admin: Addr, w: Wallets, a: Addr, coin: Coin)
    requires a != self && 0 < coin.amount <= w.Held(a, NativeKey(coin.denom))
    ensures var c := Exec(Lazy, self, Chain(NewStore(admin), w), Tx(Info(a, [coin]), false, CreateTradeMsg(None, None)));
            c.wallets.Held(self, NativeKey(coin.denom)) > 0 && Recorded(c.store, NativeKey(coin.denom)) == 0 && !Custody(self, c)
  {
    var k := NativeKey(coin.denom);
    var c0 := Chain(NewStore(admin), w);
    var s := PutTrade(NewStore(admin), 0, NewTradeInfo(a)).(lastTradeId := Some(0), lastUserTrade := map[a := 0]);
    PaidIn(w, a, self, coin, a, k);
    Funded(self, w, a, [coin], k);
    NativesOne(coin, k);
    assert Step(Lazy, self, c0.store, Info(a, [coin]), CreateTradeMsg(None, None)) == Ok((s, Silent()));
    OneListRecorded(s, NewTradeInfo(a), k);
  }
}

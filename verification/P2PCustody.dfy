/** Custody: what the contract holds of every asset is what its unwithdrawn lists record. */
module P2PCustody {
  import opened Base
  import opened Ledger
  import opened P2PTypes
  import opened P2PAssets
  import opened P2PSpec
  import opened P2PInvariant
  import opened P2PRemoval
  import opened P2PBooks

  // ----- The wallets follow the books

  /** A handler either pulls or pushes, never both, and pushes to outsiders only. */
  lemma {:induction false} PayoutShape(self: Addr, s: Store, info: Info, msg: ExecuteMsg, s1: Store, r: Response)
    requires RecordsOk(self, s) && info.sender != self && Step(Lazy, self, s, info, msg) == Ok((s1, r))
    requires msg.WithdrawAllFromTradeMsg? || msg.WithdrawAllFromCounterMsg? || msg.WithdrawPendingAssetsMsg?
    ensures AllPushes(self, r.messages)
  {
  }

  lemma {:induction false} ListMsgShape(self: Addr, s: Store, info: Info, msg: ExecuteMsg, s1: Store, r: Response)
    requires info.sender != self && Step(Lazy, self, s, info, msg) == Ok((s1, r)) && (msg.AddAssetMsg? || msg.RemoveAssetsMsg?)
    ensures if msg.AddAssetMsg? then r.messages == Receive(self, info.sender, msg.asset).messages && AllPulls(self, r.messages)
            else AllPushes(self, r.messages)
  {
  }

  lemma {:induction false} MessagesShape(self: Addr, s: Store, info: Info, msg: ExecuteMsg)
    requires Inv(s) && RecordsOk(self, s) && info.sender != self && Step(Lazy, self, s, info, msg).Ok?
    ensures var ts := Step(Lazy, self, s, info, msg).value.1.messages;
            if msg.AddAssetMsg? then ts == Receive(self, info.sender, msg.asset).messages && AllPulls(self, ts)
            else AllPushes(self, ts)
  {
    var (s1, r) := Step(Lazy, self, s, info, msg).value;
    if msg.AddAssetMsg? || msg.RemoveAssetsMsg? {
      ListMsgShape(self, s, info, msg, s1, r);
    } else if MovesNothing(msg) {
      QuietBooks(self, s, info, msg, NativeKey(""));
    } else {
      PayoutShape(self, s, info, msg, s1, r);
    }
  }

  ghost predicate Custody(self: Addr, c: Chain) {
    forall k :: c.wallets.Held(self, k) == Recorded(c.store, k)
  }

  ghost predicate ChainInv(self: Addr, c: Chain) {
    Inv(c.store) && RecordsOk(self, c.store) && Custody(self, c)
  }

  // ----- Which messages keep custody

  /** A deposited NFT is not one the contract already keeps for somebody. */
  predicate FreshNft(self: Addr, w: Wallets, msg: ExecuteMsg) {
    msg.AddAssetMsg? && msg.asset.Cw721? ==> w.Held(self, msg.asset.Key()) == 0
  }

  /** A request of another kind at a coin position moves nothing the records miss: its amount is
      nought, or it is an NFT that the contract does not own or that some request of the same
      message takes off the same list. */
  predicate HarmlessRequest(self: Addr, w: Wallets, assets: seq<Asset>, rs: seq<Request>, r: Request) {
    r.0 < |assets| && Mismatch(assets[r.0], r.1) ==>
      if r.1.Cw721? then w.Held(self, r.1.Key()) == 0 || TakenOff(assets, rs, r.1.Key()) else r.1.Quantity() == 0
  }

  predicate Harmless(self: Addr, c: Chain, msg: ExecuteMsg) {
    msg.RemoveAssetsMsg? ==>
      var assets := RemovalList(c.store, msg);
      forall i :: 0 <= i < |msg.assets| ==> HarmlessRequest(self, c.wallets, assets, msg.assets, msg.assets[i])
  }

  predicate Keeps(self: Addr, c: Chain, info: Info, msg: ExecuteMsg) {
    NoStray(info, msg) && FreshNft(self, c.wallets, msg) && Harmless(self, c, msg)
  }

  // ----- The wallets after a message

  lemma {:induction false} ReceiveIncoming(self: Addr, sender: Addr, a: Asset, k: Key)
    requires sender != self
    ensures Incoming(self, Receive(self, sender, a).messages, k) == if a.Native? then 0 else a.Of(k)
    ensures Outgoing(self, Receive(self, sender, a).messages, k) == 0
  {
    if !a.Native? {
      assert Incoming(self, [Transfer(sender, self, a)][1..], k) == 0;
    }
  }

  /** What `self` holds once the coins sent have come in and the ordered transfers are made. */
  lemma {:induction false} HeldAfter(self: Addr, w: Wallets, info: Info, allow: bool, ts: seq<Transfer>, k: Key)
    requires info.sender != self && (AllPulls(self, ts) || AllPushes(self, ts))
    requires w.MoveAll(self, true, Fund(info.sender, self, info.funds)).Some?
    requires w.MoveAll(self, true, Fund(info.sender, self, info.funds)).value.MoveAll(self, allow, ts).Some?
    ensures var w1 := w.MoveAll(self, true, Fund(info.sender, self, info.funds)).value.MoveAll(self, allow, ts).value;
            var had := w.Held(self, k) + Total(Natives(info.funds), k) + Incoming(self, ts, k);
            var out := Outgoing(self, ts, k);
            w1.Held(self, k) == if !k.NftKey? then had - out else if out > had then 0 else if had > 1 then 1 else had - out
    ensures Incoming(self, ts, k) == 0 || Outgoing(self, ts, k) == 0
    ensures !k.NativeKey? ==> Total(Natives(info.funds), k) == 0
  {
    var funded := w.MoveAll(self, true, Fund(info.sender, self, info.funds)).value;
    Funded(self, w, info.sender, info.funds, k);
    StrayOnlyNative(info.funds, k);
    if AllPulls(self, ts) {
      NothingOutgoing(self, ts, k);
      PullEffect(funded, self, allow, ts, k);
    } else {
      NothingIncoming(self, ts, k);
      PushCapped(funded, self, allow, ts, k);
    }
  }

  /** The ledger side of a transaction that goes through. */
  lemma {:induction false} TryHeld(self: Addr, c: Chain, tx: Tx, s1: Store, r: Response, k: Key)
    requires Inv(c.store) && RecordsOk(self, c.store) && tx.info.sender != self && Try(Lazy, self, c, tx).Some?
    requires Step(Lazy, self, c.store, tx.info, tx.msg) == Ok((s1, r))
    ensures var had := c.wallets.Held(self, k) + Total(Natives(tx.info.funds), k) + Incoming(self, r.messages, k);
            var out := Outgoing(self, r.messages, k);
            Try(Lazy, self, c, tx).value.0.wallets.Held(self, k)
            == if !k.NftKey? then had - out else if out > had then 0 else if had > 1 then 1 else had - out
    ensures Try(Lazy, self, c, tx).value.0.store == s1
    ensures Incoming(self, r.messages, k) == 0 || Outgoing(self, r.messages, k) == 0
    ensures !k.NativeKey? ==> Total(Natives(tx.info.funds), k) == 0
  {
    MessagesShape(self, c.store, tx.info, tx.msg);
    HeldAfter(self, c.wallets, tx.info, tx.allow, r.messages, k);
  }

  ghost predicate KeptAt(self: Addr, d: Chain, k: Key) {
    d.wallets.Held(self, k) == Recorded(d.store, k)
  }

  /** Of all but NFTs, the contract then holds more than is recorded by what came unasked, and
      less by what leaked. */
  lemma {:induction false} FungiblesFollow(self: Addr, c: Chain, tx: Tx, k: Key)
    requires ChainInv(self, c) && tx.info.sender != self && Try(Lazy, self, c, tx).Some? && !k.NftKey?
    ensures var d := Try(Lazy, self, c, tx).value.0;
            d.wallets.Held(self, k) + Leak(c.store, tx.msg, k) == Recorded(d.store, k) + Stray(tx.info, tx.msg, k)
  {
    var (s1, r) := Step(Lazy, self, c.store, tx.info, tx.msg).value;
    assert c.wallets.Held(self, k) == Recorded(c.store, k);
    TryHeld(self, c, tx, s1, r, k);
    StepBooks(self, c.store, tx.info, tx.msg, k);
  }

  /** A deposit breaks custody of an NFT exactly if it is that NFT, and owned before. */
  lemma {:induction false} NftDepositFollows(self: Addr, c: Chain, tx: Tx, k: Key)
    requires ChainInv(self, c) && tx.info.sender != self && Try(Lazy, self, c, tx).Some?
    requires tx.msg.AddAssetMsg? && k.NftKey?
    ensures KeptAt(self, Try(Lazy, self, c, tx).value.0, k) <==> tx.msg.asset.Key() != k || c.wallets.Held(self, k) == 0
  {
    var (s1, r) := Step(Lazy, self, c.store, tx.info, tx.msg).value;
    assert c.wallets.Held(self, k) == Recorded(c.store, k);
    TryHeld(self, c, tx, s1, r, k);
    StepBooks(self, c.store, tx.info, tx.msg, k);
    MessagesShape(self, c.store, tx.info, tx.msg);
    ReceiveIncoming(self, tx.info.sender, tx.msg.asset, k);
  }

  lemma {:induction false} RemovalSends(self: Addr, s: Store, info: Info, msg: ExecuteMsg, s1: Store, r: Response)
    requires Step(Lazy, self, s, info, msg) == Ok((s1, r)) && msg.RemoveAssetsMsg?
    ensures r.messages == Sends(self, info.sender, Requested(msg.assets))
  {
  }

  /** A removal takes an NFT off the records exactly if a request names a position that holds
      it; whatever it takes off it sends. */
  lemma {:induction false} NftRemovalRecorded(self: Addr, s: Store, info: Info, msg: ExecuteMsg, s1: Store, r: Response, k: Key)
    requires Inv(s) && RecordsOk(self, s) && info.sender != self
    requires Step(Lazy, self, s, info, msg) == Ok((s1, r)) && msg.RemoveAssetsMsg? && k.NftKey?
    ensures Recorded(s1, k) <= Recorded(s, k) <= Recorded(s1, k) + Outgoing(self, r.messages, k)
    ensures k.address != "" ==> (TakenOff(RemovalList(s, msg), msg.assets, k) <==> Recorded(s1, k) < Recorded(s, k))
    ensures Outgoing(self, r.messages, k) == Total(Requested(msg.assets), k)
  {
    var (assets, rs) := (RemovalList(s, msg), msg.assets);
    RemovalSucceeded(self, s, info, msg);
    CheckedFits(assets, rs);
    CheckedInRange(assets, rs);
    LiveProper(assets, k);
    TakeAllTotals(assets, rs, k);
    NftTakenOff(assets, rs, k);
    StepBooks(self, s, info, msg, k);
    RemovalSends(self, s, info, msg, s1, r);
    SendsOutgoing(self, info.sender, Requested(rs), k);
  }

  /** A removal breaks custody of an NFT exactly if it sends it out of the contract and takes it
      off no list. */
  lemma {:induction false} NftRemovalFollows(self: Addr, c: Chain, tx: Tx, k: Key)
    requires ChainInv(self, c) && tx.info.sender != self && Try(Lazy, self, c, tx).Some?
    requires tx.msg.RemoveAssetsMsg? && k.NftKey?
    ensures KeptAt(self, Try(Lazy, self, c, tx).value.0, k)
            <==> c.wallets.Held(self, k) == 0 || Total(Requested(tx.msg.assets), k) == 0
                 || TakenOff(RemovalList(c.store, tx.msg), tx.msg.assets, k)
  {
    var (s1, r) := Step(Lazy, self, c.store, tx.info, tx.msg).value;
    assert c.wallets.Held(self, k) == Recorded(c.store, k);
    TryHeld(self, c, tx, s1, r, k);
    NftRemovalRecorded(self, c.store, tx.info, tx.msg, s1, r, k);
    SentHaveContracts(self, c, tx, s1, r, k);
    RemovalSends(self, c.store, tx.info, tx.msg, s1, r);
    SendsOutgoing(self, tx.info.sender, Requested(tx.msg.assets), k);
  }

  /** No NFT of the empty address moves. */
  lemma {:induction false} NoneAtNowhere(self: Addr, ts: seq<Transfer>, k: Key)
    requires forall i :: 0 <= i < |ts| ==> ts[i].asset.HasContract()
    requires k.NftKey? && k.address == ""
    ensures Outgoing(self, ts, k) == 0
  {
    if ts != [] {
      NoneAtNowhere(self, ts[1..], k);
    }
  }

  lemma {:induction false} SentHaveContracts(self: Addr, c: Chain, tx: Tx, s1: Store, r: Response, k: Key)
    requires Try(Lazy, self, c, tx).Some? && Step(Lazy, self, c.store, tx.info, tx.msg) == Ok((s1, r)) && k.NftKey?
    ensures k.address == "" ==> Outgoing(self, r.messages, k) == 0
  {
    var funded := c.wallets.MoveAll(self, true, Fund(tx.info.sender, self, tx.info.funds)).value;
    MovedHaveContracts(funded, self, tx.allow, r.messages);
    if k.address == "" {
      NoneAtNowhere(self, r.messages, k);
    }
  }

  /** Every other message keeps custody of every NFT. */
  lemma {:induction false} OtherNftsKept(self: Addr, c: Chain, tx: Tx, k: Key)
    requires ChainInv(self, c) && tx.info.sender != self && Try(Lazy, self, c, tx).Some?
    requires !tx.msg.AddAssetMsg? && !tx.msg.RemoveAssetsMsg? && k.NftKey?
    ensures KeptAt(self, Try(Lazy, self, c, tx).value.0, k)
  {
    var (s1, r) := Step(Lazy, self, c.store, tx.info, tx.msg).value;
    assert c.wallets.Held(self, k) == Recorded(c.store, k);
    TryHeld(self, c, tx, s1, r, k);
    StepBooks(self, c.store, tx.info, tx.msg, k);
    MessagesShape(self, c.store, tx.info, tx.msg);
    NothingIncoming(self, r.messages, k);
  }

  // ----- The exact condition

  ghost predicate FungiblesKept(self: Addr, d: Chain) {
    forall k: Key :: !k.NftKey? ==> KeptAt(self, d, k)
  }

  ghost predicate NftsKept(self: Addr, d: Chain) {
    forall k: Key :: k.NftKey? ==> KeptAt(self, d, k)
  }

  /** Of fungible assets only coins are asked for at coin positions, or amounts of nought. */
  predicate FungiblesHarmless(s: Store, msg: ExecuteMsg) {
    msg.RemoveAssetsMsg? ==> CoinsAskedInKind(RemovalList(s, msg), msg.assets)
  }

  lemma {:induction false} FungiblesKeptIff(self: Addr, c: Chain, tx: Tx)
    requires ChainInv(self, c) && tx.info.sender != self && Try(Lazy, self, c, tx).Some?
    ensures FungiblesKept(self, Try(Lazy, self, c, tx).value.0)
            <==> NoStray(tx.info, tx.msg) && FungiblesHarmless(c.store, tx.msg)
  {
    var d := Try(Lazy, self, c, tx).value.0;
    StrayIff(tx.info, tx.msg);
    FungibleLeakIff(self, c.store, tx.info, tx.msg);
    forall k: Key | !k.NftKey? ensures KeptAt(self, d, k) <==> Leak(c.store, tx.msg, k) == Stray(tx.info, tx.msg, k) {
      FungiblesFollow(self, c, tx, k);
    }
    if FungiblesKept(self, d) {
      forall k: Key | !k.NftKey? ensures Leak(c.store, tx.msg, k) == 0 && Stray(tx.info, tx.msg, k) == 0 {
        assert KeptAt(self, d, k);
      }
    }
    if NoStray(tx.info, tx.msg) && FungiblesHarmless(c.store, tx.msg) {
      forall k: Key | !k.NftKey? ensures KeptAt(self, d, k) {
        assert Leak(c.store, tx.msg, k) == 0 && Stray(tx.info, tx.msg, k) == 0;
      }
    }
  }

  lemma {:induction false} FungibleLeak(self: Addr, s: Store, info: Info, msg: ExecuteMsg, k: Key)
    requires Step(Lazy, self, s, info, msg).Ok? && msg.RemoveAssetsMsg? && !k.NftKey?
    ensures Leak(s, msg, k) == Mismatched(RemovalList(s, msg), msg.assets, k)
  {
    RemovalSucceeded(self, s, info, msg);
    CheckedFits(RemovalList(s, msg), msg.assets);
    CheckedInRange(RemovalList(s, msg), msg.assets);
    FungibleExcess(RemovalList(s, msg), msg.assets, k);
  }

  /** What fungible assets leak is what coin positions are asked for in another kind. */
  lemma {:induction false} FungibleLeakIff(self: Addr, s: Store, info: Info, msg: ExecuteMsg)
    requires RecordsOk(self, s) && Step(Lazy, self, s, info, msg).Ok?
    ensures (forall k: Key :: !k.NftKey? ==> Leak(s, msg, k) == 0) <==> FungiblesHarmless(s, msg)
    ensures forall k: Key :: k.NativeKey? ==> Leak(s, msg, k) == 0
  {
    if msg.RemoveAssetsMsg? {
      LeakIff(self, s, info, msg);
      CoinsAskedIff(RemovalList(s, msg), msg.assets);
      forall k: Key | !k.NftKey? ensures Leak(s, msg, k) == Mismatched(RemovalList(s, msg), msg.assets, k) {
        FungibleLeak(self, s, info, msg, k);
      }
      if forall k: Key :: !k.NftKey? ==> Leak(s, msg, k) == 0 {
        forall k: Key | !k.NftKey? ensures Mismatched(RemovalList(s, msg), msg.assets, k) == 0 {
          assert Leak(s, msg, k) == 0;
        }
      }
    }
  }

  /** No NFT the contract owns is asked for at a coin position, unless it is taken off the list
      as well. */
  predicate NftsHarmless(self: Addr, c: Chain, msg: ExecuteMsg) {
    msg.RemoveAssetsMsg? ==>
      var assets := RemovalList(c.store, msg);
      forall i :: 0 <= i < |msg.assets| && msg.assets[i].1.Cw721? ==>
        HarmlessRequest(self, c.wallets, assets, msg.assets, msg.assets[i])
  }

  /** An accepted request for an NFT is harmless exactly if the NFT is not owned or taken off. */
  lemma {:induction false} RequestHarmlessIff(self: Addr, c: Chain, tx: Tx, i: nat)
    requires Step(Lazy, self, c.store, tx.info, tx.msg).Ok? && tx.msg.RemoveAssetsMsg?
    requires i < |tx.msg.assets| && tx.msg.assets[i].1.Cw721?
    ensures var assets := RemovalList(c.store, tx.msg);
            var k := tx.msg.assets[i].1.Key();
            HarmlessRequest(self, c.wallets, assets, tx.msg.assets, tx.msg.assets[i])
            <==> c.wallets.Held(self, k) == 0 || TakenOff(assets, tx.msg.assets, k)
  {
    var (assets, rs) := (RemovalList(c.store, tx.msg), tx.msg.assets);
    RemovalSucceeded(self, c.store, tx.info, tx.msg);
    CheckedInRange(assets, rs);
    assert CheckRequest(assets, rs[i]).Ok?;
    if !Mismatch(assets[rs[i].0], rs[i].1) {
      assert assets[rs[i].0].Key() == rs[i].1.Key();
    }
  }

  lemma {:induction false} KeptNftHarmless(self: Addr, c: Chain, tx: Tx, i: nat)
    requires ChainInv(self, c) && tx.info.sender != self && Try(Lazy, self, c, tx).Some? && tx.msg.RemoveAssetsMsg?
    requires i < |tx.msg.assets| && tx.msg.assets[i].1.Cw721?
    requires KeptAt(self, Try(Lazy, self, c, tx).value.0, tx.msg.assets[i].1.Key())
    ensures HarmlessRequest(self, c.wallets, RemovalList(c.store, tx.msg), tx.msg.assets, tx.msg.assets[i])
  {
    NftRemovalFollows(self, c, tx, tx.msg.assets[i].1.Key());
    RequestedTotal(tx.msg.assets, i);
    RequestHarmlessIff(self, c, tx, i);
  }

  lemma {:induction false} RequestedHarmless(self: Addr, c: Chain, tx: Tx, k: Key)
    requires Step(Lazy, self, c.store, tx.info, tx.msg).Ok? && tx.msg.RemoveAssetsMsg?
    requires NftsHarmless(self, c, tx.msg) && k.NftKey? && Total(Requested(tx.msg.assets), k) > 0
    ensures c.wallets.Held(self, k) == 0 || TakenOff(RemovalList(c.store, tx.msg), tx.msg.assets, k)
  {
    var i := RequestFor(tx.msg.assets, k);
    RequestHarmlessIff(self, c, tx, i);
  }

  lemma {:induction false} HarmlessNftKept(self: Addr, c: Chain, tx: Tx, k: Key)
    requires ChainInv(self, c) && tx.info.sender != self && Try(Lazy, self, c, tx).Some? && tx.msg.RemoveAssetsMsg?
    requires NftsHarmless(self, c, tx.msg) && k.NftKey?
    ensures KeptAt(self, Try(Lazy, self, c, tx).value.0, k)
  {
    NftRemovalFollows(self, c, tx, k);
    if Total(Requested(tx.msg.assets), k) > 0 {
      RequestedHarmless(self, c, tx, k);
    }
  }

  lemma {:induction false} NftRemovalIff(self: Addr, c: Chain, tx: Tx)
    requires ChainInv(self, c) && tx.info.sender != self && Try(Lazy, self, c, tx).Some? && tx.msg.RemoveAssetsMsg?
    ensures NftsKept(self, Try(Lazy, self, c, tx).value.0) <==> NftsHarmless(self, c, tx.msg)
  {
    var d := Try(Lazy, self, c, tx).value.0;
    var rs := tx.msg.assets;
    if NftsKept(self, d) {
      forall i | 0 <= i < |rs| && rs[i].1.Cw721?
        ensures HarmlessRequest(self, c.wallets, RemovalList(c.store, tx.msg), rs, rs[i])
      {
        assert KeptAt(self, d, rs[i].1.Key());
        KeptNftHarmless(self, c, tx, i);
      }
    }
    if NftsHarmless(self, c, tx.msg) {
      forall k: Key | k.NftKey? ensures KeptAt(self, d, k) {
        HarmlessNftKept(self, c, tx, k);
      }
    }
  }

  lemma {:induction false} NftsKeptIff(self: Addr, c: Chain, tx: Tx)
    requires ChainInv(self, c) && tx.info.sender != self && Try(Lazy, self, c, tx).Some?
    ensures NftsKept(self, Try(Lazy, self, c, tx).value.0)
            <==> FreshNft(self, c.wallets, tx.msg) && NftsHarmless(self, c, tx.msg)
  {
    var d := Try(Lazy, self, c, tx).value.0;
    if tx.msg.RemoveAssetsMsg? {
      NftRemovalIff(self, c, tx);
    } else if tx.msg.AddAssetMsg? {
      forall k: Key | k.NftKey?
        ensures KeptAt(self, d, k) <==> tx.msg.asset.Key() != k || c.wallets.Held(self, k) == 0
      {
        NftDepositFollows(self, c, tx, k);
      }
      if NftsKept(self, d) && tx.msg.asset.Cw721? {
        assert KeptAt(self, d, tx.msg.asset.Key());
      }
    } else {
      forall k: Key | k.NftKey? ensures KeptAt(self, d, k) {
        OtherNftsKept(self, c, tx, k);
      }
    }
  }

  /** A message keeps custody if and only if it brings no coin unasked, deposits no NFT that the
      contract already owns, and asks coin positions for nothing else that would leave. */
  lemma {:induction false} CustodyIff(self: Addr, c: Chain, tx: Tx)
    requires ChainInv(self, c) && tx.info.sender != self && Try(Lazy, self, c, tx).Some?
    ensures Custody(self, Try(Lazy, self, c, tx).value.0) <==> Keeps(self, c, tx.info, tx.msg)
  {
    var d := Try(Lazy, self, c, tx).value.0;
    FungiblesKeptIff(self, c, tx);
    NftsKeptIff(self, c, tx);
    assert Custody(self, d) <==> FungiblesKept(self, d) && NftsKept(self, d) by {
      if Custody(self, d) {
        forall k: Key ensures KeptAt(self, d, k) {
          assert d.wallets.Held(self, k) == Recorded(d.store, k);
        }
      }
      if FungiblesKept(self, d) && NftsKept(self, d) {
        forall k ensures d.wallets.Held(self, k) == Recorded(d.store, k) {
          assert KeptAt(self, d, k);
        }
      }
    }
    HarmlessSplits(self, c, tx.msg);
  }

  lemma {:induction false} HarmlessSplits(self: Addr, c: Chain, msg: ExecuteMsg)
    ensures Harmless(self, c, msg) <==> FungiblesHarmless(c.store, msg) && NftsHarmless(self, c, msg)
  {
    if msg.RemoveAssetsMsg? {
      var (assets, rs) := (RemovalList(c.store, msg), msg.assets);
      if Harmless(self, c, msg) {
        forall i | 0 <= i < |rs| && rs[i].0 < |assets| && Mismatch(assets[rs[i].0], rs[i].1) && !rs[i].1.Cw721?
          ensures rs[i].1.Quantity() == 0
        {
          assert HarmlessRequest(self, c.wallets, assets, rs, rs[i]);
        }
      }
    }
  }

  // ----- Lists stay at real contracts

  ghost predicate RecordOk(self: Addr, info: TradeInfo) {
    Proper(info.assets) && info.owner != self
  }

  lemma {:induction false} PutTradeRecords(self: Addr, s: Store, s1: Store, t: nat)
    requires RecordsOk(self, s) && t in s1.trades && RecordOk(self, s1.trades[t])
    requires s1.trades == s.trades[t := s1.trades[t]] && s1.counters == s.counters
    ensures RecordsOk(self, s1)
  {
  }

  lemma {:induction false} PutCounterRecords(self: Addr, s: Store, s1: Store, q: CounterKey)
    requires RecordsOk(self, s) && q in s1.counters && RecordOk(self, s1.counters[q])
    requires s1.counters == s.counters[q := s1.counters[q]] && s1.trades == s.trades
    ensures RecordsOk(self, s1)
  {
  }

  lemma {:induction false} DepositProper(info: TradeInfo, a: Asset, funds: seq<Coin>)
    requires Proper(info.assets) && a.HasContract() && Added(info, a, funds).Ok?
    ensures Proper(Added(info, a, funds).value.assets)
  {
  }

  lemma {:induction false} DepositRecords(self: Addr, s: Store, info: Info, msg: ExecuteMsg)
    requires RecordsOk(self, s) && Step(Lazy, self, s, info, msg).Ok? && msg.AddAssetMsg? && msg.asset.HasContract()
    ensures RecordsOk(self, Step(Lazy, self, s, info, msg).value.0)
  {
    var s1 := Step(Lazy, self, s, info, msg).value.0;
    match msg.action
    case ToLastTrade =>
      DepositProper(s.trades[TradeIdOrLast(s, info.sender, None).value], msg.asset, info.funds);
      PutTradeRecords(self, s, s1, TradeIdOrLast(s, info.sender, None).value);
    case ToTrade(t) =>
      DepositProper(s.trades[t], msg.asset, info.funds);
      PutTradeRecords(self, s, s1, t);
    case ToLastCounterTrade(t) =>
      var c := CounterIdOrLast(s, info.sender, t, None).value;
      DepositProper(LoadCounter(Lazy, s, t, c).value, msg.asset, info.funds);
      PutCounterRecords(self, s, s1, (t, c));
    case ToCounterTrade(t, c) =>
      DepositProper(LoadCounter(Lazy, s, t, c).value, msg.asset, info.funds);
      PutCounterRecords(self, s, s1, (t, c));
  }

  lemma {:induction false} RetainProper(assets: seq<Asset>)
    ensures (forall i :: 0 <= i < |assets| && !assets[i].Cw721? ==> assets[i].HasContract()) ==> Proper(Retain(assets))
  {
    if assets != [] && forall i :: 0 <= i < |assets| && !assets[i].Cw721? ==> assets[i].HasContract() {
      assert forall i :: 0 <= i < |assets[1..]| ==> assets[1..][i] == assets[i + 1];
      RetainProper(assets[1..]);
    }
  }

  lemma {:induction false} RemovalProper(assets: seq<Asset>, rs: seq<Request>)
    requires Proper(assets) && Removal(assets, rs).Ok?
    ensures Proper(Removal(assets, rs).value)
  {
    CheckedInRange(assets, rs);
    TakeAllKeepsForm(assets, rs);
    RetainProper(TakeAll(assets, rs).value);
  }

  lemma {:induction false} RemovalRecords(self: Addr, s: Store, info: Info, msg: ExecuteMsg)
    requires RecordsOk(self, s) && Step(Lazy, self, s, info, msg).Ok? && msg.RemoveAssetsMsg?
    ensures RecordsOk(self, Step(Lazy, self, s, info, msg).value.0)
  {
    RemovalSucceeded(self, s, info, msg);
    RemovalProper(RemovalList(s, msg), msg.assets);
    var s1 := Step(Lazy, self, s, info, msg).value.0;
    match msg.ofCounter
    case None => PutTradeRecords(self, s, s1, msg.tradeId);
    case Some(c) => PutCounterRecords(self, s, s1, (msg.tradeId, c));
  }

  lemma {:induction false} CreateTradeRecords(self: Addr, s: Store, sender: Addr, whitelist: Option<seq<Addr>>,
                                              comment: Option<string>)
    requires TradeIds(s) && RecordsOk(self, s) && sender != self
    ensures CreateTrade(Lazy, s, sender, whitelist, comment).Ok?
    ensures RecordsOk(self, CreateTrade(Lazy, s, sender, whitelist, comment).value.0)
  {
    FreshTrade(s);
    CreatedTrade(Lazy, s, sender, whitelist, comment);
    PutTradeRecords(self, s, CreateTrade(Lazy, s, sender, whitelist, comment).value.0, NextId(s.lastTradeId));
  }

  lemma {:induction false} SuggestRecords(self: Addr, s: Store, sender: Addr, t: nat, comment: Option<string>)
    requires CounterIds(s) && RecordsOk(self, s) && sender != self && SuggestCounterTrade(Lazy, s, sender, t, comment).Ok?
    ensures RecordsOk(self, SuggestCounterTrade(Lazy, s, sender, t, comment).value.0)
  {
    FreshCounter(s, t);
    Suggested(Lazy, s, sender, t, comment);
    var s0 := PutTrade(s, t, CounteredTrade(s.trades[t]));
    PutTradeRecords(self, s, s0, t);
    PutCounterRecords(self, s0, SuggestCounterTrade(Lazy, s, sender, t, comment).value.0, (t, NextId(s.trades[t].lastCounterId)));
  }

  lemma {:induction false} TradeMarkRecords(self: Addr, s: Store, info: Info, msg: ExecuteMsg)
    requires RecordsOk(self, s) && Step(Lazy, self, s, info, msg).Ok?
    requires msg.AddWhitelistedUsersMsg? || msg.RemoveWhitelistedUsersMsg? || msg.ConfirmTradeMsg? || msg.CancelTradeMsg?
             || (msg.SetCommentMsg? && msg.ofCounter.None?) || msg.WithdrawAllFromTradeMsg?
    ensures RecordsOk(self, Step(Lazy, self, s, info, msg).value.0)
  {
    var t := if msg.ConfirmTradeMsg? then TradeIdOrLast(s, info.sender, msg.lastOrId).value else msg.tradeId;
    PutTradeRecords(self, s, Step(Lazy, self, s, info, msg).value.0, t);
  }

  lemma {:induction false} CounterMarkRecords(self: Addr, s: Store, info: Info, msg: ExecuteMsg)
    requires RecordsOk(self, s) && Step(Lazy, self, s, info, msg).Ok?
    requires msg.ConfirmCounterTradeMsg? || msg.CancelCounterTradeMsg? || msg.RefuseCounterTradeMsg? || msg.ReviewCounterTradeMsg?
             || (msg.SetCommentMsg? && msg.ofCounter.Some?) || msg.WithdrawAllFromCounterMsg?
    ensures RecordsOk(self, Step(Lazy, self, s, info, msg).value.0)
  {
    var c := if msg.ConfirmCounterTradeMsg? then CounterIdOrLast(s, info.sender, msg.tradeId, msg.ofCounter).value
             else if msg.SetCommentMsg? then msg.ofCounter.value
             else msg.counterId;
    PutCounterRecords(self, s, Step(Lazy, self, s, info, msg).value.0, (msg.tradeId, c));
  }

  lemma {:induction false} AcceptRecords(self: Addr, s: Store, sender: Addr, t: nat, c: nat, comment: Option<string>)
    requires RecordsOk(self, s) && AcceptTrade(Lazy, s, sender, t, c, comment).Ok?
    ensures RecordsOk(self, AcceptTrade(Lazy, s, sender, t, c, comment).value.0)
  {
  }

  lemma {:induction false} SettlingRecords(self: Addr, s: Store, sender: Addr, trader: Addr, t: nat)
    requires RecordsOk(self, s) && WithdrawAcceptedFunds(Lazy, self, s, sender, trader, t).Ok?
    ensures RecordsOk(self, WithdrawAcceptedFunds(Lazy, self, s, sender, trader, t).value.0)
  {
  }

  lemma {:induction false} RecordsStep(self: Addr, s: Store, info: Info, msg: ExecuteMsg)
    requires Inv(s) && RecordsOk(self, s) && Step(Lazy, self, s, info, msg).Ok? && info.sender != self
    requires msg.AddAssetMsg? ==> msg.asset.HasContract()
    ensures RecordsOk(self, Step(Lazy, self, s, info, msg).value.0)
  {
    match msg
    case AddAssetMsg(_, _) => DepositRecords(self, s, info, msg);
    case RemoveAssetsMsg(_, _, _) => RemovalRecords(self, s, info, msg);
    case CreateTradeMsg(whitelist, comment) => CreateTradeRecords(self, s, info.sender, whitelist, comment);
    case SuggestCounterTradeMsg(t, comment) => SuggestRecords(self, s, info.sender, t, comment);
    case AcceptTradeMsg(t, c, comment) => AcceptRecords(self, s, info.sender, t, c, comment);
    case WithdrawPendingAssetsMsg(trader, t) => SettlingRecords(self, s, info.sender, trader, t);
    case SetNewOwnerMsg(_) =>
    case SetNewFeeContractMsg(_) =>
    case ConfirmCounterTradeMsg(_, _) => CounterMarkRecords(self, s, info, msg);
    case CancelCounterTradeMsg(_, _) => CounterMarkRecords(self, s, info, msg);
    case RefuseCounterTradeMsg(_, _) => CounterMarkRecords(self, s, info, msg);
    case ReviewCounterTradeMsg(_, _, _) => CounterMarkRecords(self, s, info, msg);
    case WithdrawAllFromCounterMsg(_, _) => CounterMarkRecords(self, s, info, msg);
    case SetCommentMsg(_, Some(_), _) => CounterMarkRecords(self, s, info, msg);
    case _ => TradeMarkRecords(self, s, info, msg);
  }

  /** A deposit that the token contract carried out was of an asset with a contract. */
  lemma {:induction false} DepositHasContract(self: Addr, c: Chain, tx: Tx)
    requires Inv(c.store) && RecordsOk(self, c.store) && tx.info.sender != self
    requires Try(Lazy, self, c, tx).Some? && tx.msg.AddAssetMsg?
    ensures tx.msg.asset.HasContract()
  {
    MessagesShape(self, c.store, tx.info, tx.msg);
  }

  /** Over any run of outsiders, orderly or not, every list stays at real contracts and every
      record is an outsider's. */
  lemma {:induction false} RecordsRun(self: Addr, c: Chain, txs: seq<Tx>)
    requires Inv(c.store) && RecordsOk(self, c.store) && forall i :: 0 <= i < |txs| ==> txs[i].info.sender != self
    ensures Inv(Run(Lazy, self, c, txs).store) && RecordsOk(self, Run(Lazy, self, c, txs).store)
    decreases |txs|
  {
    if txs != [] {
      if Try(Lazy, self, c, txs[0]).Some? {
        StepInv(self, c.store, txs[0].info, txs[0].msg);
        if txs[0].msg.AddAssetMsg? {
          DepositHasContract(self, c, txs[0]);
        }
        RecordsStep(self, c.store, txs[0].info, txs[0].msg);
      }
      RecordsRun(self, Exec(Lazy, self, c, txs[0]), txs[1..]);
    }
  }

  // ----- Custody over whole runs

  /** The contract sends no messages to itself, and every transaction that goes through keeps
      custody: any other breaks it at once. */
  predicate OrderlyTx(self: Addr, c: Chain, tx: Tx) {
    tx.info.sender != self && (Try(Lazy, self, c, tx).Some? ==> Keeps(self, c, tx.info, tx.msg))
  }

  lemma {:induction false} CustodyStep(self: Addr, c: Chain, tx: Tx)
    requires ChainInv(self, c) && OrderlyTx(self, c, tx)
    ensures ChainInv(self, Exec(Lazy, self, c, tx))
  {
    if Try(Lazy, self, c, tx).Some? {
      StepInv(self, c.store, tx.info, tx.msg);
      if tx.msg.AddAssetMsg? {
        DepositHasContract(self, c, tx);
      }
      RecordsStep(self, c.store, tx.info, tx.msg);
      CustodyIff(self, c, tx);
    }
  }

  /** Every transaction of the run is orderly in the state it meets. */
  predicate OrderlyRun(self: Addr, c: Chain, txs: seq<Tx>)
    decreases |txs|
  {
    txs == [] || (OrderlyTx(self, c, txs[0]) && OrderlyRun(self, Exec(Lazy, self, c, txs[0]), txs[1..]))
  }

  /** Custody holds at every point of the run. */
  ghost predicate CustodyThroughout(self: Addr, c: Chain, txs: seq<Tx>)
    decreases |txs|
  {
    Custody(self, c) && (txs == [] || CustodyThroughout(self, Exec(Lazy, self, c, txs[0]), txs[1..]))
  }

  /** Orderly runs are exactly the runs in which custody holds throughout. */
  lemma {:induction false} ThroughoutIffOrderly(self: Addr, c: Chain, txs: seq<Tx>)
    requires ChainInv(self, c) && forall i :: 0 <= i < |txs| ==> txs[i].info.sender != self
    ensures CustodyThroughout(self, c, txs) <==> OrderlyRun(self, c, txs)
    decreases |txs|
  {
    if txs != [] {
      var d := Exec(Lazy, self, c, txs[0]);
      if Try(Lazy, self, c, txs[0]).Some? {
        CustodyIff(self, c, txs[0]);
      }
      if OrderlyTx(self, c, txs[0]) {
        CustodyStep(self, c, txs[0]);
        ThroughoutIffOrderly(self, d, txs[1..]);
      }
    }
  }

  lemma {:induction false} CustodyRun(self: Addr, c: Chain, txs: seq<Tx>)
    requires ChainInv(self, c) && OrderlyRun(self, c, txs)
    ensures ChainInv(self, Run(Lazy, self, c, txs))
    decreases |txs|
  {
    if txs != [] {
      CustodyStep(self, c, txs[0]);
      CustodyRun(self, Exec(Lazy, self, c, txs[0]), txs[1..]);
    }
  }

  /** Custody conservation: from instantiation, after any orderly run, the contract holds of
      every coin, token and NFT exactly what its unwithdrawn lists record. */
  lemma {:induction false} CustodyAlways(self: Addr, admin: Addr, w: Wallets, txs: seq<Tx>)
    requires forall k :: w.Held(self, k) == 0
    requires OrderlyRun(self, Chain(NewStore(admin), w), txs)
    ensures Custody(self, Run(Lazy, self, Chain(NewStore(admin), w), txs))
  {
    InitInv(admin);
    assert ChainInv(self, Chain(NewStore(admin), w)) by {
      assert forall k: Key :: Weights(NewStore(admin).trades, k) == map[];
      assert forall k: Key :: Weights(NewStore(admin).counters, k) == map[];
    }
    CustodyRun(self, Chain(NewStore(admin), w), txs);
  }

  /** Depositing an NFT keeps custody exactly when the contract did not own it yet: a second
      listing of one NFT is recorded, but the contract still owns only one. */
  lemma {:induction false} NftDepositIffFresh(self: Addr, c: Chain, tx: Tx)
    requires ChainInv(self, c) && tx.info.sender != self && Try(Lazy, self, c, tx).Some?
    requires tx.msg.AddAssetMsg? && tx.msg.asset.Cw721? && NoStray(tx.info, tx.msg)
    ensures Custody(self, Exec(Lazy, self, c, tx)) <==> FreshNft(self, c.wallets, tx.msg)
  {
    CustodyIff(self, c, tx);
  }
}

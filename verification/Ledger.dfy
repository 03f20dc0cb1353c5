/** Assets, and the wallets in which the bank module and the token contracts keep them.

    A transfer either happens in full or fails, and a failed transfer reverts the whole
    transaction that ordered it. */
module Ledger {
  import opened Base

  type Addr = string

  datatype Coin = Coin(denom: string, amount: nat)

  datatype Asset =
    | Native(coin: Coin)
    | Cw20(address: string, amount: nat)
    | Cw721(address: string, tokenId: string)
    | Cw1155(address: string, tokenId: string, value: nat)
  {
    function Key(): Key {
      match this
      case Native(c) => NativeKey(c.denom)
      case Cw20(a, _) => Cw20Key(a)
      case Cw721(a, t) => NftKey(a, t)
      case Cw1155(a, t, _) => Cw1155Key(a, t)
    }

    function Quantity(): nat {
      match this
      case Native(c) => c.amount
      case Cw20(_, n) => n
      case Cw721(_, _) => 1
      case Cw1155(_, _, n) => n
    }

    /** How much of `k` this asset is. */
    function Of(k: Key): nat {
      if Key() == k then Quantity() else 0
    }

    /** No token contract lives at the empty address. */
    predicate HasContract() {
      match this
      case Native(_) => true
      case Cw20(a, _) => a != ""
      case Cw721(a, _) => a != ""
      case Cw1155(a, _, _) => a != ""
    }
  }

  /** What makes two assets interchangeable. */
  datatype Key =
    | NativeKey(denom: string)
    | Cw20Key(address: string)
    | NftKey(address: string, tokenId: string)
    | Cw1155Key(address: string, tokenId: string)

  function Total(assets: seq<Asset>, k: Key): nat {
    if assets == [] then 0 else assets[0].Of(k) + Total(assets[1..], k)
  }

  lemma {:induction false} TotalConcat(a: seq<Asset>, b: seq<Asset>, k: Key)
    ensures Total(a + b, k) == Total(a, k) + Total(b, k)
  {
    if a == [] {
      assert a + b == b;
    } else {
      assert (a + b)[1..] == a[1..] + b;
      TotalConcat(a[1..], b, k);
    }
  }

  /** Overwriting one position moves each total by what that position gains or loses. */
  lemma {:induction false} TotalUpdate(a: seq<Asset>, i: nat, x: Asset, k: Key)
    requires i < |a|
    ensures Total(a[i := x], k) + a[i].Of(k) == Total(a, k) + x.Of(k)
  {
    if i == 0 {
      assert a[i := x][1..] == a[1..];
    } else {
      assert a[i := x][1..] == a[1..][i - 1 := x];
      TotalUpdate(a[1..], i - 1, x, k);
    }
  }

  lemma {:induction false} TotalMember(a: seq<Asset>, i: nat)
    requires i < |a|
    ensures a[i].Quantity() <= Total(a, a[i].Key())
  {
    if i > 0 {
      TotalMember(a[1..], i - 1);
    }
  }

  /** A message asking the bank or a token contract to move `asset`. */
  datatype Transfer = Transfer(from: Addr, to: Addr, asset: Asset)

  datatype Wallets = Wallets(balance: map<(Addr, Key), nat>, nftOwner: map<Key, Addr>) {
    function Held(who: Addr, k: Key): nat {
      if k.NftKey? then
        if k in nftOwner && nftOwner[k] == who then 1 else 0
      else
        LookupOr(balance, (who, k), 0)
    }

    /** One transfer ordered by the contract `self`. A wallet other than the contract's is
        debited only when its owner approved (`allow`); an NFT leaves whoever owns it, as a
        cw721 contract looks the owner up itself. */
    function Move(self: Addr, allow: bool, t: Transfer): (r: Option<Wallets>)
    {
      var k := t.asset.Key();
      var q := t.asset.Quantity();
      if !t.asset.HasContract() then None
      else if k.NftKey? then
        if k in nftOwner && (nftOwner[k] == self || allow)
        then Some(this.(nftOwner := nftOwner[k := t.to]))
        else None
      else if (t.from != self && !allow) || Held(t.from, k) < q then None
      else
        var debited := this.(balance := balance[(t.from, k) := Held(t.from, k) - q]);
        Some(debited.(balance := debited.balance[(t.to, k) := debited.Held(t.to, k) + q]))
    }

    function MoveAll(self: Addr, allow: bool, ts: seq<Transfer>): Option<Wallets>
      decreases |ts|
    {
      if ts == [] then Some(this)
      else
        match Move(self, allow, ts[0])
        case None => None
        case Some(w) => w.MoveAll(self, allow, ts[1..])
    }
  }

  lemma {:induction false} MoveOne(w: Wallets, self: Addr, allow: bool, t: Transfer)
    ensures w.MoveAll(self, allow, [t]) == w.Move(self, allow, t)
  {
    assert [t][1..] == [];
  }

  /** What a list of transfers says it brings to `self`. */
  function Incoming(self: Addr, ts: seq<Transfer>, k: Key): nat {
    if ts == [] then 0
    else (if ts[0].to == self && ts[0].from != self then ts[0].asset.Of(k) else 0) + Incoming(self, ts[1..], k)
  }

  /** What a list of transfers says it takes from `self`. */
  function Outgoing(self: Addr, ts: seq<Transfer>, k: Key): nat {
    if ts == [] then 0
    else (if ts[0].from == self && ts[0].to != self then ts[0].asset.Of(k) else 0) + Outgoing(self, ts[1..], k)
  }

  lemma {:induction false} OutgoingConcat(self: Addr, a: seq<Transfer>, b: seq<Transfer>, k: Key)
    ensures Outgoing(self, a + b, k) == Outgoing(self, a, k) + Outgoing(self, b, k)
  {
    if a == [] {
      assert a + b == b;
    } else {
      assert (a + b)[1..] == a[1..] + b;
      OutgoingConcat(self, a[1..], b, k);
    }
  }

  lemma {:induction false} MoveAllConcat(w: Wallets, self: Addr, allow: bool, a: seq<Transfer>, b: seq<Transfer>)
    ensures w.MoveAll(self, allow, a + b)
         == match w.MoveAll(self, allow, a) { case None => None case Some(v) => v.MoveAll(self, allow, b) }
    decreases |a|
  {
    if a == [] {
      assert a + b == b;
    } else {
      assert (a + b)[1..] == a[1..] + b;
      match w.Move(self, allow, a[0])
      case None =>
      case Some(v) => MoveAllConcat(v, self, allow, a[1..], b);
    }
  }

  /** Every transfer sends from `self` to somebody else. */
  predicate AllPushes(self: Addr, ts: seq<Transfer>) {
    forall i :: 0 <= i < |ts| ==> ts[i].from == self && ts[i].to != self
  }

  /** Every transfer brings somebody else's asset to `self`. */
  predicate AllPulls(self: Addr, ts: seq<Transfer>) {
    forall i :: 0 <= i < |ts| ==> ts[i].to == self && ts[i].from != self
  }

  ghost predicate Covers(w: Wallets, self: Addr, ts: seq<Transfer>) {
    forall k :: Outgoing(self, ts, k) <= w.Held(self, k)
  }

  /** What a contract sends out it holds no more; of an NFT it cannot lose more than it owns. */
  lemma {:induction false} PushCapped(w: Wallets, self: Addr, allow: bool, ts: seq<Transfer>, k: Key)
    requires AllPushes(self, ts)
    requires w.MoveAll(self, allow, ts).Some?
    ensures w.MoveAll(self, allow, ts).value.Held(self, k)
         == if k.NftKey? && Outgoing(self, ts, k) > w.Held(self, k) then 0 else w.Held(self, k) - Outgoing(self, ts, k)
    decreases |ts|
  {
    if ts != [] {
      PushCapped(w.Move(self, allow, ts[0]).value, self, allow, ts[1..], k);
    }
  }

  /** What a contract sends out of what it holds, it holds no more, to the last unit. */
  lemma {:induction false} PushEffect(w: Wallets, self: Addr, allow: bool, ts: seq<Transfer>, k: Key)
    requires AllPushes(self, ts)
    requires w.MoveAll(self, allow, ts).Some?
    requires k.NftKey? ==> Outgoing(self, ts, k) <= w.Held(self, k)
    ensures w.MoveAll(self, allow, ts).value.Held(self, k) + Outgoing(self, ts, k) == w.Held(self, k)
  {
    PushCapped(w, self, allow, ts, k);
  }

  /** What a list of transfers says it brings to `who`. */
  function Received(who: Addr, ts: seq<Transfer>, k: Key): nat {
    if ts == [] then 0 else (if ts[0].to == who then ts[0].asset.Of(k) else 0) + Received(who, ts[1..], k)
  }

  lemma {:induction false} ReceivedConcat(who: Addr, a: seq<Transfer>, b: seq<Transfer>, k: Key)
    ensures Received(who, a + b, k) == Received(who, a, k) + Received(who, b, k)
  {
    if a == [] {
      assert a + b == b;
    } else {
      assert (a + b)[1..] == a[1..] + b;
      ReceivedConcat(who, a[1..], b, k);
    }
  }

  /** Everybody outside ends up with what the contract's transfers say they bring. */
  lemma {:induction false} PushCredits(w: Wallets, self: Addr, allow: bool, ts: seq<Transfer>, who: Addr, k: Key)
    requires AllPushes(self, ts) && who != self
    requires w.MoveAll(self, allow, ts).Some?
    requires Outgoing(self, ts, k) <= w.Held(self, k)
    ensures w.MoveAll(self, allow, ts).value.Held(who, k) == w.Held(who, k) + Received(who, ts, k)
    decreases |ts|
  {
    if ts != [] {
      var v := w.Move(self, allow, ts[0]).value;
      assert v.Held(self, k) + ts[0].asset.Of(k) == w.Held(self, k);
      PushCredits(v, self, allow, ts[1..], who, k);
    }
  }

  /** Transfers out of the contract succeed whenever together they stay within its holdings. */
  lemma {:induction false} PushSucceeds(w: Wallets, self: Addr, allow: bool, ts: seq<Transfer>)
    requires AllPushes(self, ts)
    requires forall i :: 0 <= i < |ts| ==> ts[i].asset.HasContract()
    requires Covers(w, self, ts)
    ensures w.MoveAll(self, allow, ts).Some?
    decreases |ts|
  {
    if ts != [] {
      assert ts[0].asset.Of(ts[0].asset.Key()) <= Outgoing(self, ts, ts[0].asset.Key());
      var v := w.Move(self, allow, ts[0]).value;
      forall k
        ensures Outgoing(self, ts[1..], k) <= v.Held(self, k)
      {
        assert Outgoing(self, ts, k) <= w.Held(self, k);
        assert v.Held(self, k) + ts[0].asset.Of(k) == w.Held(self, k);
      }
      PushSucceeds(v, self, allow, ts[1..]);
    }
  }

  /** Pulled fungible assets add up; an NFT that the contract already owned, or that is
      pulled twice, is still only one NFT. */
  lemma {:induction false} PullEffect(w: Wallets, self: Addr, allow: bool, ts: seq<Transfer>, k: Key)
    requires AllPulls(self, ts)
    requires w.MoveAll(self, allow, ts).Some?
    ensures var sum := w.Held(self, k) + Incoming(self, ts, k);
            w.MoveAll(self, allow, ts).value.Held(self, k) == if k.NftKey? && sum > 1 then 1 else sum
    decreases |ts|
  {
    if ts != [] {
      var v := w.Move(self, allow, ts[0]).value;
      PullEffect(v, self, allow, ts[1..], k);
    }
  }

  function Sends(self: Addr, to: Addr, assets: seq<Asset>): (ts: seq<Transfer>)
    ensures |ts| == |assets|
    ensures forall i :: 0 <= i < |ts| ==> ts[i] == Transfer(self, to, assets[i])
  {
    if assets == [] then [] else [Transfer(self, to, assets[0])] + Sends(self, to, assets[1..])
  }

  /** The messages paying a list take exactly the list's totals. */
  lemma {:induction false} SendsOutgoing(self: Addr, to: Addr, assets: seq<Asset>, k: Key)
    requires to != self
    ensures Outgoing(self, Sends(self, to, assets), k) == Total(assets, k)
    ensures Incoming(self, Sends(self, to, assets), k) == 0
  {
    if assets != [] {
      SendsOutgoing(self, to, assets[1..], k);
    }
  }

  lemma {:induction false} SendsReceived(self: Addr, to: Addr, assets: seq<Asset>, who: Addr, k: Key)
    ensures Received(who, Sends(self, to, assets), k) == if who == to then Total(assets, k) else 0
  {
    if assets != [] {
      SendsReceived(self, to, assets[1..], who, k);
    }
  }

  /** A payment, left out when there is nothing to pay. */
  function SendSome(self: Addr, to: Addr, a: Asset): seq<Transfer> {
    if a.Quantity() != 0 then [Transfer(self, to, a)] else []
  }

  lemma {:induction false} SendSomeFlow(self: Addr, to: Addr, a: Asset, who: Addr, k: Key)
    requires a.Quantity() != 0 ==> to != self
    ensures AllPushes(self, SendSome(self, to, a))
    ensures Outgoing(self, SendSome(self, to, a), k) == a.Of(k)
    ensures Received(who, SendSome(self, to, a), k) == if who == to then a.Of(k) else 0
  {
    if a.Quantity() != 0 {
      assert [Transfer(self, to, a)][1..] == [];
    }
  }

  // ----- Coins sent along with a message

  datatype Info = Info(sender: Addr, funds: seq<Coin>)

  function Fund(sender: Addr, self: Addr, funds: seq<Coin>): (ts: seq<Transfer>)
    ensures |ts| == |funds|
    ensures forall i :: 0 <= i < |ts| ==> ts[i] == Transfer(sender, self, Native(funds[i]))
  {
    if funds == [] then [] else [Transfer(sender, self, Native(funds[0]))] + Fund(sender, self, funds[1..])
  }

  function Natives(coins: seq<Coin>): seq<Asset> {
    seq(|coins|, i requires 0 <= i < |coins| => Native(coins[i]))
  }

  lemma {:induction false} FundIncoming(sender: Addr, self: Addr, coins: seq<Coin>, k: Key)
    requires sender != self
    ensures Incoming(self, Fund(sender, self, coins), k) == Total(Natives(coins), k)
  {
    if coins != [] {
      assert Natives(coins)[1..] == Natives(coins[1..]);
      FundIncoming(sender, self, coins[1..], k);
    }
  }

  lemma {:induction false} NativesOne(coin: Coin, k: Key)
    ensures Total(Natives([coin]), k) == Native(coin).Of(k)
  {
    assert Natives([coin]) == [Native(coin)];
  }

  lemma {:induction false} StrayOnlyNative(coins: seq<Coin>, k: Key)
    ensures !k.NativeKey? ==> Total(Natives(coins), k) == 0
    ensures (forall i :: 0 <= i < |coins| ==> coins[i].amount == 0) ==> Total(Natives(coins), k) == 0
  {
    if coins != [] {
      assert Natives(coins)[1..] == Natives(coins[1..]);
      StrayOnlyNative(coins[1..], k);
    }
  }

  predicate NoCoins(coins: seq<Coin>) {
    forall i :: 0 <= i < |coins| ==> coins[i].amount == 0
  }

  ghost predicate NoValue(coins: seq<Coin>) {
    forall k :: Total(Natives(coins), k) == 0
  }

  lemma {:induction false} NoCoinsIff(coins: seq<Coin>)
    ensures NoValue(coins) <==> NoCoins(coins)
  {
    if NoCoins(coins) {
      forall k ensures Total(Natives(coins), k) == 0 {
        StrayOnlyNative(coins, k);
      }
    } else {
      var i :| 0 <= i < |coins| && coins[i].amount != 0;
      TotalMember(Natives(coins), i);
      assert Total(Natives(coins), NativeKey(coins[i].denom)) > 0;
    }
  }

  /** The sent coins arrive. */
  lemma {:induction false} Funded(self: Addr, w: Wallets, sender: Addr, funds: seq<Coin>, k: Key)
    requires sender != self
    requires w.MoveAll(self, true, Fund(sender, self, funds)).Some?
    ensures w.MoveAll(self, true, Fund(sender, self, funds)).value.Held(self, k)
         == w.Held(self, k) + Total(Natives(funds), k)
  {
    PullEffect(w, self, true, Fund(sender, self, funds), k);
    FundIncoming(sender, self, funds, k);
    StrayOnlyNative(funds, k);
  }

  /** Paying one coin in costs the payer that coin and nobody else anything. */
  lemma {:induction false} PaidIn(w: Wallets, from: Addr, self: Addr, coin: Coin, who: Addr, k: Key)
    requires from != self && who != self && coin.amount <= w.Held(from, NativeKey(coin.denom))
    ensures w.MoveAll(self, true, Fund(from, self, [coin])).Some?
    ensures var v := w.MoveAll(self, true, Fund(from, self, [coin])).value;
            v.Held(who, k) + (if who == from then Native(coin).Of(k) else 0) == w.Held(who, k)
  {
    assert Fund(from, self, [coin])[1..] == [];
  }

  lemma {:induction false} NothingOutgoing(self: Addr, ts: seq<Transfer>, k: Key)
    requires AllPulls(self, ts)
    ensures Outgoing(self, ts, k) == 0
  {
    if ts != [] {
      NothingOutgoing(self, ts[1..], k);
    }
  }

  lemma {:induction false} NothingIncoming(self: Addr, ts: seq<Transfer>, k: Key)
    requires AllPushes(self, ts)
    ensures Incoming(self, ts, k) == 0
  {
    if ts != [] {
      NothingIncoming(self, ts[1..], k);
    }
  }

  lemma {:induction false} MovedHaveContracts(w: Wallets, self: Addr, allow: bool, ts: seq<Transfer>)
    requires w.MoveAll(self, allow, ts).Some?
    ensures forall i :: 0 <= i < |ts| ==> ts[i].asset.HasContract()
    decreases |ts|
  {
    if ts != [] {
      MovedHaveContracts(w.Move(self, allow, ts[0]).value, self, allow, ts[1..]);
      assert forall i :: 0 < i < |ts| ==> ts[i] == ts[1..][i - 1];
    }
  }

  /** One message to one outsider. */
  lemma {:induction false} OnePush(self: Addr, to: Addr, asset: Asset, k: Key)
    requires to != self
    ensures AllPushes(self, [Transfer(self, to, asset)])
    ensures Outgoing(self, [Transfer(self, to, asset)], k) == asset.Of(k)
    ensures Incoming(self, [Transfer(self, to, asset)], k) == 0
  {
    assert [Transfer(self, to, asset)][1..] == [];
  }
}

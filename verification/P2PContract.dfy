/** The p2p-trading contract as it runs: storage maps reassigned handler by handler, and
    asset lists edited in place. Every handler is proved to make exactly the step that
    P2PSpec gives for it. */
module P2PContract {
  import opened Base
  import opened Ledger
  import opened P2PTypes
  import opened P2PAssets
  import Spec = P2PSpec

  /** The handler answered as specified; a failed handler's writes are the chain's to drop. */
  ghost predicate Matches(spec: Outcome, r: Result<Response, Error>, after: Store) {
    match spec
    case Ok((s, response)) => r == Ok(response) && after == s
    case Err(e) => r == Err(e)
  }

  // ----- Asset lists

  method FindExisting(assets: seq<Asset>, k: Key) returns (r: Option<nat>)
    ensures r == Find(assets, k)
  {
    var i := 0;
    while i < |assets|
      invariant i <= |assets|
      invariant forall j :: 0 <= j < i ==> assets[j].Key() != k
    {
      if assets[i].Key() == k {
        return Some(i);
      }
      i := i + 1;
    }
    return None;
  }

  method AddAssetToInfo(trade: TradeInfo, asset: Asset, funds: seq<Coin>) returns (r: Result<TradeInfo, Error>)
    ensures r == match AddToList(trade.assets, asset, funds)
                 case Ok(assets) => Ok(trade.(assets := assets))
                 case Err(e) => Err(e)
  {
    if asset.Native? && (|funds| != 1 || asset.coin != funds[0]) {
      return Err(Std);
    }
    if asset.Cw721? {
      return Ok(trade.(assets := trade.assets + [asset]));
    }
    var existing := FindExisting(trade.assets, asset.Key());
    match existing
    case Some(i) =>
      return Ok(trade.(assets := trade.assets[i := Grow(trade.assets[i], asset.Quantity())]));
    case None =>
      return Ok(trade.(assets := trade.assets + [asset]));
  }

  method AreAssetsInTrade(trade: TradeInfo, rs: seq<Request>) returns (r: Result<(), Error>)
    ensures r == CheckRequests(trade.assets, rs)
  {
    var n := 0;
    while n < |rs|
      invariant n <= |rs|
      invariant CheckRequests(trade.assets, rs) == CheckRequests(trade.assets, rs[n..])
    {
      var (position, asset) := rs[n];
      assert rs[n..][1..] == rs[n + 1..];
      if position >= |trade.assets| {
        return Err(AssetNotFound(position));
      }
      match trade.assets[position] {
        case Native(fund) =>
          if asset.Native? {
            if fund.denom != asset.coin.denom {
              return Err(AssetNotFound(position));
            }
            if fund.amount < asset.coin.amount {
              return Err(TooMuchWithdrawn(fund.denom, asset.coin.amount, fund.amount));
            }
          }
        case Cw20(address, amount) =>
          if asset.Cw20? {
            if address != asset.address {
              return Err(AssetNotFound(position));
            }
            if amount < asset.amount {
              return Err(TooMuchWithdrawn(address, asset.amount, amount));
            }
          } else {
            return Err(AssetNotFound(position));
          }
        case Cw721(address, tokenId) =>
          if asset.Cw721? {
            if address != asset.address {
              return Err(AssetNotFound(position));
            }
            if tokenId != asset.tokenId {
              return Err(AssetNotFound(position));
            }
          } else {
            return Err(AssetNotFound(position));
          }
        case Cw1155(address, tokenId, value) =>
          if asset.Cw1155? {
            if address != asset.address {
              return Err(AssetNotFound(position));
            }
            if tokenId != asset.tokenId {
              return Err(AssetNotFound(position));
            }
            if value < asset.value {
              return Err(TooMuchWithdrawn(address, asset.value, value));
            }
          } else {
            return Err(AssetNotFound(position));
          }
      }
      n := n + 1;
    }
    return Ok(());
  }

  method TryWithdrawAssetsUnsafe(trade: TradeInfo, rs: seq<Request>) returns (r: Result<TradeInfo, Error>)
    requires InRange(trade.assets, rs)
    ensures r == match TakeAll(trade.assets, rs)
                 case Ok(assets) => Ok(trade.(assets := Retain(assets)))
                 case Err(e) => Err(e)
  {
    var assets := trade.assets;
    var n := 0;
    while n < |rs|
      invariant n <= |rs| && |assets| == |trade.assets|
      invariant TakeAll(trade.assets, rs) == TakeAll(assets, rs[n..])
    {
      var (position, asset) := rs[n];
      assert rs[n..][1..] == rs[n + 1..];
      match assets[position] {
        case Native(fund) =>
          if asset.Native? {
            if fund.amount < asset.coin.amount {
              return Err(Overflow);
            }
            assets := assets[position := Native(Coin(fund.denom, fund.amount - asset.coin.amount))];
          }
        case Cw20(address, amount) =>
          if asset.Cw20? {
            if amount < asset.amount {
              return Err(Overflow);
            }
            assets := assets[position := Cw20(address, amount - asset.amount)];
          }
        case Cw721(_, tokenId) =>
          if asset.Cw721? {
            assets := assets[position := Cw721("", tokenId)];
          }
        case Cw1155(address, tokenId, value) =>
          if asset.Cw1155? {
            if value < asset.value {
              return Err(Overflow);
            }
            assets := assets[position := Cw1155(address, tokenId, value - asset.value)];
          }
      }
      n := n + 1;
    }
    var retained := RetainNonEmpty(assets);
    return Ok(trade.(assets := retained));
  }

  method RetainNonEmpty(assets: seq<Asset>) returns (out: seq<Asset>)
    ensures out == Retain(assets)
  {
    out := [];
    var n := 0;
    while n < |assets|
      invariant n <= |assets|
      invariant Retain(assets) == out + Retain(assets[n..])
    {
      assert assets[n..][1..] == assets[n + 1..];
      var keep :=
        match assets[n]
        case Native(fund) => fund.amount != 0
        case Cw20(_, amount) => amount != 0
        case Cw721(address, _) => address != ""
        case Cw1155(_, _, value) => value != 0;
      if keep {
        out := out + [assets[n]];
      }
      n := n + 1;
    }
  }

  method CreateWithdrawMessagesUnsafe(self: Addr, recipient: Addr, assets: seq<Asset>)
    returns (messages: seq<Transfer>)
    ensures messages == Sends(self, recipient, assets)
  {
    messages := [];
    for n := 0 to |assets|
      invariant |messages| == n && forall i :: 0 <= i < n ==> messages[i] == Transfer(self, recipient, assets[i])
    {
      messages := messages + [Transfer(self, recipient, assets[n])];
    }
    assert messages == Sends(self, recipient, assets);
  }

  method RequestedAssets(rs: seq<Request>) returns (assets: seq<Asset>)
    ensures assets == Requested(rs)
  {
    assets := [];
    for n := 0 to |rs|
      invariant Requested(rs) == assets + Requested(rs[n..])
    {
      assert rs[n..][1..] == rs[n + 1..];
      assets := assets + [rs[n].1];
    }
  }

  method CheckAndCreateWithdrawMessages(self: Addr, recipient: Addr, info: TradeInfo)
    returns (r: Result<seq<Transfer>, Error>)
    ensures r == if info.assetsWithdrawn then Err(TradeAlreadyWithdrawn) else Ok(Sends(self, recipient, info.assets))
  {
    if info.assetsWithdrawn {
      return Err(TradeAlreadyWithdrawn);
    }
    var messages := CreateWithdrawMessagesUnsafe(self, recipient, info.assets);
    return Ok(messages);
  }

  // ----- Storage and handlers

  class Contract {
    const self: Addr
    var admin: Addr
    var feeContract: Option<Addr>
    var lastTradeId: Option<nat>
    var trades: map<nat, TradeInfo>
    var counters: map<CounterKey, TradeInfo>
    var lastUserTrade: map<Addr, nat>
    var lastUserCounter: map<(Addr, nat), nat>

    ghost function Stored(): Store
      reads this
    {
      Store(admin, feeContract, lastTradeId, trades, counters, lastUserTrade, lastUserCounter)
    }

    constructor (self: Addr, admin: Addr)
      ensures this.self == self && Stored() == NewStore(admin)
    {
      this.self := self;
      this.admin := admin;
      feeContract, lastTradeId := None, None;
      trades, counters := map[], map[];
      lastUserTrade, lastUserCounter := map[], map[];
    }

    // --- Loading

    method LoadTrade(t: nat) returns (r: Result<TradeInfo, Error>)
      ensures r == Spec.LoadTrade(Stored(), t)
    {
      if t !in trades {
        return Err(NotFoundInTradeInfo);
      }
      return Ok(trades[t]);
    }

    method IsTrader(sender: Addr, t: nat) returns (r: Result<TradeInfo, Error>)
      ensures r == Spec.IsTrader(Stored(), sender, t)
    {
      var trade :- LoadTrade(t);
      if trade.owner != sender {
        return Err(TraderNotCreator);
      }
      return Ok(trade);
    }

    method LoadCounterTrade(t: nat, c: nat) returns (r: Result<TradeInfo, Error>)
      ensures r == Spec.LoadCounter(Spec.Lazy, Stored(), t, c)
    {
      if (t, c) !in counters {
        return Err(NotFoundInCounterTradeInfo);
      }
      if t !in trades {
        return Err(Std);
      }
      var counter := counters[(t, c)];
      match trades[t].state {
        case Refused => counter := counter.(state := Cancelled);
        case Cancelled => counter := counter.(state := Cancelled);
        case Accepted =>
          if counter.state != Accepted {
            counter := counter.(state := Refused);
          }
        case _ =>
      }
      return Ok(counter);
    }

    method IsCounterTrader(sender: Addr, t: nat, c: nat) returns (r: Result<TradeInfo, Error>)
      ensures r == Spec.IsCounterTrader(Spec.Lazy, Stored(), sender, t, c)
    {
      var counter :- LoadCounterTrade(t, c);
      if counter.owner != sender {
        return Err(CounterTraderNotCreator);
      }
      return Ok(counter);
    }

    method CanModifyTrade(sender: Addr, t: nat) returns (r: Result<TradeInfo, Error>)
      ensures r == Spec.CanModify(Stored(), sender, t)
    {
      var trade :- IsTrader(sender, t);
      if trade.state != Created {
        return Err(WrongTradeState(trade.state));
      }
      return Ok(trade);
    }

    method TradeIdOrLast(sender: Addr, id: Option<nat>) returns (r: Result<nat, Error>)
      ensures r == Spec.TradeIdOrLast(Stored(), sender, id)
    {
      match id
      case Some(t) => return Ok(t);
      case None =>
        if sender !in lastUserTrade {
          return Err(NotFoundInTradeInfo);
        }
        return Ok(lastUserTrade[sender]);
    }

    method CounterIdOrLast(sender: Addr, t: nat, id: Option<nat>) returns (r: Result<nat, Error>)
      ensures r == Spec.CounterIdOrLast(Stored(), sender, t, id)
    {
      match id
      case Some(c) => return Ok(c);
      case None =>
        if (sender, t) !in lastUserCounter {
          return Err(NotFoundInCounterTradeInfo);
        }
        return Ok(lastUserCounter[(sender, t)]);
    }

    // --- Trades

    method CreateTrade(sender: Addr, whitelist: Option<seq<Addr>>, comment: Option<string>)
      returns (r: Result<Response, Error>)
      modifies this
      ensures Matches(Spec.CreateTrade(Spec.Lazy, old(Stored()), sender, whitelist, comment), r, Stored())
    {
      var t := match lastTradeId case None => 0 case Some(n) => n + 1;
      lastTradeId := Some(t);
      if t in trades {
        return Err(ExistsInTradeInfo);
      }
      trades := trades[t := NewTradeInfo(sender)];
      if whitelist.Some? {
        var added := AddWhitelistedUsers(sender, t, whitelist.value);
        assert added.Ok?; // the sender has just created this trade
      }
      lastUserTrade := lastUserTrade[sender := t];
      if comment.Some? {
        var commented := SetComment(sender, t, None, comment.value);
        assert commented.Ok?;
      }
      return Ok(Silent());
    }

    method AddWhitelistedUsers(sender: Addr, t: nat, users: seq<Addr>) returns (r: Result<Response, Error>)
      modifies this
      ensures Matches(Spec.Quiet(Spec.AddWhitelistedUsers(old(Stored()), sender, t, users)), r, Stored())
    {
      var trade :- CanModifyTrade(sender, t);
      trade := trade.(whitelistedUsers := trade.whitelistedUsers + set u | u in users);
      trades := trades[t := trade];
      return Ok(Silent());
    }

    method RemoveWhitelistedUsers(sender: Addr, t: nat, users: seq<Addr>) returns (r: Result<Response, Error>)
      modifies this
      ensures Matches(Spec.Quiet(Spec.RemoveWhitelistedUsers(old(Stored()), sender, t, users)), r, Stored())
    {
      var trade :- CanModifyTrade(sender, t);
      var whitelist := trade.whitelistedUsers;
      for n := 0 to |users|
        invariant whitelist == trade.whitelistedUsers - set u | u in users[..n]
      {
        assert users[..n + 1] == users[..n] + [users[n]];
        whitelist := whitelist - {users[n]};
      }
      assert users[..|users|] == users;
      trades := trades[t := trade.(whitelistedUsers := whitelist)];
      return Ok(Silent());
    }

    method AddAssetToTrade(info: Info, id: Option<nat>, asset: Asset) returns (r: Result<Response, Error>)
      modifies this
      ensures Matches(Spec.AddToTrade(self, old(Stored()), info, id, asset), r, Stored())
    {
      var t :- TradeIdOrLast(info.sender, id);
      var trade :- CanModifyTrade(info.sender, t);
      var updated :- AddAssetToInfo(trade, asset, info.funds);
      trades := trades[t := updated];
      return Ok(Spec.Receive(self, info.sender, asset));
    }

    method WithdrawTradeAssetsWhileCreating(sender: Addr, t: nat, rs: seq<Request>)
      returns (r: Result<Response, Error>)
      modifies this
      ensures Matches(Spec.RemoveFromTrade(self, old(Stored()), sender, t, rs), r, Stored())
    {
      var trade :- IsTrader(sender, t);
      if trade.state != Created {
        return Err(TradeAlreadyPublished);
      }
      var _ :- AreAssetsInTrade(trade, rs);
      CheckedInRange(trade.assets, rs);
      trade :- TryWithdrawAssetsUnsafe(trade, rs);
      trades := trades[t := trade];
      var assets := RequestedAssets(rs);
      var messages := CreateWithdrawMessagesUnsafe(self, sender, assets);
      return Ok(Response(messages, NoPayout));
    }

    method ConfirmTrade(sender: Addr, id: Option<nat>) returns (r: Result<Response, Error>)
      modifies this
      ensures Matches(Spec.ConfirmTrade(old(Stored()), sender, id), r, Stored())
    {
      var t :- TradeIdOrLast(sender, id);
      var trade :- IsTrader(sender, t);
      if trade.state != Created {
        return Err(CantChangeTradeState(trade.state, Published));
      }
      trade := trade.(state := Published);
      trades := trades[t := trade];
      return Ok(Silent());
    }

    method AcceptTrade(sender: Addr, t: nat, c: nat, comment: Option<string>) returns (r: Result<Response, Error>)
      modifies this
      ensures Matches(Spec.AcceptTrade(Spec.Lazy, old(Stored()), sender, t, c, comment), r, Stored())
    {
      var trade :- IsTrader(sender, t);
      var counter :- LoadCounterTrade(t, c);
      if trade.state != Countered {
        return Err(CantChangeTradeState(trade.state, Accepted));
      }
      if counter.state != Published {
        return Err(CantAcceptNotPublishedCounter);
      }
      trade := trade.(state := Accepted, acceptedInfo := Some((t, c)));
      trades := trades[t := trade];
      counter := counter.(traderComment := comment);
      counter := counter.(state := Accepted);
      counters := counters[(t, c) := counter];
      return Ok(Silent());
    }

    method RefuseCounterTrade(sender: Addr, t: nat, c: nat) returns (r: Result<Response, Error>)
      modifies this
      ensures Matches(Spec.RefuseCounterTrade(Spec.Lazy, old(Stored()), sender, t, c), r, Stored())
    {
      var trade :- IsTrader(sender, t);
      var counter :- LoadCounterTrade(t, c);
      if trade.state == Accepted {
        return Err(TradeAlreadyAccepted);
      }
      if trade.state == Cancelled {
        return Err(TradeCancelled);
      }
      counter := counter.(state := Refused);
      counters := counters[(t, c) := counter];
      return Ok(Silent());
    }

    method CancelTrade(sender: Addr, t: nat) returns (r: Result<Response, Error>)
      modifies this
      ensures Matches(Spec.CancelTrade(Spec.Lazy, old(Stored()), sender, t), r, Stored())
    {
      var trade :- IsTrader(sender, t);
      if trade.state == Accepted {
        return Err(CantChangeTradeState(trade.state, Cancelled));
      }
      trade := trade.(state := Cancelled);
      trades := trades[t := trade];
      return Ok(Silent());
    }

    method WithdrawAllFromTrade(sender: Addr, t: nat) returns (r: Result<Response, Error>)
      modifies this
      ensures Matches(Spec.WithdrawAllFromTrade(self, old(Stored()), sender, t), r, Stored())
    {
      var trade :- IsTrader(sender, t);
      if trade.state == Created {
        trade := trade.(state := Cancelled);
      }
      if trade.state != Cancelled {
        return Err(TradeNotCancelled);
      }
      var messages :- CheckAndCreateWithdrawMessages(self, sender, trade);
      trade := trade.(assetsWithdrawn := true);
      trades := trades[t := trade];
      return Ok(Response(messages, TradePaid(t, sender)));
    }

    // --- Counter-trades

    method SuggestCounterTrade(sender: Addr, t: nat, comment: Option<string>) returns (r: Result<Response, Error>)
      modifies this
      ensures Matches(Spec.SuggestCounterTrade(Spec.Lazy, old(Stored()), sender, t, comment), r, Stored())
    {
      var trade :- LoadTrade(t);
      if !(trade.state == Published || trade.state == Countered) {
        return Err(NotCounterable);
      }
      if trade.whitelistedUsers != {} && sender !in trade.whitelistedUsers {
        return Err(AddressNotWhitelisted);
      }
      var c := match trade.lastCounterId case None => 0 case Some(n) => n + 1;
      trade := trade.(lastCounterId := Some(c));
      if trade.state == Published {
        trade := trade.(state := Countered);
      }
      trades := trades[t := trade];
      if (t, c) in counters {
        return Err(ExistsInCounterTradeInfo);
      }
      counters := counters[(t, c) := NewTradeInfo(sender)];
      lastUserCounter := lastUserCounter[(sender, t) := c];
      if comment.Some? {
        var commented := SetComment(sender, t, Some(c), comment.value);
        assert commented.Ok?; // the sender has just created this counter-trade
      }
      return Ok(Silent());
    }

    method AddAssetToCounterTrade(info: Info, t: nat, id: Option<nat>, asset: Asset) returns (r: Result<Response, Error>)
      modifies this
      ensures Matches(Spec.AddToCounter(Spec.Lazy, self, old(Stored()), info, t, id, asset), r, Stored())
    {
      var c :- CounterIdOrLast(info.sender, t, id);
      var counter :- IsCounterTrader(info.sender, t, c);
      if counter.state != Created {
        return Err(WrongTradeState(counter.state));
      }
      var updated :- AddAssetToInfo(counters[(t, c)], asset, info.funds);
      counters := counters[(t, c) := updated];
      var _ :- LoadTrade(t);
      return Ok(Spec.Receive(self, info.sender, asset));
    }

    method WithdrawCounterTradeAssetsWhileCreating(sender: Addr, t: nat, c: nat, rs: seq<Request>)
      returns (r: Result<Response, Error>)
      modifies this
      ensures Matches(Spec.RemoveFromCounter(Spec.Lazy, self, old(Stored()), sender, t, c, rs), r, Stored())
    {
      var counter :- IsCounterTrader(sender, t, c);
      if counter.state != Created {
        return Err(CounterTradeAlreadyPublished);
      }
      var _ :- AreAssetsInTrade(counter, rs);
      CheckedInRange(counter.assets, rs);
      counter :- TryWithdrawAssetsUnsafe(counter, rs);
      counters := counters[(t, c) := counter];
      var assets := RequestedAssets(rs);
      var messages := CreateWithdrawMessagesUnsafe(self, sender, assets);
      var _ :- LoadTrade(t);
      return Ok(Response(messages, NoPayout));
    }

    method ConfirmCounterTrade(sender: Addr, t: nat, id: Option<nat>) returns (r: Result<Response, Error>)
      modifies this
      ensures Matches(Spec.ConfirmCounterTrade(Spec.Lazy, old(Stored()), sender, t, id), r, Stored())
    {
      var c :- CounterIdOrLast(sender, t, id);
      var counter :- IsCounterTrader(sender, t, c);
      if counter.state != Created {
        return Err(CantChangeCounterTradeState(counter.state, Published));
      }
      counter := counter.(state := Published);
      counters := counters[(t, c) := counter];
      var _ :- LoadTrade(t);
      return Ok(Silent());
    }

    method CancelCounterTrade(sender: Addr, t: nat, c: nat) returns (r: Result<Response, Error>)
      modifies this
      ensures Matches(Spec.CancelCounterTrade(Spec.Lazy, old(Stored()), sender, t, c), r, Stored())
    {
      var counter :- IsCounterTrader(sender, t, c);
      if counter.state == Accepted {
        return Err(CantChangeCounterTradeState(counter.state, Cancelled));
      }
      counter := counter.(state := Cancelled);
      counters := counters[(t, c) := counter];
      var _ :- LoadTrade(t);
      return Ok(Silent());
    }

    method WithdrawAllFromCounter(sender: Addr, t: nat, c: nat) returns (r: Result<Response, Error>)
      modifies this
      ensures Matches(Spec.WithdrawAllFromCounter(Spec.Lazy, self, old(Stored()), sender, t, c), r, Stored())
    {
      var counter :- IsCounterTrader(sender, t, c);
      if counter.state == Created {
        counter := counter.(state := Cancelled);
      }
      if !(counter.state == Refused || counter.state == Cancelled) {
        return Err(CounterTradeNotAborted);
      }
      var messages :- CheckAndCreateWithdrawMessages(self, sender, counter);
      counter := counter.(assetsWithdrawn := true);
      counters := counters[(t, c) := counter];
      var _ :- LoadTrade(t);
      return Ok(Response(messages, CounterPaid((t, c), sender)));
    }

    method ReviewCounterTrade(sender: Addr, t: nat, c: nat, comment: Option<string>) returns (r: Result<Response, Error>)
      modifies this
      ensures Matches(Spec.ReviewCounterTrade(Spec.Lazy, old(Stored()), sender, t, c, comment), r, Stored())
    {
      var trade :- IsTrader(sender, t);
      var counter :- LoadCounterTrade(t, c);
      if trade.state == Accepted {
        return Err(TradeAlreadyAccepted);
      }
      if trade.state == Cancelled {
        return Err(TradeCancelled);
      }
      if counter.state != Published {
        return Err(CantChangeCounterTradeState(counter.state, Created));
      }
      counter := counter.(state := Created);
      counter := counter.(traderComment := comment);
      trades := trades[t := trade];
      counters := counters[(t, c) := counter];
      return Ok(Silent());
    }

    method SetComment(sender: Addr, t: nat, c: Option<nat>, comment: string) returns (r: Result<Response, Error>)
      modifies this
      ensures Matches(Spec.Quiet(Spec.SetComment(Spec.Lazy, old(Stored()), sender, t, c, comment)), r, Stored())
    {
      match c {
        case Some(c) =>
          var counter :- IsCounterTrader(sender, t, c);
          counter := counter.(ownerComment := Some(comment));
          counters := counters[(t, c) := counter];
        case None =>
          var trade :- IsTrader(sender, t);
          trade := trade.(ownerComment := Some(comment));
          trades := trades[t := trade];
      }
      return Ok(Silent());
    }

    // --- Settlement, administration, dispatch

    method WithdrawAcceptedFunds(sender: Addr, trader: Addr, t: nat) returns (r: Result<Response, Error>)
      modifies this
      ensures Matches(Spec.WithdrawAcceptedFunds(Spec.Lazy, self, old(Stored()), sender, trader, t), r, Stored())
    {
      if feeContract != Some(sender) {
        return Err(Unauthorized);
      }
      var trade :- LoadTrade(t);
      if trade.state != Accepted {
        return Err(TradeNotAccepted);
      }
      if trade.acceptedInfo.None? {
        return Err(ContractBug);
      }
      var c := trade.acceptedInfo.value.1;
      var counter :- LoadCounterTrade(t, c);
      if trade.owner == trader {
        var messages :- CheckAndCreateWithdrawMessages(self, trader, counter);
        counter := counter.(assetsWithdrawn := true);
        counters := counters[(t, c) := counter];
        return Ok(Response(messages, CounterPaid((t, c), trader)));
      } else if counter.owner == trader {
        var messages :- CheckAndCreateWithdrawMessages(self, trader, trade);
        trade := trade.(assetsWithdrawn := true);
        trades := trades[t := trade];
        return Ok(Response(messages, TradePaid(t, trader)));
      } else {
        return Err(NotWithdrawableByYou);
      }
    }

    method SetNewOwner(sender: Addr, owner: Addr) returns (r: Result<Response, Error>)
      modifies this
      ensures Matches(Spec.SetNewOwner(old(Stored()), sender, owner), r, Stored())
    {
      if sender != admin {
        return Err(Unauthorized);
      }
      admin := owner;
      return Ok(Silent());
    }

    method SetNewFeeContract(sender: Addr, newFeeContract: Addr) returns (r: Result<Response, Error>)
      modifies this
      ensures Matches(Spec.SetNewFeeContract(old(Stored()), sender, newFeeContract), r, Stored())
    {
      if sender != admin {
        return Err(Unauthorized);
      }
      feeContract := Some(newFeeContract);
      return Ok(Silent());
    }

    method ExecuteTradeMsg(info: Info, msg: ExecuteMsg) returns (r: Result<Response, Error>)
      requires msg.CreateTradeMsg? || msg.AddWhitelistedUsersMsg? || msg.RemoveWhitelistedUsersMsg? || msg.ConfirmTradeMsg?
               || msg.AcceptTradeMsg? || msg.CancelTradeMsg? || msg.WithdrawAllFromTradeMsg?
      modifies this
      ensures Matches(Spec.Step(Spec.Lazy, self, old(Stored()), info, msg), r, Stored())
    {
      match msg {
        case CreateTradeMsg(whitelist, comment) => r := CreateTrade(info.sender, whitelist, comment);
        case AddWhitelistedUsersMsg(t, users) => r := AddWhitelistedUsers(info.sender, t, users);
        case RemoveWhitelistedUsersMsg(t, users) => r := RemoveWhitelistedUsers(info.sender, t, users);
        case ConfirmTradeMsg(id) => r := ConfirmTrade(info.sender, id);
        case AcceptTradeMsg(t, c, comment) => r := AcceptTrade(info.sender, t, c, comment);
        case CancelTradeMsg(t) => r := CancelTrade(info.sender, t);
        case WithdrawAllFromTradeMsg(t) => r := WithdrawAllFromTrade(info.sender, t);
      }
    }

    method ExecuteCounterMsg(info: Info, msg: ExecuteMsg) returns (r: Result<Response, Error>)
      requires msg.SuggestCounterTradeMsg? || msg.ConfirmCounterTradeMsg? || msg.CancelCounterTradeMsg?
               || msg.RefuseCounterTradeMsg? || msg.ReviewCounterTradeMsg? || msg.WithdrawAllFromCounterMsg?
      modifies this
      ensures Matches(Spec.Step(Spec.Lazy, self, old(Stored()), info, msg), r, Stored())
    {
      match msg {
        case SuggestCounterTradeMsg(t, comment) => r := SuggestCounterTrade(info.sender, t, comment);
        case ConfirmCounterTradeMsg(t, c) => r := ConfirmCounterTrade(info.sender, t, c);
        case CancelCounterTradeMsg(t, c) => r := CancelCounterTrade(info.sender, t, c);
        case RefuseCounterTradeMsg(t, c) => r := RefuseCounterTrade(info.sender, t, c);
        case ReviewCounterTradeMsg(t, c, comment) => r := ReviewCounterTrade(info.sender, t, c, comment);
        case WithdrawAllFromCounterMsg(t, c) => r := WithdrawAllFromCounter(info.sender, t, c);
      }
    }

    method AddAsset(info: Info, action: AddAssetAction, asset: Asset) returns (r: Result<Response, Error>)
      modifies this
      ensures Matches(Spec.Step(Spec.Lazy, self, old(Stored()), info, AddAssetMsg(action, asset)), r, Stored())
    {
      match action {
        case ToLastTrade => r := AddAssetToTrade(info, None, asset);
        case ToTrade(t) => r := AddAssetToTrade(info, Some(t), asset);
        case ToLastCounterTrade(t) => r := AddAssetToCounterTrade(info, t, None, asset);
        case ToCounterTrade(t, c) => r := AddAssetToCounterTrade(info, t, Some(c), asset);
      }
    }

    method WithdrawAssetsWhileCreating(sender: Addr, t: nat, c: Option<nat>, rs: seq<Request>)
      returns (r: Result<Response, Error>)
      modifies this
      ensures Matches(match c
                      case Some(c) => Spec.RemoveFromCounter(Spec.Lazy, self, old(Stored()), sender, t, c, rs)
                      case None => Spec.RemoveFromTrade(self, old(Stored()), sender, t, rs), r, Stored())
    {
      match c
      case Some(c) => r := WithdrawCounterTradeAssetsWhileCreating(sender, t, c, rs);
      case None => r := WithdrawTradeAssetsWhileCreating(sender, t, rs);
    }

    method Dispatch(info: Info, msg: ExecuteMsg) returns (r: Result<Response, Error>)
      modifies this
      ensures Matches(Spec.Step(Spec.Lazy, self, old(Stored()), info, msg), r, Stored())
    {
      match msg {
        case AddAssetMsg(action, asset) => r := AddAsset(info, action, asset);
        case RemoveAssetsMsg(t, c, rs) => r := WithdrawAssetsWhileCreating(info.sender, t, c, rs);
        case SetCommentMsg(t, c, comment) => r := SetComment(info.sender, t, c, comment);
        case WithdrawPendingAssetsMsg(trader, t) => r := WithdrawAcceptedFunds(info.sender, trader, t);
        case SetNewOwnerMsg(owner) => r := SetNewOwner(info.sender, owner);
        case SetNewFeeContractMsg(fee) => r := SetNewFeeContract(info.sender, fee);
        case SuggestCounterTradeMsg(_, _) => r := ExecuteCounterMsg(info, msg);
        case ConfirmCounterTradeMsg(_, _) => r := ExecuteCounterMsg(info, msg);
        case CancelCounterTradeMsg(_, _) => r := ExecuteCounterMsg(info, msg);
        case RefuseCounterTradeMsg(_, _) => r := ExecuteCounterMsg(info, msg);
        case ReviewCounterTradeMsg(_, _, _) => r := ExecuteCounterMsg(info, msg);
        case WithdrawAllFromCounterMsg(_, _) => r := ExecuteCounterMsg(info, msg);
        case _ => r := ExecuteTradeMsg(info, msg);
      }
    }

    /** One message: the chain keeps a failed handler's writes from being seen. */
    method Execute(info: Info, msg: ExecuteMsg) returns (r: Result<Response, Error>)
      modifies this
      ensures Matches(Spec.Step(Spec.Lazy, self, old(Stored()), info, msg), r, Stored())
      ensures r.Err? ==> Stored() == old(Stored())
    {
      var admin0, fee0, last0, trades0, counters0 := admin, feeContract, lastTradeId, trades, counters;
      var lastTrade0, lastCounter0 := lastUserTrade, lastUserCounter;
      r := Dispatch(info, msg);
      if r.Err? {
        admin, feeContract, lastTradeId, trades, counters := admin0, fee0, last0, trades0, counters0;
        lastUserTrade, lastUserCounter := lastTrade0, lastCounter0;
      }
    }
  }
}

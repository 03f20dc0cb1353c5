/** The fee distributor as it runs: the crediting loop, the withdrawal loop and the records
    they change, each proved to make the step FeeDistributor gives. */
module FeeDistributorContract {
  import opened Base
  import opened Ledger
  import opened FeeDistributor

  /** The handler answered as specified; a failed handler's writes are the chain's to drop. */
  ghost predicate Matches(spec: Outcome, r: Result<seq<Transfer>, Error>, after: Store) {
    match spec
    case Ok((s, messages)) => r == Ok(messages) && after == s
    case Err(e) => r == Err(e)
  }

  lemma {:induction false} AddCoinAt(coins: seq<Coin>, c: Coin, i: nat)
    requires i <= |coins| && forall j :: 0 <= j < i ==> coins[j].denom != c.denom
    requires i < |coins| ==> coins[i].denom == c.denom
    ensures AddCoin(coins, c)
         == if i < |coins| then coins[i := Coin(c.denom, coins[i].amount + c.amount)] else coins + [c]
  {
    if i > 0 {
      AddCoinAt(coins[1..], c, i - 1);
      assert coins == [coins[0]] + coins[1..];
    }
  }

  /** Finds the coin's denomination in the list, or appends it. */
  method MergeCoin(coins: seq<Coin>, c: Coin) returns (merged: seq<Coin>)
    ensures merged == AddCoin(coins, c)
  {
    var i := 0;
    while i < |coins| && coins[i].denom != c.denom
      invariant i <= |coins|
      invariant forall j :: 0 <= j < i ==> coins[j].denom != c.denom
    {
      i := i + 1;
    }
    AddCoinAt(coins, c, i);
    if i < |coins| {
      merged := coins[i := Coin(c.denom, coins[i].amount + c.amount)];
    } else {
      merged := coins + [c];
    }
  }

  method RemoveRepeats(addresses: seq<Addr>) returns (unique: seq<Addr>)
    ensures unique == Unique(addresses)
  {
    unique := [];
    for i := 0 to |addresses|
      invariant unique == Unique(addresses[..i])
    {
      assert addresses[..i + 1][..i] == addresses[..i];
      if addresses[i] !in addresses[..i] {
        unique := unique + [addresses[i]];
      }
    }
    assert addresses[..|addresses|] == addresses;
  }

  method SendCoins(self: Addr, to: Addr, coins: seq<Coin>) returns (messages: seq<Transfer>)
    ensures messages == Sends(self, to, Natives(coins))
  {
    messages := [];
    for i := 0 to |coins|
      invariant |messages| == i && forall j :: 0 <= j < i ==> messages[j] == Transfer(self, to, Native(coins[j]))
    {
      messages := messages + [Transfer(self, to, Native(coins[i]))];
    }
    assert messages == Sends(self, to, Natives(coins));
  }

  class Contract {
    const self: Addr
    var owner: Addr
    var treasury: Addr
    var fundsShare: nat
    var assetsShare: nat
    var accounts: map<Addr, seq<Coin>>
    var feeAddress: map<Addr, Addr>

    function Stored(): Store
      reads this
    {
      Store(owner, treasury, fundsShare, assetsShare, accounts, feeAddress)
    }

    constructor (self: Addr, owner: Addr, treasury: Addr)
      ensures this.self == self && Stored() == Instantiate(owner, treasury)
    {
      this.self, this.owner, this.treasury := self, owner, treasury;
      fundsShare, assetsShare := PROJECTS_ALLOCATION_FOR_FUNDS_FEE, PROJECTS_ALLOCATION_FOR_ASSETS_FEE;
      accounts, feeAddress := map[], map[];
    }

    method CreditAddresses(addresses: seq<Addr>, c: Coin)
      modifies `accounts
      ensures accounts == CreditAll(old(accounts), addresses, c)
    {
      var i := 0;
      while i < |addresses|
        invariant i <= |addresses|
        invariant CreditAll(accounts, addresses[i..], c) == CreditAll(old(accounts), addresses, c)
      {
        assert addresses[i..][1..] == addresses[i + 1..];
        var address := addresses[i];
        if address in accounts {
          var merged := MergeCoin(accounts[address], c);
          accounts := accounts[address := merged];
        } else {
          accounts := accounts[address := [c]];
        }
        i := i + 1;
      }
    }

    method WithdrawRegistered(addresses: seq<Addr>) returns (messages: seq<Transfer>)
      modifies `accounts
      ensures (Stored(), messages) == WithdrawEach(self, old(Stored()), Unique(addresses))
    {
      messages := [];
      var unique := RemoveRepeats(addresses);
      ghost var start := Stored();
      ghost var all := WithdrawEach(self, start, unique);
      assert unique[0..] == unique;
      var i := 0;
      while i < |unique|
        invariant i <= |unique|
        invariant feeAddress == old(feeAddress)
        invariant all.0 == WithdrawEach(self, Stored(), unique[i..]).0
        invariant all.1 == messages + WithdrawEach(self, Stored(), unique[i..]).1
      {
        assert unique[i..][1..] == unique[i + 1..];
        var address := unique[i];
        if address in accounts && address in feeAddress {
          var sent := SendCoins(self, feeAddress[address], accounts[address]);
          ghost var tail := WithdrawEach(self, Stored().(accounts := accounts[address := []]), unique[i + 1..]).1;
          assert messages + (sent + tail) == (messages + sent) + tail;
          messages := messages + sent;
          accounts := accounts[address := []];
        }
        i := i + 1;
      }
      assert unique[i..] == [];
      assert messages + [] == messages;
    }

    method Deposit(info: Info, addresses: seq<Addr>, feeType: FeeType) returns (r: Result<seq<Transfer>, Error>)
      modifies this
      ensures Matches(DepositFees(self, old(Stored()), info, addresses, feeType), r, Stored())
    {
      if |info.funds| != 1 {
        return Err(DepositNotCorrect);
      }
      var fund := info.funds[0];
      var share := assetsShare;
      if feeType == FundsFee {
        share := fundsShare;
      }
      var each := EachShare(fund.amount, share, |addresses|);
      if each * |addresses| > fund.amount {
        return Err(Panic);
      }
      var rest := fund.amount - each * |addresses|;
      CreditAddresses(addresses, Coin(fund.denom, each));
      var withdrawn := [];
      if addresses != [] {
        withdrawn := WithdrawRegistered(addresses);
      }
      return Ok([Transfer(self, treasury, Native(Coin(fund.denom, rest)))] + withdrawn);
    }

    method Withdraw(addresses: seq<Addr>) returns (r: Result<seq<Transfer>, Error>)
      modifies this
      ensures Matches(WithdrawFees(self, old(Stored()), addresses), r, Stored())
    {
      var messages := WithdrawRegistered(addresses);
      return Ok(messages);
    }

    method Modify(sender: Addr, newOwner: Option<Addr>, newTreasury: Option<Addr>, newAssets: Option<nat>, newFunds: Option<nat>)
      returns (r: Result<seq<Transfer>, Error>)
      modifies this
      ensures Matches(ModifyContractInfo(old(Stored()), sender, newOwner, newTreasury, newAssets, newFunds), r, Stored())
    {
      if sender != owner {
        return Err(Unauthorized);
      }
      owner := Or(newOwner, owner);
      treasury := Or(newTreasury, treasury);
      assetsShare := Or(newAssets, assetsShare);
      fundsShare := Or(newFunds, fundsShare);
      if fundsShare > PROJECT_ALLOCATION_MAX_PERCENTAGE {
        return Err(AllocationTooHigh);
      }
      if assetsShare > PROJECT_ALLOCATION_MAX_PERCENTAGE {
        return Err(AllocationTooHigh);
      }
      return Ok([]);
    }

    method Associate(sender: Addr, address: Addr, newFeeAddress: Addr) returns (r: Result<seq<Transfer>, Error>)
      modifies this
      ensures Matches(AddAssociatedAddress(old(Stored()), sender, address, newFeeAddress), r, Stored())
    {
      if sender != owner {
        if address !in feeAddress {
          return Err(Std);
        }
        if feeAddress[address] != newFeeAddress {
          return Err(Unauthorized);
        }
      }
      feeAddress := feeAddress[address := newFeeAddress];
      return Ok([]);
    }

    method Dispatch(info: Info, msg: ExecuteMsg) returns (r: Result<seq<Transfer>, Error>)
      modifies this
      ensures Matches(Step(self, old(Stored()), info, msg), r, Stored())
    {
      match msg {
        case ModifyContractInfoMsg(newOwner, newTreasury, newAssets, newFunds) =>
          r := Modify(info.sender, newOwner, newTreasury, newAssets, newFunds);
        case AddAssociatedAddressMsg(address, newFeeAddress) => r := Associate(info.sender, address, newFeeAddress);
        case DepositFeesMsg(addresses, feeType) => r := Deposit(info, addresses, feeType);
        case WithdrawFeesMsg(addresses) => r := Withdraw(addresses);
      }
    }

    /** One message: the chain keeps a failed handler's writes from being seen. */
    method Execute(info: Info, msg: ExecuteMsg) returns (r: Result<seq<Transfer>, Error>)
      modifies this
      ensures Matches(Step(self, old(Stored()), info, msg), r, Stored())
      ensures r.Err? ==> Stored() == old(Stored())
    {
      var before := Stored();
      r := Dispatch(info, msg);
      if r.Err? {
        owner, treasury, fundsShare, assetsShare := before.owner, before.treasury, before.fundsShare, before.assetsShare;
        accounts, feeAddress := before.accounts, before.feeAddress;
      }
    }
  }
}

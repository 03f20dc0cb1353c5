/** The fee distributor: deposited fees are split between a treasury and the accounts of the
    collections involved (contracts/fee_distributor/src/contract.rs). */
module FeeDistributor {
  import opened Base
  import opened Ledger

  const PROJECTS_ALLOCATION_FOR_ASSETS_FEE: nat := 600
  const PROJECTS_ALLOCATION_FOR_FUNDS_FEE: nat := 666
  const PROJECT_ALLOCATION_MAX_PERCENTAGE: nat := 1000

  datatype FeeType = AssetsFee | FundsFee

  /** `accounts` is ALLOCATED_FUNDS, `feeAddress` is ASSOCIATED_FEE_ADDRESS. */
  datatype Store = Store(
    owner: Addr,
    treasury: Addr,
    fundsShare: nat,
    assetsShare: nat,
    accounts: map<Addr, seq<Coin>>,
    feeAddress: map<Addr, Addr>)

  datatype Error = Std | Panic | Unauthorized | DepositNotCorrect | AllocationTooHigh

  datatype ExecuteMsg =
    | ModifyContractInfoMsg(owner: Option<Addr>, treasury: Option<Addr>, assetsShare: Option<nat>, fundsShare: Option<nat>)
    | AddAssociatedAddressMsg(address: Addr, newFeeAddress: Addr)
    | DepositFeesMsg(addresses: seq<Addr>, feeType: FeeType)
    | WithdrawFeesMsg(addresses: seq<Addr>)

  type Outcome = Result<(Store, seq<Transfer>), Error>

  // ----- Accounts

  /** A coin joins its own denomination, or the end of the list. */
  function AddCoin(coins: seq<Coin>, c: Coin): seq<Coin> {
    if coins == [] then [c]
    else if coins[0].denom == c.denom then [Coin(c.denom, coins[0].amount + c.amount)] + coins[1..]
    else [coins[0]] + AddCoin(coins[1..], c)
  }

  function Credit(accounts: map<Addr, seq<Coin>>, a: Addr, c: Coin): map<Addr, seq<Coin>> {
    accounts[a := if a in accounts then AddCoin(accounts[a], c) else [c]]
  }

  function CreditAll(accounts: map<Addr, seq<Coin>>, addresses: seq<Addr>, c: Coin): map<Addr, seq<Coin>>
    decreases |addresses|
  {
    if addresses == [] then accounts else CreditAll(Credit(accounts, addresses[0], c), addresses[1..], c)
  }

  /** First occurrences, in order. */
  function Unique(addresses: seq<Addr>): seq<Addr> {
    if addresses == [] then []
    else
      var front := Unique(addresses[..|addresses| - 1]);
      var last := addresses[|addresses| - 1];
      if last in addresses[..|addresses| - 1] then front else front + [last]
  }

  /** Pays out the accounts that have a fee address registered, and clears them. */
  function WithdrawEach(self: Addr, s: Store, addresses: seq<Addr>): (Store, seq<Transfer>)
    decreases |addresses|
  {
    if addresses == [] then (s, [])
    else
      var a := addresses[0];
      if a in s.accounts && a in s.feeAddress then
        var (s1, rest) := WithdrawEach(self, s.(accounts := s.accounts[a := []]), addresses[1..]);
        (s1, Sends(self, s.feeAddress[a], Natives(s.accounts[a])) + rest)
      else WithdrawEach(self, s, addresses[1..])
  }

  // ----- Messages

  function EachShare(amount: nat, p: nat, n: nat): nat {
    if n > 0 then amount * p / PROJECT_ALLOCATION_MAX_PERCENTAGE / n else 0
  }

  function DepositFees(self: Addr, s: Store, info: Info, addresses: seq<Addr>, feeType: FeeType): Outcome {
    if |info.funds| != 1 then Err(DepositNotCorrect)
    else
      var fund := info.funds[0];
      var p := if feeType == FundsFee then s.fundsShare else s.assetsShare;
      var each := EachShare(fund.amount, p, |addresses|);
      if each * |addresses| > fund.amount then Err(Panic)
      else
        var treasury := Coin(fund.denom, fund.amount - each * |addresses|);
        var s1 := s.(accounts := CreditAll(s.accounts, addresses, Coin(fund.denom, each)));
        var (s2, paid) := WithdrawEach(self, s1, Unique(addresses));
        Ok((s2, [Transfer(self, s.treasury, Native(treasury))] + paid))
  }

  function WithdrawFees(self: Addr, s: Store, addresses: seq<Addr>): Outcome {
    Ok(WithdrawEach(self, s, Unique(addresses)))
  }

  function ModifyContractInfo(s: Store, sender: Addr, owner: Option<Addr>, treasury: Option<Addr>,
                              assetsShare: Option<nat>, fundsShare: Option<nat>): Outcome {
    if sender != s.owner then Err(Unauthorized)
    else
      var s1 := s.(owner := Or(owner, s.owner), treasury := Or(treasury, s.treasury),
                   assetsShare := Or(assetsShare, s.assetsShare), fundsShare := Or(fundsShare, s.fundsShare));
      if s1.fundsShare > PROJECT_ALLOCATION_MAX_PERCENTAGE || s1.assetsShare > PROJECT_ALLOCATION_MAX_PERCENTAGE
      then Err(AllocationTooHigh)
      else Ok((s1, []))
  }

  /** The administrator may set any fee address; anybody may save again the one stored. */
  function AddAssociatedAddress(s: Store, sender: Addr, address: Addr, newFeeAddress: Addr): Outcome {
    if sender != s.owner && address !in s.feeAddress then Err(Std)
    else if sender != s.owner && s.feeAddress[address] != newFeeAddress then Err(Unauthorized)
    else Ok((s.(feeAddress := s.feeAddress[address := newFeeAddress]), []))
  }

  function Instantiate(owner: Addr, treasury: Addr): Store {
    Store(owner, treasury, PROJECTS_ALLOCATION_FOR_FUNDS_FEE, PROJECTS_ALLOCATION_FOR_ASSETS_FEE, map[], map[])
  }

  function Step(self: Addr, s: Store, info: Info, msg: ExecuteMsg): Outcome {
    match msg
    case ModifyContractInfoMsg(owner, treasury, assetsShare, fundsShare) =>
      ModifyContractInfo(s, info.sender, owner, treasury, assetsShare, fundsShare)
    case AddAssociatedAddressMsg(address, newFeeAddress) => AddAssociatedAddress(s, info.sender, address, newFeeAddress)
    case DepositFeesMsg(addresses, feeType) => DepositFees(self, s, info, addresses, feeType)
    case WithdrawFeesMsg(addresses) => WithdrawFees(self, s, addresses)
  }

  // ----- The chain

  datatype Chain = Chain(store: Store, wallets: Wallets)

  datatype Tx = Tx(info: Info, msg: ExecuteMsg)

  function Try(self: Addr, c: Chain, tx: Tx): Option<Chain> {
    match c.wallets.MoveAll(self, true, Fund(tx.info.sender, self, tx.info.funds))
    case None => None
    case Some(funded) =>
      match Step(self, c.store, tx.info, tx.msg)
      case Err(_) => None
      case Ok((s, messages)) =>
        match funded.MoveAll(self, false, messages)
        case None => None
        case Some(w) => Some(Chain(s, w))
  }

  function Exec(self: Addr, c: Chain, tx: Tx): Chain {
    match Try(self, c, tx) case None => c case Some(d) => d
  }

  function Run(self: Addr, c: Chain, txs: seq<Tx>): Chain
    decreases |txs|
  {
    if txs == [] then c else Run(self, Exec(self, c, txs[0]), txs[1..])
  }
}

/** The lender: loans against an NFT, with interest by the block (contracts/lender/src). */
module Lender {
  import opened Base
  import opened Ledger

  const MIN_BLOCK_OFFSET: nat := 10
  const PERCENTAGE_RATE: nat := 10_000
  const SAFE_ZONE_LIMIT: nat := 3_333
  const EXPENSIVE_ZONE_LIMIT: nat := 6_666
  const ZONE_LIMIT_PERCENTAGE_POINT: nat := 10_000
  const ASSET_PRICE: nat := 161_000_000
  const INTEREST_RATE: nat := 78
  const FIXED_INTERESTS: nat := 67
  const FIXED_DURATION: nat := 67
  const U64_LIMIT: nat := 0x1_0000_0000_0000_0000

  datatype Zone = SafeZone | ExpensiveZone | LiquidationZone

  datatype BorrowMode = FixedMode | ContinuousMode

  datatype Interests =
    | Fixed(interests: nat, duration: nat)
    | Continuous(rate: nat, accrued: nat)

  datatype Nft = Nft(address: Addr, tokenId: string)

  /** Who raised a loan's rate, and the rate before. */
  datatype Increasor = Increasor(who: Addr, previousRate: nat)

  datatype Borrow = Borrow(
    collateral: Option<Nft>,
    principle: nat,
    interests: Interests,
    startBlock: nat,
    zone: Zone,
    increasor: Option<Increasor>)

  type LoanKey = (Addr, nat)

  /** Fee rate and increasor incentives count in 1/10000. */
  datatype Store = Store(owner: Addr, feeRate: nat, incentives: nat, borrowLocked: bool, borrows: map<LoanKey, Borrow>)

  datatype Error =
    | Std
    | Panic
    | Unauthorized
    | BorrowLocked
    | TooMuchBorrowed(wanted: nat, limit: nat)
    | AssetAlreadyWithdrawn
    | UnavailableFixedLoan
    | FixedLoanNoInterestRate
    | NeedToRepayExpensiveZone
    | OnlyFromSafeZone
    | CantIncreaseRateMultipleTimes
    | MustAtLeastCoverIncreasorIncentive
    | CanOnlyRepayWholeFixedLoan(expected: nat, provided: nat)
    | CannotRepayWhenDefaulted
    | CannotLiquidateBeforeDefault
    | CanOnlyLiquidateWholeLoan

  /** What a handler orders: the collateral moved, the vault's assets borrowed, and of a
      repayment the incentive, the fee and the vault's part. */
  datatype Order =
    | TakeNft(nft: Nft)
    | GiveNft(nft: Nft, to: Addr)
    | BorrowVault(receiver: Addr, assets: nat)
    | PayIncreasor(to: Addr, assets: nat)
    | DepositFees(assets: nat, listed: Addr)
    | RepayVault(assets: nat)

  type Outcome = Result<(Store, seq<Order>), Error>

  // ----- Value (query.rs)

  function AssetInterests(mode: BorrowMode): Interests {
    match mode
    case FixedMode => Fixed(FIXED_INTERESTS, FIXED_DURATION)
    case ContinuousMode => Continuous(INTEREST_RATE, 0)
  }

  function SafeLimit(): nat {
    ASSET_PRICE * SAFE_ZONE_LIMIT / ZONE_LIMIT_PERCENTAGE_POINT
  }

  function ExpensiveLimit(): nat {
    ASSET_PRICE * EXPENSIVE_ZONE_LIMIT / ZONE_LIMIT_PERCENTAGE_POINT
  }

  /** Interest counts whole stretches of ten blocks. */
  function Stretch(blocks: nat): nat {
    blocks / MIN_BLOCK_OFFSET * MIN_BLOCK_OFFSET
  }

  function InterestsWith(rate: nat, principle: nat, blocks: nat): nat {
    rate * principle * Stretch(blocks) / PERCENTAGE_RATE
  }

  /** A loan's start does not lie ahead; the subtraction of heights would abort. */
  predicate Dated(height: nat, b: Borrow) {
    b.interests.Continuous? ==> b.startBlock <= height
  }

  function NewInterests(height: nat, b: Borrow): nat
    requires Dated(height, b)
  {
    match b.interests
    case Fixed(_, _) => 0
    case Continuous(rate, _) => InterestsWith(rate, b.principle, height - b.startBlock)
  }

  function TotalInterests(height: nat, b: Borrow): nat
    requires Dated(height, b)
  {
    (match b.interests case Fixed(interests, _) => interests case Continuous(_, accrued) => accrued) + NewInterests(height, b)
  }

  function LoanValue(height: nat, b: Borrow): nat
    requires Dated(height, b)
  {
    b.principle + TotalInterests(height, b)
  }

  function ZoneOf(height: nat, b: Borrow): Zone
    requires Dated(height, b)
  {
    if b.interests.Fixed? then SafeZone
    else if LoanValue(height, b) <= SafeLimit() then SafeZone
    else if LoanValue(height, b) <= ExpensiveLimit() then ExpensiveZone
    else LiquidationZone
  }

  function IsDefaulted(height: nat, b: Borrow): Result<bool, Error>
    requires Dated(height, b)
  {
    match b.interests
    case Fixed(_, duration) =>
      if b.startBlock + duration >= U64_LIMIT then Err(Panic) else Ok(b.startBlock + duration < height)
    case Continuous(_, _) =>
      if b.collateral.None? then Err(AssetAlreadyWithdrawn) else Ok(LoanValue(height, b) > ExpensiveLimit())
  }

  /** The borrower repays before default, anybody else after. */
  function CanRepay(height: nat, sender: Addr, borrower: Addr, b: Borrow): Result<(), Error>
    requires Dated(height, b)
  {
    var defaulted :- IsDefaulted(height, b);
    if sender == borrower then (if defaulted then Err(CannotRepayWhenDefaulted) else Ok(()))
    else if defaulted then Ok(()) else Err(CannotLiquidateBeforeDefault)
  }

  // ----- Repayment (execute.rs)

  /** `_update_interests_accrued`: the start moves only when interest did accrue. */
  function Updated(height: nat, b: Borrow): Borrow
    requires Dated(height, b)
  {
    match b.interests
    case Fixed(_, _) => b
    case Continuous(rate, accrued) =>
      var accruing := NewInterests(height, b);
      if accruing > 0 then b.(interests := Continuous(rate, accrued + accruing), startBlock := height) else b
  }

  /** `_repay_some_loan`: interest first, then principle; returns the interest paid. */
  function RepaidSome(height: nat, b: Borrow, assets: nat): Result<(Borrow, nat), Error>
    requires Dated(height, b)
  {
    var total := TotalInterests(height, b);
    match b.interests
    case Fixed(_, _) => Err(CanOnlyRepayWholeFixedLoan(b.principle + total, assets))
    case Continuous(rate, _) =>
      if assets > total then
        var left := if assets - total <= b.principle then b.principle - (assets - total) else 0;
        Ok((b.(interests := Continuous(rate, 0), principle := left), total))
      else
        Ok((b.(interests := Continuous(rate, total - assets)), assets))
  }

  /** A repaid loan may fall back into the safe zone, at the safe rate. */
  function Rezoned(height: nat, b: Borrow): Borrow
    requires Dated(height, b)
  {
    if ZoneOf(height, b) == SafeZone && b.zone == ExpensiveZone
    then b.(zone := SafeZone, interests := AssetInterests(ContinuousMode))
    else b
  }

  /** What is paid splits into the fee on the interest and the vault's part. */
  function RepayOrders(feeRate: nat, interest: nat, assets: nat, nft: Addr): Result<seq<Order>, Error> {
    var fee := interest * feeRate / PERCENTAGE_RATE;
    if fee > assets then Err(Panic) else Ok([DepositFees(fee, nft), RepayVault(assets - fee)])
  }

  /** The increasor's share of what the raised rate yielded. */
  function Incentive(incentives: nat, height: nat, b: Borrow): Result<nat, Error>
    requires Dated(height, b)
  {
    if b.increasor.None? then Ok(0)
    else
      match b.interests
      case Fixed(_, _) => Err(FixedLoanNoInterestRate)
      case Continuous(rate, _) =>
        var previous := b.increasor.value.previousRate;
        Ok(if rate > previous then InterestsWith(rate - previous, b.principle, height - b.startBlock) * incentives / PERCENTAGE_RATE
           else 0)
  }

  function IncentiveOrders(b: Borrow, incentive: nat): seq<Order> {
    if incentive != 0 && b.increasor.Some? then [PayIncreasor(b.increasor.value.who, incentive)] else []
  }

  function Repay(s: Store, height: nat, sender: Addr, borrower: Addr, loanId: nat, assets: nat): Outcome {
    var key := (borrower, loanId);
    if key !in s.borrows then Err(Std)
    else if !Dated(height, s.borrows[key]) then
      Err(if s.borrows[key].collateral.None? then AssetAlreadyWithdrawn else Panic)
    else
      var b := s.borrows[key];
      var _ :- CanRepay(height, sender, borrower, b);
      if b.collateral.None? then Err(AssetAlreadyWithdrawn)
      else
        var nft := b.collateral.value;
        var value := LoanValue(height, b);
        var incentive :- Incentive(s.incentives, height, b);
        if assets < incentive then Err(MustAtLeastCoverIncreasorIncentive)
        else
          var left := assets - incentive;
          var b1 := Updated(height, b.(increasor := None));
          if sender == borrower && assets < value then
            var (b2, interest) :- RepaidSome(height, b1, assets);
            var orders :- RepayOrders(s.feeRate, interest, left, nft.address);
            Ok((s.(borrows := s.borrows[key := Rezoned(height, b2)]), IncentiveOrders(b, incentive) + orders))
          else if sender != borrower && assets < LoanValue(height, b1) then Err(CanOnlyLiquidateWholeLoan)
          else if left < b1.principle then Err(Panic)
          else
            var orders :- RepayOrders(s.feeRate, left - b1.principle, left, nft.address);
            var closed := b1.(collateral := None, principle := 0, zone := if sender == borrower then b1.zone else LiquidationZone);
            Ok((s.(borrows := s.borrows[key := closed]), IncentiveOrders(b, incentive) + [GiveNft(nft, sender)] + orders))
  }

  // ----- Borrowing

  /** `get_last_collateral`: the greatest number among a borrower's loans. */
  ghost function LastLoan(keys: set<LoanKey>, who: Addr): (last: Option<nat>)
    ensures last.Some? ==> (who, last.value) in keys
    ensures forall key :: key in keys && key.0 == who ==> last.Some? && key.1 <= last.value
    decreases |keys|
  {
    if keys == {} then None
    else
      var key :| key in keys;
      var last := LastLoan(keys - {key}, who);
      if key.0 == who && (last.None? || last.value < key.1) then Some(key.1) else last
  }

  ghost function NewLoanId(s: Store, who: Addr): (n: nat)
    ensures (who, n) !in s.borrows
  {
    var last := LastLoan(s.borrows.Keys, who);
    if last.Some? then last.value + 1 else 0
  }

  ghost function TakeLoan(s: Store, height: nat, sender: Addr, nft: Nft, assets: nat, mode: BorrowMode): Outcome {
    if s.borrowLocked then Err(BorrowLocked)
    else if assets > SafeLimit() then Err(TooMuchBorrowed(assets, SafeLimit()))
    else
      var loan := Borrow(Some(nft), assets, AssetInterests(mode), height, SafeZone, None);
      Ok((s.(borrows := s.borrows[(sender, NewLoanId(s, sender)) := loan]), [TakeNft(nft), BorrowVault(sender, assets)]))
  }

  /** More against the same collateral. The interest accrued so far is overwritten. */
  function BorrowMore(s: Store, height: nat, sender: Addr, loanId: nat, assets: nat): Outcome {
    var key := (sender, loanId);
    if s.borrowLocked then Err(BorrowLocked)
    else if key !in s.borrows then Err(Std)
    else
      var b := s.borrows[key];
      if b.collateral.None? then Err(AssetAlreadyWithdrawn)
      else if b.interests.Fixed? then Err(UnavailableFixedLoan)
      else if b.zone != SafeZone then Err(NeedToRepayExpensiveZone)
      else if !Dated(height, b) then Err(Panic)
      else
        var b1 := Updated(height, b);
        var value := LoanValue(height, b1);
        if value + assets > SafeLimit() then Err(TooMuchBorrowed(value + assets, SafeLimit()))
        else
          var more := b1.(principle := b1.principle + assets, interests := AssetInterests(ContinuousMode), startBlock := height);
          Ok((s.(borrows := s.borrows[key := more]), [BorrowVault(sender, assets)]))
  }

  /** The record a raise of the rate works out; the handler does not store it. */
  function Raised(s: Store, height: nat, sender: Addr, borrower: Addr, loanId: nat): Result<Borrow, Error> {
    var key := (borrower, loanId);
    if key !in s.borrows then Err(Std)
    else if !Dated(height, s.borrows[key]) then Err(Panic)
    else
      var b := s.borrows[key];
      if b.interests.Continuous? && b.collateral.None? then Err(AssetAlreadyWithdrawn)
      else
        var b1 := Updated(height, b);
        if ZoneOf(height, b) != ExpensiveZone then Ok(b1)
        else if b1.zone != SafeZone then Err(OnlyFromSafeZone)
        else if b1.increasor.Some? then Err(CantIncreaseRateMultipleTimes)
        else
          Ok(b1.(increasor := Some(Increasor(sender, b1.interests.rate)), zone := ExpensiveZone,
                 interests := AssetInterests(ContinuousMode)))
  }

  function RaiseRate(s: Store, height: nat, sender: Addr, borrower: Addr, loanId: nat): Outcome {
    var _ :- Raised(s, height, sender, borrower, loanId);
    Ok((s, []))
  }

  function SetOwner(s: Store, sender: Addr, owner: Addr): Outcome {
    if sender != s.owner then Err(Unauthorized) else Ok((s.(owner := owner), []))
  }

  function SetLock(s: Store, sender: Addr, lock: bool): Outcome {
    if sender != s.owner then Err(Unauthorized) else Ok((s.(borrowLocked := lock), []))
  }

  // ----- Runs

  datatype Msg =
    | BorrowMsg(nft: Nft, assets: nat, mode: BorrowMode)
    | BorrowMoreMsg(loanId: nat, assets: nat)
    | RepayMsg(borrower: Addr, loanId: nat, assets: nat)
    | RaiseRateMsg(borrower: Addr, loanId: nat)
    | SetOwnerMsg(owner: Addr)
    | ToggleLockMsg(lock: bool)

  datatype Tx = Tx(sender: Addr, height: nat, msg: Msg)

  ghost function Step(s: Store, tx: Tx): Outcome {
    match tx.msg
    case BorrowMsg(nft, assets, mode) => TakeLoan(s, tx.height, tx.sender, nft, assets, mode)
    case RepayMsg(borrower, loanId, assets) => Repay(s, tx.height, tx.sender, borrower, loanId, assets)
    case BorrowMoreMsg(loanId, assets) => BorrowMore(s, tx.height, tx.sender, loanId, assets)
    case RaiseRateMsg(borrower, loanId) => RaiseRate(s, tx.height, tx.sender, borrower, loanId)
    case SetOwnerMsg(owner) => SetOwner(s, tx.sender, owner)
    case ToggleLockMsg(lock) => SetLock(s, tx.sender, lock)
  }

  ghost function Exec(s: Store, tx: Tx): Store {
    match Step(s, tx) case Ok((s1, _)) => s1 case Err(_) => s
  }

  ghost function Run(s: Store, txs: seq<Tx>): Store
    decreases |txs|
  {
    if txs == [] then s else Run(Exec(s, txs[0]), txs[1..])
  }

  /** Block heights never fall. */
  predicate Timely(height: nat, txs: seq<Tx>)
    decreases |txs|
  {
    txs == [] || (height <= txs[0].height && Timely(txs[0].height, txs[1..]))
  }

  /** What a run pays towards the loan `key`. */
  ghost function Paid(s: Store, txs: seq<Tx>, key: LoanKey): nat
    decreases |txs|
  {
    if txs == [] then 0
    else
      (if Step(s, txs[0]).Ok? && txs[0].msg.RepayMsg? && (txs[0].msg.borrower, txs[0].msg.loanId) == key then txs[0].msg.assets else 0)
      + Paid(Exec(s, txs[0]), txs[1..], key)
  }
}

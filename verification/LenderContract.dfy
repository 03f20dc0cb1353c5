/** The lender as it runs: a loan record updated, repaid and saved step by step, each step
    proved to be the one Lender gives. */
module LenderContract {
  import opened Base
  import opened Ledger
  import opened Lender

  method UpdateInterestsAccrued(height: nat, info: Borrow) returns (updated: Borrow, due: nat)
    requires Dated(height, info)
    ensures updated == Updated(height, info)
    ensures due == TotalInterests(height, info)
  {
    updated := info;
    var accruing := NewInterests(height, info);
    match info.interests {
      case Fixed(interests, _) =>
        due := interests;
      case Continuous(rate, accrued) =>
        due := accrued + accruing;
        if accruing > 0 {
          updated := updated.(interests := Continuous(rate, due));
          updated := updated.(startBlock := height);
        }
    }
  }

  method RepaySomeLoan(height: nat, info: Borrow, assets: nat) returns (r: Result<(Borrow, nat), Error>)
    requires Dated(height, info)
    ensures r == RepaidSome(height, info, assets)
  {
    var total := TotalInterests(height, info);
    match info.interests {
      case Fixed(_, _) =>
        return Err(CanOnlyRepayWholeFixedLoan(info.principle + total, assets));
      case Continuous(rate, _) =>
        var repaid := info;
        if assets > total {
          repaid := repaid.(interests := Continuous(rate, 0));
          if assets - total <= repaid.principle {
            repaid := repaid.(principle := repaid.principle - (assets - total));
          } else {
            repaid := repaid.(principle := 0);
          }
          return Ok((repaid, total));
        } else {
          repaid := repaid.(interests := Continuous(rate, total - assets));
          return Ok((repaid, assets));
        }
    }
  }

  /** `is_loan_defaulted`. */
  method CheckDefaulted(height: nat, info: Borrow) returns (r: Result<bool, Error>)
    requires Dated(height, info)
    ensures r == IsDefaulted(height, info)
  {
    match info.interests {
      case Fixed(_, duration) =>
        if info.startBlock + duration >= U64_LIMIT {
          return Err(Panic);
        }
        return Ok(info.startBlock + duration < height);
      case Continuous(_, _) =>
        if info.collateral.None? {
          return Err(AssetAlreadyWithdrawn);
        }
        var value := LoanValue(height, info);
        return Ok(value > ASSET_PRICE * EXPENSIVE_ZONE_LIMIT / ZONE_LIMIT_PERCENTAGE_POINT);
    }
  }

  /** `can_repay_loan`: the borrower until default, anybody else from then on. */
  method CheckRepayer(height: nat, sender: Addr, borrower: Addr, info: Borrow) returns (r: Result<(), Error>)
    requires Dated(height, info)
    ensures r == CanRepay(height, sender, borrower, info)
  {
    var defaulted :- CheckDefaulted(height, info);
    if sender == borrower && defaulted {
      return Err(CannotRepayWhenDefaulted);
    }
    if sender != borrower && !defaulted {
      return Err(CannotLiquidateBeforeDefault);
    }
    return Ok(());
  }

  class Contract {
    var owner: Addr
    var feeRate: nat
    var incentives: nat
    var borrowLocked: bool
    var borrows: map<LoanKey, Borrow>

    function Stored(): Store
      reads this
    {
      Store(owner, feeRate, incentives, borrowLocked, borrows)
    }

    /** The handler answered as specified, and a failed one left the records as they were. */
    ghost predicate Matches(spec: Outcome, r: Result<seq<Order>, Error>, before: Store)
      reads this
    {
      match spec
      case Ok((s, orders)) => r == Ok(orders) && Stored() == s
      case Err(e) => r == Err(e) && Stored() == before
    }

    constructor (owner: Addr, feeRate: nat, incentives: nat)
      ensures Stored() == Store(owner, feeRate, incentives, false, map[])
    {
      this.owner, this.feeRate, this.incentives, borrowLocked, borrows := owner, feeRate, incentives, false, map[];
    }

    method ExecuteRepay(height: nat, sender: Addr, borrower: Addr, loanId: nat, assets: nat) returns (r: Result<seq<Order>, Error>)
      modifies `borrows
      ensures Matches(Repay(old(Stored()), height, sender, borrower, loanId, assets), r, old(Stored()))
    {
      var key := (borrower, loanId);
      if key !in borrows {
        return Err(Std);
      }
      var info := borrows[key];
      if info.interests.Continuous? && info.startBlock > height {
        if info.collateral.None? {
          return Err(AssetAlreadyWithdrawn);
        }
        return Err(Panic);
      }
      var _ :- CheckRepayer(height, sender, borrower, info);
      if info.collateral.None? {
        return Err(AssetAlreadyWithdrawn);
      }
      var nft := info.collateral.value;
      var loanValue := LoanValue(height, info);
      var incentive :- Incentive(incentives, height, info);
      if assets < incentive {
        return Err(MustAtLeastCoverIncreasorIncentive);
      }
      var left := assets - incentive;
      var messages := IncentiveOrders(info, incentive);
      info := info.(increasor := None);
      var due: nat;
      info, due := UpdateInterestsAccrued(height, info);
      var orders: seq<Order>;
      if sender == borrower {
        if assets >= loanValue {
          if left < info.principle {
            return Err(Panic);
          }
          var interest := left - info.principle;
          info := info.(collateral := None);
          info := info.(principle := 0);
          orders :- RepayOrders(feeRate, interest, left, nft.address);
          messages := messages + [GiveNft(nft, borrower)] + orders;
        } else {
          var repaid :- RepaySomeLoan(height, info, assets);
          info := repaid.0;
          if ZoneOf(height, info) == SafeZone && info.zone == ExpensiveZone {
            info := info.(zone := SafeZone);
            info := info.(interests := AssetInterests(ContinuousMode));
          }
          orders :- RepayOrders(feeRate, repaid.1, left, nft.address);
          messages := messages + orders;
        }
      } else {
        if assets < LoanValue(height, info) {
          return Err(CanOnlyLiquidateWholeLoan);
        }
        if left < info.principle {
          return Err(Panic);
        }
        var interest := left - info.principle;
        info := info.(collateral := None);
        info := info.(principle := 0);
        info := info.(zone := LiquidationZone);
        orders :- RepayOrders(feeRate, interest, left, nft.address);
        messages := messages + [GiveNft(nft, sender)] + orders;
      }
      borrows := borrows[key := info];
      return Ok(messages);
    }

    /** Goes through the stored keys for the greatest number of `who`. */
    method LastCollateral(who: Addr) returns (last: Option<nat>)
      ensures last == LastLoan(borrows.Keys, who)
    {
      last := None;
      var left := borrows.Keys;
      while left != {}
        invariant left <= borrows.Keys
        invariant last.Some? ==> (who, last.value) in borrows
        invariant forall key :: key in borrows.Keys - left && key.0 == who ==> last.Some? && key.1 <= last.value
        decreases |left|
      {
        var key :| key in left;
        left := left - {key};
        if key.0 == who && (last.None? || last.value < key.1) {
          last := Some(key.1);
        }
      }
      assert borrows.Keys - left == borrows.Keys;
    }

    method ExecuteBorrow(height: nat, sender: Addr, nft: Nft, assets: nat,
                         mode: BorrowMode) returns (r: Result<seq<Order>, Error>)
      modifies `borrows
      ensures Matches(TakeLoan(old(Stored()), height, sender, nft, assets, mode), r, old(Stored()))
    {
      if borrowLocked {
        return Err(BorrowLocked);
      }
      if assets > SafeLimit() {
        return Err(TooMuchBorrowed(assets, SafeLimit()));
      }
      var last := LastCollateral(sender);
      var n := if last.Some? then last.value + 1 else 0;
      borrows := borrows[(sender, n) := Borrow(Some(nft), assets, AssetInterests(mode), height, SafeZone, None)];
      return Ok([TakeNft(nft), BorrowVault(sender, assets)]);
    }

    method ExecuteBorrowMore(height: nat, sender: Addr, loanId: nat, assets: nat) returns (r: Result<seq<Order>, Error>)
      modifies `borrows
      ensures Matches(BorrowMore(old(Stored()), height, sender, loanId, assets), r, old(Stored()))
    {
      if borrowLocked {
        return Err(BorrowLocked);
      }
      var key := (sender, loanId);
      if key !in borrows {
        return Err(Std);
      }
      var info := borrows[key];
      if info.collateral.None? {
        return Err(AssetAlreadyWithdrawn);
      }
      if info.interests.Fixed? {
        return Err(UnavailableFixedLoan);
      }
      if info.zone != SafeZone {
        return Err(NeedToRepayExpensiveZone);
      }
      if info.startBlock > height {
        return Err(Panic);
      }
      var due: nat;
      info, due := UpdateInterestsAccrued(height, info);
      var value := LoanValue(height, info);
      if value + assets > SafeLimit() {
        return Err(TooMuchBorrowed(value + assets, SafeLimit()));
      }
      info := info.(principle := info.principle + assets);
      info := info.(interests := AssetInterests(ContinuousMode));
      info := info.(startBlock := height);
      borrows := borrows[key := info];
      return Ok([BorrowVault(sender, assets)]);
    }

    /** Works on a copy of the record and lets it go. */
    method ExecuteRaiseRate(height: nat, sender: Addr, borrower: Addr, loanId: nat) returns (r: Result<seq<Order>, Error>)
      ensures Matches(RaiseRate(Stored(), height, sender, borrower, loanId), r, Stored())
    {
      var key := (borrower, loanId);
      if key !in borrows {
        return Err(Std);
      }
      var info := borrows[key];
      if info.interests.Continuous? && info.startBlock > height {
        return Err(Panic);
      }
      if info.interests.Continuous? && info.collateral.None? {
        return Err(AssetAlreadyWithdrawn);
      }
      var zone := ZoneOf(height, info);
      var due: nat;
      info, due := UpdateInterestsAccrued(height, info);
      if zone == ExpensiveZone {
        if info.zone != SafeZone {
          return Err(OnlyFromSafeZone);
        }
        if info.increasor.Some? {
          return Err(CantIncreaseRateMultipleTimes);
        }
        info := info.(increasor := Some(Increasor(sender, info.interests.rate)));
        info := info.(zone := ExpensiveZone);
        info := info.(interests := AssetInterests(ContinuousMode));
      }
      return Ok([]);
    }

    method ExecuteSetOwner(sender: Addr, newOwner: Addr) returns (r: Result<seq<Order>, Error>)
      modifies `owner
      ensures Matches(SetOwner(old(Stored()), sender, newOwner), r, old(Stored()))
    {
      if sender != owner {
        return Err(Unauthorized);
      }
      owner := newOwner;
      return Ok([]);
    }

    method ExecuteSetLock(sender: Addr, lock: bool) returns (r: Result<seq<Order>, Error>)
      modifies `borrowLocked
      ensures Matches(SetLock(old(Stored()), sender, lock), r, old(Stored()))
    {
      if sender != owner {
        return Err(Unauthorized);
      }
      borrowLocked := lock;
      return Ok([]);
    }
  }
}

/** Default, repayment and liquidation: who may repay a loan and when, what each repayment takes
    off it and orders, and that nobody but the borrower gets the collateral of a sound loan. */
module LenderDefault {
  import opened Base
  import opened Ledger
  import opened Lender
  import opened LenderInterest

  // ----- Default

  /** A fixed loan past its last block, or a continuous one worth more than 6,666 parts in 10,000
      of the asset's price. */
  predicate InDefault(height: nat, b: Borrow)
    requires Dated(height, b)
  {
    match b.interests
    case Fixed(_, duration) => b.startBlock + duration < height
    case Continuous(_, _) => LoanValue(height, b) * 10_000 > 161_000_000 * 6_666
  }

  /** A fixed loan whose last block is no block number can never be repaid. */
  predicate Countable(b: Borrow) {
    b.interests.Fixed? ==> b.startBlock + b.interests.duration < U64_LIMIT
  }

  lemma {:induction false} LimitIs(value: nat)
    ensures value > ExpensiveLimit() <==> value * 10_000 > 161_000_000 * 6_666
    ensures value <= SafeLimit() <==> value * 10_000 <= 161_000_000 * 3_333
  {
  }

  // ----- Who may repay

  /** An accepted repayment by the borrower is of a loan not in default, one by anybody else of a
      loan in default; the collateral is still there in both cases. */
  lemma {:induction false} RepayersAreRight(s: Store, tx: Tx)
    requires tx.msg.RepayMsg? && Step(s, tx).Ok?
    ensures var key := (tx.msg.borrower, tx.msg.loanId);
            && key in s.borrows && s.borrows[key].collateral.Some? && Dated(tx.height, s.borrows[key])
            && (InDefault(tx.height, s.borrows[key]) <==> tx.sender != tx.msg.borrower)
  {
    var b := s.borrows[(tx.msg.borrower, tx.msg.loanId)];
    if b.interests.Continuous? {
      LimitIs(LoanValue(tx.height, b));
    }
  }

  /** Whether the amount will do: the whole value, or any part of a continuous loan by its
      borrower. */
  predicate Enough(height: nat, b: Borrow, own: bool, assets: nat)
    requires Dated(height, b)
  {
    assets >= LoanValue(height, b) || (own && b.interests.Continuous?)
  }

  /** What of a payment is interest: all but the principle when the loan is closed, else what has
      accrued before any principle. */
  function InterestPaid(height: nat, b: Borrow, assets: nat): nat
    requires Dated(height, b)
  {
    if assets >= LoanValue(height, b) then assets - b.principle
    else if assets < TotalInterests(height, b) then assets
    else TotalInterests(height, b)
  }

  /** The fee: its rate of the interest, rounded down. */
  function FeeOn(s: Store, interest: nat): nat {
    interest * s.feeRate / 10_000
  }

  predicate MayRepay(s: Store, tx: Tx)
    requires tx.msg.RepayMsg?
  {
    var key := (tx.msg.borrower, tx.msg.loanId);
    && key in s.borrows && s.borrows[key].collateral.Some?
    && Dated(tx.height, s.borrows[key]) && Countable(s.borrows[key])
    && (InDefault(tx.height, s.borrows[key]) <==> tx.sender != tx.msg.borrower)
    && Enough(tx.height, s.borrows[key], tx.sender == tx.msg.borrower, tx.msg.assets)
    && FeeOn(s, InterestPaid(tx.height, s.borrows[key], tx.msg.assets)) <= tx.msg.assets
  }

  /** The record and the orders of a repayment that closes the loan. */
  function Closed(height: nat, b: Borrow, own: bool): Borrow
    requires Dated(height, b)
  {
    Updated(height, b).(collateral := None, principle := 0, zone := if own then b.zone else LiquidationZone)
  }

  function Settling(s: Store, nft: Nft, interest: nat, assets: nat): seq<Order>
    requires FeeOn(s, interest) <= assets
  {
    [DepositFees(FeeOn(s, interest), nft.address), RepayVault(assets - FeeOn(s, interest))]
  }

  /** At a rate of at most the whole, the fee is never more than the interest, so never too much. */
  lemma {:induction false} FeeWithin(s: Store, height: nat, b: Borrow, assets: nat)
    requires s.feeRate <= 10_000 && Dated(height, b)
    ensures FeeOn(s, InterestPaid(height, b, assets)) <= InterestPaid(height, b, assets) <= assets
  {
    var interest := InterestPaid(height, b, assets);
    MulMonotone(s.feeRate, 10_000, interest);
    QuotientAtMost(interest * s.feeRate, 10_000, interest);
  }

  lemma {:induction false} NoIncentive(s: Store, height: nat, b: Borrow)
    requires Dated(height, b) && b.increasor.None?
    ensures Incentive(s.incentives, height, b) == Ok(0) && IncentiveOrders(b, 0) == [] && b.(increasor := None) == b
  {
  }

  lemma {:induction false} WholeIs(s: Store, tx: Tx)
    requires tx.msg.RepayMsg? && MayRepay(s, tx)
    requires var b := s.borrows[(tx.msg.borrower, tx.msg.loanId)]; Unraised(b) && tx.msg.assets >= LoanValue(tx.height, b)
    ensures var key := (tx.msg.borrower, tx.msg.loanId);
            var b := s.borrows[key];
            var interest := InterestPaid(tx.height, b, tx.msg.assets);
            && interest == tx.msg.assets - b.principle
            && Step(s, tx) == Ok((s.(borrows := s.borrows[key := Closed(tx.height, b, tx.sender == tx.msg.borrower)]),
                                  [GiveNft(b.collateral.value, tx.sender)] + Settling(s, b.collateral.value, interest, tx.msg.assets)))
  {
    var b := s.borrows[(tx.msg.borrower, tx.msg.loanId)];
    NoIncentive(s, tx.height, b);
    if b.interests.Continuous? {
      LimitIs(LoanValue(tx.height, b));
      UpdateKeepsValue(tx.height, tx.height, b);
    }
    assert IncentiveOrders(b, 0) + [GiveNft(b.collateral.value, tx.sender)] == [GiveNft(b.collateral.value, tx.sender)];
  }

  lemma {:induction false} PartIs(s: Store, tx: Tx)
    requires tx.msg.RepayMsg? && MayRepay(s, tx)
    requires var b := s.borrows[(tx.msg.borrower, tx.msg.loanId)]; Unraised(b) && tx.msg.assets < LoanValue(tx.height, b)
    ensures var key := (tx.msg.borrower, tx.msg.loanId);
            var b := s.borrows[key];
            var interest := InterestPaid(tx.height, b, tx.msg.assets);
            && Repaid(tx.height, b, tx.msg.assets).Ok?
            && Step(s, tx) == Ok((s.(borrows := s.borrows[key := Repaid(tx.height, b, tx.msg.assets).value.0]),
                                  Settling(s, b.collateral.value, interest, tx.msg.assets)))
  {
    var b := s.borrows[(tx.msg.borrower, tx.msg.loanId)];
    NoIncentive(s, tx.height, b);
    LimitIs(LoanValue(tx.height, b));
    RepaymentLowersExactly(tx.height, tx.height, b, tx.msg.assets);
    var orders := Settling(s, b.collateral.value, InterestPaid(tx.height, b, tx.msg.assets), tx.msg.assets);
    assert IncentiveOrders(b, 0) + orders == orders;
  }

  lemma {:induction false} RepayOnlyIf(s: Store, tx: Tx)
    requires tx.msg.RepayMsg? && Step(s, tx).Ok?
    requires var key := (tx.msg.borrower, tx.msg.loanId); key in s.borrows ==> Unraised(s.borrows[key])
    ensures MayRepay(s, tx)
  {
    var b := s.borrows[(tx.msg.borrower, tx.msg.loanId)];
    NoIncentive(s, tx.height, b);
    RepayersAreRight(s, tx);
    if b.interests.Continuous? {
      UpdateKeepsValue(tx.height, tx.height, b);
    }
  }

  /** A repayment is accepted if and only if the loan's collateral is still there, its dates can be
      counted, the payer is the borrower of a sound loan or anybody else of one in default, and the
      amount will do and covers the fee. No rate is ever raised in a run, so this covers every
      reachable state. */
  lemma {:induction false} RepayAcceptsIff(s: Store, tx: Tx)
    requires tx.msg.RepayMsg? && forall q :: q in s.borrows ==> Unraised(s.borrows[q])
    ensures Step(s, tx).Ok? <==> MayRepay(s, tx)
  {
    if MayRepay(s, tx) {
      if tx.msg.assets >= LoanValue(tx.height, s.borrows[(tx.msg.borrower, tx.msg.loanId)]) {
        WholeIs(s, tx);
      } else {
        PartIs(s, tx);
      }
    } else if Step(s, tx).Ok? {
      RepayOnlyIf(s, tx);
    }
  }

  /** So in every state a run from instantiation reaches. */
  lemma {:induction false} RepayInRuns(owner: Addr, feeRate: nat, incentives: nat, txs: seq<Tx>, tx: Tx)
    requires tx.msg.RepayMsg?
    ensures var s := Run(Store(owner, feeRate, incentives, false, map[]), txs); Step(s, tx).Ok? <==> MayRepay(s, tx)
  {
    var s0 := Store(owner, feeRate, incentives, false, map[]);
    NeverExpensive(s0, txs);
    RepayAcceptsIff(Run(s0, txs), tx);
  }

  /** Why a repayment of a loan that is there is refused: dates ahead, the wrong payer, the collateral
      gone, the wrong amount, or a fee above what was paid. */
  lemma {:induction false} RepayRefused(s: Store, tx: Tx)
    requires tx.msg.RepayMsg? && forall q :: q in s.borrows ==> Unraised(s.borrows[q])
    ensures var key := (tx.msg.borrower, tx.msg.loanId);
            var out := Step(s, tx);
            if key !in s.borrows then out == Err(Std)
            else var b := s.borrows[key];
                 if b.interests.Continuous? && b.collateral.None? then out == Err(AssetAlreadyWithdrawn)
                 else if !Dated(tx.height, b) || !Countable(b) then out == Err(Panic)
                 else if InDefault(tx.height, b) <==> tx.sender == tx.msg.borrower then
                   out == Err(if tx.sender == tx.msg.borrower then CannotRepayWhenDefaulted else CannotLiquidateBeforeDefault)
                 else if b.collateral.None? then out == Err(AssetAlreadyWithdrawn)
                 else if !Enough(tx.height, b, tx.sender == tx.msg.borrower, tx.msg.assets) then
                   out == Err(if tx.sender == tx.msg.borrower then CanOnlyRepayWholeFixedLoan(LoanValue(tx.height, b), tx.msg.assets)
                              else CanOnlyLiquidateWholeLoan)
                 else out.Err? ==> out == Err(Panic)
  {
    var key := (tx.msg.borrower, tx.msg.loanId);
    if key in s.borrows && Dated(tx.height, s.borrows[key]) {
      var b := s.borrows[key];
      NoIncentive(s, tx.height, b);
      LimitIs(LoanValue(tx.height, b));
      if b.interests.Continuous? {
        UpdateKeepsValue(tx.height, tx.height, b);
      }
    }
  }

  // ----- Value and zones

  /** A fixed loan is worth principle and interests at every block; a continuous one besides what it
      has accrued. Up to 3,333 parts in 10,000 of the price it is safe, beyond 6,666 to be
      liquidated. */
  lemma {:induction false} ValuesAndZones(height: nat, b: Borrow)
    requires Dated(height, b)
    ensures b.interests.Fixed? ==> LoanValue(height, b) == b.principle + b.interests.interests && ZoneOf(height, b) == SafeZone
    ensures b.interests.Continuous? ==>
              var value := LoanValue(height, b);
              && value == b.principle + b.interests.accrued + InterestsWith(b.interests.rate, b.principle, height - b.startBlock)
              && ZoneOf(height, b) == if value * 10_000 <= 161_000_000 * 3_333 then SafeZone
                                      else if value * 10_000 <= 161_000_000 * 6_666 then ExpensiveZone else LiquidationZone
  {
    LimitIs(LoanValue(height, b));
  }

  // ----- Raised loans, were there any

  /** The increasor of a raised loan gets that share of what the raise in rate has yielded since,
      rounded down. */
  lemma {:induction false} IncentiveIs(s: Store, height: nat, b: Borrow)
    requires Dated(height, b) && b.increasor.Some?
    ensures b.interests.Fixed? ==> Incentive(s.incentives, height, b) == Err(FixedLoanNoInterestRate)
    ensures b.interests.Continuous? ==>
              var (rate, before) := (b.interests.rate, b.increasor.value.previousRate);
              var gained := if rate > before then InterestsWith(rate - before, b.principle, height - b.startBlock) else 0;
              exists share: nat :: Incentive(s.incentives, height, b) == Ok(share)
                                   && share * 10_000 <= gained * s.incentives < (share + 1) * 10_000
  {
    if b.interests.Continuous? {
      var (rate, before) := (b.interests.rate, b.increasor.value.previousRate);
      var gained := if rate > before then InterestsWith(rate - before, b.principle, height - b.startBlock) else 0;
      DivBounds(gained * s.incentives, 10_000);
      assert gained == 0 ==> gained * s.incentives == 0;
      assert Incentive(s.incentives, height, b) == Ok(gained * s.incentives / 10_000);
    }
  }

  /** An expensive loan that a repayment brings back to the safe limit is safe again, at the ordinary
      rate, with nothing accrued; any other stays as it is. */
  lemma {:induction false} RezonedIs(height: nat, b: Borrow)
    requires Dated(height, b)
    ensures Rezoned(height, b)
         == if b.zone == ExpensiveZone && (b.interests.Fixed? || LoanValue(height, b) * 10_000 <= 161_000_000 * 3_333)
            then b.(zone := SafeZone, interests := Continuous(78, 0)) else b
  {
    LimitIs(LoanValue(height, b));
  }

  // ----- Where collateral goes

  /** Only a repayment gives collateral away: the loan's own, to its payer, who is the borrower or
      finds the loan in default. */
  lemma {:induction false} GivenBySettling(s: Store, tx: Tx, nft: Nft, to: Addr)
    requires Step(s, tx).Ok? && GiveNft(nft, to) in Step(s, tx).value.1
    ensures tx.msg.RepayMsg? && to == tx.sender
    ensures var key := (tx.msg.borrower, tx.msg.loanId);
            && key in s.borrows && s.borrows[key].collateral == Some(nft) && Dated(tx.height, s.borrows[key])
            && (to == tx.msg.borrower || InDefault(tx.height, s.borrows[key]))
  {
    if tx.msg.RepayMsg? {
      RepayersAreRight(s, tx);
    }
  }

  /** At no message of the run is the loan in default. */
  ghost predicate StaysSound(s: Store, txs: seq<Tx>, key: LoanKey)
    decreases |txs|
  {
    txs == [] ||
    ((key in s.borrows && Dated(txs[0].height, s.borrows[key]) ==> !InDefault(txs[0].height, s.borrows[key]))
     && StaysSound(Exec(s, txs[0]), txs[1..], key))
  }

  /** The borrower's own closing repayment. */
  ghost predicate BroughtHome(s: Store, tx: Tx, key: LoanKey, nft: Nft) {
    tx.sender == key.0 && tx.msg.RepayMsg? && (tx.msg.borrower, tx.msg.loanId) == key
    && Step(s, tx).Ok? && GiveNft(nft, key.0) in Step(s, tx).value.1
  }

  lemma {:induction false} SoundStep(s: Store, tx: Tx, key: LoanKey, nft: Nft)
    requires key in s.borrows && s.borrows[key].collateral == Some(nft)
    requires Dated(tx.height, s.borrows[key]) ==> !InDefault(tx.height, s.borrows[key])
    ensures key in Exec(s, tx).borrows
    ensures Exec(s, tx).borrows[key].collateral == Some(nft) || BroughtHome(s, tx, key, nft)
  {
    if Step(s, tx).Ok? && tx.msg.RepayMsg? && (tx.msg.borrower, tx.msg.loanId) == key {
      RepayersAreRight(s, tx);
      if Exec(s, tx).borrows[key].collateral != Some(nft) {
        WholeConserved(s, tx.height, tx.sender, key.0, key.1, tx.msg.assets, Step(s, tx).value.0, Step(s, tx).value.1);
      }
    }
  }

  /** Over every run, the collateral of a loan that is never in default stays with the contract, or
      went back to its borrower for a repayment of theirs. */
  lemma {:induction false} CollateralComesHome(s: Store, txs: seq<Tx>, key: LoanKey, nft: Nft) returns (i: nat)
    requires key in s.borrows && s.borrows[key].collateral == Some(nft) && StaysSound(s, txs, key)
    ensures key in Run(s, txs).borrows
    ensures Run(s, txs).borrows[key].collateral == Some(nft)
            || (i < |txs| && BroughtHome(Run(s, txs[..i]), txs[i], key, nft))
    decreases |txs|
  {
    i := 0;
    if txs != [] {
      var s1 := Exec(s, txs[0]);
      SoundStep(s, txs[0], key, nft);
      if s1.borrows[key].collateral == Some(nft) {
        var j := CollateralComesHome(s1, txs[1..], key, nft);
        i := j + 1;
        if i < |txs| {
          assert txs[..i][1..] == txs[1..][..j];
        }
      } else {
        assert txs[..0] == [];
        ClosedRun(s1, txs[1..], key);
      }
    }
  }

  lemma {:induction false} ClosedRun(s: Store, txs: seq<Tx>, key: LoanKey)
    requires key in s.borrows
    ensures key in Run(s, txs).borrows
    decreases |txs|
  {
    if txs != [] {
      ClosedRun(Exec(s, txs[0]), txs[1..], key);
    }
  }

  // ----- Borrowing

  /** A fixed loan costs 67 and runs 67 blocks; a continuous one accrues at 78. */
  function TermsOf(mode: BorrowMode): Interests {
    match mode case FixedMode => Fixed(67, 67) case ContinuousMode => Continuous(78, 0)
  }

  /** One past the greatest number `who` has used, or nought. */
  ghost predicate NextNumber(s: Store, who: Addr, n: nat) {
    (forall q :: q in s.borrows && q.0 == who ==> q.1 < n) && (n > 0 ==> (who, n - 1) in s.borrows)
  }

  /** Up to 3,333 parts in 10,000 of the asset's price may be borrowed, unless borrowing is locked;
      the loan takes a number the borrower has not used, above all those used. */
  lemma {:induction false} BorrowingIs(s: Store, tx: Tx)
    requires tx.msg.BorrowMsg?
    ensures var out := Step(s, tx);
            && (out.Ok? <==> !s.borrowLocked && tx.msg.assets * 10_000 <= 161_000_000 * 3_333)
            && (out.Err? ==> out.error == if s.borrowLocked then BorrowLocked else TooMuchBorrowed(tx.msg.assets, 53_661_300))
            && (out.Ok? ==>
                  exists n: nat ::
                    && NextNumber(s, tx.sender, n)
                    && out == Ok((s.(borrows := s.borrows[(tx.sender, n) := Borrow(Some(tx.msg.nft), tx.msg.assets, TermsOf(tx.msg.mode),
                                                                                   tx.height, SafeZone, None)]),
                                  [TakeNft(tx.msg.nft), BorrowVault(tx.sender, tx.msg.assets)])))
  {
    LimitIs(tx.msg.assets);
    var n := NewLoanId(s, tx.sender);
    assert NextNumber(s, tx.sender, n);
  }

  /** More may be borrowed on one's own continuous loan in the safe zone, while its value and the
      addition stay within the same limit; it then starts anew. */
  lemma {:induction false} BorrowingMoreIs(s: Store, tx: Tx)
    requires tx.msg.BorrowMoreMsg?
    ensures var key := (tx.sender, tx.msg.loanId);
            var out := Step(s, tx);
            && (out.Ok? <==> !s.borrowLocked && key in s.borrows
                             && s.borrows[key].collateral.Some? && s.borrows[key].interests.Continuous? && s.borrows[key].zone == SafeZone
                             && s.borrows[key].startBlock <= tx.height
                             && (LoanValue(tx.height, s.borrows[key]) + tx.msg.assets) * 10_000 <= 161_000_000 * 3_333)
            && (out.Ok? ==>
                  out == Ok((s.(borrows := s.borrows[key := s.borrows[key].(principle := s.borrows[key].principle + tx.msg.assets,
                                                                            interests := TermsOf(ContinuousMode), startBlock := tx.height)]),
                             [BorrowVault(tx.sender, tx.msg.assets)])))
  {
    var key := (tx.sender, tx.msg.loanId);
    if key in s.borrows && s.borrows[key].interests.Continuous? && s.borrows[key].startBlock <= tx.height {
      UpdateKeepsValue(tx.height, tx.height, s.borrows[key]);
      LimitIs(LoanValue(tx.height, s.borrows[key]) + tx.msg.assets);
    }
  }

  /** Why no more is lent: the lock, no loan of the sender's, none with collateral, a fixed one, a raised
      one, one that starts ahead, or too much. */
  lemma {:induction false} BorrowingMoreRefused(s: Store, tx: Tx)
    requires tx.msg.BorrowMoreMsg?
    ensures var key := (tx.sender, tx.msg.loanId);
            var out := Step(s, tx);
            if s.borrowLocked then out == Err(BorrowLocked)
            else if key !in s.borrows then out == Err(Std)
            else var b := s.borrows[key];
                 if b.collateral.None? then out == Err(AssetAlreadyWithdrawn)
                 else if b.interests.Fixed? then out == Err(UnavailableFixedLoan)
                 else if b.zone != SafeZone then out == Err(NeedToRepayExpensiveZone)
                 else if b.startBlock > tx.height then out == Err(Panic)
                 else out.Err? ==> out == Err(TooMuchBorrowed(LoanValue(tx.height, b) + tx.msg.assets, 53_661_300))
  {
    var key := (tx.sender, tx.msg.loanId);
    if key in s.borrows && s.borrows[key].interests.Continuous? && s.borrows[key].startBlock <= tx.height {
      UpdateKeepsValue(tx.height, tx.height, s.borrows[key]);
    }
  }

  /** Anybody may ask for a raise of any loan that is there, once while it is expensive; it is answered,
      and changes nothing. */
  lemma {:induction false} RaisingIs(s: Store, tx: Tx)
    requires tx.msg.RaiseRateMsg?
    ensures var key := (tx.msg.borrower, tx.msg.loanId);
            var out := Step(s, tx);
            if key !in s.borrows then out == Err(Std)
            else var b := s.borrows[key];
                 if !Dated(tx.height, b) then out == Err(Panic)
                 else if b.interests.Continuous? && b.collateral.None? then out == Err(AssetAlreadyWithdrawn)
                 else if ZoneOf(tx.height, b) != ExpensiveZone then out == Ok((s, []))
                 else if b.zone != SafeZone then out == Err(OnlyFromSafeZone)
                 else if b.increasor.Some? then out == Err(CantIncreaseRateMultipleTimes)
                 else out == Ok((s, []))
  {
  }

  /** Owner and lock are the owner's to set. */
  lemma {:induction false} SettingsAre(s: Store, tx: Tx)
    ensures tx.msg.SetOwnerMsg? ==>
              Step(s, tx) == if tx.sender == s.owner then Ok((s.(owner := tx.msg.owner), [])) else Err(Unauthorized)
    ensures tx.msg.ToggleLockMsg? ==>
              Step(s, tx) == if tx.sender == s.owner then Ok((s.(borrowLocked := tx.msg.lock), [])) else Err(Unauthorized)
  {
  }
}

/** Splitting a repayment never costs the borrower. */
module LenderInterest {
  import opened Base
  import opened Ledger
  import opened Lender

  // ----- Arithmetic of whole stretches

  lemma {:induction false} StretchSplit(a: nat, b: nat)
    ensures Stretch(a) + Stretch(b) <= Stretch(a + b)
    ensures a <= b ==> Stretch(a) <= Stretch(b)
  {
  }

  /** Interest does not fluctuate within ten blocks: what counts is the greatest multiple of
      ten not above, at the rate per block, rounded down. */
  lemma {:induction false} InterestByTens(rate: nat, principle: nat, blocks: nat, tens: nat)
    requires tens * MIN_BLOCK_OFFSET <= blocks < tens * MIN_BLOCK_OFFSET + MIN_BLOCK_OFFSET
    ensures var worth := rate * principle * (tens * MIN_BLOCK_OFFSET);
            InterestsWith(rate, principle, blocks) * PERCENTAGE_RATE <= worth
            < (InterestsWith(rate, principle, blocks) + 1) * PERCENTAGE_RATE
  {
    assert blocks / MIN_BLOCK_OFFSET == tens;
    DivBounds(rate * principle * Stretch(blocks), PERCENTAGE_RATE);
  }

  lemma {:induction false} FloorSum(x: nat, y: nat, z: nat)
    requires x + y <= z
    ensures x / PERCENTAGE_RATE + y / PERCENTAGE_RATE <= z / PERCENTAGE_RATE
  {
  }

  /** Interest over two stretches of time is at most interest over both at once. */
  lemma {:induction false} InterestSplits(rate: nat, principle: nat, a: nat, b: nat)
    ensures InterestsWith(rate, principle, a) + InterestsWith(rate, principle, b) <= InterestsWith(rate, principle, a + b)
  {
    var q := rate * principle;
    StretchSplit(a, b);
    MulMonotone(Stretch(a) + Stretch(b), Stretch(a + b), q);
    assert q * Stretch(a) + q * Stretch(b) == q * (Stretch(a) + Stretch(b));
    FloorSum(q * Stretch(a), q * Stretch(b), q * Stretch(a + b));
  }

  lemma {:induction false} InterestLess(rate: nat, small: nat, big: nat, blocks: nat)
    requires small <= big
    ensures InterestsWith(rate, small, blocks) <= InterestsWith(rate, big, blocks)
  {
    MulMonotone(small, big, rate);
    MulMonotone(rate * small, rate * big, Stretch(blocks));
    assert rate * small * Stretch(blocks) == Stretch(blocks) * (rate * small);
    assert rate * big * Stretch(blocks) == Stretch(blocks) * (rate * big);
    FloorSum(rate * small * Stretch(blocks), 0, rate * big * Stretch(blocks));
  }

  // ----- One partial repayment

  /** A loan at a rate nobody raised, its collateral still here. */
  predicate Open(b: Borrow) {
    b.interests.Continuous? && b.collateral.Some? && b.zone != ExpensiveZone && b.increasor.None?
  }

  function Repaid(height: nat, b: Borrow, assets: nat): Result<(Borrow, nat), Error>
    requires Dated(height, b)
  {
    RepaidSome(height, Updated(height, b), assets)
  }

  /** Updating changes no value, neither now nor, upward, later; and while nothing has accrued it
      changes nothing, so that asking often does not put off the next stretch. */
  lemma {:induction false} UpdateKeepsValue(height: nat, later: nat, b: Borrow)
    requires b.interests.Continuous? && b.startBlock <= height <= later
    ensures LoanValue(height, Updated(height, b)) == LoanValue(height, b)
    ensures LoanValue(later, Updated(height, b)) <= LoanValue(later, b)
    ensures NewInterests(height, Updated(height, b)) == 0
    ensures Updated(height, b).principle == b.principle && Dated(height, Updated(height, b))
    ensures Updated(height, b).startBlock == if NewInterests(height, b) > 0 then height else b.startBlock
  {
    var rate := b.interests.rate;
    InterestSplits(rate, b.principle, height - b.startBlock, later - height);
    assert InterestsWith(rate, b.principle, 0) == 0;
    assert height - b.startBlock + (later - height) == later - b.startBlock;
  }

  /** A partial repayment lowers the value at its block by exactly what was paid, interest
      before principle, and the value at any later block by at least that. */
  lemma {:induction false} RepaymentLowersExactly(height: nat, later: nat, b: Borrow, assets: nat)
    requires b.interests.Continuous? && b.startBlock <= height <= later && assets < LoanValue(height, b)
    ensures Repaid(height, b, assets).Ok?
    ensures var (after, interest) := Repaid(height, b, assets).value;
            && Dated(height, after) && after.interests.Continuous? && after.startBlock <= height
            && after.principle <= b.principle
            && LoanValue(height, after) + assets == LoanValue(height, b)
            && LoanValue(later, after) + assets <= LoanValue(later, b)
            && interest == (if assets < TotalInterests(height, b) then assets else TotalInterests(height, b))
            && b.principle - after.principle == assets - interest
  {
    var u := Updated(height, b);
    UpdateKeepsValue(height, later, b);
    var (after, interest) := Repaid(height, b, assets).value;
    var rate := u.interests.rate;
    InterestLess(rate, after.principle, u.principle, height - u.startBlock);
    InterestLess(rate, after.principle, u.principle, later - u.startBlock);
  }

  /** Fee and vault together get exactly what was paid, and the fee is its rate of the interest,
      rounded down, whenever interest is part of what was paid and the rate at most the whole. */
  lemma {:induction false} OrdersConserve(feeRate: nat, interest: nat, assets: nat, nft: Addr)
    requires feeRate <= PERCENTAGE_RATE && interest <= assets
    ensures RepayOrders(feeRate, interest, assets, nft).Ok?
    ensures var orders := RepayOrders(feeRate, interest, assets, nft).value;
            exists fee: nat :: fee <= interest && fee * PERCENTAGE_RATE <= interest * feeRate < (fee + 1) * PERCENTAGE_RATE
                               && orders == [DepositFees(fee, nft), RepayVault(assets - fee)]
  {
    MulMonotone(feeRate, PERCENTAGE_RATE, interest);
    QuotientAtMost(interest * feeRate, PERCENTAGE_RATE, interest);
    var fee := interest * feeRate / PERCENTAGE_RATE;
    DivBounds(interest * feeRate, PERCENTAGE_RATE);
    assert RepayOrders(feeRate, interest, assets, nft).value == [DepositFees(fee, nft), RepayVault(assets - fee)];
  }

  // ----- One message

  predicate BorrowsMore(tx: Tx, key: LoanKey) {
    tx.msg.BorrowMoreMsg? && (tx.sender, tx.msg.loanId) == key
  }

  /** What a message may do to an open loan that it leaves open. */
  lemma {:induction false} StepOnLoan(s: Store, tx: Tx, key: LoanKey, later: nat)
    requires key in s.borrows && Open(s.borrows[key]) && s.borrows[key].startBlock <= tx.height <= later
    requires Step(s, tx).Ok? && !BorrowsMore(tx, key)
    ensures var s1 := Step(s, tx).value.0;
            key in s1.borrows
            && (s1.borrows[key].collateral.Some? ==>
                  && Open(s1.borrows[key]) && s1.borrows[key].startBlock <= tx.height
                  && LoanValue(later, s1.borrows[key]) + (if tx.msg.RepayMsg? && (tx.msg.borrower, tx.msg.loanId) == key then tx.msg.assets else 0)
                     <= LoanValue(later, s.borrows[key]))
  {
    if tx.msg.RepayMsg? && (tx.msg.borrower, tx.msg.loanId) == key {
      var b := s.borrows[key];
      if tx.sender == tx.msg.borrower && tx.msg.assets < LoanValue(tx.height, b) {
        RepaymentLowersExactly(tx.height, later, b, tx.msg.assets);
      }
    }
  }

  lemma {:induction false} ClosedStays(s: Store, tx: Tx, key: LoanKey)
    requires key in s.borrows && s.borrows[key].collateral.None?
    ensures key in Exec(s, tx).borrows && Exec(s, tx).borrows[key].collateral.None?
  {
  }

  lemma {:induction false} ClosedStaysClosed(s: Store, txs: seq<Tx>, key: LoanKey)
    requires key in s.borrows && s.borrows[key].collateral.None?
    ensures key in Run(s, txs).borrows && Run(s, txs).borrows[key].collateral.None?
    decreases |txs|
  {
    if txs != [] {
      ClosedStays(s, txs[0], key);
      ClosedStaysClosed(Exec(s, txs[0]), txs[1..], key);
    }
  }

  /** Nobody raised this loan's rate. */
  predicate Unraised(b: Borrow) {
    b.zone != ExpensiveZone && b.increasor.None?
  }

  lemma {:induction false} UnraisedStep(s: Store, tx: Tx)
    requires forall q :: q in s.borrows ==> Unraised(s.borrows[q])
    ensures forall q :: q in Exec(s, tx).borrows ==> Unraised(Exec(s, tx).borrows[q])
  {
  }

  /** The rate of no loan is ever raised, although a message to raise it is accepted: its
      handler stores nothing. So no loan enters the expensive zone, and no incentive is due. */
  lemma {:induction false} NeverExpensive(s: Store, txs: seq<Tx>)
    requires forall q :: q in s.borrows ==> Unraised(s.borrows[q])
    ensures forall q :: q in Run(s, txs).borrows ==> Unraised(Run(s, txs).borrows[q])
    decreases |txs|
  {
    if txs != [] {
      UnraisedStep(s, txs[0]);
      NeverExpensive(Exec(s, txs[0]), txs[1..]);
    }
  }

  /** A raise of the rate that is accepted, and works out an expensive loan at a rate named
      for its sender, leaves the records as they were. */
  lemma {:induction false} RaiseIsLost(s: Store, height: nat, sender: Addr, borrower: Addr, loanId: nat)
    requires (borrower, loanId) in s.borrows && Open(s.borrows[(borrower, loanId)]) && s.borrows[(borrower, loanId)].zone == SafeZone
    requires Dated(height, s.borrows[(borrower, loanId)])
    requires SafeLimit() < LoanValue(height, s.borrows[(borrower, loanId)]) <= ExpensiveLimit()
    ensures var raised := Raised(s, height, sender, borrower, loanId);
            raised.Ok? && raised.value.zone == ExpensiveZone && raised.value.increasor.Some? && raised.value.increasor.value.who == sender
    ensures Exec(s, Tx(sender, height, RaiseRateMsg(borrower, loanId))) == s
  {
  }

  // ----- Borrowing more

  /** Borrowing more sets the value to the principle: the interest accrued so far is
      dropped, also when nothing more is borrowed. Nothing is lost exactly if none had
      accrued. */
  lemma {:induction false} BorrowingMoreDropsInterest(s: Store, height: nat, sender: Addr, loanId: nat, assets: nat)
    requires BorrowMore(s, height, sender, loanId, assets).Ok?
    ensures var key := (sender, loanId);
            var b := s.borrows[key];
            var after := BorrowMore(s, height, sender, loanId, assets).value.0.borrows[key];
            && Dated(height, b) && Dated(height, after)
            && LoanValue(height, after) + TotalInterests(height, b) == LoanValue(height, b) + assets
            && (LoanValue(height, after) == LoanValue(height, b) + assets <==> TotalInterests(height, b) == 0)
            && LoanValue(height, after) <= SafeLimit()
  {
    var b := s.borrows[(sender, loanId)];
    UpdateKeepsValue(height, height, b);
    assert InterestsWith(INTEREST_RATE, b.principle + assets, 0) == 0;
  }

  // ----- Over whole runs

  /** Splitting never costs: over any run that leaves a continuous loan open and borrows no
      more on it, what was paid
      towards it plus what it is worth at any later block is at most what it would have been
      worth at that block had nothing been paid. */
  lemma {:induction false} SplittingNeverCosts(s: Store, txs: seq<Tx>, key: LoanKey, height: nat, later: nat)
    requires key in s.borrows && Open(s.borrows[key]) && s.borrows[key].startBlock <= height
    requires Timely(height, txs) && height <= later
    requires forall i :: 0 <= i < |txs| ==> txs[i].height <= later && !BorrowsMore(txs[i], key)
    ensures key in Run(s, txs).borrows
    ensures Run(s, txs).borrows[key].collateral.Some? ==>
              Open(Run(s, txs).borrows[key]) && Dated(later, Run(s, txs).borrows[key])
              && Paid(s, txs, key) + LoanValue(later, Run(s, txs).borrows[key]) <= LoanValue(later, s.borrows[key])
    decreases |txs|
  {
    if txs != [] {
      var s1 := Exec(s, txs[0]);
      if Step(s, txs[0]).Ok? {
        StepOnLoan(s, txs[0], key, later);
      }
      if s1.borrows[key].collateral.None? {
        ClosedStaysClosed(s1, txs[1..], key);
      } else {
        SplittingNeverCosts(s1, txs[1..], key, txs[0].height, later);
      }
    }
  }

  /** A new continuous loan, repaid in any number of parts, never costs more than principle
      and one-shot interest. */
  lemma {:induction false} OneShotBound(s: Store, height: nat, sender: Addr, nft: Nft, assets: nat,
                                        txs: seq<Tx>, later: nat)
    requires TakeLoan(s, height, sender, nft, assets, ContinuousMode).Ok?
    requires Timely(height, txs) && height <= later
    requires forall i :: 0 <= i < |txs| ==> txs[i].height <= later && !BorrowsMore(txs[i], (sender, NewLoanId(s, sender)))
    ensures var key := (sender, NewLoanId(s, sender));
            var s1 := TakeLoan(s, height, sender, nft, assets, ContinuousMode).value.0;
            var s2 := Run(s1, txs);
            key in s2.borrows
            && (s2.borrows[key].collateral.Some? ==>
                  Dated(later, s2.borrows[key])
                  && Paid(s1, txs, key) + LoanValue(later, s2.borrows[key])
                     <= assets + InterestsWith(INTEREST_RATE, assets, later - height))
  {
    var s1 := TakeLoan(s, height, sender, nft, assets, ContinuousMode).value.0;
    SplittingNeverCosts(s1, txs, (sender, NewLoanId(s, sender)), height, later);
  }

  // ----- What a repayment orders

  /** The assets an order moves out of the contract. */
  function Moved(o: Order): nat {
    match o
    case PayIncreasor(_, assets) => assets
    case DepositFees(assets, _) => assets
    case RepayVault(assets) => assets
    case _ => 0
  }

  function AllMoved(orders: seq<Order>): nat {
    if orders == [] then 0 else Moved(orders[0]) + AllMoved(orders[1..])
  }

  lemma {:induction false} AllMovedConcat(a: seq<Order>, b: seq<Order>)
    ensures AllMoved(a + b) == AllMoved(a) + AllMoved(b)
  {
    if a == [] {
      assert a + b == b;
    } else {
      assert (a + b)[1..] == a[1..] + b;
      AllMovedConcat(a[1..], b);
    }
  }

  lemma {:induction false} OrdersMove(feeRate: nat, interest: nat, assets: nat, nft: Addr, orders: seq<Order>)
    requires RepayOrders(feeRate, interest, assets, nft) == Ok(orders)
    ensures AllMoved(orders) == assets
  {
    assert orders[1..][1..] == [];
    assert AllMoved(orders[1..]) == Moved(orders[1]);
  }

  lemma {:induction false} IncentiveMoves(s: Store, height: nat, b: Borrow, incentive: nat)
    requires Dated(height, b) && Incentive(s.incentives, height, b) == Ok(incentive)
    ensures AllMoved(IncentiveOrders(b, incentive)) == incentive
    ensures forall o :: o in IncentiveOrders(b, incentive) ==> o.PayIncreasor?
  {
  }

  /** A partial repayment's orders. */
  lemma {:induction false} PartConserved(s: Store, height: nat, borrower: Addr, loanId: nat, assets: nat, s1: Store,
                                         orders: seq<Order>)
    requires Repay(s, height, borrower, borrower, loanId, assets) == Ok((s1, orders))
    requires assets < LoanValue(height, s.borrows[(borrower, loanId)])
    ensures AllMoved(orders) == assets && s1.borrows[(borrower, loanId)].collateral.Some?
    ensures forall o :: o in orders ==> !o.GiveNft?
  {
    var b := s.borrows[(borrower, loanId)];
    var incentive := Incentive(s.incentives, height, b).value;
    var first := IncentiveOrders(b, incentive);
    var left := assets - incentive;
    var interest := RepaidSome(height, Updated(height, b.(increasor := None)), assets).value.1;
    var rest := RepayOrders(s.feeRate, interest, left, b.collateral.value.address).value;
    IncentiveMoves(s, height, b, incentive);
    OrdersMove(s.feeRate, interest, left, b.collateral.value.address, rest);
    AllMovedConcat(first, rest);
  }

  /** A whole repayment's orders, or a liquidation's. */
  lemma {:induction false} WholeConserved(s: Store, height: nat, sender: Addr, borrower: Addr, loanId: nat,
                                          assets: nat, s1: Store, orders: seq<Order>)
    requires Repay(s, height, sender, borrower, loanId, assets) == Ok((s1, orders))
    requires sender != borrower || assets >= LoanValue(height, s.borrows[(borrower, loanId)])
    ensures AllMoved(orders) == assets && s1.borrows[(borrower, loanId)].collateral.None?
    ensures s.borrows[(borrower, loanId)].collateral.Some? && GiveNft(s.borrows[(borrower, loanId)].collateral.value, sender) in orders
  {
    var b := s.borrows[(borrower, loanId)];
    var incentive := Incentive(s.incentives, height, b).value;
    var first := IncentiveOrders(b, incentive);
    var left := assets - incentive;
    var b1 := Updated(height, b.(increasor := None));
    var give := GiveNft(b.collateral.value, sender);
    var rest := RepayOrders(s.feeRate, left - b1.principle, left, b.collateral.value.address).value;
    assert orders == first + [give] + rest;
    IncentiveMoves(s, height, b, incentive);
    OrdersMove(s.feeRate, left - b1.principle, left, b.collateral.value.address, rest);
    AllMovedConcat(first, [give]);
    AllMovedConcat(first + [give], rest);
  }

  /** Every accepted repayment, of a raised loan too, is passed on to the unit, and the
      collateral goes to the payer exactly if the loan is closed, for its whole value. */
  lemma {:induction false} RepaymentConserved(s: Store, height: nat, sender: Addr, borrower: Addr, loanId: nat,
                                              assets: nat, s1: Store, orders: seq<Order>)
    requires Repay(s, height, sender, borrower, loanId, assets) == Ok((s1, orders))
    ensures var key := (borrower, loanId);
            && AllMoved(orders) == assets
            && s.borrows[key].collateral.Some?
            && (s1.borrows[key].collateral.None? <==> GiveNft(s.borrows[key].collateral.value, sender) in orders)
            && (s1.borrows[key].collateral.None? ==> assets >= LoanValue(height, s.borrows[key]))
  {
    var b := s.borrows[(borrower, loanId)];
    if sender == borrower && assets < LoanValue(height, b) {
      PartConserved(s, height, borrower, loanId, assets, s1, orders);
    } else {
      WholeConserved(s, height, sender, borrower, loanId, assets, s1, orders);
      if sender != borrower && b.interests.Continuous? {
        UpdateKeepsValue(height, height, b.(increasor := None));
      }
    }
  }
}

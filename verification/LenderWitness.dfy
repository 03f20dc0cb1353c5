/** A run of the lender, from instantiation, that drops interest owed. */
module LenderWitness {
  import opened Base
  import opened Ledger
  import opened Lender
  import opened LenderInterest

  function Takes(who: Addr, nft: Nft): Tx {
    Tx(who, 0, BorrowMsg(nft, 1_000_000, ContinuousMode))
  }

  function TakesNoMore(who: Addr): Tx {
    Tx(who, 10, BorrowMoreMsg(0, 0))
  }

  function Taken(nft: Nft): Borrow {
    Borrow(Some(nft), 1_000_000, AssetInterests(ContinuousMode), 0, SafeZone, None)
  }

  lemma {:induction false} FirstLoan(s: Store, who: Addr, nft: Nft)
    requires s.borrows == map[] && !s.borrowLocked
    ensures Exec(s, Takes(who, nft)) == s.(borrows := map[(who, 0) := Taken(nft)])
  {
    assert NewLoanId(s, who) == 0;
    assert 1_000_000 <= SafeLimit();
  }

  lemma {:induction false} OneTx(s: Store, tx: Tx)
    ensures Run(s, [tx]) == Exec(s, tx)
  {
    assert [tx][1..] == [];
    assert Run(Exec(s, tx), []) == Exec(s, tx);
  }

  /** A million borrowed at block 0 is worth 1,078,000 at block 10, and a million again once
      nothing more has been borrowed on it in that block. */
  lemma {:induction false} InterestDropped(owner: Addr, feeRate: nat, incentives: nat, who: Addr, nft: Nft)
    ensures var s := Store(owner, feeRate, incentives, false, map[]);
            var before := Run(s, [Takes(who, nft)]);
            var after := Run(s, [Takes(who, nft), TakesNoMore(who)]);
            && before.borrows == map[(who, 0) := Taken(nft)] && LoanValue(10, Taken(nft)) == 1_078_000
            && after.borrows.Keys == {(who, 0)} && Dated(10, after.borrows[(who, 0)])
            && LoanValue(10, after.borrows[(who, 0)]) == 1_000_000
  {
    var s := Store(owner, feeRate, incentives, false, map[]);
    var s1 := Exec(s, Takes(who, nft));
    var (first, second) := (Takes(who, nft), TakesNoMore(who));
    FirstLoan(s, who, nft);
    OneTx(s, first);
    OneTx(s1, second);
    assert [first, second][1..] == [second];
    assert Run(s, [first, second]) == Run(s1, [second]);
    assert Stretch(10) == 10;
    assert TotalInterests(10, Taken(nft)) == 78_000;
    assert Stretch(0) == 0;
    var b1 := Updated(10, Taken(nft));
    assert LoanValue(10, b1) == 1_078_000 <= SafeLimit();
    assert Step(s1, second).Ok?;
    BorrowingMoreDropsInterest(s1, 10, who, 0, 0);
  }
}

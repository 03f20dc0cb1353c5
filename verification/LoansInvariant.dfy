/** What every message keeps of the loan contract's records, the life of a loan, and the
    errors that cannot occur. */
module LoansInvariant {
  import opened Base
  import opened Ledger
  import opened Nfts
  import opened Loans

  // ----- The structure

  /** A loan whose collateral has been taken at some time. */
  predicate Running(st: LoanState) {
    st == Started || st == Ended || st == Defaulted
  }

  ghost predicate LoanIds(s: Store) {
    forall b: Addr, i: nat :: (b, i) in s.loans <==> b in s.lastLoan && i <= s.lastLoan[b]
  }

  ghost predicate OfferIds(s: Store) {
    forall o: nat :: o in s.offers <==> 1 <= o <= s.globalOfferIndex
  }

  ghost predicate LoanShape(loan: Collateral) {
    && (Running(loan.state) <==> loan.activeOffer.Some?)
    && (loan.activeOffer.Some? <==> loan.startBlock.Some?)
    && (Running(loan.state) ==> OnlyNfts(loan.assets))
    && loan.assets != []
  }

  ghost predicate OfferShape(offer: Offer) {
    && (offer.state == Open || offer.state == Accepted ==> offer.depositedFunds.Some?)
    && (offer.state == Cancelled ==> offer.depositedFunds.None?)
    && (offer.depositedFunds.Some? ==> offer.depositedFunds.value == offer.terms.principle)
  }

  /** A loan and its one accepted offer name each other. */
  ghost predicate Linked(s: Store) {
    && (forall key :: key in s.loans && s.loans[key].activeOffer.Some? ==>
          var o := s.loans[key].activeOffer.value;
          o in s.offers && s.offers[o].state == Accepted && s.offers[o].Loan() == key)
    && (forall o :: o in s.offers ==> s.offers[o].Loan() in s.loans)
    && (forall o :: o in s.offers && s.offers[o].state == Accepted ==> s.loans[s.offers[o].Loan()].activeOffer == Some(o))
  }

  ghost predicate Inv(s: Store) {
    && LoanIds(s)
    && OfferIds(s)
    && (forall key :: key in s.loans ==> LoanShape(s.loans[key]))
    && (forall o :: o in s.offers ==> OfferShape(s.offers[o]))
    && Linked(s)
    && s.feeRate < ONE
  }

  lemma {:induction false} InitInv(owner: Addr, feeDistributor: Addr, feeRate: nat)
    requires Instantiate(owner, feeDistributor, feeRate).Ok?
    ensures Inv(Instantiate(owner, feeDistributor, feeRate).value)
  {
  }

  // ----- Writing one record

  lemma {:induction false} PutLoanInv(s: Store, key: LoanKey, loan: Collateral)
    requires Inv(s) && key in s.loans && LoanShape(loan)
    requires loan.activeOffer == s.loans[key].activeOffer
    ensures Inv(PutLoan(s, key, loan))
  {
    var s1 := PutLoan(s, key, loan);
    assert LoanIds(s1);
    assert Linked(s1);
  }

  lemma {:induction false} PutOfferInv(s: Store, o: nat, offer: Offer)
    requires Inv(s) && o in s.offers && OfferShape(offer)
    requires offer.Loan() == s.offers[o].Loan()
    requires s.offers[o].state != Accepted && offer.state != Accepted
    ensures Inv(PutOffer(s, o, offer))
  {
    var s1 := PutOffer(s, o, offer);
    assert OfferIds(s1);
    assert Linked(s1);
  }

  // ----- Each message

  function NextLoan(s: Store, sender: Addr): nat {
    if sender in s.lastLoan then s.lastLoan[sender] + 1 else 0
  }

  lemma {:induction false} DepositFresh(s: Store, sender: Addr)
    requires LoanIds(s)
    ensures (sender, NextLoan(s, sender)) !in s.loans
  {
  }

  lemma {:induction false} DepositLinked(s: Store, sender: Addr, tokens: seq<Asset>, terms: Option<Terms>, s1: Store, r: Response)
    requires Linked(s) && (sender, NextLoan(s, sender)) !in s.loans
    requires DepositCollaterals(s, sender, tokens, terms) == Ok((s1, r))
    ensures Linked(s1)
  {
  }

  lemma {:induction false} DepositInv(s: Store, sender: Addr, tokens: seq<Asset>, terms: Option<Terms>)
    requires Inv(s) && DepositCollaterals(s, sender, tokens, terms).Ok?
    ensures Inv(DepositCollaterals(s, sender, tokens, terms).value.0)
  {
    var (s1, r) := DepositCollaterals(s, sender, tokens, terms).value;
    DepositFresh(s, sender);
    DepositLinked(s, sender, tokens, terms, s1, r);
    assert LoanIds(s1);
  }

  lemma {:induction false} MakeOfferRawLinked(s: Store, info: Info, borrower: Addr, loanId: nat, terms: Terms, s1: Store, o: nat)
    requires Linked(s) && MakeOfferRaw(s, info, borrower, loanId, terms) == Ok((s1, o)) && o !in s.offers
    ensures Linked(s1)
  {
  }

  lemma {:induction false} MakeOfferRawInv(s: Store, info: Info, borrower: Addr, loanId: nat, terms: Terms)
    requires Inv(s) && MakeOfferRaw(s, info, borrower, loanId, terms).Ok?
    ensures var (s1, o) := MakeOfferRaw(s, info, borrower, loanId, terms).value;
            Inv(s1) && o !in s.offers
  {
    var (s1, o) := MakeOfferRaw(s, info, borrower, loanId, terms).value;
    assert o !in s.offers;
    MakeOfferRawLinked(s, info, borrower, loanId, terms, s1, o);
    assert LoanIds(s1);
    assert OfferIds(s1);
  }

  /** The offer loaded is the one stored, but for a state derived from its loan. */
  lemma {:induction false} Loaded(s: Store, o: nat)
    requires Inv(s) && GetOffer(s, o).Ok?
    ensures var offer := GetOffer(s, o).value;
            o in s.offers && offer.Loan() in s.loans && OfferShape(s.offers[o])
            && offer == s.offers[o].(state := offer.state)
            && (offer.state == Accepted <==> s.offers[o].state == Accepted)
            && (offer.state == Refused ==> s.offers[o].state == Open || s.offers[o].state == Refused)
            && (offer.state == Open <==> s.offers[o].state == Open && s.loans[offer.Loan()].state == Published)
  {
  }

  lemma {:induction false} OfferMsgInv(self: Addr, s: Store, sender: Addr, o: nat)
    requires Inv(s)
    ensures CancelOffer(self, s, sender, o).Ok? ==> Inv(CancelOffer(self, s, sender, o).value.0)
    ensures WithdrawRefusedOffer(self, s, sender, o).Ok? ==> Inv(WithdrawRefusedOffer(self, s, sender, o).value.0)
    ensures RefuseOffer(s, sender, o).Ok? ==> Inv(RefuseOffer(s, sender, o).value.0)
  {
    if GetOffer(s, o).Ok? {
      Loaded(s, o);
      var offer := GetOffer(s, o).value;
      if offer.state == Open {
        PutOfferInv(s, o, offer.(state := Cancelled, depositedFunds := None));
        PutOfferInv(s, o, offer.(state := Refused));
      } else if offer.state == Refused {
        PutOfferInv(s, o, offer.(depositedFunds := None));
      }
    }
  }

  lemma {:induction false} AcceptLinked(s: Store, o: nat, s1: Store, loan: Collateral, offer: Offer)
    requires Linked(s) && o in s.offers && s.offers[o].state != Accepted && s.offers[o].Loan() in s.loans
    requires s.loans[s.offers[o].Loan()].activeOffer.None?
    requires s1 == PutOffer(PutLoan(s, s.offers[o].Loan(), loan), o, offer)
    requires loan.activeOffer == Some(o) && offer.Loan() == s.offers[o].Loan() && offer.state == Accepted
    ensures Linked(s1)
  {
  }

  lemma {:induction false} AcceptOfferRawInv(env: Env, s: Store, o: nat)
    requires Inv(s) && AcceptOfferRaw(env, s, o).Ok?
    ensures Inv(AcceptOfferRaw(env, s, o).value.0)
  {
    Loaded(s, o);
    var s1 := AcceptOfferRaw(env, s, o).value.0;
    var key := s.offers[o].Loan();
    PullsOnlyNfts(env.self, env.wallets, s.offers[o].borrower, s.loans[key].assets, PULL_ERRORS);
    assert LoanShape(s.loans[key]);
    AcceptLinked(s, o, s1, s1.loans[key], s1.offers[o]);
    assert LoanIds(s1);
    assert OfferIds(s1);
  }

  lemma {:induction false} EndingInv(env: Env, s: Store, info: Info, msg: ExecuteMsg)
    requires Inv(s) && Step(env, s, info, msg).Ok?
    requires msg.ModifyCollateralsMsg? || msg.WithdrawCollateralsMsg? || msg.RepayBorrowedFundsMsg? || msg.WithdrawDefaultedLoanMsg?
    ensures Inv(Step(env, s, info, msg).value.0)
  {
    var key := if msg.WithdrawDefaultedLoanMsg? then (msg.borrower, msg.loanId) else (info.sender, msg.loanId);
    assert LoanShape(s.loans[key]);
    var s1 := Step(env, s, info, msg).value.0;
    PutLoanInv(s, key, s1.loans[key]);
    assert s1 == PutLoan(s, key, s1.loans[key]);
  }

  lemma {:induction false} StepInv(env: Env, s: Store, info: Info, msg: ExecuteMsg)
    requires Inv(s) && Step(env, s, info, msg).Ok?
    ensures Inv(Step(env, s, info, msg).value.0)
  {
    match msg
    case DepositCollateralsMsg(tokens, terms) => DepositInv(s, info.sender, tokens, terms);
    case MakeOfferMsg(borrower, loanId, terms) => MakeOfferRawInv(s, info, borrower, loanId, terms);
    case CancelOfferMsg(o) => OfferMsgInv(env.self, s, info.sender, o);
    case RefuseOfferMsg(o) => OfferMsgInv(env.self, s, info.sender, o);
    case WithdrawRefusedOfferMsg(o) => OfferMsgInv(env.self, s, info.sender, o);
    case AcceptOfferMsg(o) => AcceptOfferRawInv(env, s, o);
    case AcceptLoanMsg(borrower, loanId) =>
      var terms := s.loans[(borrower, loanId)].terms.value;
      MakeOfferRawInv(s, info, borrower, loanId, terms);
      var (s1, o) := MakeOfferRaw(s, info, borrower, loanId, terms).value;
      AcceptOfferRawInv(env, s1, o);
    case SetFeeDistributorMsg(_) => FrameInv(s, Step(env, s, info, msg).value.0);
    case SetFeeRateMsg(_) => FrameInv(s, Step(env, s, info, msg).value.0);
    case _ => EndingInv(env, s, info, msg);
  }

  lemma {:induction false} FrameInv(s: Store, s1: Store)
    requires Inv(s) && s1.loans == s.loans && s1.offers == s.offers && s1.lastLoan == s.lastLoan
    requires s1.globalOfferIndex == s.globalOfferIndex && s1.feeRate < ONE
    ensures Inv(s1)
  {
    assert LoanIds(s1) && OfferIds(s1) && Linked(s1);
  }

  lemma {:induction false} ExecInv(self: Addr, c: Chain, tx: Tx)
    requires Inv(c.store)
    ensures Inv(Exec(self, c, tx).store)
  {
    if Try(self, c, tx).Some? {
      var funded := c.wallets.MoveAll(self, true, Fund(tx.info.sender, self, tx.info.funds)).value;
      StepInv(Env(self, tx.height, funded), c.store, tx.info, tx.msg);
    }
  }

  lemma {:induction false} RunInv(self: Addr, c: Chain, txs: seq<Tx>)
    requires Inv(c.store)
    ensures Inv(Run(self, c, txs).store)
    decreases |txs|
  {
    if txs != [] {
      ExecInv(self, c, txs[0]);
      RunInv(self, Exec(self, c, txs[0]), txs[1..]);
    }
  }

  // ----- The life of a loan

  predicate Over(st: LoanState) {
    st == Ended || st == Defaulted || st == AssetWithdrawn
  }

  /** What may become of a loan: once over nothing changes, once started only the end is
      open, and the collateral listed never changes. */
  ghost predicate LoanMoves(a: Collateral, b: Collateral) {
    && b.assets == a.assets
    && (Over(a.state) ==> b == a)
    && (a.state == Started ==> b == a || b == a.(state := Ended) || b == a.(state := Defaulted))
  }

  /** What may become of an offer: terms and parties stay, acceptance is final. */
  ghost predicate OfferMoves(a: Offer, b: Offer) {
    && b == a.(state := b.state, depositedFunds := b.depositedFunds)
    && (a.state == Accepted ==> b == a)
    && (a.state == Cancelled ==> b == a)
    && (a.depositedFunds.None? ==> b == a)
  }

  ghost predicate Moves(s: Store, s1: Store) {
    && (forall key :: key in s.loans ==> key in s1.loans && LoanMoves(s.loans[key], s1.loans[key]))
    && (forall o :: o in s.offers ==> o in s1.offers && OfferMoves(s.offers[o], s1.offers[o]))
  }

  lemma {:induction false} PutLoanMoves(s: Store, s1: Store, key: LoanKey)
    requires key in s.loans && key in s1.loans && LoanMoves(s.loans[key], s1.loans[key])
    requires s1 == PutLoan(s, key, s1.loans[key])
    ensures Moves(s, s1)
  {
  }

  lemma {:induction false} PutOfferMoves(s: Store, o: nat, offer: Offer)
    requires o in s.offers && OfferMoves(s.offers[o], offer)
    ensures Moves(s, PutOffer(s, o, offer))
  {
  }

  lemma {:induction false} OfferMsgMoves(self: Addr, s: Store, sender: Addr, o: nat)
    requires Inv(s)
    ensures CancelOffer(self, s, sender, o).Ok? ==> Moves(s, CancelOffer(self, s, sender, o).value.0)
    ensures WithdrawRefusedOffer(self, s, sender, o).Ok? ==> Moves(s, WithdrawRefusedOffer(self, s, sender, o).value.0)
    ensures RefuseOffer(s, sender, o).Ok? ==> Moves(s, RefuseOffer(s, sender, o).value.0)
  {
    if GetOffer(s, o).Ok? {
      Loaded(s, o);
      var offer := GetOffer(s, o).value;
      if offer.state == Open {
        PutOfferMoves(s, o, offer.(state := Cancelled, depositedFunds := None));
        PutOfferMoves(s, o, offer.(state := Refused));
      } else if offer.state == Refused && offer.depositedFunds.Some? {
        PutOfferMoves(s, o, offer.(depositedFunds := None));
      }
    }
  }

  lemma {:induction false} AcceptOfferRawMoves(env: Env, s: Store, o: nat)
    requires Inv(s) && AcceptOfferRaw(env, s, o).Ok?
    ensures Moves(s, AcceptOfferRaw(env, s, o).value.0)
  {
    Loaded(s, o);
  }

  lemma {:induction false} MakeOfferRawMoves(s: Store, info: Info, borrower: Addr, loanId: nat, terms: Terms, s1: Store, o: nat)
    requires OfferIds(s) && MakeOfferRaw(s, info, borrower, loanId, terms) == Ok((s1, o))
    ensures Moves(s, s1)
  {
    assert o !in s.offers;
  }

  lemma {:induction false} LoanMsgMoves(env: Env, s: Store, info: Info, msg: ExecuteMsg)
    requires Inv(s) && Step(env, s, info, msg).Ok?
    requires msg.ModifyCollateralsMsg? || msg.WithdrawCollateralsMsg? || msg.RepayBorrowedFundsMsg? || msg.WithdrawDefaultedLoanMsg?
    ensures Moves(s, Step(env, s, info, msg).value.0)
  {
    var key := if msg.WithdrawDefaultedLoanMsg? then (msg.borrower, msg.loanId) else (info.sender, msg.loanId);
    PutLoanMoves(s, Step(env, s, info, msg).value.0, key);
  }

  lemma {:induction false} AcceptLoanMoves(env: Env, s: Store, info: Info, borrower: Addr, loanId: nat)
    requires Inv(s) && AcceptLoan(env, s, info, borrower, loanId).Ok?
    ensures Moves(s, AcceptLoan(env, s, info, borrower, loanId).value.0)
  {
    var terms := s.loans[(borrower, loanId)].terms.value;
    MakeOfferRawInv(s, info, borrower, loanId, terms);
    var (s1, o) := MakeOfferRaw(s, info, borrower, loanId, terms).value;
    MakeOfferRawMoves(s, info, borrower, loanId, terms, s1, o);
    AcceptOfferRawMoves(env, s1, o);
    MovesTransitive(s, s1, AcceptOfferRaw(env, s1, o).value.0);
  }

  lemma {:induction false} OfferStepMoves(env: Env, s: Store, info: Info, msg: ExecuteMsg, s1: Store, r: Response)
    requires Inv(s) && Step(env, s, info, msg) == Ok((s1, r))
    requires msg.MakeOfferMsg? || msg.CancelOfferMsg? || msg.RefuseOfferMsg? || msg.WithdrawRefusedOfferMsg?
    ensures Moves(s, s1)
  {
    if msg.MakeOfferMsg? {
      MakeOfferRawMoves(s, info, msg.borrower, msg.loanId, msg.offered, s1, s.globalOfferIndex + 1);
    } else {
      OfferMsgMoves(env.self, s, info.sender, msg.offer);
    }
  }

  lemma {:induction false} DepositMoves(s: Store, sender: Addr, tokens: seq<Asset>, terms: Option<Terms>, s1: Store, r: Response)
    requires LoanIds(s) && DepositCollaterals(s, sender, tokens, terms) == Ok((s1, r))
    ensures Moves(s, s1)
  {
    DepositFresh(s, sender);
  }

  lemma {:induction false} StepMoves(env: Env, s: Store, info: Info, msg: ExecuteMsg)
    requires Inv(s) && Step(env, s, info, msg).Ok?
    ensures Moves(s, Step(env, s, info, msg).value.0)
  {
    var (s1, r) := Step(env, s, info, msg).value;
    if msg.DepositCollateralsMsg? {
      DepositMoves(s, info.sender, msg.tokens, msg.terms, s1, r);
    } else if msg.AcceptOfferMsg? {
      AcceptOfferRawMoves(env, s, msg.offer);
    } else if msg.AcceptLoanMsg? {
      AcceptLoanMoves(env, s, info, msg.borrower, msg.loanId);
    } else if msg.MakeOfferMsg? || msg.CancelOfferMsg? || msg.RefuseOfferMsg? || msg.WithdrawRefusedOfferMsg? {
      OfferStepMoves(env, s, info, msg, s1, r);
    } else if !msg.SetFeeDistributorMsg? && !msg.SetFeeRateMsg? {
      LoanMsgMoves(env, s, info, msg);
    }
  }

  lemma {:induction false} MovesTransitive(a: Store, b: Store, c: Store)
    requires Moves(a, b) && Moves(b, c)
    ensures Moves(a, c)
  {
    forall key | key in a.loans ensures key in c.loans && LoanMoves(a.loans[key], c.loans[key]) {
      assert LoanMoves(a.loans[key], b.loans[key]);
    }
    forall o | o in a.offers ensures o in c.offers && OfferMoves(a.offers[o], c.offers[o]) {
      assert OfferMoves(a.offers[o], b.offers[o]);
    }
  }

  /** Over any run: an ended, defaulted or withdrawn loan is never touched again, a started
      one can only end or default, and its accepted offer is frozen. */
  lemma {:induction false} RunMoves(self: Addr, c: Chain, txs: seq<Tx>)
    requires Inv(c.store)
    ensures Moves(c.store, Run(self, c, txs).store)
    decreases |txs|
  {
    if txs != [] {
      var d := Exec(self, c, txs[0]);
      ExecInv(self, c, txs[0]);
      assert Moves(c.store, d.store) by {
        if Try(self, c, txs[0]).Some? {
          var funded := c.wallets.MoveAll(self, true, Fund(txs[0].info.sender, self, txs[0].info.funds)).value;
          StepMoves(Env(self, txs[0].height, funded), c.store, txs[0].info, txs[0].msg);
        }
      }
      RunMoves(self, d, txs[1..]);
      MovesTransitive(c.store, d.store, Run(self, c, txs).store);
    }
  }

  // ----- Ending a started loan

  /** A started loan stands on its accepted offer. */
  lemma {:induction false} StartedHasOffer(s: Store, key: LoanKey)
    requires Inv(s) && key in s.loans && Running(s.loans[key].state)
    ensures ActiveLoan(s, s.loans[key]).Ok?
    ensures var offer := ActiveLoan(s, s.loans[key]).value;
            offer.state == Accepted && offer.Loan() == key && offer == s.offers[s.loans[key].activeOffer.value]
            && offer.depositedFunds == Some(offer.terms.principle)
    ensures s.loans[key].startBlock.Some? && OnlyNfts(s.loans[key].assets)
  {
    assert LoanShape(s.loans[key]);
    var o := s.loans[key].activeOffer.value;
    assert OfferShape(s.offers[o]);
  }

  /** The last block at which a started loan may be repaid. */
  ghost function Term(s: Store, key: LoanKey): nat
    requires Inv(s) && key in s.loans && Running(s.loans[key].state)
  {
    StartedHasOffer(s, key);
    s.loans[key].startBlock.value + ActiveLoan(s, s.loans[key]).value.terms.duration
  }

  /** At each height exactly one of repayment and default is open to a started loan, unless
      its term lies beyond the last block number: then neither ever is. */
  lemma {:induction false} OneEndOpenIff(s: Store, key: LoanKey, height: nat)
    requires Inv(s) && key in s.loans && s.loans[key].state == Started
    ensures var repay := CanRepayLoan(s, height, s.loans[key]).Ok?;
            var default := IsLoanDefaulted(s, height, s.loans[key]).Ok?;
            && (repay <==> Term(s, key) < U64_LIMIT && height <= Term(s, key))
            && (default <==> Term(s, key) < U64_LIMIT && height > Term(s, key))
            && ((repay != default) <==> Term(s, key) < U64_LIMIT)
  {
    StartedHasOffer(s, key);
  }

  /** An ended, defaulted or withdrawn loan opens neither way out again. */
  lemma {:induction false} OverIsClosed(env: Env, s: Store, info: Info, key: LoanKey)
    requires Inv(s) && key in s.loans && s.loans[key].state != Started
    ensures RepayBorrowedFunds(env, s, info.(sender := key.0), key.1).Err?
    ensures WithdrawDefaultedLoan(env, s, info.sender, key.0, key.1).Err?
  {
    assert LoanShape(s.loans[key]);
  }

  // ----- Repayment

  /** Of the interest the lender gets what the fee rate leaves, rounded down. */
  lemma {:induction false} AfterFeeBounds(interest: nat, feeRate: nat)
    requires feeRate < ONE
    ensures AfterFee(interest, feeRate).Ok?
    ensures var kept := AfterFee(interest, feeRate).value;
            kept <= interest && kept * ONE <= interest * (ONE - feeRate) < (kept + 1) * ONE
  {
    MulMonotone(ONE - feeRate, ONE, interest);
    QuotientAtMost(interest * (ONE - feeRate), ONE, interest);
    DivBounds(interest * (ONE - feeRate), ONE);
  }

  ghost predicate FeeRateKept(kept: nat, interest: nat, feeRate: nat) {
    feeRate < ONE && kept * ONE <= interest * (ONE - feeRate) < (kept + 1) * ONE
  }

  /** Repayment is balance-neutral: lender's part plus fee is exactly what was sent, the
      lender gets the principle back and of the interest what the fee rate leaves, rounded
      down, and neither subtraction in it underflows. */
  lemma {:induction false} RepaymentIsNeutral(env: Env, s: Store, info: Info, loanId: nat)
    requires Inv(s) && RepayBorrowedFunds(env, s, info, loanId).Ok?
    ensures var key := (info.sender, loanId);
            var (s1, r) := RepayBorrowedFunds(env, s, info, loanId).value;
            var offer := ActiveLoan(s, s.loans[key]).value;
            var denom := info.funds[0].denom;
            exists payback: nat, fee: nat ::
              && r.messages == SendSome(env.self, offer.lender, Native(Coin(denom, payback)))
                               + Sends(env.self, info.sender, s.loans[key].assets)
                               + SendSome(env.self, s.feeDistributor, Native(Coin(denom, fee)))
              && payback + fee == info.funds[0].amount
              && offer.terms.principle.amount <= payback <= offer.terms.principle.amount + offer.terms.interest
              && FeeRateKept(payback - offer.terms.principle.amount, offer.terms.interest, s.feeRate)
  {
    var key := (info.sender, loanId);
    var offer := ActiveLoan(s, s.loans[key]).value;
    AfterFeeBounds(offer.terms.interest, s.feeRate);
    var payback := offer.terms.principle.amount + AfterFee(offer.terms.interest, s.feeRate).value;
    var fee := info.funds[0].amount - payback;
    var r := RepayBorrowedFunds(env, s, info, loanId).value.1;
    assert r.messages == SendSome(env.self, offer.lender, Native(Coin(info.funds[0].denom, payback)))
                         + Sends(env.self, info.sender, s.loans[key].assets)
                         + SendSome(env.self, s.feeDistributor, Native(Coin(info.funds[0].denom, fee)));
  }

  function RepayMessages(self: Addr, lender: Addr, borrower: Addr, distributor: Addr, payback: Coin,
                         assets: seq<Asset>, fee: Coin): seq<Transfer> {
    SendSome(self, lender, Native(payback)) + Sends(self, borrower, assets) + SendSome(self, distributor, Native(fee))
  }

  /** The parts of an accepted repayment. */
  lemma {:induction false} RepayParts(env: Env, s: Store, info: Info, loanId: nat, s1: Store, r: Response)
    returns (offer: Offer, payback: Coin, fee: Coin)
    requires Inv(s) && RepayBorrowedFunds(env, s, info, loanId) == Ok((s1, r))
    ensures var key := (info.sender, loanId);
            && key in s.loans && s.loans[key].state == Started && ActiveLoan(s, s.loans[key]) == Ok(offer)
            && s1 == PutLoan(s, key, s.loans[key].(state := Ended))
            && r.messages == RepayMessages(env.self, offer.lender, info.sender, s.feeDistributor, payback, s.loans[key].assets, fee)
    ensures info.funds == [Coin(offer.terms.principle.denom, payback.amount + fee.amount)]
    ensures payback.denom == offer.terms.principle.denom && fee.denom == offer.terms.principle.denom
    ensures AfterFee(offer.terms.interest, s.feeRate).Ok?
    ensures payback.amount == offer.terms.principle.amount + AfterFee(offer.terms.interest, s.feeRate).value
  {
    offer := ActiveLoan(s, s.loans[(info.sender, loanId)]).value;
    var sent := info.funds[0];
    payback := Coin(sent.denom, offer.terms.principle.amount + AfterFee(offer.terms.interest, s.feeRate).value);
    fee := Coin(sent.denom, sent.amount - payback.amount);
  }

  /** Repayment of a started loan is accepted exactly with the one right coin, in amount
      at least principle and interest, up to the term. */
  lemma {:induction false} RepayAccepts(env: Env, s: Store, info: Info, loanId: nat)
    requires Inv(s) && (info.sender, loanId) in s.loans && s.loans[(info.sender, loanId)].state == Started
    ensures var key := (info.sender, loanId);
            var terms := ActiveLoan(s, s.loans[key]).value.terms;
            var due := terms.principle.amount + terms.interest;
            RepayBorrowedFunds(env, s, info, loanId).Ok?
            <==> (env.height <= Term(s, key) < U64_LIMIT && due < U128_LIMIT
                  && |info.funds| == 1 && info.funds[0].denom == terms.principle.denom && info.funds[0].amount >= due)
  {
    var key := (info.sender, loanId);
    StartedHasOffer(s, key);
    OneEndOpenIff(s, key, env.height);
    AfterFeeBounds(ActiveLoan(s, s.loans[key]).value.terms.interest, s.feeRate);
  }

  // ----- Errors that cannot occur

  lemma {:induction false} NoUnreachable(env: Env, s: Store, info: Info, msg: ExecuteMsg)
    requires Inv(s)
    requires msg.RepayBorrowedFundsMsg? || msg.WithdrawDefaultedLoanMsg?
    ensures Step(env, s, info, msg) != Err(Unreachable)
  {
    var key := if msg.WithdrawDefaultedLoanMsg? then (msg.borrower, msg.loanId) else (info.sender, msg.loanId);
    if key in s.loans {
      assert LoanShape(s.loans[key]);
    }
  }

  lemma {:induction false} PullsNoBug(env: Env, borrower: Addr, assets: seq<Asset>)
    ensures Pulls(env.self, env.wallets, borrower, assets, PULL_ERRORS) != Err(Unreachable)
  {
    if assets != [] {
      PullsNoBug(env, borrower, assets[1..]);
    }
  }

  lemma {:induction false} NoUnreachableElsewhere(env: Env, s: Store, info: Info, msg: ExecuteMsg)
    requires !msg.RepayBorrowedFundsMsg? && !msg.WithdrawDefaultedLoanMsg?
    ensures Step(env, s, info, msg) != Err(Unreachable)
  {
    forall borrower, assets {
      PullsNoBug(env, borrower, assets);
    }
  }

  /** In every reachable state the `Unreachable` arms are dead: a loan that started lists
      only cw721 and cw1155 assets. */
  lemma {:induction false} NeverUnreachable(self: Addr, c: Chain, txs: seq<Tx>, env: Env, info: Info, msg: ExecuteMsg)
    requires Inv(c.store)
    ensures Step(env, Run(self, c, txs).store, info, msg) != Err(Unreachable)
  {
    RunInv(self, c, txs);
    var s := Run(self, c, txs).store;
    if msg.RepayBorrowedFundsMsg? || msg.WithdrawDefaultedLoanMsg? {
      NoUnreachable(env, s, info, msg);
    } else {
      NoUnreachableElsewhere(env, s, info, msg);
    }
  }
}

/** The collateral of a started loan: it can always be had at the end of the loan, unless the
    loan has no end. */
module LoansCollateral {
  import opened Base
  import opened Ledger
  import opened Nfts
  import opened Loans
  import opened LoansInvariant
  import opened LoansEscrow

  /** A started loan's collateral lives at real contracts. */
  ghost predicate Real(s: Store) {
    forall key :: key in s.loans && s.loans[key].state == Started ==>
      forall i :: 0 <= i < |s.loans[key].assets| ==> s.loans[key].assets[i].HasContract()
  }

  lemma {:induction false} AcceptReal(env: Env, s: Store, o: nat, s1: Store, r: Response, allow: bool)
    requires Inv(s) && Real(s) && AcceptOfferRaw(env, s, o) == Ok((s1, r))
    requires env.wallets.MoveAll(env.self, allow, r.messages).Some?
    ensures Real(s1)
  {
    Loaded(s, o);
    var key := s.offers[o].Loan();
    var pulls := Pulls(env.self, env.wallets, s.offers[o].borrower, s.loans[key].assets, PULL_ERRORS).value;
    var push := [Transfer(env.self, s.offers[o].borrower, Native(s.offers[o].depositedFunds.value))];
    MoveAllConcat(env.wallets, env.self, allow, push, pulls);
    PulledReal(env.self, env.wallets, s.offers[o].borrower, s.loans[key].assets, PULL_ERRORS,
               env.wallets.MoveAll(env.self, allow, push).value, allow);
  }

  lemma {:induction false} OthersReal(env: Env, s: Store, info: Info, msg: ExecuteMsg)
    requires Inv(s) && Real(s) && Step(env, s, info, msg).Ok? && !Accepting(msg)
    ensures Real(Step(env, s, info, msg).value.0)
  {
    var s1 := Step(env, s, info, msg).value.0;
    StepMoves(env, s, info, msg);
    NoneStarts(env, s, info, msg);
    forall key | key in s1.loans && s1.loans[key].state == Started
      ensures forall i :: 0 <= i < |s1.loans[key].assets| ==> s1.loans[key].assets[i].HasContract()
    {
      assert LoanMoves(s.loans[key], s1.loans[key]);
    }
  }

  ghost predicate StartsNone(s: Store, s1: Store) {
    forall key :: key in s1.loans && s1.loans[key].state == Started ==> key in s.loans && s.loans[key].state == Started
  }

  lemma {:induction false} OfferMsgStartsNone(env: Env, s: Store, info: Info, msg: ExecuteMsg)
    requires Step(env, s, info, msg).Ok?
    requires msg.MakeOfferMsg? || msg.CancelOfferMsg? || msg.RefuseOfferMsg? || msg.WithdrawRefusedOfferMsg?
    ensures StartsNone(s, Step(env, s, info, msg).value.0)
  {
  }

  /** Only acceptance starts a loan. */
  lemma {:induction false} NoneStarts(env: Env, s: Store, info: Info, msg: ExecuteMsg)
    requires Step(env, s, info, msg).Ok? && !Accepting(msg)
    ensures StartsNone(s, Step(env, s, info, msg).value.0)
  {
    if msg.MakeOfferMsg? || msg.CancelOfferMsg? || msg.RefuseOfferMsg? || msg.WithdrawRefusedOfferMsg? {
      OfferMsgStartsNone(env, s, info, msg);
    }
  }

  lemma {:induction false} MakeOfferRawReal(s: Store, info: Info, borrower: Addr, loanId: nat, terms: Terms, s1: Store, o: nat)
    requires Real(s) && MakeOfferRaw(s, info, borrower, loanId, terms) == Ok((s1, o))
    ensures Real(s1)
  {
  }

  lemma {:induction false} AcceptLoanReal(env: Env, s: Store, info: Info, borrower: Addr, loanId: nat, s2: Store,
                                          r: Response, allow: bool)
    requires Inv(s) && Real(s) && AcceptLoan(env, s, info, borrower, loanId) == Ok((s2, r))
    requires env.wallets.MoveAll(env.self, allow, r.messages).Some?
    ensures Real(s2)
  {
    var s1, o := AcceptLoanParts(env, s, info, borrower, loanId, s2, r);
    var terms := s.loans[(borrower, loanId)].terms.value;
    MakeOfferRawInv(s, info, borrower, loanId, terms);
    MakeOfferRawReal(s, info, borrower, loanId, terms, s1, o);
    AcceptReal(env, s1, o, s2, r.(made := None), allow);
  }

  lemma {:induction false} RealStep(self: Addr, c: Chain, tx: Tx)
    requires ChainInv(self, c) && Real(c.store) && tx.info.sender != self
    ensures Real(Exec(self, c, tx).store)
  {
    if Try(self, c, tx).Some? {
      var env := EnvOf(self, c, tx);
      var (s1, r) := Step(env, c.store, tx.info, tx.msg).value;
      match tx.msg
      case AcceptOfferMsg(o) => AcceptReal(env, c.store, o, s1, r, tx.allow);
      case AcceptLoanMsg(borrower, loanId) =>
        AcceptLoanReal(env, c.store, tx.info, borrower, loanId, s1, r, tx.allow);
      case _ => OthersReal(env, c.store, tx.info, tx.msg);
    }
  }

  lemma {:induction false} RealRun(self: Addr, c: Chain, txs: seq<Tx>)
    requires ChainInv(self, c) && Real(c.store) && OrderlyRun(self, c, txs)
    ensures Real(Run(self, c, txs).store)
    decreases |txs|
  {
    if txs != [] {
      RealStep(self, c, txs[0]);
      CustodyStep(self, c, txs[0]);
      RealRun(self, Exec(self, c, txs[0]), txs[1..]);
    }
  }

  // ----- Foreclosing

  /** Past its term, a started loan's lender gets the whole collateral. */
  lemma {:induction false} LenderCanForeclose(self: Addr, c: Chain, key: LoanKey, height: nat)
    requires ChainInv(self, c) && Real(c.store) && key in c.store.loans && c.store.loans[key].state == Started
    requires Term(c.store, key) < height && Term(c.store, key) < U64_LIMIT
    ensures var lender := ActiveLoan(c.store, c.store.loans[key]).value.lender;
            var out := Try(self, c, Tx(Info(lender, []), height, false, WithdrawDefaultedLoanMsg(key.0, key.1)));
            && out.Some?
            && forall k :: out.value.0.wallets.Held(lender, k) == c.wallets.Held(lender, k) + Total(c.store.loans[key].assets, k)
  {
    StartedHasOffer(c.store, key);
    OneEndOpenIff(c.store, key, height);
    var lender := ActiveLoan(c.store, c.store.loans[key]).value.lender;
    var assets := c.store.loans[key].assets;
    SecuredCanGo(self, c, key, lender);
    var tx := Tx(Info(lender, []), height, false, WithdrawDefaultedLoanMsg(key.0, key.1));
    assert Try(self, c, tx).value.0.wallets == c.wallets.MoveAll(self, false, Sends(self, lender, assets)).value;
  }

  /** The collateral of a started loan can be sent, and arrives. */
  lemma {:induction false} SecuredCanGo(self: Addr, c: Chain, key: LoanKey, to: Addr)
    requires Custody(self, c) && Real(c.store) && key in c.store.loans && c.store.loans[key].state == Started && to != self
    ensures var moved := c.wallets.MoveAll(self, false, Sends(self, to, c.store.loans[key].assets));
            moved.Some? && forall k :: moved.value.Held(to, k) == c.wallets.Held(to, k) + Total(c.store.loans[key].assets, k)
  {
    var assets := c.store.loans[key].assets;
    var ts := Sends(self, to, assets);
    forall k ensures Outgoing(self, ts, k) <= c.wallets.Held(self, k) {
      SendsOutgoing(self, to, assets, k);
      assert c.wallets.Held(self, k) == Escrowed(c.store, k);
      MapSumBounds(LoanWeights(c.store.loans, k), key);
    }
    PushSucceeds(c.wallets, self, false, ts);
    forall k ensures c.wallets.MoveAll(self, false, ts).value.Held(to, k) == c.wallets.Held(to, k) + Total(assets, k) {
      PushCredits(c.wallets, self, false, ts, to, k);
      SendsReceived(self, to, assets, to, k);
    }
  }

  // ----- Repaying

  /** What a repayment brings `who`: the borrower the collateral, the lender the principle and
      the interest after the fee, the fee distributor the fee. */
  function Due(s: Store, key: LoanKey, offer: Offer, payback: nat, fee: nat, who: Addr, k: Key): nat
    requires key in s.loans
  {
    var denom := offer.terms.principle.denom;
    (if who == key.0 then Total(s.loans[key].assets, k) else 0)
    + (if who == offer.lender then Native(Coin(denom, payback)).Of(k) else 0)
    + (if who == s.feeDistributor then Native(Coin(denom, fee)).Of(k) else 0)
  }

  lemma {:induction false} RepayReceived(self: Addr, lender: Addr, borrower: Addr, distributor: Addr, payback: Coin,
                                         assets: seq<Asset>, fee: Coin, who: Addr, k: Key)
    requires lender != self && borrower != self && distributor != self
    ensures Received(who, RepayMessages(self, lender, borrower, distributor, payback, assets, fee), k)
         == (if who == borrower then Total(assets, k) else 0)
            + (if who == lender then Native(payback).Of(k) else 0)
            + (if who == distributor then Native(fee).Of(k) else 0)
  {
    SendSomeFlow(self, lender, Native(payback), who, k);
    SendSomeFlow(self, distributor, Native(fee), who, k);
    SendsReceived(self, borrower, assets, who, k);
    ReceivedConcat(who, SendSome(self, lender, Native(payback)), Sends(self, borrower, assets), k);
    ReceivedConcat(who, SendSome(self, lender, Native(payback)) + Sends(self, borrower, assets),
                   SendSome(self, distributor, Native(fee)), k);
  }

  /** The coin that repays a started loan exactly. */
  ghost function DueCoin(s: Store, key: LoanKey): Coin
    requires Inv(s) && key in s.loans && s.loans[key].state == Started
  {
    StartedHasOffer(s, key);
    var terms := ActiveLoan(s, s.loans[key]).value.terms;
    Coin(terms.principle.denom, terms.principle.amount + terms.interest)
  }

  lemma {:induction false} RepaymentContracts(self: Addr, lender: Addr, borrower: Addr, distributor: Addr,
                                              payback: Coin, assets: seq<Asset>, fee: Coin)
    requires forall i :: 0 <= i < |assets| ==> assets[i].HasContract()
    ensures var ts := RepayMessages(self, lender, borrower, distributor, payback, assets, fee);
            forall i :: 0 <= i < |ts| ==> ts[i].asset.HasContract()
  {
  }

  /** A repayment's messages are covered by the escrow and the coin just sent. */
  lemma {:induction false} RepaymentCovered(env: Env, s: Store, info: Info, loanId: nat, w: Wallets, s1: Store, r: Response)
    requires Inv(s) && Outsiders(env.self, s) && Real(s) && info.sender != env.self
    requires RepayBorrowedFunds(env, s, info, loanId) == Ok((s1, r)) && s.loans[(info.sender, loanId)].state == Started
    requires forall k :: w.Held(env.self, k) == Escrowed(s, k)
    requires w.MoveAll(env.self, true, Fund(info.sender, env.self, info.funds)) == Some(env.wallets)
    ensures AllPushes(env.self, r.messages) && env.wallets.MoveAll(env.self, false, r.messages).Some?
    ensures forall k :: Outgoing(env.self, r.messages, k) <= env.wallets.Held(env.self, k)
  {
    var key := (info.sender, loanId);
    forall k ensures Outgoing(env.self, r.messages, k) <= env.wallets.Held(env.self, k) {
      RepayBooks(env, s, info, loanId, s1, r, k);
      NothingIncoming(env.self, r.messages, k);
      Funded(env.self, w, info.sender, info.funds, k);
      assert w.Held(env.self, k) == Escrowed(s, k);
    }
    RepayBooks(env, s, info, loanId, s1, r, NativeKey(""));
    var offer, payback, fee := RepayParts(env, s, info, loanId, s1, r);
    RepaymentContracts(env.self, offer.lender, info.sender, s.feeDistributor, payback, s.loans[key].assets, fee);
    PushSucceeds(env.wallets, env.self, false, r.messages);
  }

  lemma {:induction false} RepayGoesThrough(self: Addr, c: Chain, tx: Tx, loanId: nat, v: Wallets, s1: Store, r: Response)
    requires tx.msg == RepayBorrowedFundsMsg(loanId) && !tx.allow
    requires c.wallets.MoveAll(self, true, Fund(tx.info.sender, self, tx.info.funds)) == Some(v)
    requires RepayBorrowedFunds(Env(self, tx.height, v), c.store, tx.info, loanId) == Ok((s1, r))
    requires v.MoveAll(self, false, r.messages).Some?
    ensures Try(self, c, tx) == Some((Chain(s1, v.MoveAll(self, false, r.messages).value), r))
  {
  }

  /** Up to its term, a borrower who holds principle and interest gets the whole collateral
      back for exactly that, and lender and fee distributor share it as the fee rate says. */
  lemma {:induction false} BorrowerCanRepay(self: Addr, c: Chain, key: LoanKey, height: nat)
    requires ChainInv(self, c) && Real(c.store) && key in c.store.loans && c.store.loans[key].state == Started
    requires height <= Term(c.store, key) < U64_LIMIT
    requires DueCoin(c.store, key).amount < U128_LIMIT
    requires DueCoin(c.store, key).amount <= c.wallets.Held(key.0, NativeKey(DueCoin(c.store, key).denom))
    ensures var due := DueCoin(c.store, key);
            var offer := ActiveLoan(c.store, c.store.loans[key]).value;
            var kept := AfterFee(offer.terms.interest, c.store.feeRate);
            var out := Try(self, c, Tx(Info(key.0, [due]), height, false, RepayBorrowedFundsMsg(key.1)));
            && out.Some? && kept.Ok? && kept.value <= offer.terms.interest
            && forall who, k :: who != self ==>
                 out.value.0.wallets.Held(who, k) + (if who == key.0 then Native(due).Of(k) else 0)
                 == c.wallets.Held(who, k)
                    + Due(c.store, key, offer, offer.terms.principle.amount + kept.value, offer.terms.interest - kept.value, who, k)
  {
    StartedHasOffer(c.store, key);
    var due := DueCoin(c.store, key);
    var info := Info(key.0, [due]);
    PaidIn(c.wallets, key.0, self, due, key.0, NativeKey(due.denom));
    var v := c.wallets.MoveAll(self, true, Fund(key.0, self, [due])).value;
    var env := Env(self, height, v);
    RepayAccepts(env, c.store, info, key.1);
    var (s1, r) := RepayBorrowedFunds(env, c.store, info, key.1).value;
    RepaymentCovered(env, c.store, info, key.1, c.wallets, s1, r);
    RepayGoesThrough(self, c, Tx(info, height, false, RepayBorrowedFundsMsg(key.1)), key.1, v, s1, r);
    var offer, payback, fee := RepayParts(env, c.store, info, key.1, s1, r);
    AfterFeeBounds(offer.terms.interest, c.store.feeRate);
    forall who, k | who != self
      ensures v.MoveAll(self, false, r.messages).value.Held(who, k) + (if who == key.0 then Native(due).Of(k) else 0)
           == c.wallets.Held(who, k) + Due(c.store, key, offer, payback.amount, fee.amount, who, k)
    {
      PaidIn(c.wallets, key.0, self, due, who, k);
      PushCredits(v, self, false, r.messages, who, k);
      RepayReceived(self, offer.lender, key.0, c.store.feeDistributor, payback, c.store.loans[key].assets, fee, who, k);
    }
  }

  // ----- From instantiation

  /** What the two theorems above ask of a state holds after every orderly run. */
  lemma {:induction false} AlwaysSolvent(self: Addr, c: Chain, txs: seq<Tx>)
    requires Genesis(self, c) && OrderlyRun(self, c, txs)
    ensures ChainInv(self, Run(self, c, txs)) && Real(Run(self, c, txs).store)
  {
    GenesisInv(self, c);
    CustodyRun(self, c, txs);
    RealRun(self, c, txs);
  }

  /** From instantiation, after any orderly run, each started loan with a countable term can
      be ended: by its lender past the term, with the collateral, and before by its borrower,
      against principle and interest. */
  lemma {:induction false} StartedLoansCanEnd(self: Addr, c: Chain, txs: seq<Tx>, key: LoanKey, height: nat)
    requires Genesis(self, c) && OrderlyRun(self, c, txs)
    requires key in Run(self, c, txs).store.loans && Run(self, c, txs).store.loans[key].state == Started
    ensures var d := Run(self, c, txs);
            && Inv(d.store)
            && var lender := ActiveLoan(d.store, d.store.loans[key]).value.lender;
            && var due := DueCoin(d.store, key);
            && var foreclosed := Try(self, d, Tx(Info(lender, []), height, false, WithdrawDefaultedLoanMsg(key.0, key.1)));
            && var repaid := Try(self, d, Tx(Info(key.0, [due]), height, false, RepayBorrowedFundsMsg(key.1)));
            && (Term(d.store, key) < height && Term(d.store, key) < U64_LIMIT ==>
                  foreclosed.Some?
                  && forall k :: foreclosed.value.0.wallets.Held(lender, k) == d.wallets.Held(lender, k) + Total(d.store.loans[key].assets, k))
            && (height <= Term(d.store, key) < U64_LIMIT && due.amount < U128_LIMIT
                && due.amount <= d.wallets.Held(key.0, NativeKey(due.denom)) ==>
                  repaid.Some?
                  && forall k: Key :: !k.NativeKey? ==>
                       repaid.value.0.wallets.Held(key.0, k) == d.wallets.Held(key.0, k) + Total(d.store.loans[key].assets, k))
  {
    AlwaysSolvent(self, c, txs);
    var d := Run(self, c, txs);
    StartedHasOffer(d.store, key);
    if Term(d.store, key) < height && Term(d.store, key) < U64_LIMIT {
      LenderCanForeclose(self, d, key, height);
    }
    var due := DueCoin(d.store, key);
    if height <= Term(d.store, key) < U64_LIMIT && due.amount < U128_LIMIT && due.amount <= d.wallets.Held(key.0, NativeKey(due.denom)) {
      BorrowerCanRepay(self, d, key, height);
    }
  }

  // ----- Loans without an end

  /** A started loan whose term is no block number. */
  ghost predicate Endless(s: Store, key: LoanKey) {
    Inv(s) && key in s.loans && s.loans[key].state == Started && Term(s, key) >= U64_LIMIT
  }

  /** A started loan is only touched by its repayment and its default. */
  ghost predicate StartedStay(s: Store, s1: Store) {
    forall key :: key in s.loans && s.loans[key].state == Started ==> key in s1.loans && s1.loans[key] == s.loans[key]
  }

  lemma {:induction false} AcceptOfferRawStays(env: Env, s: Store, o: nat)
    requires AcceptOfferRaw(env, s, o).Ok?
    ensures StartedStay(s, AcceptOfferRaw(env, s, o).value.0)
  {
  }

  lemma {:induction false} MakeOfferRawStays(s: Store, info: Info, borrower: Addr, loanId: nat, terms: Terms)
    requires MakeOfferRaw(s, info, borrower, loanId, terms).Ok?
    ensures StartedStay(s, MakeOfferRaw(s, info, borrower, loanId, terms).value.0)
  {
  }

  lemma {:induction false} LoanMsgStays(env: Env, s: Store, info: Info, msg: ExecuteMsg, s1: Store, r: Response)
    requires LoanIds(s) && Step(env, s, info, msg) == Ok((s1, r))
    requires msg.DepositCollateralsMsg? || msg.ModifyCollateralsMsg? || msg.WithdrawCollateralsMsg?
    ensures StartedStay(s, s1)
  {
    DepositFresh(s, info.sender);
  }

  lemma {:induction false} OthersStay(env: Env, s: Store, info: Info, msg: ExecuteMsg, s1: Store, r: Response)
    requires Step(env, s, info, msg) == Ok((s1, r))
    requires msg.CancelOfferMsg? || msg.RefuseOfferMsg? || msg.WithdrawRefusedOfferMsg? || msg.SetFeeDistributorMsg? || msg.SetFeeRateMsg?
    ensures StartedStay(s, s1)
  {
    assert s1.loans == s.loans;
  }

  lemma {:induction false} StartedOnlyEnd(env: Env, s: Store, info: Info, msg: ExecuteMsg, s1: Store, r: Response)
    requires Inv(s) && Step(env, s, info, msg) == Ok((s1, r))
    requires !msg.RepayBorrowedFundsMsg? && !msg.WithdrawDefaultedLoanMsg?
    ensures StartedStay(s, s1)
  {
    match msg
    case MakeOfferMsg(borrower, loanId, terms) => MakeOfferRawStays(s, info, borrower, loanId, terms);
    case AcceptOfferMsg(o) => AcceptOfferRawStays(env, s, o);
    case AcceptLoanMsg(borrower, loanId) =>
      var terms := s.loans[(borrower, loanId)].terms.value;
      var (s0, o) := MakeOfferRaw(s, info, borrower, loanId, terms).value;
      MakeOfferRawStays(s, info, borrower, loanId, terms);
      AcceptOfferRawStays(env, s0, o);
    case DepositCollateralsMsg(_, _) => LoanMsgStays(env, s, info, msg, s1, r);
    case ModifyCollateralsMsg(_, _) => LoanMsgStays(env, s, info, msg, s1, r);
    case WithdrawCollateralsMsg(_) => LoanMsgStays(env, s, info, msg, s1, r);
    case _ => OthersStay(env, s, info, msg, s1, r);
  }

  lemma {:induction false} EndlessNotRepaid(env: Env, s: Store, info: Info, loanId: nat, key: LoanKey, s1: Store, r: Response)
    requires Endless(s, key) && RepayBorrowedFunds(env, s, info, loanId) == Ok((s1, r))
    ensures key in s1.loans && s1.loans[key] == s.loans[key]
  {
    OneEndOpenIff(s, key, env.height);
  }

  lemma {:induction false} EndlessNotDefaulted(env: Env, s: Store, sender: Addr, borrower: Addr, loanId: nat,
                                               key: LoanKey, s1: Store, r: Response)
    requires Endless(s, key) && WithdrawDefaultedLoan(env, s, sender, borrower, loanId) == Ok((s1, r))
    ensures key in s1.loans && s1.loans[key] == s.loans[key]
  {
    OneEndOpenIff(s, key, env.height);
  }

  lemma {:induction false} EndlessSame(env: Env, s: Store, info: Info, msg: ExecuteMsg, key: LoanKey, s1: Store, r: Response)
    requires Endless(s, key) && Step(env, s, info, msg) == Ok((s1, r))
    ensures key in s1.loans && s1.loans[key] == s.loans[key]
  {
    match msg
    case RepayBorrowedFundsMsg(loanId) => EndlessNotRepaid(env, s, info, loanId, key, s1, r);
    case WithdrawDefaultedLoanMsg(borrower, loanId) => EndlessNotDefaulted(env, s, info.sender, borrower, loanId, key, s1, r);
    case _ => StartedOnlyEnd(env, s, info, msg, s1, r);
  }

  lemma {:induction false} EndlessStill(s: Store, s1: Store, key: LoanKey)
    requires Endless(s, key) && Inv(s1) && Moves(s, s1) && s1.loans[key] == s.loans[key]
    ensures Endless(s1, key)
  {
    StartedHasOffer(s, key);
    var o := s.loans[key].activeOffer.value;
    assert OfferMoves(s.offers[o], s1.offers[o]);
    StartedHasOffer(s1, key);
  }

  lemma {:induction false} EndlessStep(env: Env, s: Store, info: Info, msg: ExecuteMsg, key: LoanKey)
    requires Endless(s, key) && Step(env, s, info, msg).Ok?
    ensures var s1 := Step(env, s, info, msg).value.0; Endless(s1, key) && s1.loans[key] == s.loans[key]
  {
    var (s1, r) := Step(env, s, info, msg).value;
    StepInv(env, s, info, msg);
    StepMoves(env, s, info, msg);
    EndlessSame(env, s, info, msg, key, s1, r);
    EndlessStill(s, s1, key);
  }

  /** A started loan whose term is no block number stays as it is, whatever is sent. */
  lemma {:induction false} EndlessForever(self: Addr, c: Chain, txs: seq<Tx>, key: LoanKey)
    requires Endless(c.store, key)
    ensures var s := Run(self, c, txs).store; Endless(s, key) && s.loans[key] == c.store.loans[key]
    decreases |txs|
  {
    if txs != [] {
      if Try(self, c, txs[0]).Some? {
        EndlessStep(EnvOf(self, c, txs[0]), c.store, txs[0].info, txs[0].msg, key);
      }
      EndlessForever(self, Exec(self, c, txs[0]), txs[1..], key);
    }
  }

  /** Its collateral stays with the contract after every orderly run. */
  lemma {:induction false} EndlessKeepsCollateral(self: Addr, c: Chain, txs: seq<Tx>, key: LoanKey, k: Key)
    requires ChainInv(self, c) && OrderlyRun(self, c, txs) && Endless(c.store, key)
    ensures Run(self, c, txs).wallets.Held(self, k) >= Total(c.store.loans[key].assets, k)
  {
    CustodyRun(self, c, txs);
    EndlessForever(self, c, txs, key);
    var d := Run(self, c, txs);
    assert d.wallets.Held(self, k) == Escrowed(d.store, k);
    MapSumBounds(LoanWeights(d.store.loans, k), key);
  }
}

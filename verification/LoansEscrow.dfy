/** The loan contract's escrow: it holds exactly the collateral of started loans and the
    deposits of offers not accepted. */
module LoansEscrow {
  import opened Base
  import opened Ledger
  import opened Nfts
  import opened Loans
  import opened LoansInvariant

  function LoanWeight(loan: Collateral, k: Key): nat {
    if loan.state == Started then Total(loan.assets, k) else 0
  }

  /** An accepted offer keeps its `depositedFunds` although the money is gone. */
  function OfferWeight(offer: Offer, k: Key): nat {
    if offer.state != Accepted && offer.depositedFunds.Some? then Native(offer.depositedFunds.value).Of(k) else 0
  }

  function LoanWeights(m: map<LoanKey, Collateral>, k: Key): map<LoanKey, nat> {
    map x | x in m :: LoanWeight(m[x], k)
  }

  function OfferWeights(m: map<nat, Offer>, k: Key): map<nat, nat> {
    map x | x in m :: OfferWeight(m[x], k)
  }

  /** What the records say the contract keeps of `k`. */
  ghost function Escrowed(s: Store, k: Key): nat {
    MapSum(LoanWeights(s.loans, k)) + MapSum(OfferWeights(s.offers, k))
  }

  lemma {:induction false} PutLoanEscrowed(s: Store, key: LoanKey, loan: Collateral, k: Key)
    ensures Escrowed(PutLoan(s, key, loan), k) + (if key in s.loans then LoanWeight(s.loans[key], k) else 0)
         == Escrowed(s, k) + LoanWeight(loan, k)
  {
    assert LoanWeights(s.loans[key := loan], k) == LoanWeights(s.loans, k)[key := LoanWeight(loan, k)];
    MapSumUpdate(LoanWeights(s.loans, k), key, LoanWeight(loan, k));
  }

  lemma {:induction false} PutOfferEscrowed(s: Store, o: nat, offer: Offer, k: Key)
    ensures Escrowed(PutOffer(s, o, offer), k) + (if o in s.offers then OfferWeight(s.offers[o], k) else 0)
         == Escrowed(s, k) + OfferWeight(offer, k)
  {
    assert OfferWeights(s.offers[o := offer], k) == OfferWeights(s.offers, k)[o := OfferWeight(offer, k)];
    MapSumUpdate(OfferWeights(s.offers, k), o, OfferWeight(offer, k));
  }

  // ----- The books of one message

  predicate TakesCoins(msg: ExecuteMsg) {
    msg.MakeOfferMsg? || msg.AcceptLoanMsg? || msg.RepayBorrowedFundsMsg?
  }

  /** Coins sent along with a message that has no use for them. */
  function Stray(info: Info, msg: ExecuteMsg, k: Key): nat {
    if TakesCoins(msg) then 0 else Total(Natives(info.funds), k)
  }

  /** Nobody the contract pays is the contract itself. */
  ghost predicate Outsiders(self: Addr, s: Store) {
    && s.feeDistributor != self
    && (forall key :: key in s.loans ==> key.0 != self)
    && (forall o :: o in s.offers ==> s.offers[o].lender != self)
  }

  /** Recorded after + sent + stray == recorded before + received. */
  ghost predicate Books(self: Addr, s: Store, s1: Store, r: Response, received: nat, stray: nat, k: Key) {
    Escrowed(s1, k) + Outgoing(self, r.messages, k) + stray == Escrowed(s, k) + received + Incoming(self, r.messages, k)
  }

  lemma {:induction false} MakeOfferRawBooks(s: Store, info: Info, borrower: Addr, loanId: nat, terms: Terms, k: Key)
    requires OfferIds(s) && MakeOfferRaw(s, info, borrower, loanId, terms).Ok?
    ensures Escrowed(MakeOfferRaw(s, info, borrower, loanId, terms).value.0, k)
         == Escrowed(s, k) + Total(Natives(info.funds), k)
  {
    var key := (borrower, loanId);
    assert s.globalOfferIndex + 1 !in s.offers;
    var loan := s.loans[key].(offerAmount := s.loans[key].offerAmount + 1);
    var o := s.globalOfferIndex + 1;
    var s1 := MakeOfferRaw(s, info, borrower, loanId, terms).value.0;
    PutLoanEscrowed(s, key, loan, k);
    PutOfferEscrowed(PutLoan(s, key, loan), o, s1.offers[o], k);
    assert info.funds == [terms.principle];
    NativesOne(terms.principle, k);
  }

  lemma {:induction false} RefundBooks(self: Addr, s: Store, sender: Addr, msg: ExecuteMsg, k: Key)
    requires Inv(s) && Outsiders(self, s)
    requires msg.CancelOfferMsg? || msg.WithdrawRefusedOfferMsg?
    ensures var out := if msg.CancelOfferMsg? then CancelOffer(self, s, sender, msg.offer)
                       else WithdrawRefusedOffer(self, s, sender, msg.offer);
            out.Ok? ==> Books(self, s, out.value.0, out.value.1, 0, 0, k) && AllPushes(self, out.value.1.messages)
  {
    var o := msg.offer;
    var out := if msg.CancelOfferMsg? then CancelOffer(self, s, sender, o) else WithdrawRefusedOffer(self, s, sender, o);
    if out.Ok? {
      Loaded(s, o);
      PutOfferEscrowed(s, o, out.value.0.offers[o], k);
      OnePush(self, sender, Native(s.offers[o].depositedFunds.value), k);
    }
  }

  lemma {:induction false} RefuseBooks(s: Store, sender: Addr, o: nat, k: Key)
    requires Inv(s) && RefuseOffer(s, sender, o).Ok?
    ensures Escrowed(RefuseOffer(s, sender, o).value.0, k) == Escrowed(s, k)
  {
    Loaded(s, o);
    PutOfferEscrowed(s, o, s.offers[o].(state := Refused), k);
  }

  /** What acceptance pays out and what it pulls in. */
  lemma {:induction false} AcceptOfferRawBooks(env: Env, s: Store, o: nat, s1: Store, r: Response, k: Key)
    requires Inv(s) && Outsiders(env.self, s) && AcceptOfferRaw(env, s, o) == Ok((s1, r))
    ensures o in s.offers && s.offers[o].Loan() in s.loans
    ensures var assets := s.loans[s.offers[o].Loan()].assets;
            var coin := s.offers[o].depositedFunds.value;
            var borrower := s.offers[o].borrower;
            && s.offers[o].depositedFunds.Some? && borrower != env.self && Pulls(env.self, env.wallets, borrower, assets, PULL_ERRORS).Ok?
            && r.messages == [Transfer(env.self, borrower, Native(coin))] + Pulls(env.self, env.wallets, borrower, assets, PULL_ERRORS).value
            && Escrowed(s1, k) + Native(coin).Of(k) == Escrowed(s, k) + Total(assets, k)
  {
    Loaded(s, o);
    var key := s.offers[o].Loan();
    assert s1 == PutOffer(PutLoan(s, key, s1.loans[key]), o, s1.offers[o]);
    PutLoanEscrowed(s, key, s1.loans[key], k);
    PutOfferEscrowed(PutLoan(s, key, s1.loans[key]), o, s1.offers[o], k);
  }

  lemma {:induction false} RepayFlow(self: Addr, lender: Addr, borrower: Addr, distributor: Addr, payback: Coin,
                                     assets: seq<Asset>, fee: Coin, k: Key)
    requires lender != self && borrower != self && distributor != self
    ensures var ts := RepayMessages(self, lender, borrower, distributor, payback, assets, fee);
            AllPushes(self, ts) && Outgoing(self, ts, k) == Native(payback).Of(k) + Native(fee).Of(k) + Total(assets, k)
  {
    SendSomeFlow(self, lender, Native(payback), self, k);
    SendSomeFlow(self, distributor, Native(fee), self, k);
    SendsOutgoing(self, borrower, assets, k);
    OutgoingConcat(self, SendSome(self, lender, Native(payback)), Sends(self, borrower, assets), k);
    OutgoingConcat(self, SendSome(self, lender, Native(payback)) + Sends(self, borrower, assets),
                   SendSome(self, distributor, Native(fee)), k);
  }

  lemma {:induction false} RepaySettles(self: Addr, s: Store, key: LoanKey, lender: Addr, payback: Coin, fee: Coin, k: Key)
    requires key in s.loans && s.loans[key].state == Started
    requires lender != self && key.0 != self && s.feeDistributor != self && payback.denom == fee.denom
    ensures var ts := RepayMessages(self, lender, key.0, s.feeDistributor, payback, s.loans[key].assets, fee);
            && AllPushes(self, ts) && Incoming(self, ts, k) == 0
            && Escrowed(PutLoan(s, key, s.loans[key].(state := Ended)), k) + Outgoing(self, ts, k)
               == Escrowed(s, k) + Total(Natives([Coin(payback.denom, payback.amount + fee.amount)]), k)
  {
    RepayFlow(self, lender, key.0, s.feeDistributor, payback, s.loans[key].assets, fee, k);
    NothingIncoming(self, RepayMessages(self, lender, key.0, s.feeDistributor, payback, s.loans[key].assets, fee), k);
    PutLoanEscrowed(s, key, s.loans[key].(state := Ended), k);
    NativesOne(Coin(payback.denom, payback.amount + fee.amount), k);
  }

  lemma {:induction false} RepayBooks(env: Env, s: Store, info: Info, loanId: nat, s1: Store, r: Response, k: Key)
    requires Inv(s) && Outsiders(env.self, s) && RepayBorrowedFunds(env, s, info, loanId) == Ok((s1, r))
    ensures Books(env.self, s, s1, r, Total(Natives(info.funds), k), 0, k) && AllPushes(env.self, r.messages)
  {
    var offer, payback, fee := RepayParts(env, s, info, loanId, s1, r);
    StartedHasOffer(s, (info.sender, loanId));
    RepaySettles(env.self, s, (info.sender, loanId), offer.lender, payback, fee, k);
  }

  lemma {:induction false} DefaultBooks(env: Env, s: Store, sender: Addr, borrower: Addr, loanId: nat, k: Key)
    requires Inv(s) && Outsiders(env.self, s) && WithdrawDefaultedLoan(env, s, sender, borrower, loanId).Ok?
    ensures var (s1, r) := WithdrawDefaultedLoan(env, s, sender, borrower, loanId).value;
            Books(env.self, s, s1, r, 0, 0, k) && AllPushes(env.self, r.messages)
  {
    var key := (borrower, loanId);
    assert LoanShape(s.loans[key]);
    StartedHasOffer(s, key);
    SendsOutgoing(env.self, sender, s.loans[key].assets, k);
    PutLoanEscrowed(s, key, s.loans[key].(state := Defaulted), k);
  }

  predicate Accepting(msg: ExecuteMsg) {
    msg.AcceptOfferMsg? || msg.AcceptLoanMsg?
  }

  lemma {:induction false} QuietLoanBooks(env: Env, s: Store, info: Info, msg: ExecuteMsg, s1: Store, r: Response, k: Key)
    requires LoanIds(s) && Step(env, s, info, msg) == Ok((s1, r))
    requires msg.DepositCollateralsMsg? || msg.ModifyCollateralsMsg? || msg.WithdrawCollateralsMsg?
    ensures r.messages == [] && Escrowed(s1, k) == Escrowed(s, k)
  {
    DepositFresh(s, info.sender);
    var key := (info.sender, if msg.DepositCollateralsMsg? then NextLoan(s, info.sender) else msg.loanId);
    PutLoanEscrowed(s, key, s1.loans[key], k);
  }

  /** The messages that send nothing and keep nothing. */
  lemma {:induction false} QuietBooks(env: Env, s: Store, info: Info, msg: ExecuteMsg, s1: Store, r: Response, k: Key)
    requires Inv(s) && Step(env, s, info, msg) == Ok((s1, r))
    requires msg.DepositCollateralsMsg? || msg.ModifyCollateralsMsg? || msg.WithdrawCollateralsMsg?
             || msg.RefuseOfferMsg? || msg.SetFeeDistributorMsg? || msg.SetFeeRateMsg?
    ensures r.messages == [] && Escrowed(s1, k) == Escrowed(s, k)
  {
    match msg
    case RefuseOfferMsg(o) => RefuseBooks(s, info.sender, o, k);
    case SetFeeDistributorMsg(_) =>
    case SetFeeRateMsg(_) =>
    case _ => QuietLoanBooks(env, s, info, msg, s1, r, k);
  }

  /** No coins come in, and what goes out is what the records lose. */
  lemma {:induction false} SpendingBooks(env: Env, s: Store, info: Info, msg: ExecuteMsg, s1: Store, r: Response, k: Key)
    requires Inv(s) && Outsiders(env.self, s) && Step(env, s, info, msg) == Ok((s1, r)) && !Accepting(msg) && !TakesCoins(msg)
    ensures Books(env.self, s, s1, r, 0, 0, k) && AllPushes(env.self, r.messages)
  {
    match msg
    case CancelOfferMsg(_) => RefundBooks(env.self, s, info.sender, msg, k);
    case WithdrawRefusedOfferMsg(_) => RefundBooks(env.self, s, info.sender, msg, k);
    case WithdrawDefaultedLoanMsg(borrower, loanId) => DefaultBooks(env, s, info.sender, borrower, loanId, k);
    case _ => QuietBooks(env, s, info, msg, s1, r, k);
  }

  /** Every message but an acceptance only sends, and its books balance but for stray coins. */
  lemma {:induction false} SendingBooks(env: Env, s: Store, info: Info, msg: ExecuteMsg, s1: Store, r: Response, k: Key)
    requires Inv(s) && Outsiders(env.self, s) && Step(env, s, info, msg) == Ok((s1, r)) && !Accepting(msg)
    ensures Books(env.self, s, s1, r, Total(Natives(info.funds), k), Stray(info, msg, k), k) && AllPushes(env.self, r.messages)
  {
    if msg.MakeOfferMsg? {
      MakeOfferRawBooks(s, info, msg.borrower, msg.loanId, msg.offered, k);
    } else if msg.RepayBorrowedFundsMsg? {
      RepayBooks(env, s, info, msg.loanId, s1, r, k);
    } else {
      SpendingBooks(env, s, info, msg, s1, r, k);
    }
  }

  // ----- The wallets follow the books

  ghost predicate Custody(self: Addr, c: Chain) {
    forall k :: c.wallets.Held(self, k) == Escrowed(c.store, k)
  }

  ghost predicate ChainInv(self: Addr, c: Chain) {
    Inv(c.store) && Outsiders(self, c.store) && Custody(self, c)
  }

  function FundedWallets(self: Addr, c: Chain, tx: Tx): Wallets
    requires c.wallets.MoveAll(self, true, Fund(tx.info.sender, self, tx.info.funds)).Some?
  {
    c.wallets.MoveAll(self, true, Fund(tx.info.sender, self, tx.info.funds)).value
  }

  function EnvOf(self: Addr, c: Chain, tx: Tx): Env
    requires c.wallets.MoveAll(self, true, Fund(tx.info.sender, self, tx.info.funds)).Some?
  {
    Env(self, tx.height, FundedWallets(self, c, tx))
  }

  /** The collateral an accepting message takes. */
  function Taken(s: Store, msg: ExecuteMsg): seq<Asset> {
    match msg
    case AcceptOfferMsg(o) =>
      if o in s.offers && s.offers[o].Loan() in s.loans then s.loans[s.offers[o].Loan()].assets else []
    case AcceptLoanMsg(borrower, loanId) =>
      if (borrower, loanId) in s.loans then s.loans[(borrower, loanId)].assets else []
    case _ => []
  }

  /** The wallets after an acceptance's one payment and its pulls. */
  lemma {:induction false} AcceptMoves(self: Addr, w: Wallets, allow: bool, push: seq<Transfer>, pulls: seq<Transfer>, k: Key)
    requires AllPushes(self, push) && AllPulls(self, pulls)
    requires k.NftKey? ==> Outgoing(self, push, k) == 0
    requires w.MoveAll(self, allow, push + pulls).Some?
    ensures var sum := w.Held(self, k) - Outgoing(self, push, k) + Incoming(self, pulls, k);
            w.MoveAll(self, allow, push + pulls).value.Held(self, k) == if k.NftKey? && sum > 1 then 1 else sum
  {
    MoveAllConcat(w, self, allow, push, pulls);
    PushEffect(w, self, allow, push, k);
    PullEffect(w.MoveAll(self, allow, push).value, self, allow, pulls, k);
  }

  /** An acceptance, as its parts. */
  lemma {:induction false} AcceptOfferRawFollows(env: Env, s: Store, o: nat, s1: Store, r: Response, allow: bool,
                                                 w: Wallets, k: Key)
    requires Inv(s) && Outsiders(env.self, s) && AcceptOfferRaw(env, s, o) == Ok((s1, r))
    requires env.wallets.MoveAll(env.self, allow, r.messages) == Some(w)
    requires env.wallets.Held(env.self, k) >= Escrowed(s, k)
    requires !k.NativeKey? ==> env.wallets.Held(env.self, k) == Escrowed(s, k)
    ensures o in s.offers && s.offers[o].Loan() in s.loans
    ensures w.Held(env.self, k) + Escrowed(s, k) + Surplus(s.loans[s.offers[o].Loan()].assets, k)
         == Escrowed(s1, k) + env.wallets.Held(env.self, k)
  {
    AcceptOfferRawBooks(env, s, o, s1, r, k);
    var assets := s.loans[s.offers[o].Loan()].assets;
    var borrower := s.offers[o].borrower;
    var coin := s.offers[o].depositedFunds.value;
    PullsIncoming(env.self, env.wallets, borrower, assets, PULL_ERRORS, k);
    OnePush(env.self, borrower, Native(coin), k);
    AcceptMoves(env.self, env.wallets, allow, [Transfer(env.self, borrower, Native(coin))],
                Pulls(env.self, env.wallets, borrower, assets, PULL_ERRORS).value, k);
  }

  lemma {:induction false} AcceptOfferFollows(env: Env, s: Store, info: Info, o: nat, s1: Store, r: Response,
                                              allow: bool, w: Wallets, k: Key)
    requires Inv(s) && Outsiders(env.self, s) && AcceptOffer(env, s, info.sender, o) == Ok((s1, r))
    requires env.wallets.MoveAll(env.self, allow, r.messages) == Some(w)
    requires env.wallets.Held(env.self, k) == Escrowed(s, k) + Total(Natives(info.funds), k)
    ensures w.Held(env.self, k) + Surplus(Taken(s, AcceptOfferMsg(o)), k) == Escrowed(s1, k) + Total(Natives(info.funds), k)
  {
    StrayOnlyNative(info.funds, k);
    AcceptOfferRawFollows(env, s, o, s1, r, allow, w, k);
  }

  lemma {:induction false} MakeOfferRawKeeps(self: Addr, s: Store, info: Info, borrower: Addr, loanId: nat,
                                             terms: Terms, s1: Store, o: nat)
    requires Outsiders(self, s) && info.sender != self && MakeOfferRaw(s, info, borrower, loanId, terms) == Ok((s1, o))
    ensures Outsiders(self, s1) && o in s1.offers && s1.offers[o].Loan() == (borrower, loanId)
    ensures (borrower, loanId) in s1.loans && s1.loans[(borrower, loanId)].assets == s.loans[(borrower, loanId)].assets
  {
  }

  /** Taking a loan on its own terms is making an offer and accepting it. */
  lemma {:induction false} AcceptLoanParts(env: Env, s: Store, info: Info, borrower: Addr, loanId: nat, s2: Store, r: Response)
    returns (s1: Store, o: nat)
    requires AcceptLoan(env, s, info, borrower, loanId) == Ok((s2, r))
    ensures (borrower, loanId) in s.loans && s.loans[(borrower, loanId)].terms.Some?
    ensures MakeOfferRaw(s, info, borrower, loanId, s.loans[(borrower, loanId)].terms.value) == Ok((s1, o))
    ensures AcceptOfferRaw(env, s1, o) == Ok((s2, r.(made := None)))
  {
    s1 := MakeOfferRaw(s, info, borrower, loanId, s.loans[(borrower, loanId)].terms.value).value.0;
    o := MakeOfferRaw(s, info, borrower, loanId, s.loans[(borrower, loanId)].terms.value).value.1;
  }

  /** An offer made and then accepted, once the coins are in. */
  lemma {:induction false} MadeFollows(env: Env, s: Store, info: Info, borrower: Addr, loanId: nat, terms: Terms, s1: Store, o: nat,
                                       s2: Store, r: Response, allow: bool, w: Wallets, k: Key)
    requires Inv(s) && Outsiders(env.self, s) && info.sender != env.self
    requires MakeOfferRaw(s, info, borrower, loanId, terms) == Ok((s1, o)) && AcceptOfferRaw(env, s1, o) == Ok((s2, r))
    requires env.wallets.MoveAll(env.self, allow, r.messages) == Some(w)
    requires env.wallets.Held(env.self, k) == Escrowed(s, k) + Total(Natives(info.funds), k)
    ensures (borrower, loanId) in s.loans && w.Held(env.self, k) + Surplus(s.loans[(borrower, loanId)].assets, k) == Escrowed(s2, k)
  {
    MakeOfferRawInv(s, info, borrower, loanId, terms);
    MakeOfferRawKeeps(env.self, s, info, borrower, loanId, terms, s1, o);
    MakeOfferRawBooks(s, info, borrower, loanId, terms, k);
    AcceptOfferRawFollows(env, s1, o, s2, r, allow, w, k);
  }

  lemma {:induction false} AcceptLoanFollows(env: Env, s: Store, info: Info, borrower: Addr, loanId: nat, s2: Store, r: Response,
                                             allow: bool, w: Wallets, k: Key)
    requires Inv(s) && Outsiders(env.self, s) && info.sender != env.self
    requires AcceptLoan(env, s, info, borrower, loanId) == Ok((s2, r)) && env.wallets.MoveAll(env.self, allow, r.messages) == Some(w)
    requires env.wallets.Held(env.self, k) == Escrowed(s, k) + Total(Natives(info.funds), k)
    ensures (borrower, loanId) in s.loans && w.Held(env.self, k) + Surplus(s.loans[(borrower, loanId)].assets, k) == Escrowed(s2, k)
  {
    var s1, o := AcceptLoanParts(env, s, info, borrower, loanId, s2, r);
    MadeFollows(env, s, info, borrower, loanId, s.loans[(borrower, loanId)].terms.value, s1, o, s2, r.(made := None), allow, w, k);
  }

  lemma {:induction false} SendingFollows(env: Env, s: Store, info: Info, msg: ExecuteMsg, s1: Store, r: Response,
                                          allow: bool, w: Wallets, k: Key)
    requires Inv(s) && Outsiders(env.self, s) && !Accepting(msg) && Step(env, s, info, msg) == Ok((s1, r))
    requires env.wallets.MoveAll(env.self, allow, r.messages) == Some(w)
    requires env.wallets.Held(env.self, k) == Escrowed(s, k) + Total(Natives(info.funds), k)
    ensures w.Held(env.self, k) == Escrowed(s1, k) + Stray(info, msg, k)
  {
    StrayOnlyNative(info.funds, k);
    SendingBooks(env, s, info, msg, s1, r, k);
    NothingIncoming(env.self, r.messages, k);
    PushEffect(env.wallets, env.self, allow, r.messages, k);
  }

  lemma {:induction false} StepFollows(env: Env, s: Store, info: Info, msg: ExecuteMsg, s1: Store, r: Response,
                                       allow: bool, w: Wallets, k: Key)
    requires Inv(s) && Outsiders(env.self, s) && info.sender != env.self
    requires Step(env, s, info, msg) == Ok((s1, r)) && env.wallets.MoveAll(env.self, allow, r.messages) == Some(w)
    requires env.wallets.Held(env.self, k) == Escrowed(s, k) + Total(Natives(info.funds), k)
    ensures w.Held(env.self, k) + Surplus(Taken(s, msg), k) == Escrowed(s1, k) + Stray(info, msg, k)
  {
    if msg.AcceptOfferMsg? {
      AcceptOfferFollows(env, s, info, msg.offer, s1, r, allow, w, k);
    } else if msg.AcceptLoanMsg? {
      AcceptLoanFollows(env, s, info, msg.borrower, msg.loanId, s1, r, allow, w, k);
    } else {
      SendingFollows(env, s, info, msg, s1, r, allow, w, k);
    }
  }

  /** A transaction that goes through, as its parts. */
  lemma {:induction false} TryParts(self: Addr, c: Chain, tx: Tx, d: Chain, r: Response)
    requires Try(self, c, tx) == Some((d, r))
    ensures c.wallets.MoveAll(self, true, Fund(tx.info.sender, self, tx.info.funds)).Some?
    ensures Step(EnvOf(self, c, tx), c.store, tx.info, tx.msg) == Ok((d.store, r))
    ensures FundedWallets(self, c, tx).MoveAll(self, tx.allow, r.messages) == Some(d.wallets)
  {
  }

  /** After any message the contract holds what is recorded, plus stray coins, less NFTs
      recorded twice. */
  lemma {:induction false} WalletsFollow(self: Addr, c: Chain, tx: Tx, d: Chain, r: Response, k: Key)
    requires ChainInv(self, c) && tx.info.sender != self && Try(self, c, tx) == Some((d, r))
    ensures d.wallets.Held(self, k) + Surplus(Taken(c.store, tx.msg), k) == Escrowed(d.store, k) + Stray(tx.info, tx.msg, k)
  {
    TryParts(self, c, tx, d, r);
    assert c.wallets.Held(self, k) == Escrowed(c.store, k);
    Funded(self, c.wallets, tx.info.sender, tx.info.funds, k);
    StepFollows(EnvOf(self, c, tx), c.store, tx.info, tx.msg, d.store, r, tx.allow, d.wallets, k);
  }

  // ----- When custody is kept

  predicate NoStray(info: Info, msg: ExecuteMsg) {
    TakesCoins(msg) || NoCoins(info.funds)
  }

  ghost predicate NoStrays(info: Info, msg: ExecuteMsg) {
    forall k :: Stray(info, msg, k) == 0
  }

  lemma {:induction false} StrayIff(info: Info, msg: ExecuteMsg)
    ensures NoStrays(info, msg) <==> NoStray(info, msg)
  {
    NoCoinsIff(info.funds);
    if !NoStray(info, msg) {
      var k :| Total(Natives(info.funds), k) != 0;
      assert Stray(info, msg, k) != 0;
    }
  }

  /** A message keeps custody exactly when no coin comes unasked and the loan it starts, if
      any, lists no NFT twice. */
  lemma {:induction false} CustodyIff(self: Addr, c: Chain, tx: Tx)
    requires ChainInv(self, c) && tx.info.sender != self && Try(self, c, tx).Some?
    ensures Custody(self, Try(self, c, tx).value.0)
       <==> NoStray(tx.info, tx.msg) && DistinctNfts(Taken(c.store, tx.msg))
  {
    var (d, r) := Try(self, c, tx).value;
    forall k ensures d.wallets.Held(self, k) + Surplus(Taken(c.store, tx.msg), k) == Escrowed(d.store, k) + Stray(tx.info, tx.msg, k) {
      WalletsFollow(self, c, tx, d, r, k);
    }
    StrayIff(tx.info, tx.msg);
    SurplusIff(Taken(c.store, tx.msg));
    if Custody(self, d) {
      forall k ensures Stray(tx.info, tx.msg, k) == 0 && Surplus(Taken(c.store, tx.msg), k) == 0 {
        assert d.wallets.Held(self, k) == Escrowed(d.store, k);
        StrayOnlyNative(tx.info.funds, k);
      }
    }
    if NoStrays(tx.info, tx.msg) && NoSurplus(Taken(c.store, tx.msg)) {
      forall k ensures d.wallets.Held(self, k) == Escrowed(d.store, k) {
        assert Stray(tx.info, tx.msg, k) == 0 && Surplus(Taken(c.store, tx.msg), k) == 0;
      }
    }
  }

  // ----- Over whole runs

  /** The contract itself takes no part. */
  predicate Outside(self: Addr, tx: Tx) {
    tx.info.sender != self && (tx.msg.SetFeeDistributorMsg? ==> tx.msg.feeDistributor != self)
  }

  predicate OrderlyTx(self: Addr, c: Chain, tx: Tx) {
    && Outside(self, tx)
    && (Try(self, c, tx).Some? ==> NoStray(tx.info, tx.msg) && DistinctNfts(Taken(c.store, tx.msg)))
  }

  predicate OrderlyRun(self: Addr, c: Chain, txs: seq<Tx>)
    decreases |txs|
  {
    txs == [] || (OrderlyTx(self, c, txs[0]) && OrderlyRun(self, Exec(self, c, txs[0]), txs[1..]))
  }

  /** Records only ever join with the sender as borrower or lender. */
  ghost predicate JoinsOnly(s: Store, s1: Store, sender: Addr) {
    && (forall key :: key in s1.loans ==> key in s.loans || key.0 == sender)
    && (forall o :: o in s1.offers ==> s1.offers[o].lender == sender || (o in s.offers && s1.offers[o].lender == s.offers[o].lender))
  }

  lemma {:induction false} AcceptOfferRawJoins(env: Env, s: Store, o: nat, sender: Addr)
    requires AcceptOfferRaw(env, s, o).Ok?
    ensures JoinsOnly(s, AcceptOfferRaw(env, s, o).value.0, sender)
    ensures AcceptOfferRaw(env, s, o).value.0.feeDistributor == s.feeDistributor
  {
  }

  lemma {:induction false} OfferMsgJoins(env: Env, s: Store, info: Info, msg: ExecuteMsg)
    requires Step(env, s, info, msg).Ok?
    requires msg.MakeOfferMsg? || msg.CancelOfferMsg? || msg.RefuseOfferMsg? || msg.WithdrawRefusedOfferMsg? || Accepting(msg)
    ensures JoinsOnly(s, Step(env, s, info, msg).value.0, info.sender)
    ensures Step(env, s, info, msg).value.0.feeDistributor == s.feeDistributor
  {
    match msg
    case AcceptOfferMsg(o) => AcceptOfferRawJoins(env, s, o, info.sender);
    case AcceptLoanMsg(borrower, loanId) =>
      var (s1, o) := MakeOfferRaw(s, info, borrower, loanId, s.loans[(borrower, loanId)].terms.value).value;
      assert JoinsOnly(s, s1, info.sender);
      AcceptOfferRawJoins(env, s1, o, info.sender);
    case _ =>
  }

  lemma {:induction false} LoanMsgJoins(env: Env, s: Store, info: Info, msg: ExecuteMsg)
    requires Step(env, s, info, msg).Ok?
    requires msg.DepositCollateralsMsg? || msg.ModifyCollateralsMsg? || msg.WithdrawCollateralsMsg?
             || msg.RepayBorrowedFundsMsg? || msg.WithdrawDefaultedLoanMsg? || msg.SetFeeDistributorMsg? || msg.SetFeeRateMsg?
    ensures JoinsOnly(s, Step(env, s, info, msg).value.0, info.sender)
    ensures msg.SetFeeDistributorMsg? || Step(env, s, info, msg).value.0.feeDistributor == s.feeDistributor
    ensures msg.SetFeeDistributorMsg? ==> Step(env, s, info, msg).value.0.feeDistributor == msg.feeDistributor
  {
  }

  lemma {:induction false} OutsidersStep(env: Env, s: Store, info: Info, msg: ExecuteMsg)
    requires Outsiders(env.self, s) && info.sender != env.self && Step(env, s, info, msg).Ok?
    requires msg.SetFeeDistributorMsg? ==> msg.feeDistributor != env.self
    ensures Outsiders(env.self, Step(env, s, info, msg).value.0)
  {
    if msg.MakeOfferMsg? || msg.CancelOfferMsg? || msg.RefuseOfferMsg? || msg.WithdrawRefusedOfferMsg? || Accepting(msg) {
      OfferMsgJoins(env, s, info, msg);
    } else {
      LoanMsgJoins(env, s, info, msg);
    }
  }

  lemma {:induction false} CustodyStep(self: Addr, c: Chain, tx: Tx)
    requires ChainInv(self, c) && OrderlyTx(self, c, tx)
    ensures ChainInv(self, Exec(self, c, tx))
  {
    if Try(self, c, tx).Some? {
      ExecInv(self, c, tx);
      OutsidersStep(EnvOf(self, c, tx), c.store, tx.info, tx.msg);
      CustodyIff(self, c, tx);
    }
  }

  /** Custody holds at every point of the run. */
  ghost predicate CustodyThroughout(self: Addr, c: Chain, txs: seq<Tx>)
    decreases |txs|
  {
    Custody(self, c) && (txs == [] || CustodyThroughout(self, Exec(self, c, txs[0]), txs[1..]))
  }

  /** Orderly runs are exactly the runs in which custody holds throughout. */
  lemma {:induction false} ThroughoutIffOrderly(self: Addr, c: Chain, txs: seq<Tx>)
    requires ChainInv(self, c) && forall i :: 0 <= i < |txs| ==> Outside(self, txs[i])
    ensures CustodyThroughout(self, c, txs) <==> OrderlyRun(self, c, txs)
    decreases |txs|
  {
    if txs != [] {
      if Try(self, c, txs[0]).Some? {
        CustodyIff(self, c, txs[0]);
      }
      if OrderlyTx(self, c, txs[0]) {
        CustodyStep(self, c, txs[0]);
        ThroughoutIffOrderly(self, Exec(self, c, txs[0]), txs[1..]);
      }
    }
  }

  lemma {:induction false} CustodyRun(self: Addr, c: Chain, txs: seq<Tx>)
    requires ChainInv(self, c) && OrderlyRun(self, c, txs)
    ensures ChainInv(self, Run(self, c, txs))
    decreases |txs|
  {
    if txs != [] {
      CustodyStep(self, c, txs[0]);
      CustodyRun(self, Exec(self, c, txs[0]), txs[1..]);
    }
  }

  /** The contract just set up, owning nothing yet. */
  ghost predicate Genesis(self: Addr, c: Chain) {
    && (forall k :: c.wallets.Held(self, k) == 0)
    && exists owner, feeDistributor, feeRate :: feeDistributor != self && Instantiate(owner, feeDistributor, feeRate) == Ok(c.store)
  }

  lemma {:induction false} GenesisInv(self: Addr, c: Chain)
    requires Genesis(self, c)
    ensures ChainInv(self, c)
  {
    var owner, feeDistributor, feeRate :| feeDistributor != self && Instantiate(owner, feeDistributor, feeRate) == Ok(c.store);
    InitInv(owner, feeDistributor, feeRate);
    assert forall k: Key :: LoanWeights(c.store.loans, k) == map[];
    assert forall k: Key :: OfferWeights(c.store.offers, k) == map[];
  }

  /** Escrow conservation: from instantiation, after any orderly run, the contract holds of
      each coin the deposits of offers not accepted, and of each token the collateral of
      started loans, to the unit. */
  lemma {:induction false} EscrowAlways(self: Addr, c: Chain, txs: seq<Tx>)
    requires Genesis(self, c) && OrderlyRun(self, c, txs)
    ensures ChainInv(self, Run(self, c, txs))
  {
    GenesisInv(self, c);
    CustodyRun(self, c, txs);
  }

  // ----- What custody means for one NFT

  ghost predicate Secures(s: Store, key: LoanKey, k: Key) {
    key in s.loans && s.loans[key].state == Started && Total(s.loans[key].assets, k) > 0
  }

  lemma {:induction false} OfferWeightsNative(s: Store, k: Key)
    requires !k.NativeKey?
    ensures MapSum(OfferWeights(s.offers, k)) == 0
  {
    MapSumZero(OfferWeights(s.offers, k));
  }

  /** An NFT is in custody exactly when a started loan lists it, and then only one does. */
  lemma {:induction false} NftSecuresOneLoan(self: Addr, c: Chain, k: Key, a: LoanKey, b: LoanKey)
    requires ChainInv(self, c) && k.NftKey?
    ensures (exists key :: Secures(c.store, key, k)) <==> Lookup(c.wallets.nftOwner, k) == Some(self)
    ensures Secures(c.store, a, k) && Secures(c.store, b, k) ==> a == b
  {
    var m := LoanWeights(c.store.loans, k);
    assert c.wallets.Held(self, k) == Escrowed(c.store, k);
    OfferWeightsNative(c.store, k);
    MapSumZero(m);
    if MapSum(m) != 0 {
      var key :| key in m && m[key] != 0;
      assert Secures(c.store, key, k);
    }
    if Secures(c.store, a, k) && Secures(c.store, b, k) && a != b {
      MapSumTake(m, a);
      MapSumBounds(m - {a}, b);
    }
    if exists key :: Secures(c.store, key, k) {
      var key :| Secures(c.store, key, k);
      MapSumBounds(m, key);
    }
  }
}

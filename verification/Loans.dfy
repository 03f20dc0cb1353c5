/** The non-custodial NFT loan contract: what each message does to its records
    (contracts/nft-loans-non-custodial/src/execute.rs and state.rs).

    Collateral stays in the borrower's wallet until a loan starts; lenders' money is held
    from the moment they make an offer. */
module Loans {
  import opened Base
  import opened Ledger
  import opened Nfts

  const ONE: nat := 1_000_000_000_000_000_000
  const U64_LIMIT: nat := 0x1_0000_0000_0000_0000
  const U128_LIMIT: nat := 0x1_0000_0000_0000_0000_0000_0000_0000_0000

  datatype LoanState = Published | Started | Defaulted | Ended | AssetWithdrawn

  datatype OfferState = Open | Accepted | Refused | Cancelled

  datatype Terms = Terms(principle: Coin, interest: nat, duration: nat)

  datatype Collateral = Collateral(
    terms: Option<Terms>,
    assets: seq<Asset>,
    state: LoanState,
    offerAmount: nat,
    activeOffer: Option<nat>,
    startBlock: Option<nat>)

  /** A loan is named by its borrower and the borrower's own count. */
  type LoanKey = (Addr, nat)

  datatype Offer = Offer(
    lender: Addr,
    borrower: Addr,
    loanId: nat,
    offerId: nat,
    terms: Terms,
    state: OfferState,
    depositedFunds: Option<Coin>)
  {
    function Loan(): LoanKey { (borrower, loanId) }
  }

  /** Fee rates count in 10^-18, like the chain's `Decimal`. */
  datatype Store = Store(
    owner: Addr,
    feeDistributor: Addr,
    feeRate: nat,
    globalOfferIndex: nat,
    loans: map<LoanKey, Collateral>,
    lastLoan: map<Addr, nat>,
    offers: map<nat, Offer>)

  datatype Error =
    | Std
    | Panic
    | Unreachable
    | Unauthorized
    | WrongAssetDeposited
    | NoAssets
    | MultipleCoins
    | FundsDontMatchTerms
    | FundsDontMatchTermsAndPrinciple(due: nat, sent: nat)
    | NotWithdrawable
    | NotModifiable
    | NoFundsToWithdraw
    | SenderNotOwner
    | NotAcceptable
    | NotCounterable
    | NotRefusable
    | NoTermsSpecified
    | LoanNotFound
    | OfferNotFound
    | WrongLoanState(loanState: LoanState)
    | WrongOfferState(offerState: OfferState)
    | CantChangeOfferState(from: OfferState, to: OfferState)
    | LoanAlreadyDefaulted

  datatype ExecuteMsg =
    | DepositCollateralsMsg(tokens: seq<Asset>, terms: Option<Terms>)
    | ModifyCollateralsMsg(loanId: nat, terms: Option<Terms>)
    | WithdrawCollateralsMsg(loanId: nat)
    | MakeOfferMsg(borrower: Addr, loanId: nat, offered: Terms)
    | CancelOfferMsg(offer: nat)
    | RefuseOfferMsg(offer: nat)
    | WithdrawRefusedOfferMsg(offer: nat)
    | AcceptOfferMsg(offer: nat)
    | AcceptLoanMsg(borrower: Addr, loanId: nat)
    | RepayBorrowedFundsMsg(loanId: nat)
    | WithdrawDefaultedLoanMsg(borrower: Addr, loanId: nat)
    | SetFeeDistributorMsg(feeDistributor: Addr)
    | SetFeeRateMsg(feeRate: nat)

  datatype Release = Release(offer: nat, to: Addr, coin: Coin)

  /** The transfers ordered, and which offer's deposit came in or went out. */
  datatype Response = Response(messages: seq<Transfer>, made: Option<nat>, released: Option<Release>)

  function Silent(): Response { Response([], None, None) }

  type Outcome = Result<(Store, Response), Error>

  /** The height of the block, and the wallets a query sees. */
  datatype Env = Env(self: Addr, height: nat, wallets: Wallets)

  // ----- Loading and guards (state.rs)

  function LoadLoan(s: Store, key: LoanKey): Result<Collateral, Error> {
    if key in s.loans then Ok(s.loans[key]) else Err(Std)
  }

  /** An open offer on a loan no longer published reads as refused. */
  function ActualState(s: Store, offer: Offer): Result<OfferState, Error> {
    var loan :- LoadLoan(s, offer.Loan());
    Ok(if offer.state == Open && loan.state != Published then Refused else offer.state)
  }

  function GetOffer(s: Store, o: nat): Result<Offer, Error> {
    if o !in s.offers then Err(OfferNotFound)
    else
      var state :- ActualState(s, s.offers[o]);
      Ok(s.offers[o].(state := state))
  }

  function IsLender(s: Store, sender: Addr, o: nat): Result<Offer, Error> {
    var offer :- GetOffer(s, o);
    if sender != offer.lender then Err(Unauthorized) else Ok(offer)
  }

  function IsOfferBorrower(s: Store, sender: Addr, o: nat): Result<Offer, Error> {
    var offer :- GetOffer(s, o);
    if sender != offer.borrower then Err(Unauthorized) else Ok(offer)
  }

  function ActiveLoan(s: Store, loan: Collateral): Result<Offer, Error> {
    match loan.activeOffer
    case None => Err(OfferNotFound)
    case Some(o) => GetOffer(s, o)
  }

  function IsLoanDefaulted(s: Store, height: nat, loan: Collateral): Result<(), Error> {
    var offer :- ActiveLoan(s, loan);
    match loan.state
    case Started =>
      if loan.startBlock.None? then Err(Panic)
      else if loan.startBlock.value + offer.terms.duration >= U64_LIMIT then Err(Panic)
      else if loan.startBlock.value + offer.terms.duration < height then Ok(())
      else Err(WrongLoanState(Started))
    case Defaulted => Ok(())
    case _ => Err(WrongLoanState(loan.state))
  }

  function CanRepayLoan(s: Store, height: nat, loan: Collateral): Result<(), Error> {
    match IsLoanDefaulted(s, height, loan)
    case Err(Panic) => Err(Panic)
    case Ok(_) => Err(WrongLoanState(Defaulted))
    case Err(_) => if loan.state != Started then Err(WrongLoanState(loan.state)) else Ok(())
  }

  function PutLoan(s: Store, key: LoanKey, loan: Collateral): Store {
    s.(loans := s.loans[key := loan])
  }

  function PutOffer(s: Store, o: nat, offer: Offer): Store {
    s.(offers := s.offers[o := offer])
  }

  // ----- Collateral

  function DepositCollaterals(s: Store, sender: Addr, tokens: seq<Asset>, terms: Option<Terms>): Outcome {
    if tokens == [] then Err(NoAssets)
    else
      var id := if sender in s.lastLoan then s.lastLoan[sender] + 1 else 0;
      var s1 := s.(lastLoan := s.lastLoan[sender := id]);
      Ok((PutLoan(s1, (sender, id), Collateral(terms, tokens, Published, 0, None, None)), Silent()))
  }

  function ModifyCollaterals(s: Store, sender: Addr, loanId: nat, terms: Option<Terms>): Outcome {
    var key := (sender, loanId);
    if key !in s.loans then Err(LoanNotFound)
    else
      var loan := s.loans[key];
      var _ :- Need(loan.state == Published, NotModifiable);
      Ok((PutLoan(s, key, if terms.Some? then loan.(terms := terms) else loan), Silent()))
  }

  function WithdrawCollateral(s: Store, sender: Addr, loanId: nat): Outcome {
    var key := (sender, loanId);
    var loan :- LoadLoan(s, key);
    var _ :- Need(loan.state == Published, NotWithdrawable);
    Ok((PutLoan(s, key, loan.(state := AssetWithdrawn)), Silent()))
  }

  // ----- Offers

  /** The coins must be exactly the principle offered. */
  function MakeOfferRaw(s: Store, info: Info, borrower: Addr, loanId: nat, terms: Terms): Result<(Store, nat), Error> {
    var key := (borrower, loanId);
    var loan :- LoadLoan(s, key);
    var _ :- Need(loan.state == Published, NotCounterable);
    if |info.funds| != 1 then Err(MultipleCoins)
    else if terms.principle != info.funds[0] then Err(FundsDontMatchTerms)
    else
      var s1 := PutLoan(s, key, loan.(offerAmount := loan.offerAmount + 1));
      var o := s.globalOfferIndex + 1;
      var offer := Offer(info.sender, borrower, loanId, loan.offerAmount + 1, terms, Open, Some(terms.principle));
      Ok((PutOffer(s1, o, offer).(globalOfferIndex := o), o))
  }

  function MakeOffer(s: Store, info: Info, borrower: Addr, loanId: nat, terms: Terms): Outcome {
    var (s1, o) :- MakeOfferRaw(s, info, borrower, loanId, terms);
    Ok((s1, Response([], Some(o), None)))
  }

  function Refund(self: Addr, o: nat, offer: Offer, to: Addr): Result<Response, Error> {
    match offer.depositedFunds
    case None => Err(NoFundsToWithdraw)
    case Some(coin) => Ok(Response([Transfer(self, to, Native(coin))], None, Some(Release(o, to, coin))))
  }

  function CancelOffer(self: Addr, s: Store, sender: Addr, o: nat): Outcome {
    var offer :- IsLender(s, sender, o);
    var _ :- Need(offer.state == Open, CantChangeOfferState(offer.state, Cancelled));
    var loan :- LoadLoan(s, offer.Loan());
    var _ :- Need(loan.state == Published, NotModifiable);
    var r :- Refund(self, o, offer, sender);
    Ok((PutOffer(s, o, offer.(state := Cancelled, depositedFunds := None)), r))
  }

  function WithdrawRefusedOffer(self: Addr, s: Store, sender: Addr, o: nat): Outcome {
    var offer :- IsLender(s, sender, o);
    var _ :- Need(offer.state == Refused, NotWithdrawable);
    var r :- Refund(self, o, offer, sender);
    Ok((PutOffer(s, o, offer.(depositedFunds := None)), r))
  }

  function RefuseOffer(s: Store, sender: Addr, o: nat): Outcome {
    var offer :- IsOfferBorrower(s, sender, o);
    var loan :- LoadLoan(s, offer.Loan());
    var _ :- Need(loan.state == Published && offer.state == Open, NotRefusable);
    Ok((PutOffer(s, o, offer.(state := Refused)), Silent()))
  }

  // ----- Starting a loan

  const PULL_ERRORS: PullErrors<Error> := PullErrors(WrongAssetDeposited, SenderNotOwner, Std)

  function AcceptOfferRaw(env: Env, s: Store, o: nat): Outcome {
    var offer :- GetOffer(s, o);
    var loan :- LoadLoan(s, offer.Loan());
    var _ :- Need(loan.state == Published, NotAcceptable);
    var _ :- Need(offer.state == Open, WrongOfferState(offer.state));
    var s1 := PutLoan(s, offer.Loan(), loan.(state := Started, startBlock := Some(env.height), activeOffer := Some(o)));
    var s2 := PutOffer(s1, o, offer.(state := Accepted));
    var paid :- Refund(env.self, o, offer, offer.borrower);
    var pulls :- Pulls(env.self, env.wallets, offer.borrower, loan.assets, PULL_ERRORS);
    Ok((s2, Response(paid.messages + pulls, None, paid.released)))
  }

  function AcceptOffer(env: Env, s: Store, sender: Addr, o: nat): Outcome {
    var _ :- IsOfferBorrower(s, sender, o);
    AcceptOfferRaw(env, s, o)
  }

  /** The lender takes the borrower's own terms: an offer made and accepted at once. */
  function AcceptLoan(env: Env, s: Store, info: Info, borrower: Addr, loanId: nat): Outcome {
    var loan :- LoadLoan(s, (borrower, loanId));
    var _ :- Need(loan.terms.Some?, NoTermsSpecified);
    var (s1, o) :- MakeOfferRaw(s, info, borrower, loanId, loan.terms.value);
    var (s2, r) :- AcceptOfferRaw(env, s1, o);
    Ok((s2, r.(made := Some(o))))
  }

  // ----- Ending a loan

  /** `interests * (1 - fee_rate)`, rounded down; a rate above one underflows. */
  function AfterFee(interest: nat, feeRate: nat): Result<nat, Error> {
    if feeRate > ONE then Err(Panic) else Ok(interest * (ONE - feeRate) / ONE)
  }

  function RepayBorrowedFunds(env: Env, s: Store, info: Info, loanId: nat): Outcome {
    var key := (info.sender, loanId);
    var loan :- LoadLoan(s, key);
    var _ :- CanRepayLoan(s, env.height, loan);
    var offer :- ActiveLoan(s, loan);
    var due := offer.terms.principle.amount + offer.terms.interest;
    if |info.funds| != 1 then Err(MultipleCoins)
    else if offer.terms.principle.denom != info.funds[0].denom then Err(FundsDontMatchTerms)
    else if due >= U128_LIMIT then Err(Panic)
    else if due > info.funds[0].amount then Err(FundsDontMatchTermsAndPrinciple(due, info.funds[0].amount))
    else
      var kept :- AfterFee(offer.terms.interest, s.feeRate);
      var payback := offer.terms.principle.amount + kept;
      var _ :- Need(payback <= info.funds[0].amount, Panic);
      var fee := info.funds[0].amount - payback;
      var back :- SendsBack(env.self, info.sender, loan.assets, Unreachable);
      var denom := info.funds[0].denom;
      var messages := SendSome(env.self, offer.lender, Native(Coin(denom, payback)))
                      + back + SendSome(env.self, s.feeDistributor, Native(Coin(denom, fee)));
      Ok((PutLoan(s, key, loan.(state := Ended)), Response(messages, None, None)))
  }

  function WithdrawDefaultedLoan(env: Env, s: Store, sender: Addr, borrower: Addr, loanId: nat): Outcome {
    var key := (borrower, loanId);
    var loan :- LoadLoan(s, key);
    var _ :- IsLoanDefaulted(s, env.height, loan);
    var offer :- ActiveLoan(s, loan);
    var _ :- Need(sender == offer.lender, Unauthorized);
    var _ :- Need(loan.state != Defaulted, LoanAlreadyDefaulted);
    var back :- SendsBack(env.self, offer.lender, loan.assets, Unreachable);
    Ok((PutLoan(s, key, loan.(state := Defaulted)), Response(back, None, None)))
  }

  // ----- Administration

  function SetFeeDistributor(s: Store, sender: Addr, feeDistributor: Addr): Outcome {
    if sender != s.owner then Err(Unauthorized) else Ok((s.(feeDistributor := feeDistributor), Silent()))
  }

  function SetFeeRate(s: Store, sender: Addr, feeRate: nat): Outcome {
    if sender != s.owner then Err(Unauthorized)
    else if feeRate >= ONE then Err(Std)
    else Ok((s.(feeRate := feeRate), Silent()))
  }

  function Instantiate(owner: Addr, feeDistributor: Addr, feeRate: nat): Result<Store, Error> {
    if feeRate >= ONE then Err(Std) else Ok(Store(owner, feeDistributor, feeRate, 0, map[], map[], map[]))
  }

  function Step(env: Env, s: Store, info: Info, msg: ExecuteMsg): Outcome {
    var sender := info.sender;
    match msg
    case DepositCollateralsMsg(tokens, terms) => DepositCollaterals(s, sender, tokens, terms)
    case ModifyCollateralsMsg(loanId, terms) => ModifyCollaterals(s, sender, loanId, terms)
    case WithdrawCollateralsMsg(loanId) => WithdrawCollateral(s, sender, loanId)
    case MakeOfferMsg(borrower, loanId, terms) => MakeOffer(s, info, borrower, loanId, terms)
    case CancelOfferMsg(o) => CancelOffer(env.self, s, sender, o)
    case RefuseOfferMsg(o) => RefuseOffer(s, sender, o)
    case WithdrawRefusedOfferMsg(o) => WithdrawRefusedOffer(env.self, s, sender, o)
    case AcceptOfferMsg(o) => AcceptOffer(env, s, sender, o)
    case AcceptLoanMsg(borrower, loanId) => AcceptLoan(env, s, info, borrower, loanId)
    case RepayBorrowedFundsMsg(loanId) => RepayBorrowedFunds(env, s, info, loanId)
    case WithdrawDefaultedLoanMsg(borrower, loanId) => WithdrawDefaultedLoan(env, s, sender, borrower, loanId)
    case SetFeeDistributorMsg(feeDistributor) => SetFeeDistributor(s, sender, feeDistributor)
    case SetFeeRateMsg(feeRate) => SetFeeRate(s, sender, feeRate)
  }

  // ----- The chain

  datatype Chain = Chain(store: Store, wallets: Wallets)

  datatype Tx = Tx(info: Info, height: nat, allow: bool, msg: ExecuteMsg)

  function Try(self: Addr, c: Chain, tx: Tx): Option<(Chain, Response)> {
    match c.wallets.MoveAll(self, true, Fund(tx.info.sender, self, tx.info.funds))
    case None => None
    case Some(funded) =>
      match Step(Env(self, tx.height, funded), c.store, tx.info, tx.msg)
      case Err(_) => None
      case Ok((s, r)) =>
        match funded.MoveAll(self, tx.allow, r.messages)
        case None => None
        case Some(w) => Some((Chain(s, w), r))
  }

  function Exec(self: Addr, c: Chain, tx: Tx): Chain {
    match Try(self, c, tx) case None => c case Some((d, _)) => d
  }

  function Run(self: Addr, c: Chain, txs: seq<Tx>): Chain
    decreases |txs|
  {
    if txs == [] then c else Run(self, Exec(self, c, txs[0]), txs[1..])
  }

  function Trace(self: Addr, c: Chain, txs: seq<Tx>): seq<Option<Response>>
    decreases |txs|
  {
    if txs == [] then []
    else
      [match Try(self, c, txs[0]) case None => None case Some((_, r)) => Some(r)]
      + Trace(self, Exec(self, c, txs[0]), txs[1..])
  }
}

/** The loan contract as it runs: records loaded, changed and saved message by message.
    Every handler is proved to make exactly the step that Loans gives for it. */
module LoansContract {
  import opened Base
  import opened Ledger
  import opened Nfts
  import opened Loans

  /** The handler answered as specified; a failed handler's writes are the chain's to drop. */
  ghost predicate Matches(spec: Outcome, r: Result<Response, Error>, after: Store) {
    match spec
    case Ok((s, response)) => r == Ok(response) && after == s
    case Err(e) => r == Err(e)
  }

  class Contract {
    const self: Addr
    var owner: Addr
    var feeDistributor: Addr
    var feeRate: nat
    var globalOfferIndex: nat
    var loans: map<LoanKey, Collateral>
    var lastLoan: map<Addr, nat>
    var offers: map<nat, Offer>

    function Stored(): Store
      reads this
    {
      Store(owner, feeDistributor, feeRate, globalOfferIndex, loans, lastLoan, offers)
    }

    constructor (self: Addr, owner: Addr, feeDistributor: Addr, feeRate: nat)
      requires Instantiate(owner, feeDistributor, feeRate).Ok?
      ensures this.self == self && Stored() == Instantiate(owner, feeDistributor, feeRate).value
    {
      this.self := self;
      this.owner, this.feeDistributor, this.feeRate := owner, feeDistributor, feeRate;
      globalOfferIndex := 0;
      loans, lastLoan, offers := map[], map[], map[];
    }

    // ----- Loads and guards (state.rs)

    /** An open offer on a loan no longer published is shown as refused. */
    method LoadOffer(o: nat) returns (r: Result<Offer, Error>)
      ensures r == GetOffer(Stored(), o)
    {
      if o !in offers {
        return Err(OfferNotFound);
      }
      var offer := offers[o];
      if offer.Loan() !in loans {
        return Err(Std);
      }
      if offer.state == Open && loans[offer.Loan()].state != Published {
        offer := offer.(state := Refused);
      }
      return Ok(offer);
    }

    method LoadAsLender(sender: Addr, o: nat) returns (r: Result<Offer, Error>)
      ensures r == IsLender(Stored(), sender, o)
    {
      var offer :- LoadOffer(o);
      if sender != offer.lender {
        return Err(Unauthorized);
      }
      return Ok(offer);
    }

    method LoadAsBorrower(sender: Addr, o: nat) returns (r: Result<Offer, Error>)
      ensures r == IsOfferBorrower(Stored(), sender, o)
    {
      var offer :- LoadOffer(o);
      if sender != offer.borrower {
        return Err(Unauthorized);
      }
      return Ok(offer);
    }

    method LoadActive(loan: Collateral) returns (r: Result<Offer, Error>)
      ensures r == ActiveLoan(Stored(), loan)
    {
      if loan.activeOffer.None? {
        return Err(OfferNotFound);
      }
      r := LoadOffer(loan.activeOffer.value);
    }

    method CheckDefaulted(height: nat, loan: Collateral) returns (r: Result<(), Error>)
      ensures r == IsLoanDefaulted(Stored(), height, loan)
    {
      var offer :- LoadActive(loan);
      if loan.state == Started {
        if loan.startBlock.None? || loan.startBlock.value + offer.terms.duration >= U64_LIMIT {
          return Err(Panic);
        }
        if loan.startBlock.value + offer.terms.duration >= height {
          return Err(WrongLoanState(Started));
        }
      } else if loan.state != Defaulted {
        return Err(WrongLoanState(loan.state));
      }
      return Ok(());
    }

    method CheckRepayable(height: nat, loan: Collateral) returns (r: Result<(), Error>)
      ensures r == CanRepayLoan(Stored(), height, loan)
    {
      var defaulted := CheckDefaulted(height, loan);
      if defaulted == Err(Panic) {
        return defaulted;
      }
      if defaulted.Ok? {
        return Err(WrongLoanState(Defaulted));
      }
      if loan.state != Started {
        return Err(WrongLoanState(loan.state));
      }
      return Ok(());
    }

    // ----- Handlers

    method DepositCollateral(sender: Addr, tokens: seq<Asset>, terms: Option<Terms>) returns (r: Result<Response, Error>)
      modifies this
      ensures Matches(DepositCollaterals(old(Stored()), sender, tokens, terms), r, Stored())
    {
      if tokens == [] {
        return Err(NoAssets);
      }
      var id := 0;
      if sender in lastLoan {
        id := lastLoan[sender] + 1;
      }
      lastLoan := lastLoan[sender := id];
      loans := loans[(sender, id) := Collateral(terms, tokens, Published, 0, None, None)];
      return Ok(Silent());
    }

    method ModifyCollateral(sender: Addr, loanId: nat, terms: Option<Terms>) returns (r: Result<Response, Error>)
      modifies this
      ensures Matches(ModifyCollaterals(old(Stored()), sender, loanId, terms), r, Stored())
    {
      var key := (sender, loanId);
      if key !in loans {
        return Err(LoanNotFound);
      }
      var loan := loans[key];
      if loan.state != Published {
        return Err(NotModifiable);
      }
      if terms.Some? {
        loan := loan.(terms := terms);
      }
      loans := loans[key := loan];
      return Ok(Silent());
    }

    method CancelLoan(sender: Addr, loanId: nat) returns (r: Result<Response, Error>)
      modifies this
      ensures Matches(WithdrawCollateral(old(Stored()), sender, loanId), r, Stored())
    {
      var key := (sender, loanId);
      if key !in loans {
        return Err(Std);
      }
      var loan := loans[key];
      if loan.state != Published {
        return Err(NotWithdrawable);
      }
      loan := loan.(state := AssetWithdrawn);
      loans := loans[key := loan];
      return Ok(Silent());
    }

    /** Saves a new offer and returns its global number. */
    method RawOffer(info: Info, borrower: Addr, loanId: nat, terms: Terms) returns (r: Result<nat, Error>)
      modifies this
      ensures match MakeOfferRaw(old(Stored()), info, borrower, loanId, terms)
              case Ok((s, o)) => r == Ok(o) && Stored() == s
              case Err(e) => r == Err(e)
    {
      var key := (borrower, loanId);
      if key !in loans {
        return Err(Std);
      }
      var loan := loans[key];
      if loan.state != Published {
        return Err(NotCounterable);
      }
      if |info.funds| != 1 {
        return Err(MultipleCoins);
      } else if terms.principle != info.funds[0] {
        return Err(FundsDontMatchTerms);
      }
      loan := loan.(offerAmount := loan.offerAmount + 1);
      loans := loans[key := loan];
      globalOfferIndex := globalOfferIndex + 1;
      var offer := Offer(info.sender, borrower, loanId, loan.offerAmount, terms, Open, Some(terms.principle));
      offers := offers[globalOfferIndex := offer];
      return Ok(globalOfferIndex);
    }

    method NewOffer(info: Info, borrower: Addr, loanId: nat, terms: Terms) returns (r: Result<Response, Error>)
      modifies this
      ensures Matches(MakeOffer(old(Stored()), info, borrower, loanId, terms), r, Stored())
    {
      var o :- RawOffer(info, borrower, loanId, terms);
      return Ok(Response([], Some(o), None));
    }

    method Cancel(sender: Addr, o: nat) returns (r: Result<Response, Error>)
      modifies this
      ensures Matches(CancelOffer(self, old(Stored()), sender, o), r, Stored())
    {
      var offer :- LoadAsLender(sender, o);
      if offer.state != Open {
        return Err(CantChangeOfferState(offer.state, Cancelled));
      }
      var loan := loans[offer.Loan()];
      if loan.state != Published {
        return Err(NotModifiable);
      }
      var refund :- Refund(self, o, offer, sender);
      offer := offer.(state := Cancelled, depositedFunds := None);
      offers := offers[o := offer];
      return Ok(refund);
    }

    method WithdrawRefused(sender: Addr, o: nat) returns (r: Result<Response, Error>)
      modifies this
      ensures Matches(WithdrawRefusedOffer(self, old(Stored()), sender, o), r, Stored())
    {
      var offer :- LoadAsLender(sender, o);
      if offer.state != Refused {
        return Err(NotWithdrawable);
      }
      var refund :- Refund(self, o, offer, sender);
      offer := offer.(depositedFunds := None);
      offers := offers[o := offer];
      return Ok(refund);
    }

    method Refuse(sender: Addr, o: nat) returns (r: Result<Response, Error>)
      modifies this
      ensures Matches(RefuseOffer(old(Stored()), sender, o), r, Stored())
    {
      var offer :- LoadAsBorrower(sender, o);
      var loan := loans[offer.Loan()];
      if loan.state != Published || offer.state != Open {
        return Err(NotRefusable);
      }
      offer := offer.(state := Refused);
      offers := offers[o := offer];
      return Ok(Silent());
    }

    method StartLoan(env: Env, o: nat) returns (r: Result<Response, Error>)
      requires env.self == self
      modifies this
      ensures Matches(AcceptOfferRaw(env, old(Stored()), o), r, Stored())
    {
      var offer :- LoadOffer(o);
      var loan := loans[offer.Loan()];
      if loan.state != Published {
        return Err(NotAcceptable);
      }
      if offer.state != Open {
        return Err(WrongOfferState(offer.state));
      }
      loan := loan.(state := Started, startBlock := Some(env.height), activeOffer := Some(o));
      offer := offer.(state := Accepted);
      loans := loans[offer.Loan() := loan];
      offers := offers[o := offer];
      var paid :- Refund(self, o, offer, offer.borrower);
      var pulls :- PullAll(env.self, env.wallets, offer.borrower, loan.assets, PULL_ERRORS);
      return Ok(Response(paid.messages + pulls, None, paid.released));
    }

    method Accept(env: Env, sender: Addr, o: nat) returns (r: Result<Response, Error>)
      requires env.self == self
      modifies this
      ensures Matches(AcceptOffer(env, old(Stored()), sender, o), r, Stored())
    {
      var _ :- LoadAsBorrower(sender, o);
      r := StartLoan(env, o);
    }

    method AcceptOnTerms(env: Env, info: Info, borrower: Addr, loanId: nat) returns (r: Result<Response, Error>)
      requires env.self == self
      modifies this
      ensures Matches(AcceptLoan(env, old(Stored()), info, borrower, loanId), r, Stored())
    {
      var key := (borrower, loanId);
      if key !in loans {
        return Err(Std);
      }
      var loan := loans[key];
      if loan.terms.None? {
        return Err(NoTermsSpecified);
      }
      var o :- RawOffer(info, borrower, loanId, loan.terms.value);
      var started :- StartLoan(env, o);
      return Ok(started.(made := Some(o)));
    }

    method Repay(env: Env, info: Info, loanId: nat) returns (r: Result<Response, Error>)
      requires env.self == self
      modifies this
      ensures Matches(RepayBorrowedFunds(env, old(Stored()), info, loanId), r, Stored())
    {
      var key := (info.sender, loanId);
      if key !in loans {
        return Err(Std);
      }
      var loan := loans[key];
      var _ :- CheckRepayable(env.height, loan);
      var offer :- LoadActive(loan);
      var interests := offer.terms.interest;
      if |info.funds| != 1 {
        return Err(MultipleCoins);
      }
      var sent := info.funds[0];
      if offer.terms.principle.denom != sent.denom {
        return Err(FundsDontMatchTerms);
      }
      if offer.terms.principle.amount + interests >= U128_LIMIT {
        return Err(Panic);
      }
      if offer.terms.principle.amount + interests > sent.amount {
        return Err(FundsDontMatchTermsAndPrinciple(offer.terms.principle.amount + interests, sent.amount));
      }
      loan := loan.(state := Ended);
      loans := loans[key := loan];
      var kept :- AfterFee(interests, feeRate);
      var lenderPayback := offer.terms.principle.amount + kept;
      if lenderPayback > sent.amount {
        return Err(Panic);
      }
      var feePayback := sent.amount - lenderPayback;
      var messages: seq<Transfer> := [];
      if lenderPayback > 0 {
        messages := [Transfer(self, offer.lender, Native(Coin(sent.denom, lenderPayback)))];
      }
      assert messages == SendSome(self, offer.lender, Native(Coin(sent.denom, lenderPayback)));
      var back :- SendAll(self, info.sender, loan.assets, Unreachable);
      messages := messages + back;
      if feePayback > 0 {
        messages := messages + [Transfer(self, feeDistributor, Native(Coin(sent.denom, feePayback)))];
      }
      assert messages == SendSome(self, offer.lender, Native(Coin(sent.denom, lenderPayback))) + back
                         + SendSome(self, feeDistributor, Native(Coin(sent.denom, feePayback)));
      return Ok(Response(messages, None, None));
    }

    method WithdrawDefaulted(env: Env, sender: Addr, borrower: Addr, loanId: nat) returns (r: Result<Response, Error>)
      requires env.self == self
      modifies this
      ensures Matches(WithdrawDefaultedLoan(env, old(Stored()), sender, borrower, loanId), r, Stored())
    {
      var key := (borrower, loanId);
      if key !in loans {
        return Err(Std);
      }
      var loan := loans[key];
      var _ :- CheckDefaulted(env.height, loan);
      var active := LoadActive(loan);
      assert active.Ok?;
      var offer := active.value;
      if sender != offer.lender {
        return Err(Unauthorized);
      }
      if loan.state == Defaulted {
        return Err(LoanAlreadyDefaulted);
      }
      loan := loan.(state := Defaulted);
      loans := loans[key := loan];
      var back :- SendAll(self, offer.lender, loan.assets, Unreachable);
      return Ok(Response(back, None, None));
    }

    method ChangeFeeDistributor(sender: Addr, newDistributor: Addr) returns (r: Result<Response, Error>)
      modifies this
      ensures Matches(SetFeeDistributor(old(Stored()), sender, newDistributor), r, Stored())
    {
      if sender != owner {
        return Err(Unauthorized);
      }
      feeDistributor := newDistributor;
      return Ok(Silent());
    }

    method ChangeFeeRate(sender: Addr, newRate: nat) returns (r: Result<Response, Error>)
      modifies this
      ensures Matches(SetFeeRate(old(Stored()), sender, newRate), r, Stored())
    {
      if sender != owner {
        return Err(Unauthorized);
      }
      if newRate >= ONE {
        return Err(Std);
      }
      feeRate := newRate;
      return Ok(Silent());
    }

    method Dispatch(env: Env, info: Info, msg: ExecuteMsg) returns (r: Result<Response, Error>)
      requires env.self == self
      modifies this
      ensures Matches(Step(env, old(Stored()), info, msg), r, Stored())
    {
      match msg {
        case DepositCollateralsMsg(tokens, terms) => r := DepositCollateral(info.sender, tokens, terms);
        case ModifyCollateralsMsg(loanId, terms) => r := ModifyCollateral(info.sender, loanId, terms);
        case WithdrawCollateralsMsg(loanId) => r := CancelLoan(info.sender, loanId);
        case MakeOfferMsg(borrower, loanId, terms) => r := NewOffer(info, borrower, loanId, terms);
        case CancelOfferMsg(o) => r := Cancel(info.sender, o);
        case RefuseOfferMsg(o) => r := Refuse(info.sender, o);
        case WithdrawRefusedOfferMsg(o) => r := WithdrawRefused(info.sender, o);
        case AcceptOfferMsg(o) => r := Accept(env, info.sender, o);
        case AcceptLoanMsg(borrower, loanId) => r := AcceptOnTerms(env, info, borrower, loanId);
        case RepayBorrowedFundsMsg(loanId) => r := Repay(env, info, loanId);
        case WithdrawDefaultedLoanMsg(borrower, loanId) => r := WithdrawDefaulted(env, info.sender, borrower, loanId);
        case SetFeeDistributorMsg(newDistributor) => r := ChangeFeeDistributor(info.sender, newDistributor);
        case SetFeeRateMsg(newRate) => r := ChangeFeeRate(info.sender, newRate);
      }
    }

    /** One message: the chain keeps a failed handler's writes from being seen. */
    method Execute(env: Env, info: Info, msg: ExecuteMsg) returns (r: Result<Response, Error>)
      requires env.self == self
      modifies this
      ensures Matches(Step(env, old(Stored()), info, msg), r, Stored())
      ensures r.Err? ==> Stored() == old(Stored())
    {
      var before := Stored();
      r := Dispatch(env, info, msg);
      if r.Err? {
        feeDistributor, feeRate, globalOfferIndex := before.feeDistributor, before.feeRate, before.globalOfferIndex;
        owner, loans, lastLoan, offers := before.owner, before.loans, before.lastLoan, before.offers;
      }
    }
  }
}

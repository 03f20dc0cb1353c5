/** The protocol of a loan, message by message: who may send what and when, and what it leaves and
    orders. Stated on the records and the coins sent alone. */
module LoansProtocol {
  import opened Base
  import opened Ledger
  import opened Nfts
  import opened Loans
  import opened LoansInvariant

  predicate IsPublished(s: Store, key: LoanKey) {
    key in s.loans && s.loans[key].state == Published
  }

  /** An open offer shows as refused once its loan is no longer published. */
  function Shown(s: Store, o: nat): OfferState
    requires o in s.offers
  {
    if s.offers[o].state == Open && !IsPublished(s, s.offers[o].Loan()) then Refused else s.offers[o].state
  }

  /** The collateral comes in, asset by asset. */
  ghost predicate TakesIn(self: Addr, from: Addr, assets: seq<Asset>, ts: seq<Transfer>) {
    |ts| == |assets| && forall i :: 0 <= i < |assets| ==> ts[i] == Transfer(from, self, assets[i])
  }

  // ----- Listings

  /** A listing names collateral and takes the borrower's next number, not used before. */
  lemma {:induction false} ListingIs(env: Env, s: Store, info: Info, tokens: seq<Asset>, terms: Option<Terms>)
    requires Inv(s)
    ensures var out := Step(env, s, info, DepositCollateralsMsg(tokens, terms));
            && (out.Ok? <==> tokens != [])
            && (out.Ok? ==>
                  exists n: nat ::
                    && (forall i: nat :: (info.sender, i) in s.loans <==> i < n)
                    && out == Ok((s.(loans := s.loans[(info.sender, n) := Collateral(terms, tokens, Published, 0, None, None)],
                                     lastLoan := s.lastLoan[info.sender := n]), Silent())))
  {
    var n := NextLoan(s, info.sender);
    assert forall i: nat :: (info.sender, i) in s.loans <==> i < n;
  }

  /** Terms are the borrower's to name while the loan is published. */
  lemma {:induction false} ModifyingIs(env: Env, s: Store, info: Info, loanId: nat, terms: Option<Terms>)
    ensures var key := (info.sender, loanId);
            var out := Step(env, s, info, ModifyCollateralsMsg(loanId, terms));
            && (out.Ok? <==> IsPublished(s, key))
            && (out.Ok? ==> out == Ok((s.(loans := s.loans[key := s.loans[key].(terms := if terms.Some? then terms else s.loans[key].terms)]), Silent())))
  {
  }

  /** So is taking the listing back. */
  lemma {:induction false} WithdrawingIs(env: Env, s: Store, info: Info, loanId: nat)
    ensures var key := (info.sender, loanId);
            var out := Step(env, s, info, WithdrawCollateralsMsg(loanId));
            && (out.Ok? <==> IsPublished(s, key))
            && (out.Ok? ==> out == Ok((s.(loans := s.loans[key := s.loans[key].(state := AssetWithdrawn)]), Silent())))
  {
  }

  // ----- Offers

  /** What making an offer stores: the lender's, on exactly these terms, their principle deposited
      in full, under a number not used before. */
  ghost predicate OfferMade(s: Store, s1: Store, lender: Addr, key: LoanKey, terms: Terms, o: nat)
    requires key in s.loans
  {
    var n := s.loans[key].offerAmount + 1;
    && (forall p: nat :: p in s.offers ==> p < o)
    && s1 == s.(globalOfferIndex := o, loans := s.loans[key := s.loans[key].(offerAmount := n)],
                offers := s.offers[o := Offer(lender, key.0, key.1, n, terms, Open, Some(terms.principle))])
  }

  /** An offer is accepted exactly on a published loan, with exactly its principle and nothing
      else sent along. */
  lemma {:induction false} OfferingIs(env: Env, s: Store, info: Info, borrower: Addr, loanId: nat, terms: Terms)
    requires Inv(s)
    ensures var key := (borrower, loanId);
            var out := Step(env, s, info, MakeOfferMsg(borrower, loanId, terms));
            && (out.Ok? <==> IsPublished(s, key) && info.funds == [terms.principle])
            && (out.Ok? ==>
                  exists o: nat :: OfferMade(s, out.value.0, info.sender, key, terms, o) && out.value.1 == Response([], Some(o), None))
  {
    var key := (borrower, loanId);
    if Step(env, s, info, MakeOfferMsg(borrower, loanId, terms)).Ok? {
      assert info.funds == [info.funds[0]];
      assert OfferMade(s, Step(env, s, info, MakeOfferMsg(borrower, loanId, terms)).value.0, info.sender, key, terms, s.globalOfferIndex + 1);
    }
  }

  /** The lender takes back the deposit of an offer that shows as open. */
  lemma {:induction false} CancellingIs(env: Env, s: Store, info: Info, o: nat)
    requires Inv(s)
    ensures var out := Step(env, s, info, CancelOfferMsg(o));
            && (out.Ok? <==> o in s.offers && info.sender == s.offers[o].lender && Shown(s, o) == Open)
            && (out.Ok? ==>
                  var offer := s.offers[o];
                  && out.value.0 == s.(offers := s.offers[o := offer.(state := Cancelled, depositedFunds := None)])
                  && out.value.1.messages == [Transfer(env.self, offer.lender, Native(offer.terms.principle))])
  {
    if o in s.offers {
      assert OfferShape(s.offers[o]) && s.offers[o].Loan() in s.loans;
    }
  }

  /** Or of one that shows as refused, once. */
  lemma {:induction false} WithdrawingRefusedIs(env: Env, s: Store, info: Info, o: nat)
    requires Inv(s)
    ensures var out := Step(env, s, info, WithdrawRefusedOfferMsg(o));
            && (out.Ok? <==> o in s.offers && info.sender == s.offers[o].lender && Shown(s, o) == Refused
                             && s.offers[o].depositedFunds.Some?)
            && (out.Ok? ==>
                  var offer := s.offers[o];
                  && out.value.0 == s.(offers := s.offers[o := offer.(state := Refused, depositedFunds := None)])
                  && out.value.1.messages == [Transfer(env.self, offer.lender, Native(offer.terms.principle))])
  {
    if o in s.offers {
      assert OfferShape(s.offers[o]) && s.offers[o].Loan() in s.loans;
    }
  }

  /** The borrower refuses an offer that shows as open. */
  lemma {:induction false} RefusingIs(env: Env, s: Store, info: Info, o: nat)
    requires Inv(s)
    ensures var out := Step(env, s, info, RefuseOfferMsg(o));
            && (out.Ok? <==> o in s.offers && info.sender == s.offers[o].borrower && Shown(s, o) == Open)
            && (out.Ok? ==> out == Ok((s.(offers := s.offers[o := s.offers[o].(state := Refused)]), Silent())))
  {
    if o in s.offers {
      assert s.offers[o].Loan() in s.loans;
    }
  }

  // ----- Starting a loan

  /** The loan runs from this block on the offer `o`, which is accepted and frozen; the principle
      goes to the borrower and the collateral comes in. */
  ghost predicate Started(env: Env, s: Store, s1: Store, r: Response, o: nat)
    requires o in s.offers && s.offers[o].Loan() in s.loans
  {
    var offer := s.offers[o];
    var loan := s.loans[offer.Loan()];
    && s1 == s.(loans := s.loans[offer.Loan() := loan.(state := LoanState.Started, startBlock := Some(env.height), activeOffer := Some(o))],
                offers := s.offers[o := offer.(state := Accepted)])
    && |r.messages| == 1 + |loan.assets|
    && r.messages[0] == Transfer(env.self, offer.borrower, Native(offer.terms.principle))
    && TakesIn(env.self, offer.borrower, loan.assets, r.messages[1..])
  }

  lemma {:induction false} RawAcceptanceIs(env: Env, s: Store, o: nat)
    requires Inv(s)
    ensures AcceptOfferRaw(env, s, o).Ok?
            <==> o in s.offers && Shown(s, o) == Open
                 && Takeable(env.wallets, s.offers[o].borrower, s.loans[s.offers[o].Loan()].assets)
    ensures AcceptOfferRaw(env, s, o).Ok? ==>
              s.offers[o].Loan() in s.loans && Started(env, s, AcceptOfferRaw(env, s, o).value.0, AcceptOfferRaw(env, s, o).value.1, o)
  {
    if o in s.offers {
      var offer := s.offers[o];
      assert OfferShape(offer) && offer.Loan() in s.loans;
      PullsIff(env.self, env.wallets, offer.borrower, s.loans[offer.Loan()].assets, PULL_ERRORS);
    }
  }

  /** Only the borrower accepts an offer, while it shows as open and the collateral is there. */
  lemma {:induction false} AcceptanceIs(env: Env, s: Store, info: Info, o: nat)
    requires Inv(s)
    ensures var out := Step(env, s, info, AcceptOfferMsg(o));
            && (out.Ok? <==> o in s.offers && info.sender == s.offers[o].borrower && Shown(s, o) == Open
                             && Takeable(env.wallets, s.offers[o].borrower, s.loans[s.offers[o].Loan()].assets))
            && (out.Ok? ==> s.offers[o].Loan() in s.loans && Started(env, s, out.value.0, out.value.1, o))
  {
    RawAcceptanceIs(env, s, o);
    if o in s.offers {
      assert s.offers[o].Loan() in s.loans;
    }
  }

  /** A loan taken on the borrower's own terms: the coin sent is exactly the principle listed, the
      active offer has exactly the terms listed and is the sender's, and exactly that principle
      goes to the borrower. */
  ghost predicate StartedOnTerms(env: Env, s: Store, s1: Store, r: Response, info: Info, key: LoanKey)
    requires key in s.loans
  {
    && key in s1.loans && s1.loans[key].state == LoanState.Started && s1.loans[key].startBlock == Some(env.height)
    && s.loans[key].terms.Some? && info.funds == [s.loans[key].terms.value.principle]
    && s1.loans[key].activeOffer.Some?
    && var o := s1.loans[key].activeOffer.value;
    && (forall p: nat :: p in s.offers ==> p < o)
    && o in s1.offers
    && s1.offers[o] == Offer(info.sender, key.0, key.1, s.loans[key].offerAmount + 1, s.loans[key].terms.value, Accepted,
                             Some(s.loans[key].terms.value.principle))
    && |r.messages| == 1 + |s.loans[key].assets|
    && r.messages[0] == Transfer(env.self, key.0, Native(s.loans[key].terms.value.principle))
    && TakesIn(env.self, key.0, s.loans[key].assets, r.messages[1..])
    && s1.loans == s.loans[key := s.loans[key].(state := LoanState.Started, startBlock := Some(env.height),
                                               offerAmount := s.loans[key].offerAmount + 1, activeOffer := Some(o))]
    && s1.offers == s.offers[o := s1.offers[o]]
  }

  lemma {:induction false} OnTermsParts(env: Env, s: Store, info: Info, key: LoanKey, s1: Store, o: nat)
    requires Inv(s) && IsPublished(s, key) && s.loans[key].terms.Some? && info.funds == [s.loans[key].terms.value.principle]
    requires MakeOfferRaw(s, info, key.0, key.1, s.loans[key].terms.value) == Ok((s1, o))
    ensures OfferMade(s, s1, info.sender, key, s.loans[key].terms.value, o) && Inv(s1)
    ensures AcceptLoan(env, s, info, key.0, key.1).Ok? <==> Takeable(env.wallets, key.0, s.loans[key].assets)
    ensures AcceptLoan(env, s, info, key.0, key.1).Ok? ==>
              var (s2, r) := AcceptLoan(env, s, info, key.0, key.1).value;
              Started(env, s1, s2, r, o) && r.made == Some(o)
  {
    MakeOfferRawInv(s, info, key.0, key.1, s.loans[key].terms.value);
    RawAcceptanceIs(env, s1, o);
  }

  lemma {:induction false} OnTerms(env: Env, s: Store, info: Info, key: LoanKey, s1: Store, s2: Store, r: Response, o: nat)
    requires IsPublished(s, key) && s.loans[key].terms.Some? && info.funds == [s.loans[key].terms.value.principle]
    requires OfferMade(s, s1, info.sender, key, s.loans[key].terms.value, o) && Started(env, s1, s2, r, o)
    ensures StartedOnTerms(env, s, s2, r, info, key)
  {
  }

  lemma {:induction false} NotOnTerms(env: Env, s: Store, info: Info, key: LoanKey)
    requires !(IsPublished(s, key) && s.loans[key].terms.Some? && info.funds == [s.loans[key].terms.value.principle])
    ensures AcceptLoan(env, s, info, key.0, key.1).Err?
  {
    assert |info.funds| == 1 ==> info.funds == [info.funds[0]];
  }

  /** A loan starts on the borrower's own terms exactly if it is published with terms, the coin
      sent is exactly their principle, and the collateral is there. */
  lemma {:induction false} TakingIs(env: Env, s: Store, info: Info, borrower: Addr, loanId: nat)
    requires Inv(s)
    ensures var key := (borrower, loanId);
            var out := Step(env, s, info, AcceptLoanMsg(borrower, loanId));
            && (out.Ok? <==> IsPublished(s, key) && s.loans[key].terms.Some? && info.funds == [s.loans[key].terms.value.principle]
                             && Takeable(env.wallets, borrower, s.loans[key].assets))
            && (out.Ok? ==> StartedOnTerms(env, s, out.value.0, out.value.1, info, key))
  {
    var key := (borrower, loanId);
    if IsPublished(s, key) && s.loans[key].terms.Some? && info.funds == [s.loans[key].terms.value.principle] {
      var (s1, o) := MakeOfferRaw(s, info, borrower, loanId, s.loans[key].terms.value).value;
      OnTermsParts(env, s, info, key, s1, o);
      var out := AcceptLoan(env, s, info, borrower, loanId);
      if out.Ok? {
        OnTerms(env, s, info, key, s1, out.value.0, out.value.1, o);
      }
    } else {
      NotOnTerms(env, s, info, key);
    }
  }

  // ----- Ending a loan

  /** Only the lender of a started loan forecloses, past its term, and is sent the collateral. */
  lemma {:induction false} ForeclosingIs(env: Env, s: Store, info: Info, borrower: Addr, loanId: nat)
    requires Inv(s)
    ensures var key := (borrower, loanId);
            var out := Step(env, s, info, WithdrawDefaultedLoanMsg(borrower, loanId));
            && (out.Ok? <==> key in s.loans && s.loans[key].state == LoanState.Started
                             && info.sender == s.offers[s.loans[key].activeOffer.value].lender
                             && Term(s, key) < U64_LIMIT && env.height > Term(s, key))
            && (out.Ok? ==> out == Ok((s.(loans := s.loans[key := s.loans[key].(state := Defaulted)]),
                                       Response(Sends(env.self, info.sender, s.loans[key].assets), None, None))))
  {
    var key := (borrower, loanId);
    if key in s.loans {
      assert LoanShape(s.loans[key]);
      if s.loans[key].state == LoanState.Started {
        StartedHasOffer(s, key);
        OneEndOpenIff(s, key, env.height);
      }
    }
  }

  // ----- Why a message is refused

  /** What is wrong with the coins. */
  function WrongFunds(funds: seq<Coin>): Error {
    if |funds| == 1 then FundsDontMatchTerms else MultipleCoins
  }

  lemma {:induction false} OfferingRefused(env: Env, s: Store, info: Info, borrower: Addr, loanId: nat, terms: Terms)
    ensures var key := (borrower, loanId);
            var out := Step(env, s, info, MakeOfferMsg(borrower, loanId, terms));
            out.Err? ==> out.error == if key !in s.loans then Std else if !IsPublished(s, key) then NotCounterable else WrongFunds(info.funds)
  {
  }

  lemma {:induction false} TakingRefused(env: Env, s: Store, info: Info, borrower: Addr, loanId: nat)
    requires Inv(s)
    ensures var key := (borrower, loanId);
            var out := Step(env, s, info, AcceptLoanMsg(borrower, loanId));
            && (key !in s.loans ==> out == Err(Std))
            && (key in s.loans && s.loans[key].terms.None? ==> out == Err(NoTermsSpecified))
            && (key in s.loans && s.loans[key].terms.Some? ==>
                  && (!IsPublished(s, key) ==> out == Err(NotCounterable))
                  && (IsPublished(s, key) && info.funds != [s.loans[key].terms.value.principle] ==> out == Err(WrongFunds(info.funds))))
  {
    if |info.funds| == 1 {
      assert info.funds == [info.funds[0]];
    }
  }

  predicate OfferMsg(msg: ExecuteMsg) {
    msg.CancelOfferMsg? || msg.WithdrawRefusedOfferMsg? || msg.RefuseOfferMsg? || msg.AcceptOfferMsg?
  }

  /** Whose message it is to send. */
  function Party(msg: ExecuteMsg, offer: Offer): Addr {
    if msg.CancelOfferMsg? || msg.WithdrawRefusedOfferMsg? then offer.lender else offer.borrower
  }

  /** The answer at the wrong displayed state. */
  function NotNow(msg: ExecuteMsg, published: bool, st: OfferState): Error {
    match msg
    case CancelOfferMsg(_) => CantChangeOfferState(st, Cancelled)
    case WithdrawRefusedOfferMsg(_) => NotWithdrawable
    case RefuseOfferMsg(_) => NotRefusable
    case _ => if published then WrongOfferState(st) else NotAcceptable
  }

  lemma {:induction false} OfferMsgRefused(env: Env, s: Store, info: Info, msg: ExecuteMsg)
    requires Inv(s) && OfferMsg(msg)
    ensures var o := msg.offer;
            var out := Step(env, s, info, msg);
            if o !in s.offers then out == Err(OfferNotFound)
            else if info.sender != Party(msg, s.offers[o]) then out == Err(Unauthorized)
            else Shown(s, o) != (if msg.WithdrawRefusedOfferMsg? then Refused else Open) ==>
                   out == Err(NotNow(msg, IsPublished(s, s.offers[o].Loan()), Shown(s, o)))
  {
    if msg.offer in s.offers {
      assert s.offers[msg.offer].Loan() in s.loans;
    }
  }

  /** Repaying a loan that is not the sender's, not started, or past its term. */
  lemma {:induction false} RepayRefused(env: Env, s: Store, info: Info, loanId: nat)
    requires Inv(s)
    ensures var key := (info.sender, loanId);
            var out := Step(env, s, info, RepayBorrowedFundsMsg(loanId));
            if key !in s.loans then out == Err(Std)
            else if s.loans[key].activeOffer.None? then out == Err(WrongLoanState(s.loans[key].state))
            else s.loans[key].state == LoanState.Started && env.height > Term(s, key) && Term(s, key) < U64_LIMIT ==>
                   out == Err(WrongLoanState(Defaulted))
  {
    if (info.sender, loanId) in s.loans {
      assert LoanShape(s.loans[(info.sender, loanId)]);
      if s.loans[(info.sender, loanId)].state == LoanState.Started {
        StartedHasOffer(s, (info.sender, loanId));
      }
    }
  }

  /** Foreclosing one that never started, has ended, is within its term, or is not the sender's. */
  lemma {:induction false} ForeclosingRefused(env: Env, s: Store, info: Info, borrower: Addr, loanId: nat)
    requires Inv(s)
    ensures var key := (borrower, loanId);
            var out := Step(env, s, info, WithdrawDefaultedLoanMsg(borrower, loanId));
            if key !in s.loans then out == Err(Std)
            else if s.loans[key].activeOffer.None? then out == Err(OfferNotFound)
            else if s.loans[key].state == Ended then out == Err(WrongLoanState(Ended))
            else if s.loans[key].state == LoanState.Started && Term(s, key) >= U64_LIMIT then out == Err(Panic)
            else if s.loans[key].state == LoanState.Started && env.height <= Term(s, key) then out == Err(WrongLoanState(LoanState.Started))
            else if info.sender != s.offers[s.loans[key].activeOffer.value].lender then out == Err(Unauthorized)
            else s.loans[key].state == Defaulted ==> out == Err(LoanAlreadyDefaulted)
  {
    if (borrower, loanId) in s.loans {
      assert LoanShape(s.loans[(borrower, loanId)]);
      if Running(s.loans[(borrower, loanId)].state) {
        StartedHasOffer(s, (borrower, loanId));
      }
    }
  }

  // ----- Who changes what

  /** A loan changes at its borrower's hands, or by being offered on, taken on the terms listed, or
      foreclosed by its lender. */
  ghost predicate MayChangeLoan(env: Env, s: Store, s1: Store, r: Response, info: Info, key: LoanKey)
    requires key in s.loans && key in s1.loans
  {
    var (a, b) := (s.loans[key], s1.loans[key]);
    || info.sender == key.0
    || (b == a.(offerAmount := a.offerAmount + 1) && r.messages == [])
    || StartedOnTerms(env, s, s1, r, info, key)
    || (a.activeOffer.Some? && a.activeOffer.value in s.offers && info.sender == s.offers[a.activeOffer.value].lender
        && b == a.(state := Defaulted))
  }

  /** An offer changes at its lender's hands, who gets the deposit back, or at its borrower's, who
      refuses or accepts. */
  predicate MayChangeOffer(a: Offer, b: Offer, info: Info) {
    || (info.sender == a.lender && b == a.(state := b.state, depositedFunds := None) && (b.state == Cancelled || b.state == Refused))
    || (info.sender == a.borrower && b == a.(state := b.state) && (b.state == Refused || b.state == Accepted))
  }

  ghost predicate Authorised(env: Env, s: Store, s1: Store, r: Response, info: Info) {
    && (forall key :: key in s.loans ==> key in s1.loans && (s1.loans[key] == s.loans[key] || MayChangeLoan(env, s, s1, r, info, key)))
    && (forall o :: o in s.offers ==> o in s1.offers && (s1.offers[o] == s.offers[o] || MayChangeOffer(s.offers[o], s1.offers[o], info)))
    && ((s1.feeDistributor == s.feeDistributor && s1.feeRate == s.feeRate) || info.sender == s.owner) && s1.owner == s.owner
  }

  lemma {:induction false} OneOffer(env: Env, s: Store, s1: Store, r: Response, info: Info, o: nat)
    requires o in s.offers && o in s1.offers && s1 == s.(offers := s.offers[o := s1.offers[o]])
    requires MayChangeOffer(s.offers[o], s1.offers[o], info)
    ensures Authorised(env, s, s1, r, info) && s1.offers.Keys == s.offers.Keys
  {
  }

  lemma {:induction false} AcceptanceAuthorised(env: Env, s: Store, s1: Store, r: Response, info: Info, o: nat)
    requires o in s.offers && s.offers[o].Loan() in s.loans && info.sender == s.offers[o].borrower && Started(env, s, s1, r, o)
    ensures Authorised(env, s, s1, r, info) && s1.offers.Keys == s.offers.Keys
  {
  }

  lemma {:induction false} OfferMsgAuthorised(env: Env, s: Store, info: Info, msg: ExecuteMsg, s1: Store, r: Response)
    requires Inv(s) && OfferMsg(msg) && Step(env, s, info, msg) == Ok((s1, r))
    ensures Authorised(env, s, s1, r, info) && s1.offers.Keys == s.offers.Keys
  {
    var o := msg.offer;
    if msg.AcceptOfferMsg? {
      AcceptanceIs(env, s, info, o);
      AcceptanceAuthorised(env, s, s1, r, info, o);
    } else {
      if msg.CancelOfferMsg? {
        CancellingIs(env, s, info, o);
      } else if msg.WithdrawRefusedOfferMsg? {
        WithdrawingRefusedIs(env, s, info, o);
      } else {
        RefusingIs(env, s, info, o);
      }
      OneOffer(env, s, s1, r, info, o);
    }
  }

  lemma {:induction false} OwnLoanAuthorised(env: Env, s: Store, info: Info, msg: ExecuteMsg, s1: Store, r: Response)
    requires Inv(s) && Step(env, s, info, msg) == Ok((s1, r))
    requires msg.DepositCollateralsMsg? || msg.ModifyCollateralsMsg? || msg.WithdrawCollateralsMsg? || msg.RepayBorrowedFundsMsg?
    ensures Authorised(env, s, s1, r, info) && s1.offers.Keys == s.offers.Keys
  {
    match msg
    case DepositCollateralsMsg(tokens, terms) => ListingIs(env, s, info, tokens, terms);
    case ModifyCollateralsMsg(loanId, terms) => ModifyingIs(env, s, info, loanId, terms);
    case WithdrawCollateralsMsg(loanId) => WithdrawingIs(env, s, info, loanId);
    case RepayBorrowedFundsMsg(loanId) => var offer, payback, fee := RepayParts(env, s, info, loanId, s1, r);
  }

  lemma {:induction false} OfferingAuthorised(env: Env, s: Store, info: Info, msg: ExecuteMsg, s1: Store, r: Response)
    requires Inv(s) && msg.MakeOfferMsg? && Step(env, s, info, msg) == Ok((s1, r))
    ensures Authorised(env, s, s1, r, info)
  {
    OfferingIs(env, s, info, msg.borrower, msg.loanId, msg.offered);
    var o: nat :| OfferMade(s, s1, info.sender, (msg.borrower, msg.loanId), msg.offered, o);
    assert o !in s.offers;
  }

  lemma {:induction false} TakingAuthorised(env: Env, s: Store, info: Info, msg: ExecuteMsg, s1: Store, r: Response)
    requires Inv(s) && msg.AcceptLoanMsg? && Step(env, s, info, msg) == Ok((s1, r))
    ensures Authorised(env, s, s1, r, info)
  {
    TakingIs(env, s, info, msg.borrower, msg.loanId);
    var key := (msg.borrower, msg.loanId);
    assert MayChangeLoan(env, s, s1, r, info, key);
    assert s1.loans[key].activeOffer.value !in s.offers;
    TakingFrame(env, s, info, msg, s1, r);
  }

  lemma {:induction false} TakingFrame(env: Env, s: Store, info: Info, msg: ExecuteMsg, s1: Store, r: Response)
    requires msg.AcceptLoanMsg? && Step(env, s, info, msg) == Ok((s1, r))
    ensures s1.owner == s.owner && s1.feeDistributor == s.feeDistributor && s1.feeRate == s.feeRate
  {
  }

  /** Every change a message makes is one of those. */
  lemma {:induction false} StepAuthorised(env: Env, s: Store, info: Info, msg: ExecuteMsg, s1: Store, r: Response)
    requires Inv(s) && Step(env, s, info, msg) == Ok((s1, r))
    ensures Authorised(env, s, s1, r, info)
  {
    if OfferMsg(msg) {
      OfferMsgAuthorised(env, s, info, msg, s1, r);
    } else if msg.MakeOfferMsg? {
      OfferingAuthorised(env, s, info, msg, s1, r);
    } else if msg.AcceptLoanMsg? {
      TakingAuthorised(env, s, info, msg, s1, r);
    } else if msg.WithdrawDefaultedLoanMsg? {
      ForeclosingIs(env, s, info, msg.borrower, msg.loanId);
      assert LoanShape(s.loans[(msg.borrower, msg.loanId)]);
    } else if msg.SetFeeDistributorMsg? || msg.SetFeeRateMsg? {
    } else {
      OwnLoanAuthorised(env, s, info, msg, s1, r);
    }
  }

  // ----- Every offer was paid for

  /** The message came from the offer's lender, with exactly the principle, and named these terms
      or took those listed. */
  predicate PaidFor(s: Store, info: Info, msg: ExecuteMsg, offer: Offer) {
    && info.sender == offer.lender && info.funds == [offer.terms.principle]
    && ((msg.MakeOfferMsg? && (msg.borrower, msg.loanId) == offer.Loan() && msg.offered == offer.terms)
        || (msg.AcceptLoanMsg? && (msg.borrower, msg.loanId) == offer.Loan() && offer.Loan() in s.loans
            && s.loans[offer.Loan()].terms == Some(offer.terms)))
  }

  lemma {:induction false} StepPaidFor(env: Env, s: Store, info: Info, msg: ExecuteMsg, s1: Store, r: Response, o: nat)
    requires Inv(s) && Step(env, s, info, msg) == Ok((s1, r)) && o in s1.offers && o !in s.offers
    ensures PaidFor(s, info, msg, s1.offers[o])
  {
    if OfferMsg(msg) {
      OfferMsgAuthorised(env, s, info, msg, s1, r);
    } else if msg.MakeOfferMsg? {
      OfferingIs(env, s, info, msg.borrower, msg.loanId, msg.offered);
    } else if msg.AcceptLoanMsg? {
      TakingIs(env, s, info, msg.borrower, msg.loanId);
    } else if msg.WithdrawDefaultedLoanMsg? {
      ForeclosingIs(env, s, info, msg.borrower, msg.loanId);
    } else if msg.SetFeeDistributorMsg? || msg.SetFeeRateMsg? {
    } else {
      OwnLoanAuthorised(env, s, info, msg, s1, r);
    }
  }

  /** Over every run: each offer that joined was made by one of its messages, sent by its lender
      with exactly its principle, on the terms it has ever since. */
  lemma {:induction false} OffersWerePaid(self: Addr, c: Chain, txs: seq<Tx>, o: nat) returns (i: nat)
    requires Inv(c.store) && o in Run(self, c, txs).store.offers && o !in c.store.offers
    ensures i < |txs| && PaidFor(Run(self, c, txs[..i]).store, txs[i].info, txs[i].msg, Run(self, c, txs).store.offers[o])
    decreases |txs|
  {
    var d := Exec(self, c, txs[0]);
    ExecInv(self, c, txs[0]);
    if o in d.store.offers {
      i := 0;
      var env := Env(self, txs[0].height, c.wallets.MoveAll(self, true, Fund(txs[0].info.sender, self, txs[0].info.funds)).value);
      var (s1, r) := Step(env, c.store, txs[0].info, txs[0].msg).value;
      StepPaidFor(env, c.store, txs[0].info, txs[0].msg, s1, r, o);
      RunMoves(self, d, txs[1..]);
      assert OfferMoves(d.store.offers[o], Run(self, d, txs[1..]).store.offers[o]);
      assert txs[..0] == [];
    } else {
      var j := OffersWerePaid(self, d, txs[1..], o);
      i := j + 1;
      assert txs[..i][1..] == txs[1..][..j];
    }
  }

  // ----- Administration

  /** At first there is nothing, and no fee rate reaches one. */
  lemma {:induction false} InstantiatedIs(owner: Addr, distributor: Addr, rate: nat)
    ensures Instantiate(owner, distributor, rate)
         == if rate < 1_000_000_000_000_000_000 then Ok(Store(owner, distributor, rate, 0, map[], map[], map[])) else Err(Std)
  {
  }

  lemma {:induction false} AdministrationIs(env: Env, s: Store, info: Info, distributor: Addr, rate: nat)
    ensures Step(env, s, info, SetFeeDistributorMsg(distributor))
         == if info.sender == s.owner then Ok((s.(feeDistributor := distributor), Silent())) else Err(Unauthorized)
    ensures Step(env, s, info, SetFeeRateMsg(rate))
         == if info.sender != s.owner then Err(Unauthorized) else if rate < ONE then Ok((s.(feeRate := rate), Silent())) else Err(Std)
  {
  }
}

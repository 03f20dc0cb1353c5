/** The deposits of the loan contract always have a way out, and take it once. */
module LoansOffers {
  import opened Base
  import opened Ledger
  import opened Loans
  import opened LoansInvariant
  import opened LoansEscrow

  /** The contract still keeps this offer's money. */
  predicate HoldsDeposit(s: Store, o: nat) {
    o in s.offers && s.offers[o].state != Accepted && s.offers[o].depositedFunds.Some?
  }

  /** Each unaccepted funded offer has exactly one of the two refunds open to its lender,
      and no other offer has either: cancelling while the loan is published and the offer
      open, withdrawing once it reads as refused. */
  lemma {:induction false} OneRefundOpen(self: Addr, s: Store, o: nat)
    requires Inv(s) && o in s.offers
    ensures var cancel := CancelOffer(self, s, s.offers[o].lender, o).Ok?;
            var withdraw := WithdrawRefusedOffer(self, s, s.offers[o].lender, o).Ok?;
            && !(cancel && withdraw)
            && (cancel || withdraw <==> HoldsDeposit(s, o))
            && (cancel <==> s.offers[o].state == Open && s.loans[s.offers[o].Loan()].state == Published)
  {
    assert OfferShape(s.offers[o]);
    assert s.offers[o].Loan() in s.loans;
  }

  // ----- One message and one deposit

  predicate Makes(r: Response, o: nat) {
    r.made == Some(o)
  }

  predicate Releases(r: Response, o: nat) {
    r.released.Some? && r.released.value.offer == o
  }

  function Count(b: bool): nat {
    if b then 1 else 0
  }

  /** A deposit is kept after a message if it was kept or came in, and did not go out; none
      goes out that was not there. */
  ghost predicate Tallies(s: Store, s1: Store, r: Response) {
    forall o :: Count(HoldsDeposit(s1, o)) + Count(Releases(r, o)) == Count(HoldsDeposit(s, o)) + Count(Makes(r, o))
  }

  /** The whole principle, to the borrower if the offer was accepted, to the lender else. */
  ghost predicate ReleaseRight(s: Store, rel: Release) {
    && rel.offer in s.offers
    && !HoldsDeposit(s, rel.offer)
    && rel.coin == s.offers[rel.offer].terms.principle
    && rel.to == if s.offers[rel.offer].state == Accepted then s.offers[rel.offer].borrower else s.offers[rel.offer].lender
  }

  ghost predicate Pays(self: Addr, s1: Store, r: Response) {
    r.released.Some? ==>
      ReleaseRight(s1, r.released.value)
      && Transfer(self, r.released.value.to, Native(r.released.value.coin)) in r.messages
  }

  lemma {:induction false} RefundTallies(self: Addr, s: Store, sender: Addr, o: nat)
    requires Inv(s)
    ensures var out := CancelOffer(self, s, sender, o);
            out.Ok? ==> Tallies(s, out.value.0, out.value.1) && Pays(self, out.value.0, out.value.1)
    ensures var out := WithdrawRefusedOffer(self, s, sender, o);
            out.Ok? ==> Tallies(s, out.value.0, out.value.1) && Pays(self, out.value.0, out.value.1)
  {
    if GetOffer(s, o).Ok? {
      Loaded(s, o);
    }
  }

  lemma {:induction false} AcceptOfferRawTallies(env: Env, s: Store, o: nat)
    requires Inv(s) && AcceptOfferRaw(env, s, o).Ok?
    ensures var (s1, r) := AcceptOfferRaw(env, s, o).value;
            Tallies(s, s1, r) && Pays(env.self, s1, r) && r.made.None? && Releases(r, o)
  {
    Loaded(s, o);
    var r := AcceptOfferRaw(env, s, o).value.1;
    assert r.messages[0] == Transfer(env.self, s.offers[o].borrower, Native(s.offers[o].depositedFunds.value));
  }

  lemma {:induction false} MakeOfferRawTallies(s: Store, info: Info, borrower: Addr, loanId: nat, terms: Terms)
    requires Inv(s) && MakeOfferRaw(s, info, borrower, loanId, terms).Ok?
    ensures var (s1, o) := MakeOfferRaw(s, info, borrower, loanId, terms).value;
            Tallies(s, s1, Response([], Some(o), None))
  {
    MakeOfferRawInv(s, info, borrower, loanId, terms);
  }

  lemma {:induction false} TalliesCompose(s: Store, s1: Store, s2: Store, a: Response, b: Response, o: nat)
    requires Tallies(s, s1, a) && Tallies(s1, s2, b) && a == Response([], Some(o), None) && b.made.None?
    ensures Tallies(s, s2, b.(made := Some(o)))
  {
    forall p
      ensures Count(HoldsDeposit(s2, p)) + Count(Releases(b.(made := Some(o)), p)) == Count(HoldsDeposit(s, p)) + Count(Makes(b.(made := Some(o)), p))
    {
      assert Count(HoldsDeposit(s1, p)) + Count(Releases(a, p)) == Count(HoldsDeposit(s, p)) + Count(Makes(a, p));
    }
  }

  lemma {:induction false} AcceptLoanTallies(env: Env, s: Store, info: Info, borrower: Addr, loanId: nat)
    requires Inv(s) && AcceptLoan(env, s, info, borrower, loanId).Ok?
    ensures var (s1, r) := AcceptLoan(env, s, info, borrower, loanId).value; Tallies(s, s1, r) && Pays(env.self, s1, r)
  {
    var terms := s.loans[(borrower, loanId)].terms.value;
    MakeOfferRawInv(s, info, borrower, loanId, terms);
    MakeOfferRawTallies(s, info, borrower, loanId, terms);
    var (s1, o) := MakeOfferRaw(s, info, borrower, loanId, terms).value;
    AcceptOfferRawTallies(env, s1, o);
    var (s2, r) := AcceptOfferRaw(env, s1, o).value;
    assert AcceptLoan(env, s, info, borrower, loanId) == Ok((s2, r.(made := Some(o))));
    TalliesCompose(s, s1, s2, Response([], Some(o), None), r, o);
  }

  lemma {:induction false} LoanMsgTallies(env: Env, s: Store, info: Info, msg: ExecuteMsg)
    requires Inv(s) && Step(env, s, info, msg).Ok?
    requires msg.DepositCollateralsMsg? || msg.ModifyCollateralsMsg? || msg.WithdrawCollateralsMsg? || msg.RefuseOfferMsg?
             || msg.RepayBorrowedFundsMsg? || msg.WithdrawDefaultedLoanMsg? || msg.SetFeeDistributorMsg? || msg.SetFeeRateMsg?
    ensures var (s1, r) := Step(env, s, info, msg).value; Tallies(s, s1, r) && r.released.None?
  {
    var (s1, r) := Step(env, s, info, msg).value;
    assert r.made.None? && r.released.None?;
    if msg.RefuseOfferMsg? {
      Loaded(s, msg.offer);
    } else {
      assert s1.offers == s.offers;
    }
  }

  lemma {:induction false} StepTallies(env: Env, s: Store, info: Info, msg: ExecuteMsg)
    requires Inv(s) && Step(env, s, info, msg).Ok?
    ensures var (s1, r) := Step(env, s, info, msg).value; Tallies(s, s1, r) && Pays(env.self, s1, r)
  {
    match msg
    case MakeOfferMsg(borrower, loanId, terms) => MakeOfferRawTallies(s, info, borrower, loanId, terms);
    case CancelOfferMsg(o) => RefundTallies(env.self, s, info.sender, o);
    case WithdrawRefusedOfferMsg(o) => RefundTallies(env.self, s, info.sender, o);
    case AcceptOfferMsg(o) => AcceptOfferRawTallies(env, s, o);
    case AcceptLoanMsg(borrower, loanId) => AcceptLoanTallies(env, s, info, borrower, loanId);
    case _ => LoanMsgTallies(env, s, info, msg);
  }

  // ----- Over whole runs

  function MadeIn(trace: seq<Option<Response>>, o: nat): nat {
    if trace == [] then 0 else Count(trace[0].Some? && Makes(trace[0].value, o)) + MadeIn(trace[1..], o)
  }

  function ReleasedIn(trace: seq<Option<Response>>, o: nat): nat {
    if trace == [] then 0 else Count(trace[0].Some? && Releases(trace[0].value, o)) + ReleasedIn(trace[1..], o)
  }

  /** A deposit made is either still kept or has gone out exactly once. */
  lemma {:induction false} DepositLeavesOnce(self: Addr, c: Chain, txs: seq<Tx>, o: nat)
    requires Inv(c.store)
    ensures var trace := Trace(self, c, txs);
            Count(HoldsDeposit(Run(self, c, txs).store, o)) + ReleasedIn(trace, o)
            == Count(HoldsDeposit(c.store, o)) + MadeIn(trace, o)
    decreases |txs|
  {
    if txs != [] {
      var d := Exec(self, c, txs[0]);
      var trace := Trace(self, c, txs);
      assert trace[1..] == Trace(self, d, txs[1..]);
      if Try(self, c, txs[0]).Some? {
        StepTallies(EnvOf(self, c, txs[0]), c.store, txs[0].info, txs[0].msg);
      }
      ExecInv(self, c, txs[0]);
      DepositLeavesOnce(self, d, txs[1..], o);
    }
  }

  lemma {:induction false} ReleaseStaysRight(s: Store, s1: Store, rel: Release)
    requires Moves(s, s1) && Inv(s) && ReleaseRight(s, rel)
    ensures ReleaseRight(s1, rel)
  {
    assert OfferMoves(s.offers[rel.offer], s1.offers[rel.offer]);
  }

  lemma {:induction false} ReleaseRightAfter(self: Addr, c: Chain, tx: Tx, r: Response, txs: seq<Tx>)
    requires Inv(c.store) && Try(self, c, tx).Some? && Try(self, c, tx).value.1 == r && r.released.Some?
    ensures ReleaseRight(Run(self, Exec(self, c, tx), txs).store, r.released.value)
    ensures Transfer(self, r.released.value.to, Native(r.released.value.coin)) in r.messages
  {
    var d := Exec(self, c, tx);
    StepTallies(EnvOf(self, c, tx), c.store, tx.info, tx.msg);
    ExecInv(self, c, tx);
    RunMoves(self, d, txs);
    ReleaseStaysRight(d.store, Run(self, d, txs).store, r.released.value);
  }

  /** Every release of a run was a transfer of the whole principle, to the borrower of an
      accepted offer or back to the lender of any other. */
  lemma {:induction false} ReleasesRight(self: Addr, c: Chain, txs: seq<Tx>, i: nat, r: Response)
    requires Inv(c.store) && i < |Trace(self, c, txs)| && Trace(self, c, txs)[i] == Some(r) && r.released.Some?
    ensures ReleaseRight(Run(self, c, txs).store, r.released.value)
    ensures Transfer(self, r.released.value.to, Native(r.released.value.coin)) in r.messages
    decreases |txs|
  {
    if i == 0 {
      ReleaseRightAfter(self, c, txs[0], r, txs[1..]);
    } else {
      ExecInv(self, c, txs[0]);
      ReleasesRight(self, Exec(self, c, txs[0]), txs[1..], i - 1, r);
    }
  }

  // ----- Never stranded

  function WayOut(s: Store, o: nat): ExecuteMsg
    requires o in s.offers
  {
    if s.offers[o].state == Open && s.offers[o].Loan() in s.loans && s.loans[s.offers[o].Loan()].state == Published
    then CancelOfferMsg(o)
    else WithdrawRefusedOfferMsg(o)
  }

  lemma {:induction false} Credited(w: Wallets, self: Addr, to: Addr, coin: Coin)
    requires to != self && coin.amount <= w.Held(self, NativeKey(coin.denom))
    ensures var moved := w.MoveAll(self, false, [Transfer(self, to, Native(coin))]);
            moved.Some? && moved.value.Held(to, NativeKey(coin.denom)) == w.Held(to, NativeKey(coin.denom)) + coin.amount
  {
    assert [Transfer(self, to, Native(coin))][1..] == [];
  }

  lemma {:induction false} WayOutPays(env: Env, s: Store, o: nat)
    requires Inv(s) && HoldsDeposit(s, o)
    ensures var offer := s.offers[o];
            var out := Step(env, s, Info(offer.lender, []), WayOut(s, o));
            out.Ok? && out.value.1.messages == [Transfer(env.self, offer.lender, Native(offer.terms.principle))]
  {
    OneRefundOpen(env.self, s, o);
    assert OfferShape(s.offers[o]);
  }

  /** In any state of an orderly run, the lender of an unaccepted funded offer gets the
      deposit back with one message. */
  lemma {:induction false} LenderCanLeave(self: Addr, c: Chain, o: nat, height: nat)
    requires ChainInv(self, c) && HoldsDeposit(c.store, o)
    ensures var offer := c.store.offers[o];
            var tx := Tx(Info(offer.lender, []), height, false, WayOut(c.store, o));
            var k := NativeKey(offer.terms.principle.denom);
            && Try(self, c, tx).Some?
            && Exec(self, c, tx).wallets.Held(offer.lender, k) == c.wallets.Held(offer.lender, k) + offer.terms.principle.amount
  {
    var offer := c.store.offers[o];
    var coin := offer.terms.principle;
    var k := NativeKey(coin.denom);
    WayOutPays(Env(self, height, c.wallets), c.store, o);
    assert OfferShape(offer);
    assert c.wallets.Held(self, k) == Escrowed(c.store, k);
    MapSumBounds(OfferWeights(c.store.offers, k), o);
    Credited(c.wallets, self, offer.lender, coin);
  }
}

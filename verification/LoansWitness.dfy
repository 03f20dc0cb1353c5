/** Runs of the loan contract, from instantiation, that end where a promise stops. */
module LoansWitness {
  import opened Base
  import opened Ledger
  import opened Nfts
  import opened Loans
  import opened LoansInvariant
  import opened LoansEscrow
  import opened LoansCollateral

  function OwnTerms(coin: Coin, duration: nat): Terms {
    Terms(coin, 0, duration)
  }

  function Lists(a: Addr, assets: seq<Asset>, coin: Coin, duration: nat): Tx {
    Tx(Info(a, []), 1, true, DepositCollateralsMsg(assets, Some(OwnTerms(coin, duration))))
  }

  function Accepts(a: Addr, b: Addr, coin: Coin): Tx {
    Tx(Info(b, [coin]), 1, true, AcceptLoanMsg(a, 0))
  }

  lemma {:induction false} TwoSteps(self: Addr, c: Chain, t: Tx, u: Tx)
    ensures Run(self, c, [t, u]) == Exec(self, Exec(self, c, t), u)
  {
    assert [t, u][1..] == [u] && [u][1..] == [];
    assert Run(self, Exec(self, c, t), [u]) == Exec(self, Exec(self, c, t), u);
  }

  function Listed(assets: seq<Asset>, coin: Coin, duration: nat): Collateral {
    Collateral(Some(OwnTerms(coin, duration)), assets, Published, 0, None, None)
  }

  /** After instantiation and one listing. */
  lemma {:induction false} Listing(self: Addr, c: Chain, a: Addr, assets: seq<Asset>, coin: Coin, duration: nat) returns (d: Chain)
    requires Genesis(self, c) && a != self && assets != []
    ensures d == Exec(self, c, Lists(a, assets, coin, duration)) && ChainInv(self, d) && d.wallets == c.wallets
    ensures d.store.loans == map[(a, 0) := Listed(assets, coin, duration)]
    ensures d.store.offers == map[] && d.store.globalOfferIndex == 0
  {
    assert c.store.loans == map[] && c.store.offers == map[] && c.store.lastLoan == map[];
    assert Fund(a, self, []) == [];
    var tx := Lists(a, assets, coin, duration);
    d := Chain(PutLoan(c.store.(lastLoan := c.store.lastLoan[a := 0]), (a, 0), Listed(assets, coin, duration)), c.wallets);
    assert Step(Env(self, 1, c.wallets), c.store, tx.info, tx.msg) == Ok((d.store, Silent()));
    GenesisInv(self, c);
    assert Taken(c.store, tx.msg) == [];
    CustodyStep(self, c, tx);
  }

  function Started(assets: seq<Asset>, coin: Coin, duration: nat, height: nat): Collateral {
    Listed(assets, coin, duration).(state := LoanState.Started, offerAmount := 1, activeOffer := Some(1), startBlock := Some(height))
  }

  /** What accepting the first listing of a fresh contract does. */
  lemma {:induction false} AcceptedOnTerms(env: Env, s: Store, a: Addr, b: Addr, assets: seq<Asset>, coin: Coin,
                                           duration: nat, pulls: seq<Transfer>)
    requires s.loans == map[(a, 0) := Listed(assets, coin, duration)] && s.offers == map[] && s.globalOfferIndex == 0
    requires Pulls(env.self, env.wallets, a, assets, PULL_ERRORS) == Ok(pulls)
    ensures var out := AcceptLoan(env, s, Info(b, [coin]), a, 0);
            && out.Ok?
            && out.value.1.messages == [Transfer(env.self, a, Native(coin))] + pulls
            && out.value.0.loans == map[(a, 0) := Started(assets, coin, duration, env.height)]
            && 1 in out.value.0.offers && out.value.0.offers[1].terms == OwnTerms(coin, duration)
  {
    var terms := OwnTerms(coin, duration);
    var s1 := MakeOfferRaw(s, Info(b, [coin]), a, 0, terms).value.0;
    assert s1.loans == map[(a, 0) := Listed(assets, coin, duration).(offerAmount := 1)];
    assert s1.offers == map[1 := Offer(b, a, 0, 1, terms, Open, Some(coin))];
    assert AcceptOfferRaw(env, s1, 1).Ok?;
  }

  lemma {:induction false} PayThenPull(w: Wallets, self: Addr, a: Addr, coin: Coin, pulls: seq<Transfer>)
    requires a != self && coin.amount <= w.Held(self, NativeKey(coin.denom))
    requires w.Move(self, true, Transfer(self, a, Native(coin))).value.MoveAll(self, true, pulls).Some?
    ensures w.MoveAll(self, true, [Transfer(self, a, Native(coin))] + pulls)
         == w.Move(self, true, Transfer(self, a, Native(coin))).value.MoveAll(self, true, pulls)
  {
    MoveAllConcat(w, self, true, [Transfer(self, a, Native(coin))], pulls);
    MoveOne(w, self, true, Transfer(self, a, Native(coin)));
  }

  function PullsOf(self: Addr, a: Addr, assets: seq<Asset>): seq<Transfer> {
    if assets == [] then [] else [Transfer(a, self, assets[0])] + PullsOf(self, a, assets[1..])
  }

  /** An NFT can be pulled as often as it is listed. */
  lemma {:induction false} NftPulled(self: Addr, w: Wallets, v: Wallets, a: Addr, assets: seq<Asset>, nft: Asset)
    requires nft.Cw721? && nft.HasContract() && Lookup(w.nftOwner, nft.Key()) == Some(a) && nft.Key() in v.nftOwner
    requires forall i :: 0 <= i < |assets| ==> assets[i] == nft
    ensures Pulls(self, w, a, assets, PULL_ERRORS) == Ok(PullsOf(self, a, assets))
    ensures v.MoveAll(self, true, PullsOf(self, a, assets)).Some?
    decreases |assets|
  {
    if assets != [] {
      var u := v.Move(self, true, Transfer(a, self, nft)).value;
      NftPulled(self, w, u, a, assets[1..], nft);
      MoveAllConcat(v, self, true, [Transfer(a, self, nft)], PullsOf(self, a, assets[1..]));
      MoveOne(v, self, true, Transfer(a, self, nft));
    }
  }

  /** A listing of one NFT, however often: the loan can start. */
  lemma {:induction false} Starting(self: Addr, c: Chain, a: Addr, b: Addr, assets: seq<Asset>, nft: Asset,
                                    coin: Coin, duration: nat)
    requires a != self && b != self && forall i :: 0 <= i < |assets| ==> assets[i] == nft
    requires c.store.loans == map[(a, 0) := Listed(assets, coin, duration)] && c.store.offers == map[] && c.store.globalOfferIndex == 0
    requires nft.Cw721? && nft.HasContract() && Lookup(c.wallets.nftOwner, nft.Key()) == Some(a)
    requires coin.amount <= c.wallets.Held(b, NativeKey(coin.denom))
    ensures var d := Try(self, c, Accepts(a, b, coin));
            && d.Some? && d.value.0.store.loans == map[(a, 0) := Started(assets, coin, duration, 1)]
            && 1 in d.value.0.store.offers && d.value.0.store.offers[1].terms == OwnTerms(coin, duration)
  {
    PaidIn(c.wallets, b, self, coin, b, NativeKey(coin.denom));
    var v := c.wallets.MoveAll(self, true, Fund(b, self, [coin])).value;
    Funded(self, c.wallets, b, [coin], NativeKey(coin.denom));
    NativesOne(coin, NativeKey(coin.denom));
    assert v.nftOwner == c.wallets.nftOwner by { assert Fund(b, self, [coin])[1..] == []; }
    var env := Env(self, 1, v);
    var paid := v.Move(self, true, Transfer(self, a, Native(coin))).value;
    NftPulled(self, v, paid, a, assets, nft);
    var pulls := PullsOf(self, a, assets);
    AcceptedOnTerms(env, c.store, a, b, assets, coin, duration, pulls);
    PayThenPull(v, self, a, coin, pulls);
  }

  /** Two messages start a loan whose term is no block number; no continuation ever touches it. */
  lemma {:induction false} LoanWithoutEnd(self: Addr, c: Chain, a: Addr, b: Addr, nft: Asset, coin: Coin, more: seq<Tx>)
    requires Genesis(self, c) && a != self && b != self
    requires nft.Cw721? && nft.HasContract() && Lookup(c.wallets.nftOwner, nft.Key()) == Some(a)
    requires coin.amount <= c.wallets.Held(b, NativeKey(coin.denom))
    ensures var d := Run(self, c, [Lists(a, [nft], coin, U64_LIMIT - 1), Accepts(a, b, coin)]);
            && Endless(d.store, (a, 0)) && d.store.loans[(a, 0)].assets == [nft]
            && (a, 0) in Run(self, d, more).store.loans && Run(self, d, more).store.loans[(a, 0)] == d.store.loans[(a, 0)]
  {
    var c1 := Listing(self, c, a, [nft], coin, U64_LIMIT - 1);
    Starting(self, c1, a, b, [nft], nft, coin, U64_LIMIT - 1);
    TwoSteps(self, c, Lists(a, [nft], coin, U64_LIMIT - 1), Accepts(a, b, coin));
    ExecInv(self, c1, Accepts(a, b, coin));
    var d := Exec(self, c1, Accepts(a, b, coin));
    StartedHasOffer(d.store, (a, 0));
    assert Term(d.store, (a, 0)) == 1 + (U64_LIMIT - 1);
    EndlessForever(self, d, more, (a, 0));
  }

  /** A loan that lists one NFT twice starts, and custody is broken. */
  lemma {:induction false} NftPledgedTwice(self: Addr, c: Chain, a: Addr, b: Addr, nft: Asset, coin: Coin)
    requires Genesis(self, c) && a != self && b != self
    requires nft.Cw721? && nft.HasContract() && Lookup(c.wallets.nftOwner, nft.Key()) == Some(a)
    requires coin.amount <= c.wallets.Held(b, NativeKey(coin.denom))
    ensures !Custody(self, Run(self, c, [Lists(a, [nft, nft], coin, 1), Accepts(a, b, coin)]))
  {
    var c1 := Listing(self, c, a, [nft, nft], coin, 1);
    Starting(self, c1, a, b, [nft, nft], nft, coin, 1);
    TwoSteps(self, c, Lists(a, [nft, nft], coin, 1), Accepts(a, b, coin));
    var taken := Taken(c1.store, Accepts(a, b, coin).msg);
    assert taken == [nft, nft];
    assert taken[0].Key() == taken[1].Key();
    CustodyIff(self, c1, Accepts(a, b, coin));
  }

  /** A coin sent along with a listing belongs to no record. */
  lemma {:induction false} StrayCoinKept(self: Addr, c: Chain, a: Addr, nft: Asset, coin: Coin)
    requires Genesis(self, c) && a != self && 0 < coin.amount <= c.wallets.Held(a, NativeKey(coin.denom))
    ensures !Custody(self, Exec(self, c, Tx(Info(a, [coin]), 1, false, DepositCollateralsMsg([nft], None))))
  {
    var tx := Tx(Info(a, [coin]), 1, false, DepositCollateralsMsg([nft], None));
    PaidIn(c.wallets, a, self, coin, a, NativeKey(coin.denom));
    GenesisInv(self, c);
    assert tx.info.funds[0].amount != 0;
    assert Try(self, c, tx).Some?;
    CustodyIff(self, c, tx);
  }
}

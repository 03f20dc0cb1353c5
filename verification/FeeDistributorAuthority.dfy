/** Who may change what in the fee distributor, and to whom a linked account is paid. */
module FeeDistributorAuthority {
  import opened Base
  import opened Ledger
  import opened FeeDistributor
  import opened FeeDistributorBooks

  // ----- The administrator's messages

  /** The administrator links any account to any address; anybody else may only name again the
      address stored. */
  lemma {:induction false} LinkingIs(self: Addr, s: Store, info: Info, a: Addr, to: Addr)
    ensures var out := Step(self, s, info, AddAssociatedAddressMsg(a, to));
            && (out.Ok? <==> info.sender == s.owner || Lookup(s.feeAddress, a) == Some(to))
            && (out.Ok? ==> out == Ok((s.(feeAddress := s.feeAddress[a := to]), [])))
            && (out.Err? ==> out.error == if a in s.feeAddress then Unauthorized else Std)
  {
  }

  /** Owner, treasury and shares are the administrator's, and no share is more than the whole. */
  lemma {:induction false} ModifyingIs(self: Addr, s: Store, info: Info, msg: ExecuteMsg)
    requires msg.ModifyContractInfoMsg?
    ensures var out := Step(self, s, info, msg);
            var (assets, funds) := (Or(msg.assetsShare, s.assetsShare), Or(msg.fundsShare, s.fundsShare));
            && (out.Ok? <==> info.sender == s.owner && assets <= 1000 && funds <= 1000)
            && (out.Ok? ==> out == Ok((s.(owner := Or(msg.owner, s.owner), treasury := Or(msg.treasury, s.treasury),
                                          assetsShare := assets, fundsShare := funds), [])))
            && (out.Err? ==> out.error == if info.sender == s.owner then AllocationTooHigh else Unauthorized)
  {
  }

  /** A deposit is of exactly one coin. */
  lemma {:induction false} DepositAcceptsIff(self: Addr, s: Store, info: Info, addresses: seq<Addr>, feeType: FeeType)
    requires Inv(s)
    ensures Step(self, s, info, DepositFeesMsg(addresses, feeType)).Ok? <==> |info.funds| == 1
  {
    StepInv(self, s, info, DepositFeesMsg(addresses, feeType));
  }

  /** At first projects get 600 parts in a thousand of asset fees and 666 of fund fees, and nothing
      is linked. */
  lemma {:induction false} InstantiatedIs(owner: Addr, treasury: Addr)
    ensures Instantiate(owner, treasury) == Store(owner, treasury, 666, 600, map[], map[]) && Inv(Instantiate(owner, treasury))
  {
  }

  // ----- Everything else leaves the administrator's settings alone

  predicate SameSettings(s: Store, s1: Store) {
    s1.owner == s.owner && s1.treasury == s.treasury && s1.fundsShare == s.fundsShare && s1.assetsShare == s.assetsShare
    && s1.feeAddress == s.feeAddress
  }

  /** A message changes settings only if the stored administrator sent it, and then to what it
      says: one link, or owner, treasury and shares. */
  lemma {:induction false} StepAuthorised(self: Addr, s: Store, info: Info, msg: ExecuteMsg, s1: Store, ts: seq<Transfer>)
    requires Step(self, s, info, msg) == Ok((s1, ts))
    ensures SameSettings(s, s1) || info.sender == s.owner
    ensures s1.feeAddress == s.feeAddress
            || (msg.AddAssociatedAddressMsg? && info.sender == s.owner && s1.feeAddress == s.feeAddress[msg.address := msg.newFeeAddress])
    ensures !msg.ModifyContractInfoMsg? ==> SameSettings(s, s1.(feeAddress := s.feeAddress))
  {
    match msg
    case AddAssociatedAddressMsg(a, to) =>
      LinkingIs(self, s, info, a, to);
      if info.sender != s.owner {
        assert s.feeAddress[a := to] == s.feeAddress;
      }
    case DepositFeesMsg(addresses, feeType) =>
      var fund := info.funds[0];
      var p := if feeType == FundsFee then s.fundsShare else s.assetsShare;
      var c := Coin(fund.denom, EachShare(fund.amount, p, |addresses|));
      WithdrawFrame(self, s.(accounts := CreditAll(s.accounts, addresses, c)), Unique(addresses));
    case WithdrawFeesMsg(addresses) => WithdrawFrame(self, s, Unique(addresses));
    case _ =>
  }

  lemma {:induction false} ExecAuthorised(self: Addr, c: Chain, tx: Tx)
    ensures var d := Exec(self, c, tx);
            && (SameSettings(c.store, d.store) || tx.info.sender == c.store.owner)
            && (d.store.feeAddress == c.store.feeAddress
                || (tx.msg.AddAssociatedAddressMsg? && tx.info.sender == c.store.owner
                    && d.store.feeAddress == c.store.feeAddress[tx.msg.address := tx.msg.newFeeAddress]))
  {
    if Try(self, c, tx).Some? {
      var (s1, ts) := Step(self, c.store, tx.info, tx.msg).value;
      StepAuthorised(self, c.store, tx.info, tx.msg, s1, ts);
    }
  }

  // ----- Over whole runs

  predicate WithoutOwner(c: Chain, txs: seq<Tx>) {
    forall i :: 0 <= i < |txs| ==> txs[i].info.sender != c.store.owner
  }

  /** Without messages of the administrator's all settings stay, over any run. */
  lemma {:induction false} SettingsStay(self: Addr, c: Chain, txs: seq<Tx>)
    requires WithoutOwner(c, txs)
    ensures SameSettings(c.store, Run(self, c, txs).store)
    decreases |txs|
  {
    if txs != [] {
      ExecAuthorised(self, c, txs[0]);
      SettingsStay(self, Exec(self, c, txs[0]), txs[1..]);
    }
  }

  lemma {:induction false} RunLast(self: Addr, c: Chain, txs: seq<Tx>)
    requires txs != []
    ensures Run(self, c, txs) == Exec(self, Run(self, c, txs[..|txs| - 1]), txs[|txs| - 1])
    decreases |txs|
  {
    if |txs| == 1 {
      assert txs[..0] == [] && txs[1..] == [];
    } else {
      RunLast(self, Exec(self, c, txs[0]), txs[1..]);
      assert txs[1..][..|txs| - 2] == txs[..|txs| - 1][1..];
    }
  }

  /** From instantiation, over every run: each link was made by a message of the administrator of
      that moment, and is what that message said. */
  lemma {:induction false} LinksWereNamed(self: Addr, c: Chain, txs: seq<Tx>, a: Addr) returns (i: nat)
    requires a in Run(self, c, txs).store.feeAddress && a !in c.store.feeAddress
    ensures i < |txs| && txs[i].info.sender == Run(self, c, txs[..i]).store.owner
    ensures txs[i].msg == AddAssociatedAddressMsg(a, Run(self, c, txs).store.feeAddress[a])
    decreases |txs|
  {
    var n := |txs| - 1;
    RunLast(self, c, txs);
    var before := Run(self, c, txs[..n]);
    ExecAuthorised(self, before, txs[n]);
    if Lookup(before.store.feeAddress, a) == Lookup(Run(self, c, txs).store.feeAddress, a) {
      i := LinksWereNamed(self, c, txs[..n], a);
      assert txs[..n][..i] == txs[..i];
    } else {
      i := n;
    }
  }

  /** What the administrator links an account to is where it is paid: after that message and any
      orderly run without another of the administrator's, one message of anybody's brings the
      account's total to the address named. */
  lemma {:induction false} PaidWhereNamed(self: Addr, c: Chain, a: Addr, to: Addr, txs: seq<Tx>, sender: Addr, k: Key)
    requires ChainInv(self, c) && c.store.owner != self && to != self
    requires var d := Exec(self, c, Tx(Info(c.store.owner, []), AddAssociatedAddressMsg(a, to)));
             WithoutOwner(d, txs) && OrderlyRun(self, txs) && a in Run(self, d, txs).store.accounts
    ensures var d := Exec(self, c, Tx(Info(c.store.owner, []), AddAssociatedAddressMsg(a, to)));
            var e := Run(self, d, txs);
            var f := Try(self, e, Asks(sender, [a]));
            && f.Some? && f.value.wallets.Held(to, k) == e.wallets.Held(to, k) + AccountTotal(e.store.accounts, a, k)
            && AccountTotal(f.value.store.accounts, a, k) == 0
  {
    var tx := Tx(Info(c.store.owner, []), AddAssociatedAddressMsg(a, to));
    var d := Exec(self, c, tx);
    assert Fund(c.store.owner, self, []) == [];
    assert d == Chain(c.store.(feeAddress := c.store.feeAddress[a := to]), c.wallets);
    assert ChainInv(self, d);
    SettingsStay(self, d, txs);
    BalancedRun(self, d, txs);
    OneIsPaid(self, Run(self, d, txs), sender, a, k);
  }
}

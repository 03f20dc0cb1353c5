/** The fee distributor holds exactly what its accounts say, and splits every deposit to the
    unit. */
module FeeDistributorBooks {
  import opened Base
  import opened Ledger
  import opened FeeDistributor

  // ----- Accounts

  /** No denomination appears twice. */
  predicate OnePerDenom(coins: seq<Coin>) {
    forall i, j :: 0 <= i < j < |coins| ==> coins[i].denom != coins[j].denom
  }

  lemma {:induction false} AddCoinDenoms(coins: seq<Coin>, c: Coin)
    ensures forall x :: x in AddCoin(coins, c) ==> x.denom == c.denom || exists y :: y in coins && y.denom == x.denom
  {
    if coins != [] && coins[0].denom != c.denom {
      AddCoinDenoms(coins[1..], c);
      forall x | x in AddCoin(coins, c) ensures x.denom == c.denom || exists y :: y in coins && y.denom == x.denom {
        if x != coins[0] {
          assert x in AddCoin(coins[1..], c);
          if x.denom != c.denom {
            var y :| y in coins[1..] && y.denom == x.denom;
            assert y in coins;
          }
        } else {
          assert coins[0] in coins;
        }
      }
    } else if coins != [] {
      forall x | x in AddCoin(coins, c) ensures x.denom == c.denom || exists y :: y in coins && y.denom == x.denom {
        if x.denom != c.denom {
          assert x in coins[1..];
          assert x in coins;
        }
      }
    }
  }

  lemma {:induction false} AddCoinOnePerDenom(coins: seq<Coin>, c: Coin)
    requires OnePerDenom(coins)
    ensures OnePerDenom(AddCoin(coins, c))
  {
    if coins != [] {
      assert OnePerDenom(coins[1..]) by {
        forall i, j | 0 <= i < j < |coins[1..]| ensures coins[1..][i].denom != coins[1..][j].denom {
          assert coins[i + 1].denom != coins[j + 1].denom;
        }
      }
      if coins[0].denom == c.denom {
        assert forall j :: 0 < j < |coins| ==> AddCoin(coins, c)[j] == coins[j];
      } else {
        var rest := AddCoin(coins[1..], c);
        AddCoinOnePerDenom(coins[1..], c);
        AddCoinDenoms(coins[1..], c);
        forall j | 0 <= j < |rest| ensures rest[j].denom != coins[0].denom {
          assert rest[j] in rest;
          if rest[j].denom != c.denom {
            var y :| y in coins[1..] && y.denom == rest[j].denom;
            var i :| 0 <= i < |coins[1..]| && coins[1..][i] == y;
            assert coins[i + 1].denom != coins[0].denom;
          }
        }
        assert AddCoin(coins, c) == [coins[0]] + rest;
      }
    }
  }

  lemma {:induction false} AddCoinTotal(coins: seq<Coin>, c: Coin, k: Key)
    ensures Total(Natives(AddCoin(coins, c)), k) == Total(Natives(coins), k) + Native(c).Of(k)
  {
    if coins == [] {
      NativesOne(c, k);
      assert Natives(coins) == [];
    } else {
      assert Natives(coins) == [Native(coins[0])] + Natives(coins[1..]);
      assert Natives(coins)[1..] == Natives(coins[1..]);
      if coins[0].denom == c.denom {
        var merged := Coin(c.denom, coins[0].amount + c.amount);
        assert Natives(AddCoin(coins, c)) == [Native(merged)] + Natives(coins[1..]);
        assert Natives(AddCoin(coins, c))[1..] == Natives(coins[1..]);
      } else {
        AddCoinTotal(coins[1..], c, k);
        assert Natives(AddCoin(coins, c)) == [Native(coins[0])] + Natives(AddCoin(coins[1..], c));
        assert Natives(AddCoin(coins, c))[1..] == Natives(AddCoin(coins[1..], c));
      }
    }
  }

  /** What an account holds of `k`. */
  function AccountTotal(accounts: map<Addr, seq<Coin>>, a: Addr, k: Key): nat {
    if a in accounts then Total(Natives(accounts[a]), k) else 0
  }

  function Accounts(accounts: map<Addr, seq<Coin>>, k: Key): map<Addr, nat> {
    map a | a in accounts :: Total(Natives(accounts[a]), k)
  }

  /** What all accounts hold of `k`. */
  ghost function Allocated(accounts: map<Addr, seq<Coin>>, k: Key): nat {
    MapSum(Accounts(accounts, k))
  }

  lemma {:induction false} PutAccount(accounts: map<Addr, seq<Coin>>, a: Addr, coins: seq<Coin>, k: Key)
    ensures Allocated(accounts[a := coins], k) + AccountTotal(accounts, a, k)
         == Allocated(accounts, k) + Total(Natives(coins), k)
  {
    assert Accounts(accounts[a := coins], k) == Accounts(accounts, k)[a := Total(Natives(coins), k)];
    MapSumUpdate(Accounts(accounts, k), a, Total(Natives(coins), k));
  }

  lemma {:induction false} CreditTotals(accounts: map<Addr, seq<Coin>>, a: Addr, c: Coin, k: Key)
    ensures Allocated(Credit(accounts, a, c), k) == Allocated(accounts, k) + Native(c).Of(k)
    ensures forall b :: AccountTotal(Credit(accounts, a, c), b, k)
                     == AccountTotal(accounts, b, k) + (if b == a then Native(c).Of(k) else 0)
  {
    PutAccount(accounts, a, Credit(accounts, a, c)[a], k);
    if a in accounts {
      AddCoinTotal(accounts[a], c, k);
    } else {
      NativesOne(c, k);
    }
  }

  /** How often an address is listed. */
  function Occurrences(addresses: seq<Addr>, a: Addr): nat {
    if addresses == [] then 0 else (if addresses[0] == a then 1 else 0) + Occurrences(addresses[1..], a)
  }

  /** A repeated address is credited once per occurrence. */
  lemma {:induction false} CreditedPerOccurrence(accounts: map<Addr, seq<Coin>>, addresses: seq<Addr>, c: Coin, k: Key, a: Addr)
    ensures AccountTotal(CreditAll(accounts, addresses, c), a, k)
         == AccountTotal(accounts, a, k) + Occurrences(addresses, a) * Native(c).Of(k)
    decreases |addresses|
  {
    if addresses != [] {
      CreditTotals(accounts, addresses[0], c, k);
      CreditedPerOccurrence(Credit(accounts, addresses[0], c), addresses[1..], c, k, a);
      MulAdds(1, Occurrences(addresses[1..], a), Native(c).Of(k));
    }
  }

  /** All accounts together gain one share for each address listed. */
  lemma {:induction false} CreditedInAll(accounts: map<Addr, seq<Coin>>, addresses: seq<Addr>, c: Coin, k: Key)
    ensures Allocated(CreditAll(accounts, addresses, c), k) == Allocated(accounts, k) + |addresses| * Native(c).Of(k)
    decreases |addresses|
  {
    if addresses != [] {
      CreditTotals(accounts, addresses[0], c, k);
      CreditedInAll(Credit(accounts, addresses[0], c), addresses[1..], c, k);
      MulAdds(1, |addresses[1..]|, Native(c).Of(k));
    }
  }

  // ----- Withdrawals

  /** Withdrawing takes from the accounts exactly what it sends. */
  lemma {:induction false} WithdrawBooks(self: Addr, s: Store, addresses: seq<Addr>, k: Key)
    requires forall a :: a in s.feeAddress ==> s.feeAddress[a] != self
    ensures var (s1, ts) := WithdrawEach(self, s, addresses);
            && AllPushes(self, ts)
            && Allocated(s1.accounts, k) + Outgoing(self, ts, k) == Allocated(s.accounts, k)
            && s1 == s.(accounts := s1.accounts)
    decreases |addresses|
  {
    if addresses != [] {
      var a := addresses[0];
      if a in s.accounts && a in s.feeAddress {
        var s0 := s.(accounts := s.accounts[a := []]);
        var rest := WithdrawEach(self, s0, addresses[1..]).1;
        WithdrawBooks(self, s0, addresses[1..], k);
        PutAccount(s.accounts, a, [], k);
        assert Natives([]) == [];
        SendsOutgoing(self, s.feeAddress[a], Natives(s.accounts[a]), k);
        OutgoingConcat(self, Sends(self, s.feeAddress[a], Natives(s.accounts[a])), rest, k);
      } else {
        WithdrawBooks(self, s, addresses[1..], k);
      }
    }
  }

  /** A withdrawal empties the accounts it names that have a fee address, and no others. */
  lemma {:induction false} WithdrawEmptiesExactly(self: Addr, s: Store, addresses: seq<Addr>, a: Addr)
    ensures var after := WithdrawEach(self, s, addresses).0.accounts;
            && (a in after <==> a in s.accounts)
            && (a in after ==> after[a] == if a in addresses && a in s.feeAddress then [] else s.accounts[a])
    decreases |addresses|
  {
    if addresses != [] {
      var b := addresses[0];
      var s0 := if b in s.accounts && b in s.feeAddress then s.(accounts := s.accounts[b := []]) else s;
      WithdrawEmptiesExactly(self, s0, addresses[1..], a);
    }
  }

  lemma {:induction false} UniqueSame(addresses: seq<Addr>)
    ensures forall a :: a in Unique(addresses) <==> a in addresses
    ensures forall i, j :: 0 <= i < j < |Unique(addresses)| ==> Unique(addresses)[i] != Unique(addresses)[j]
  {
    if addresses != [] {
      UniqueSame(addresses[..|addresses| - 1]);
      assert addresses == addresses[..|addresses| - 1] + [addresses[|addresses| - 1]];
    }
  }

  // ----- The split

  /** The treasury gets what the share leaves, and less than one unit per address of dust. */
  lemma {:induction false} TreasuryBounds(amount: nat, p: nat, n: nat)
    requires p <= PROJECT_ALLOCATION_MAX_PERCENTAGE
    ensures var projects := amount * p / PROJECT_ALLOCATION_MAX_PERCENTAGE;
            var each := EachShare(amount, p, n);
            && projects <= amount && each * n <= amount
            && (n > 0 ==> amount - projects <= amount - each * n < amount - projects + n)
            && (n == 0 ==> each * n == 0)
  {
    var projects := amount * p / PROJECT_ALLOCATION_MAX_PERCENTAGE;
    MulMonotone(p, PROJECT_ALLOCATION_MAX_PERCENTAGE, amount);
    QuotientAtMost(amount * p, PROJECT_ALLOCATION_MAX_PERCENTAGE, amount);
    if n > 0 {
      DivBounds(projects, n);
    }
  }

  // ----- What every message keeps

  ghost predicate Inv(s: Store) {
    && s.fundsShare <= PROJECT_ALLOCATION_MAX_PERCENTAGE && s.assetsShare <= PROJECT_ALLOCATION_MAX_PERCENTAGE
    && (forall a :: a in s.accounts ==> OnePerDenom(s.accounts[a]))
  }

  lemma {:induction false} CreditAllInv(accounts: map<Addr, seq<Coin>>, addresses: seq<Addr>, c: Coin)
    requires forall a :: a in accounts ==> OnePerDenom(accounts[a])
    ensures forall a :: a in CreditAll(accounts, addresses, c) ==> OnePerDenom(CreditAll(accounts, addresses, c)[a])
    decreases |addresses|
  {
    if addresses != [] {
      if addresses[0] in accounts {
        AddCoinOnePerDenom(accounts[addresses[0]], c);
      }
      CreditAllInv(Credit(accounts, addresses[0], c), addresses[1..], c);
    }
  }

  lemma {:induction false} WithdrawInv(self: Addr, s: Store, addresses: seq<Addr>)
    requires Inv(s)
    ensures forall a :: a in WithdrawEach(self, s, addresses).0.accounts ==> OnePerDenom(WithdrawEach(self, s, addresses).0.accounts[a])
  {
    var after := WithdrawEach(self, s, addresses).0.accounts;
    forall a | a in after ensures OnePerDenom(after[a]) {
      WithdrawEmptiesExactly(self, s, addresses, a);
    }
  }

  lemma {:induction false} WithdrawFrame(self: Addr, s: Store, addresses: seq<Addr>)
    ensures WithdrawEach(self, s, addresses).0 == s.(accounts := WithdrawEach(self, s, addresses).0.accounts)
    decreases |addresses|
  {
    if addresses != [] {
      var a := addresses[0];
      var s0 := if a in s.accounts && a in s.feeAddress then s.(accounts := s.accounts[a := []]) else s;
      WithdrawFrame(self, s0, addresses[1..]);
    }
  }

  /** Shares stay within bounds, accounts keep one coin per denomination, and the deposit
      arithmetic never underflows. */
  lemma {:induction false} StepInv(self: Addr, s: Store, info: Info, msg: ExecuteMsg)
    requires Inv(s)
    ensures Step(self, s, info, msg).Ok? ==> Inv(Step(self, s, info, msg).value.0)
    ensures Step(self, s, info, msg) != Err(Panic)
  {
    match msg
    case DepositFeesMsg(addresses, feeType) =>
      if |info.funds| == 1 {
        var fund := info.funds[0];
        var p := if feeType == FundsFee then s.fundsShare else s.assetsShare;
        TreasuryBounds(fund.amount, p, |addresses|);
        var c := Coin(fund.denom, EachShare(fund.amount, p, |addresses|));
        var s1 := s.(accounts := CreditAll(s.accounts, addresses, c));
        CreditAllInv(s.accounts, addresses, c);
        WithdrawInv(self, s1, Unique(addresses));
        WithdrawFrame(self, s1, Unique(addresses));
      }
    case WithdrawFeesMsg(addresses) =>
      WithdrawInv(self, s, Unique(addresses));
      WithdrawFrame(self, s, Unique(addresses));
    case _ =>
  }

  // ----- Conservation

  ghost predicate Outsiders(self: Addr, s: Store) {
    s.treasury != self && forall a :: a in s.feeAddress ==> s.feeAddress[a] != self
  }

  ghost predicate ChainInv(self: Addr, c: Chain) {
    && Inv(c.store) && Outsiders(self, c.store)
    && (forall k :: c.wallets.Held(self, k) == Allocated(c.store.accounts, k))
  }

  function Stray(info: Info, msg: ExecuteMsg, k: Key): nat {
    if msg.DepositFeesMsg? then 0 else Total(Natives(info.funds), k)
  }

  /** The treasury's part and the accounts' parts are the whole deposit. */
  lemma {:induction false} PartsAreWhole(fund: Coin, each: nat, n: nat, k: Key)
    requires each * n <= fund.amount
    ensures Native(Coin(fund.denom, fund.amount - each * n)).Of(k) + n * Native(Coin(fund.denom, each)).Of(k) == Native(fund).Of(k)
  {
    if k == NativeKey(fund.denom) {
      assert n * each == each * n;
    } else {
      assert n * 0 == 0;
    }
  }

  lemma {:induction false} DepositBooks(self: Addr, s: Store, info: Info, addresses: seq<Addr>, feeType: FeeType, k: Key)
    requires Inv(s) && Outsiders(self, s) && DepositFees(self, s, info, addresses, feeType).Ok?
    ensures var (s1, ts) := DepositFees(self, s, info, addresses, feeType).value;
            && AllPushes(self, ts)
            && Allocated(s1.accounts, k) + Outgoing(self, ts, k) == Allocated(s.accounts, k) + Total(Natives(info.funds), k)
  {
    var fund := info.funds[0];
    var p := if feeType == FundsFee then s.fundsShare else s.assetsShare;
    var each := EachShare(fund.amount, p, |addresses|);
    var treasury := Coin(fund.denom, fund.amount - each * |addresses|);
    var s0 := s.(accounts := CreditAll(s.accounts, addresses, Coin(fund.denom, each)));
    var paid := WithdrawEach(self, s0, Unique(addresses)).1;
    CreditedInAll(s.accounts, addresses, Coin(fund.denom, each), k);
    WithdrawBooks(self, s0, Unique(addresses), k);
    OnePush(self, s.treasury, Native(treasury), k);
    OutgoingConcat(self, [Transfer(self, s.treasury, Native(treasury))], paid, k);
    assert info.funds == [fund];
    NativesOne(fund, k);
    PartsAreWhole(fund, each, |addresses|, k);
  }

  lemma {:induction false} StepBooks(self: Addr, s: Store, info: Info, msg: ExecuteMsg, k: Key)
    requires Inv(s) && Outsiders(self, s) && Step(self, s, info, msg).Ok?
    ensures var (s1, ts) := Step(self, s, info, msg).value;
            && AllPushes(self, ts)
            && Allocated(s1.accounts, k) + Outgoing(self, ts, k) + Stray(info, msg, k)
               == Allocated(s.accounts, k) + Total(Natives(info.funds), k)
  {
    match msg
    case DepositFeesMsg(addresses, feeType) => DepositBooks(self, s, info, addresses, feeType, k);
    case WithdrawFeesMsg(addresses) => WithdrawBooks(self, s, Unique(addresses), k);
    case _ =>
  }

  predicate NoStray(info: Info, msg: ExecuteMsg) {
    msg.DepositFeesMsg? || NoCoins(info.funds)
  }

  ghost predicate Balanced(self: Addr, c: Chain) {
    forall k :: c.wallets.Held(self, k) == Allocated(c.store.accounts, k)
  }

  lemma {:induction false} WalletsFollow(self: Addr, c: Chain, tx: Tx, k: Key)
    requires ChainInv(self, c) && tx.info.sender != self && Try(self, c, tx).Some?
    ensures var d := Try(self, c, tx).value;
            d.wallets.Held(self, k) == Allocated(d.store.accounts, k) + Stray(tx.info, tx.msg, k)
  {
    var funded := c.wallets.MoveAll(self, true, Fund(tx.info.sender, self, tx.info.funds)).value;
    Funded(self, c.wallets, tx.info.sender, tx.info.funds, k);
    StrayOnlyNative(tx.info.funds, k);
    StepBooks(self, c.store, tx.info, tx.msg, k);
    var ts := Step(self, c.store, tx.info, tx.msg).value.1;
    OutgoingBound(self, c, tx, k);
    PushEffect(funded, self, false, ts, k);
  }

  lemma {:induction false} OutgoingBound(self: Addr, c: Chain, tx: Tx, k: Key)
    requires ChainInv(self, c) && tx.info.sender != self && Try(self, c, tx).Some?
    ensures var funded := c.wallets.MoveAll(self, true, Fund(tx.info.sender, self, tx.info.funds)).value;
            Outgoing(self, Step(self, c.store, tx.info, tx.msg).value.1, k) <= funded.Held(self, k)
  {
    StepBooks(self, c.store, tx.info, tx.msg, k);
    Funded(self, c.wallets, tx.info.sender, tx.info.funds, k);
    assert c.wallets.Held(self, k) == Allocated(c.store.accounts, k);
  }

  /** A message keeps balance and accounts equal exactly when no coin comes unasked. */
  lemma {:induction false} BalancedIff(self: Addr, c: Chain, tx: Tx)
    requires ChainInv(self, c) && tx.info.sender != self && Try(self, c, tx).Some?
    ensures Balanced(self, Try(self, c, tx).value) <==> NoStray(tx.info, tx.msg)
  {
    var d := Try(self, c, tx).value;
    forall k ensures d.wallets.Held(self, k) == Allocated(d.store.accounts, k) + Stray(tx.info, tx.msg, k) {
      WalletsFollow(self, c, tx, k);
    }
    if NoStray(tx.info, tx.msg) {
      forall k ensures d.wallets.Held(self, k) == Allocated(d.store.accounts, k) {
        StrayOnlyNative(tx.info.funds, k);
      }
    } else {
      var i :| 0 <= i < |tx.info.funds| && tx.info.funds[i].amount != 0;
      TotalMember(Natives(tx.info.funds), i);
      var k := NativeKey(tx.info.funds[i].denom);
      assert d.wallets.Held(self, k) != Allocated(d.store.accounts, k);
    }
  }

  /** The contract itself takes no part. */
  predicate Outside(self: Addr, tx: Tx) {
    && tx.info.sender != self
    && (tx.msg.ModifyContractInfoMsg? ==> tx.msg.treasury != Some(self))
    && (tx.msg.AddAssociatedAddressMsg? ==> tx.msg.newFeeAddress != self)
  }

  predicate OrderlyRun(self: Addr, txs: seq<Tx>) {
    forall i :: 0 <= i < |txs| ==> Outside(self, txs[i]) && NoStray(txs[i].info, txs[i].msg)
  }

  lemma {:induction false} OutsidersStep(self: Addr, s: Store, tx: Tx)
    requires Outsiders(self, s) && Outside(self, tx) && Step(self, s, tx.info, tx.msg).Ok?
    ensures Outsiders(self, Step(self, s, tx.info, tx.msg).value.0)
  {
    match tx.msg
    case DepositFeesMsg(addresses, feeType) =>
      var fund := tx.info.funds[0];
      var p := if feeType == FundsFee then s.fundsShare else s.assetsShare;
      var c := Coin(fund.denom, EachShare(fund.amount, p, |addresses|));
      WithdrawFrame(self, s.(accounts := CreditAll(s.accounts, addresses, c)), Unique(addresses));
    case WithdrawFeesMsg(addresses) => WithdrawFrame(self, s, Unique(addresses));
    case _ =>
  }

  lemma {:induction false} BalancedRun(self: Addr, c: Chain, txs: seq<Tx>)
    requires ChainInv(self, c) && OrderlyRun(self, txs)
    ensures ChainInv(self, Run(self, c, txs))
    decreases |txs|
  {
    if txs != [] {
      var d := Exec(self, c, txs[0]);
      assert ChainInv(self, d) by {
        if Try(self, c, txs[0]).Some? {
          StepInv(self, c.store, txs[0].info, txs[0].msg);
          OutsidersStep(self, c.store, txs[0]);
          BalancedIff(self, c, txs[0]);
        }
      }
      BalancedRun(self, d, txs[1..]);
    }
  }

  /** Conservation: from instantiation, over every orderly run, the balance of each
      denomination is the sum of the accounts. */
  lemma {:induction false} BalanceIsAllocated(self: Addr, owner: Addr, treasury: Addr, w: Wallets, txs: seq<Tx>)
    requires treasury != self && OrderlyRun(self, txs)
    requires forall k :: w.Held(self, k) == 0
    ensures ChainInv(self, Run(self, Chain(Instantiate(owner, treasury), w), txs))
  {
    assert forall k: Key :: Accounts(Instantiate(owner, treasury).accounts, k) == map[];
    BalancedRun(self, Chain(Instantiate(owner, treasury), w), txs);
  }

  /** A coin sent along with a withdrawal belongs to no account. */
  lemma {:induction false} StrayCoinKept(self: Addr, owner: Addr, treasury: Addr, w: Wallets, a: Addr, coin: Coin)
    requires treasury != self && a != self && 0 < coin.amount <= w.Held(a, NativeKey(coin.denom))
    requires forall k :: w.Held(self, k) == 0
    ensures var d := Try(self, Chain(Instantiate(owner, treasury), w), Tx(Info(a, [coin]), WithdrawFeesMsg([])));
            d.Some? && !Balanced(self, d.value)
  {
    var c := Chain(Instantiate(owner, treasury), w);
    var tx := Tx(Info(a, [coin]), WithdrawFeesMsg([]));
    PaidIn(w, a, self, coin, a, NativeKey(coin.denom));
    assert forall k: Key :: Accounts(c.store.accounts, k) == map[];
    assert tx.info.funds[0].amount != 0;
    BalancedIff(self, c, tx);
  }

  // ----- Who is paid

  /** What the listed accounts linked to `who` hold of `k`, once `share` more has been credited
      for each occurrence in `credited`. */
  function Due(s: Store, listed: seq<Addr>, credited: seq<Addr>, share: nat, who: Addr, k: Key): nat {
    if listed == [] then 0
    else
      (if listed[0] in s.feeAddress && s.feeAddress[listed[0]] == who
       then AccountTotal(s.accounts, listed[0], k) + Occurrences(credited, listed[0]) * share
       else 0)
      + Due(s, listed[1..], credited, share, who, k)
  }

  /** Clearing an account leaves alone what the others are due. */
  lemma {:induction false} DueOfOthers(s: Store, a: Addr, listed: seq<Addr>, credited: seq<Addr>, share: nat, who: Addr, k: Key)
    requires a !in listed
    ensures Due(s.(accounts := s.accounts[a := []]), listed, credited, share, who, k) == Due(s, listed, credited, share, who, k)
  {
    if listed != [] {
      DueOfOthers(s, a, listed[1..], credited, share, who, k);
    }
  }

  /** Crediting first and listing then, or both at once. */
  lemma {:induction false} DueCredited(s: Store, listed: seq<Addr>, credited: seq<Addr>, c: Coin, who: Addr, k: Key)
    ensures Due(s.(accounts := CreditAll(s.accounts, credited, c)), listed, [], 0, who, k)
         == Due(s, listed, credited, Native(c).Of(k), who, k)
  {
    if listed != [] {
      CreditedPerOccurrence(s.accounts, credited, c, k, listed[0]);
      DueCredited(s, listed[1..], credited, c, who, k);
    }
  }

  /** A withdrawal pays every fee address what the distinct accounts linked to it hold. */
  lemma {:induction false} WithdrawPays(self: Addr, s: Store, listed: seq<Addr>, who: Addr, k: Key)
    requires forall i, j :: 0 <= i < j < |listed| ==> listed[i] != listed[j]
    ensures Received(who, WithdrawEach(self, s, listed).1, k) == Due(s, listed, [], 0, who, k)
    decreases |listed|
  {
    if listed != [] {
      var (a, rest) := (listed[0], listed[1..]);
      if a in s.accounts && a in s.feeAddress {
        var s0 := s.(accounts := s.accounts[a := []]);
        var first := Sends(self, s.feeAddress[a], Natives(s.accounts[a]));
        WithdrawPays(self, s0, rest, who, k);
        DueOfOthers(s, a, rest, [], 0, who, k);
        SendsReceived(self, s.feeAddress[a], Natives(s.accounts[a]), who, k);
        ReceivedConcat(who, first, WithdrawEach(self, s0, rest).1, k);
      } else {
        WithdrawPays(self, s, rest, who, k);
      }
    }
  }

  /** A deposit credits each listed account once per occurrence, empties the linked ones and
      keeps the others; everybody is paid what the linked accounts hold for them by then, and
      the treasury the rest of the deposit. */
  lemma {:induction false} DepositDistributes(self: Addr, s: Store, info: Info, addresses: seq<Addr>,
                                              feeType: FeeType, a: Addr, who: Addr, k: Key)
    requires Inv(s) && DepositFees(self, s, info, addresses, feeType).Ok?
    ensures var (s1, ts) := DepositFees(self, s, info, addresses, feeType).value;
            var fund := info.funds[0];
            var p := if feeType == FundsFee then s.fundsShare else s.assetsShare;
            var each := Coin(fund.denom, EachShare(fund.amount, p, |addresses|));
            && each.amount * |addresses| <= fund.amount
            && AccountTotal(s1.accounts, a, k)
               == (if a in addresses && a in s.feeAddress then 0
                   else AccountTotal(s.accounts, a, k) + Occurrences(addresses, a) * Native(each).Of(k))
            && Received(who, ts, k)
               == (if who == s.treasury then Native(Coin(fund.denom, fund.amount - each.amount * |addresses|)).Of(k) else 0)
                  + Due(s, Unique(addresses), addresses, Native(each).Of(k), who, k)
  {
    var fund := info.funds[0];
    var p := if feeType == FundsFee then s.fundsShare else s.assetsShare;
    var c := Coin(fund.denom, EachShare(fund.amount, p, |addresses|));
    var s0 := s.(accounts := CreditAll(s.accounts, addresses, c));
    var rest := Transfer(self, s.treasury, Native(Coin(fund.denom, fund.amount - c.amount * |addresses|)));
    CreditedPerOccurrence(s.accounts, addresses, c, k, a);
    WithdrawEmptiesExactly(self, s0, Unique(addresses), a);
    UniqueSame(addresses);
    assert Natives([]) == [];
    WithdrawPays(self, s0, Unique(addresses), who, k);
    DueCredited(s, Unique(addresses), addresses, c, who, k);
    assert ([rest] + WithdrawEach(self, s0, Unique(addresses)).1)[1..] == WithdrawEach(self, s0, Unique(addresses)).1;
  }

  function Asks(sender: Addr, addresses: seq<Addr>): Tx {
    Tx(Info(sender, []), WithdrawFeesMsg(addresses))
  }

  lemma {:induction false} WithdrawalsAreCoins(self: Addr, s: Store, listed: seq<Addr>)
    ensures forall i :: 0 <= i < |WithdrawEach(self, s, listed).1| ==> WithdrawEach(self, s, listed).1[i].asset.Native?
    decreases |listed|
  {
    if listed != [] {
      var a := listed[0];
      WithdrawalsAreCoins(self, if a in s.accounts && a in s.feeAddress then s.(accounts := s.accounts[a := []]) else s, listed[1..]);
    }
  }

  /** Whoever asks, the linked accounts named are paid out of what the contract holds, each
      to its fee address, and everybody's wallet afterwards is accounted for. */
  lemma {:induction false} FeesAreDelivered(self: Addr, c: Chain, sender: Addr, addresses: seq<Addr>)
    requires ChainInv(self, c)
    ensures var d := Try(self, c, Asks(sender, addresses));
            d.Some? && forall who, k :: who != self ==>
              d.value.wallets.Held(who, k) == c.wallets.Held(who, k) + Due(c.store, Unique(addresses), [], 0, who, k)
  {
    var ts := WithdrawEach(self, c.store, Unique(addresses)).1;
    UniqueSame(addresses);
    WithdrawalsAreCoins(self, c.store, Unique(addresses));
    WithdrawBooks(self, c.store, Unique(addresses), NativeKey(""));
    forall k ensures Outgoing(self, ts, k) <= c.wallets.Held(self, k) {
      WithdrawBooks(self, c.store, Unique(addresses), k);
      assert c.wallets.Held(self, k) == Allocated(c.store.accounts, k);
    }
    assert Fund(sender, self, []) == [];
    PushSucceeds(c.wallets, self, false, ts);
    forall who, k | who != self
      ensures c.wallets.MoveAll(self, false, ts).value.Held(who, k)
           == c.wallets.Held(who, k) + Due(c.store, Unique(addresses), [], 0, who, k)
    {
      PushCredits(c.wallets, self, false, ts, who, k);
      WithdrawPays(self, c.store, Unique(addresses), who, k);
    }
  }

  lemma {:induction false} OneIsPaid(self: Addr, c: Chain, sender: Addr, a: Addr, k: Key)
    requires ChainInv(self, c) && a in c.store.accounts && a in c.store.feeAddress
    ensures var d := Try(self, c, Asks(sender, [a]));
            var who := c.store.feeAddress[a];
            && d.Some? && d.value.wallets.Held(who, k) == c.wallets.Held(who, k) + AccountTotal(c.store.accounts, a, k)
            && AccountTotal(d.value.store.accounts, a, k) == 0
  {
    FeesAreDelivered(self, c, sender, [a]);
    assert [a][..0] == [] && [a][1..] == [] && Unique([a]) == [a];
    WithdrawEmptiesExactly(self, c.store, [a], a);
    assert Natives([]) == [];
    var who := c.store.feeAddress[a];
    assert Due(c.store, [], [], 0, who, k) == 0 && Occurrences([], a) == 0;
    assert Due(c.store, [a], [], 0, who, k) == AccountTotal(c.store.accounts, a, k);
    var d := Try(self, c, Asks(sender, [a])).value;
    assert d.store == WithdrawEach(self, c.store, [a]).0;
  }

  /** From instantiation, after every orderly run, a linked account is paid out by one message
      of anybody's: its fee address holds the account's total more, and the account nothing. */
  lemma {:induction false} LinkedAccountsArePaid(self: Addr, owner: Addr, treasury: Addr, w: Wallets, txs: seq<Tx>,
                                                 sender: Addr, a: Addr, k: Key)
    requires treasury != self && OrderlyRun(self, txs)
    requires forall k :: w.Held(self, k) == 0
    requires var s := Run(self, Chain(Instantiate(owner, treasury), w), txs).store; a in s.accounts && a in s.feeAddress
    ensures var c := Run(self, Chain(Instantiate(owner, treasury), w), txs);
            var d := Try(self, c, Asks(sender, [a]));
            var who := c.store.feeAddress[a];
            && d.Some? && d.value.wallets.Held(who, k) == c.wallets.Held(who, k) + AccountTotal(c.store.accounts, a, k)
            && AccountTotal(d.value.store.accounts, a, k) == 0
  {
    BalanceIsAllocated(self, owner, treasury, w, txs);
    OneIsPaid(self, Run(self, Chain(Instantiate(owner, treasury), w), txs), sender, a, k);
  }
}

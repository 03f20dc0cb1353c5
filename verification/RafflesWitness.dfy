/** Runs of the raffle contract, from instantiation, that end where a promise stops. */
module RafflesWitness {
  import opened Base
  import opened Ledger
  import opened Nfts
  import opened Raffles
  import opened RafflesTickets
  import opened RafflesEscrow

  /** The contract as instantiated with the least fees and minima. */
  function Config0(owner: Addr, feeAddr: Addr): Config {
    Config(owner, feeAddr, None, MINIMUM_RAFFLE_DURATION, MINIMUM_RAFFLE_TIMEOUT, 0, MINIMUM_RAND_FEE, false)
  }

  ghost predicate New(self: Addr, owner: Addr, feeAddr: Addr, c: Chain) {
    feeAddr != self && c.store == Store(Config0(owner, feeAddr), map[], map[], map[]) && forall k :: c.wallets.Held(self, k) == 0
  }

  lemma {:induction false} NewIsGenesis(self: Addr, owner: Addr, feeAddr: Addr, c: Chain)
    requires New(self, owner, feeAddr, c)
    ensures Genesis(self, c) && ChainInv(self, c)
  {
    assert Instantiate(owner, feeAddr, None, None, None, None) == Ok(c.store);
    GenesisInv(self, c);
  }

  function Plain(a: Addr, time: nat, msg: ExecuteMsg): Tx {
    Tx(Info(a, []), time, true, msg)
  }

  lemma {:induction false} PlainStep(draw: Seed -> U32, self: Addr, c: Chain, a: Addr, time: nat, msg: ExecuteMsg,
                                     s1: Store, ts: seq<Transfer>, w: Wallets)
    requires !msg.ReceiveMsg? && Step(draw, Env(self, time, c.wallets), c.store, Info(a, []), msg) == Ok((s1, ts))
    requires c.wallets.MoveAll(self, true, ts) == Some(w)
    ensures Try(draw, self, c, Plain(a, time, msg)) == Some(Chain(s1, w))
  {
    assert Fund(a, self, []) == [];
  }

  lemma {:induction false} OneMore(draw: Seed -> U32, self: Addr, c: Chain, txs: seq<Tx>, tx: Tx)
    ensures Run(draw, self, c, txs + [tx]) == Exec(draw, self, Run(draw, self, c, txs), tx)
    decreases |txs|
  {
    if txs == [] {
      assert [] + [tx] == [tx];
      assert [tx][1..] == [];
    } else {
      assert (txs + [tx])[1..] == txs[1..] + [tx];
      OneMore(draw, self, Exec(draw, self, c, txs[0]), txs[1..], tx);
    }
  }

  lemma {:induction false} FirstTx(draw: Seed -> U32, self: Addr, c: Chain, tx: Tx)
    ensures Run(draw, self, c, [tx]) == Exec(draw, self, c, tx)
  {
    assert [tx][1..] == [];
  }

  // ----- Creating

  const NO_OPTIONS := OptionsMsg(None, None, None, None, None)

  function Raffled(a: Addr, assets: seq<Asset>, price: Asset, options: Options): Raffle {
    Raffle(a, assets, price, 0, None, None, false, options)
  }

  function Creates(a: Addr, assets: seq<Asset>, price: Asset, options: OptionsMsg): Tx {
    Plain(a, 0, CreateRaffleMsg(None, assets, price, options))
  }

  /** Raffling one multi-token lot. */
  lemma {:induction false} Creating(draw: Seed -> U32, self: Addr, c: Chain, a: Addr, x: Asset, price: Asset,
                                    options: OptionsMsg) returns (d: Chain)
    requires ChainInv(self, c) && !c.store.config.lock && a != self
    requires x.Cw1155? && x.HasContract() && x.value <= c.wallets.Held(a, x.Key())
    ensures d == Exec(draw, self, c, Creates(a, [x], price, options)) && OrderlyTx(draw, self, c, Creates(a, [x], price, options)) && ChainInv(self, d)
    ensures d.store.config == c.store.config.(lastRaffleId := Some(NextRaffle(c.store)))
    ensures d.store.raffles == c.store.raffles[NextRaffle(c.store) := Raffled(a, [x], price, NewOptions(0, options, c.store.config))]
    ensures d.store.ticketOwner == c.store.ticketOwner && d.store.userTickets == c.store.userTickets
    ensures d.wallets.Held(a, x.Key()) + x.value == c.wallets.Held(a, x.Key())
    ensures forall b, k :: k != x.Key() && !k.NftKey? ==> d.wallets.Held(b, k) == c.wallets.Held(b, k)
  {
    var tx := Creates(a, [x], price, options);
    var one := Transfer(a, self, x);
    assert NextRaffle(c.store) !in c.store.raffles;
    assert [x][1..] == [];
    assert [one] + [] == [one];
    assert Pulls(self, c.wallets, a, [], PULL_ERRORS) == Ok([]);
    assert Pulls(self, c.wallets, a, [x], PULL_ERRORS) == Ok([one]);
    MoveOne(c.wallets, self, true, one);
    var (s1, ts) := Step(draw, Env(self, 0, c.wallets), c.store, tx.info, tx.msg).value;
    var w := c.wallets.Move(self, true, one).value;
    PlainStep(draw, self, c, a, 0, tx.msg, s1, ts, w);
    CustodyStep(draw, self, c, tx);
    d := Chain(s1, w);
  }

  /** The first raffle of a new contract. */
  lemma {:induction false} FirstRaffle(draw: Seed -> U32, self: Addr, owner: Addr, feeAddr: Addr, c: Chain, a: Addr,
                                       x: Asset, price: Asset, options: OptionsMsg)
    returns (d: Chain)
    requires New(self, owner, feeAddr, c) && a != self
    requires x.Cw1155? && x.HasContract() && x.value <= c.wallets.Held(a, x.Key())
    ensures d == Run(draw, self, c, [Creates(a, [x], price, options)]) && ChainInv(self, d)
    ensures d.store == Store(Config0(owner, feeAddr).(lastRaffleId := Some(0)),
                             map[0 := Raffled(a, [x], price, NewOptions(0, options, Config0(owner, feeAddr)))], map[], map[])
    ensures d.wallets.Held(a, x.Key()) + x.value == c.wallets.Held(a, x.Key())
    ensures forall b, k: Key :: k != x.Key() && !k.NftKey? ==> d.wallets.Held(b, k) == c.wallets.Held(b, k)
  {
    NewIsGenesis(self, owner, feeAddr, c);
    d := Creating(draw, self, c, a, x, price, options);
    FirstTx(draw, self, c, Creates(a, [x], price, options));
  }

  /** One ticket of a raffle without caps that is open. */
  lemma {:induction false} OneTicket(s: Store, time: nat, b: Addr, r: nat, price: Asset)
    requires r in s.raffles && s.raffles[r].price == price && (price.Native? || price.Cw20?)
    requires StateAt(time, s.raffles[r]) == Ok(RaffleState.Started)
    requires s.raffles[r].options.maxParticipants.None? && s.raffles[r].options.maxPerAddress.None?
    requires s.raffles[r].tickets <= 1 && LookupOr(s.userTickets, (b, r), 0) <= 1
    ensures var out := BuyTickets(s, time, b, r, 1, price);
            && out.Ok? && out.value.raffles == s.raffles[r := s.raffles[r].(tickets := s.raffles[r].tickets + 1)]
            && out.value.userTickets == s.userTickets[(b, r) := LookupOr(s.userTickets, (b, r), 0) + 1]
  {
    match price
    case Native(coin) => assert 1 * coin.amount == coin.amount;
    case Cw20(_, n) => assert 1 * n == n;
  }

  lemma {:induction false} CoinTicket(draw: Seed -> U32, self: Addr, c: Chain, time: nat, b: Addr, r: nat, coin: Coin)
    requires b != self && coin.amount <= c.wallets.Held(b, NativeKey(coin.denom))
    requires BuyTickets(c.store, time, b, r, 1, Native(coin)).Ok?
    ensures var d := Try(draw, self, c, Tx(Info(b, [coin]), time, false, BuyTicketMsg(r, 1, Native(coin))));
            d.Some? && d.value.store == BuyTickets(c.store, time, b, r, 1, Native(coin)).value
  {
    PaidIn(c.wallets, b, self, coin, b, NativeKey(coin.denom));
  }

  lemma {:induction false} TokenArrives(draw: Seed -> U32, self: Addr, c: Chain, time: nat, b: Addr, r: nat,
                                        token: Addr, n: nat) returns (d: Chain)
    requires b != self && token != "" && n <= c.wallets.Held(b, Cw20Key(token))
    requires BuyTickets(c.store, time, b, r, 1, Cw20(token, n)).Ok?
    ensures Try(draw, self, c, Tx(Info(token, []), time, false, ReceiveMsg(b, n, BuyTicketMsg(r, 1, Cw20(token, n))))) == Some(d)
    ensures d.store == BuyTickets(c.store, time, b, r, 1, Cw20(token, n)).value
    ensures d.wallets.Held(self, Cw20Key(token)) == c.wallets.Held(self, Cw20Key(token)) + n
  {
    MoveOne(c.wallets, self, true, Transfer(b, self, Cw20(token, n)));
    var v := c.wallets.Move(self, true, Transfer(b, self, Cw20(token, n))).value;
    d := Chain(BuyTickets(c.store, time, b, r, 1, Cw20(token, n)).value, v);
  }

  lemma {:induction false} TokenTicket(draw: Seed -> U32, self: Addr, c: Chain, time: nat, b: Addr, r: nat,
                                       token: Addr, n: nat) returns (d: Chain)
    requires ChainInv(self, c) && b != self && token != self && token != "" && n <= c.wallets.Held(b, Cw20Key(token))
    requires BuyTickets(c.store, time, b, r, 1, Cw20(token, n)).Ok? && !Won(c.store, r)
    ensures var tx := Tx(Info(token, []), time, false, ReceiveMsg(b, n, BuyTicketMsg(r, 1, Cw20(token, n))));
            d == Exec(draw, self, c, tx) && OrderlyTx(draw, self, c, tx) && ChainInv(self, d)
    ensures d.store == BuyTickets(c.store, time, b, r, 1, Cw20(token, n)).value
    ensures d.wallets.Held(self, Cw20Key(token)) == c.wallets.Held(self, Cw20Key(token)) + n
  {
    d := TokenArrives(draw, self, c, time, b, r, token, n);
    CustodyStep(draw, self, c, Tx(Info(token, []), time, false, ReceiveMsg(b, n, BuyTicketMsg(r, 1, Cw20(token, n)))));
  }

  // ----- Reopening a claimed raffle

  const CLAIM_TIME: nat := 121 * SECOND

  function Randomized(a: Addr, x: Asset, price: Asset, p: Addr): Raffle {
    Raffled(a, [x], price, Options(0, 1, 120, None, None)).(randomness := Some(Randomness("", 1, p)))
  }

  function Draws(p: Addr): Tx {
    Plain(p, SECOND, UpdateRandomnessMsg(0, 1, ""))
  }

  function ClaimsIt(p: Addr): Tx {
    Plain(p, CLAIM_TIME, ClaimMsg(0))
  }

  /** A duration of a thousand seconds, for a raffle that ended after 121. */
  function Prolongs(a: Addr): Tx {
    Plain(a, CLAIM_TIME, ModifyRaffleMsg(0, None, OptionsMsg(None, Some(1000), None, None, None)))
  }

  lemma {:induction false} Drawing(draw: Seed -> U32, self: Addr, c: Chain, a: Addr, x: Asset, price: Asset,
                                   p: Addr) returns (d: Chain)
    requires ChainInv(self, c) && p != self
    requires 0 in c.store.raffles && c.store.raffles[0] == Raffled(a, [x], price, Options(0, 1, 120, None, None))
    ensures d == Exec(draw, self, c, Draws(p)) && OrderlyTx(draw, self, c, Draws(p)) && ChainInv(self, d)
    ensures d == Chain(PutRaffle(c.store, 0, Randomized(a, x, price, p)), c.wallets)
  {
    d := Chain(PutRaffle(c.store, 0, Randomized(a, x, price, p)), c.wallets);
    PlainStep(draw, self, c, p, SECOND, Draws(p).msg, d.store, [], c.wallets);
    CustodyStep(draw, self, c, Draws(p));
  }

  /** The lot of a raffle without a winner can be sent. */
  lemma {:induction false} LotIsThere(self: Addr, c: Chain, r: nat, x: Asset, to: Addr)
    requires Custody(self, c) && r in c.store.raffles && c.store.raffles[r].assets == [x]
    requires c.store.raffles[r].winner.None? && !c.store.raffles[r].isCancelled && x.Cw1155? && x.HasContract()
    ensures Sends(self, to, [x]) == [Transfer(self, to, x)]
    ensures c.wallets.MoveAll(self, true, [Transfer(self, to, x)]).Some?
  {
    MapSumBounds(Weights(c.store.raffles, x.Key()), r);
    assert Total([x], x.Key()) >= x.value;
    assert c.wallets.Held(self, x.Key()) == Escrowed(c.store, x.Key());
    MoveOne(c.wallets, self, true, Transfer(self, to, x));
  }

  lemma {:induction false} NothingToShare(self: Addr, s: Store, raffle: Raffle)
    requires raffle.tickets == 0 && (raffle.price.Native? || raffle.price.Cw20?)
    ensures OwnerMessages(self, s, raffle) == Ok([])
  {
    var total := raffle.price.Quantity() * raffle.tickets;
    assert total == 0;
    assert Split(total, s.config) == Ok(Shares(0, 0, 0));
    assert forall to :: SendSome(self, to, Amount(raffle.price, 0)) == [];
    var none: seq<Transfer> := [];
    assert none + none + none == none;
  }

  lemma {:induction false} ClaimTried(draw: Seed -> U32, self: Addr, c: Chain, a: Addr, x: Asset, price: Asset,
                                      p: Addr) returns (w: Wallets)
    requires Custody(self, c) && (price.Native? || price.Cw20?) && x.Cw1155? && x.HasContract()
    requires 0 in c.store.raffles && c.store.raffles[0] == Randomized(a, x, price, p)
    ensures Try(draw, self, c, ClaimsIt(p)) == Some(Chain(PutRaffle(c.store, 0, Randomized(a, x, price, p).(winner := Some(a))), w))
    ensures forall b, k: Key :: k != x.Key() && !k.NftKey? ==> w.Held(b, k) == c.wallets.Held(b, k)
  {
    LotIsThere(self, c, 0, x, a);
    MoveOne(c.wallets, self, true, Transfer(self, a, x));
    w := c.wallets.Move(self, true, Transfer(self, a, x)).value;
    var s1 := PutRaffle(c.store, 0, Randomized(a, x, price, p).(winner := Some(a)));
    NothingToShare(self, c.store, c.store.raffles[0]);
    assert [Transfer(self, a, x)] + [] == [Transfer(self, a, x)];
    assert StateAt(CLAIM_TIME, c.store.raffles[0]) == Ok(Finished);
    PlainStep(draw, self, c, p, CLAIM_TIME, ClaimMsg(0), s1, [Transfer(self, a, x)], w);
  }

  lemma {:induction false} Claiming(draw: Seed -> U32, self: Addr, c: Chain, a: Addr, x: Asset, price: Asset,
                                    p: Addr) returns (d: Chain)
    requires ChainInv(self, c) && p != self && (price.Native? || price.Cw20?) && x.Cw1155? && x.HasContract()
    requires 0 in c.store.raffles && c.store.raffles[0] == Randomized(a, x, price, p)
    ensures d == Exec(draw, self, c, ClaimsIt(p)) && OrderlyTx(draw, self, c, ClaimsIt(p)) && ChainInv(self, d)
    ensures d.store == PutRaffle(c.store, 0, Randomized(a, x, price, p).(winner := Some(a)))
    ensures forall b, k: Key :: k != x.Key() && !k.NftKey? ==> d.wallets.Held(b, k) == c.wallets.Held(b, k)
  {
    var w := ClaimTried(draw, self, c, a, x, price, p);
    d := Chain(PutRaffle(c.store, 0, Randomized(a, x, price, p).(winner := Some(a))), w);
    CustodyStep(draw, self, c, ClaimsIt(p));
  }

  function Reopened(a: Addr, x: Asset, price: Asset, p: Addr): Raffle {
    Randomized(a, x, price, p).(winner := Some(a), options := Options(0, 1000, 120, None, None))
  }

  lemma {:induction false} Reopening(draw: Seed -> U32, self: Addr, c: Chain, a: Addr, x: Asset, price: Asset,
                                     p: Addr) returns (d: Chain)
    requires ChainInv(self, c) && a != self && c.store.config.minimumDuration == 1 && c.store.config.minimumTimeout == 120
    requires 0 in c.store.raffles && c.store.raffles[0] == Randomized(a, x, price, p).(winner := Some(a))
    ensures d == Exec(draw, self, c, Prolongs(a)) && OrderlyTx(draw, self, c, Prolongs(a)) && ChainInv(self, d)
    ensures d == Chain(PutRaffle(c.store, 0, Reopened(a, x, price, p)), c.wallets)
    ensures StateAt(CLAIM_TIME, c.store.raffles[0]) == Ok(Claimed) && StateAt(CLAIM_TIME, d.store.raffles[0]) == Ok(RaffleState.Started)
  {
    d := Chain(PutRaffle(c.store, 0, Reopened(a, x, price, p)), c.wallets);
    PlainStep(draw, self, c, a, CLAIM_TIME, Prolongs(a).msg, d.store, [], c.wallets);
    CustodyStep(draw, self, c, Prolongs(a));
  }

  /** Two like raffles of one owner; the first is drawn without a ticket, claimed and
      prolonged. */
  function ToReopened(a: Addr, x: Asset, price: Asset, p: Addr): seq<Tx> {
    [Creates(a, [x], price, NO_OPTIONS)] + [Creates(a, [x], price, NO_OPTIONS)] + [Draws(p)] + [ClaimsIt(p)] + [Prolongs(a)]
  }

  lemma {:induction false} Drawn(draw: Seed -> U32, self: Addr, owner: Addr, feeAddr: Addr, c: Chain, a: Addr,
                                 x: Asset, price: Asset, p: Addr) returns (d: Chain)
    requires New(self, owner, feeAddr, c) && a != self && p != self
    requires x.Cw1155? && x.HasContract() && 2 * x.value <= c.wallets.Held(a, x.Key())
    ensures ChainInv(self, d)
    ensures d == Run(draw, self, c, [Creates(a, [x], price, NO_OPTIONS)] + [Creates(a, [x], price, NO_OPTIONS)] + [Draws(p)])
    ensures d.store.config.minimumDuration == 1 && d.store.config.minimumTimeout == 120 && d.store.userTickets == map[]
    ensures 0 in d.store.raffles && d.store.raffles[0] == Randomized(a, x, price, p)
    ensures 1 in d.store.raffles && d.store.raffles[1] == Raffled(a, [x], price, Options(0, 1, 120, None, None))
    ensures forall b, k: Key :: k != x.Key() && !k.NftKey? ==> d.wallets.Held(b, k) == c.wallets.Held(b, k)
  {
    var create := Creates(a, [x], price, NO_OPTIONS);
    var c1 := FirstRaffle(draw, self, owner, feeAddr, c, a, x, price, NO_OPTIONS);
    var c2 := Creating(draw, self, c1, a, x, price, NO_OPTIONS);
    OneMore(draw, self, c, [create], create);
    d := Drawing(draw, self, c2, a, x, price, p);
    OneMore(draw, self, c, [create] + [create], Draws(p));
  }

  /** Custody still holds, the first raffle has its winner, and reads as open. */
  lemma {:induction false} Reopen(draw: Seed -> U32, self: Addr, owner: Addr, feeAddr: Addr, c: Chain, a: Addr,
                                  x: Asset, price: Asset, p: Addr) returns (d: Chain)
    requires New(self, owner, feeAddr, c) && a != self && p != self && (price.Native? || price.Cw20?)
    requires x.Cw1155? && x.HasContract() && 2 * x.value <= c.wallets.Held(a, x.Key())
    ensures d == Run(draw, self, c, ToReopened(a, x, price, p)) && ChainInv(self, d)
    ensures 0 in d.store.raffles && d.store.raffles[0] == Reopened(a, x, price, p)
    ensures 1 in d.store.raffles && d.store.raffles[1] == Raffled(a, [x], price, Options(0, 1, 120, None, None))
    ensures d.store.userTickets == map[]
    ensures forall b, k: Key :: k != x.Key() && !k.NftKey? ==> d.wallets.Held(b, k) == c.wallets.Held(b, k)
  {
    var c3 := Drawn(draw, self, owner, feeAddr, c, a, x, price, p);
    var c4 := Claiming(draw, self, c3, a, x, price, p);
    d := Reopening(draw, self, c4, a, x, price, p);
    var create := Creates(a, [x], price, NO_OPTIONS);
    OneMore(draw, self, c, [create] + [create] + [Draws(p)], ClaimsIt(p));
    OneMore(draw, self, c, [create] + [create] + [Draws(p)] + [ClaimsIt(p)], Prolongs(a));
  }

  lemma {:induction false} CancelsAgain(draw: Seed -> U32, self: Addr, c: Chain, a: Addr, x: Asset, price: Asset,
                                        p: Addr) returns (w: Wallets)
    requires ChainInv(self, c) && a != self && x.Cw1155? && x.HasContract()
    requires 0 in c.store.raffles && c.store.raffles[0] == Reopened(a, x, price, p)
    requires 1 in c.store.raffles && c.store.raffles[1] == Raffled(a, [x], price, Options(0, 1, 120, None, None))
    ensures var s1 := PutRaffle(c.store, 0, Reopened(a, x, price, p).(isCancelled := true));
            Try(draw, self, c, Plain(a, CLAIM_TIME, CancelRaffleMsg(0))) == Some(Chain(s1, w))
  {
    LotIsThere(self, c, 1, x, a);
    assert OnlyNfts([x]);
    var s1 := PutRaffle(c.store, 0, Reopened(a, x, price, p).(isCancelled := true));
    w := c.wallets.MoveAll(self, true, [Transfer(self, a, x)]).value;
    PlainStep(draw, self, c, a, CLAIM_TIME, CancelRaffleMsg(0), s1, [Transfer(self, a, x)], w);
  }

  /** Cancelling the reopened raffle sends its lot a second time, out of what the other
      raffle brought in. */
  lemma {:induction false} ReopenedPaysAgain(draw: Seed -> U32, self: Addr, owner: Addr, feeAddr: Addr, c: Chain,
                                             a: Addr, x: Asset, price: Asset, p: Addr)
    requires New(self, owner, feeAddr, c) && a != self && p != self && (price.Native? || price.Cw20?)
    requires x.Cw1155? && x.HasContract() && 0 < 2 * x.value <= c.wallets.Held(a, x.Key())
    ensures var d := Run(draw, self, c, ToReopened(a, x, price, p));
            var e := Try(draw, self, d, Plain(a, CLAIM_TIME, CancelRaffleMsg(0)));
            && Custody(self, d) && Won(d.store, 0) && e.Some? && !Custody(self, e.value)
            && e.value.wallets.Held(self, x.Key()) + x.value == Escrowed(e.value.store, x.Key())
  {
    var d := Reopen(draw, self, owner, feeAddr, c, a, x, price, p);
    var w := CancelsAgain(draw, self, d, a, x, price, p);
    var e := Chain(PutRaffle(d.store, 0, Reopened(a, x, price, p).(isCancelled := true)), w);
    var tx := Plain(a, CLAIM_TIME, CancelRaffleMsg(0));
    assert [x][1..] == [] && Total([x], x.Key()) == x.value;
    assert Natives([]) == [];
    WalletsFollow(draw, self, d, tx, e, x.Key());
  }

  /** A ticket bought in the reopened raffle is paid for and belongs to no record. */
  lemma {:induction false} ReopenedSellsUntracked(draw: Seed -> U32, self: Addr, owner: Addr, feeAddr: Addr, c: Chain,
                                                  a: Addr, x: Asset,
                                                  coin: Coin, p: Addr, b: Addr)
    requires New(self, owner, feeAddr, c) && a != self && p != self && b != self
    requires x.Cw1155? && x.HasContract() && 2 * x.value <= c.wallets.Held(a, x.Key())
    requires 0 < coin.amount <= c.wallets.Held(b, NativeKey(coin.denom))
    ensures var d := Run(draw, self, c, ToReopened(a, x, Native(coin), p));
            var e := Try(draw, self, d, Tx(Info(b, [coin]), CLAIM_TIME, false, BuyTicketMsg(0, 1, Native(coin))));
            Custody(self, d) && e.Some? && !Custody(self, e.value)
  {
    var d := Reopen(draw, self, owner, feeAddr, c, a, x, Native(coin), p);
    var tx := Tx(Info(b, [coin]), CLAIM_TIME, false, BuyTicketMsg(0, 1, Native(coin)));
    OneTicket(d.store, CLAIM_TIME, b, 0, Native(coin));
    CoinTicket(draw, self, d, CLAIM_TIME, b, 0, coin);
    CustodyIff(draw, self, d, tx);
  }

  // ----- A raffle without an end

  function LongTimeout(): OptionsMsg {
    OptionsMsg(None, None, Some(U64_LIMIT - 1), None, None)
  }

  /** Two messages sell a ticket of a raffle whose end is no timestamp; no continuation finds
      a winner. */
  lemma {:induction false} RaffleWithoutEnd(draw: Seed -> U32, self: Addr, owner: Addr, feeAddr: Addr, c: Chain, a: Addr, x: Asset,
                                            coin: Coin, b: Addr, more: seq<Tx>)
    requires New(self, owner, feeAddr, c) && a != self && b != self
    requires x.Cw1155? && x.HasContract() && x.value <= c.wallets.Held(a, x.Key())
    requires coin.amount <= c.wallets.Held(b, NativeKey(coin.denom))
    ensures var txs := [Creates(a, [x], Native(coin), LongTimeout())] + [Tx(Info(b, [coin]), 0, false, BuyTicketMsg(0, 1, Native(coin)))];
            var d := Run(draw, self, c, txs);
            && Uncountable(d.store, 0) && 0 in Run(draw, self, d, more).store.raffles
            && Run(draw, self, d, more).store.raffles[0].winner.None?
  {
    var create := Creates(a, [x], Native(coin), LongTimeout());
    var c1 := FirstRaffle(draw, self, owner, feeAddr, c, a, x, Native(coin), LongTimeout());
    var buy := Tx(Info(b, [coin]), 0, false, BuyTicketMsg(0, 1, Native(coin)));
    OneTicket(c1.store, 0, b, 0, Native(coin));
    CoinTicket(draw, self, c1, 0, b, 0, coin);
    OneMore(draw, self, c, [create], buy);
    RunInv(draw, self, c, [create] + [buy]);
    UncountableForever(draw, self, Exec(draw, self, c1, buy), more, 0);
  }

  // ----- Tickets nobody paid for

  /** The direct branch moves the contract's tokens to the contract. */
  lemma {:induction false} DirectTicket(draw: Seed -> U32, self: Addr, c: Chain, e: Addr, token: Addr, n: nat)
    requires ChainInv(self, c) && e != self && token != "" && 0 < n <= c.wallets.Held(self, Cw20Key(token))
    requires BuyTickets(c.store, 0, e, 0, 1, Cw20(token, n)).Ok? && !Won(c.store, 0)
    ensures var f := Try(draw, self, c, Plain(e, 0, BuyTicketMsg(0, 1, Cw20(token, n))));
            && f.Some? && f.value.store == BuyTickets(c.store, 0, e, 0, 1, Cw20(token, n)).value && !Custody(self, f.value)
            && f.value.wallets.Held(self, Cw20Key(token)) == c.wallets.Held(self, Cw20Key(token))
  {
    var pay := Transfer(self, self, Cw20(token, n));
    MoveOne(c.wallets, self, true, pay);
    var s1 := BuyTickets(c.store, 0, e, 0, 1, Cw20(token, n)).value;
    PlainStep(draw, self, c, e, 0, BuyTicketMsg(0, 1, Cw20(token, n)), s1, [pay], c.wallets.Move(self, true, pay).value);
    CustodyIff(draw, self, c, Plain(e, 0, BuyTicketMsg(0, 1, Cw20(token, n))));
  }

  function BuysWithToken(token: Addr, n: nat, b: Addr): Tx {
    Tx(Info(token, []), 0, false, ReceiveMsg(b, n, BuyTicketMsg(0, 1, Cw20(token, n))))
  }

  lemma {:induction false} SellsOne(draw: Seed -> U32, self: Addr, c: Chain, raffle: Raffle, token: Addr, n: nat,
                                    b: Addr) returns (d: Chain)
    requires ChainInv(self, c) && b != self && token != self && token != "" && n <= c.wallets.Held(b, Cw20Key(token))
    requires 0 in c.store.raffles && c.store.raffles[0] == raffle && raffle.price == Cw20(token, n) && raffle.winner.None?
    requires StateAt(0, raffle) == Ok(RaffleState.Started) && raffle.options.maxParticipants.None? && raffle.options.maxPerAddress.None?
    requires raffle.tickets == 0 && (b, 0) !in c.store.userTickets
    ensures d == Exec(draw, self, c, BuysWithToken(token, n, b)) && ChainInv(self, d)
    ensures d.wallets.Held(self, Cw20Key(token)) == c.wallets.Held(self, Cw20Key(token)) + n
    ensures d.store.userTickets == c.store.userTickets[(b, 0) := 1]
    ensures 0 in d.store.raffles && d.store.raffles[0] == raffle.(tickets := 1)
  {
    OneTicket(c.store, 0, b, 0, Cw20(token, n));
    d := TokenTicket(draw, self, c, 0, b, 0, token, n);
  }

  lemma {:induction false} OneSold(draw: Seed -> U32, self: Addr, owner: Addr, feeAddr: Addr, c: Chain, a: Addr,
                                   x: Asset, token: Addr, n: nat, b: Addr)
    returns (d: Chain)
    requires New(self, owner, feeAddr, c) && a != self && b != self && token != self && token != ""
    requires x.Cw1155? && x.HasContract() && x.value <= c.wallets.Held(a, x.Key())
    requires 0 < n <= c.wallets.Held(b, Cw20Key(token))
    ensures d == Run(draw, self, c, [Creates(a, [x], Cw20(token, n), NO_OPTIONS)] + [BuysWithToken(token, n, b)]) && ChainInv(self, d)
    ensures d.wallets.Held(self, Cw20Key(token)) == n && d.store.userTickets == map[(b, 0) := 1]
    ensures 0 in d.store.raffles && d.store.raffles[0] == Raffled(a, [x], Cw20(token, n), Options(0, 1, 120, None, None)).(tickets := 1)
  {
    var c1 := FirstRaffle(draw, self, owner, feeAddr, c, a, x, Cw20(token, n), NO_OPTIONS);
    assert c.wallets.Held(self, Cw20Key(token)) == 0;
    d := SellsOne(draw, self, c1, Raffled(a, [x], Cw20(token, n), Options(0, 1, 120, None, None)), token, n, b);
    OneMore(draw, self, c, [Creates(a, [x], Cw20(token, n), NO_OPTIONS)], BuysWithToken(token, n, b));
  }

  /** After one purchase with cw20 tokens, a ticket bought through the direct branch is
      credited and not paid for. */
  lemma {:induction false} DirectCw20Unpaid(draw: Seed -> U32, self: Addr, owner: Addr, feeAddr: Addr, c: Chain, a: Addr, x: Asset,
                                            token: Addr, n: nat, b: Addr, e: Addr)
    requires New(self, owner, feeAddr, c) && a != self && b != self && e != self && token != self && token != ""
    requires x.Cw1155? && x.HasContract() && x.value <= c.wallets.Held(a, x.Key())
    requires 0 < n <= c.wallets.Held(b, Cw20Key(token))
    ensures var d := Run(draw, self, c, [Creates(a, [x], Cw20(token, n), NO_OPTIONS)] + [BuysWithToken(token, n, b)]);
            var f := Try(draw, self, d, Plain(e, 0, BuyTicketMsg(0, 1, Cw20(token, n))));
            && Custody(self, d) && f.Some? && !Custody(self, f.value)
            && 0 in f.value.store.raffles && f.value.store.raffles[0].tickets == 2 && f.value.wallets.Held(self, Cw20Key(token)) == n
  {
    var d := OneSold(draw, self, owner, feeAddr, c, a, x, token, n, b);
    OneTicket(d.store, 0, e, 0, Cw20(token, n));
    DirectTicket(draw, self, d, e, token, n);
  }

  // ----- One NFT raffled twice over, and coins nobody asked for

  lemma {:induction false} NftRaffledTwice(draw: Seed -> U32, self: Addr, owner: Addr, feeAddr: Addr, c: Chain,
                                           a: Addr, nft: Asset, price: Asset)
    requires New(self, owner, feeAddr, c) && a != self
    requires nft.Cw721? && nft.HasContract() && Lookup(c.wallets.nftOwner, nft.Key()) == Some(a)
    ensures var d := Try(draw, self, c, Creates(a, [nft, nft], price, NO_OPTIONS)); d.Some? && !Custody(self, d.value)
  {
    NewIsGenesis(self, owner, feeAddr, c);
    var tx := Creates(a, [nft, nft], price, NO_OPTIONS);
    var one := Transfer(a, self, nft);
    assert [nft, nft][1..] == [nft] && [nft][1..] == [];
    assert [one] + [] == [one];
    assert Pulls(self, c.wallets, a, [], PULL_ERRORS) == Ok([]);
    assert Pulls(self, c.wallets, a, [nft], PULL_ERRORS) == Ok([one]);
    assert Pulls(self, c.wallets, a, [nft, nft], PULL_ERRORS) == Ok([one] + [one]);
    MoveOne(c.wallets, self, true, one);
    var w := c.wallets.Move(self, true, one).value;
    MoveOne(w, self, true, one);
    MoveAllConcat(c.wallets, self, true, [one], [one]);
    var s1 := Step(draw, Env(self, 0, c.wallets), c.store, tx.info, tx.msg).value.0;
    PlainStep(draw, self, c, a, 0, tx.msg, s1, [one] + [one], w.Move(self, true, one).value);
    assert !DistinctNfts([nft, nft]) by { assert [nft, nft][0].Key() == [nft, nft][1].Key(); }
    CustodyIff(draw, self, c, tx);
  }

  lemma {:induction false} StrayCoinKept(draw: Seed -> U32, self: Addr, owner: Addr, feeAddr: Addr, c: Chain, coin: Coin)
    requires New(self, owner, feeAddr, c) && owner != self && 0 < coin.amount <= c.wallets.Held(owner, NativeKey(coin.denom))
    ensures var d := Try(draw, self, c, Tx(Info(owner, [coin]), 0, false, ToggleLockMsg(true))); d.Some? && !Custody(self, d.value)
  {
    NewIsGenesis(self, owner, feeAddr, c);
    var tx := Tx(Info(owner, [coin]), 0, false, ToggleLockMsg(true));
    PaidIn(c.wallets, owner, self, coin, owner, NativeKey(coin.denom));
    assert tx.info.funds[0].amount != 0;
    CustodyIff(draw, self, c, tx);
  }
}

/** The raffle contract's escrow: it holds exactly what is raffled and what was paid for
    tickets, over the raffles neither claimed nor cancelled. */
module RafflesEscrow {
  import opened Base
  import opened Ledger
  import opened Nfts
  import opened Raffles
  import opened RafflesTickets
  import opened RafflesLife

  /** What the tickets of a raffle brought in. */
  function Takings(raffle: Raffle, k: Key): nat {
    if (raffle.price.Native? || raffle.price.Cw20?) && raffle.price.Key() == k
    then raffle.price.Quantity() * raffle.tickets else 0
  }

  function Weight(raffle: Raffle, k: Key): nat {
    if raffle.winner.Some? || raffle.isCancelled then 0 else Total(raffle.assets, k) + Takings(raffle, k)
  }

  function Weights(m: map<nat, Raffle>, k: Key): map<nat, nat> {
    map r | r in m :: Weight(m[r], k)
  }

  ghost function Escrowed(s: Store, k: Key): nat {
    MapSum(Weights(s.raffles, k))
  }

  lemma {:induction false} PutRaffleEscrowed(s: Store, r: nat, raffle: Raffle, k: Key)
    ensures Escrowed(PutRaffle(s, r, raffle), k) + (if r in s.raffles then Weight(s.raffles[r], k) else 0)
         == Escrowed(s, k) + Weight(raffle, k)
  {
    assert Weights(s.raffles[r := raffle], k) == Weights(s.raffles, k)[r := Weight(raffle, k)];
    MapSumUpdate(Weights(s.raffles, k), r, Weight(raffle, k));
  }

  // ----- What a message may leave unbalanced

  /** What the handler's caller brought, by coins or by a cw20 `Send`. */
  function Brought(tx: Tx, k: Key): nat {
    if tx.msg.ReceiveMsg? then Cw20(tx.info.sender, tx.msg.amount).Of(k) else Total(Natives(tx.info.funds), k)
  }

  predicate TakesCoins(msg: ExecuteMsg) {
    msg.BuyTicketMsg? && msg.sentAssets.Native? && msg.sentAssets.coin.amount != 0
  }

  /** Coins sent along with a message that has no use for them. */
  function Stray(tx: Tx, k: Key): nat {
    if tx.msg.ReceiveMsg? || TakesCoins(tx.msg) then 0 else Total(Natives(tx.info.funds), k)
  }

  /** A raffle is over once it has a winner; its weight in the escrow is gone. */
  predicate Won(s: Store, r: nat) {
    r in s.raffles && s.raffles[r].winner.Some?
  }

  /** NFTs raffled more often than they exist. */
  function Phantom(msg: ExecuteMsg, k: Key): nat {
    if msg.CreateRaffleMsg? then Surplus(msg.assets, k) else 0
  }

  /** Tickets credited by the direct cw20 branch, which moves no token here. */
  function Unbacked(s: Store, msg: ExecuteMsg, k: Key): nat {
    if msg.BuyTicketMsg? && msg.sentAssets.Cw20? && !Won(s, msg.raffleId) then msg.sentAssets.Of(k) else 0
  }

  /** Tickets paid for in a raffle that already has a winner. */
  function Untracked(s: Store, msg: ExecuteMsg, k: Key): nat {
    match msg
    case BuyTicketMsg(r, _, sent) => if sent.Native? && Won(s, r) then sent.Of(k) else 0
    case ReceiveMsg(_, _, inner) => if inner.BuyTicketMsg? && Won(s, inner.raffleId) then inner.sentAssets.Of(k) else 0
    case _ => 0
  }

  /** What a cancellation sends out although the winner already had it; an NFT is only sent
      as long as the contract owns it. */
  function Reissued(self: Addr, c: Chain, msg: ExecuteMsg, k: Key): nat {
    if msg.CancelRaffleMsg? && Won(c.store, msg.raffleId) then
      var n := Total(c.store.raffles[msg.raffleId].assets, k);
      if k.NftKey? && n > c.wallets.Held(self, k) then c.wallets.Held(self, k) else n
    else 0
  }

  // ----- The books of one message

  ghost predicate Outsiders(self: Addr, s: Store) {
    && s.config.feeAddr != self
    && (forall r :: r in s.raffles ==> s.raffles[r].owner != self)
    && (forall r :: r in s.raffles && s.raffles[r].randomness.Some? ==> s.raffles[r].randomness.value.owner != self)
    && (forall key :: key in s.ticketOwner ==> s.ticketOwner[key] != self)
  }

  lemma {:induction false} MoreTakings(a: Raffle, n: nat, cost: Asset, k: Key)
    requires TicketCost(a, n) == Ok(cost) && a.tickets + n < U32_LIMIT
    ensures Takings(a.(tickets := a.tickets + n), k) == Takings(a, k) + cost.Of(k)
  {
    MulAdds(a.tickets, n, a.price.Quantity());
  }

  /** Tickets add to the escrow unless the raffle already has a winner. */
  lemma {:induction false} BuyBooks(s: Store, time: nat, user: Addr, r: nat, n: U32, sent: Asset, s1: Store, k: Key)
    requires BuyTickets(s, time, user, r, n, sent) == Ok(s1)
    ensures Escrowed(s1, k) == Escrowed(s, k) + (if Won(s, r) then 0 else sent.Of(k))
  {
    var a := s.raffles[r];
    var b := a.(tickets := a.tickets + n);
    MoreTakings(a, n, sent, k);
    PutRaffleEscrowed(s, r, b, k);
    assert s1.raffles == PutRaffle(s, r, b).raffles;
  }

  lemma {:induction false} CancelBooks(env: Env, s: Store, sender: Addr, r: nat, s1: Store, ts: seq<Transfer>, k: Key)
    requires Outsiders(env.self, s) && CancelRaffle(env, s, sender, r) == Ok((s1, ts))
    ensures r in s.raffles && AllPushes(env.self, ts) && Outgoing(env.self, ts, k) == Total(s.raffles[r].assets, k)
    ensures Escrowed(s1, k) + (if Won(s, r) then 0 else Total(s.raffles[r].assets, k)) == Escrowed(s, k)
  {
    var a := s.raffles[r];
    SendsOutgoing(env.self, a.owner, a.assets, k);
    PutRaffleEscrowed(s, r, a.(isCancelled := true), k);
  }

  lemma {:induction false} PayFlow(self: Addr, s: Store, raffle: Raffle, k: Key)
    requires FeesOk(s.config) && OwnerMessages(self, s, raffle).Ok?
    requires s.config.feeAddr != self && raffle.owner != self && raffle.randomness.Some? && raffle.randomness.value.owner != self
    ensures var ts := OwnerMessages(self, s, raffle).value;
            AllPushes(self, ts) && Outgoing(self, ts, k) == Takings(raffle, k)
  {
    var total := raffle.price.Quantity() * raffle.tickets;
    SplitSums(total, s.config);
    var shares := Split(total, s.config).value;
    SharesFlow(self, raffle.price, raffle.randomness.value.owner, s.config.feeAddr, raffle.owner, shares, k);
  }

  lemma {:induction false} SharesFlow(self: Addr, price: Asset, provider: Addr, treasury: Addr, owner: Addr, shares: Shares, k: Key)
    requires provider != self && treasury != self && owner != self && (price.Native? || price.Cw20?)
    ensures var ts := SendSome(self, provider, Amount(price, shares.rand)) + SendSome(self, treasury, Amount(price, shares.treasury))
                      + SendSome(self, owner, Amount(price, shares.owner));
            && AllPushes(self, ts)
            && Outgoing(self, ts, k) == if price.Key() == k then shares.rand + shares.treasury + shares.owner else 0
  {
    var a := SendSome(self, provider, Amount(price, shares.rand));
    var b := SendSome(self, treasury, Amount(price, shares.treasury));
    var c := SendSome(self, owner, Amount(price, shares.owner));
    SendSomeFlow(self, provider, Amount(price, shares.rand), self, k);
    SendSomeFlow(self, treasury, Amount(price, shares.treasury), self, k);
    SendSomeFlow(self, owner, Amount(price, shares.owner), self, k);
    OutgoingConcat(self, a, b, k);
    OutgoingConcat(self, a + b, c, k);
  }

  lemma {:induction false} WinnerOutside(draw: Seed -> U32, self: Addr, s: Store, r: nat, raffle: Raffle)
    requires Outsiders(self, s) && raffle.tickets > 0 && Winner(draw, s, r, raffle).Ok?
    ensures Winner(draw, s, r, raffle).value != self
  {
  }

  lemma {:induction false} ClaimFlow(self: Addr, s: Store, raffle: Raffle, winner: Addr, k: Key)
    requires FeesOk(s.config) && OwnerMessages(self, s, raffle).Ok? && winner != self
    requires s.config.feeAddr != self && raffle.owner != self && raffle.randomness.Some? && raffle.randomness.value.owner != self
    ensures var ts := Sends(self, winner, raffle.assets) + OwnerMessages(self, s, raffle).value;
            AllPushes(self, ts) && Outgoing(self, ts, k) == Total(raffle.assets, k) + Takings(raffle, k)
  {
    SendsOutgoing(self, winner, raffle.assets, k);
    PayFlow(self, s, raffle, k);
    OutgoingConcat(self, Sends(self, winner, raffle.assets), OwnerMessages(self, s, raffle).value, k);
  }

  lemma {:induction false} ClaimBooks(draw: Seed -> U32, env: Env, s: Store, r: nat, s1: Store, ts: seq<Transfer>, k: Key)
    requires FeesOk(s.config) && Outsiders(env.self, s) && Claim(draw, env, s, r) == Ok((s1, ts))
    requires r in s.raffles && !s.raffles[r].isCancelled
    ensures AllPushes(env.self, ts) && Escrowed(s1, k) + Outgoing(env.self, ts, k) == Escrowed(s, k)
  {
    var a := s.raffles[r];
    var winner := s1.raffles[r].winner.value;
    if a.tickets > 0 {
      WinnerOutside(draw, env.self, s, r, a);
    }
    ClaimFlow(env.self, s, a, winner, k);
    PutRaffleEscrowed(s, r, a.(winner := Some(winner)), k);
  }

  lemma {:induction false} CreateBooks(env: Env, s: Store, sender: Addr, owner: Option<Addr>, assets: seq<Asset>,
                                       price: Asset, options: OptionsMsg, k: Key)
    requires Inv(s) && CreateRaffle(env, s, sender, owner, assets, price, options).Ok?
    ensures var (s1, ts) := CreateRaffle(env, s, sender, owner, assets, price, options).value;
            Pulls(env.self, env.wallets, sender, assets, PULL_ERRORS) == Ok(ts) && Escrowed(s1, k) == Escrowed(s, k) + Total(assets, k)
  {
    CreateInv(env, s, sender, owner, assets, price, options);
    var s1 := CreateRaffle(env, s, sender, owner, assets, price, options).value.0;
    PutRaffleEscrowed(s, NextRaffle(s), s1.raffles[NextRaffle(s)], k);
  }

  lemma {:induction false} QuietBooks(draw: Seed -> U32, env: Env, s: Store, info: Info, msg: ExecuteMsg, s1: Store,
                                      ts: seq<Transfer>, k: Key)
    requires Step(draw, env, s, info, msg) == Ok((s1, ts))
    requires msg.ModifyRaffleMsg? || msg.UpdateRandomnessMsg? || msg.ToggleLockMsg? || msg.ChangeParameterMsg?
    ensures ts == [] && Escrowed(s1, k) == Escrowed(s, k)
  {
    if msg.ModifyRaffleMsg? || msg.UpdateRandomnessMsg? {
      PutRaffleEscrowed(s, msg.raffleId, s1.raffles[msg.raffleId], k);
      assert Weight(s1.raffles[msg.raffleId], k) == Weight(s.raffles[msg.raffleId], k);
    }
  }

  // ----- The wallets follow the books

  ghost predicate Custody(self: Addr, c: Chain) {
    forall k :: c.wallets.Held(self, k) == Escrowed(c.store, k)
  }

  ghost predicate ChainInv(self: Addr, c: Chain) {
    Inv(c.store) && Outsiders(self, c.store) && Custody(self, c)
  }

  /** What came before the handler has arrived. */
  lemma {:induction false} PreludeArrives(self: Addr, w: Wallets, tx: Tx, k: Key)
    requires tx.info.sender != self && (tx.msg.ReceiveMsg? ==> tx.msg.from != self)
    requires w.MoveAll(self, true, Prelude(self, tx)).Some?
    ensures w.MoveAll(self, true, Prelude(self, tx)).value.Held(self, k) == w.Held(self, k) + Brought(tx, k)
  {
    if tx.msg.ReceiveMsg? {
      assert Prelude(self, tx)[1..] == [];
      PullEffect(w, self, true, Prelude(self, tx), k);
    } else {
      Funded(self, w, tx.info.sender, tx.info.funds, k);
    }
  }

  lemma {:induction false} SelfTransfer(w: Wallets, self: Addr, allow: bool, a: Asset, k: Key)
    requires a.Cw20? && w.MoveAll(self, allow, [Transfer(self, self, a)]).Some?
    ensures w.MoveAll(self, allow, [Transfer(self, self, a)]).value.Held(self, k) == w.Held(self, k)
  {
    assert [Transfer(self, self, a)][1..] == [];
  }

  lemma {:induction false} CreateFollows(env: Env, s: Store, info: Info, msg: ExecuteMsg, s1: Store,
                                         ts: seq<Transfer>, allow: bool, w: Wallets, k: Key)
    requires Inv(s) && info.sender != env.self && msg.CreateRaffleMsg?
    requires CreateRaffle(env, s, info.sender, msg.owner, msg.assets, msg.price, msg.options) == Ok((s1, ts))
    requires env.wallets.MoveAll(env.self, allow, ts) == Some(w)
    requires env.wallets.Held(env.self, k) == Escrowed(s, k) + Total(Natives(info.funds), k)
    ensures w.Held(env.self, k) + Surplus(msg.assets, k) == Escrowed(s1, k) + Total(Natives(info.funds), k)
  {
    CreateBooks(env, s, info.sender, msg.owner, msg.assets, msg.price, msg.options, k);
    PullsIncoming(env.self, env.wallets, info.sender, msg.assets, PULL_ERRORS, k);
    StrayOnlyNative(info.funds, k);
    PullEffect(env.wallets, env.self, allow, ts, k);
  }

  lemma {:induction false} CancelFollows(env: Env, s: Store, info: Info, r: nat, s1: Store, ts: seq<Transfer>,
                                         allow: bool, w: Wallets, k: Key)
    requires Outsiders(env.self, s) && CancelRaffle(env, s, info.sender, r) == Ok((s1, ts))
    requires env.wallets.MoveAll(env.self, allow, ts) == Some(w)
    requires env.wallets.Held(env.self, k) == Escrowed(s, k) + Total(Natives(info.funds), k)
    ensures r in s.raffles
    ensures var n := Total(s.raffles[r].assets, k);
            var again := if !Won(s, r) then 0 else if k.NftKey? && n > Escrowed(s, k) then Escrowed(s, k) else n;
            w.Held(env.self, k) + again == Escrowed(s1, k) + Total(Natives(info.funds), k)
  {
    CancelBooks(env, s, info.sender, r, s1, ts, k);
    StrayOnlyNative(info.funds, k);
    PushCapped(env.wallets, env.self, allow, ts, k);
  }

  lemma {:induction false} ClaimFollows(draw: Seed -> U32, env: Env, s: Store, r: nat, s1: Store, ts: seq<Transfer>,
                                        allow: bool, w: Wallets, extra: nat, k: Key)
    requires Inv(s) && Outsiders(env.self, s) && Claim(draw, env, s, r) == Ok((s1, ts))
    requires env.wallets.MoveAll(env.self, allow, ts) == Some(w)
    requires env.wallets.Held(env.self, k) == Escrowed(s, k) + extra
    ensures w.Held(env.self, k) == Escrowed(s1, k) + extra
  {
    ClaimBooks(draw, env, s, r, s1, ts, k);
    PushEffect(env.wallets, env.self, allow, ts, k);
  }

  lemma {:induction false} BuyFollows(env: Env, s: Store, info: Info, r: nat, n: U32, sent: Asset, s1: Store,
                                      ts: seq<Transfer>, allow: bool, w: Wallets, k: Key)
    requires BuyTicket(env, s, info, r, n, sent) == Ok((s1, ts)) && env.wallets.MoveAll(env.self, allow, ts) == Some(w)
    requires env.wallets.Held(env.self, k) == Escrowed(s, k) + Total(Natives(info.funds), k)
    ensures sent.Cw20? ==> w.Held(env.self, k) + (if Won(s, r) then 0 else sent.Of(k)) == Escrowed(s1, k) + Total(Natives(info.funds), k)
    ensures sent.Native? && sent.coin.amount != 0 ==> w.Held(env.self, k) == Escrowed(s1, k) + (if Won(s, r) then sent.Of(k) else 0)
    ensures sent.Native? && sent.coin.amount == 0 ==> w.Held(env.self, k) == Escrowed(s1, k) + Total(Natives(info.funds), k)
  {
    BuyBooks(s, env.time, info.sender, r, n, sent, s1, k);
    if sent.Cw20? {
      SelfTransfer(env.wallets, env.self, allow, sent, k);
    } else if sent.coin.amount != 0 {
      NativesOne(sent.coin, k);
    }
  }

  lemma {:induction false} BuyStepFollows(env: Env, s: Store, tx: Tx, s1: Store, ts: seq<Transfer>, w: Wallets, k: Key)
    requires tx.msg.BuyTicketMsg? && BuyTicket(env, s, tx.info, tx.msg.raffleId, tx.msg.ticketNumber, tx.msg.sentAssets) == Ok((s1, ts))
    requires env.wallets.MoveAll(env.self, tx.allow, ts) == Some(w)
    requires env.wallets.Held(env.self, k) == Escrowed(s, k) + Brought(tx, k)
    ensures w.Held(env.self, k) + Unbacked(s, tx.msg, k) == Escrowed(s1, k) + Stray(tx, k) + Untracked(s, tx.msg, k)
  {
    BuyFollows(env, s, tx.info, tx.msg.raffleId, tx.msg.ticketNumber, tx.msg.sentAssets, s1, ts, tx.allow, w, k);
  }

  lemma {:induction false} ReceiveFollows(env: Env, s: Store, tx: Tx, s1: Store, ts: seq<Transfer>, w: Wallets, k: Key)
    requires tx.msg.ReceiveMsg? && Receive(env, s, tx.info, tx.msg.from, tx.msg.amount, tx.msg.inner) == Ok((s1, ts))
    requires env.wallets.MoveAll(env.self, tx.allow, ts) == Some(w)
    requires env.wallets.Held(env.self, k) == Escrowed(s, k) + Brought(tx, k)
    ensures w.Held(env.self, k) == Escrowed(s1, k) + Untracked(s, tx.msg, k)
  {
    var inner := tx.msg.inner;
    BuyBooks(s, env.time, tx.msg.from, inner.raffleId, inner.ticketNumber, inner.sentAssets, s1, k);
  }

  /** The account of every message, its parts given. */
  lemma {:induction false} StepFollows(draw: Seed -> U32, self: Addr, c: Chain, v: Wallets, tx: Tx, s1: Store,
                                       ts: seq<Transfer>, w: Wallets, k: Key)
    requires Inv(c.store) && Outsiders(self, c.store) && tx.info.sender != self
    requires Step(draw, Env(self, tx.time, v), c.store, tx.info, tx.msg) == Ok((s1, ts)) && v.MoveAll(self, tx.allow, ts) == Some(w)
    requires c.wallets.Held(self, k) == Escrowed(c.store, k) && v.Held(self, k) == Escrowed(c.store, k) + Brought(tx, k)
    ensures w.Held(self, k) + Phantom(tx.msg, k) + Unbacked(c.store, tx.msg, k) + Reissued(self, c, tx.msg, k)
         == Escrowed(s1, k) + Stray(tx, k) + Untracked(c.store, tx.msg, k)
  {
    var env := Env(self, tx.time, v);
    if tx.msg.CreateRaffleMsg? {
      CreateFollows(env, c.store, tx.info, tx.msg, s1, ts, tx.allow, w, k);
    } else if tx.msg.BuyTicketMsg? {
      BuyStepFollows(env, c.store, tx, s1, ts, w, k);
    } else if tx.msg.ReceiveMsg? {
      ReceiveFollows(env, c.store, tx, s1, ts, w, k);
    } else if tx.msg.CancelRaffleMsg? {
      CancelFollows(env, c.store, tx.info, tx.msg.raffleId, s1, ts, tx.allow, w, k);
    } else if tx.msg.ClaimMsg? {
      ClaimFollows(draw, env, c.store, tx.msg.raffleId, s1, ts, tx.allow, w, Brought(tx, k), k);
    } else {
      QuietBooks(draw, env, c.store, tx.info, tx.msg, s1, ts, k);
    }
  }

  /** A transaction that goes through, as its parts. */
  lemma {:induction false} TryParts(draw: Seed -> U32, self: Addr, c: Chain, tx: Tx, d: Chain) returns (v: Wallets,
                                    ts: seq<Transfer>)
    requires Try(draw, self, c, tx) == Some(d)
    ensures c.wallets.MoveAll(self, true, Prelude(self, tx)) == Some(v)
    ensures Step(draw, Env(self, tx.time, v), c.store, tx.info, tx.msg) == Ok((d.store, ts)) && v.MoveAll(self, tx.allow, ts) == Some(d.wallets)
  {
    v := c.wallets.MoveAll(self, true, Prelude(self, tx)).value;
    ts := Step(draw, Env(self, tx.time, v), c.store, tx.info, tx.msg).value.1;
  }

  /** After any message the contract holds what is recorded, plus stray coins and tickets
      paid for too late, less NFTs recorded twice, tickets credited without payment and
      assets sent out again. */
  lemma {:induction false} WalletsFollow(draw: Seed -> U32, self: Addr, c: Chain, tx: Tx, d: Chain, k: Key)
    requires ChainInv(self, c) && tx.info.sender != self && (tx.msg.ReceiveMsg? ==> tx.msg.from != self)
    requires Try(draw, self, c, tx) == Some(d)
    ensures d.wallets.Held(self, k) + Phantom(tx.msg, k) + Unbacked(c.store, tx.msg, k) + Reissued(self, c, tx.msg, k)
         == Escrowed(d.store, k) + Stray(tx, k) + Untracked(c.store, tx.msg, k)
  {
    var v, ts := TryParts(draw, self, c, tx, d);
    assert c.wallets.Held(self, k) == Escrowed(c.store, k);
    PreludeArrives(self, c.wallets, tx, k);
    StepFollows(draw, self, c, v, tx, d.store, ts, d.wallets, k);
  }

  // ----- When custody is kept

  predicate NoStray(tx: Tx) {
    tx.msg.ReceiveMsg? || TakesCoins(tx.msg) || NoCoins(tx.info.funds)
  }

  /** Nothing is raffled twice over. */
  predicate ListsOnce(msg: ExecuteMsg) {
    msg.CreateRaffleMsg? ==> DistinctNfts(msg.assets)
  }

  /** No paid ticket of a raffle still open is bought through the direct cw20 branch. */
  predicate Backed(s: Store, msg: ExecuteMsg) {
    msg.BuyTicketMsg? && msg.sentAssets.Cw20? && !Won(s, msg.raffleId) ==> msg.sentAssets.amount == 0
  }

  /** No ticket is paid for in a raffle that has a winner. */
  predicate Tracked(s: Store, msg: ExecuteMsg) {
    && (msg.BuyTicketMsg? && msg.sentAssets.Native? && Won(s, msg.raffleId) ==> msg.sentAssets.coin.amount == 0)
    && (msg.ReceiveMsg? && msg.inner.BuyTicketMsg? && Won(s, msg.inner.raffleId) ==> msg.inner.sentAssets.Quantity() == 0)
  }

  /** A raffle with a winner is cancelled only if nothing it lists is left to send. */
  predicate SendsOnce(self: Addr, c: Chain, msg: ExecuteMsg) {
    msg.CancelRaffleMsg? && Won(c.store, msg.raffleId) ==>
      forall a :: a in c.store.raffles[msg.raffleId].assets ==>
        if a.Cw721? then Lookup(c.wallets.nftOwner, a.Key()) != Some(self) else a.Quantity() == 0
  }

  predicate Keeps(self: Addr, c: Chain, tx: Tx) {
    && NoStray(tx)
    && ListsOnce(tx.msg)
    && Backed(c.store, tx.msg)
    && Tracked(c.store, tx.msg)
    && SendsOnce(self, c, tx.msg)
  }

  function Missing(self: Addr, c: Chain, msg: ExecuteMsg, k: Key): nat {
    Phantom(msg, k) + Unbacked(c.store, msg, k) + Reissued(self, c, msg, k)
  }

  function Extra(s: Store, tx: Tx, k: Key): nat {
    Stray(tx, k) + Untracked(s, tx.msg, k)
  }

  lemma {:induction false} NoneOf(assets: seq<Asset>, k: Key)
    requires forall a :: a in assets ==> a.Of(k) == 0
    ensures Total(assets, k) == 0
  {
    if assets != [] {
      assert assets[0] in assets;
      NoneOf(assets[1..], k);
    }
  }

  lemma {:induction false} ReissuedIff(self: Addr, c: Chain, msg: ExecuteMsg)
    requires msg.CancelRaffleMsg? && Won(c.store, msg.raffleId) && OnlyNfts(c.store.raffles[msg.raffleId].assets)
    ensures (forall k :: Reissued(self, c, msg, k) == 0) <==> SendsOnce(self, c, msg)
  {
    var assets := c.store.raffles[msg.raffleId].assets;
    if SendsOnce(self, c, msg) {
      forall k ensures Reissued(self, c, msg, k) == 0 {
        if !k.NftKey? || c.wallets.Held(self, k) > 0 {
          NoneOf(assets, k);
        }
      }
    } else {
      var a :| a in assets && if a.Cw721? then Lookup(c.wallets.nftOwner, a.Key()) == Some(self) else a.Quantity() != 0;
      var i :| 0 <= i < |assets| && assets[i] == a;
      TotalMember(assets, i);
      assert Reissued(self, c, msg, a.Key()) > 0;
    }
  }

  /** Nothing is missing exactly when no NFT is raffled twice over, no ticket credited
      unpaid, nothing sent out again. */
  lemma {:induction false} MissingIff(self: Addr, c: Chain, msg: ExecuteMsg)
    requires Inv(c.store)
    ensures (forall k :: Missing(self, c, msg, k) == 0) <==> ListsOnce(msg) && Backed(c.store, msg) && SendsOnce(self, c, msg)
  {
    match msg
    case CreateRaffleMsg(_, assets, _, _) =>
      SurplusIff(assets);
      assert forall k :: Missing(self, c, msg, k) == Surplus(assets, k);
    case CancelRaffleMsg(r) =>
      if Won(c.store, r) {
        assert Shape(c.store.raffles[r]);
        ReissuedIff(self, c, msg);
      }
      assert forall k :: Missing(self, c, msg, k) == Reissued(self, c, msg, k);
    case BuyTicketMsg(r, _, sent) =>
      if !Backed(c.store, msg) {
        assert Missing(self, c, msg, sent.Key()) > 0;
      }
    case _ =>
  }

  lemma {:induction false} ExtraIff(s: Store, tx: Tx)
    ensures (forall k :: Extra(s, tx, k) == 0) <==> NoStray(tx) && Tracked(s, tx.msg)
  {
    NoCoinsIff(tx.info.funds);
    if !NoStray(tx) {
      var k :| Total(Natives(tx.info.funds), k) != 0;
      assert Extra(s, tx, k) > 0;
    } else if !Tracked(s, tx.msg) {
      var sent := if tx.msg.BuyTicketMsg? then tx.msg.sentAssets else tx.msg.inner.sentAssets;
      assert Extra(s, tx, sent.Key()) > 0;
    }
  }

  /** The kinds of difference concern different assets: they never cancel. */
  lemma {:induction false} NeverCancel(self: Addr, c: Chain, tx: Tx, k: Key)
    requires Inv(c.store)
    ensures Missing(self, c, tx.msg, k) == 0 || Extra(c.store, tx, k) == 0
  {
    StrayOnlyNative(tx.info.funds, k);
    if Reissued(self, c, tx.msg, k) > 0 && k.NativeKey? {
      assert Shape(c.store.raffles[tx.msg.raffleId]);
      NoNatives(c.store.raffles[tx.msg.raffleId].assets, k);
    }
  }

  /** A message keeps custody exactly when no coin comes unasked, nothing is raffled twice
      over, no paid ticket is bought through the direct cw20 branch, and a raffle that has a
      winner neither takes money nor sends its assets again. */
  lemma {:induction false} CustodyIff(draw: Seed -> U32, self: Addr, c: Chain, tx: Tx)
    requires ChainInv(self, c) && tx.info.sender != self && (tx.msg.ReceiveMsg? ==> tx.msg.from != self)
    requires Try(draw, self, c, tx).Some?
    ensures Custody(self, Try(draw, self, c, tx).value) <==> Keeps(self, c, tx)
  {
    var d := Try(draw, self, c, tx).value;
    MissingIff(self, c, tx.msg);
    ExtraIff(c.store, tx);
    forall k
      ensures d.wallets.Held(self, k) == Escrowed(d.store, k) <==> Missing(self, c, tx.msg, k) == 0 && Extra(c.store, tx, k) == 0
    {
      WalletsFollow(draw, self, c, tx, d, k);
      NeverCancel(self, c, tx, k);
    }
  }

  // ----- Over whole runs

  /** The contract itself takes no part. */
  predicate Outside(self: Addr, tx: Tx) {
    && tx.info.sender != self
    && (tx.msg.ReceiveMsg? ==> tx.msg.from != self)
    && (tx.msg.CreateRaffleMsg? ==> tx.msg.owner != Some(self))
    && (tx.msg.ChangeParameterMsg? && tx.msg.parameter.FeeAddr? ==> tx.msg.parameter.address != self)
  }

  predicate OrderlyTx(draw: Seed -> U32, self: Addr, c: Chain, tx: Tx) {
    Outside(self, tx) && (Try(draw, self, c, tx).Some? ==> Keeps(self, c, tx))
  }

  predicate OrderlyRun(draw: Seed -> U32, self: Addr, c: Chain, txs: seq<Tx>)
    decreases |txs|
  {
    txs == [] || (OrderlyTx(draw, self, c, txs[0]) && OrderlyRun(draw, self, Exec(draw, self, c, txs[0]), txs[1..]))
  }

  lemma {:induction false} BuyOutsiders(self: Addr, s: Store, time: nat, user: Addr, r: nat, n: U32, sent: Asset)
    requires Outsiders(self, s) && user != self && BuyTickets(s, time, user, r, n, sent).Ok?
    ensures Outsiders(self, BuyTickets(s, time, user, r, n, sent).value)
  {
    var s1 := BuyTickets(s, time, user, r, n, sent).value;
    forall key | key in s1.ticketOwner ensures s1.ticketOwner[key] != self {
      Written(s.ticketOwner, r, s.raffles[r].tickets, n, user, key);
    }
  }

  lemma {:induction false} RaffleMsgOutsiders(draw: Seed -> U32, self: Addr, env: Env, s: Store, tx: Tx, s1: Store,
                                              ts: seq<Transfer>)
    requires Outsiders(self, s) && Outside(self, tx) && Step(draw, env, s, tx.info, tx.msg) == Ok((s1, ts))
    requires tx.msg.CreateRaffleMsg? || tx.msg.CancelRaffleMsg? || tx.msg.ModifyRaffleMsg? || tx.msg.ClaimMsg? || tx.msg.UpdateRandomnessMsg?
    ensures Outsiders(self, s1)
  {
    assert s1.ticketOwner == s.ticketOwner;
  }

  lemma {:induction false} ConfigMsgOutsiders(draw: Seed -> U32, self: Addr, env: Env, s: Store, tx: Tx, s1: Store,
                                              ts: seq<Transfer>)
    requires Outsiders(self, s) && Outside(self, tx) && Step(draw, env, s, tx.info, tx.msg) == Ok((s1, ts))
    requires tx.msg.ToggleLockMsg? || tx.msg.ChangeParameterMsg?
    ensures Outsiders(self, s1)
  {
    assert s1.ticketOwner == s.ticketOwner && s1.raffles == s.raffles;
  }

  lemma {:induction false} OutsidersStep(draw: Seed -> U32, self: Addr, env: Env, s: Store, tx: Tx, s1: Store, ts: seq<Transfer>)
    requires Outsiders(self, s) && Outside(self, tx) && Step(draw, env, s, tx.info, tx.msg) == Ok((s1, ts))
    ensures Outsiders(self, s1)
  {
    if tx.msg.BuyTicketMsg? {
      BuyOutsiders(self, s, env.time, tx.info.sender, tx.msg.raffleId, tx.msg.ticketNumber, tx.msg.sentAssets);
    } else if tx.msg.ReceiveMsg? {
      var inner := tx.msg.inner;
      BuyOutsiders(self, s, env.time, tx.msg.from, inner.raffleId, inner.ticketNumber, inner.sentAssets);
    } else if tx.msg.ToggleLockMsg? || tx.msg.ChangeParameterMsg? {
      ConfigMsgOutsiders(draw, self, env, s, tx, s1, ts);
    } else {
      RaffleMsgOutsiders(draw, self, env, s, tx, s1, ts);
    }
  }

  lemma {:induction false} CustodyStep(draw: Seed -> U32, self: Addr, c: Chain, tx: Tx)
    requires ChainInv(self, c) && OrderlyTx(draw, self, c, tx)
    ensures ChainInv(self, Exec(draw, self, c, tx))
  {
    if Try(draw, self, c, tx).Some? {
      ExecInv(draw, self, c, tx);
      var d := Exec(draw, self, c, tx);
      var v, ts := TryParts(draw, self, c, tx, d);
      OutsidersStep(draw, self, Env(self, tx.time, v), c.store, tx, d.store, ts);
      CustodyIff(draw, self, c, tx);
    }
  }

  /** Custody holds at every point of the run. */
  ghost predicate CustodyThroughout(draw: Seed -> U32, self: Addr, c: Chain, txs: seq<Tx>)
    decreases |txs|
  {
    Custody(self, c) && (txs == [] || CustodyThroughout(draw, self, Exec(draw, self, c, txs[0]), txs[1..]))
  }

  /** Orderly runs are exactly the runs in which custody holds throughout. */
  lemma {:induction false} ThroughoutIffOrderly(draw: Seed -> U32, self: Addr, c: Chain, txs: seq<Tx>)
    requires ChainInv(self, c) && forall i :: 0 <= i < |txs| ==> Outside(self, txs[i])
    ensures CustodyThroughout(draw, self, c, txs) <==> OrderlyRun(draw, self, c, txs)
    decreases |txs|
  {
    if txs != [] {
      if Try(draw, self, c, txs[0]).Some? {
        CustodyIff(draw, self, c, txs[0]);
      }
      if OrderlyTx(draw, self, c, txs[0]) {
        CustodyStep(draw, self, c, txs[0]);
        ThroughoutIffOrderly(draw, self, Exec(draw, self, c, txs[0]), txs[1..]);
      }
    }
  }

  lemma {:induction false} CustodyRun(draw: Seed -> U32, self: Addr, c: Chain, txs: seq<Tx>)
    requires ChainInv(self, c) && OrderlyRun(draw, self, c, txs)
    ensures ChainInv(self, Run(draw, self, c, txs))
    decreases |txs|
  {
    if txs != [] {
      CustodyStep(draw, self, c, txs[0]);
      CustodyRun(draw, self, Exec(draw, self, c, txs[0]), txs[1..]);
    }
  }

  /** The contract just set up, owning nothing yet. */
  ghost predicate Genesis(self: Addr, c: Chain) {
    && (forall k :: c.wallets.Held(self, k) == 0)
    && exists owner, feeAddr, duration, timeout, raffleFee, randFee ::
         feeAddr != self && Instantiate(owner, feeAddr, duration, timeout, raffleFee, randFee) == Ok(c.store)
  }

  lemma {:induction false} GenesisInv(self: Addr, c: Chain)
    requires Genesis(self, c)
    ensures ChainInv(self, c)
  {
    var owner, feeAddr, duration, timeout, raffleFee, randFee :|
      feeAddr != self && Instantiate(owner, feeAddr, duration, timeout, raffleFee, randFee) == Ok(c.store);
    InitInv(owner, feeAddr, duration, timeout, raffleFee, randFee);
    assert forall k: Key :: Weights(c.store.raffles, k) == map[];
  }

  /** Escrow conservation: from instantiation, after any run whose messages each keep
      custody, the contract holds of each asset what is raffled and price times tickets, over
      the raffles with no winner. */
  lemma {:induction false} EscrowAlways(draw: Seed -> U32, self: Addr, c: Chain, txs: seq<Tx>)
    requires Genesis(self, c) && OrderlyRun(draw, self, c, txs)
    ensures ChainInv(self, Run(draw, self, c, txs))
  {
    GenesisInv(self, c);
    CustodyRun(draw, self, c, txs);
  }

  // ----- Which modifications reopen

  /** A claimed raffle reads as claimed. */
  ghost predicate ClaimedSettled(s: Store, now: nat) {
    forall r :: r in s.raffles && s.raffles[r].winner.Some? ==> Settled(now, s.raffles[r])
  }

  /** A modification reopens a raffle that has a winner exactly if its new end is not past. */
  predicate Reopens(s: Store, tx: Tx) {
    tx.msg.ModifyRaffleMsg? && Won(s, tx.msg.raffleId) &&
    var end := Ending(ModifiedOptions(s.raffles[tx.msg.raffleId].options, tx.msg.options, s.config));
    end >= U64_LIMIT || end > tx.time
  }

  /** What a modification of a claimed raffle leaves: the raffle still reads as claimed, or
      its owner can cancel it, if it reads as anything, and be sent what is raffled again. */
  lemma {:induction false} ModifyKeepsClaimedIff(self: Addr, w: Wallets, s: Store, tx: Tx, s1: Store)
    requires Inv(s) && tx.msg.ModifyRaffleMsg? && Won(s, tx.msg.raffleId) && !s.raffles[tx.msg.raffleId].isCancelled
    requires ModifyRaffle(s, tx.info.sender, tx.msg.raffleId, tx.msg.newPrice, tx.msg.options) == Ok((s1, []))
    ensures var r := tx.msg.raffleId;
            var cancel := CancelRaffle(Env(self, tx.time, w), s1, s.raffles[r].owner, r);
            && r in s1.raffles && Won(s1, r)
            && (StateAt(tx.time, s1.raffles[r]) == Ok(Claimed) <==> !Reopens(s, tx))
            && (cancel.Ok? <==> Reopens(s, tx) && StateAt(tx.time, s1.raffles[r]).Ok?)
            && (cancel.Ok? ==> cancel.value.1 == Sends(self, s.raffles[r].owner, s.raffles[r].assets))
  {
    assert Shape(s.raffles[tx.msg.raffleId]);
  }

  lemma {:induction false} PutSettled(s: Store, s1: Store, now: nat, time: nat, r: nat)
    requires ClaimedSettled(s, now) && now <= time && r in s1.raffles
    requires s1.raffles == s.raffles[r := s1.raffles[r]]
    requires s1.raffles[r].winner.Some? ==> Settled(time, s1.raffles[r])
    ensures ClaimedSettled(s1, time)
  {
  }

  lemma {:induction false} BuySettled(s: Store, now: nat, time: nat, user: Addr, r: nat, n: U32, sent: Asset)
    requires ClaimedSettled(s, now) && now <= time && BuyTickets(s, time, user, r, n, sent).Ok?
    ensures !Won(s, r) && ClaimedSettled(BuyTickets(s, time, user, r, n, sent).value, time)
  {
    SettledStates(time, s.raffles[r]);
    PutSettled(s, BuyTickets(s, time, user, r, n, sent).value, now, time, r);
  }

  lemma {:induction false} ModifySettled(s: Store, tx: Tx, now: nat, s1: Store)
    requires ClaimedSettled(s, now) && now <= tx.time && tx.msg.ModifyRaffleMsg? && !Reopens(s, tx)
    requires ModifyRaffle(s, tx.info.sender, tx.msg.raffleId, tx.msg.newPrice, tx.msg.options) == Ok((s1, []))
    ensures ClaimedSettled(s1, tx.time)
  {
    if Won(s, tx.msg.raffleId) {
      assert Settled(now, s.raffles[tx.msg.raffleId]);
    }
    PutSettled(s, s1, now, tx.time, tx.msg.raffleId);
  }

  lemma {:induction false} CancelSettled(s: Store, env: Env, sender: Addr, r: nat, s1: Store, ts: seq<Transfer>, now: nat)
    requires ClaimedSettled(s, now) && now <= env.time && CancelRaffle(env, s, sender, r) == Ok((s1, ts))
    ensures !Won(s, r) && ClaimedSettled(s1, env.time)
  {
    SettledStates(env.time, s.raffles[r]);
    PutSettled(s, s1, now, env.time, r);
  }

  lemma {:induction false} ClaimSettled(draw: Seed -> U32, s: Store, env: Env, r: nat, s1: Store, ts: seq<Transfer>, now: nat)
    requires ClaimedSettled(s, now) && now <= env.time && Claim(draw, env, s, r) == Ok((s1, ts))
    ensures ClaimedSettled(s1, env.time)
  {
    SettledStates(env.time, s.raffles[r]);
    PutSettled(s, s1, now, env.time, r);
  }

  lemma {:induction false} ClaimedSettledStep(draw: Seed -> U32, env: Env, s: Store, tx: Tx, s1: Store, ts: seq<Transfer>, now: nat)
    requires ClaimedSettled(s, now) && now <= tx.time && env.time == tx.time && !Reopens(s, tx)
    requires Step(draw, env, s, tx.info, tx.msg) == Ok((s1, ts))
    ensures ClaimedSettled(s1, tx.time)
    ensures tx.msg.CancelRaffleMsg? || tx.msg.BuyTicketMsg? ==> !Won(s, tx.msg.raffleId)
    ensures tx.msg.ReceiveMsg? ==> tx.msg.inner.BuyTicketMsg? && !Won(s, tx.msg.inner.raffleId)
  {
    if tx.msg.BuyTicketMsg? {
      BuySettled(s, now, env.time, tx.info.sender, tx.msg.raffleId, tx.msg.ticketNumber, tx.msg.sentAssets);
    } else if tx.msg.ReceiveMsg? {
      var inner := tx.msg.inner;
      BuySettled(s, now, env.time, tx.msg.from, inner.raffleId, inner.ticketNumber, inner.sentAssets);
    } else if tx.msg.ModifyRaffleMsg? {
      ModifySettled(s, tx, now, s1);
    } else if tx.msg.CreateRaffleMsg? {
      PutSettled(s, s1, now, env.time, NextRaffle(s));
    } else if tx.msg.ClaimMsg? {
      ClaimSettled(draw, s, env, tx.msg.raffleId, s1, ts, now);
    } else if tx.msg.CancelRaffleMsg? {
      CancelSettled(s, env, tx.info.sender, tx.msg.raffleId, s1, ts, now);
    } else if tx.msg.UpdateRandomnessMsg? {
      PutSettled(s, s1, now, env.time, tx.msg.raffleId);
    }
  }

  /** No message of the run reopens a raffle, and each is orderly but for what only a
      reopened raffle allows. */
  predicate ClosedRun(draw: Seed -> U32, self: Addr, c: Chain, txs: seq<Tx>)
    decreases |txs|
  {
    txs == [] ||
    (var tx := txs[0];
     && Outside(self, tx) && !Reopens(c.store, tx)
     && (Try(draw, self, c, tx).Some? ==> NoStray(tx) && ListsOnce(tx.msg) && Backed(c.store, tx.msg))
     && ClosedRun(draw, self, Exec(draw, self, c, tx), txs[1..]))
  }

  /** As long as block time does not go back and no modification reopens a claimed raffle,
      no cancellation and no purchase ever meets a raffle with a winner. */
  lemma {:induction false} ClosedRunsAreOrderly(draw: Seed -> U32, self: Addr, c: Chain, txs: seq<Tx>, now: nat)
    requires ClaimedSettled(c.store, now) && Timely(now, txs) && ClosedRun(draw, self, c, txs)
    ensures OrderlyRun(draw, self, c, txs)
    decreases |txs|
  {
    if txs != [] {
      var tx := txs[0];
      if Try(draw, self, c, tx).Some? {
        var env := Env(self, tx.time, c.wallets.MoveAll(self, true, Prelude(self, tx)).value);
        var (s1, ts) := Step(draw, env, c.store, tx.info, tx.msg).value;
        ClaimedSettledStep(draw, env, c.store, tx, s1, ts, now);
      }
      ClosedRunsAreOrderly(draw, self, Exec(draw, self, c, tx), txs[1..], tx.time);
    }
  }

  // ----- Money that never comes out

  ghost predicate Uncountable(s: Store, r: nat) {
    r in s.raffles && s.raffles[r].tickets > 0 && s.raffles[r].winner.None? && Ending(s.raffles[r].options) >= U64_LIMIT
  }

  lemma {:induction false} UncountableSteps(draw: Seed -> U32, time: nat, info: Info, msg: ExecuteMsg, s: Store, s1: Store, r: nat)
    requires Uncountable(s, r) && Steps(draw, time, info, msg, s, s1, r)
    ensures Uncountable(s1, r) && TermsFixed(s.raffles[r], s1.raffles[r])
  {
  }

  lemma {:induction false} UncountableStep(draw: Seed -> U32, env: Env, s: Store, info: Info, msg: ExecuteMsg, r: nat)
    requires Inv(s) && Step(draw, env, s, info, msg).Ok? && Uncountable(s, r)
    ensures var s1 := Step(draw, env, s, info, msg).value.0;
            Uncountable(s1, r) && TermsFixed(s.raffles[r], s1.raffles[r])
  {
    SoldStep(draw, env, s, info, msg, r);
    UncountableSteps(draw, env.time, info, msg, s, Step(draw, env, s, info, msg).value.0, r);
  }

  /** A sold raffle whose end is no countable timestamp never gets a winner, whatever is sent. */
  lemma {:induction false} UncountableForever(draw: Seed -> U32, self: Addr, c: Chain, txs: seq<Tx>, r: nat)
    requires Inv(c.store) && Uncountable(c.store, r)
    ensures var s := Run(draw, self, c, txs).store;
            Uncountable(s, r) && TermsFixed(c.store.raffles[r], s.raffles[r])
    decreases |txs|
  {
    if txs != [] {
      ExecInv(draw, self, c, txs[0]);
      if Try(draw, self, c, txs[0]).Some? {
        var funded := c.wallets.MoveAll(self, true, Prelude(self, txs[0])).value;
        UncountableStep(draw, Env(self, txs[0].time, funded), c.store, txs[0].info, txs[0].msg, r);
      }
      UncountableForever(draw, self, Exec(draw, self, c, txs[0]), txs[1..], r);
    }
  }

  lemma {:induction false} MoreTickets(a: Raffle, b: Raffle, k: Key)
    requires TermsFixed(a, b)
    ensures Total(b.assets, k) + Takings(b, k) >= Total(a.assets, k) + Takings(a, k)
  {
    MulMonotone(a.tickets, b.tickets, a.price.Quantity());
  }

  /** What such a raffle lists and took in stays with the contract after every orderly run. */
  lemma {:induction false} UncountableKeepsAll(draw: Seed -> U32, self: Addr, c: Chain, txs: seq<Tx>, r: nat, k: Key)
    requires ChainInv(self, c) && OrderlyRun(draw, self, c, txs) && Uncountable(c.store, r)
    ensures Run(draw, self, c, txs).wallets.Held(self, k) >= Total(c.store.raffles[r].assets, k) + Takings(c.store.raffles[r], k)
  {
    CustodyRun(draw, self, c, txs);
    UncountableForever(draw, self, c, txs, r);
    var d := Run(draw, self, c, txs);
    assert Shape(d.store.raffles[r]);
    assert d.wallets.Held(self, k) == Escrowed(d.store, k);
    MapSumBounds(Weights(d.store.raffles, k), r);
    MoreTickets(c.store.raffles[r], d.store.raffles[r], k);
  }
}

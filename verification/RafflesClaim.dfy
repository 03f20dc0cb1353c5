/** Claiming: a finished raffle with tickets can always be claimed, by anybody, and pays
    everything it brought in. */
module RafflesClaim {
  import opened Base
  import opened Ledger
  import opened Nfts
  import opened Raffles
  import opened RafflesTickets
  import opened RafflesEscrow

  /** What is raffled, and the token tickets were paid in, live at real contracts. */
  ghost predicate Real(s: Store) {
    forall r :: r in s.raffles ==> RealRaffle(s.raffles[r])
  }

  ghost predicate RealRaffle(raffle: Raffle) {
    && (forall i :: 0 <= i < |raffle.assets| ==> raffle.assets[i].HasContract())
    && (raffle.tickets > 0 ==> raffle.price.HasContract())
  }

  lemma {:induction false} PutReal(s: Store, s1: Store, r: nat)
    requires Real(s) && r in s1.raffles && s1.raffles == s.raffles[r := s1.raffles[r]] && RealRaffle(s1.raffles[r])
    ensures Real(s1)
  {
  }

  lemma {:induction false} BuyReal(s: Store, time: nat, user: Addr, r: nat, n: U32, sent: Asset)
    requires Real(s) && BuyTickets(s, time, user, r, n, sent).Ok? && sent.HasContract()
    ensures Real(BuyTickets(s, time, user, r, n, sent).value)
  {
    PutReal(s, BuyTickets(s, time, user, r, n, sent).value, r);
  }

  lemma {:induction false} CreateReal(env: Env, s: Store, sender: Addr, msg: ExecuteMsg, s1: Store, ts: seq<Transfer>, allow: bool)
    requires Real(s) && msg.CreateRaffleMsg?
    requires CreateRaffle(env, s, sender, msg.owner, msg.assets, msg.price, msg.options) == Ok((s1, ts))
    requires env.wallets.MoveAll(env.self, allow, ts).Some?
    ensures Real(s1)
  {
    PulledReal(env.self, env.wallets, sender, msg.assets, PULL_ERRORS, env.wallets, allow);
    PutReal(s, s1, NextRaffle(s));
  }

  lemma {:induction false} RealStep(draw: Seed -> U32, self: Addr, c: Chain, tx: Tx)
    requires Real(c.store)
    ensures Real(Exec(draw, self, c, tx).store)
  {
    if Try(draw, self, c, tx).Some? {
      var funded := c.wallets.MoveAll(self, true, Prelude(self, tx)).value;
      var env := Env(self, tx.time, funded);
      var (s1, ts) := Step(draw, env, c.store, tx.info, tx.msg).value;
      match tx.msg
      case CreateRaffleMsg(_, _, _, _) => CreateReal(env, c.store, tx.info.sender, tx.msg, s1, ts, tx.allow);
      case BuyTicketMsg(r, n, sent) =>
        MovedHaveContracts(funded, self, tx.allow, ts);
        assert sent.Cw20? ==> ts[0].asset == sent;
        BuyReal(c.store, tx.time, tx.info.sender, r, n, sent);
      case ReceiveMsg(from, amount, inner) =>
        MovedHaveContracts(c.wallets, self, true, Prelude(self, tx));
        assert Prelude(self, tx)[0].asset == inner.sentAssets;
        BuyReal(c.store, tx.time, from, inner.raffleId, inner.ticketNumber, inner.sentAssets);
      case CancelRaffleMsg(r) => PutReal(c.store, s1, r);
      case ModifyRaffleMsg(r, _, _) => PutReal(c.store, s1, r);
      case UpdateRandomnessMsg(r, _, _) => PutReal(c.store, s1, r);
      case ClaimMsg(r) => PutReal(c.store, s1, r);
      case _ =>
    }
  }

  lemma {:induction false} RealRun(draw: Seed -> U32, self: Addr, c: Chain, txs: seq<Tx>)
    requires Real(c.store)
    ensures Real(Run(draw, self, c, txs).store)
    decreases |txs|
  {
    if txs != [] {
      RealStep(draw, self, c, txs[0]);
      RealRun(draw, self, Exec(draw, self, c, txs[0]), txs[1..]);
    }
  }

  // ----- What a claim pays

  /** The messages of a claim: all that is raffled to the winner, the takings in three shares. */
  function ClaimMessages(self: Addr, s: Store, raffle: Raffle, provider: Addr, winner: Addr, shares: Shares): seq<Transfer> {
    Sends(self, winner, raffle.assets)
    + (SendSome(self, provider, Amount(raffle.price, shares.rand))
       + SendSome(self, s.config.feeAddr, Amount(raffle.price, shares.treasury))
       + SendSome(self, raffle.owner, Amount(raffle.price, shares.owner)))
  }

  /** The three shares of what the tickets of a raffle brought in. */
  function SharesOf(s: Store, raffle: Raffle): Result<Shares, Error> {
    Split(raffle.price.Quantity() * raffle.tickets, s.config)
  }

  /** A claim sends all that is raffled to the winner, who holds a ticket if any was sold,
      and splits price times tickets between provider, treasury and owner, to the unit. */
  lemma {:induction false} ClaimPaysAll(draw: Seed -> U32, env: Env, s: Store, r: nat, s1: Store, ts: seq<Transfer>)
    requires Inv(s) && Claim(draw, env, s, r) == Ok((s1, ts))
    ensures var a := s.raffles[r];
            && r in s1.raffles && s1.raffles[r].winner.Some? && a.randomness.Some? && SharesOf(s, a).Ok?
            && var winner := s1.raffles[r].winner.value;
            && var shares := SharesOf(s, a).value;
            && (a.tickets == 0 ==> winner == a.owner)
            && (a.tickets > 0 ==> Winner(draw, s, r, a) == Ok(winner) && LookupOr(s.userTickets, (winner, r), 0) >= 1)
            && shares.rand + shares.treasury + shares.owner == a.price.Quantity() * a.tickets
            && ts == ClaimMessages(env.self, s, a, a.randomness.value.owner, winner, shares)
  {
    var a := s.raffles[r];
    if a.tickets > 0 {
      WinnerHoldsTicket(draw, s, r);
    }
    SplitSums(a.price.Quantity() * a.tickets, s.config);
  }

  lemma {:induction false} PaymentsOk(self: Addr, s: Store, raffle: Raffle)
    requires FeesOk(s.config) && Shape(raffle) && raffle.tickets > 0 && raffle.randomness.Some?
    ensures OwnerMessages(self, s, raffle).Ok?
  {
    SplitSums(raffle.price.Quantity() * raffle.tickets, s.config);
  }

  /** The handler accepts a claim of a raffle with tickets exactly when it is finished. */
  lemma {:induction false} ClaimAcceptsIff(draw: Seed -> U32, env: Env, s: Store, r: nat)
    requires Inv(s) && r in s.raffles && s.raffles[r].tickets > 0
    ensures Claim(draw, env, s, r).Ok? <==> StateAt(env.time, s.raffles[r]) == Ok(Finished)
  {
    var raffle := s.raffles[r];
    assert Shape(raffle);
    if StateAt(env.time, raffle) == Ok(Finished) {
      assert Winner(draw, s, r, raffle).Ok? by { WinnerHoldsTicket(draw, s, r); }
      PaymentsOk(env.self, s, raffle);
    }
  }

  lemma {:induction false} SendSomeReal(self: Addr, to: Addr, a: Asset)
    requires a.HasContract()
    ensures forall i :: 0 <= i < |SendSome(self, to, a)| ==> SendSome(self, to, a)[i].asset.HasContract()
  {
  }

  lemma {:induction false} ClaimMessagesReal(self: Addr, s: Store, raffle: Raffle, provider: Addr, winner: Addr, shares: Shares)
    requires RealRaffle(raffle) && raffle.price.HasContract()
    ensures var ts := ClaimMessages(self, s, raffle, provider, winner, shares); forall i :: 0 <= i < |ts| ==> ts[i].asset.HasContract()
  {
    SendSomeReal(self, provider, Amount(raffle.price, shares.rand));
    SendSomeReal(self, s.config.feeAddr, Amount(raffle.price, shares.treasury));
    SendSomeReal(self, raffle.owner, Amount(raffle.price, shares.owner));
  }

  /** A claim's messages can all be paid from the escrow. */
  lemma {:induction false} ClaimCovered(draw: Seed -> U32, self: Addr, c: Chain, time: nat, r: nat, s1: Store, ts: seq<Transfer>)
    requires ChainInv(self, c) && Real(c.store) && Claim(draw, Env(self, time, c.wallets), c.store, r) == Ok((s1, ts))
    requires c.store.raffles[r].tickets > 0
    ensures AllPushes(self, ts) && c.wallets.MoveAll(self, false, ts).Some?
    ensures forall k :: Outgoing(self, ts, k) <= c.wallets.Held(self, k)
  {
    var env := Env(self, time, c.wallets);
    var a := c.store.raffles[r];
    ClaimPaysAll(draw, env, c.store, r, s1, ts);
    assert RealRaffle(a);
    ClaimMessagesReal(self, c.store, a, a.randomness.value.owner, s1.raffles[r].winner.value, SharesOf(c.store, a).value);
    forall k ensures Outgoing(self, ts, k) <= c.wallets.Held(self, k) {
      ClaimBooks(draw, env, c.store, r, s1, ts, k);
      assert c.wallets.Held(self, k) == Escrowed(c.store, k);
    }
    ClaimBooks(draw, env, c.store, r, s1, ts, NativeKey(""));
    PushSucceeds(c.wallets, self, false, ts);
  }

  /** What a claim owes to `who`: the winner all that is raffled, and each of the three
      parties its share of the takings. */
  function Due(s: Store, raffle: Raffle, provider: Addr, winner: Addr, shares: Shares, who: Addr, k: Key): nat {
    (if who == winner then Total(raffle.assets, k) else 0)
    + (if who == provider then Amount(raffle.price, shares.rand).Of(k) else 0)
    + (if who == s.config.feeAddr then Amount(raffle.price, shares.treasury).Of(k) else 0)
    + (if who == raffle.owner then Amount(raffle.price, shares.owner).Of(k) else 0)
  }

  lemma {:induction false} ClaimReceived(self: Addr, s: Store, raffle: Raffle, provider: Addr, winner: Addr,
                                         shares: Shares, who: Addr, k: Key)
    requires provider != self && s.config.feeAddr != self && raffle.owner != self
    ensures Received(who, ClaimMessages(self, s, raffle, provider, winner, shares), k)
         == Due(s, raffle, provider, winner, shares, who, k)
  {
    var x := SendSome(self, provider, Amount(raffle.price, shares.rand));
    var y := SendSome(self, s.config.feeAddr, Amount(raffle.price, shares.treasury));
    var z := SendSome(self, raffle.owner, Amount(raffle.price, shares.owner));
    SendSomeFlow(self, provider, Amount(raffle.price, shares.rand), who, k);
    SendSomeFlow(self, s.config.feeAddr, Amount(raffle.price, shares.treasury), who, k);
    SendSomeFlow(self, raffle.owner, Amount(raffle.price, shares.owner), who, k);
    SendsReceived(self, winner, raffle.assets, who, k);
    ReceivedConcat(who, x, y, k);
    ReceivedConcat(who, x + y, z, k);
    ReceivedConcat(who, Sends(self, winner, raffle.assets), x + y + z, k);
  }

  /** A message without coins is carried out if its handler accepts and its transfers go
      through. */
  lemma {:induction false} GoesThrough(draw: Seed -> U32, self: Addr, c: Chain, sender: Addr, time: nat,
                                       msg: ExecuteMsg, s1: Store, ts: seq<Transfer>)
    requires !msg.ReceiveMsg? && Step(draw, Env(self, time, c.wallets), c.store, Info(sender, []), msg) == Ok((s1, ts))
    requires c.wallets.MoveAll(self, false, ts).Some?
    ensures Try(draw, self, c, Tx(Info(sender, []), time, false, msg)) == Some(Chain(s1, c.wallets.MoveAll(self, false, ts).value))
  {
    assert Fund(sender, self, []) == [];
  }

  /** After the messages of a claim everybody holds what was due to them. */
  lemma {:induction false} ClaimDelivers(self: Addr, c: Chain, raffle: Raffle, provider: Addr, winner: Addr,
                                         shares: Shares, ts: seq<Transfer>)
    requires provider != self && c.store.config.feeAddr != self && raffle.owner != self
    requires ts == ClaimMessages(self, c.store, raffle, provider, winner, shares)
    requires AllPushes(self, ts) && c.wallets.MoveAll(self, false, ts).Some?
    requires forall k :: Outgoing(self, ts, k) <= c.wallets.Held(self, k)
    ensures forall who, k :: who != self ==>
      c.wallets.MoveAll(self, false, ts).value.Held(who, k)
      == c.wallets.Held(who, k) + Due(c.store, raffle, provider, winner, shares, who, k)
  {
    forall who, k | who != self
      ensures c.wallets.MoveAll(self, false, ts).value.Held(who, k)
           == c.wallets.Held(who, k) + Due(c.store, raffle, provider, winner, shares, who, k)
    {
      PushCredits(c.wallets, self, false, ts, who, k);
      ClaimReceived(self, c.store, raffle, provider, winner, shares, who, k);
    }
  }

  /** Claim solvency: in any state of an orderly run, a finished raffle with tickets can be
      claimed by anybody; the drawn winner ends up with all that is raffled, and provider,
      treasury and owner with their shares of price times tickets. */
  lemma {:induction false} FinishedCanBeClaimed(draw: Seed -> U32, self: Addr, c: Chain, r: nat, caller: Addr, time: nat)
    requires ChainInv(self, c) && Real(c.store) && caller != self
    requires r in c.store.raffles && c.store.raffles[r].tickets > 0
    requires StateAt(time, c.store.raffles[r]) == Ok(Finished)
    ensures var a := c.store.raffles[r];
            var claimed := Try(draw, self, c, Tx(Info(caller, []), time, false, ClaimMsg(r)));
            && a.randomness.Some? && Winner(draw, c.store, r, a).Ok? && SharesOf(c.store, a).Ok? && claimed.Some?
            && forall who, k :: who != self ==>
                 claimed.value.wallets.Held(who, k)
                 == c.wallets.Held(who, k)
                    + Due(c.store, a, a.randomness.value.owner, Winner(draw, c.store, r, a).value, SharesOf(c.store, a).value, who, k)
  {
    var env := Env(self, time, c.wallets);
    var a := c.store.raffles[r];
    ClaimAcceptsIff(draw, env, c.store, r);
    var (s1, ts) := Claim(draw, env, c.store, r).value;
    ClaimPaysAll(draw, env, c.store, r, s1, ts);
    var winner := Winner(draw, c.store, r, a).value;
    var shares := SharesOf(c.store, a).value;
    ClaimCovered(draw, self, c, time, r, s1, ts);
    GoesThrough(draw, self, c, caller, time, ClaimMsg(r), s1, ts);
    ClaimDelivers(self, c, a, a.randomness.value.owner, winner, shares, ts);
  }

  // ----- Raffles nobody bought into

  /** The owner's cancellation is accepted exactly before the first ticket, while the raffle
      is neither cancelled nor claimed and its times can be counted. */
  lemma {:induction false} CancelAcceptsIff(env: Env, s: Store, r: nat)
    requires Inv(s) && r in s.raffles
    ensures CancelRaffle(env, s, s.raffles[r].owner, r).Ok?
       <==> s.raffles[r].tickets == 0
            && StateAt(env.time, s.raffles[r]).Ok?
            && StateAt(env.time, s.raffles[r]).value != Cancelled && StateAt(env.time, s.raffles[r]).value != Claimed
  {
    assert Shape(s.raffles[r]);
  }

  /** What is raffled and drew no buyer comes back: in any state of an orderly run the
      owner's cancellation goes through, and gives the owner all that is raffled. */
  lemma {:induction false} UnsoldComesBack(draw: Seed -> U32, self: Addr, c: Chain, r: nat, time: nat)
    requires ChainInv(self, c) && Real(c.store)
    requires r in c.store.raffles && c.store.raffles[r].tickets == 0
    requires !c.store.raffles[r].isCancelled && c.store.raffles[r].winner.None? && StateAt(time, c.store.raffles[r]).Ok?
    ensures var a := c.store.raffles[r];
            var tx := Tx(Info(a.owner, []), time, false, CancelRaffleMsg(r));
            && Try(draw, self, c, tx).Some?
            && forall k :: Try(draw, self, c, tx).value.wallets.Held(a.owner, k) == c.wallets.Held(a.owner, k) + Total(a.assets, k)
  {
    var a := c.store.raffles[r];
    var env := Env(self, time, c.wallets);
    CancelAcceptsIff(env, c.store, r);
    var ts := Sends(self, a.owner, a.assets);
    forall k ensures Outgoing(self, ts, k) <= c.wallets.Held(self, k) {
      SendsOutgoing(self, a.owner, a.assets, k);
      assert c.wallets.Held(self, k) == Escrowed(c.store, k);
      MapSumBounds(Weights(c.store.raffles, k), r);
    }
    assert RealRaffle(a);
    PushSucceeds(c.wallets, self, false, ts);
    var s1 := CancelRaffle(env, c.store, a.owner, r).value.0;
    GoesThrough(draw, self, c, a.owner, time, CancelRaffleMsg(r), s1, ts);
    forall k ensures c.wallets.MoveAll(self, false, ts).value.Held(a.owner, k) == c.wallets.Held(a.owner, k) + Total(a.assets, k) {
      PushCredits(c.wallets, self, false, ts, a.owner, k);
      SendsReceived(self, a.owner, a.assets, a.owner, k);
    }
  }

  // ----- From instantiation

  /** What the two theorems above ask of a state holds after every orderly run. */
  lemma {:induction false} AlwaysSolvent(draw: Seed -> U32, self: Addr, c: Chain, txs: seq<Tx>)
    requires Genesis(self, c) && OrderlyRun(draw, self, c, txs)
    ensures ChainInv(self, Run(draw, self, c, txs)) && Real(Run(draw, self, c, txs).store)
  {
    EscrowAlways(draw, self, c, txs);
    RealRun(draw, self, c, txs);
  }

  /** From instantiation, after any orderly run, whoever claims a finished raffle with
      tickets hands the drawn winner all that is raffled. */
  lemma {:induction false} WinnersArePaid(draw: Seed -> U32, self: Addr, c: Chain, txs: seq<Tx>, r: nat, caller: Addr, time: nat)
    requires Genesis(self, c) && OrderlyRun(draw, self, c, txs) && caller != self
    requires var s := Run(draw, self, c, txs).store;
             r in s.raffles && s.raffles[r].tickets > 0 && StateAt(time, s.raffles[r]) == Ok(Finished)
    ensures var d := Run(draw, self, c, txs);
            var claimed := Try(draw, self, d, Tx(Info(caller, []), time, false, ClaimMsg(r)));
            var winner := Winner(draw, d.store, r, d.store.raffles[r]);
            && claimed.Some? && winner.Ok?
            && forall k :: claimed.value.wallets.Held(winner.value, k) >= d.wallets.Held(winner.value, k) + Total(d.store.raffles[r].assets, k)
  {
    AlwaysSolvent(draw, self, c, txs);
    var d := Run(draw, self, c, txs);
    FinishedCanBeClaimed(draw, self, d, r, caller, time);
    WinnerOutside(draw, self, d.store, r, d.store.raffles[r]);
  }

  /** From instantiation, after any orderly run, the owner of a raffle nobody bought into
      gets all that is raffled back. */
  lemma {:induction false} OwnersGetUnsoldBack(draw: Seed -> U32, self: Addr, c: Chain, txs: seq<Tx>, r: nat, time: nat)
    requires Genesis(self, c) && OrderlyRun(draw, self, c, txs)
    requires var s := Run(draw, self, c, txs).store;
             r in s.raffles && s.raffles[r].tickets == 0 && !s.raffles[r].isCancelled && s.raffles[r].winner.None?
             && StateAt(time, s.raffles[r]).Ok?
    ensures var d := Run(draw, self, c, txs);
            var a := d.store.raffles[r];
            var cancelled := Try(draw, self, d, Tx(Info(a.owner, []), time, false, CancelRaffleMsg(r)));
            cancelled.Some? && forall k :: cancelled.value.wallets.Held(a.owner, k) == d.wallets.Held(a.owner, k) + Total(a.assets, k)
  {
    AlwaysSolvent(draw, self, c, txs);
    UnsoldComesBack(draw, self, Run(draw, self, c, txs), r, time);
  }
}

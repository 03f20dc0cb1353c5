/** The life of a raffle: once a ticket is sold its terms are fixed, its state only moves
    forward, and after the end its outcome cannot change. */
module RafflesLife {
  import opened Base
  import opened Ledger
  import opened Raffles
  import opened RafflesTickets

  // ----- One step of a raffle with tickets

  /** The purchase a message makes: for whom, in which raffle, of how many tickets. */
  datatype Purchase = Purchase(user: Addr, raffle: nat, n: nat)

  function PurchaseOf(info: Info, msg: ExecuteMsg): Option<Purchase> {
    if msg.BuyTicketMsg? then Some(Purchase(info.sender, msg.raffleId, msg.ticketNumber))
    else if msg.ReceiveMsg? && msg.inner.BuyTicketMsg? then Some(Purchase(msg.from, msg.inner.raffleId, msg.inner.ticketNumber))
    else None
  }

  ghost predicate Sells(time: nat, info: Info, msg: ExecuteMsg, r: nat, a: Raffle, b: Raffle) {
    && StateAt(time, a) == Ok(Started)
    && PurchaseOf(info, msg).Some? && PurchaseOf(info, msg).value.raffle == r
    && b == a.(tickets := b.tickets) && b.tickets == a.tickets + PurchaseOf(info, msg).value.n
  }

  /** The round the message brought is stored as it came: its number, its seed, and the sender as
      its provider. */
  ghost predicate Draws(time: nat, info: Info, msg: ExecuteMsg, r: nat, a: Raffle, b: Raffle) {
    && StateAt(time, a) == Ok(Closed)
    && msg.UpdateRandomnessMsg? && msg.raffleId == r
    && b == a.(randomness := Some(Randomness(msg.seed, msg.round, info.sender)))
    && (a.randomness.Some? ==> msg.round > a.randomness.value.round)
  }

  ghost predicate Pays(draw: Seed -> U32, time: nat, msg: ExecuteMsg, s: Store, r: nat, b: Raffle)
    requires r in s.raffles && s.raffles[r].tickets > 0
  {
    && StateAt(time, s.raffles[r]) == Ok(Finished) && Winner(draw, s, r, s.raffles[r]).Ok? && msg == ClaimMsg(r)
    && b == s.raffles[r].(winner := Some(Winner(draw, s, r, s.raffles[r]).value))
  }

  ghost predicate Steps(draw: Seed -> U32, time: nat, info: Info, msg: ExecuteMsg, s: Store, s1: Store, r: nat)
    requires r in s.raffles && s.raffles[r].tickets > 0
  {
    r in s1.raffles &&
    var a, b := s.raffles[r], s1.raffles[r];
    b == a || Sells(time, info, msg, r, a, b) || Draws(time, info, msg, r, a, b) || Pays(draw, time, msg, s, r, b)
  }

  lemma {:induction false} SoldBuys(draw: Seed -> U32, s: Store, time: nat, info: Info, msg: ExecuteMsg, p: Purchase, sent: Asset, r: nat)
    requires PurchaseOf(info, msg) == Some(p) && p.n < U32_LIMIT
    requires BuyTickets(s, time, p.user, p.raffle, p.n, sent).Ok? && r in s.raffles && s.raffles[r].tickets > 0
    ensures Steps(draw, time, info, msg, s, BuyTickets(s, time, p.user, p.raffle, p.n, sent).value, r)
  {
    if p.raffle == r {
      assert Sells(time, info, msg, r, s.raffles[r], BuyTickets(s, time, p.user, p.raffle, p.n, sent).value.raffles[r]);
    }
  }

  lemma {:induction false} SoldDraws(draw: Seed -> U32, s: Store, time: nat, info: Info, msg: ExecuteMsg, r: nat)
    requires msg.UpdateRandomnessMsg? && UpdateRandomness(s, time, info.sender, msg.raffleId, msg.round, msg.seed).Ok?
    requires r in s.raffles && s.raffles[r].tickets > 0
    ensures Steps(draw, time, info, msg, s, UpdateRandomness(s, time, info.sender, msg.raffleId, msg.round, msg.seed).value.0, r)
  {
    if msg.raffleId == r {
      assert Draws(time, info, msg, r, s.raffles[r],
                   UpdateRandomness(s, time, info.sender, msg.raffleId, msg.round, msg.seed).value.0.raffles[r]);
    }
  }

  lemma {:induction false} SoldPays(draw: Seed -> U32, env: Env, s: Store, info: Info, q: nat, r: nat)
    requires Claim(draw, env, s, q).Ok? && r in s.raffles && s.raffles[r].tickets > 0
    ensures Steps(draw, env.time, info, ClaimMsg(q), s, Claim(draw, env, s, q).value.0, r)
  {
    if q == r {
      assert Pays(draw, env.time, ClaimMsg(q), s, r, Claim(draw, env, s, q).value.0.raffles[r]);
    }
  }

  /** A new raffle takes a fresh number. */
  lemma {:induction false} CreateKeepsOthers(env: Env, s: Store, sender: Addr, owner: Option<Addr>,
                                             assets: seq<Asset>, price: Asset, options: OptionsMsg, r: nat)
    requires Inv(s) && CreateRaffle(env, s, sender, owner, assets, price, options).Ok? && r in s.raffles
    ensures var s1 := CreateRaffle(env, s, sender, owner, assets, price, options).value.0;
            r in s1.raffles && s1.raffles[r] == s.raffles[r]
  {
    CreateInv(env, s, sender, owner, assets, price, options);
  }

  lemma {:induction false} SoldRests(env: Env, s: Store, sender: Addr, msg: ExecuteMsg, r: nat)
    requires r in s.raffles && s.raffles[r].tickets > 0
    ensures msg.CancelRaffleMsg? && CancelRaffle(env, s, sender, msg.raffleId).Ok?
            ==> Lookup(CancelRaffle(env, s, sender, msg.raffleId).value.0.raffles, r) == Some(s.raffles[r])
    ensures msg.ModifyRaffleMsg? && ModifyRaffle(s, sender, msg.raffleId, msg.newPrice, msg.options).Ok?
            ==> Lookup(ModifyRaffle(s, sender, msg.raffleId, msg.newPrice, msg.options).value.0.raffles, r) == Some(s.raffles[r])
  {
  }

  /** All that can happen to a raffle once a ticket is sold: the tickets a message asks for are
      sold while it is open, the later round a message brings is drawn while it is closed, and the
      drawn winner is paid once it is finished. */
  lemma {:induction false} SoldStep(draw: Seed -> U32, env: Env, s: Store, info: Info, msg: ExecuteMsg, r: nat)
    requires Inv(s) && Step(draw, env, s, info, msg).Ok? && r in s.raffles && s.raffles[r].tickets > 0
    ensures Steps(draw, env.time, info, msg, s, Step(draw, env, s, info, msg).value.0, r)
  {
    match msg
    case BuyTicketMsg(q, n, sent) => SoldBuys(draw, s, env.time, info, msg, Purchase(info.sender, q, n), sent, r);
    case ReceiveMsg(from, amount, inner) =>
      SoldBuys(draw, s, env.time, info, msg, Purchase(from, inner.raffleId, inner.ticketNumber), inner.sentAssets, r);
    case UpdateRandomnessMsg(q, round, seed) => SoldDraws(draw, s, env.time, info, msg, r);
    case ClaimMsg(q) => SoldPays(draw, env, s, info, q, r);
    case CreateRaffleMsg(owner, assets, price, options) =>
      CreateKeepsOthers(env, s, info.sender, owner, assets, price, options, r);
    case _ => SoldRests(env, s, info.sender, msg, r);
  }

  /** Entries of the ticket book are never rewritten. */
  ghost predicate SameTickets(s: Store, s1: Store, r: nat) {
    forall i: nat :: i < TicketsOf(s, r) && (r, i) in s.ticketOwner ==>
      (r, i) in s1.ticketOwner && s1.ticketOwner[(r, i)] == s.ticketOwner[(r, i)]
  }

  lemma {:induction false} BoughtSameTickets(s: Store, time: nat, user: Addr, q: nat, n: U32, sent: Asset, r: nat)
    requires BuyTickets(s, time, user, q, n, sent).Ok?
    ensures SameTickets(s, BuyTickets(s, time, user, q, n, sent).value, r)
  {
    forall i: nat | i < TicketsOf(s, r) && (r, i) in s.ticketOwner
      ensures var book := BuyTickets(s, time, user, q, n, sent).value.ticketOwner;
              (r, i) in book && book[(r, i)] == s.ticketOwner[(r, i)]
    {
      Written(s.ticketOwner, q, s.raffles[q].tickets, n, user, (r, i));
    }
  }

  lemma {:induction false} StepSameTickets(draw: Seed -> U32, env: Env, s: Store, info: Info, msg: ExecuteMsg, r: nat)
    requires Step(draw, env, s, info, msg).Ok?
    ensures SameTickets(s, Step(draw, env, s, info, msg).value.0, r)
  {
    match msg
    case BuyTicketMsg(q, n, sent) => BoughtSameTickets(s, env.time, info.sender, q, n, sent, r);
    case ReceiveMsg(from, amount, inner) =>
      BoughtSameTickets(s, env.time, from, inner.raffleId, inner.ticketNumber, inner.sentAssets, r);
    case _ => assert Step(draw, env, s, info, msg).value.0.ticketOwner == s.ticketOwner;
  }

  // ----- What a whole run may do

  /** The end has come, at a time the chain can still count. */
  predicate Settled(now: nat, raffle: Raffle) {
    && !raffle.isCancelled
    && Ending(raffle.options) < U64_LIMIT && Ending(raffle.options) <= now
    && raffle.randomness.Some?
  }

  lemma {:induction false} SettledStates(time: nat, raffle: Raffle)
    ensures Settled(time, raffle) <==> StateAt(time, raffle) == Ok(Finished) || StateAt(time, raffle) == Ok(Claimed)
  {
  }

  ghost predicate TermsFixed(a: Raffle, b: Raffle) {
    && b.owner == a.owner && b.assets == a.assets && b.price == a.price && b.options == a.options
    && b.isCancelled == a.isCancelled && b.tickets >= a.tickets
  }

  /** Rounds only rise. */
  ghost predicate RandomnessRises(a: Raffle, b: Raffle) {
    a.randomness.Some? ==>
      b.randomness == a.randomness || (b.randomness.Some? && b.randomness.value.round > a.randomness.value.round)
  }

  ghost predicate WinnerStays(a: Raffle, b: Raffle) {
    a.winner.Some? ==> b.winner == a.winner
  }

  /** After the end nothing is sold or drawn, and nobody but the drawn winner can win. */
  ghost predicate OutcomeFixed(draw: Seed -> U32, now: nat, s: Store, s1: Store, r: nat)
    requires r in s.raffles && r in s1.raffles && s.raffles[r].tickets > 0
  {
    var a, b := s.raffles[r], s1.raffles[r];
    Settled(now, a) ==>
      && b.tickets == a.tickets && b.randomness == a.randomness
      && Winner(draw, s1, r, b) == Winner(draw, s, r, a)
      && (a.winner.None? && b.winner.Some? ==> Winner(draw, s, r, a) == Ok(b.winner.value))
  }

  ghost predicate Later(draw: Seed -> U32, now: nat, s: Store, s1: Store, r: nat)
    requires r in s.raffles && s.raffles[r].tickets > 0
  {
    && r in s1.raffles
    && TermsFixed(s.raffles[r], s1.raffles[r])
    && RandomnessRises(s.raffles[r], s1.raffles[r])
    && WinnerStays(s.raffles[r], s1.raffles[r])
    && OutcomeFixed(draw, now, s, s1, r)
  }

  lemma {:induction false} SameWinner(draw: Seed -> U32, s: Store, s1: Store, r: nat, a: Raffle, b: Raffle)
    requires BookKeys(s) && SameTickets(s, s1, r) && r in s.raffles && s.raffles[r] == a
    requires a.tickets > 0 && b.tickets == a.tickets && b.randomness == a.randomness
    ensures Winner(draw, s1, r, b) == Winner(draw, s, r, a)
  {
    if a.randomness.Some? {
      var i := Between(draw(a.randomness.value.seed), 0, a.tickets - 1);
      BetweenInRange(draw(a.randomness.value.seed), 0, a.tickets - 1);
      assert i < TicketsOf(s, r);
      assert (r, i) in s.ticketOwner;
    }
  }

  lemma {:induction false} StepsAreLater(draw: Seed -> U32, time: nat, info: Info, msg: ExecuteMsg, s: Store, s1: Store, r: nat, now: nat)
    requires BookKeys(s) && r in s.raffles && s.raffles[r].tickets > 0 && now <= time
    requires Steps(draw, time, info, msg, s, s1, r) && SameTickets(s, s1, r)
    ensures Later(draw, now, s, s1, r)
  {
    if Settled(now, s.raffles[r]) {
      SettledStates(time, s.raffles[r]);
      SameWinner(draw, s, s1, r, s.raffles[r], s1.raffles[r]);
    }
  }

  lemma {:induction false} StepLater(draw: Seed -> U32, env: Env, s: Store, info: Info, msg: ExecuteMsg, r: nat, now: nat)
    requires Inv(s) && Step(draw, env, s, info, msg).Ok? && r in s.raffles && s.raffles[r].tickets > 0
    requires now <= env.time
    ensures Later(draw, now, s, Step(draw, env, s, info, msg).value.0, r)
  {
    SoldStep(draw, env, s, info, msg, r);
    StepSameTickets(draw, env, s, info, msg, r);
    StepsAreLater(draw, env.time, info, msg, s, Step(draw, env, s, info, msg).value.0, r, now);
  }

  lemma {:induction false} LaterTransitive(draw: Seed -> U32, now: nat, next: nat, a: Store, b: Store, c: Store, r: nat)
    requires r in a.raffles && a.raffles[r].tickets > 0 && now <= next
    requires Later(draw, now, a, b, r) && Later(draw, next, b, c, r)
    ensures Later(draw, now, a, c, r)
  {
  }

  /** Once a ticket is sold, and block time never goes back: terms stay, rounds rise, a
      winner stays, and from the end on tickets, randomness and winner are decided. */
  lemma {:induction false} SoldRaffleFreezes(draw: Seed -> U32, self: Addr, c: Chain, txs: seq<Tx>, r: nat, now: nat)
    requires Inv(c.store) && Timely(now, txs) && r in c.store.raffles && c.store.raffles[r].tickets > 0
    ensures Later(draw, now, c.store, Run(draw, self, c, txs).store, r)
    decreases |txs|
  {
    if txs != [] {
      var d := Exec(draw, self, c, txs[0]);
      ExecInv(draw, self, c, txs[0]);
      assert Later(draw, now, c.store, d.store, r) by {
        if Try(draw, self, c, txs[0]).Some? {
          var funded := c.wallets.MoveAll(self, true, Prelude(self, txs[0])).value;
          StepLater(draw, Env(self, txs[0].time, funded), c.store, txs[0].info, txs[0].msg, r, now);
        }
      }
      SoldRaffleFreezes(draw, self, d, txs[1..], r, txs[0].time);
      LaterTransitive(draw, now, txs[0].time, c.store, d.store, Run(draw, self, c, txs).store, r);
    }
  }

  // ----- The order of states

  function Rank(state: RaffleState): nat {
    match state
    case Created => 0
    case Started => 1
    case Closed => 2
    case Finished => 3
    case Claimed => 4
    case Cancelled => 5
  }

  lemma {:induction false} ReadingsAdvance(a: Raffle, b: Raffle, now: nat, next: nat)
    requires !a.isCancelled && TermsFixed(a, b) && RandomnessRises(a, b) && WinnerStays(a, b) && now <= next
    requires a.winner.Some? ==> a.randomness.Some?
    requires StateAt(now, a).Ok? && StateAt(next, b).Ok?
    ensures Rank(StateAt(now, a).value) <= Rank(StateAt(next, b).value) <= 4
  {
  }

  /** Between any two readings of a sold raffle the state moves forward, and it is never
      cancelled. */
  lemma {:induction false} StateAdvances(draw: Seed -> U32, s: Store, s1: Store, r: nat, now: nat, next: nat)
    requires Inv(s) && r in s.raffles && s.raffles[r].tickets > 0 && Later(draw, now, s, s1, r) && now <= next
    requires StateAt(now, s.raffles[r]).Ok? && StateAt(next, s1.raffles[r]).Ok?
    ensures Rank(StateAt(now, s.raffles[r]).value) <= Rank(StateAt(next, s1.raffles[r]).value) <= 4
  {
    assert Shape(s.raffles[r]);
    ReadingsAdvance(s.raffles[r], s1.raffles[r], now, next);
  }

  /** A raffle with tickets and randomness can be claimed at some time if and only if its end
      is a time the chain can count. */
  lemma {:induction false} ClaimableSomedayIff(s: Store, r: nat)
    requires Inv(s) && r in s.raffles && s.raffles[r].tickets > 0
    requires s.raffles[r].randomness.Some? && s.raffles[r].winner.None?
    ensures (exists time: nat :: time < U64_LIMIT && StateAt(time, s.raffles[r]) == Ok(Finished))
       <==> Ending(s.raffles[r].options) < U64_LIMIT
  {
    var raffle := s.raffles[r];
    assert Shape(raffle);
    if Ending(raffle.options) < U64_LIMIT {
      assert StateAt(Ending(raffle.options), raffle) == Ok(Finished);
    }
  }

  // ----- Claimed at most once

  /** How often a run claims raffle `r`. */
  function Claims(draw: Seed -> U32, self: Addr, c: Chain, txs: seq<Tx>, r: nat): nat
    decreases |txs|
  {
    if txs == [] then 0
    else
      (if Try(draw, self, c, txs[0]).Some? && txs[0].msg == ClaimMsg(r) then 1 else 0)
      + Claims(draw, self, Exec(draw, self, c, txs[0]), txs[1..], r)
  }

  function WinnerMark(s: Store, r: nat): nat
    requires r in s.raffles
  {
    if s.raffles[r].winner.Some? then 1 else 0
  }

  lemma {:induction false} ClaimWins(draw: Seed -> U32, env: Env, s: Store, q: nat, r: nat)
    requires Claim(draw, env, s, q).Ok? && r in s.raffles
    ensures var s1 := Claim(draw, env, s, q).value.0;
            r in s1.raffles && WinnerMark(s, r) + (if q == r then 1 else 0) == WinnerMark(s1, r)
  {
  }

  lemma {:induction false} OthersKeepWinner(draw: Seed -> U32, env: Env, s: Store, info: Info, msg: ExecuteMsg, r: nat)
    requires Step(draw, env, s, info, msg).Ok? && r in s.raffles && !msg.ClaimMsg? && !msg.CreateRaffleMsg?
    ensures var s1 := Step(draw, env, s, info, msg).value.0;
            r in s1.raffles && s1.raffles[r].winner == s.raffles[r].winner
  {
  }

  /** Only a claim makes a winner, and only where there is none. */
  lemma {:induction false} OnlyClaimsWin(draw: Seed -> U32, env: Env, s: Store, info: Info, msg: ExecuteMsg, r: nat)
    requires Inv(s) && Step(draw, env, s, info, msg).Ok? && r in s.raffles
    ensures var s1 := Step(draw, env, s, info, msg).value.0;
            r in s1.raffles && WinnerMark(s, r) + (if msg == ClaimMsg(r) then 1 else 0) == WinnerMark(s1, r)
  {
    match msg
    case ClaimMsg(q) => ClaimWins(draw, env, s, q, r);
    case CreateRaffleMsg(owner, assets, price, options) =>
      CreateKeepsOthers(env, s, info.sender, owner, assets, price, options, r);
    case _ => OthersKeepWinner(draw, env, s, info, msg, r);
  }

  /** A raffle is claimed at most once ever, and has been exactly when it has a winner. */
  lemma {:induction false} ClaimedAtMostOnce(draw: Seed -> U32, self: Addr, c: Chain, txs: seq<Tx>, r: nat)
    requires Inv(c.store) && r in c.store.raffles
    ensures r in Run(draw, self, c, txs).store.raffles
    ensures WinnerMark(c.store, r) + Claims(draw, self, c, txs, r) == WinnerMark(Run(draw, self, c, txs).store, r)
    decreases |txs|
  {
    if txs != [] {
      var d := Exec(draw, self, c, txs[0]);
      ExecInv(draw, self, c, txs[0]);
      if Try(draw, self, c, txs[0]).Some? {
        var funded := c.wallets.MoveAll(self, true, Prelude(self, txs[0])).value;
        var env := Env(self, txs[0].time, funded);
        OnlyClaimsWin(draw, env, c.store, txs[0].info, txs[0].msg, r);
      }
      ClaimedAtMostOnce(draw, self, d, txs[1..], r);
    }
  }
}

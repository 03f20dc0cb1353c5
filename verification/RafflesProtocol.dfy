/** The protocol of a raffle, message by message: who may send what and when, and what it leaves
    and orders. Stated on the records and the block time alone. */
module RafflesProtocol {
  import opened Base
  import opened Ledger
  import opened Nfts
  import opened Raffles
  import opened RafflesTickets

  const NANOS: nat := 1_000_000_000

  // ----- Times

  function ClosesAt(a: Raffle): nat {
    a.options.start + a.options.duration * NANOS
  }

  function EndsAt(a: Raffle): nat {
    a.options.start + (a.options.duration + a.options.timeout) * NANOS
  }

  /** Tickets are sold from the start until closing. */
  predicate IsOpen(time: nat, a: Raffle) {
    !a.isCancelled && a.options.start <= time < ClosesAt(a) < U64_LIMIT
  }

  /** Rounds are drawn from closing until the end, and later while there is none. */
  predicate IsDrawn(time: nat, a: Raffle) {
    !a.isCancelled && ClosesAt(a) <= time && EndsAt(a) < U64_LIMIT && (time < EndsAt(a) || a.randomness.None?)
  }

  /** Past the end, with randomness. */
  predicate IsOver(time: nat, a: Raffle) {
    !a.isCancelled && EndsAt(a) <= time && EndsAt(a) < U64_LIMIT && a.randomness.Some?
  }

  lemma {:induction false} TimesAre(time: nat, a: Raffle)
    ensures IsOpen(time, a) <==> StateAt(time, a) == Ok(Started)
    ensures IsDrawn(time, a) <==> StateAt(time, a) == Ok(Closed)
    ensures IsOver(time, a) && a.winner.None? <==> StateAt(time, a) == Ok(Finished)
    ensures IsOver(time, a) && a.winner.Some? <==> StateAt(time, a) == Ok(Claimed)
  {
    assert EndsAt(a) == Ending(a.options);
  }

  // ----- Creating, cancelling, modifying

  /** Anybody raffles NFTs of their own and multi-tokens, unless the contract is locked; the raffle
      takes a number not used before, and belongs to the owner named, or else the sender. */
  ghost predicate CreateDid(env: Env, s: Store, s1: Store, ts: seq<Transfer>, who: Addr, msg: ExecuteMsg, n: nat)
    requires msg.CreateRaffleMsg?
  {
    && (forall r: nat :: r in s.raffles <==> r < n)
    && s1 == s.(config := s.config.(lastRaffleId := Some(n)),
                raffles := s.raffles[n := Raffle(if msg.owner.Some? then msg.owner.value else who, msg.assets, msg.price, 0, None, None,
                                                 false, NewOptions(env.time, msg.options, s.config))])
    && |ts| == |msg.assets| && forall i :: 0 <= i < |ts| ==> ts[i] == Transfer(who, env.self, msg.assets[i])
  }

  lemma {:induction false} CreatingIs(draw: Seed -> U32, env: Env, s: Store, info: Info, msg: ExecuteMsg)
    requires Inv(s) && msg.CreateRaffleMsg?
    ensures var out := Step(draw, env, s, info, msg);
            && (out.Ok? <==> !s.config.lock && msg.assets != [] && Takeable(env.wallets, info.sender, msg.assets))
            && (out.Ok? ==> exists n: nat :: CreateDid(env, s, out.value.0, out.value.1, info.sender, msg, n))
  {
    PullsIff(env.self, env.wallets, info.sender, msg.assets, PULL_ERRORS);
    assert NextRaffle(s) !in s.raffles;
    var out := Step(draw, env, s, info, msg);
    if out.Ok? {
      assert CreateDid(env, s, out.value.0, out.value.1, info.sender, msg, NextRaffle(s));
    }
  }

  /** The state a raffle shows is neither cancelled nor claimed, and its times can be counted as far
      as the block has come. */
  predicate Cancellable(time: nat, a: Raffle) {
    !a.isCancelled
    && (time < a.options.start || time < ClosesAt(a) < U64_LIMIT
        || (EndsAt(a) < U64_LIMIT && !(IsOver(time, a) && a.winner.Some?)))
  }

  lemma {:induction false} CancellableIs(time: nat, a: Raffle)
    ensures Cancellable(time, a)
       <==> StateAt(time, a).Ok? && StateAt(time, a).value != Cancelled && StateAt(time, a).value != Claimed
  {
    assert EndsAt(a) == Ending(a.options);
  }

  /** Its owner cancels a raffle before the first ticket, and is sent what is raffled. */
  lemma {:induction false} CancellingIs(draw: Seed -> U32, env: Env, s: Store, info: Info, r: nat)
    requires Inv(s)
    ensures var out := Step(draw, env, s, info, CancelRaffleMsg(r));
            && (out.Ok? <==> r in s.raffles && info.sender == s.raffles[r].owner && s.raffles[r].tickets == 0
                             && Cancellable(env.time, s.raffles[r]))
            && (out.Ok? ==> out == Ok((s.(raffles := s.raffles[r := s.raffles[r].(isCancelled := true)]),
                                       Sends(env.self, info.sender, s.raffles[r].assets))))
  {
    if r in s.raffles {
      assert Shape(s.raffles[r]);
      CancellableIs(env.time, s.raffles[r]);
    }
  }

  /** Its owner changes price and options before the first ticket. */
  lemma {:induction false} ModifyingIs(draw: Seed -> U32, env: Env, s: Store, info: Info, r: nat, newPrice: Option<Asset>, options: OptionsMsg)
    ensures var out := Step(draw, env, s, info, ModifyRaffleMsg(r, newPrice, options));
            && (out.Ok? <==> r in s.raffles && info.sender == s.raffles[r].owner && s.raffles[r].tickets == 0)
            && (out.Ok? ==>
                  var a := s.raffles[r];
                  out == Ok((s.(raffles := s.raffles[r := a.(price := if newPrice.Some? then newPrice.value else a.price,
                                                             options := ModifiedOptions(a.options, options, s.config))]), [])))
  {
  }

  /** Why one is not created, cancelled or modified: the lock, nothing to raffle, no such raffle, not the
      sender's, tickets sold, or its state. */
  lemma {:induction false} SetupRefused(draw: Seed -> U32, env: Env, s: Store, info: Info, msg: ExecuteMsg)
    requires Inv(s)
    ensures msg.CreateRaffleMsg? ==>
              && (s.config.lock ==> Step(draw, env, s, info, msg) == Err(ContractIsLocked))
              && (!s.config.lock && msg.assets == [] ==> Step(draw, env, s, info, msg) == Err(NoAssets))
    ensures msg.CancelRaffleMsg? || msg.ModifyRaffleMsg? ==>
              var out := Step(draw, env, s, info, msg);
              if msg.raffleId !in s.raffles then out == Err(Std)
              else var a := s.raffles[msg.raffleId];
                   if info.sender != a.owner then out == Err(Unauthorized)
                   else if msg.ModifyRaffleMsg? || Cancellable(env.time, a) then a.tickets > 0 ==> out == Err(RaffleAlreadyStarted)
                   else out == (match StateAt(env.time, a) case Ok(st) => Err(WrongStateForCancel(st)) case Err(e) => Err(e))
    ensures forall r, time: nat :: r in s.raffles && StateAt(time, s.raffles[r]).Err? ==> StateAt(time, s.raffles[r]) == Err(Panic)
  {
    if msg.CancelRaffleMsg? && msg.raffleId in s.raffles {
      CancellableIs(env.time, s.raffles[msg.raffleId]);
      assert Shape(s.raffles[msg.raffleId]);
    }
  }

  // ----- Buying

  /** `sent` is the price of `n` tickets. */
  predicate Pays(a: Raffle, n: nat, sent: Asset) {
    match a.price
    case Native(coin) => sent == Native(Coin(coin.denom, n * coin.amount))
    case Cw20(token, each) => sent == Cw20(token, n * each)
    case _ => false
  }

  function Entries(s: Store, user: Addr, r: nat): nat {
    LookupOr(s.userTickets, (user, r), 0)
  }

  predicate Within(cap: Option<nat>, n: nat) {
    n < U32_LIMIT && (cap.Some? ==> n <= cap.value)
  }

  /** The raffle is open, the price is right, and both caps leave room. */
  predicate Buyable(s: Store, time: nat, user: Addr, r: nat, n: U32, sent: Asset) {
    r in s.raffles &&
    var a := s.raffles[r];
    && IsOpen(time, a) && Pays(a, n, sent)
    && Within(a.options.maxPerAddress, Entries(s, user, r) + n)
    && Within(a.options.maxParticipants, a.tickets + n)
  }

  /** The next `n` ticket numbers are the user's, who has `n` entries more. */
  ghost predicate Bought(s: Store, s1: Store, user: Addr, r: nat, n: nat)
    requires r in s.raffles
  {
    var a := s.raffles[r];
    && r in s1.raffles
    && s1 == s.(raffles := s.raffles[r := s1.raffles[r]], ticketOwner := s1.ticketOwner, userTickets := s1.userTickets)
    && s1.raffles[r] == a.(tickets := s1.raffles[r].tickets) && s1.raffles[r].tickets == a.tickets + n
    && s1.userTickets == s.userTickets[(user, r) := Entries(s, user, r) + n]
    && (forall q: nat, i: nat :: Lookup(s1.ticketOwner, (q, i))
                                 == if q == r && a.tickets <= i < a.tickets + n then Some(user) else Lookup(s.ticketOwner, (q, i)))
  }

  lemma {:induction false} PurchaseIs(s: Store, time: nat, user: Addr, r: nat, n: U32, sent: Asset)
    ensures BuyTickets(s, time, user, r, n, sent).Ok? <==> Buyable(s, time, user, r, n, sent)
    ensures BuyTickets(s, time, user, r, n, sent).Ok? ==> Bought(s, BuyTickets(s, time, user, r, n, sent).value, user, r, n)
  {
    if r in s.raffles {
      TimesAre(time, s.raffles[r]);
      var a := s.raffles[r];
      forall q: nat, i: nat
        ensures Lookup(WriteTickets(s.ticketOwner, r, a.tickets, n, user), (q, i))
             == if q == r && a.tickets <= i < a.tickets + n then Some(user) else Lookup(s.ticketOwner, (q, i))
      {
        Written(s.ticketOwner, r, a.tickets, n, user, (q, i));
      }
    }
  }

  /** Bought directly: the coins announced are the coins sent, unless they are none. */
  lemma {:induction false} BuyingIs(draw: Seed -> U32, env: Env, s: Store, info: Info, r: nat, n: U32, sent: Asset)
    ensures var out := Step(draw, env, s, info, BuyTicketMsg(r, n, sent));
            && (out.Ok? <==> Buyable(s, env.time, info.sender, r, n, sent)
                             && (sent.Native? && sent.coin.amount != 0 ==> info.funds == [sent.coin]))
            && (!sent.Native? && !sent.Cw20? ==> out == Err(WrongAssetType))
            && (sent.Native? && sent.coin.amount != 0 && info.funds != [sent.coin] ==> out == Err(AssetMismatch))
            && (out.Ok? ==> r in s.raffles && Bought(s, out.value.0, info.sender, r, n)
                            && out.value.1 == if sent.Cw20? then [Transfer(env.self, env.self, sent)] else [])
  {
    PurchaseIs(s, env.time, info.sender, r, n, sent);
  }

  /** Bought with tokens sent: the tokens announced are the tokens that came, from the token contract
      that sends the message, and the tickets are the sender's of those. */
  lemma {:induction false} ReceivingIs(draw: Seed -> U32, env: Env, s: Store, info: Info, from: Addr, amount: nat, inner: ExecuteMsg)
    ensures var out := Step(draw, env, s, info, ReceiveMsg(from, amount, inner));
            && (out.Ok? <==> inner.BuyTicketMsg? && inner.sentAssets == Cw20(info.sender, amount)
                             && Buyable(s, env.time, from, inner.raffleId, inner.ticketNumber, inner.sentAssets))
            && (!inner.BuyTicketMsg? ==> out == Err(Unauthorized))
            && (inner.BuyTicketMsg? && inner.sentAssets != Cw20(info.sender, amount) ==> out == Err(AssetMismatch))
            && (out.Ok? ==> inner.raffleId in s.raffles && Bought(s, out.value.0, from, inner.raffleId, inner.ticketNumber)
                            && out.value.1 == [])
  {
    if inner.BuyTicketMsg? {
      PurchaseIs(s, env.time, from, inner.raffleId, inner.ticketNumber, inner.sentAssets);
    }
  }

  /** Why a purchase is refused: no such raffle, a price nobody can pay, the wrong amount, not the
      time, or no room left for the user or for anybody. */
  lemma {:induction false} PurchaseRefused(s: Store, time: nat, user: Addr, r: nat, n: U32, sent: Asset)
    ensures var out := BuyTickets(s, time, user, r, n, sent);
            if r !in s.raffles then out == Err(Std)
            else var a := s.raffles[r];
                 var (perUser, all) := (a.options.maxPerAddress, a.options.maxParticipants);
                 var (mine, sold) := (Entries(s, user, r) + n, a.tickets + n);
                 if !a.price.Native? && !a.price.Cw20? then out == Err(WrongAssetType)
                 else if !Pays(a, n, sent) then out == Err(PaiementNotSufficient(a.price, sent))
                 else if !IsOpen(time, a) then out == Err(if StateAt(time, a).Err? then Panic else CantBuyTickets)
                 else if perUser.Some? && perUser.value < mine < U32_LIMIT then
                   out == Err(TooMuchTicketsForUser(perUser.value, Entries(s, user, r), mine))
                 else if all.Some? && all.value < sold < U32_LIMIT && (perUser.Some? ==> mine <= perUser.value && mine < U32_LIMIT) then
                   out == Err(TooMuchTickets(all.value, a.tickets, sold))
                 else out.Err? ==> out == Err(Panic)
  {
    if r in s.raffles {
      TimesAre(time, s.raffles[r]);
    }
  }

  // ----- Drawing and claiming

  /** A round is taken while the raffle is drawn, later rounds only, and stored as it came. */
  lemma {:induction false} RoundIs(draw: Seed -> U32, env: Env, s: Store, info: Info, r: nat, round: nat, seed: Seed)
    ensures var out := Step(draw, env, s, info, UpdateRandomnessMsg(r, round, seed));
            && (out.Ok? <==> r in s.raffles && IsDrawn(env.time, s.raffles[r])
                             && (s.raffles[r].randomness.Some? ==> round > s.raffles[r].randomness.value.round))
            && (out.Ok? ==> out == Ok((s.(raffles := s.raffles[r := s.raffles[r].(randomness := Some(Randomness(seed, round, info.sender)))]), [])))
  {
    if r in s.raffles {
      TimesAre(env.time, s.raffles[r]);
    }
  }

  /** The owner of the ticket drawn, counting the seed's first word round the tickets; without
      tickets the raffle's owner. */
  ghost predicate Wins(draw: Seed -> U32, s: Store, r: nat, who: Addr)
    requires r in s.raffles && s.raffles[r].randomness.Some?
  {
    var a := s.raffles[r];
    if a.tickets == 0 then who == a.owner
    else Lookup(s.ticketOwner, (r, draw(a.randomness.value.seed) % a.tickets)) == Some(who)
  }

  lemma {:induction false} WinnerIs(draw: Seed -> U32, s: Store, r: nat)
    requires Inv(s) && r in s.raffles && s.raffles[r].randomness.Some? && s.raffles[r].tickets > 0
    ensures Winner(draw, s, r, s.raffles[r]).Ok? && Wins(draw, s, r, Winner(draw, s, r, s.raffles[r]).value)
  {
    WinnerHoldsTicket(draw, s, r);
  }

  lemma {:induction false} TakingsSplit(self: Addr, s: Store, a: Raffle)
    requires FeesOk(s.config) && a.randomness.Some?
    ensures OwnerMessages(self, s, a).Ok? <==> a.price.Native? || a.price.Cw20?
  {
    SplitSums(a.price.Quantity() * a.tickets, s.config);
  }

  /** Anybody claims a raffle that is over and has no winner yet, if its price is one that can be
      paid out; the winner is the one drawn, and is stored. */
  lemma {:induction false} ClaimingIs(draw: Seed -> U32, env: Env, s: Store, info: Info, r: nat)
    requires Inv(s)
    ensures var out := Step(draw, env, s, info, ClaimMsg(r));
            && (out.Ok? <==> r in s.raffles && IsOver(env.time, s.raffles[r]) && s.raffles[r].winner.None?
                             && (s.raffles[r].price.Native? || s.raffles[r].price.Cw20?))
            && (out.Ok? ==>
                  var s1 := out.value.0;
                  && r in s1.raffles && s1.raffles[r].winner.Some? && Wins(draw, s, r, s1.raffles[r].winner.value)
                  && s1 == s.(raffles := s.raffles[r := s.raffles[r].(winner := s1.raffles[r].winner)]))
  {
    if r in s.raffles {
      TimesAre(env.time, s.raffles[r]);
      assert Shape(s.raffles[r]);
      if s.raffles[r].randomness.Some? {
        TakingsSplit(env.self, s, s.raffles[r]);
        if s.raffles[r].tickets > 0 {
          WinnerIs(draw, s, r);
        }
      }
    }
  }

  /** Why a raffle that is there is not drawn or claimed: its state, or a round not later. */
  lemma {:induction false} OutcomeRefused(draw: Seed -> U32, env: Env, s: Store, info: Info, r: nat, round: nat, seed: Seed)
    requires Inv(s)
    ensures var out := Step(draw, env, s, info, UpdateRandomnessMsg(r, round, seed));
            if r !in s.raffles then out == Err(Std)
            else if !IsDrawn(env.time, s.raffles[r]) then
              out == (match StateAt(env.time, s.raffles[r]) case Ok(st) => Err(WrongStateForRandomness(st)) case Err(e) => Err(e))
            else out.Err? ==> s.raffles[r].randomness.Some? && out == Err(RandomnessNotAccepted(s.raffles[r].randomness.value.round))
    ensures var out := Step(draw, env, s, info, ClaimMsg(r));
            if r !in s.raffles then out == Err(Std)
            else if !IsOver(env.time, s.raffles[r]) || s.raffles[r].winner.Some? then
              out == (match StateAt(env.time, s.raffles[r]) case Ok(st) => Err(WrongStateForClaim(st)) case Err(e) => Err(e))
            else out.Err? ==> out == Err(WrongFundsType)
  {
    if r in s.raffles {
      TimesAre(env.time, s.raffles[r]);
      ClaimingIs(draw, env, s, info, r);
      assert Shape(s.raffles[r]);
    }
  }

  // ----- Administration

  /** The lock is the owner's. */
  lemma {:induction false} LockingIs(draw: Seed -> U32, env: Env, s: Store, info: Info, lock: bool)
    ensures Step(draw, env, s, info, ToggleLockMsg(lock))
         == if info.sender == s.config.owner then Ok((s.(config := s.config.(lock := lock)), [])) else Err(Unauthorized)
  {
  }

  function AtLeast(x: nat, least: nat): nat {
    if x < least then least else x
  }

  /** The settings a parameter message asks for, raised to the minima. */
  function Asked(config: Config, p: Parameter): Config
    requires !p.UnknownParameter?
  {
    match p
    case FeeAddr(a) => config.(feeAddr := a)
    case MinimumDuration(t) => config.(minimumDuration := AtLeast(t, 1))
    case MinimumTimeout(t) => config.(minimumTimeout := AtLeast(t, 120))
    case RaffleFee(fee) => config.(raffleFee := fee)
    case RandFee(fee) => config.(randFee := AtLeast(fee, 100_000_000_000_000))
  }

  /** So are the parameters, as long as both fees together stay below the whole. */
  lemma {:induction false} ParametersAre(draw: Seed -> U32, env: Env, s: Store, info: Info, p: Parameter)
    ensures Step(draw, env, s, info, ChangeParameterMsg(p))
         == if info.sender != s.config.owner then Err(Unauthorized)
            else if p.UnknownParameter? then Err(ParameterNotFound)
            else if Asked(s.config, p).raffleFee + Asked(s.config, p).randFee >= ONE then Err(Std)
            else Ok((s.(config := Asked(s.config, p)), []))
  {
  }
}

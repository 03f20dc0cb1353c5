/** The raffle contract as it runs: its random generator, its ticket-saving loop, and its
    records reassigned handler by handler, each proved to make the step Raffles gives. */
module RafflesContract {
  import opened Base
  import opened Ledger
  import opened Nfts
  import opened Raffles

  /** The handler answered as specified; a failed handler's writes are the chain's to drop. */
  ghost predicate Matches(spec: Outcome, r: Result<seq<Transfer>, Error>, after: Store) {
    match spec
    case Ok((s, messages)) => r == Ok(messages) && after == s
    case Err(e) => r == Err(e)
  }

  /** The generator: `word` stands for the cipher stream of each seed, read at a position. */
  class Prng {
    const word: (Seed, nat) -> U32
    const seed: Seed
    var pos: nat

    constructor (word: (Seed, nat) -> U32, seed: Seed)
      ensures this.word == word && this.seed == seed && pos == 0
    {
      this.word, this.seed, pos := word, seed, 0;
    }

    method RandU32() returns (x: U32)
      modifies this
      ensures x == word(seed, old(pos)) && pos == old(pos) + 8
    {
      x := word(seed, pos);
      pos := pos + 8;
    }

    /** An inclusive range; the range of all 32-bit numbers overflows its own length. */
    method RandomBetween(from: U32, to: U32) returns (r: Result<nat, Error>)
      modifies this
      ensures from > to ==> r == Ok(0) && pos == old(pos)
      ensures from <= to && to - from + 1 < U32_LIMIT ==> r == Ok(Between(word(seed, old(pos)), from, to)) && from <= r.value <= to
      ensures from <= to ==> pos == old(pos) + 8 && (r.Ok? <==> to - from + 1 < U32_LIMIT)
    {
      if from > to {
        return Ok(0);
      }
      var x := RandU32();
      if to - from + 1 >= U32_LIMIT {
        return Err(Panic);
      }
      var interval := to - from + 1;
      return Ok(from + x % interval);
    }
  }

  class Contract {
    const self: Addr
    const word: (Seed, nat) -> U32
    var config: Config
    var raffles: map<nat, Raffle>
    var ticketOwner: map<(nat, nat), Addr>
    var userTickets: map<(Addr, nat), nat>

    function Stored(): Store
      reads this
    {
      Store(config, raffles, ticketOwner, userTickets)
    }

    /** The generator's first word for a seed. */
    function Draw(): Seed -> U32 {
      seed => word(seed, 0)
    }

    constructor (self: Addr, word: (Seed, nat) -> U32, config: Config)
      ensures this.self == self && this.word == word && Stored() == Store(config, map[], map[], map[])
    {
      this.self, this.word, this.config := self, word, config;
      raffles, ticketOwner, userTickets := map[], map[], map[];
    }

    method LoadAsOwner(id: nat, sender: Addr) returns (r: Result<Raffle, Error>)
      ensures r == IsRaffleOwner(Stored(), id, sender)
    {
      if id !in raffles {
        return Err(Std);
      }
      if raffles[id].owner != sender {
        return Err(Unauthorized);
      }
      return Ok(raffles[id]);
    }

    method Create(env: Env, sender: Addr, owner: Option<Addr>, assets: seq<Asset>, price: Asset, options: OptionsMsg)
      returns (r: Result<seq<Transfer>, Error>)
      modifies this
      ensures Matches(CreateRaffle(env, old(Stored()), sender, owner, assets, price, options), r, Stored())
    {
      if config.lock {
        return Err(ContractIsLocked);
      }
      if assets == [] {
        return Err(NoAssets);
      }
      var messages :- PullAll(env.self, env.wallets, sender, assets, PULL_ERRORS);
      var terms := config;
      var id := 0;
      if config.lastRaffleId.Some? {
        id := config.lastRaffleId.value + 1;
      }
      config := config.(lastRaffleId := Some(id));
      if id in raffles {
        return Err(ExistsInRaffleInfo);
      }
      raffles := raffles[id := Raffle(Or(owner, sender), assets, price, 0, None, None, false,
                                      NewOptions(env.time, options, terms))];
      return Ok(messages);
    }

    method Cancel(env: Env, sender: Addr, id: nat) returns (r: Result<seq<Transfer>, Error>)
      modifies this
      ensures Matches(CancelRaffle(env, old(Stored()), sender, id), r, Stored())
    {
      var raffle :- LoadAsOwner(id, sender);
      var state :- StateAt(env.time, raffle);
      if state != Created && state != Started && state != Closed && state != Finished {
        return Err(WrongStateForCancel(state));
      }
      if raffle.tickets != 0 {
        return Err(RaffleAlreadyStarted);
      }
      raffle := raffle.(isCancelled := true);
      raffles := raffles[id := raffle];
      r := SendAll(env.self, raffle.owner, raffle.assets, Unreachable);
    }

    method Modify(sender: Addr, id: nat, newPrice: Option<Asset>, options: OptionsMsg) returns (r: Result<seq<Transfer>, Error>)
      modifies this
      ensures Matches(ModifyRaffle(old(Stored()), sender, id, newPrice, options), r, Stored())
    {
      var raffle :- LoadAsOwner(id, sender);
      if raffle.tickets != 0 {
        return Err(RaffleAlreadyStarted);
      }
      raffle := raffle.(options := ModifiedOptions(raffle.options, options, config));
      if newPrice.Some? {
        raffle := raffle.(price := newPrice.value);
      }
      raffles := raffles[id := raffle];
      return Ok([]);
    }

    /** Saves a buyer under `n` new ticket numbers and counts them. */
    method RawBuy(time: nat, user: Addr, id: nat, n: U32, sent: Asset) returns (r: Result<(), Error>)
      modifies this
      ensures match BuyTickets(old(Stored()), time, user, id, n, sent)
              case Ok(s) => r == Ok(()) && Stored() == s
              case Err(e) => r == Err(e)
    {
      if id !in raffles {
        return Err(Std);
      }
      var raffle := raffles[id];
      var cost :- TicketCost(raffle, n);
      if cost != sent {
        return Err(PaiementNotSufficient(raffle.price, sent));
      }
      var state :- StateAt(time, raffle);
      if state != Started {
        return Err(CantBuyTickets);
      }
      var before := LookupOr(userTickets, (user, id), 0);
      if raffle.options.maxPerAddress.Some? {
        if before + n >= U32_LIMIT {
          return Err(Panic);
        }
        if before + n > raffle.options.maxPerAddress.value {
          return Err(TooMuchTicketsForUser(raffle.options.maxPerAddress.value, before, before + n));
        }
      }
      if raffle.options.maxParticipants.Some? {
        if raffle.tickets + n >= U32_LIMIT {
          return Err(Panic);
        }
        if raffle.tickets + n > raffle.options.maxParticipants.value {
          return Err(TooMuchTickets(raffle.options.maxParticipants.value, raffle.tickets, raffle.tickets + n));
        }
      }
      if raffle.tickets + n >= U32_LIMIT || before + n >= U32_LIMIT {
        return Err(Panic);
      }
      for i := 0 to n
        invariant WriteTickets(ticketOwner, id, raffle.tickets + i, n - i, user)
               == WriteTickets(old(ticketOwner), id, raffle.tickets, n, user)
        invariant raffles == old(raffles) && userTickets == old(userTickets) && config == old(config)
      {
        ticketOwner := ticketOwner[(id, raffle.tickets + i) := user];
      }
      userTickets := userTickets[(user, id) := before + n];
      raffle := raffle.(tickets := raffle.tickets + n);
      raffles := raffles[id := raffle];
      return Ok(());
    }

    method Buy(env: Env, info: Info, id: nat, n: U32, sent: Asset) returns (r: Result<seq<Transfer>, Error>)
      modifies this
      ensures Matches(BuyTicket(env, old(Stored()), info, id, n, sent), r, Stored())
    {
      var messages: seq<Transfer> := [];
      match sent {
        case Cw20(_, _) => messages := [Transfer(env.self, env.self, sent)];
        case Native(coin) =>
          if coin.amount != 0 && (|info.funds| != 1 || info.funds[0] != coin) {
            return Err(AssetMismatch);
          }
        case _ => return Err(WrongAssetType);
      }
      var _ :- RawBuy(env.time, info.sender, id, n, sent);
      return Ok(messages);
    }

    method OnReceive(env: Env, info: Info, from: Addr, amount: nat, inner: ExecuteMsg) returns (r: Result<seq<Transfer>, Error>)
      modifies this
      ensures Matches(Receive(env, old(Stored()), info, from, amount, inner), r, Stored())
    {
      if !inner.BuyTicketMsg? {
        return Err(Unauthorized);
      }
      if !inner.sentAssets.Cw20? {
        return Err(AssetMismatch);
      }
      if inner.sentAssets.address != info.sender || inner.sentAssets.amount != amount {
        return Err(AssetMismatch);
      }
      var _ :- RawBuy(env.time, from, inner.raffleId, inner.ticketNumber, inner.sentAssets);
      return Ok([]);
    }

    method Randomize(time: nat, sender: Addr, id: nat, round: nat, seed: Seed) returns (r: Result<seq<Transfer>, Error>)
      modifies this
      ensures Matches(UpdateRandomness(old(Stored()), time, sender, id, round, seed), r, Stored())
    {
      if id !in raffles {
        return Err(Std);
      }
      var raffle := raffles[id];
      var state :- StateAt(time, raffle);
      if state != Closed {
        return Err(WrongStateForRandomness(state));
      }
      if raffle.randomness.Some? && round <= raffle.randomness.value.round {
        return Err(RandomnessNotAccepted(raffle.randomness.value.round));
      }
      raffle := raffle.(randomness := Some(Randomness(seed, round, sender)));
      raffles := raffles[id := raffle];
      return Ok([]);
    }

    /** Picks the winning ticket with the generator and looks up its owner. */
    method PickWinner(id: nat, raffle: Raffle) returns (r: Result<Addr, Error>)
      requires raffle.tickets > 0
      ensures r == Winner(Draw(), Stored(), id, raffle)
    {
      if raffle.randomness.None? {
        return Err(WrongStateForClaim(Closed));
      }
      var rng := new Prng(word, raffle.randomness.value.seed);
      var picked := rng.RandomBetween(0, raffle.tickets - 1);
      var ticket := picked.value;
      if (id, ticket) !in ticketOwner {
        return Err(Std);
      }
      return Ok(ticketOwner[(id, ticket)]);
    }

    method SendShares(price: Asset, provider: Addr, owner: Addr, shares: Shares) returns (messages: seq<Transfer>)
      requires price.Native? || price.Cw20?
      ensures messages == SendSome(self, provider, Amount(price, shares.rand)) + SendSome(self, config.feeAddr, Amount(price, shares.treasury))
                          + SendSome(self, owner, Amount(price, shares.owner))
    {
      messages := [];
      if shares.rand != 0 {
        messages := messages + [Transfer(self, provider, Amount(price, shares.rand))];
      }
      assert messages == SendSome(self, provider, Amount(price, shares.rand));
      if shares.treasury != 0 {
        messages := messages + [Transfer(self, config.feeAddr, Amount(price, shares.treasury))];
      }
      assert messages == SendSome(self, provider, Amount(price, shares.rand)) + SendSome(self, config.feeAddr, Amount(price, shares.treasury));
      if shares.owner != 0 {
        messages := messages + [Transfer(self, owner, Amount(price, shares.owner))];
      }
    }

    method PayTakings(raffle: Raffle) returns (r: Result<seq<Transfer>, Error>)
      ensures r == OwnerMessages(self, Stored(), raffle)
    {
      if !raffle.price.Native? && !raffle.price.Cw20? {
        return Err(WrongFundsType);
      }
      var shares :- Split(raffle.price.Quantity() * raffle.tickets, config);
      if shares.rand != 0 && raffle.randomness.None? {
        return Err(Panic);
      }
      var provider := if raffle.randomness.Some? then raffle.randomness.value.owner else "";
      var messages := SendShares(raffle.price, provider, raffle.owner, shares);
      return Ok(messages);
    }

    method ClaimRaffle(env: Env, id: nat) returns (r: Result<seq<Transfer>, Error>)
      requires env.self == self
      modifies this
      ensures Matches(Claim(Draw(), env, old(Stored()), id), r, Stored())
    {
      if id !in raffles {
        return Err(Std);
      }
      var raffle := raffles[id];
      var state :- StateAt(env.time, raffle);
      if state != Finished {
        return Err(WrongStateForClaim(state));
      }
      var winner := raffle.owner;
      if raffle.tickets != 0 {
        winner :- PickWinner(id, raffle);
      }
      raffle := raffle.(winner := Some(winner));
      raffles := raffles[id := raffle];
      var back :- SendAll(self, winner, raffle.assets, Unreachable);
      var pay :- PayTakings(raffle);
      return Ok(back + pay);
    }

    method Lock(sender: Addr, lock: bool) returns (r: Result<seq<Transfer>, Error>)
      modifies this
      ensures Matches(ToggleLock(old(Stored()), sender, lock), r, Stored())
    {
      if sender != config.owner {
        return Err(Unauthorized);
      }
      config := config.(lock := lock);
      return Ok([]);
    }

    method Change(sender: Addr, parameter: Parameter) returns (r: Result<seq<Transfer>, Error>)
      modifies this
      ensures Matches(ChangeParameter(old(Stored()), sender, parameter), r, Stored())
    {
      if sender != config.owner {
        return Err(Unauthorized);
      }
      var changed := config;
      match parameter {
        case FeeAddr(a) => changed := changed.(feeAddr := a);
        case MinimumDuration(t) => changed := changed.(minimumDuration := Max(t, MINIMUM_RAFFLE_DURATION));
        case MinimumTimeout(t) => changed := changed.(minimumTimeout := Max(t, MINIMUM_RAFFLE_TIMEOUT));
        case RaffleFee(fee) => changed := changed.(raffleFee := fee);
        case RandFee(fee) => changed := changed.(randFee := Max(fee, MINIMUM_RAND_FEE));
        case UnknownParameter => return Err(ParameterNotFound);
      }
      if !ValidFees(changed) {
        return Err(Std);
      }
      config := changed;
      return Ok([]);
    }

    method Dispatch(env: Env, info: Info, msg: ExecuteMsg) returns (r: Result<seq<Transfer>, Error>)
      requires env.self == self
      modifies this
      ensures Matches(Step(Draw(), env, old(Stored()), info, msg), r, Stored())
    {
      match msg {
        case CreateRaffleMsg(owner, assets, price, options) => r := Create(env, info.sender, owner, assets, price, options);
        case CancelRaffleMsg(id) => r := Cancel(env, info.sender, id);
        case ModifyRaffleMsg(id, newPrice, options) => r := Modify(info.sender, id, newPrice, options);
        case BuyTicketMsg(id, n, sent) => r := Buy(env, info, id, n, sent);
        case ReceiveMsg(from, amount, inner) => r := OnReceive(env, info, from, amount, inner);
        case ClaimMsg(id) => r := ClaimRaffle(env, id);
        case UpdateRandomnessMsg(id, round, seed) => r := Randomize(env.time, info.sender, id, round, seed);
        case ToggleLockMsg(lock) => r := Lock(info.sender, lock);
        case ChangeParameterMsg(parameter) => r := Change(info.sender, parameter);
      }
    }

    /** One message: the chain keeps a failed handler's writes from being seen. */
    method Execute(env: Env, info: Info, msg: ExecuteMsg) returns (r: Result<seq<Transfer>, Error>)
      requires env.self == self
      modifies this
      ensures Matches(Step(Draw(), env, old(Stored()), info, msg), r, Stored())
      ensures r.Err? ==> Stored() == old(Stored())
    {
      var before := Stored();
      r := Dispatch(env, info, msg);
      if r.Err? {
        config, raffles, ticketOwner, userTickets := before.config, before.raffles, before.ticketOwner, before.userTickets;
      }
    }
  }
}

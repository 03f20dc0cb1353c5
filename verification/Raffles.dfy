/** The raffle contract: what each message does to its records (contracts/raffles/src).

    Times count nanoseconds, as the chain's timestamps do; a raffle's state is derived from
    the block time on every use. */
module Raffles {
  import opened Base
  import opened Ledger
  import opened Nfts

  const ONE: nat := 1_000_000_000_000_000_000
  const SECOND: nat := 1_000_000_000
  const U32_LIMIT: nat := 0x1_0000_0000
  const U64_LIMIT: nat := 0x1_0000_0000_0000_0000
  const MINIMUM_RAFFLE_DURATION: nat := 1
  const MINIMUM_RAFFLE_TIMEOUT: nat := 120
  const MINIMUM_RAND_FEE: nat := ONE / 10_000

  type U32 = x: nat | x < U32_LIMIT

  /** The 32 bytes a randomness round yields. */
  type Seed = string

  datatype Randomness = Randomness(seed: Seed, round: nat, owner: Addr)

  datatype RaffleState = Created | Started | Closed | Finished | Claimed | Cancelled

  datatype Options = Options(
    start: nat,
    duration: nat,
    timeout: nat,
    maxParticipants: Option<nat>,
    maxPerAddress: Option<nat>)

  datatype OptionsMsg = OptionsMsg(
    start: Option<nat>,
    duration: Option<nat>,
    timeout: Option<nat>,
    maxParticipants: Option<nat>,
    maxPerAddress: Option<nat>)

  datatype Raffle = Raffle(
    owner: Addr,
    assets: seq<Asset>,
    price: Asset,
    tickets: U32,
    randomness: Option<Randomness>,
    winner: Option<Addr>,
    isCancelled: bool,
    options: Options)

  datatype Config = Config(
    owner: Addr,
    feeAddr: Addr,
    lastRaffleId: Option<nat>,
    minimumDuration: nat,
    minimumTimeout: nat,
    raffleFee: nat,
    randFee: nat,
    lock: bool)

  /** `ticketOwner` is RAFFLE_TICKETS, `userTickets` is USER_TICKETS. */
  datatype Store = Store(
    config: Config,
    raffles: map<nat, Raffle>,
    ticketOwner: map<(nat, nat), Addr>,
    userTickets: map<(Addr, nat), nat>)

  datatype Error =
    | Std
    | Panic
    | Unauthorized
    | Unreachable
    | SenderNotOwner
    | ContractIsLocked
    | ExistsInRaffleInfo
    | NotFoundInRaffleInfo
    | CantBuyTickets
    | WrongAssetType
    | WrongFundsType
    | AssetMismatch
    | NoAssets
    | PaiementNotSufficient(wanted: Asset, received: Asset)
    | TooMuchTickets(max: nat, before: nat, after: nat)
    | TooMuchTicketsForUser(max: nat, before: nat, after: nat)
    | RandomnessNotAccepted(currentRound: nat)
    | WrongStateForRandomness(status: RaffleState)
    | WrongStateForClaim(status: RaffleState)
    | WrongStateForCancel(status: RaffleState)
    | RaffleAlreadyStarted
    | ParameterNotFound

  datatype Parameter =
    | FeeAddr(address: Addr)
    | MinimumDuration(seconds: nat)
    | MinimumTimeout(seconds: nat)
    | RaffleFee(fee: nat)
    | RandFee(fee: nat)
    | UnknownParameter

  datatype ExecuteMsg =
    | CreateRaffleMsg(owner: Option<Addr>, assets: seq<Asset>, price: Asset, options: OptionsMsg)
    | CancelRaffleMsg(raffleId: nat)
    | ModifyRaffleMsg(raffleId: nat, newPrice: Option<Asset>, options: OptionsMsg)
    | BuyTicketMsg(raffleId: nat, ticketNumber: U32, sentAssets: Asset)
    | ReceiveMsg(from: Addr, amount: nat, inner: ExecuteMsg)
    | ClaimMsg(raffleId: nat)
    | UpdateRandomnessMsg(raffleId: nat, round: nat, seed: Seed)
    | ToggleLockMsg(lock: bool)
    | ChangeParameterMsg(parameter: Parameter)

  datatype Env = Env(self: Addr, time: nat, wallets: Wallets)

  type Outcome = Result<(Store, seq<Transfer>), Error>

  function Quiet(s: Store): Outcome { Ok((s, [])) }

  function Max(a: nat, b: nat): nat {
    if a < b then b else a
  }

  function OrElse<T>(a: Option<T>, b: Option<T>): Option<T> {
    if a.Some? then a else b
  }

  // ----- Options (packages/raffles/src/state.rs)

  /** What is asked for is granted from the minima up; anything less, and what is not asked
      for, becomes the minimum. There are no caps but those asked for. */
  function NewOptions(time: nat, msg: OptionsMsg, config: Config): (o: Options)
    ensures o.start >= time && o.duration >= config.minimumDuration && o.timeout >= config.minimumTimeout
    ensures if msg.start.Some? && msg.start.value >= time then msg.start == Some(o.start) else o.start == time
    ensures if msg.duration.Some? && msg.duration.value >= config.minimumDuration then msg.duration == Some(o.duration)
            else o.duration == config.minimumDuration
    ensures if msg.timeout.Some? && msg.timeout.value >= config.minimumTimeout then msg.timeout == Some(o.timeout)
            else o.timeout == config.minimumTimeout
    ensures o.maxParticipants == msg.maxParticipants && o.maxPerAddress == msg.maxPerAddress
  {
    Options(Max(Or(msg.start, time), time),
            Max(Or(msg.duration, config.minimumDuration), config.minimumDuration),
            Max(Or(msg.timeout, config.minimumTimeout), config.minimumTimeout),
            msg.maxParticipants, msg.maxPerAddress)
  }

  /** A start is only ever put off; durations, timeouts and caps become what is asked for, or stay,
      within the minima. */
  function ModifiedOptions(current: Options, msg: OptionsMsg, config: Config): (o: Options)
    ensures o.start >= current.start && o.duration >= config.minimumDuration && o.timeout >= config.minimumTimeout
    ensures if msg.start.Some? && msg.start.value >= current.start then msg.start == Some(o.start) else o.start == current.start
    ensures var asked := if msg.duration.Some? then msg.duration.value else current.duration;
            o.duration == if asked >= config.minimumDuration then asked else config.minimumDuration
    ensures var asked := if msg.timeout.Some? then msg.timeout.value else current.timeout;
            o.timeout == if asked >= config.minimumTimeout then asked else config.minimumTimeout
    ensures o.maxParticipants == if msg.maxParticipants.Some? then msg.maxParticipants else current.maxParticipants
    ensures o.maxPerAddress == if msg.maxPerAddress.Some? then msg.maxPerAddress else current.maxPerAddress
  {
    Options(Max(Or(msg.start, current.start), current.start),
            Max(Or(msg.duration, current.duration), config.minimumDuration),
            Max(Or(msg.timeout, current.timeout), config.minimumTimeout),
            OrElse(msg.maxParticipants, current.maxParticipants), OrElse(msg.maxPerAddress, current.maxPerAddress))
  }

  function ValidFees(config: Config): bool {
    config.raffleFee + config.randFee < ONE
  }

  // ----- Derived state and guards (state.rs)

  function Closing(o: Options): nat {
    o.start + o.duration * SECOND
  }

  function Ending(o: Options): nat {
    Closing(o) + o.timeout * SECOND
  }

  /** Adding seconds beyond the last timestamp aborts. */
  function StateAt(time: nat, raffle: Raffle): Result<RaffleState, Error> {
    var o := raffle.options;
    if raffle.isCancelled then Ok(Cancelled)
    else if time < o.start then Ok(Created)
    else if Closing(o) >= U64_LIMIT then Err(Panic)
    else if time < Closing(o) then Ok(Started)
    else if Ending(o) >= U64_LIMIT then Err(Panic)
    else if time < Ending(o) || raffle.randomness.None? then Ok(Closed)
    else if raffle.winner.None? then Ok(Finished)
    else Ok(Claimed)
  }

  function LoadRaffle(s: Store, r: nat): Result<Raffle, Error> {
    if r in s.raffles then Ok(s.raffles[r]) else Err(Std)
  }

  function IsRaffleOwner(s: Store, r: nat, sender: Addr): Result<Raffle, Error> {
    var raffle :- LoadRaffle(s, r);
    if sender == raffle.owner then Ok(raffle) else Err(Unauthorized)
  }

  function PutRaffle(s: Store, r: nat, raffle: Raffle): Store {
    s.(raffles := s.raffles[r := raffle])
  }

  /** The price of `n` tickets. */
  function TicketCost(raffle: Raffle, n: nat): Result<Asset, Error> {
    match raffle.price
    case Native(coin) => Ok(Native(Coin(coin.denom, n * coin.amount)))
    case Cw20(address, amount) => Ok(Cw20(address, n * amount))
    case _ => Err(WrongAssetType)
  }

  // ----- Raffles (execute.rs)

  const PULL_ERRORS: PullErrors<Error> := PullErrors(WrongAssetType, SenderNotOwner, Std)

  function CreateRaffle(env: Env, s: Store, sender: Addr, owner: Option<Addr>, assets: seq<Asset>, price: Asset,
                        options: OptionsMsg): Outcome {
    if s.config.lock then Err(ContractIsLocked)
    else if assets == [] then Err(NoAssets)
    else
      var pulls :- Pulls(env.self, env.wallets, sender, assets, PULL_ERRORS);
      var r := if s.config.lastRaffleId.Some? then s.config.lastRaffleId.value + 1 else 0;
      var s1 := s.(config := s.config.(lastRaffleId := Some(r)));
      if r in s.raffles then Err(ExistsInRaffleInfo)
      else
        var raffle := Raffle(Or(owner, sender), assets, price, 0, None, None, false, NewOptions(env.time, options, s.config));
        Ok((PutRaffle(s1, r, raffle), pulls))
  }

  function CancelRaffle(env: Env, s: Store, sender: Addr, r: nat): Outcome {
    var raffle :- IsRaffleOwner(s, r, sender);
    var state :- StateAt(env.time, raffle);
    if state == Cancelled || state == Claimed then Err(WrongStateForCancel(state))
    else if raffle.tickets != 0 then Err(RaffleAlreadyStarted)
    else
      var back :- SendsBack(env.self, raffle.owner, raffle.assets, Unreachable);
      Ok((PutRaffle(s, r, raffle.(isCancelled := true)), back))
  }

  function ModifyRaffle(s: Store, sender: Addr, r: nat, newPrice: Option<Asset>, options: OptionsMsg): Outcome {
    var raffle :- IsRaffleOwner(s, r, sender);
    if raffle.tickets != 0 then Err(RaffleAlreadyStarted)
    else
      Quiet(PutRaffle(s, r, raffle.(options := ModifiedOptions(raffle.options, options, s.config),
                                    price := Or(newPrice, raffle.price))))
  }

  /** `n` entries of the ticket book from `first` on, all to `user`. */
  function WriteTickets(book: map<(nat, nat), Addr>, r: nat, first: nat, n: nat, user: Addr): map<(nat, nat), Addr>
    decreases n
  {
    if n == 0 then book else WriteTickets(book[(r, first) := user], r, first + 1, n - 1, user)
  }

  function BuyTickets(s: Store, time: nat, user: Addr, r: nat, n: U32, sent: Asset): Result<Store, Error> {
    var raffle :- LoadRaffle(s, r);
    var cost :- TicketCost(raffle, n);
    if cost != sent then Err(PaiementNotSufficient(raffle.price, sent))
    else
      var state :- StateAt(time, raffle);
      if state != Started then Err(CantBuyTickets)
      else
        var before := LookupOr(s.userTickets, (user, r), 0);
        var perUser := raffle.options.maxPerAddress;
        var all := raffle.options.maxParticipants;
        if perUser.Some? && before + n >= U32_LIMIT then Err(Panic)
        else if perUser.Some? && before + n > perUser.value then Err(TooMuchTicketsForUser(perUser.value, before, before + n))
        else if all.Some? && raffle.tickets + n >= U32_LIMIT then Err(Panic)
        else if all.Some? && raffle.tickets + n > all.value then Err(TooMuchTickets(all.value, raffle.tickets, raffle.tickets + n))
        else if raffle.tickets + n >= U32_LIMIT || before + n >= U32_LIMIT then Err(Panic)
        else
          Ok(PutRaffle(s, r, raffle.(tickets := raffle.tickets + n))
             .(ticketOwner := WriteTickets(s.ticketOwner, r, raffle.tickets, n, user),
               userTickets := s.userTickets[(user, r) := before + n]))
  }

  /** Buying directly. In the cw20 branch the contract orders a transfer of its own tokens
      to itself. */
  function BuyTicket(env: Env, s: Store, info: Info, r: nat, n: U32, sent: Asset): Outcome {
    if !sent.Native? && !sent.Cw20? then Err(WrongAssetType)
    else if sent.Native? && sent.coin.amount != 0 && info.funds != [sent.coin] then Err(AssetMismatch)
    else
      var s1 :- BuyTickets(s, env.time, info.sender, r, n, sent);
      Ok((s1, if sent.Cw20? then [Transfer(env.self, env.self, sent)] else []))
  }

  /** Buying with a cw20 `Send`: `info.sender` is the token contract, which has already moved
      `amount` of its tokens from `from` here. */
  function Receive(env: Env, s: Store, info: Info, from: Addr, amount: nat, inner: ExecuteMsg): Outcome {
    if !inner.BuyTicketMsg? then Err(Unauthorized)
    else if inner.sentAssets != Cw20(info.sender, amount) then Err(AssetMismatch)
    else
      var s1 :- BuyTickets(s, env.time, from, inner.raffleId, inner.ticketNumber, inner.sentAssets);
      Quiet(s1)
  }

  /** The randomness contract accepts or rejects a round; when it accepts, the contract
      stores the round, its seed and the provider, in the same transaction. */
  function UpdateRandomness(s: Store, time: nat, sender: Addr, r: nat, round: nat, seed: Seed): Outcome {
    var raffle :- LoadRaffle(s, r);
    var state :- StateAt(time, raffle);
    if state != Closed then Err(WrongStateForRandomness(state))
    else if raffle.randomness.Some? && round <= raffle.randomness.value.round then
      Err(RandomnessNotAccepted(raffle.randomness.value.round))
    else Quiet(PutRaffle(s, r, raffle.(randomness := Some(Randomness(seed, round, sender)))))
  }

  // ----- Claiming

  /** `Prng::random_between`: an inclusive range, from one word of the generator. */
  function Between(word: U32, from: nat, to: nat): nat
    requires from <= to
  {
    from + word % (to - from + 1)
  }

  /** Who wins, given the generator's first word for each seed. */
  function Winner(draw: Seed -> U32, s: Store, r: nat, raffle: Raffle): Result<Addr, Error>
    requires raffle.tickets > 0
  {
    if raffle.randomness.None? then Err(WrongStateForClaim(Closed))
    else
      var ticket := Between(draw(raffle.randomness.value.seed), 0, raffle.tickets - 1);
      if (r, ticket) in s.ticketOwner then Ok(s.ticketOwner[(r, ticket)]) else Err(Std)
  }

  datatype Shares = Shares(rand: nat, treasury: nat, owner: nat)

  function Split(total: nat, config: Config): Result<Shares, Error> {
    var rand := total * config.randFee / ONE;
    var treasury := total * config.raffleFee / ONE;
    if rand + treasury > total then Err(Panic) else Ok(Shares(rand, treasury, total - rand - treasury))
  }

  /** The same asset in another amount. */
  function Amount(price: Asset, amount: nat): Asset {
    match price
    case Native(coin) => Native(Coin(coin.denom, amount))
    case Cw20(address, _) => Cw20(address, amount)
    case _ => price
  }

  function OwnerMessages(self: Addr, s: Store, raffle: Raffle): Result<seq<Transfer>, Error> {
    if !raffle.price.Native? && !raffle.price.Cw20? then Err(WrongFundsType)
    else
      var shares :- Split(raffle.price.Quantity() * raffle.tickets, s.config);
      if shares.rand != 0 && raffle.randomness.None? then Err(Panic)
      else
        var provider := if raffle.randomness.Some? then raffle.randomness.value.owner else "";
        Ok(SendSome(self, provider, Amount(raffle.price, shares.rand))
           + SendSome(self, s.config.feeAddr, Amount(raffle.price, shares.treasury))
           + SendSome(self, raffle.owner, Amount(raffle.price, shares.owner)))
  }

  function Claim(draw: Seed -> U32, env: Env, s: Store, r: nat): Outcome {
    var raffle :- LoadRaffle(s, r);
    var state :- StateAt(env.time, raffle);
    if state != Finished then Err(WrongStateForClaim(state))
    else
      var winner :- if raffle.tickets == 0 then Ok(raffle.owner) else Winner(draw, s, r, raffle);
      var back :- SendsBack(env.self, winner, raffle.assets, Unreachable);
      var pay :- OwnerMessages(env.self, s, raffle);
      Ok((PutRaffle(s, r, raffle.(winner := Some(winner))), back + pay))
  }

  // ----- Administration (contract.rs)

  function ToggleLock(s: Store, sender: Addr, lock: bool): Outcome {
    if sender != s.config.owner then Err(Unauthorized) else Quiet(s.(config := s.config.(lock := lock)))
  }

  function ChangeParameter(s: Store, sender: Addr, parameter: Parameter): Outcome {
    if sender != s.config.owner then Err(Unauthorized)
    else if parameter.UnknownParameter? then Err(ParameterNotFound)
    else
      var config := match parameter
        case FeeAddr(a) => s.config.(feeAddr := a)
        case MinimumDuration(t) => s.config.(minimumDuration := Max(t, MINIMUM_RAFFLE_DURATION))
        case MinimumTimeout(t) => s.config.(minimumTimeout := Max(t, MINIMUM_RAFFLE_TIMEOUT))
        case RaffleFee(fee) => s.config.(raffleFee := fee)
        case RandFee(fee) => s.config.(randFee := Max(fee, MINIMUM_RAND_FEE));
      if ValidFees(config) then Quiet(s.(config := config)) else Err(Std)
  }

  function Instantiate(owner: Addr, feeAddr: Addr, duration: Option<nat>, timeout: Option<nat>,
                       raffleFee: Option<nat>, randFee: Option<nat>): Result<Store, Error> {
    var config := Config(owner, feeAddr, None,
                         Max(Or(duration, MINIMUM_RAFFLE_DURATION), MINIMUM_RAFFLE_DURATION),
                         Max(Or(timeout, MINIMUM_RAFFLE_TIMEOUT), MINIMUM_RAFFLE_TIMEOUT),
                         Or(raffleFee, 0), Max(Or(randFee, MINIMUM_RAND_FEE), MINIMUM_RAND_FEE), false);
    if ValidFees(config) then Ok(Store(config, map[], map[], map[])) else Err(Std)
  }

  function Step(draw: Seed -> U32, env: Env, s: Store, info: Info, msg: ExecuteMsg): Outcome {
    match msg
    case CreateRaffleMsg(owner, assets, price, options) => CreateRaffle(env, s, info.sender, owner, assets, price, options)
    case CancelRaffleMsg(r) => CancelRaffle(env, s, info.sender, r)
    case ModifyRaffleMsg(r, newPrice, options) => ModifyRaffle(s, info.sender, r, newPrice, options)
    case BuyTicketMsg(r, n, sent) => BuyTicket(env, s, info, r, n, sent)
    case ReceiveMsg(from, amount, inner) => Receive(env, s, info, from, amount, inner)
    case ClaimMsg(r) => Claim(draw, env, s, r)
    case UpdateRandomnessMsg(r, round, seed) => UpdateRandomness(s, env.time, info.sender, r, round, seed)
    case ToggleLockMsg(lock) => ToggleLock(s, info.sender, lock)
    case ChangeParameterMsg(parameter) => ChangeParameter(s, info.sender, parameter)
  }

  // ----- The chain

  datatype Chain = Chain(store: Store, wallets: Wallets)

  datatype Tx = Tx(info: Info, time: nat, allow: bool, msg: ExecuteMsg)

  /** What moves before the handler runs: the coins sent along, or the tokens a cw20 `Send`
      carries. */
  function Prelude(self: Addr, tx: Tx): seq<Transfer> {
    if tx.msg.ReceiveMsg? then [Transfer(tx.msg.from, self, Cw20(tx.info.sender, tx.msg.amount))]
    else Fund(tx.info.sender, self, tx.info.funds)
  }

  function Try(draw: Seed -> U32, self: Addr, c: Chain, tx: Tx): Option<Chain> {
    match c.wallets.MoveAll(self, true, Prelude(self, tx))
    case None => None
    case Some(funded) =>
      match Step(draw, Env(self, tx.time, funded), c.store, tx.info, tx.msg)
      case Err(_) => None
      case Ok((s, messages)) =>
        match funded.MoveAll(self, tx.allow, messages)
        case None => None
        case Some(w) => Some(Chain(s, w))
  }

  function Exec(draw: Seed -> U32, self: Addr, c: Chain, tx: Tx): Chain {
    match Try(draw, self, c, tx) case None => c case Some(d) => d
  }

  function Run(draw: Seed -> U32, self: Addr, c: Chain, txs: seq<Tx>): Chain
    decreases |txs|
  {
    if txs == [] then c else Run(draw, self, Exec(draw, self, c, txs[0]), txs[1..])
  }

  /** Block time never goes back. */
  predicate Timely(now: nat, txs: seq<Tx>)
    decreases |txs|
  {
    txs == [] || (now <= txs[0].time && Timely(txs[0].time, txs[1..]))
  }
}

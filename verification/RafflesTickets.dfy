/** The ticket book: what every message keeps of the raffle contract's records. */
module RafflesTickets {
  import opened Base
  import opened Ledger
  import opened Nfts
  import opened Raffles

  /** How many of the first `n` tickets of raffle `r` are `u`'s. */
  ghost function Owned(book: map<(nat, nat), Addr>, r: nat, n: nat, u: Addr): nat {
    if n == 0 then 0
    else Owned(book, r, n - 1, u) + (if (r, n - 1) in book && book[(r, n - 1)] == u then 1 else 0)
  }

  ghost function TicketsOf(s: Store, r: nat): nat {
    if r in s.raffles then s.raffles[r].tickets else 0
  }

  /** The users' counts for one raffle. */
  function CountsFor(users: map<(Addr, nat), nat>, r: nat): map<(Addr, nat), nat> {
    map key | key in users && key.1 == r :: users[key]
  }

  ghost predicate RaffleIds(s: Store) {
    forall r: nat :: r in s.raffles <==> s.config.lastRaffleId.Some? && r <= s.config.lastRaffleId.value
  }

  /** The tickets of a raffle are numbered without gaps from nought. */
  ghost predicate BookKeys(s: Store) {
    forall r: nat, i: nat :: (r, i) in s.ticketOwner <==> i < TicketsOf(s, r)
  }

  /** Each user's count is the number of entries the user has. */
  ghost predicate UserCounts(s: Store) {
    forall u: Addr, r: nat :: LookupOr(s.userTickets, (u, r), 0) == Owned(s.ticketOwner, r, TicketsOf(s, r), u)
  }

  ghost predicate CountSums(s: Store) {
    && (forall key :: key in s.userTickets ==> key.1 in s.raffles)
    && (forall r :: r in s.raffles ==> MapSum(CountsFor(s.userTickets, r)) == s.raffles[r].tickets)
  }

  ghost predicate Shape(raffle: Raffle) {
    && OnlyNfts(raffle.assets)
    && (raffle.tickets > 0 ==> !raffle.isCancelled && (raffle.price.Native? || raffle.price.Cw20?))
    && (raffle.winner.Some? ==> raffle.randomness.Some?)
    && (raffle.options.maxParticipants.Some? && raffle.tickets > 0 ==> raffle.tickets <= raffle.options.maxParticipants.value)
  }

  ghost predicate UserCap(s: Store) {
    forall u: Addr, r: nat :: r in s.raffles && s.raffles[r].options.maxPerAddress.Some? && s.raffles[r].tickets > 0 ==>
      LookupOr(s.userTickets, (u, r), 0) <= s.raffles[r].options.maxPerAddress.value
  }

  ghost predicate FeesOk(config: Config) {
    ValidFees(config) && config.randFee >= MINIMUM_RAND_FEE
  }

  ghost predicate Inv(s: Store) {
    && RaffleIds(s)
    && BookKeys(s)
    && UserCounts(s)
    && CountSums(s)
    && (forall r :: r in s.raffles ==> Shape(s.raffles[r]))
    && UserCap(s)
    && FeesOk(s.config)
  }

  lemma {:induction false} InitInv(owner: Addr, feeAddr: Addr, duration: Option<nat>, timeout: Option<nat>,
                                   raffleFee: Option<nat>, randFee: Option<nat>)
    requires Instantiate(owner, feeAddr, duration, timeout, raffleFee, randFee).Ok?
    ensures Inv(Instantiate(owner, feeAddr, duration, timeout, raffleFee, randFee).value)
  {
  }

  // ----- The book under a purchase

  lemma {:induction false} Written(book: map<(nat, nat), Addr>, r: nat, first: nat, n: nat, user: Addr, key: (nat, nat))
    ensures var after := WriteTickets(book, r, first, n, user);
            var bought := key.0 == r && first <= key.1 < first + n;
            && (key in after <==> key in book || bought)
            && (key in after ==> after[key] == if bought then user else book[key])
    decreases n
  {
    if n > 0 {
      Written(book[(r, first) := user], r, first + 1, n - 1, user, key);
    }
  }

  /** Entries past the old end do not change the counts up to it. */
  lemma {:induction false} OwnedFrame(book: map<(nat, nat), Addr>, after: map<(nat, nat), Addr>, r: nat, n: nat, u: Addr)
    requires forall i: nat :: i < n ==> ((r, i) in book <==> (r, i) in after)
    requires forall i: nat :: i < n && (r, i) in book ==> after[(r, i)] == book[(r, i)]
    ensures Owned(after, r, n, u) == Owned(book, r, n, u)
  {
    if n > 0 {
      OwnedFrame(book, after, r, n - 1, u);
    }
  }

  lemma {:induction false} OwnedBought(book: map<(nat, nat), Addr>, r: nat, first: nat, n: nat, user: Addr, m: nat, u: Addr)
    requires m <= n
    ensures Owned(WriteTickets(book, r, first, n, user), r, first + m, u)
         == Owned(book, r, first, u) + (if u == user then m else 0)
    decreases m
  {
    var after := WriteTickets(book, r, first, n, user);
    if m == 0 {
      forall i: nat | i < first ensures ((r, i) in book <==> (r, i) in after) && ((r, i) in book ==> after[(r, i)] == book[(r, i)]) {
        Written(book, r, first, n, user, (r, i));
      }
      OwnedFrame(book, after, r, first, u);
    } else {
      OwnedBought(book, r, first, n, user, m - 1, u);
      Written(book, r, first, n, user, (r, first + m - 1));
    }
  }

  lemma {:induction false} BoughtKeys(s: Store, time: nat, user: Addr, r: nat, n: U32, sent: Asset)
    requires BookKeys(s) && BuyTickets(s, time, user, r, n, sent).Ok?
    ensures BookKeys(BuyTickets(s, time, user, r, n, sent).value)
  {
    var s1 := BuyTickets(s, time, user, r, n, sent).value;
    forall q: nat, i: nat ensures (q, i) in s1.ticketOwner <==> i < TicketsOf(s1, q) {
      Written(s.ticketOwner, r, s.raffles[r].tickets, n, user, (q, i));
    }
  }

  lemma {:induction false} BoughtCounts(s: Store, time: nat, user: Addr, r: nat, n: U32, sent: Asset)
    requires UserCounts(s) && BuyTickets(s, time, user, r, n, sent).Ok?
    ensures UserCounts(BuyTickets(s, time, user, r, n, sent).value)
  {
    var s1 := BuyTickets(s, time, user, r, n, sent).value;
    var first := s.raffles[r].tickets;
    forall u: Addr, q: nat
      ensures LookupOr(s1.userTickets, (u, q), 0) == Owned(s1.ticketOwner, q, TicketsOf(s1, q), u)
    {
      assert LookupOr(s.userTickets, (u, q), 0) == Owned(s.ticketOwner, q, TicketsOf(s, q), u);
      if q == r {
        OwnedBought(s.ticketOwner, r, first, n, user, n, u);
      } else {
        forall i: nat
          ensures ((q, i) in s.ticketOwner <==> (q, i) in s1.ticketOwner)
                  && ((q, i) in s.ticketOwner ==> s1.ticketOwner[(q, i)] == s.ticketOwner[(q, i)])
        {
          Written(s.ticketOwner, r, first, n, user, (q, i));
        }
        OwnedFrame(s.ticketOwner, s1.ticketOwner, q, TicketsOf(s, q), u);
      }
    }
  }

  /** Raising one user's count raises the one raffle's sum. */
  lemma {:induction false} CountsAfter(users: map<(Addr, nat), nat>, u: Addr, r: nat, n: nat, q: nat)
    ensures MapSum(CountsFor(users[(u, r) := LookupOr(users, (u, r), 0) + n], q))
         == MapSum(CountsFor(users, q)) + (if q == r then n else 0)
  {
    var v := LookupOr(users, (u, r), 0) + n;
    if q == r {
      assert CountsFor(users[(u, r) := v], r) == CountsFor(users, r)[(u, r) := v];
      MapSumUpdate(CountsFor(users, r), (u, r), v);
    } else {
      assert CountsFor(users[(u, r) := v], q) == CountsFor(users, q);
    }
  }

  lemma {:induction false} SumAfter(s: Store, s1: Store, user: Addr, r: nat, n: nat, q: nat)
    requires q in s.raffles && MapSum(CountsFor(s.userTickets, q)) == s.raffles[q].tickets
    requires s1.userTickets == s.userTickets[(user, r) := LookupOr(s.userTickets, (user, r), 0) + n]
    ensures MapSum(CountsFor(s1.userTickets, q)) == s.raffles[q].tickets + (if q == r then n else 0)
  {
    CountsAfter(s.userTickets, user, r, n, q);
  }

  lemma {:induction false} BoughtSums(s: Store, time: nat, user: Addr, r: nat, n: U32, sent: Asset)
    requires CountSums(s) && BuyTickets(s, time, user, r, n, sent).Ok?
    ensures CountSums(BuyTickets(s, time, user, r, n, sent).value)
  {
    var s1 := BuyTickets(s, time, user, r, n, sent).value;
    forall q | q in s1.raffles ensures MapSum(CountsFor(s1.userTickets, q)) == s1.raffles[q].tickets {
      SumAfter(s, s1, user, r, n, q);
    }
  }

  lemma {:induction false} BoughtCaps(s: Store, time: nat, user: Addr, r: nat, n: U32, sent: Asset)
    requires UserCounts(s) && UserCap(s) && r in s.raffles && Shape(s.raffles[r]) && BuyTickets(s, time, user, r, n, sent).Ok?
    ensures UserCap(BuyTickets(s, time, user, r, n, sent).value)
    ensures Shape(BuyTickets(s, time, user, r, n, sent).value.raffles[r])
  {
    var s1 := BuyTickets(s, time, user, r, n, sent).value;
    forall u: Addr, q: nat | q in s1.raffles && s1.raffles[q].options.maxPerAddress.Some? && s1.raffles[q].tickets > 0
      ensures LookupOr(s1.userTickets, (u, q), 0) <= s1.raffles[q].options.maxPerAddress.value
    {
      if s.raffles[q].tickets == 0 {
        assert LookupOr(s.userTickets, (u, q), 0) == Owned(s.ticketOwner, q, 0, u);
      } else {
        assert LookupOr(s.userTickets, (u, q), 0) <= s.raffles[q].options.maxPerAddress.value;
      }
    }
  }

  lemma {:induction false} BuyInv(s: Store, time: nat, user: Addr, r: nat, n: U32, sent: Asset)
    requires Inv(s) && BuyTickets(s, time, user, r, n, sent).Ok?
    ensures Inv(BuyTickets(s, time, user, r, n, sent).value)
  {
    BoughtKeys(s, time, user, r, n, sent);
    BoughtCounts(s, time, user, r, n, sent);
    BoughtSums(s, time, user, r, n, sent);
    BoughtCaps(s, time, user, r, n, sent);
    assert RaffleIds(BuyTickets(s, time, user, r, n, sent).value);
  }

  // ----- The other messages

  lemma {:induction false} SameBook(s: Store, s1: Store)
    requires BookKeys(s) && UserCounts(s) && s1.ticketOwner == s.ticketOwner && s1.userTickets == s.userTickets
    requires forall q: nat :: TicketsOf(s1, q) == TicketsOf(s, q)
    ensures BookKeys(s1) && UserCounts(s1)
  {
  }

  lemma {:induction false} SameSums(s: Store, s1: Store, r: nat)
    requires CountSums(s) && s1.userTickets == s.userTickets && r in s.raffles && r in s1.raffles
    requires s1.raffles == s.raffles[r := s1.raffles[r]] && s1.raffles[r].tickets == s.raffles[r].tickets
    ensures CountSums(s1)
  {
  }

  /** A raffle rewritten, its tickets and the terms they were sold on untouched. */
  lemma {:induction false} PutRaffleInv(s: Store, r: nat, raffle: Raffle)
    requires Inv(s) && r in s.raffles && Shape(raffle)
    requires raffle.tickets == s.raffles[r].tickets
    requires raffle.tickets > 0 ==> raffle.options == s.raffles[r].options
    ensures Inv(PutRaffle(s, r, raffle))
  {
    var s1 := PutRaffle(s, r, raffle);
    assert RaffleIds(s1);
    SameBook(s, s1);
    SameSums(s, s1, r);
    assert UserCap(s1);
  }

  function NextRaffle(s: Store): nat {
    if s.config.lastRaffleId.Some? then s.config.lastRaffleId.value + 1 else 0
  }

  lemma {:induction false} FreshRaffleInv(s: Store, raffle: Raffle)
    requires Inv(s) && Shape(raffle) && raffle.tickets == 0
    ensures NextRaffle(s) !in s.raffles
    ensures Inv(PutRaffle(s.(config := s.config.(lastRaffleId := Some(NextRaffle(s)))), NextRaffle(s), raffle))
  {
    var r := NextRaffle(s);
    var s1 := PutRaffle(s.(config := s.config.(lastRaffleId := Some(r))), r, raffle);
    assert r !in s.raffles;
    assert RaffleIds(s1);
    assert forall q: nat :: TicketsOf(s1, q) == TicketsOf(s, q);
    SameBook(s, s1);
    assert CountsFor(s.userTickets, r) == map[];
    assert CountSums(s1);
    assert UserCap(s1);
  }

  lemma {:induction false} CreateInv(env: Env, s: Store, sender: Addr, owner: Option<Addr>, assets: seq<Asset>,
                                     price: Asset, options: OptionsMsg)
    requires Inv(s) && CreateRaffle(env, s, sender, owner, assets, price, options).Ok?
    ensures Inv(CreateRaffle(env, s, sender, owner, assets, price, options).value.0)
    ensures NextRaffle(s) !in s.raffles
  {
    PullsOnlyNfts(env.self, env.wallets, sender, assets, PULL_ERRORS);
    var s1 := CreateRaffle(env, s, sender, owner, assets, price, options).value.0;
    FreshRaffleInv(s, s1.raffles[NextRaffle(s)]);
  }

  lemma {:induction false} RaffleMsgInv(draw: Seed -> U32, env: Env, s: Store, info: Info, msg: ExecuteMsg)
    requires Inv(s) && Step(draw, env, s, info, msg).Ok?
    requires msg.CancelRaffleMsg? || msg.ModifyRaffleMsg? || msg.ClaimMsg? || msg.UpdateRandomnessMsg?
    ensures Inv(Step(draw, env, s, info, msg).value.0)
  {
    assert Shape(s.raffles[msg.raffleId]);
    var s1 := Step(draw, env, s, info, msg).value.0;
    PutRaffleInv(s, msg.raffleId, s1.raffles[msg.raffleId]);
    assert s1 == PutRaffle(s, msg.raffleId, s1.raffles[msg.raffleId]);
  }

  lemma {:induction false} ConfigInv(s: Store, s1: Store)
    requires Inv(s) && FeesOk(s1.config) && s1 == s.(config := s1.config)
    requires s1.config.lastRaffleId == s.config.lastRaffleId
    ensures Inv(s1)
  {
    assert RaffleIds(s1);
    assert forall q: nat :: TicketsOf(s1, q) == TicketsOf(s, q);
    SameBook(s, s1);
    assert CountSums(s1) && UserCap(s1);
  }

  /** Every message keeps the book, both caps and the bounds on the fees. */
  lemma {:induction false} StepInv(draw: Seed -> U32, env: Env, s: Store, info: Info, msg: ExecuteMsg)
    requires Inv(s) && Step(draw, env, s, info, msg).Ok?
    ensures Inv(Step(draw, env, s, info, msg).value.0)
  {
    match msg
    case CreateRaffleMsg(owner, assets, price, options) => CreateInv(env, s, info.sender, owner, assets, price, options);
    case BuyTicketMsg(r, n, sent) => BuyInv(s, env.time, info.sender, r, n, sent);
    case ReceiveMsg(from, amount, inner) => BuyInv(s, env.time, from, inner.raffleId, inner.ticketNumber, inner.sentAssets);
    case ToggleLockMsg(_) => ConfigInv(s, Step(draw, env, s, info, msg).value.0);
    case ChangeParameterMsg(_) => ConfigInv(s, Step(draw, env, s, info, msg).value.0);
    case _ => RaffleMsgInv(draw, env, s, info, msg);
  }

  lemma {:induction false} ExecInv(draw: Seed -> U32, self: Addr, c: Chain, tx: Tx)
    requires Inv(c.store)
    ensures Inv(Exec(draw, self, c, tx).store)
  {
    if Try(draw, self, c, tx).Some? {
      var funded := c.wallets.MoveAll(self, true, Prelude(self, tx)).value;
      StepInv(draw, Env(self, tx.time, funded), c.store, tx.info, tx.msg);
    }
  }

  /** In every reachable state the two indexes of the ticket book agree, the counts of a
      raffle sum to its number of tickets, and both caps hold. */
  lemma {:induction false} RunInv(draw: Seed -> U32, self: Addr, c: Chain, txs: seq<Tx>)
    requires Inv(c.store)
    ensures Inv(Run(draw, self, c, txs).store)
    decreases |txs|
  {
    if txs != [] {
      ExecInv(draw, self, c, txs[0]);
      RunInv(draw, self, Exec(draw, self, c, txs[0]), txs[1..]);
    }
  }

  // ----- The winner

  lemma {:induction false} BetweenInRange(word: U32, from: nat, to: nat)
    requires from <= to
    ensures from <= Between(word, from, to) <= to
  {
  }

  /** How many of the first `m` 32-bit words draw ticket `i` of `n`. */
  ghost function WordsFor(n: U32, i: nat, m: nat): nat
    requires n > 0 && m <= U32_LIMIT
  {
    if m == 0 then 0 else WordsFor(n, i, m - 1) + (if Between(m - 1, 0, n - 1) == i then 1 else 0)
  }

  lemma {:induction false} NextQuotient(m: nat, n: nat)
    requires n > 0
    ensures if m % n + 1 < n then (m + 1) / n == m / n && (m + 1) % n == m % n + 1
            else (m + 1) / n == m / n + 1 && (m + 1) % n == 0
  {
    var q, r := m / n, m % n;
    assert m == q * n + r;
    if r + 1 < n {
      DivModIs(m + 1, n, q, r + 1);
    } else {
      assert m + 1 == (q + 1) * n;
      DivModIs(m + 1, n, q + 1, 0);
    }
  }

  lemma {:induction false} WordsCounted(n: U32, i: nat, m: nat)
    requires i < n && m <= U32_LIMIT
    ensures WordsFor(n, i, m) == m / n + (if i < m % n then 1 else 0)
    decreases m
  {
    if m > 0 {
      WordsCounted(n, i, m - 1);
      NextQuotient(m - 1, n);
    }
  }

  /** Every ticket is drawn by as many 32-bit words as any other, or by one more. */
  lemma {:induction false} TicketsNearlyEqual(n: U32, i: nat)
    requires i < n
    ensures U32_LIMIT / n <= WordsFor(n, i, U32_LIMIT) <= U32_LIMIT / n + 1
  {
    WordsCounted(n, i, U32_LIMIT);
  }

  lemma {:induction false} OwnedAtLeastOne(book: map<(nat, nat), Addr>, r: nat, n: nat, i: nat)
    requires i < n && (r, i) in book
    ensures Owned(book, r, n, book[(r, i)]) >= 1
  {
    if i < n - 1 {
      OwnedAtLeastOne(book, r, n - 1, i);
    }
  }

  /** A raffle with tickets and randomness has a winner, and the winner holds a ticket. */
  lemma {:induction false} WinnerHoldsTicket(draw: Seed -> U32, s: Store, r: nat)
    requires BookKeys(s) && UserCounts(s)
    requires r in s.raffles && s.raffles[r].tickets > 0 && s.raffles[r].randomness.Some?
    ensures Winner(draw, s, r, s.raffles[r]).Ok?
    ensures var winner := Winner(draw, s, r, s.raffles[r]).value;
            (exists i: nat :: i < s.raffles[r].tickets && Lookup(s.ticketOwner, (r, i)) == Some(winner))
            && LookupOr(s.userTickets, (winner, r), 0) >= 1
  {
    var raffle := s.raffles[r];
    var i := Between(draw(raffle.randomness.value.seed), 0, raffle.tickets - 1);
    BetweenInRange(draw(raffle.randomness.value.seed), 0, raffle.tickets - 1);
    assert i < TicketsOf(s, r);
    assert Lookup(s.ticketOwner, (r, i)) == Some(Winner(draw, s, r, raffle).value);
    OwnedAtLeastOne(s.ticketOwner, r, raffle.tickets, i);
  }

  // ----- The three-way split

  /** Two rounded-down shares whose rates stay below one leave something for the third. */
  lemma {:induction false} SplitSums(total: nat, config: Config)
    requires FeesOk(config)
    ensures Split(total, config).Ok?
    ensures var shares := Split(total, config).value;
            && shares.rand + shares.treasury + shares.owner == total
            && shares.rand * ONE <= total * config.randFee < (shares.rand + 1) * ONE
            && shares.treasury * ONE <= total * config.raffleFee < (shares.treasury + 1) * ONE
            && (total > 0 ==> shares.owner > 0)
  {
    MulAdds(config.randFee, config.raffleFee, total);
    MulMonotone(config.randFee + config.raffleFee + 1, ONE, total);
    MulAdds(config.randFee + config.raffleFee, 1, total);
    DivBounds(total * config.randFee, ONE);
    DivBounds(total * config.raffleFee, ONE);
  }
}

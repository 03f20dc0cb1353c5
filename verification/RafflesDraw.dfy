/** The draw over whole runs: whose round decides, who wins, and who provided it. */
module RafflesDraw {
  import opened Base
  import opened Ledger
  import opened Raffles
  import opened RafflesTickets
  import opened RafflesLife
  import opened RafflesProtocol
  import opened RafflesClaim

  /** A message that goes through and brings a round for raffle `r`. */
  predicate Rounds(draw: Seed -> U32, self: Addr, c: Chain, tx: Tx, r: nat) {
    tx.msg.UpdateRandomnessMsg? && tx.msg.raffleId == r && Try(draw, self, c, tx).Some?
  }

  /** What that message brought. */
  function Brought(tx: Tx): Randomness
    requires tx.msg.UpdateRandomnessMsg?
  {
    Randomness(tx.msg.seed, tx.msg.round, tx.info.sender)
  }

  function RandomnessAt(s: Store, r: nat): Option<Randomness> {
    if r in s.raffles then s.raffles[r].randomness else None
  }

  lemma {:induction false} OthersBringNone(draw: Seed -> U32, env: Env, s: Store, info: Info, msg: ExecuteMsg, s1: Store, ts: seq<Transfer>, r: nat)
    requires Inv(s) && Step(draw, env, s, info, msg) == Ok((s1, ts)) && !msg.UpdateRandomnessMsg?
    ensures RandomnessAt(s1, r) == RandomnessAt(s, r)
  {
    if msg.CreateRaffleMsg? {
      CreatingIs(draw, env, s, info, msg);
    } else if msg.ClaimMsg? {
      ClaimingIs(draw, env, s, info, msg.raffleId);
    } else if msg.BuyTicketMsg? {
      BuyingIs(draw, env, s, info, msg.raffleId, msg.ticketNumber, msg.sentAssets);
    } else if msg.ReceiveMsg? {
      ReceivingIs(draw, env, s, info, msg.from, msg.amount, msg.inner);
    } else if msg.CancelRaffleMsg? {
      CancellingIs(draw, env, s, info, msg.raffleId);
    } else if msg.ModifyRaffleMsg? {
      ModifyingIs(draw, env, s, info, msg.raffleId, msg.newPrice, msg.options);
    } else {
      assert s1.raffles == s.raffles;
    }
  }

  /** A message that goes through changes the randomness of a raffle exactly if it brings a round for
      it, and then to that. */
  lemma {:induction false} ExecRandomness(draw: Seed -> U32, self: Addr, c: Chain, tx: Tx, r: nat)
    requires Inv(c.store)
    ensures RandomnessAt(Exec(draw, self, c, tx).store, r)
         == if Rounds(draw, self, c, tx, r) then Some(Brought(tx)) else RandomnessAt(c.store, r)
  {
    if Try(draw, self, c, tx).Some? {
      var funded := c.wallets.MoveAll(self, true, Prelude(self, tx)).value;
      var env := Env(self, tx.time, funded);
      var (s1, ts) := Step(draw, env, c.store, tx.info, tx.msg).value;
      if tx.msg.UpdateRandomnessMsg? {
        RoundIs(draw, env, c.store, tx.info, tx.msg.raffleId, tx.msg.round, tx.msg.seed);
      } else {
        OthersBringNone(draw, env, c.store, tx.info, tx.msg, s1, ts, r);
      }
    }
  }

  lemma {:induction false} RunLast(draw: Seed -> U32, self: Addr, c: Chain, txs: seq<Tx>)
    requires txs != []
    ensures Run(draw, self, c, txs) == Exec(draw, self, Run(draw, self, c, txs[..|txs| - 1]), txs[|txs| - 1])
    decreases |txs|
  {
    if |txs| == 1 {
      assert txs[..0] == [] && txs[1..] == [];
    } else {
      RunLast(draw, self, Exec(draw, self, c, txs[0]), txs[1..]);
      assert txs[1..][..|txs| - 2] == txs[..|txs| - 1][1..];
    }
  }

  /** The message `i` of the run brings a round for raffle `r`. */
  predicate RoundAt(draw: Seed -> U32, self: Addr, c: Chain, txs: seq<Tx>, r: nat, i: nat) {
    i < |txs| && Rounds(draw, self, Run(draw, self, c, txs[..i]), txs[i], r)
  }

  /** Which of the first `n` messages do. */
  ghost function Marks(draw: Seed -> U32, self: Addr, c: Chain, txs: seq<Tx>, r: nat, n: nat): (marks: seq<bool>)
    requires n <= |txs|
    ensures |marks| == n
  {
    if n == 0 then [] else Marks(draw, self, c, txs, r, n - 1) + [RoundAt(draw, self, c, txs, r, n - 1)]
  }

  lemma {:induction false} MarksAre(draw: Seed -> U32, self: Addr, c: Chain, txs: seq<Tx>, r: nat, n: nat, i: nat)
    requires i < n <= |txs|
    ensures Marks(draw, self, c, txs, r, n)[i] == RoundAt(draw, self, c, txs, r, i)
  {
    if i < n - 1 {
      MarksAre(draw, self, c, txs, r, n - 1, i);
    }
  }

  predicate LastMark(marks: seq<bool>, i: nat) {
    i < |marks| && marks[i] && forall j :: i < j < |marks| ==> !marks[j]
  }

  /** The message `i` is the last to do so. */
  ghost predicate LastRound(draw: Seed -> U32, self: Addr, c: Chain, txs: seq<Tx>, r: nat, i: nat) {
    LastMark(Marks(draw, self, c, txs, r, |txs|), i)
  }

  lemma {:induction false} LastMarkEnd(front: seq<bool>, mark: bool, i: nat)
    ensures LastMark(front + [true], |front|)
    ensures LastMark(front, i) && !mark ==> LastMark(front + [mark], i)
  {
  }

  lemma {:induction false} RunNext(draw: Seed -> U32, self: Addr, c: Chain, txs: seq<Tx>, n: nat)
    requires n < |txs|
    ensures Run(draw, self, c, txs[..n + 1]) == Exec(draw, self, Run(draw, self, c, txs[..n]), txs[n])
  {
    RunLast(draw, self, c, txs[..n + 1]);
    assert txs[..n + 1][..n] == txs[..n];
  }

  lemma {:induction false} RandomnessUpTo(draw: Seed -> U32, self: Addr, c: Chain, txs: seq<Tx>, r: nat, n: nat) returns (i: nat)
    requires n <= |txs| && Inv(c.store)
    requires RandomnessAt(c.store, r).None? && RandomnessAt(Run(draw, self, c, txs[..n]).store, r).Some?
    ensures i < n && RoundAt(draw, self, c, txs, r, i) && LastMark(Marks(draw, self, c, txs, r, n), i)
    ensures RandomnessAt(Run(draw, self, c, txs[..n]).store, r) == Some(Brought(txs[i]))
  {
    var m := n - 1;
    var d := Run(draw, self, c, txs[..m]);
    RunNext(draw, self, c, txs, m);
    RunInv(draw, self, c, txs[..m]);
    ExecRandomness(draw, self, d, txs[m], r);
    if Rounds(draw, self, d, txs[m], r) {
      i := m;
      LastMarkEnd(Marks(draw, self, c, txs, r, m), true, i);
    } else {
      i := RandomnessUpTo(draw, self, c, txs, r, m);
      LastMarkEnd(Marks(draw, self, c, txs, r, m), false, i);
    }
  }

  /** Over every run that finds a raffle without randomness, or no raffle yet: the randomness stored
      is what the last round accepted for it brought, seed, number and provider. */
  lemma {:induction false} RandomnessIsLastRound(draw: Seed -> U32, self: Addr, c: Chain, txs: seq<Tx>, r: nat) returns (i: nat)
    requires Inv(c.store) && RandomnessAt(c.store, r).None? && RandomnessAt(Run(draw, self, c, txs).store, r).Some?
    ensures i < |txs| && RoundAt(draw, self, c, txs, r, i) && LastRound(draw, self, c, txs, r, i)
    ensures RandomnessAt(Run(draw, self, c, txs).store, r) == Some(Brought(txs[i]))
  {
    assert txs[..|txs|] == txs;
    i := RandomnessUpTo(draw, self, c, txs, r, |txs|);
  }

  /** What a claim leaves and orders: the winner is the owner of ticket `draw(seed)` modulo the
      tickets, for that seed; all that is raffled goes to them, and the provider's share to that
      provider. */
  ghost predicate Decided(draw: Seed -> U32, self: Addr, s: Store, s1: Store, ts: seq<Transfer>, r: nat, x: Randomness) {
    && r in s.raffles && r in s1.raffles && s.raffles[r].tickets > 0 && SharesOf(s, s.raffles[r]).Ok?
    && s1.raffles[r].winner.Some?
    && s1.raffles[r].winner == Lookup(s.ticketOwner, (r, draw(x.seed) % s.raffles[r].tickets))
    && ts == ClaimMessages(self, s, s.raffles[r], x.owner, s1.raffles[r].winner.value, SharesOf(s, s.raffles[r]).value)
  }

  lemma {:induction false} ClaimDecided(draw: Seed -> U32, env: Env, s: Store, info: Info, r: nat, s1: Store, ts: seq<Transfer>)
    requires Inv(s) && Step(draw, env, s, info, ClaimMsg(r)) == Ok((s1, ts)) && s.raffles[r].tickets > 0
    ensures s.raffles[r].randomness.Some? && Decided(draw, env.self, s, s1, ts, r, s.raffles[r].randomness.value)
  {
    ClaimingIs(draw, env, s, info, r);
    ClaimPaysAll(draw, env, s, r, s1, ts);
  }

  /** From instantiation, over every run: who claims a raffle with tickets pays it out by the last
      round accepted for it. The winner owns the ticket its seed draws, and its sender is the
      provider. */
  lemma {:induction false} LastRoundDecides(draw: Seed -> U32, self: Addr, c: Chain, txs: seq<Tx>, tx: Tx, r: nat)
    returns (i: nat, ts: seq<Transfer>)
    requires Inv(c.store) && c.store.raffles == map[]
    requires var d := Run(draw, self, c, txs);
             tx.msg == ClaimMsg(r) && Try(draw, self, d, tx).Some? && TicketsOf(d.store, r) > 0
    ensures i < |txs| && RoundAt(draw, self, c, txs, r, i) && LastRound(draw, self, c, txs, r, i)
    ensures var d := Run(draw, self, c, txs);
            && Decided(draw, self, d.store, Exec(draw, self, d, tx).store, ts, r, Brought(txs[i]))
            && var funded := d.wallets.MoveAll(self, true, Prelude(self, tx)).value;
               funded.MoveAll(self, tx.allow, ts) == Some(Exec(draw, self, d, tx).wallets)
  {
    var d := Run(draw, self, c, txs);
    RunInv(draw, self, c, txs);
    var funded := d.wallets.MoveAll(self, true, Prelude(self, tx)).value;
    var env := Env(self, tx.time, funded);
    var s1: Store;
    s1, ts := Step(draw, env, d.store, tx.info, tx.msg).value.0, Step(draw, env, d.store, tx.info, tx.msg).value.1;
    ClaimDecided(draw, env, d.store, tx.info, r, s1, ts);
    i := RandomnessIsLastRound(draw, self, c, txs, r);
  }

  /** A raffle sold and claimed keeps that winner, whatever follows, as long as block time does not
      go back. */
  lemma {:induction false} WinnerIsKept(draw: Seed -> U32, self: Addr, c: Chain, txs: seq<Tx>, r: nat, now: nat)
    requires Inv(c.store) && Timely(now, txs) && TicketsOf(c.store, r) > 0 && c.store.raffles[r].winner.Some?
    ensures var s := Run(draw, self, c, txs).store; r in s.raffles && s.raffles[r].winner == c.store.raffles[r].winner
  {
    SoldRaffleFreezes(draw, self, c, txs, r, now);
  }
}

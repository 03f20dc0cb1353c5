/** New trades and new counters: who may suggest one, what is stored, and whom a whitelist keeps
    out over every run. */
module P2PWhitelist {
  import opened Base
  import opened Ledger
  import opened P2PTypes
  import opened P2PSpec
  import opened P2PInvariant
  import opened P2PSettlement
  import opened P2PProtocol

  predicate Admits(trade: TradeInfo, who: Addr) {
    trade.whitelistedUsers == {} || who in trade.whitelistedUsers
  }

  // ----- Suggesting

  lemma {:induction false} NextCounter(s: Store, t: nat)
    requires Inv(s) && t in s.trades
    ensures (t, NextId(s.trades[t].lastCounterId)) !in s.counters
  {
  }

  /** A counter may be suggested to a published or countered trade by anybody its whitelist
      admits, and by nobody else; each refusal says why. */
  lemma {:induction false} SuggestAcceptsIff(self: Addr, s: Store, info: Info, t: nat, comment: Option<string>)
    requires Inv(s)
    ensures var out := Step(Lazy, self, s, info, SuggestCounterTradeMsg(t, comment));
            && (out.Ok? <==> t in s.trades && (s.trades[t].state == Published || s.trades[t].state == Countered)
                             && Admits(s.trades[t], info.sender))
            && (out.Err? ==> out.error == if t !in s.trades then NotFoundInTradeInfo
                                          else if s.trades[t].state != Published && s.trades[t].state != Countered then NotCounterable
                                          else AddressNotWhitelisted)
  {
    if CanSuggest(s, t, info.sender).Ok? {
      NextCounter(s, t);
      Suggested(Lazy, s, info.sender, t, comment);
    }
  }

  /** What it stores: an empty counter of the sender's under a number not used before, in a trade
      that is countered from then on. */
  ghost predicate SuggestDid(s: Store, s1: Store, who: Addr, t: nat, c: nat, comment: Option<string>) {
    && t in s.trades && (t, c) !in s.counters
    && (forall d: nat :: (t, d) in s.counters <==> d < c)
    && s1.counters == s.counters[(t, c) := NewTradeInfo(who).(ownerComment := comment)]
    && s1.trades == s.trades[t := s.trades[t].(state := Countered, lastCounterId := Some(c))]
    && s1.lastUserCounter == s.lastUserCounter[(who, t) := c]
    && s1 == s.(trades := s1.trades, counters := s1.counters, lastUserCounter := s1.lastUserCounter)
  }

  lemma {:induction false} SuggestEffect(self: Addr, s: Store, info: Info, t: nat, comment: Option<string>, s1: Store, r: Response)
    returns (c: nat)
    requires Inv(s) && Step(Lazy, self, s, info, SuggestCounterTradeMsg(t, comment)) == Ok((s1, r))
    ensures SuggestDid(s, s1, info.sender, t, c, comment) && r == Silent()
  {
    c := NextId(s.trades[t].lastCounterId);
    NextCounter(s, t);
    Suggested(Lazy, s, info.sender, t, comment);
  }

  // ----- Creating

  function Listed(whitelist: Option<seq<Addr>>): set<Addr> {
    match whitelist case None => {} case Some(users) => set u | u in users
  }

  /** An empty trade of the sender's under a number not used before, open to those listed. */
  ghost predicate CreateDid(s: Store, s1: Store, who: Addr, t: nat, whitelist: Option<seq<Addr>>, comment: Option<string>) {
    && (forall u: nat :: u in s.trades <==> u < t)
    && s1.trades == s.trades[t := NewTradeInfo(who).(whitelistedUsers := Listed(whitelist), ownerComment := comment)]
    && s1.lastUserTrade == s.lastUserTrade[who := t]
    && s1 == s.(trades := s1.trades, lastTradeId := Some(t), lastUserTrade := s1.lastUserTrade)
  }

  lemma {:induction false} CreateEffect(self: Addr, s: Store, info: Info, whitelist: Option<seq<Addr>>, comment: Option<string>)
    returns (t: nat, s1: Store)
    requires Inv(s)
    ensures Step(Lazy, self, s, info, CreateTradeMsg(whitelist, comment)) == Ok((s1, Silent()))
    ensures CreateDid(s, s1, info.sender, t, whitelist, comment)
  {
    t := NextId(s.lastTradeId);
    FreshTrade(s);
    CreatedTrade(Lazy, s, info.sender, whitelist, comment);
    s1 := CreateTrade(Lazy, s, info.sender, whitelist, comment).value.0;
  }

  // ----- What every message keeps

  /** Each counter is its suggester's, whom the whitelist of its trade admits. */
  ghost predicate AllAdmitted(s: Store) {
    forall t: nat, c: nat :: (t, c) in s.counters && t in s.trades ==> Admits(s.trades[t], s.counters[(t, c)].owner)
  }

  /** What a message that names no number goes to: the sender's last trade. */
  ghost predicate LastTrades(s: Store) {
    && (forall t :: t in s.trades ==> s.trades[t].owner in s.lastUserTrade && t <= s.lastUserTrade[s.trades[t].owner])
    && (forall u :: u in s.lastUserTrade ==> s.lastUserTrade[u] in s.trades && s.trades[s.lastUserTrade[u]].owner == u)
  }

  /** The sender's last counter in the trade. */
  ghost predicate LastCounters(s: Store) {
    && (forall t: nat, c: nat :: (t, c) in s.counters ==>
          var key := (s.counters[(t, c)].owner, t); key in s.lastUserCounter && c <= s.lastUserCounter[key])
    && (forall u: Addr, t: nat :: (u, t) in s.lastUserCounter ==>
          var q := (t, s.lastUserCounter[(u, t)]); q in s.counters && s.counters[q].owner == u)
  }

  ghost predicate Tidy(s: Store) {
    AllAdmitted(s) && LastTrades(s) && LastCounters(s)
  }

  /** No record joins, no owner changes, and a whitelist only where there is no counter yet. */
  ghost predicate SameNames(s: Store, s1: Store) {
    && s1.trades.Keys == s.trades.Keys && s1.counters.Keys == s.counters.Keys
    && s1.lastUserTrade == s.lastUserTrade && s1.lastUserCounter == s.lastUserCounter
    && (forall t :: t in s.trades ==> s1.trades[t].owner == s.trades[t].owner)
    && (forall t :: t in s.trades && s1.trades[t].whitelistedUsers != s.trades[t].whitelistedUsers ==> s.trades[t].state == Created)
    && (forall q :: q in s.counters ==> s1.counters[q].owner == s.counters[q].owner)
  }

  lemma {:induction false} SameNamesTidy(s: Store, s1: Store)
    requires Inv(s) && Tidy(s) && SameNames(s, s1)
    ensures Tidy(s1)
  {
    forall t: nat, c: nat | (t, c) in s1.counters && t in s1.trades ensures Admits(s1.trades[t], s1.counters[(t, c)].owner) {
      assert (t, c) in s.counters && t in s.trades && TradeShape(s.trades[t]);
      assert Admits(s.trades[t], s.counters[(t, c)].owner);
    }
    forall t: nat, c: nat | (t, c) in s1.counters
      ensures var key := (s1.counters[(t, c)].owner, t); key in s1.lastUserCounter && c <= s1.lastUserCounter[key]
    {
      assert (t, c) in s.counters;
    }
    forall u: Addr, t: nat | (u, t) in s1.lastUserCounter
      ensures var q := (t, s1.lastUserCounter[(u, t)]); q in s1.counters && s1.counters[q].owner == u
    {
      assert (u, t) in s.lastUserCounter;
    }
  }

  lemma {:induction false} OwnerSameNames(self: Addr, s: Store, info: Info, msg: ExecuteMsg, s1: Store, r: Response)
    requires Inv(s) && OwnerMsg(msg) && Step(Lazy, self, s, info, msg) == Ok((s1, r))
    ensures SameNames(s, s1)
  {
    OwnerEffect(self, s, info, msg, s1, r);
    EditedNames(s, info, msg, About(s, info.sender, msg).value, s1);
  }

  lemma {:induction false} EditedNames(s: Store, info: Info, msg: ExecuteMsg, l: ListId, s1: Store)
    requires OwnerMsg(msg) && IsRecord(s, l) && Fitting(RecordOf(s, l), info.funds, msg) && Open(msg, Shown(s, l))
    requires OnlyWrites(s, s1, l) && IsRecord(s1, l)
    requires RecordOf(s1, l) == Edited(RecordOf(s, l), msg).(state := RecordOf(s1, l).state)
    ensures SameNames(s, s1)
  {
    assert RecordOf(s1, l).owner == RecordOf(s, l).owner;
    match l
    case TradeList(t) => assert s1.trades.Keys == s.trades.Keys;
    case CounterList(q) => assert s1.counters.Keys == s.counters.Keys;
  }

  lemma {:induction false} TradeNames(s: Store, s1: Store, t: nat)
    requires t in s.trades && t in s1.trades && s1 == s.(trades := s.trades[t := s1.trades[t]])
    requires s1.trades[t].owner == s.trades[t].owner && s1.trades[t].whitelistedUsers == s.trades[t].whitelistedUsers
    ensures SameNames(s, s1)
  {
    assert s1.trades.Keys == s.trades.Keys;
  }

  lemma {:induction false} CounterNames(s: Store, s1: Store, q: CounterKey)
    requires q in s.counters && q in s1.counters && s1 == s.(counters := s.counters[q := s1.counters[q]])
    requires s1.counters[q].owner == s.counters[q].owner
    ensures SameNames(s, s1)
  {
    assert s1.counters.Keys == s.counters.Keys;
  }

  lemma {:induction false} TraderSameNames(self: Addr, s: Store, info: Info, msg: ExecuteMsg, s1: Store, r: Response)
    requires Inv(s) && TraderMsg(msg) && Step(Lazy, self, s, info, msg) == Ok((s1, r))
    ensures SameNames(s, s1)
  {
    TraderEffect(self, s, info, msg, s1, r);
    WrittenNames(s, s1, msg);
  }

  lemma {:induction false} WrittenNames(s: Store, s1: Store, msg: ExecuteMsg)
    requires TraderMsg(msg) && msg.tradeId in s.trades && (msg.tradeId, msg.counterId) in s.counters && TraderWrites(s, s1, msg)
    ensures SameNames(s, s1)
  {
    assert s1.trades.Keys == s.trades.Keys && s1.counters.Keys == s.counters.Keys;
  }

  lemma {:induction false} SettlingSameNames(self: Addr, s: Store, info: Info, trader: Addr, t: nat, s1: Store, r: Response)
    requires Inv(s) && WithdrawAcceptedFunds(Lazy, self, s, info.sender, trader, t) == Ok((s1, r))
    ensures SameNames(s, s1)
  {
    var c := s.trades[t].acceptedInfo.value.1;
    LoadedCounter(s, t, c);
    if s.trades[t].owner == trader {
      CounterNames(s, s1, (t, c));
    } else {
      TradeNames(s, s1, t);
    }
  }

  lemma {:induction false} SuggestTidy(s: Store, s1: Store, who: Addr, t: nat, c: nat, comment: Option<string>)
    requires Tidy(s) && SuggestDid(s, s1, who, t, c, comment) && Admits(s.trades[t], who)
    ensures Tidy(s1)
  {
    assert LastTrades(s1);
    assert AllAdmitted(s1);
    forall d: nat, e: nat | (d, e) in s1.counters
      ensures var key := (s1.counters[(d, e)].owner, d); key in s1.lastUserCounter && e <= s1.lastUserCounter[key]
    {
      if (d, e) != (t, c) {
        assert (d, e) in s.counters;
      }
    }
  }

  lemma {:induction false} CreateTidy(s: Store, s1: Store, who: Addr, t: nat, whitelist: Option<seq<Addr>>, comment: Option<string>)
    requires CounterIds(s) && Tidy(s) && CreateDid(s, s1, who, t, whitelist, comment)
    ensures Tidy(s1)
  {
    forall d: nat, c: nat | (d, c) in s1.counters && d in s1.trades ensures Admits(s1.trades[d], s1.counters[(d, c)].owner) {
      assert (d, c) in s.counters && d in s.trades;
    }
    forall u | u in s1.lastUserTrade ensures s1.lastUserTrade[u] in s1.trades && s1.trades[s1.lastUserTrade[u]].owner == u {
      if u != who {
        assert s.lastUserTrade[u] in s.trades;
      }
    }
    forall d | d in s1.trades ensures s1.trades[d].owner in s1.lastUserTrade && d <= s1.lastUserTrade[s1.trades[d].owner] {
      if d != t {
        assert d in s.trades && d < t;
      }
    }
    assert LastCounters(s1);
  }

  lemma {:induction false} TidyStep(self: Addr, s: Store, info: Info, msg: ExecuteMsg, s1: Store, r: Response)
    requires Inv(s) && Tidy(s) && Step(Lazy, self, s, info, msg) == Ok((s1, r))
    ensures Tidy(s1)
  {
    if msg.CreateTradeMsg? {
      var t, s2 := CreateEffect(self, s, info, msg.whitelist, msg.newComment);
      CreateTidy(s, s2, info.sender, t, msg.whitelist, msg.newComment);
    } else if msg.SuggestCounterTradeMsg? {
      SuggestAcceptsIff(self, s, info, msg.tradeId, msg.newComment);
      var c := SuggestEffect(self, s, info, msg.tradeId, msg.newComment, s1, r);
      SuggestTidy(s, s1, info.sender, msg.tradeId, c, msg.newComment);
    } else {
      if OwnerMsg(msg) {
        OwnerSameNames(self, s, info, msg, s1, r);
      } else if TraderMsg(msg) {
        TraderSameNames(self, s, info, msg, s1, r);
      } else if msg.WithdrawPendingAssetsMsg? {
        SettlingSameNames(self, s, info, msg.trader, msg.tradeId, s1, r);
      }
      SameNamesTidy(s, s1);
    }
  }

  lemma {:induction false} TidyRun(self: Addr, c: Chain, txs: seq<Tx>)
    requires Inv(c.store) && Tidy(c.store)
    ensures Tidy(Run(Lazy, self, c, txs).store)
    decreases |txs|
  {
    if txs != [] {
      if Try(Lazy, self, c, txs[0]).Some? {
        var (s1, r) := Step(Lazy, self, c.store, txs[0].info, txs[0].msg).value;
        TidyStep(self, c.store, txs[0].info, txs[0].msg, s1, r);
        StepInv(self, c.store, txs[0].info, txs[0].msg);
      }
      TidyRun(self, Exec(Lazy, self, c, txs[0]), txs[1..]);
    }
  }

  /** From instantiation, after every run: where a trade has a whitelist, every counter of it
      belongs to a user on it. */
  lemma {:induction false} WhitelistKeepsOut(self: Addr, admin: Addr, w: Wallets, txs: seq<Tx>, t: nat, c: nat)
    requires (t, c) in Run(Lazy, self, Chain(NewStore(admin), w), txs).store.counters
    ensures var s := Run(Lazy, self, Chain(NewStore(admin), w), txs).store;
            t in s.trades && (s.trades[t].whitelistedUsers != {} ==> s.counters[(t, c)].owner in s.trades[t].whitelistedUsers)
  {
    InitInv(admin);
    RunInv(self, Chain(NewStore(admin), w), txs);
    TidyRun(self, Chain(NewStore(admin), w), txs);
    assert AllAdmitted(Run(Lazy, self, Chain(NewStore(admin), w), txs).store);
  }

  /** From instantiation, after every run: a message that names no number goes to the sender's
      trade, or counter in the trade, of the greatest number; there is one exactly if the sender
      has any. */
  lemma {:induction false} LastIsGreatest(self: Addr, admin: Addr, w: Wallets, txs: seq<Tx>)
    ensures var s := Run(Lazy, self, Chain(NewStore(admin), w), txs).store; LastTrades(s) && LastCounters(s)
  {
    InitInv(admin);
    TidyRun(self, Chain(NewStore(admin), w), txs);
  }

  // ----- A whitelist is fixed once the trade is out

  ghost predicate Fixed(s: Store, s1: Store, t: nat)
    requires t in s.trades
  {
    t in s1.trades && (s.trades[t].state != Created ==> s1.trades[t].whitelistedUsers == s.trades[t].whitelistedUsers)
  }

  lemma {:induction false} FixedStep(self: Addr, s: Store, info: Info, msg: ExecuteMsg, s1: Store, r: Response, t: nat)
    requires Inv(s) && t in s.trades && Step(Lazy, self, s, info, msg) == Ok((s1, r))
    ensures Fixed(s, s1, t)
  {
    if msg.CreateTradeMsg? {
      var u, s2 := CreateEffect(self, s, info, msg.whitelist, msg.newComment);
      assert t < u;
    } else if msg.SuggestCounterTradeMsg? {
      var c := SuggestEffect(self, s, info, msg.tradeId, msg.newComment, s1, r);
    } else if OwnerMsg(msg) {
      OwnerSameNames(self, s, info, msg, s1, r);
    } else if TraderMsg(msg) {
      TraderSameNames(self, s, info, msg, s1, r);
    } else if msg.WithdrawPendingAssetsMsg? {
      SettlingSameNames(self, s, info, msg.trader, msg.tradeId, s1, r);
    }
  }

  /** Over any run the whitelist of a trade no longer being created stays as it is. */
  lemma {:induction false} WhitelistStays(self: Addr, c: Chain, txs: seq<Tx>, t: nat)
    requires Inv(c.store) && t in c.store.trades && c.store.trades[t].state != Created
    ensures var s := Run(Lazy, self, c, txs).store;
            t in s.trades && s.trades[t].whitelistedUsers == c.store.trades[t].whitelistedUsers
    decreases |txs|
  {
    if txs != [] {
      var d := Exec(Lazy, self, c, txs[0]);
      if Try(Lazy, self, c, txs[0]).Some? {
        var (s1, r) := Step(Lazy, self, c.store, txs[0].info, txs[0].msg).value;
        FixedStep(self, c.store, txs[0].info, txs[0].msg, s1, r, t);
        StepInv(self, c.store, txs[0].info, txs[0].msg);
        StepMoves(self, c.store, txs[0].info, txs[0].msg);
        assert TradeMoves(c.store.trades[t], s1.trades[t]);
      }
      WhitelistStays(self, d, txs[1..], t);
    }
  }
}

/** The contract that re-derives a counter's state on each load, and the one that rewrites
    all counters whenever a trade is accepted or cancelled, cannot be told apart: run side
    by side, every transaction succeeds or fails alike, with the same error and the same
    transfers. Refused and Cancelled counters are one state, "aborted", in the comparison:
    a refused counter cancelled after the acceptance is read back as refused. */
module P2PEager {
  import opened Base
  import opened Ledger
  import opened P2PTypes
  import opened P2PAssets
  import opened P2PSpec
  import opened P2PInvariant

  function Norm(st: TradeState): TradeState {
    if st == Cancelled then Refused else st
  }

  function NormInfo(info: TradeInfo): TradeInfo {
    info.(state := Norm(info.state))
  }

  function NormError(e: Error): Error {
    if e.WrongTradeState? then WrongTradeState(Norm(e.state))
    else if e.CantChangeCounterTradeState? then CantChangeCounterTradeState(Norm(e.from), e.to)
    else e
  }

  /** The two stores agree on everything but counter states; there, what the lazy store
      derives is what the eager store holds, aborted states identified. */
  ghost predicate Similar(l: Store, e: Store) {
    && l.admin == e.admin && l.feeContract == e.feeContract
    && l.lastTradeId == e.lastTradeId && l.trades == e.trades
    && l.lastUserTrade == e.lastUserTrade && l.lastUserCounter == e.lastUserCounter
    && l.counters.Keys == e.counters.Keys
    && (forall k :: k in l.counters ==> SameCounter(l, e, k))
  }

  ghost predicate SameCounter(l: Store, e: Store, k: CounterKey)
    requires k in l.counters && k in e.counters
  {
    k.0 in l.trades &&
    NormInfo(l.counters[k].(state := ActualState(l.trades[k.0].state, l.counters[k].state))) == NormInfo(e.counters[k])
  }

  /** Outcomes that a user cannot tell apart, in stores that stay similar. */
  ghost predicate Alike(lo: Outcome, eo: Outcome) {
    if lo.Ok? then eo.Ok? && lo.value.1 == eo.value.1 && Similar(lo.value.0, eo.value.0)
    else eo.Err? && NormError(lo.error) == NormError(eo.error)
  }

  /** Two successes that answer alike. */
  lemma {:induction false} AlikeOk(lo: Outcome, eo: Outcome, l: Store, e: Store, r: Response)
    requires lo == Ok((l, r)) && eo == Ok((e, r)) && Similar(l, e)
    ensures Alike(lo, eo)
  {
  }

  /** Loading a counter gives both systems the same record. */
  lemma {:induction false} SameLoad(l: Store, e: Store, t: nat, c: nat)
    requires Similar(l, e)
    ensures var lc, ec := LoadCounter(Lazy, l, t, c), LoadCounter(Eager, e, t, c);
            if lc.Ok? then
              && ec.Ok? && NormInfo(lc.value) == NormInfo(ec.value)
              && t in l.trades && ActualState(l.trades[t].state, lc.value.state) == lc.value.state
            else ec == lc
  {
    if (t, c) in l.counters {
      assert SameCounter(l, e, (t, c));
    }
  }

  predicate Aborting(st: TradeState) {
    st == Refused || st == Cancelled || st == Accepted
  }

  /** Counters read the same under both states of their trade. */
  predicate SameReading(a: TradeState, b: TradeState) {
    a == b || (!Aborting(a) && !Aborting(b))
  }

  lemma {:induction false} PutTradeSimilar(l: Store, e: Store, t: nat, info: TradeInfo)
    requires Similar(l, e) && t in l.trades && SameReading(info.state, l.trades[t].state)
    ensures Similar(PutTrade(l, t, info), PutTrade(e, t, info))
  {
    forall k | k in l.counters ensures SameCounter(PutTrade(l, t, info), PutTrade(e, t, info), k) {
      assert SameCounter(l, e, k);
    }
  }

  lemma {:induction false} PutCounterSimilar(l: Store, e: Store, t: nat, c: nat, li: TradeInfo, ei: TradeInfo)
    requires Similar(l, e) && t in l.trades
    requires ReadsAs(l.trades[t].state, li, ei)
    ensures Similar(PutCounter(l, t, c, li), PutCounter(e, t, c, ei))
  {
    forall k | k in l.counters ensures SameCounter(l, e, k) {
    }
    var l1, e1 := PutCounter(l, t, c, li), PutCounter(e, t, c, ei);
    forall k | k in l1.counters ensures SameCounter(l1, e1, k) {
      if k != (t, c) {
        assert SameCounter(l, e, k);
      }
    }
  }

  /** Fields that no counter's reading depends on. */
  lemma {:induction false} FrameSimilar(l: Store, e: Store, l1: Store, e1: Store)
    requires Similar(l, e)
    requires l1.counters == l.counters && e1.counters == e.counters
    requires l1.trades == e1.trades && l1.lastTradeId == e1.lastTradeId
    requires l1.admin == e1.admin && l1.feeContract == e1.feeContract
    requires l1.lastUserTrade == e1.lastUserTrade && l1.lastUserCounter == e1.lastUserCounter
    requires forall t :: t in l.trades ==> t in l1.trades && l1.trades[t].state == l.trades[t].state
    ensures Similar(l1, e1)
  {
    forall k | k in l1.counters ensures SameCounter(l1, e1, k) {
      assert SameCounter(l, e, k);
    }
  }

  /** The same rewriting of a loaded record in both systems. */
  ghost predicate SameRewrite(l: Result<TradeInfo, Error>, e: Result<TradeInfo, Error>) {
    if l.Ok? then e.Ok? && NormInfo(l.value) == NormInfo(e.value)
    else e.Err? && NormError(l.error) == NormError(e.error)
  }

  /** Written under a trade in state `st`, the lazy record is read as the eager one. */
  ghost predicate ReadsAs(st: TradeState, l: TradeInfo, e: TradeInfo) {
    NormInfo(l.(state := ActualState(st, l.state))) == NormInfo(e)
  }

  /** Two loaded records of a counter whose trade is in state `st`. */
  ghost predicate LoadedAlike(st: TradeState, l: TradeInfo, e: TradeInfo) {
    NormInfo(l) == NormInfo(e) && ActualState(st, l.state) == l.state
  }

  ghost predicate WritesAlike(st: TradeState, l: Result<TradeInfo, Error>, e: Result<TradeInfo, Error>) {
    SameRewrite(l, e) && (l.Ok? ==> ReadsAs(st, l.value, e.value))
  }

  // No handler's decision, and no record it writes, tells the aborted states apart.

  lemma {:induction false} AcceptedAlike(trade: TradeInfo, l: TradeInfo, e: TradeInfo, comment: Option<string>)
    requires NormInfo(l) == NormInfo(e)
    ensures SameRewrite(AcceptedCounter(trade, l, comment), AcceptedCounter(trade, e, comment))
  {
  }

  lemma {:induction false} RefusedAlike(trade: TradeInfo, l: TradeInfo, e: TradeInfo)
    requires LoadedAlike(trade.state, l, e)
    ensures WritesAlike(trade.state, RefusedCounter(trade, l), RefusedCounter(trade, e))
  {
  }

  lemma {:induction false} ReviewedAlike(trade: TradeInfo, l: TradeInfo, e: TradeInfo, comment: Option<string>)
    requires LoadedAlike(trade.state, l, e)
    ensures WritesAlike(trade.state, ReviewedCounter(trade, l, comment), ReviewedCounter(trade, e, comment))
  {
  }

  lemma {:induction false} ConfirmedAlike(st: TradeState, l: TradeInfo, e: TradeInfo)
    requires LoadedAlike(st, l, e)
    ensures WritesAlike(st, ConfirmedCounter(l), ConfirmedCounter(e))
  {
  }

  lemma {:induction false} CancelledAlike(st: TradeState, l: TradeInfo, e: TradeInfo)
    requires LoadedAlike(st, l, e)
    ensures WritesAlike(st, CancelledCounter(l), CancelledCounter(e))
  {
  }

  lemma {:induction false} EmptiedAlike(st: TradeState, l: TradeInfo, e: TradeInfo)
    requires LoadedAlike(st, l, e)
    ensures WritesAlike(st, EmptiedCounter(l), EmptiedCounter(e))
  {
  }

  lemma {:induction false} SettledAlike(st: TradeState, l: TradeInfo, e: TradeInfo)
    requires LoadedAlike(st, l, e)
    ensures WritesAlike(st, Settled(l), Settled(e))
  {
  }

  lemma {:induction false} CommentedAlike(st: TradeState, l: TradeInfo, e: TradeInfo, comment: string)
    requires LoadedAlike(st, l, e)
    ensures ReadsAs(st, l.(ownerComment := Some(comment)), e.(ownerComment := Some(comment)))
  {
  }

  lemma {:induction false} AddedAlike(st: TradeState, l: TradeInfo, e: TradeInfo, a: Asset, funds: seq<Coin>)
    requires LoadedAlike(st, l, e)
    ensures WritesAlike(st, Added(l, a, funds), Added(e, a, funds))
  {
  }

  lemma {:induction false} RemovedAlike(st: TradeState, l: TradeInfo, e: TradeInfo, rs: seq<Request>, tooLate: Error)
    requires LoadedAlike(st, l, e)
    ensures WritesAlike(st, Removed(l, rs, tooLate), Removed(e, rs, tooLate))
  {
  }

  /** A handler that rewrites one counter. */
  function Wrote(s: Store, t: nat, c: nat, next: Result<TradeInfo, Error>, r: Response): Outcome {
    var info :- next;
    Ok((PutCounter(s, t, c, info), r))
  }

  lemma {:induction false} WroteAlike(l: Store, e: Store, t: nat, c: nat, ln: Result<TradeInfo, Error>,
                                      en: Result<TradeInfo, Error>, r: Response)
    requires Similar(l, e) && t in l.trades && WritesAlike(l.trades[t].state, ln, en)
    ensures Alike(Wrote(l, t, c, ln, r), Wrote(e, t, c, en, r))
  {
    if ln.Ok? {
      PutCounterSimilar(l, e, t, c, ln.value, en.value);
    }
  }

  /** A handler that rewrites one trade. */
  function WroteTrade(s: Store, t: nat, next: Result<TradeInfo, Error>, r: Response): Outcome {
    var info :- next;
    Ok((PutTrade(s, t, info), r))
  }

  lemma {:induction false} WroteTradeAlike(l: Store, e: Store, t: nat, next: Result<TradeInfo, Error>, r: Response)
    requires Similar(l, e) && t in l.trades && (next.Ok? ==> SameReading(next.value.state, l.trades[t].state))
    ensures Alike(WroteTrade(l, t, next, r), WroteTrade(e, t, next, r))
  {
    if next.Ok? {
      PutTradeSimilar(l, e, t, next.value);
    }
  }

  // ----- Message by message

  lemma {:induction false} CreateTradeAlike(l: Store, e: Store, sender: Addr, whitelist: Option<seq<Addr>>, comment: Option<string>)
    requires Similar(l, e) && Inv(l)
    ensures Alike(CreateTrade(Lazy, l, sender, whitelist, comment), CreateTrade(Eager, e, sender, whitelist, comment))
  {
    var t := NextId(l.lastTradeId);
    FreshTradeInv(l, sender);
    CreatedTrade(Lazy, l, sender, whitelist, comment);
    CreatedTrade(Eager, e, sender, whitelist, comment);
    FrameSimilar(l, e, CreateTrade(Lazy, l, sender, whitelist, comment).value.0, CreateTrade(Eager, e, sender, whitelist, comment).value.0);
  }

  lemma {:induction false} SuggestAlike(l: Store, e: Store, sender: Addr, t: nat, comment: Option<string>)
    requires Similar(l, e) && CounterIds(l)
    ensures Alike(SuggestCounterTrade(Lazy, l, sender, t, comment), SuggestCounterTrade(Eager, e, sender, t, comment))
  {
    if CanSuggest(l, t, sender).Ok? {
      FreshCounter(l, t);
      SuggestedAlike(l, e, sender, t, comment);
    } else {
      NotSuggestible(l, e, sender, t, comment);
    }
  }

  lemma {:induction false} NotSuggestible(l: Store, e: Store, sender: Addr, t: nat, comment: Option<string>)
    requires Similar(l, e) && CanSuggest(l, t, sender).Err?
    ensures Alike(SuggestCounterTrade(Lazy, l, sender, t, comment), SuggestCounterTrade(Eager, e, sender, t, comment))
  {
  }

  lemma {:induction false} SuggestedAlike(l: Store, e: Store, sender: Addr, t: nat, comment: Option<string>)
    requires Similar(l, e) && CanSuggest(l, t, sender).Ok?
    requires (t, NextId(l.trades[t].lastCounterId)) !in l.counters
    ensures Alike(SuggestCounterTrade(Lazy, l, sender, t, comment), SuggestCounterTrade(Eager, e, sender, t, comment))
  {
    var trade := l.trades[t];
    var c := NextId(trade.lastCounterId);
    Suggested(Lazy, l, sender, t, comment);
    Suggested(Eager, e, sender, t, comment);
    var countered := CounteredTrade(trade);
    SuggestSimilar(l, e, sender, t, c, countered, comment);
    var counter := NewTradeInfo(sender).(ownerComment := comment);
    AlikeOk(SuggestCounterTrade(Lazy, l, sender, t, comment), SuggestCounterTrade(Eager, e, sender, t, comment),
            PutCounter(PutTrade(l, t, countered), t, c, counter).(lastUserCounter := l.lastUserCounter[(sender, t) := c]),
            PutCounter(PutTrade(e, t, countered), t, c, counter).(lastUserCounter := e.lastUserCounter[(sender, t) := c]), Silent());
  }

  lemma {:induction false} SuggestSimilar(l: Store, e: Store, sender: Addr, t: nat, c: nat, countered: TradeInfo,
                                          comment: Option<string>)
    requires Similar(l, e) && t in l.trades && countered.state == Countered
    requires l.trades[t].state == Published || l.trades[t].state == Countered
    ensures var counter := NewTradeInfo(sender).(ownerComment := comment);
            Similar(PutCounter(PutTrade(l, t, countered), t, c, counter).(lastUserCounter := l.lastUserCounter[(sender, t) := c]),
                    PutCounter(PutTrade(e, t, countered), t, c, counter).(lastUserCounter := e.lastUserCounter[(sender, t) := c]))
  {
    var counter := NewTradeInfo(sender).(ownerComment := comment);
    PutTradeSimilar(l, e, t, countered);
    var (l1, e1) := (PutTrade(l, t, countered), PutTrade(e, t, countered));
    PutCounterSimilar(l1, e1, t, c, counter, counter);
    var (l2, e2) := (PutCounter(l1, t, c, counter), PutCounter(e1, t, c, counter));
    FrameSimilar(l2, e2, l2.(lastUserCounter := l.lastUserCounter[(sender, t) := c]),
                         e2.(lastUserCounter := e.lastUserCounter[(sender, t) := c]));
  }

  /** The messages that write a trade without changing what its counters read as. */
  lemma {:induction false} AddToTradeIs(self: Addr, s: Store, info: Info, id: Option<nat>, a: Asset, t: nat)
    requires TradeIdOrLast(s, info.sender, id) == Ok(t) && IsTrader(s, info.sender, t).Ok?
    ensures AddToTrade(self, s, info, id, a) == WroteTrade(s, t, Added(s.trades[t], a, info.funds), Receive(self, info.sender, a))
  {
  }

  lemma {:induction false} AddToTradeAlike(self: Addr, l: Store, e: Store, info: Info, id: Option<nat>, a: Asset)
    requires Similar(l, e)
    ensures Alike(AddToTrade(self, l, info, id, a), AddToTrade(self, e, info, id, a))
  {
    var t := TradeIdOrLast(l, info.sender, id);
    if t.Ok? && IsTrader(l, info.sender, t.value).Ok? {
      AddToTradeIs(self, l, info, id, a, t.value);
      AddToTradeIs(self, e, info, id, a, t.value);
      WroteTradeAlike(l, e, t.value, Added(l.trades[t.value], a, info.funds), Receive(self, info.sender, a));
    }
  }

  lemma {:induction false} ConfirmTradeAlike(l: Store, e: Store, sender: Addr, id: Option<nat>)
    requires Similar(l, e)
    ensures Alike(ConfirmTrade(l, sender, id), ConfirmTrade(e, sender, id))
  {
    var t := TradeIdOrLast(l, sender, id);
    if t.Ok? && IsTrader(l, sender, t.value).Ok? {
      WroteTradeAlike(l, e, t.value, ConfirmedTrade(l.trades[t.value]), Silent());
    }
  }

  lemma {:induction false} RemoveFromTradeAlike(self: Addr, l: Store, e: Store, sender: Addr, t: nat, rs: seq<Request>)
    requires Similar(l, e)
    ensures Alike(RemoveFromTrade(self, l, sender, t, rs), RemoveFromTrade(self, e, sender, t, rs))
  {
    if IsTrader(l, sender, t).Ok? {
      WroteTradeAlike(l, e, t, Removed(l.trades[t], rs, TradeAlreadyPublished), Response(Sends(self, sender, Requested(rs)), NoPayout));
    }
  }

  lemma {:induction false} WhitelistIs(s: Store, sender: Addr, t: nat, users: seq<Addr>)
    requires CanModify(s, sender, t).Ok?
    ensures var (trade, us) := (s.trades[t], set u | u in users);
            && Quiet(AddWhitelistedUsers(s, sender, t, users))
               == WroteTrade(s, t, Ok(trade.(whitelistedUsers := trade.whitelistedUsers + us)), Silent())
            && Quiet(RemoveWhitelistedUsers(s, sender, t, users))
               == WroteTrade(s, t, Ok(trade.(whitelistedUsers := trade.whitelistedUsers - us)), Silent())
  {
  }

  lemma {:induction false} AddWhitelistAlike(l: Store, e: Store, sender: Addr, t: nat, users: seq<Addr>)
    requires Similar(l, e)
    ensures Alike(Quiet(AddWhitelistedUsers(l, sender, t, users)), Quiet(AddWhitelistedUsers(e, sender, t, users)))
  {
    if CanModify(l, sender, t).Ok? {
      var trade := l.trades[t];
      WhitelistIs(l, sender, t, users);
      WhitelistIs(e, sender, t, users);
      WroteTradeAlike(l, e, t, Ok(trade.(whitelistedUsers := trade.whitelistedUsers + set u | u in users)), Silent());
    }
  }

  lemma {:induction false} RemoveWhitelistAlike(l: Store, e: Store, sender: Addr, t: nat, users: seq<Addr>)
    requires Similar(l, e)
    ensures Alike(Quiet(RemoveWhitelistedUsers(l, sender, t, users)), Quiet(RemoveWhitelistedUsers(e, sender, t, users)))
  {
    if CanModify(l, sender, t).Ok? {
      var trade := l.trades[t];
      WhitelistIs(l, sender, t, users);
      WhitelistIs(e, sender, t, users);
      WroteTradeAlike(l, e, t, Ok(trade.(whitelistedUsers := trade.whitelistedUsers - set u | u in users)), Silent());
    }
  }

  lemma {:induction false} TradeCommentAlike(l: Store, e: Store, sender: Addr, t: nat, comment: string)
    requires Similar(l, e)
    ensures Alike(Quiet(SetComment(Lazy, l, sender, t, None, comment)), Quiet(SetComment(Eager, e, sender, t, None, comment)))
  {
    if IsTrader(l, sender, t).Ok? {
      WroteTradeAlike(l, e, t, Ok(l.trades[t].(ownerComment := Some(comment))), Silent());
    }
  }

  /** A trade without counters may change state at will. */
  lemma {:induction false} PutLonelyTradeSimilar(l: Store, e: Store, t: nat, info: TradeInfo)
    requires Similar(l, e) && t in l.trades
    requires forall k :: k in l.counters ==> k.0 != t
    ensures Similar(PutTrade(l, t, info), PutTrade(e, t, info))
  {
    forall k | k in l.counters ensures SameCounter(PutTrade(l, t, info), PutTrade(e, t, info), k) {
      assert SameCounter(l, e, k);
    }
  }

  lemma {:induction false} NoCounters(l: Store, t: nat)
    requires Inv(l) && t in l.trades && l.trades[t].state == Created
    ensures forall k :: k in l.counters ==> k.0 != t
  {
    assert TradeShape(l.trades[t]);
    forall k | k in l.counters ensures k.0 != t {
      assert (k.0, k.1) in l.counters;
    }
  }

  lemma {:induction false} WithdrawAllFromTradeAlike(self: Addr, l: Store, e: Store, sender: Addr, t: nat)
    requires Similar(l, e) && Inv(l)
    ensures Alike(WithdrawAllFromTrade(self, l, sender, t), WithdrawAllFromTrade(self, e, sender, t))
  {
    if IsTrader(l, sender, t).Ok? && EmptiedTrade(l.trades[t]).Ok? {
      var paid := EmptiedTrade(l.trades[t]).value;
      if l.trades[t].state == Created {
        NoCounters(l, t);
        PutLonelyTradeSimilar(l, e, t, paid);
      } else {
        PutTradeSimilar(l, e, t, paid);
      }
    }
  }

  lemma {:induction false} SweptSame(l: Store, e: Store, t: nat, info: TradeInfo, k: CounterKey)
    requires k in l.counters && k in e.counters && SameCounter(l, e, k) && info.state == Cancelled
    ensures SameCounter(PutTrade(l, t, info), Sweep(PutTrade(e, t, info), t, None, Cancelled), k)
  {
  }

  /** Ending a trade lazily is sweeping its counters. */
  lemma {:induction false} SweepSimilar(l: Store, e: Store, t: nat, info: TradeInfo)
    requires Similar(l, e) && t in l.trades && info.state == Cancelled
    ensures Similar(PutTrade(l, t, info), Sweep(PutTrade(e, t, info), t, None, Cancelled))
  {
    var (l1, e1) := (PutTrade(l, t, info), Sweep(PutTrade(e, t, info), t, None, Cancelled));
    assert e1.counters.Keys == e.counters.Keys;
    forall k | k in l.counters ensures SameCounter(l1, e1, k) {
      SweptSame(l, e, t, info, k);
    }
  }

  lemma {:induction false} CancelTradeIs(m: Mode, s: Store, sender: Addr, t: nat)
    requires IsTrader(s, sender, t).Ok? && s.trades[t].state != Accepted
    ensures var s1 := PutTrade(s, t, s.trades[t].(state := Cancelled));
            CancelTrade(m, s, sender, t) == Ok((if m == Lazy then s1 else Sweep(s1, t, None, Cancelled), Silent()))
  {
  }

  lemma {:induction false} NotCancellable(l: Store, e: Store, sender: Addr, t: nat)
    requires l.trades == e.trades && (IsTrader(l, sender, t).Err? || l.trades[t].state == Accepted)
    ensures Alike(CancelTrade(Lazy, l, sender, t), CancelTrade(Eager, e, sender, t))
  {
  }

  lemma {:induction false} CancelTradeAlike(l: Store, e: Store, sender: Addr, t: nat)
    requires Similar(l, e)
    ensures Alike(CancelTrade(Lazy, l, sender, t), CancelTrade(Eager, e, sender, t))
  {
    if IsTrader(l, sender, t).Ok? && l.trades[t].state != Accepted {
      var info := l.trades[t].(state := Cancelled);
      SweepSimilar(l, e, t, info);
      CancelTradeIs(Lazy, l, sender, t);
      CancelTradeIs(Eager, e, sender, t);
      AlikeOk(CancelTrade(Lazy, l, sender, t), CancelTrade(Eager, e, sender, t),
              PutTrade(l, t, info), Sweep(PutTrade(e, t, info), t, None, Cancelled), Silent());
    } else {
      NotCancellable(l, e, sender, t);
    }
  }

  lemma {:induction false} AcceptedSame(l: Store, e: Store, t: nat, c: nat, info: TradeInfo, counter: TradeInfo, k: CounterKey)
    requires k in l.counters && k in e.counters && SameCounter(l, e, k)
    requires info.state == Accepted && counter.state == Accepted && (k.0 == t ==> l.counters[k].state != Accepted)
    ensures SameCounter(PutCounter(PutTrade(l, t, info), t, c, counter),
                        Sweep(PutCounter(PutTrade(e, t, info), t, c, counter), t, Some(c), Refused), k)
  {
  }

  lemma {:induction false} AcceptSimilar(l: Store, e: Store, t: nat, c: nat, info: TradeInfo, counter: TradeInfo)
    requires Similar(l, e) && t in l.trades && info.state == Accepted && (t, c) in l.counters && counter.state == Accepted
    requires forall k :: k in l.counters && k.0 == t ==> l.counters[k].state != Accepted
    ensures Similar(PutCounter(PutTrade(l, t, info), t, c, counter),
                    Sweep(PutCounter(PutTrade(e, t, info), t, c, counter), t, Some(c), Refused))
  {
    var l1 := PutCounter(PutTrade(l, t, info), t, c, counter);
    var e1 := Sweep(PutCounter(PutTrade(e, t, info), t, c, counter), t, Some(c), Refused);
    assert l1.counters.Keys == l.counters.Keys && e1.counters.Keys == e.counters.Keys;
    forall k | k in l1.counters ensures SameCounter(l1, e1, k) {
      AcceptedSame(l, e, t, c, info, counter, k);
    }
  }

  lemma {:induction false} NoneAccepted(l: Store, t: nat)
    requires Inv(l) && t in l.trades && l.trades[t].state == Countered
    ensures forall k :: k in l.counters && k.0 == t ==> l.counters[k].state != Accepted
  {
    assert TradeShape(l.trades[t]);
  }

  lemma {:induction false} AcceptedTogether(l: Store, e: Store, sender: Addr, t: nat, c: nat, comment: Option<string>,
                                            counter: TradeInfo)
    requires Similar(l, e) && IsTrader(l, sender, t).Ok? && (t, c) in l.counters
    requires LoadCounter(Lazy, l, t, c).Ok? && AcceptedCounter(l.trades[t], LoadCounter(Lazy, l, t, c).value, comment) == Ok(counter)
    requires LoadCounter(Eager, e, t, c).Ok? && AcceptedCounter(l.trades[t], LoadCounter(Eager, e, t, c).value, comment) == Ok(counter)
    requires forall k :: k in l.counters && k.0 == t ==> l.counters[k].state != Accepted
    ensures Alike(AcceptTrade(Lazy, l, sender, t, c, comment), AcceptTrade(Eager, e, sender, t, c, comment))
  {
    var info := l.trades[t].(state := Accepted, acceptedInfo := Some((t, c)));
    AcceptSimilar(l, e, t, c, info, counter);
    AlikeOk(AcceptTrade(Lazy, l, sender, t, c, comment), AcceptTrade(Eager, e, sender, t, c, comment),
            PutCounter(PutTrade(l, t, info), t, c, counter),
            Sweep(PutCounter(PutTrade(e, t, info), t, c, counter), t, Some(c), Refused), Silent());
  }

  lemma {:induction false} AcceptAlikeBeforehand(l: Store, e: Store, sender: Addr, t: nat, c: nat, comment: Option<string>)
    requires Similar(l, e) && t in l.trades && l.trades[t].state == Countered
    requires forall k :: k in l.counters && k.0 == t ==> l.counters[k].state != Accepted
    ensures Alike(AcceptTrade(Lazy, l, sender, t, c, comment), AcceptTrade(Eager, e, sender, t, c, comment))
  {
    SameLoad(l, e, t, c);
    if IsTrader(l, sender, t).Ok? && LoadCounter(Lazy, l, t, c).Ok? {
      var (li, ei) := (LoadCounter(Lazy, l, t, c).value, LoadCounter(Eager, e, t, c).value);
      AcceptedAlike(l.trades[t], li, ei, comment);
      if AcceptedCounter(l.trades[t], li, comment).Ok? {
        AcceptedTogether(l, e, sender, t, c, comment, AcceptedCounter(l.trades[t], li, comment).value);
      }
    }
  }

  lemma {:induction false} NotAcceptable(l: Store, e: Store, sender: Addr, t: nat, c: nat, comment: Option<string>)
    requires Similar(l, e) && (t in l.trades ==> l.trades[t].state != Countered)
    ensures Alike(AcceptTrade(Lazy, l, sender, t, c, comment), AcceptTrade(Eager, e, sender, t, c, comment))
  {
    SameLoad(l, e, t, c);
  }

  lemma {:induction false} AcceptAlike(l: Store, e: Store, sender: Addr, t: nat, c: nat, comment: Option<string>)
    requires Similar(l, e) && Inv(l)
    ensures Alike(AcceptTrade(Lazy, l, sender, t, c, comment), AcceptTrade(Eager, e, sender, t, c, comment))
  {
    if t in l.trades && l.trades[t].state == Countered {
      NoneAccepted(l, t);
      AcceptAlikeBeforehand(l, e, sender, t, c, comment);
    } else {
      NotAcceptable(l, e, sender, t, c, comment);
    }
  }

  lemma {:induction false} SetCommentAlike(l: Store, e: Store, sender: Addr, t: nat, c: nat, comment: string)
    requires Similar(l, e)
    ensures Alike(Quiet(SetComment(Lazy, l, sender, t, Some(c), comment)), Quiet(SetComment(Eager, e, sender, t, Some(c), comment)))
  {
    SameLoad(l, e, t, c);
    if IsCounterTrader(Lazy, l, sender, t, c).Ok? {
      var (li, ei) := (LoadCounter(Lazy, l, t, c).value, LoadCounter(Eager, e, t, c).value);
      CommentedAlike(l.trades[t].state, li, ei, comment);
      WroteAlike(l, e, t, c, Ok(li.(ownerComment := Some(comment))), Ok(ei.(ownerComment := Some(comment))), Silent());
    }
  }

  lemma {:induction false} RefuseAlike(l: Store, e: Store, sender: Addr, t: nat, c: nat)
    requires Similar(l, e)
    ensures Alike(RefuseCounterTrade(Lazy, l, sender, t, c), RefuseCounterTrade(Eager, e, sender, t, c))
  {
    SameLoad(l, e, t, c);
    if IsTrader(l, sender, t).Ok? && LoadCounter(Lazy, l, t, c).Ok? {
      var (li, ei) := (LoadCounter(Lazy, l, t, c).value, LoadCounter(Eager, e, t, c).value);
      RefusedAlike(l.trades[t], li, ei);
      WroteAlike(l, e, t, c, RefusedCounter(l.trades[t], li), RefusedCounter(l.trades[t], ei), Silent());
    }
  }

  lemma {:induction false} ReviewAlike(l: Store, e: Store, sender: Addr, t: nat, c: nat, comment: Option<string>)
    requires Similar(l, e)
    ensures Alike(ReviewCounterTrade(Lazy, l, sender, t, c, comment), ReviewCounterTrade(Eager, e, sender, t, c, comment))
  {
    SameLoad(l, e, t, c);
    if IsTrader(l, sender, t).Ok? && LoadCounter(Lazy, l, t, c).Ok? {
      var (li, ei) := (LoadCounter(Lazy, l, t, c).value, LoadCounter(Eager, e, t, c).value);
      ReviewedAlike(l.trades[t], li, ei, comment);
      WroteAlike(l, e, t, c, ReviewedCounter(l.trades[t], li, comment), ReviewedCounter(l.trades[t], ei, comment), Silent());
    }
  }

  lemma {:induction false} ConfirmCounterAlike(l: Store, e: Store, sender: Addr, t: nat, id: Option<nat>)
    requires Similar(l, e)
    ensures Alike(ConfirmCounterTrade(Lazy, l, sender, t, id), ConfirmCounterTrade(Eager, e, sender, t, id))
  {
    var rc := CounterIdOrLast(l, sender, t, id);
    if rc.Ok? {
      var c := rc.value;
      SameLoad(l, e, t, c);
      if IsCounterTrader(Lazy, l, sender, t, c).Ok? {
        var (li, ei) := (LoadCounter(Lazy, l, t, c).value, LoadCounter(Eager, e, t, c).value);
        ConfirmedAlike(l.trades[t].state, li, ei);
        WroteAlike(l, e, t, c, ConfirmedCounter(li), ConfirmedCounter(ei), Silent());
      }
    }
  }

  lemma {:induction false} CancelCounterAlike(l: Store, e: Store, sender: Addr, t: nat, c: nat)
    requires Similar(l, e)
    ensures Alike(CancelCounterTrade(Lazy, l, sender, t, c), CancelCounterTrade(Eager, e, sender, t, c))
  {
    SameLoad(l, e, t, c);
    if IsCounterTrader(Lazy, l, sender, t, c).Ok? {
      var (li, ei) := (LoadCounter(Lazy, l, t, c).value, LoadCounter(Eager, e, t, c).value);
      CancelledAlike(l.trades[t].state, li, ei);
      WroteAlike(l, e, t, c, CancelledCounter(li), CancelledCounter(ei), Silent());
    }
  }

  lemma {:induction false} WithdrawAllFromCounterAlike(self: Addr, l: Store, e: Store, sender: Addr, t: nat, c: nat)
    requires Similar(l, e)
    ensures Alike(WithdrawAllFromCounter(Lazy, self, l, sender, t, c), WithdrawAllFromCounter(Eager, self, e, sender, t, c))
  {
    SameLoad(l, e, t, c);
    if IsCounterTrader(Lazy, l, sender, t, c).Ok? {
      var (li, ei) := (LoadCounter(Lazy, l, t, c).value, LoadCounter(Eager, e, t, c).value);
      EmptiedAlike(l.trades[t].state, li, ei);
      WroteAlike(l, e, t, c, EmptiedCounter(li), EmptiedCounter(ei), Response(Sends(self, sender, li.assets), CounterPaid((t, c), sender)));
    }
  }

  lemma {:induction false} AddToCounterIs(m: Mode, self: Addr, s: Store, info: Info, t: nat, id: Option<nat>, a: Asset, c: nat)
    requires CounterIdOrLast(s, info.sender, t, id) == Ok(c) && IsCounterTrader(m, s, info.sender, t, c).Ok? && t in s.trades
    ensures AddToCounter(m, self, s, info, t, id, a)
         == Wrote(s, t, c, Added(LoadCounter(m, s, t, c).value, a, info.funds), Receive(self, info.sender, a))
  {
  }

  lemma {:induction false} AddToCounterAlike(self: Addr, l: Store, e: Store, info: Info, t: nat, id: Option<nat>, a: Asset)
    requires Similar(l, e)
    ensures Alike(AddToCounter(Lazy, self, l, info, t, id, a), AddToCounter(Eager, self, e, info, t, id, a))
  {
    var rc := CounterIdOrLast(l, info.sender, t, id);
    if rc.Ok? {
      SameLoad(l, e, t, rc.value);
      if IsCounterTrader(Lazy, l, info.sender, t, rc.value).Ok? {
        AddToCounterIs(Lazy, self, l, info, t, id, a, rc.value);
        AddToCounterIs(Eager, self, e, info, t, id, a, rc.value);
        AddedWroteAlike(l, e, t, rc.value, LoadCounter(Lazy, l, t, rc.value).value, LoadCounter(Eager, e, t, rc.value).value,
                        a, info.funds, Receive(self, info.sender, a));
      }
    }
  }

  lemma {:induction false} AddedWroteAlike(l: Store, e: Store, t: nat, c: nat, li: TradeInfo, ei: TradeInfo, a: Asset,
                                           funds: seq<Coin>, r: Response)
    requires Similar(l, e) && t in l.trades && LoadedAlike(l.trades[t].state, li, ei)
    ensures Alike(Wrote(l, t, c, Added(li, a, funds), r), Wrote(e, t, c, Added(ei, a, funds), r))
  {
    AddedAlike(l.trades[t].state, li, ei, a, funds);
    WroteAlike(l, e, t, c, Added(li, a, funds), Added(ei, a, funds), r);
  }

  lemma {:induction false} RemoveFromCounterAlike(self: Addr, l: Store, e: Store, sender: Addr, t: nat, c: nat, rs: seq<Request>)
    requires Similar(l, e)
    ensures Alike(RemoveFromCounter(Lazy, self, l, sender, t, c, rs), RemoveFromCounter(Eager, self, e, sender, t, c, rs))
  {
    SameLoad(l, e, t, c);
    if IsCounterTrader(Lazy, l, sender, t, c).Ok? {
      var (li, ei) := (LoadCounter(Lazy, l, t, c).value, LoadCounter(Eager, e, t, c).value);
      RemovedAlike(l.trades[t].state, li, ei, rs, CounterTradeAlreadyPublished);
      WroteAlike(l, e, t, c, Removed(li, rs, CounterTradeAlreadyPublished), Removed(ei, rs, CounterTradeAlreadyPublished),
                 Response(Sends(self, sender, Requested(rs)), NoPayout));
    }
  }

  lemma {:induction false} SettleAlike(self: Addr, l: Store, e: Store, t: nat, c: nat, trader: Addr)
    requires Similar(l, e) && LoadCounter(Lazy, l, t, c).Ok? && LoadCounter(Eager, e, t, c).Ok?
    ensures Alike(Settle(self, l, t, c, l.trades[t], LoadCounter(Lazy, l, t, c).value, trader),
                  Settle(self, e, t, c, l.trades[t], LoadCounter(Eager, e, t, c).value, trader))
  {
    SameLoad(l, e, t, c);
    var (trade, li, ei) := (l.trades[t], LoadCounter(Lazy, l, t, c).value, LoadCounter(Eager, e, t, c).value);
    if trade.owner == trader {
      SettledAlike(trade.state, li, ei);
      WroteAlike(l, e, t, c, Settled(li), Settled(ei), Response(Sends(self, trader, li.assets), CounterPaid((t, c), trader)));
    } else {
      WroteTradeAlike(l, e, t, Settled(trade), Response(Sends(self, trader, trade.assets), TradePaid(t, trader)));
    }
  }

  lemma {:induction false} WithdrawAcceptedAlike(self: Addr, l: Store, e: Store, sender: Addr, trader: Addr, t: nat)
    requires Similar(l, e)
    ensures Alike(WithdrawAcceptedFunds(Lazy, self, l, sender, trader, t), WithdrawAcceptedFunds(Eager, self, e, sender, trader, t))
  {
    if t in l.trades && l.trades[t].acceptedInfo.Some? {
      var c := l.trades[t].acceptedInfo.value.1;
      SameLoad(l, e, t, c);
      if LoadCounter(Lazy, l, t, c).Ok? {
        SettleAlike(self, l, e, t, c, trader);
      }
    }
  }

  lemma {:induction false} AdminAlike(l: Store, e: Store, sender: Addr, address: Addr)
    requires Similar(l, e)
    ensures Alike(SetNewOwner(l, sender, address), SetNewOwner(e, sender, address))
    ensures Alike(SetNewFeeContract(l, sender, address), SetNewFeeContract(e, sender, address))
  {
    FrameSimilar(l, e, l.(admin := address), e.(admin := address));
    FrameSimilar(l, e, l.(feeContract := Some(address)), e.(feeContract := Some(address)));
  }

  predicate OnCounter(msg: ExecuteMsg) {
    || (msg.AddAssetMsg? && (msg.action.ToLastCounterTrade? || msg.action.ToCounterTrade?))
    || (msg.RemoveAssetsMsg? && msg.ofCounter.Some?) || (msg.SetCommentMsg? && msg.ofCounter.Some?)
    || msg.SuggestCounterTradeMsg? || msg.ConfirmCounterTradeMsg? || msg.CancelCounterTradeMsg?
    || msg.RefuseCounterTradeMsg? || msg.ReviewCounterTradeMsg? || msg.WithdrawAllFromCounterMsg?
  }

  /** The messages that edit a counter's list or comment. */
  lemma {:induction false} CounterEditAlike(self: Addr, l: Store, e: Store, info: Info, msg: ExecuteMsg)
    requires Similar(l, e) && Inv(l)
    requires (msg.AddAssetMsg? && (msg.action.ToLastCounterTrade? || msg.action.ToCounterTrade?))
             || (msg.RemoveAssetsMsg? && msg.ofCounter.Some?) || (msg.SetCommentMsg? && msg.ofCounter.Some?)
    ensures Alike(Step(Lazy, self, l, info, msg), Step(Eager, self, e, info, msg))
  {
    match msg
    case AddAssetMsg(ToLastCounterTrade(t), a) => AddToCounterAlike(self, l, e, info, t, None, a);
    case AddAssetMsg(ToCounterTrade(t, c), a) => AddToCounterAlike(self, l, e, info, t, Some(c), a);
    case RemoveAssetsMsg(t, Some(c), rs) => RemoveFromCounterAlike(self, l, e, info.sender, t, c, rs);
    case SetCommentMsg(t, Some(c), comment) => SetCommentAlike(l, e, info.sender, t, c, comment);
  }

  lemma {:induction false} CounterStepAlike(self: Addr, l: Store, e: Store, info: Info, msg: ExecuteMsg)
    requires Similar(l, e) && Inv(l) && OnCounter(msg)
    ensures Alike(Step(Lazy, self, l, info, msg), Step(Eager, self, e, info, msg))
  {
    match msg
    case AddAssetMsg(_, _) => CounterEditAlike(self, l, e, info, msg);
    case RemoveAssetsMsg(_, _, _) => CounterEditAlike(self, l, e, info, msg);
    case SetCommentMsg(_, _, _) => CounterEditAlike(self, l, e, info, msg);
    case SuggestCounterTradeMsg(t, comment) => SuggestAlike(l, e, info.sender, t, comment);
    case ConfirmCounterTradeMsg(t, id) => ConfirmCounterAlike(l, e, info.sender, t, id);
    case CancelCounterTradeMsg(t, c) => CancelCounterAlike(l, e, info.sender, t, c);
    case RefuseCounterTradeMsg(t, c) => RefuseAlike(l, e, info.sender, t, c);
    case ReviewCounterTradeMsg(t, c, comment) => ReviewAlike(l, e, info.sender, t, c, comment);
    case WithdrawAllFromCounterMsg(t, c) => WithdrawAllFromCounterAlike(self, l, e, info.sender, t, c);
  }

  lemma {:induction false} TradeStepAlike(self: Addr, l: Store, e: Store, info: Info, msg: ExecuteMsg)
    requires Similar(l, e) && Inv(l) && !OnCounter(msg)
    ensures Alike(Step(Lazy, self, l, info, msg), Step(Eager, self, e, info, msg))
  {
    match msg
    case CreateTradeMsg(whitelist, comment) => CreateTradeAlike(l, e, info.sender, whitelist, comment);
    case AddAssetMsg(ToLastTrade, a) => AddToTradeAlike(self, l, e, info, None, a);
    case AddAssetMsg(ToTrade(t), a) => AddToTradeAlike(self, l, e, info, Some(t), a);
    case RemoveAssetsMsg(t, None, rs) => RemoveFromTradeAlike(self, l, e, info.sender, t, rs);
    case SetCommentMsg(t, None, comment) => TradeCommentAlike(l, e, info.sender, t, comment);
    case AddWhitelistedUsersMsg(t, users) => AddWhitelistAlike(l, e, info.sender, t, users);
    case RemoveWhitelistedUsersMsg(t, users) => RemoveWhitelistAlike(l, e, info.sender, t, users);
    case ConfirmTradeMsg(id) => ConfirmTradeAlike(l, e, info.sender, id);
    case AcceptTradeMsg(t, c, comment) => AcceptAlike(l, e, info.sender, t, c, comment);
    case CancelTradeMsg(t) => CancelTradeAlike(l, e, info.sender, t);
    case WithdrawPendingAssetsMsg(trader, t) => WithdrawAcceptedAlike(self, l, e, info.sender, trader, t);
    case WithdrawAllFromTradeMsg(t) => WithdrawAllFromTradeAlike(self, l, e, info.sender, t);
    case SetNewOwnerMsg(owner) => AdminAlike(l, e, info.sender, owner);
    case SetNewFeeContractMsg(feeContract) => AdminAlike(l, e, info.sender, feeContract);
  }

  lemma {:induction false} StepAlike(self: Addr, l: Store, e: Store, info: Info, msg: ExecuteMsg)
    requires Similar(l, e) && Inv(l)
    ensures Alike(Step(Lazy, self, l, info, msg), Step(Eager, self, e, info, msg))
  {
    if OnCounter(msg) {
      CounterStepAlike(self, l, e, info, msg);
    } else {
      TradeStepAlike(self, l, e, info, msg);
    }
  }

  // ----- Run by run

  lemma {:induction false} LazyIsEagerFrom(self: Addr, l: Chain, e: Chain, txs: seq<Tx>)
    requires Similar(l.store, e.store) && l.wallets == e.wallets && Inv(l.store)
    ensures Trace(Lazy, self, l, txs) == Trace(Eager, self, e, txs)
    ensures Run(Lazy, self, l, txs).wallets == Run(Eager, self, e, txs).wallets
    ensures Similar(Run(Lazy, self, l, txs).store, Run(Eager, self, e, txs).store)
    decreases |txs|
  {
    if txs != [] {
      var tx := txs[0];
      StepAlike(self, l.store, e.store, tx.info, tx.msg);
      if Try(Lazy, self, l, tx).Some? {
        StepInv(self, l.store, tx.info, tx.msg);
      }
      LazyIsEagerFrom(self, Exec(Lazy, self, l, tx), Exec(Eager, self, e, tx), txs[1..]);
    }
  }

  /** From instantiation on, the two systems give every transaction of every run the same
      outcome and the same responses, leave the same wallets, and read every counter alike. */
  lemma {:induction false} LazyIsEager(self: Addr, admin: Addr, w: Wallets, txs: seq<Tx>)
    ensures var start := Chain(NewStore(admin), w);
            && Trace(Lazy, self, start, txs) == Trace(Eager, self, start, txs)
            && Run(Lazy, self, start, txs).wallets == Run(Eager, self, start, txs).wallets
            && Similar(Run(Lazy, self, start, txs).store, Run(Eager, self, start, txs).store)
  {
    InitInv(admin);
    LazyIsEagerFrom(self, Chain(NewStore(admin), w), Chain(NewStore(admin), w), txs);
  }
}

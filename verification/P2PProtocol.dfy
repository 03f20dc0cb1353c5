/** The protocol of a trade, message by message: who may send what, at which displayed state,
    where it leads, and what it writes. Stated on the records alone. */
module P2PProtocol {
  import opened Base
  import opened Ledger
  import opened P2PTypes
  import opened P2PAssets
  import opened P2PSpec
  import opened P2PInvariant
  import opened P2PSettlement

  // ----- Records and the states they display

  predicate IsRecord(s: Store, l: ListId) {
    match l
    case TradeList(t) => t in s.trades
    case CounterList(q) => q in s.counters && q.0 in s.trades
  }

  function RecordOf(s: Store, l: ListId): TradeInfo
    requires IsRecord(s, l)
  {
    match l
    case TradeList(t) => s.trades[t]
    case CounterList(q) => s.counters[q]
  }

  /** A counter shows as accepted if its trade names it, as refused if its trade names another,
      as cancelled if its trade is; else as stored. */
  function Shown(s: Store, l: ListId): TradeState
    requires IsRecord(s, l)
  {
    match l
    case TradeList(t) => s.trades[t].state
    case CounterList(q) =>
      var trade := s.trades[q.0];
      if trade.acceptedInfo == Some(q) then Accepted
      else if trade.acceptedInfo.Some? then Refused
      else if trade.state == Cancelled then Cancelled
      else s.counters[q].state
  }

  lemma {:induction false} ShownIsRead(s: Store, q: CounterKey)
    requires Inv(s) && q in s.counters
    ensures IsRecord(s, CounterList(q))
    ensures Shown(s, CounterList(q)) == ActualState(s.trades[q.0].state, s.counters[q].state)
  {
    assert (q.0, q.1) in s.counters;
    assert TradeShape(s.trades[q.0]);
  }

  /** Nothing but the record `l` differs. */
  ghost predicate OnlyWrites(s: Store, s1: Store, l: ListId) {
    match l
    case TradeList(t) => t in s1.trades && s1 == s.(trades := s.trades[t := s1.trades[t]])
    case CounterList(q) => q in s1.counters && s1 == s.(counters := s.counters[q := s1.counters[q]])
  }

  // ----- What owners do with their own records

  predicate OwnerMsg(msg: ExecuteMsg) {
    msg.AddAssetMsg? || msg.RemoveAssetsMsg? || msg.AddWhitelistedUsersMsg? || msg.RemoveWhitelistedUsersMsg?
    || msg.SetCommentMsg? || msg.ConfirmTradeMsg? || msg.CancelTradeMsg? || msg.WithdrawAllFromTradeMsg?
    || msg.ConfirmCounterTradeMsg? || msg.CancelCounterTradeMsg? || msg.WithdrawAllFromCounterMsg?
  }

  function LastOr(last: Option<nat>, id: Option<nat>): Option<nat> {
    if id.Some? then id else last
  }

  function TradeNamed(id: Option<nat>): Option<ListId> {
    if id.Some? then Some(TradeList(id.value)) else None
  }

  function CounterNamed(t: nat, id: Option<nat>): Option<ListId> {
    if id.Some? then Some(CounterList((t, id.value))) else None
  }

  /** The record an owner's message is about. */
  function About(s: Store, who: Addr, msg: ExecuteMsg): Option<ListId>
    requires OwnerMsg(msg)
  {
    match msg
    case AddAssetMsg(ToLastTrade, _) => TradeNamed(Lookup(s.lastUserTrade, who))
    case AddAssetMsg(ToTrade(t), _) => Some(TradeList(t))
    case AddAssetMsg(ToLastCounterTrade(t), _) => CounterNamed(t, Lookup(s.lastUserCounter, (who, t)))
    case AddAssetMsg(ToCounterTrade(t, c), _) => Some(CounterList((t, c)))
    case RemoveAssetsMsg(t, c, _) => if c.None? then Some(TradeList(t)) else CounterNamed(t, c)
    case SetCommentMsg(t, c, _) => if c.None? then Some(TradeList(t)) else CounterNamed(t, c)
    case ConfirmTradeMsg(id) => TradeNamed(LastOr(Lookup(s.lastUserTrade, who), id))
    case ConfirmCounterTradeMsg(t, c) => CounterNamed(t, LastOr(Lookup(s.lastUserCounter, (who, t)), c))
    case CancelCounterTradeMsg(t, c) => Some(CounterList((t, c)))
    case WithdrawAllFromCounterMsg(t, c) => Some(CounterList((t, c)))
    case _ => Some(TradeList(msg.tradeId))
  }

  /** The displayed states in which an owner's message is taken. */
  predicate Open(msg: ExecuteMsg, st: TradeState) {
    if msg.SetCommentMsg? then true
    else if msg.CancelTradeMsg? || msg.CancelCounterTradeMsg? then st != Accepted
    else if msg.WithdrawAllFromTradeMsg? then st == Created || st == Cancelled
    else if msg.WithdrawAllFromCounterMsg? then st == Created || st == Refused || st == Cancelled
    else st == Created
  }

  /** Where it leads. */
  function Leads(msg: ExecuteMsg, st: TradeState): TradeState {
    if msg.ConfirmTradeMsg? || msg.ConfirmCounterTradeMsg? then Published
    else if msg.CancelTradeMsg? || msg.CancelCounterTradeMsg? then Cancelled
    else if (msg.WithdrawAllFromTradeMsg? || msg.WithdrawAllFromCounterMsg?) && st == Created then Cancelled
    else st
  }

  /** Announced coins are the coins sent, what is taken out is there, and nothing is emptied
      twice. */
  predicate Fitting(info: TradeInfo, funds: seq<Coin>, msg: ExecuteMsg) {
    && (msg.AddAssetMsg? && msg.asset.Native? ==> funds == [msg.asset.coin])
    && (msg.RemoveAssetsMsg? ==> Removal(info.assets, msg.assets).Ok?)
    && (msg.WithdrawAllFromTradeMsg? || msg.WithdrawAllFromCounterMsg? ==> !info.assetsWithdrawn)
  }

  ghost predicate OwnerMay(s: Store, info: Info, msg: ExecuteMsg)
    requires OwnerMsg(msg)
  {
    var l := About(s, info.sender, msg);
    && l.Some? && IsRecord(s, l.value)
    && RecordOf(s, l.value).owner == info.sender
    && Open(msg, Shown(s, l.value))
    && Fitting(RecordOf(s, l.value), info.funds, msg)
  }

  lemma {:induction false} TradeOwnerAccepts(self: Addr, s: Store, info: Info, msg: ExecuteMsg, t: nat)
    requires OwnerMsg(msg) && About(s, info.sender, msg) == Some(TradeList(t))
    ensures Step(Lazy, self, s, info, msg).Ok? <==> OwnerMay(s, info, msg)
  {
  }

  lemma {:induction false} CounterOwnerAccepts(self: Addr, s: Store, info: Info, msg: ExecuteMsg, q: CounterKey)
    requires Inv(s) && OwnerMsg(msg) && About(s, info.sender, msg) == Some(CounterList(q))
    ensures Step(Lazy, self, s, info, msg).Ok? <==> OwnerMay(s, info, msg)
  {
    if q in s.counters {
      ShownIsRead(s, q);
      if ListMsg(msg) {
        CounterListAccepts(self, s, info, msg, q);
      } else {
        CounterMarkAccepts(self, s, info, msg, q);
      }
    }
  }

  lemma {:induction false} CounterListAccepts(self: Addr, s: Store, info: Info, msg: ExecuteMsg, q: CounterKey)
    requires ListMsg(msg) && About(s, info.sender, msg) == Some(CounterList(q)) && IsRecord(s, CounterList(q))
    requires Shown(s, CounterList(q)) == ActualState(s.trades[q.0].state, s.counters[q].state)
    ensures Step(Lazy, self, s, info, msg).Ok? <==> OwnerMay(s, info, msg)
  {
  }

  lemma {:induction false} CounterMarkAccepts(self: Addr, s: Store, info: Info, msg: ExecuteMsg, q: CounterKey)
    requires OwnerMsg(msg) && !ListMsg(msg) && About(s, info.sender, msg) == Some(CounterList(q)) && IsRecord(s, CounterList(q))
    requires Shown(s, CounterList(q)) == ActualState(s.trades[q.0].state, s.counters[q].state)
    ensures Step(Lazy, self, s, info, msg).Ok? <==> OwnerMay(s, info, msg)
  {
  }

  /** An owner's message is accepted if and only if the record is the sender's, its displayed
      state is one of those listed, and what it names is there. */
  lemma {:induction false} OwnerAcceptsIff(self: Addr, s: Store, info: Info, msg: ExecuteMsg)
    requires Inv(s) && OwnerMsg(msg)
    ensures Step(Lazy, self, s, info, msg).Ok? <==> OwnerMay(s, info, msg)
  {
    match About(s, info.sender, msg)
    case Some(TradeList(t)) => TradeOwnerAccepts(self, s, info, msg, t);
    case Some(CounterList(q)) => CounterOwnerAccepts(self, s, info, msg, q);
    case None =>
  }

  /** What it writes besides the state. */
  function Edited(a: TradeInfo, msg: ExecuteMsg): TradeInfo
    requires msg.RemoveAssetsMsg? ==> Removal(a.assets, msg.assets).Ok?
  {
    match msg
    case AddAssetMsg(_, asset) => a.(assets := Deposit(a.assets, asset))
    case RemoveAssetsMsg(_, _, rs) => a.(assets := Removal(a.assets, rs).value)
    case AddWhitelistedUsersMsg(_, users) => a.(whitelistedUsers := a.whitelistedUsers + set u | u in users)
    case RemoveWhitelistedUsersMsg(_, users) => a.(whitelistedUsers := a.whitelistedUsers - set u | u in users)
    case SetCommentMsg(_, _, comment) => a.(ownerComment := Some(comment))
    case WithdrawAllFromTradeMsg(_) => a.(assetsWithdrawn := true)
    case WithdrawAllFromCounterMsg(_, _) => a.(assetsWithdrawn := true)
    case _ => a
  }

  /** What it orders moved: a deposit that is no coin comes in, a removal sends what it names,
      emptying sends all. */
  function Ordered(self: Addr, who: Addr, a: TradeInfo, msg: ExecuteMsg): seq<Transfer> {
    match msg
    case AddAssetMsg(_, asset) => if asset.Native? then [] else [Transfer(who, self, asset)]
    case RemoveAssetsMsg(_, _, rs) => Sends(self, who, Requested(rs))
    case WithdrawAllFromTradeMsg(_) => Sends(self, who, a.assets)
    case WithdrawAllFromCounterMsg(_, _) => Sends(self, who, a.assets)
    case _ => []
  }

  /** The counters of a trade that has accepted one show what that decided, whatever is stored. */
  predicate Decided(s: Store, l: ListId)
    requires IsRecord(s, l)
  {
    l.CounterList? && s.trades[l.q.0].acceptedInfo.Some?
  }

  ghost predicate OwnerDid(self: Addr, s: Store, info: Info, msg: ExecuteMsg, l: ListId, s1: Store, r: Response)
    requires OwnerMsg(msg) && IsRecord(s, l) && Fitting(RecordOf(s, l), info.funds, msg)
  {
    && OnlyWrites(s, s1, l) && IsRecord(s1, l)
    && Shown(s1, l) == (if Decided(s, l) then Shown(s, l) else Leads(msg, Shown(s, l)))
    && RecordOf(s1, l) == Edited(RecordOf(s, l), msg).(state := RecordOf(s1, l).state)
    && r.messages == Ordered(self, info.sender, RecordOf(s, l), msg)
  }

  predicate ListMsg(msg: ExecuteMsg) {
    msg.AddAssetMsg? || msg.RemoveAssetsMsg?
  }

  lemma {:induction false} TradeListDid(self: Addr, s: Store, info: Info, msg: ExecuteMsg, t: nat, s1: Store, r: Response)
    requires ListMsg(msg) && About(s, info.sender, msg) == Some(TradeList(t)) && OwnerMay(s, info, msg)
    requires Step(Lazy, self, s, info, msg) == Ok((s1, r))
    ensures OwnerDid(self, s, info, msg, TradeList(t), s1, r)
  {
  }

  lemma {:induction false} TradeMarkDid(self: Addr, s: Store, info: Info, msg: ExecuteMsg, t: nat, s1: Store, r: Response)
    requires OwnerMsg(msg) && !ListMsg(msg) && About(s, info.sender, msg) == Some(TradeList(t)) && OwnerMay(s, info, msg)
    requires Step(Lazy, self, s, info, msg) == Ok((s1, r))
    ensures OwnerDid(self, s, info, msg, TradeList(t), s1, r)
  {
  }

  /** What a counter's owner wrote, state aside. */
  ghost predicate CounterEdited(self: Addr, s: Store, info: Info, msg: ExecuteMsg, q: CounterKey, s1: Store, r: Response)
    requires q in s.counters && Fitting(s.counters[q], info.funds, msg)
  {
    && OnlyWrites(s, s1, CounterList(q))
    && s1.counters[q] == Edited(s.counters[q], msg).(state := s1.counters[q].state)
    && r.messages == Ordered(self, info.sender, s.counters[q], msg)
  }

  lemma {:induction false} CounterListDid(self: Addr, s: Store, info: Info, msg: ExecuteMsg, q: CounterKey, s1: Store, r: Response)
    requires ListMsg(msg) && About(s, info.sender, msg) == Some(CounterList(q)) && OwnerMay(s, info, msg)
    requires q.0 in s.trades && Step(Lazy, self, s, info, msg) == Ok((s1, r))
    ensures CounterEdited(self, s, info, msg, q, s1, r)
    ensures s1.counters[q].state == ActualState(s.trades[q.0].state, s.counters[q].state)
  {
  }

  lemma {:induction false} CounterMarkDid(self: Addr, s: Store, info: Info, msg: ExecuteMsg, q: CounterKey, s1: Store, r: Response)
    requires OwnerMsg(msg) && !ListMsg(msg) && About(s, info.sender, msg) == Some(CounterList(q)) && OwnerMay(s, info, msg)
    requires q.0 in s.trades && Step(Lazy, self, s, info, msg) == Ok((s1, r))
    ensures CounterEdited(self, s, info, msg, q, s1, r)
    ensures s1.counters[q].state == Leads(msg, ActualState(s.trades[q.0].state, s.counters[q].state))
  {
  }

  lemma {:induction false} TradeOwnerDid(self: Addr, s: Store, info: Info, msg: ExecuteMsg, t: nat, s1: Store, r: Response)
    requires OwnerMsg(msg) && About(s, info.sender, msg) == Some(TradeList(t)) && OwnerMay(s, info, msg)
    requires Step(Lazy, self, s, info, msg) == Ok((s1, r))
    ensures OwnerDid(self, s, info, msg, TradeList(t), s1, r)
  {
    if ListMsg(msg) {
      TradeListDid(self, s, info, msg, t, s1, r);
    } else {
      TradeMarkDid(self, s, info, msg, t, s1, r);
    }
  }

  /** Storing where a message leads shows it, unless the trade has decided. */
  lemma {:induction false} ShownAfter(s: Store, s1: Store, q: CounterKey, msg: ExecuteMsg)
    requires Inv(s) && OwnerMsg(msg) && q in s.counters && IsRecord(s, CounterList(q)) && Open(msg, Shown(s, CounterList(q)))
    requires OnlyWrites(s, s1, CounterList(q)) && s1.counters[q].state == Leads(msg, Shown(s, CounterList(q)))
    ensures Shown(s1, CounterList(q))
         == if Decided(s, CounterList(q)) then Shown(s, CounterList(q)) else Leads(msg, Shown(s, CounterList(q)))
  {
    assert TradeShape(s.trades[q.0]);
  }

  lemma {:induction false} CounterWrote(self: Addr, s: Store, info: Info, msg: ExecuteMsg, q: CounterKey, s1: Store, r: Response)
    requires OwnerMsg(msg) && About(s, info.sender, msg) == Some(CounterList(q)) && OwnerMay(s, info, msg)
    requires Shown(s, CounterList(q)) == ActualState(s.trades[q.0].state, s.counters[q].state)
    requires Step(Lazy, self, s, info, msg) == Ok((s1, r))
    ensures CounterEdited(self, s, info, msg, q, s1, r)
    ensures s1.counters[q].state == Leads(msg, Shown(s, CounterList(q)))
  {
    if ListMsg(msg) {
      CounterListDid(self, s, info, msg, q, s1, r);
    } else {
      CounterMarkDid(self, s, info, msg, q, s1, r);
    }
  }

  lemma {:induction false} CounterOwnerDid(self: Addr, s: Store, info: Info, msg: ExecuteMsg, q: CounterKey, s1: Store, r: Response)
    requires Inv(s) && OwnerMsg(msg) && About(s, info.sender, msg) == Some(CounterList(q)) && OwnerMay(s, info, msg)
    requires Step(Lazy, self, s, info, msg) == Ok((s1, r))
    ensures OwnerDid(self, s, info, msg, CounterList(q), s1, r)
  {
    ShownIsRead(s, q);
    CounterWrote(self, s, info, msg, q, s1, r);
    ShownAfter(s, s1, q, msg);
  }

  /** It then writes that record only, leads where the table says unless the trade has decided,
      and orders what it names. */
  lemma {:induction false} OwnerEffect(self: Addr, s: Store, info: Info, msg: ExecuteMsg, s1: Store, r: Response)
    requires Inv(s) && OwnerMsg(msg) && Step(Lazy, self, s, info, msg) == Ok((s1, r))
    ensures OwnerMay(s, info, msg) && OwnerDid(self, s, info, msg, About(s, info.sender, msg).value, s1, r)
  {
    OwnerAcceptsIff(self, s, info, msg);
    match About(s, info.sender, msg)
    case Some(TradeList(t)) => TradeOwnerDid(self, s, info, msg, t, s1, r);
    case Some(CounterList(q)) => CounterOwnerDid(self, s, info, msg, q, s1, r);
  }

  // ----- Why an owner's message is refused

  function Missing(msg: ExecuteMsg, l: Option<ListId>): Error {
    if l.Some? && l.value.CounterList? then NotFoundInCounterTradeInfo
    else if l.None? && (msg.AddAssetMsg? || msg.ConfirmCounterTradeMsg?) && !(msg.AddAssetMsg? && msg.action.ToLastTrade?)
    then NotFoundInCounterTradeInfo
    else NotFoundInTradeInfo
  }

  function NotYours(l: ListId): Error {
    if l.TradeList? then TraderNotCreator else CounterTraderNotCreator
  }

  function Shut(msg: ExecuteMsg, l: ListId, st: TradeState): Error {
    match msg
    case RemoveAssetsMsg(_, _, _) => if l.TradeList? then TradeAlreadyPublished else CounterTradeAlreadyPublished
    case ConfirmTradeMsg(_) => CantChangeTradeState(st, Published)
    case ConfirmCounterTradeMsg(_, _) => CantChangeCounterTradeState(st, Published)
    case CancelTradeMsg(_) => CantChangeTradeState(st, Cancelled)
    case CancelCounterTradeMsg(_, _) => CantChangeCounterTradeState(st, Cancelled)
    case WithdrawAllFromTradeMsg(_) => TradeNotCancelled
    case WithdrawAllFromCounterMsg(_, _) => CounterTradeNotAborted
    case _ => WrongTradeState(st)
  }

  /** What does not fit: the coins, or a list emptied before; a removal says why itself. */
  predicate Objects(a: TradeInfo, funds: seq<Coin>, msg: ExecuteMsg, e: Error) {
    match msg
    case AddAssetMsg(_, _) => e == Std
    case RemoveAssetsMsg(_, _, rs) => Removal(a.assets, rs) == Err(e)
    case _ => e == TradeAlreadyWithdrawn
  }

  /** The first thing wrong is what is answered: no such record, not the sender's, not open, not
      fitting. */
  lemma {:induction false} OwnerRefused(self: Addr, s: Store, info: Info, msg: ExecuteMsg)
    requires Inv(s) && OwnerMsg(msg)
    ensures var l := About(s, info.sender, msg);
            var out := Step(Lazy, self, s, info, msg);
            if l.None? || !IsRecord(s, l.value) then out == Err(Missing(msg, l))
            else RefusedAs(s, info, msg, l.value, out)
  {
    match About(s, info.sender, msg)
    case Some(CounterList(q)) => CounterRefused(self, s, info, msg, q);
    case Some(TradeList(t)) => TradeRefused(self, s, info, msg, t);
    case None =>
  }

  predicate RefusedAs(s: Store, info: Info, msg: ExecuteMsg, l: ListId, out: Outcome)
    requires IsRecord(s, l)
  {
    if RecordOf(s, l).owner != info.sender then out == Err(NotYours(l))
    else if !Open(msg, Shown(s, l)) then out == Err(Shut(msg, l, Shown(s, l)))
    else out.Err? ==> Objects(RecordOf(s, l), info.funds, msg, out.error)
  }

  lemma {:induction false} TradeRefused(self: Addr, s: Store, info: Info, msg: ExecuteMsg, t: nat)
    requires OwnerMsg(msg) && About(s, info.sender, msg) == Some(TradeList(t))
    ensures var out := Step(Lazy, self, s, info, msg);
            if IsRecord(s, TradeList(t)) then RefusedAs(s, info, msg, TradeList(t), out) else out == Err(NotFoundInTradeInfo)
  {
  }

  lemma {:induction false} CounterListRefused(self: Addr, s: Store, info: Info, msg: ExecuteMsg, q: CounterKey)
    requires ListMsg(msg) && About(s, info.sender, msg) == Some(CounterList(q)) && IsRecord(s, CounterList(q))
    requires Shown(s, CounterList(q)) == ActualState(s.trades[q.0].state, s.counters[q].state)
    ensures RefusedAs(s, info, msg, CounterList(q), Step(Lazy, self, s, info, msg))
  {
  }

  lemma {:induction false} CounterMarkRefused(self: Addr, s: Store, info: Info, msg: ExecuteMsg, q: CounterKey)
    requires OwnerMsg(msg) && !ListMsg(msg) && About(s, info.sender, msg) == Some(CounterList(q)) && IsRecord(s, CounterList(q))
    requires Shown(s, CounterList(q)) == ActualState(s.trades[q.0].state, s.counters[q].state)
    ensures RefusedAs(s, info, msg, CounterList(q), Step(Lazy, self, s, info, msg))
  {
  }

  lemma {:induction false} CounterRefused(self: Addr, s: Store, info: Info, msg: ExecuteMsg, q: CounterKey)
    requires Inv(s) && OwnerMsg(msg) && About(s, info.sender, msg) == Some(CounterList(q))
    ensures var out := Step(Lazy, self, s, info, msg);
            if IsRecord(s, CounterList(q)) then RefusedAs(s, info, msg, CounterList(q), out) else out == Err(NotFoundInCounterTradeInfo)
  {
    if q in s.counters {
      ShownIsRead(s, q);
      if ListMsg(msg) {
        CounterListRefused(self, s, info, msg, q);
      } else {
        CounterMarkRefused(self, s, info, msg, q);
      }
    }
  }

  // ----- What the trade's owner does with other people's counters

  predicate TraderMsg(msg: ExecuteMsg) {
    msg.AcceptTradeMsg? || msg.RefuseCounterTradeMsg? || msg.ReviewCounterTradeMsg?
  }

  predicate TraderOpen(msg: ExecuteMsg, trade: TradeState, counter: TradeState) {
    match msg
    case AcceptTradeMsg(_, _, _) => trade == Countered && counter == Published
    case ReviewCounterTradeMsg(_, _, _) => trade != Accepted && trade != Cancelled && counter == Published
    case _ => trade != Accepted && trade != Cancelled
  }

  ghost predicate TraderMay(s: Store, info: Info, msg: ExecuteMsg)
    requires TraderMsg(msg)
  {
    var q := (msg.tradeId, msg.counterId);
    && IsRecord(s, CounterList(q))
    && s.trades[q.0].owner == info.sender
    && TraderOpen(msg, s.trades[q.0].state, Shown(s, CounterList(q)))
  }

  /** Accepting, refusing and reviewing are the trade owner's, at the listed states. */
  lemma {:induction false} TraderAcceptsIff(self: Addr, s: Store, info: Info, msg: ExecuteMsg)
    requires Inv(s) && TraderMsg(msg)
    ensures Step(Lazy, self, s, info, msg).Ok? <==> TraderMay(s, info, msg)
  {
    if (msg.tradeId, msg.counterId) in s.counters {
      ShownIsRead(s, (msg.tradeId, msg.counterId));
    }
  }

  /** Why the trade's owner is refused: no such trade, not theirs, no such counter, or the state of
      either. */
  lemma {:induction false} TraderRefused(self: Addr, s: Store, info: Info, msg: ExecuteMsg)
    requires Inv(s) && TraderMsg(msg)
    ensures var q := (msg.tradeId, msg.counterId);
            var out := Step(Lazy, self, s, info, msg);
            if q.0 !in s.trades then out == Err(NotFoundInTradeInfo)
            else if s.trades[q.0].owner != info.sender then out == Err(TraderNotCreator)
            else if q !in s.counters then out == Err(NotFoundInCounterTradeInfo)
            else out.Err? ==> out.error == Untimely(msg, s.trades[q.0].state, Shown(s, CounterList(q)))
  {
    var q := (msg.tradeId, msg.counterId);
    if q in s.counters {
      ShownIsRead(s, q);
      if s.trades[q.0].owner == info.sender {
        UntimelyIs(self, s, info, msg);
      }
    }
  }

  function Untimely(msg: ExecuteMsg, trade: TradeState, counter: TradeState): Error {
    if msg.AcceptTradeMsg? then
      if trade != Countered then CantChangeTradeState(trade, Accepted) else CantAcceptNotPublishedCounter
    else if trade == Accepted then TradeAlreadyAccepted
    else if trade == Cancelled then TradeCancelled
    else CantChangeCounterTradeState(counter, Created)
  }

  lemma {:induction false} UntimelyIs(self: Addr, s: Store, info: Info, msg: ExecuteMsg)
    requires TraderMsg(msg) && IsRecord(s, CounterList((msg.tradeId, msg.counterId))) && s.trades[msg.tradeId].owner == info.sender
    requires var q := (msg.tradeId, msg.counterId); Shown(s, CounterList(q)) == ActualState(s.trades[q.0].state, s.counters[q].state)
    ensures var out := Step(Lazy, self, s, info, msg);
            out.Err? ==> out.error == Untimely(msg, s.trades[msg.tradeId].state, Shown(s, CounterList((msg.tradeId, msg.counterId))))
  {
  }

  /** The state each counter of the trade then shows. */
  ghost predicate CountersShow(s: Store, s1: Store, msg: ExecuteMsg)
    requires TraderMsg(msg)
  {
    forall q :: q in s.counters && IsRecord(s, CounterList(q)) ==>
      IsRecord(s1, CounterList(q)) &&
      Shown(s1, CounterList(q)) ==
        if q == (msg.tradeId, msg.counterId) then
          (if msg.AcceptTradeMsg? then Accepted else if msg.RefuseCounterTradeMsg? then Refused else Created)
        else if msg.AcceptTradeMsg? && q.0 == msg.tradeId then Refused
        else Shown(s, CounterList(q))
  }

  ghost predicate TraderWrites(s: Store, s1: Store, msg: ExecuteMsg)
    requires TraderMsg(msg) && msg.tradeId in s.trades && (msg.tradeId, msg.counterId) in s.counters
  {
    var q := (msg.tradeId, msg.counterId);
    var (a, trade) := (s.counters[q], s.trades[q.0]);
    && q in s1.counters
    && s1 == s.(trades := s1.trades, counters := s.counters[q := s1.counters[q]])
    && s1.trades == (if msg.AcceptTradeMsg? then s.trades[q.0 := trade.(state := Accepted, acceptedInfo := Some(q))] else s.trades)
    && s1.counters[q] == a.(state := s1.counters[q].state,
                            traderComment := if msg.RefuseCounterTradeMsg? then a.traderComment else msg.newComment)
  }

  lemma {:induction false} TraderWrote(self: Addr, s: Store, info: Info, msg: ExecuteMsg, s1: Store, r: Response)
    requires Inv(s) && TraderMsg(msg) && TraderMay(s, info, msg) && Step(Lazy, self, s, info, msg) == Ok((s1, r))
    ensures TraderWrites(s, s1, msg) && r == Silent()
    ensures s1.counters[(msg.tradeId, msg.counterId)].state
         == if msg.AcceptTradeMsg? then Accepted else if msg.RefuseCounterTradeMsg? then Refused else Created
  {
    ShownIsRead(s, (msg.tradeId, msg.counterId));
  }

  lemma {:induction false} WrittenShows(s: Store, s1: Store, msg: ExecuteMsg)
    requires Anchored(s) && AcceptedAgree(s) && TraderMsg(msg) && IsRecord(s, CounterList((msg.tradeId, msg.counterId)))
    requires TradeShape(s.trades[msg.tradeId])
    requires TraderOpen(msg, s.trades[msg.tradeId].state, Shown(s, CounterList((msg.tradeId, msg.counterId))))
    requires TraderWrites(s, s1, msg)
    requires s1.counters[(msg.tradeId, msg.counterId)].state
          == if msg.AcceptTradeMsg? then Accepted else if msg.RefuseCounterTradeMsg? then Refused else Created
    ensures CountersShow(s, s1, msg)
  {
    if msg.AcceptTradeMsg? {
      AcceptanceShows(s, s1, msg);
    }
  }

  lemma {:induction false} AcceptanceShows(s: Store, s1: Store, msg: ExecuteMsg)
    requires Anchored(s) && msg.AcceptTradeMsg? && msg.tradeId in s.trades && (msg.tradeId, msg.counterId) in s.counters
    requires s.trades[msg.tradeId].acceptedInfo.None? && TraderWrites(s, s1, msg)
    ensures CountersShow(s, s1, msg)
  {
  }

  /** Accepting one counter refuses every other; refusing and reviewing touch the one counter. */
  lemma {:induction false} TraderEffect(self: Addr, s: Store, info: Info, msg: ExecuteMsg, s1: Store, r: Response)
    requires Inv(s) && TraderMsg(msg) && Step(Lazy, self, s, info, msg) == Ok((s1, r))
    ensures TraderMay(s, info, msg) && TraderWrites(s, s1, msg) && CountersShow(s, s1, msg) && r == Silent()
  {
    TraderAcceptsIff(self, s, info, msg);
    TraderWrote(self, s, info, msg, s1, r);
    InvAnchored(s);
    WrittenShows(s, s1, msg);
  }

  // ----- Settlement and administration

  /** Only the fee contract settles, an accepted trade only, and pays a party a list not paid
      before: the owner of the trade the counter's, the owner of the counter the trade's. */
  lemma {:induction false} SettlementAcceptsIff(self: Addr, s: Store, info: Info, trader: Addr, t: nat)
    requires Inv(s)
    ensures Step(Lazy, self, s, info, WithdrawPendingAssetsMsg(trader, t)).Ok?
       <==> s.feeContract == Some(info.sender) && t in s.trades && s.trades[t].acceptedInfo.Some?
            && s.trades[t].acceptedInfo.value in s.counters
            && var (trade, counter) := (s.trades[t], s.counters[s.trades[t].acceptedInfo.value]);
               if trade.owner == trader then !counter.assetsWithdrawn
               else counter.owner == trader && !trade.assetsWithdrawn
  {
    if t in s.trades {
      assert TradeShape(s.trades[t]);
      if s.trades[t].acceptedInfo.Some? {
        assert s.trades[t].acceptedInfo.value.0 == t;
      }
    }
  }

  /** Why a settlement is refused: not the fee contract, no such trade, not accepted, paid before, or
      neither party. */
  lemma {:induction false} SettlementRefused(self: Addr, s: Store, info: Info, trader: Addr, t: nat)
    requires Inv(s)
    ensures var out := Step(Lazy, self, s, info, WithdrawPendingAssetsMsg(trader, t));
            if s.feeContract != Some(info.sender) then out == Err(Unauthorized)
            else if t !in s.trades then out == Err(NotFoundInTradeInfo)
            else if s.trades[t].acceptedInfo.None? then out == Err(TradeNotAccepted)
            else s.trades[t].acceptedInfo.value in s.counters
                 && (out.Err? ==> out.error == if trader == s.trades[t].owner || trader == s.counters[s.trades[t].acceptedInfo.value].owner
                                               then TradeAlreadyWithdrawn else NotWithdrawableByYou)
  {
    if t in s.trades {
      assert TradeShape(s.trades[t]);
      if s.trades[t].acceptedInfo.Some? {
        assert s.trades[t].acceptedInfo.value.0 == t;
      }
    }
  }

  /** It marks that one list as paid and sends the whole of it to the party. */
  lemma {:induction false} SettlementEffect(self: Addr, s: Store, info: Info, trader: Addr, t: nat, s1: Store, r: Response)
    requires Inv(s) && Step(Lazy, self, s, info, WithdrawPendingAssetsMsg(trader, t)) == Ok((s1, r))
    ensures t in s.trades && s.trades[t].acceptedInfo.Some? && s.trades[t].acceptedInfo.value in s.counters
    ensures var q := s.trades[t].acceptedInfo.value;
            var (trade, counter) := (s.trades[t], s.counters[q]);
            if trade.owner == trader then
              s1 == s.(counters := s.counters[q := counter.(assetsWithdrawn := true)])
              && r == Response(Sends(self, trader, counter.assets), CounterPaid(q, trader))
            else
              s1 == s.(trades := s.trades[t := trade.(assetsWithdrawn := true)])
              && r == Response(Sends(self, trader, trade.assets), TradePaid(t, trader))
  {
    assert TradeShape(s.trades[t]);
    assert s.trades[t].acceptedInfo.value.0 == t;
  }

  /** The administrator alone names the administrator and the fee contract. */
  lemma {:induction false} AdministrationIs(self: Addr, s: Store, info: Info, who: Addr)
    ensures Step(Lazy, self, s, info, SetNewOwnerMsg(who))
         == if info.sender == s.admin then Ok((s.(admin := who), Silent())) else Err(Unauthorized)
    ensures Step(Lazy, self, s, info, SetNewFeeContractMsg(who))
         == if info.sender == s.admin then Ok((s.(feeContract := Some(who)), Silent())) else Err(Unauthorized)
  {
  }
}

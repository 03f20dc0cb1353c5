/** The asset list of a trade or counter-trade: deposits merge into it, removals are by
    position (contracts/p2p-trading/src/state.rs and trade.rs). */
module P2PAssets {
  import opened Base
  import opened Ledger
  import opened P2PTypes

  // ----- Deposits

  /** The first position holding the fungible key `k`. */
  function Find(assets: seq<Asset>, k: Key): (r: Option<nat>)
    ensures r.Some? ==> r.value < |assets| && assets[r.value].Key() == k
                        && forall j :: 0 <= j < r.value ==> assets[j].Key() != k
    ensures r.None? ==> forall j :: 0 <= j < |assets| ==> assets[j].Key() != k
  {
    if assets == [] then None
    else if assets[0].Key() == k then Some(0)
    else
      match Find(assets[1..], k)
      case None => assert forall j :: 0 < j < |assets| ==> assets[j] == assets[1..][j - 1]; None
      case Some(i) => Some(i + 1)
  }

  function Grow(a: Asset, q: nat): (r: Asset)
    requires !a.Cw721?
    ensures r.Key() == a.Key() && r.Quantity() == a.Quantity() + q
    ensures r.HasContract() == a.HasContract() && !r.Cw721?
  {
    match a
    case Native(c) => Native(Coin(c.denom, c.amount + q))
    case Cw20(t, n) => Cw20(t, n + q)
    case Cw1155(t, id, n) => Cw1155(t, id, n + q)
  }

  /** The list after a deposit: an NFT is appended, a fungible asset joins its own kind. */
  function Deposit(assets: seq<Asset>, a: Asset): seq<Asset> {
    if a.Cw721? then assets + [a]
    else
      match Find(assets, a.Key())
      case None => assets + [a]
      case Some(i) => assets[i := Grow(assets[i], a.Quantity())]
  }

  /** A coin deposit must come with exactly that coin. */
  function AddToList(assets: seq<Asset>, a: Asset, funds: seq<Coin>): Result<seq<Asset>, Error> {
    if a.Native? && funds != [a.coin] then Err(Std) else Ok(Deposit(assets, a))
  }

  lemma {:induction false} DepositTotal(assets: seq<Asset>, a: Asset, k: Key)
    ensures Total(Deposit(assets, a), k) == Total(assets, k) + a.Of(k)
  {
    TotalConcat(assets, [a], k);
    var i := Find(assets, a.Key());
    if !a.Cw721? && i.Some? {
      TotalUpdate(assets, i.value, Grow(assets[i.value], a.Quantity()), k);
    }
  }

  /** No fungible asset is listed twice. */
  predicate UniqueFungible(assets: seq<Asset>) {
    forall i, j :: 0 <= i < j < |assets| && !assets[i].Cw721? ==> assets[i].Key() != assets[j].Key()
  }

  /** Every listed asset lives at a contract; in particular no listed NFT carries the
      deletion mark. */
  predicate Proper(assets: seq<Asset>) {
    forall i :: 0 <= i < |assets| ==> assets[i].HasContract()
  }

  lemma {:induction false} DepositKeepsUnique(assets: seq<Asset>, a: Asset)
    requires UniqueFungible(assets)
    ensures UniqueFungible(Deposit(assets, a))
  {
  }

  // ----- Removals

  /** The up-front check of one request against the stored list. A stored coin accepts a
      request of any other kind: that arm has no rejection. */
  function CheckRequest(assets: seq<Asset>, r: Request): Result<(), Error> {
    var (p, a) := r;
    if p >= |assets| then Err(AssetNotFound(p))
    else
      match assets[p]
      case Native(have) =>
        if !a.Native? then Ok(())
        else if have.denom != a.coin.denom then Err(AssetNotFound(p))
        else if have.amount < a.coin.amount then Err(TooMuchWithdrawn(have.denom, a.coin.amount, have.amount))
        else Ok(())
      case Cw20(address, amount) =>
        if !a.Cw20? || address != a.address then Err(AssetNotFound(p))
        else if amount < a.amount then Err(TooMuchWithdrawn(address, a.amount, amount))
        else Ok(())
      case Cw721(address, tokenId) =>
        if !a.Cw721? || address != a.address || tokenId != a.tokenId then Err(AssetNotFound(p))
        else Ok(())
      case Cw1155(address, tokenId, value) =>
        if !a.Cw1155? || address != a.address || tokenId != a.tokenId then Err(AssetNotFound(p))
        else if value < a.value then Err(TooMuchWithdrawn(address, a.value, value))
        else Ok(())
  }

  function CheckRequests(assets: seq<Asset>, rs: seq<Request>): Result<(), Error> {
    if rs == [] then Ok(())
    else
      var _ :- CheckRequest(assets, rs[0]);
      CheckRequests(assets, rs[1..])
  }

  /** One request executed. An NFT is only marked: its address becomes empty. A request
      whose kind differs from the stored one changes nothing. */
  function TakeOne(assets: seq<Asset>, r: Request): (out: Result<seq<Asset>, Error>)
    requires r.0 < |assets|
    ensures out.Ok? ==> |out.value| == |assets|
  {
    var (p, a) := r;
    match (assets[p], a)
    case (Native(have), Native(want)) =>
      if have.amount < want.amount then Err(Overflow)
      else Ok(assets[p := Native(Coin(have.denom, have.amount - want.amount))])
    case (Cw20(address, amount), Cw20(_, want)) =>
      if amount < want then Err(Overflow) else Ok(assets[p := Cw20(address, amount - want)])
    case (Cw721(_, tokenId), Cw721(_, _)) =>
      Ok(assets[p := Cw721("", tokenId)])
    case (Cw1155(address, tokenId, value), Cw1155(_, _, want)) =>
      if value < want then Err(Overflow) else Ok(assets[p := Cw1155(address, tokenId, value - want)])
    case _ => Ok(assets)
  }

  predicate InRange(assets: seq<Asset>, rs: seq<Request>) {
    forall i :: 0 <= i < |rs| ==> rs[i].0 < |assets|
  }

  function TakeAll(assets: seq<Asset>, rs: seq<Request>): (out: Result<seq<Asset>, Error>)
    requires InRange(assets, rs)
    ensures out.Ok? ==> |out.value| == |assets|
    decreases |rs|
  {
    if rs == [] then Ok(assets)
    else
      var next :- TakeOne(assets, rs[0]);
      TakeAll(next, rs[1..])
  }

  predicate Kept(a: Asset) {
    if a.Cw721? then a.address != "" else a.Quantity() != 0
  }

  /** The entries that `retain` leaves, in order. */
  function Retain(assets: seq<Asset>): seq<Asset> {
    if assets == [] then []
    else (if Kept(assets[0]) then [assets[0]] else []) + Retain(assets[1..])
  }

  lemma {:induction false} CheckedInRange(assets: seq<Asset>, rs: seq<Request>)
    requires CheckRequests(assets, rs).Ok?
    ensures InRange(assets, rs)
    ensures forall i :: 0 <= i < |rs| ==> CheckRequest(assets, rs[i]).Ok?
    decreases |rs|
  {
    if rs != [] {
      CheckedInRange(assets, rs[1..]);
      assert forall i :: 0 < i < |rs| ==> rs[i] == rs[1..][i - 1];
    }
  }

  function Removal(assets: seq<Asset>, rs: seq<Request>): Result<seq<Asset>, Error> {
    var _ :- CheckRequests(assets, rs);
    CheckedInRange(assets, rs);
    var taken :- TakeAll(assets, rs);
    Ok(Retain(taken))
  }

  function Requested(rs: seq<Request>): seq<Asset> {
    if rs == [] then [] else [rs[0].1] + Requested(rs[1..])
  }
}

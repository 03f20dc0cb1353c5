/** Removal by position is a bag subtraction, exactly when every request names the stored
    kind and no NFT position is named twice. */
module P2PRemoval {
  import opened Base
  import opened Ledger
  import opened P2PTypes
  import opened P2PAssets

  /** The stored coin answered a request of another kind. */
  predicate Mismatch(have: Asset, want: Asset) {
    have.Native? && !want.Native?
  }

  /** What a passed check leaves true of the list while earlier requests are executed. */
  predicate Fits(assets: seq<Asset>, r: Request) {
    r.0 < |assets| &&
    var (have, want) := (assets[r.0], r.1);
    Mismatch(have, want) || (have.Cw721? && want.Cw721? && have.address == "")
    || (have.Key() == want.Key() && (have.Cw721? <==> want.Cw721?))
  }

  predicate AllFit(assets: seq<Asset>, rs: seq<Request>) {
    forall i :: 0 <= i < |rs| ==> Fits(assets, rs[i])
  }

  lemma {:induction false} CheckedFits(assets: seq<Asset>, rs: seq<Request>)
    requires CheckRequests(assets, rs).Ok?
    ensures AllFit(assets, rs)
  {
    CheckedInRange(assets, rs);
    forall i | 0 <= i < |rs| ensures Fits(assets, rs[i]) {
      assert CheckRequest(assets, rs[i]).Ok?;
    }
  }

  lemma {:induction false} FitsStep(assets: seq<Asset>, rs: seq<Request>)
    requires rs != [] && AllFit(assets, rs) && TakeOne(assets, rs[0]).Ok?
    ensures AllFit(TakeOne(assets, rs[0]).value, rs[1..])
  {
    var next := TakeOne(assets, rs[0]).value;
    forall i | 0 <= i < |rs[1..]| ensures Fits(next, rs[1..][i]) {
      assert Fits(assets, rs[i + 1]);
    }
  }

  // ----- Totals

  /** What the list still counts for `k` once `retain` has run. */
  function Live(assets: seq<Asset>, k: Key): nat {
    Total(Retain(assets), k)
  }

  function LiveOf(a: Asset, k: Key): nat {
    if Kept(a) then a.Of(k) else 0
  }

  lemma {:induction false} LiveUpdate(assets: seq<Asset>, i: nat, x: Asset, k: Key)
    requires i < |assets|
    ensures Live(assets[i := x], k) + LiveOf(assets[i], k) == Live(assets, k) + LiveOf(x, k)
  {
    var next := assets[i := x];
    TotalConcat(if Kept(assets[0]) then [assets[0]] else [], Retain(assets[1..]), k);
    TotalConcat(if Kept(next[0]) then [next[0]] else [], Retain(next[1..]), k);
    if i == 0 {
      assert next[1..] == assets[1..];
    } else {
      assert next[1..] == assets[1..][i - 1 := x];
      LiveUpdate(assets[1..], i - 1, x, k);
    }
  }

  lemma {:induction false} LiveProper(assets: seq<Asset>, k: Key)
    requires Proper(assets)
    ensures Live(assets, k) == Total(assets, k)
  {
    if assets != [] {
      TotalConcat(if Kept(assets[0]) then [assets[0]] else [], Retain(assets[1..]), k);
      LiveProper(assets[1..], k);
    }
  }

  /** What one request has sent out without taking it off the list. */
  function ExcessOne(assets: seq<Asset>, r: Request, k: Key): nat
    requires r.0 < |assets|
  {
    var have := assets[r.0];
    if Mismatch(have, r.1) || (have.Cw721? && have.address == "") then r.1.Of(k) else 0
  }

  function Excess(assets: seq<Asset>, rs: seq<Request>, k: Key): nat
    requires InRange(assets, rs)
    decreases |rs|
  {
    if rs == [] then 0
    else
      ExcessOne(assets, rs[0], k) +
      match TakeOne(assets, rs[0])
      case Ok(next) => Excess(next, rs[1..], k)
      case Err(_) => 0
  }

  lemma {:induction false} TakeOneTotals(assets: seq<Asset>, r: Request, k: Key)
    requires Fits(assets, r) && TakeOne(assets, r).Ok?
    ensures Live(assets, k) + ExcessOne(assets, r, k) == Live(TakeOne(assets, r).value, k) + r.1.Of(k)
  {
    var (p, next) := (r.0, TakeOne(assets, r).value);
    LiveUpdate(assets, p, next[p], k);
    assert next == assets[p := next[p]];
    assert LiveOf(assets[p], k) + ExcessOne(assets, r, k) == LiveOf(next[p], k) + r.1.Of(k);
  }

  lemma {:induction false} TakeAllTotals(assets: seq<Asset>, rs: seq<Request>, k: Key)
    requires AllFit(assets, rs) && InRange(assets, rs)
    requires TakeAll(assets, rs).Ok?
    ensures Live(assets, k) + Excess(assets, rs, k)
         == Live(TakeAll(assets, rs).value, k) + Total(Requested(rs), k)
    decreases |rs|
  {
    if rs != [] {
      assert Fits(assets, rs[0]);
      TakeOneTotals(assets, rs[0], k);
      FitsStep(assets, rs);
      TakeAllTotals(TakeOne(assets, rs[0]).value, rs[1..], k);
    }
  }

  // ----- The exact condition

  /** A coin position is asked for a coin, or for nothing. */
  predicate KindsAgree(assets: seq<Asset>, rs: seq<Request>) {
    forall i :: 0 <= i < |rs| && rs[i].0 < |assets| && Mismatch(assets[rs[i].0], rs[i].1) ==> rs[i].1.Quantity() == 0
  }

  predicate NftsOnce(assets: seq<Asset>, rs: seq<Request>) {
    forall i, j :: 0 <= i < j < |rs| && rs[i].0 < |assets| && assets[rs[i].0].Cw721? ==> rs[i].0 != rs[j].0
  }

  predicate Unmarked(assets: seq<Asset>, rs: seq<Request>) {
    forall i :: 0 <= i < |rs| && rs[i].0 < |assets| && assets[rs[i].0].Cw721? ==> assets[rs[i].0].address != ""
  }

  predicate Clean(assets: seq<Asset>, rs: seq<Request>) {
    KindsAgree(assets, rs) && NftsOnce(assets, rs) && Unmarked(assets, rs)
  }

  /** What the first request leaves of the other positions. */
  lemma {:induction false} KindsStay(assets: seq<Asset>, rs: seq<Request>)
    requires rs != [] && AllFit(assets, rs) && TakeOne(assets, rs[0]).Ok?
    ensures var next := TakeOne(assets, rs[0]).value;
            && |next| == |assets| && rs[0].0 < |assets|
            && (forall j :: 0 <= j < |assets| ==> (next[j].Cw721? <==> assets[j].Cw721?) && (next[j].Native? <==> assets[j].Native?))
            && (forall j :: 0 <= j < |assets| && j != rs[0].0 ==> next[j] == assets[j])
            && (assets[rs[0].0].Cw721? ==> next[rs[0].0].address == "")
  {
    assert Fits(assets, rs[0]);
  }

  lemma {:induction false} CleanAfter(assets: seq<Asset>, rs: seq<Request>)
    requires rs != [] && AllFit(assets, rs) && TakeOne(assets, rs[0]).Ok? && Clean(assets, rs)
    ensures Clean(TakeOne(assets, rs[0]).value, rs[1..])
  {
    var next := TakeOne(assets, rs[0]).value;
    var tail := rs[1..];
    KindsStay(assets, rs);
    forall i | 0 <= i < |tail| && tail[i].0 < |assets|
      ensures Mismatch(next[tail[i].0], tail[i].1) ==> tail[i].1.Quantity() == 0
      ensures next[tail[i].0].Cw721? ==> next[tail[i].0].address != ""
    {
      assert rs[i + 1] == tail[i];
    }
    forall i, j | 0 <= i < j < |tail| && tail[i].0 < |assets| && next[tail[i].0].Cw721? ensures tail[i].0 != tail[j].0 {
      assert rs[i + 1] == tail[i] && rs[j + 1] == tail[j];
    }
  }

  lemma {:induction false} CleanBefore(assets: seq<Asset>, rs: seq<Request>)
    requires rs != [] && AllFit(assets, rs) && TakeOne(assets, rs[0]).Ok?
    requires Mismatch(assets[rs[0].0], rs[0].1) ==> rs[0].1.Quantity() == 0
    requires assets[rs[0].0].Cw721? ==> assets[rs[0].0].address != ""
    requires Clean(TakeOne(assets, rs[0]).value, rs[1..])
    ensures Clean(assets, rs)
  {
    var next := TakeOne(assets, rs[0]).value;
    var tail := rs[1..];
    KindsStay(assets, rs);
    forall i | 0 <= i < |rs| && rs[i].0 < |assets|
      ensures Mismatch(assets[rs[i].0], rs[i].1) ==> rs[i].1.Quantity() == 0
      ensures assets[rs[i].0].Cw721? ==> assets[rs[i].0].address != ""
    {
      if i > 0 { assert rs[i] == tail[i - 1]; }
    }
    forall i, j | 0 <= i < j < |rs| && rs[i].0 < |assets| && assets[rs[i].0].Cw721? ensures rs[i].0 != rs[j].0 {
      assert rs[j] == tail[j - 1];
      if i > 0 { assert rs[i] == tail[i - 1]; }
    }
  }

  /** Executing the first request leaves the rest clean exactly when all were. */
  lemma {:induction false} CleanStep(assets: seq<Asset>, rs: seq<Request>)
    requires rs != [] && AllFit(assets, rs) && TakeOne(assets, rs[0]).Ok?
    ensures Clean(assets, rs) <==>
            (forall k :: ExcessOne(assets, rs[0], k) == 0) && Clean(TakeOne(assets, rs[0]).value, rs[1..])
  {
    assert Fits(assets, rs[0]);
    if Clean(assets, rs) {
      CleanAfter(assets, rs);
    }
    if (forall k :: ExcessOne(assets, rs[0], k) == 0) && Clean(TakeOne(assets, rs[0]).value, rs[1..]) {
      assert ExcessOne(assets, rs[0], rs[0].1.Key()) == 0;
      CleanBefore(assets, rs);
    }
  }

  ghost predicate NoExcess(assets: seq<Asset>, rs: seq<Request>)
    requires InRange(assets, rs)
  {
    forall k :: Excess(assets, rs, k) == 0
  }

  lemma {:induction false} NoExcessStep(assets: seq<Asset>, rs: seq<Request>)
    requires rs != [] && InRange(assets, rs) && TakeOne(assets, rs[0]).Ok?
    ensures NoExcess(assets, rs) <==>
            (forall k :: ExcessOne(assets, rs[0], k) == 0) && NoExcess(TakeOne(assets, rs[0]).value, rs[1..])
  {
    var next := TakeOne(assets, rs[0]).value;
    if NoExcess(assets, rs) {
      forall k ensures ExcessOne(assets, rs[0], k) == 0 {
        assert Excess(assets, rs, k) == 0;
      }
      forall k ensures Excess(next, rs[1..], k) == 0 {
        assert Excess(assets, rs, k) == 0;
      }
    }
    if (forall k :: ExcessOne(assets, rs[0], k) == 0) && NoExcess(next, rs[1..]) {
      forall k ensures Excess(assets, rs, k) == 0 {
        assert ExcessOne(assets, rs[0], k) == 0 && Excess(next, rs[1..], k) == 0;
      }
    }
  }

  lemma {:induction false} ExcessZero(assets: seq<Asset>, rs: seq<Request>)
    requires AllFit(assets, rs) && InRange(assets, rs)
    requires TakeAll(assets, rs).Ok?
    ensures NoExcess(assets, rs) <==> Clean(assets, rs)
    decreases |rs|
  {
    if rs != [] {
      FitsStep(assets, rs);
      ExcessZero(TakeOne(assets, rs[0]).value, rs[1..]);
      CleanStep(assets, rs);
      NoExcessStep(assets, rs);
    }
  }

  /** Asset by asset, the old list is the new list and what was sent out. */
  ghost predicate Balanced(assets: seq<Asset>, rs: seq<Request>, out: seq<Asset>) {
    forall k :: Total(assets, k) == Total(out, k) + Total(Requested(rs), k)
  }

  /** An accepted removal never sends out less than it takes off the list, and sends out
      exactly that, for every asset, if and only if the request agrees in kind at coin
      positions and names each NFT position once. */
  lemma {:induction false} RemovalIsBagSubtraction(assets: seq<Asset>, rs: seq<Request>)
    requires Proper(assets) && Removal(assets, rs).Ok?
    ensures forall k :: Total(assets, k) <= Total(Removal(assets, rs).value, k) + Total(Requested(rs), k)
    ensures Balanced(assets, rs, Removal(assets, rs).value)
            <==> KindsAgree(assets, rs) && NftsOnce(assets, rs)
  {
    CheckedFits(assets, rs);
    CheckedInRange(assets, rs);
    var out := Removal(assets, rs).value;
    forall k
      ensures Total(assets, k) + Excess(assets, rs, k) == Total(out, k) + Total(Requested(rs), k)
    {
      LiveProper(assets, k);
      TakeAllTotals(assets, rs, k);
    }
    ExcessZero(assets, rs);
    assert Unmarked(assets, rs);
    if Balanced(assets, rs, out) {
      forall k ensures Excess(assets, rs, k) == 0 {
        assert Total(assets, k) == Total(out, k) + Total(Requested(rs), k);
      }
      assert NoExcess(assets, rs);
    }
  }

  /** The coin arm lets a request of another kind through: nothing is taken off the list,
      yet the asset named is sent. */
  lemma {:induction false} MismatchLosesAssets()
    ensures var assets := [Native(Coin("uluna", 5))];
            var rs := [(0, Cw721("nft", "1"))];
            Removal(assets, rs) == Ok(assets) && Requested(rs) == [Cw721("nft", "1")]
  {
    var assets := [Native(Coin("uluna", 5))];
    var rs: seq<Request> := [(0, Cw721("nft", "1"))];
    assert rs[1..] == [] && assets[1..] == [];
    assert CheckRequest(assets, rs[0]) == Ok(());
    assert CheckRequests(assets, rs) == Ok(());
    assert TakeOne(assets, rs[0]) == Ok(assets);
    assert TakeAll(assets, rs) == Ok(assets);
    assert Retain(assets) == assets;
  }

  // ----- What leaves without being taken off, asset by asset

  /** What coin positions are asked for in another kind. */
  function Mismatched(assets: seq<Asset>, rs: seq<Request>, k: Key): nat {
    if rs == [] then 0
    else
      (if rs[0].0 < |assets| && Mismatch(assets[rs[0].0], rs[0].1) then rs[0].1.Of(k) else 0) + Mismatched(assets, rs[1..], k)
  }

  lemma {:induction false} MismatchedSameKinds(a: seq<Asset>, b: seq<Asset>, rs: seq<Request>, k: Key)
    requires |a| == |b| && forall j :: 0 <= j < |a| ==> (a[j].Native? <==> b[j].Native?)
    ensures Mismatched(a, rs, k) == Mismatched(b, rs, k)
  {
    if rs != [] {
      MismatchedSameKinds(a, b, rs[1..], k);
    }
  }

  /** Of a fungible asset, the excess is what coin positions are asked for in another kind. */
  lemma {:induction false} FungibleExcess(assets: seq<Asset>, rs: seq<Request>, k: Key)
    requires AllFit(assets, rs) && InRange(assets, rs) && TakeAll(assets, rs).Ok? && !k.NftKey?
    ensures Excess(assets, rs, k) == Mismatched(assets, rs, k)
    decreases |rs|
  {
    if rs != [] {
      var next := TakeOne(assets, rs[0]).value;
      assert Fits(assets, rs[0]);
      FitsStep(assets, rs);
      KindsStay(assets, rs);
      FungibleExcess(next, rs[1..], k);
      MismatchedSameKinds(assets, next, rs[1..], k);
    }
  }

  /** Of fungible assets only coins are asked for at coin positions, or amounts of nought. */
  predicate CoinsAskedInKind(assets: seq<Asset>, rs: seq<Request>) {
    forall i :: 0 <= i < |rs| && rs[i].0 < |assets| && Mismatch(assets[rs[i].0], rs[i].1) && !rs[i].1.Cw721? ==>
      rs[i].1.Quantity() == 0
  }

  lemma {:induction false} MismatchedMember(assets: seq<Asset>, rs: seq<Request>, i: nat)
    requires i < |rs| && rs[i].0 < |assets| && Mismatch(assets[rs[i].0], rs[i].1)
    ensures rs[i].1.Quantity() <= Mismatched(assets, rs, rs[i].1.Key())
  {
    if i > 0 {
      MismatchedMember(assets, rs[1..], i - 1);
    }
  }

  lemma {:induction false} MismatchedNone(assets: seq<Asset>, rs: seq<Request>, k: Key)
    requires CoinsAskedInKind(assets, rs) && !k.NftKey?
    ensures Mismatched(assets, rs, k) == 0
  {
    if rs != [] {
      assert forall i :: 0 <= i < |rs[1..]| ==> rs[1..][i] == rs[i + 1];
      MismatchedNone(assets, rs[1..], k);
    }
  }

  lemma {:induction false} CoinsAskedIff(assets: seq<Asset>, rs: seq<Request>)
    ensures (forall k: Key :: !k.NftKey? ==> Mismatched(assets, rs, k) == 0) <==> CoinsAskedInKind(assets, rs)
  {
    if forall k: Key :: !k.NftKey? ==> Mismatched(assets, rs, k) == 0 {
      forall i | 0 <= i < |rs| && rs[i].0 < |assets| && Mismatch(assets[rs[i].0], rs[i].1) && !rs[i].1.Cw721?
        ensures rs[i].1.Quantity() == 0
      {
        MismatchedMember(assets, rs, i);
        assert Mismatched(assets, rs, rs[i].1.Key()) == 0;
      }
    } else {
      var k: Key :| !k.NftKey? && Mismatched(assets, rs, k) != 0;
      if CoinsAskedInKind(assets, rs) {
        MismatchedNone(assets, rs, k);
      }
    }
  }

  /** Some request names a position that holds `k`. */
  predicate TakenOff(assets: seq<Asset>, rs: seq<Request>, k: Key) {
    exists j :: 0 <= j < |rs| && rs[j].0 < |assets| && assets[rs[j].0].Key() == k
  }

  /** A removal takes an NFT off the list exactly if a request names a position that holds it. */
  lemma {:induction false} NftTakenOff(assets: seq<Asset>, rs: seq<Request>, k: Key)
    requires AllFit(assets, rs) && InRange(assets, rs) && TakeAll(assets, rs).Ok? && k.NftKey?
    ensures Live(TakeAll(assets, rs).value, k) <= Live(assets, k)
    ensures k.address != "" ==> (TakenOff(assets, rs, k) <==> Live(TakeAll(assets, rs).value, k) < Live(assets, k))
    decreases |rs|
  {
    if rs != [] {
      var (p, next) := (rs[0].0, TakeOne(assets, rs[0]).value);
      assert Fits(assets, rs[0]);
      FitsStep(assets, rs);
      KindsStay(assets, rs);
      assert next == assets[p := next[p]];
      LiveUpdate(assets, p, next[p], k);
      NftTakenOff(next, rs[1..], k);
      if k.address != "" && assets[p].Key() != k {
        TakenOffStep(assets, next, rs, k);
      }
    }
  }

  lemma {:induction false} TakenOffStep(assets: seq<Asset>, next: seq<Asset>, rs: seq<Request>, k: Key)
    requires rs != [] && |next| == |assets| && rs[0].0 < |assets| && assets[rs[0].0].Key() != k
    requires forall j :: 0 <= j < |assets| ==> (next[j].Key() == k <==> assets[j].Key() == k)
    ensures TakenOff(assets, rs, k) <==> TakenOff(next, rs[1..], k)
  {
    if TakenOff(assets, rs, k) {
      var j :| 0 <= j < |rs| && rs[j].0 < |assets| && assets[rs[j].0].Key() == k;
      assert rs[1..][j - 1] == rs[j];
    }
    if TakenOff(next, rs[1..], k) {
      var j :| 0 <= j < |rs[1..]| && rs[1..][j].0 < |next| && next[rs[1..][j].0].Key() == k;
      assert rs[j + 1] == rs[1..][j];
    }
  }

  lemma {:induction false} RequestedTotal(rs: seq<Request>, i: nat)
    requires i < |rs|
    ensures rs[i].1.Quantity() <= Total(Requested(rs), rs[i].1.Key())
  {
    if i > 0 {
      RequestedTotal(rs[1..], i - 1);
    }
  }

  /** What is asked for at all is asked for by some request. */
  lemma {:induction false} RequestFor(rs: seq<Request>, k: Key) returns (i: nat)
    requires Total(Requested(rs), k) > 0
    ensures i < |rs| && rs[i].1.Key() == k
  {
    if rs[0].1.Key() == k {
      i := 0;
    } else {
      var j := RequestFor(rs[1..], k);
      i := j + 1;
    }
  }

  // ----- Which removals are accepted, and what each position is left with

  /** What the requests ask of position `p`, mismatched kinds aside. */
  function Asked(assets: seq<Asset>, rs: seq<Request>, p: nat): nat
    requires p < |assets|
  {
    if rs == [] then 0
    else (if rs[0].0 == p && !Mismatch(assets[p], rs[0].1) then rs[0].1.Quantity() else 0) + Asked(assets, rs[1..], p)
  }

  lemma {:induction false} AskedSameKinds(a: seq<Asset>, b: seq<Asset>, rs: seq<Request>, p: nat)
    requires p < |a| && |a| == |b| && (a[p].Native? <==> b[p].Native?)
    ensures Asked(a, rs, p) == Asked(b, rs, p)
  {
    if rs != [] {
      AskedSameKinds(a, b, rs[1..], p);
    }
  }

  ghost predicate Affordable(assets: seq<Asset>, rs: seq<Request>) {
    forall p :: 0 <= p < |assets| && !assets[p].Cw721? ==> Asked(assets, rs, p) <= assets[p].Quantity()
  }

  lemma {:induction false} AffordableStep(assets: seq<Asset>, rs: seq<Request>)
    requires rs != [] && AllFit(assets, rs) && InRange(assets, rs) && TakeOne(assets, rs[0]).Ok?
    ensures Affordable(assets, rs) <==> Affordable(TakeOne(assets, rs[0]).value, rs[1..])
  {
    var next := TakeOne(assets, rs[0]).value;
    assert Fits(assets, rs[0]);
    forall p | 0 <= p < |assets| && !assets[p].Cw721?
      ensures Asked(assets, rs, p) <= assets[p].Quantity() <==> Asked(next, rs[1..], p) <= next[p].Quantity()
    {
      AskedSameKinds(assets, next, rs[1..], p);
    }
  }

  /** Requests that fit are executed exactly when, position by position, they do not ask
      for more than is there; repeated positions accumulate. */
  lemma {:induction false} TakeAllAccepts(assets: seq<Asset>, rs: seq<Request>)
    requires AllFit(assets, rs) && InRange(assets, rs)
    ensures TakeAll(assets, rs).Ok? <==> Affordable(assets, rs)
    ensures TakeAll(assets, rs).Ok? ==> forall p :: 0 <= p < |assets| && !assets[p].Cw721? ==>
              TakeAll(assets, rs).value[p].Key() == assets[p].Key()
              && TakeAll(assets, rs).value[p].Quantity() + Asked(assets, rs, p) == assets[p].Quantity()
    decreases |rs|
  {
    if rs != [] {
      assert Fits(assets, rs[0]);
      if TakeOne(assets, rs[0]).Ok? {
        var next := TakeOne(assets, rs[0]).value;
        FitsStep(assets, rs);
        AffordableStep(assets, rs);
        TakeAllAccepts(next, rs[1..]);
        forall p | 0 <= p < |assets| && !assets[p].Cw721?
          ensures Asked(assets, rs[1..], p) == Asked(next, rs[1..], p)
        {
          AskedSameKinds(assets, next, rs[1..], p);
        }
      } else {
        var p := rs[0].0;
        assert Asked(assets, rs, p) > assets[p].Quantity();
      }
    }
  }

  /** A request names a position of the list, and there the asset stored, or at a coin anything but a
      coin. */
  predicate Answers(assets: seq<Asset>, r: Request) {
    r.0 < |assets| && (Mismatch(assets[r.0], r.1) || assets[r.0].Key() == r.1.Key())
  }

  /** It asks for no more than that position holds. */
  predicate WithinOne(assets: seq<Asset>, r: Request)
    requires r.0 < |assets|
  {
    Mismatch(assets[r.0], r.1) || r.1.Quantity() <= assets[r.0].Quantity()
  }

  lemma {:induction false} CheckIs(assets: seq<Asset>, r: Request)
    ensures CheckRequest(assets, r).Ok? <==> Answers(assets, r) && WithinOne(assets, r)
    ensures CheckRequest(assets, r).Err? ==>
              CheckRequest(assets, r).error
              == if !Answers(assets, r) then AssetNotFound(r.0)
                 else var have := assets[r.0];
                      TooMuchWithdrawn(if have.Native? then have.coin.denom else have.Key().address, r.1.Quantity(), have.Quantity())
  {
  }

  /** The requests are checked one by one, and the first that fails is answered. */
  lemma {:induction false} ChecksAre(assets: seq<Asset>, rs: seq<Request>) returns (i: nat)
    ensures i <= |rs| && forall j :: 0 <= j < i ==> CheckRequest(assets, rs[j]).Ok?
    ensures if i == |rs| then CheckRequests(assets, rs) == Ok(())
            else CheckRequest(assets, rs[i]).Err? && CheckRequests(assets, rs) == CheckRequest(assets, rs[i])
    decreases |rs|
  {
    if rs == [] || CheckRequest(assets, rs[0]).Err? {
      i := 0;
    } else {
      i := ChecksAre(assets, rs[1..]);
      i := i + 1;
      assert forall j :: 0 < j < i ==> rs[j] == rs[1..][j - 1];
    }
  }

  lemma {:induction false} AskedAtLeast(assets: seq<Asset>, rs: seq<Request>, i: nat)
    requires i < |rs| && rs[i].0 < |assets| && !Mismatch(assets[rs[i].0], rs[i].1)
    ensures rs[i].1.Quantity() <= Asked(assets, rs, rs[i].0)
  {
    if i > 0 {
      AskedAtLeast(assets, rs[1..], i - 1);
    }
  }

  /** The whole acceptance condition of a removal: each request names a position and what is there,
      and position by position no more is asked, over all requests, than is there. */
  lemma {:induction false} RemovalAccepts(assets: seq<Asset>, rs: seq<Request>)
    ensures Removal(assets, rs).Ok?
       <==> (forall i :: 0 <= i < |rs| ==> Answers(assets, rs[i])) && Affordable(assets, rs)
  {
    var n := ChecksAre(assets, rs);
    if n == |rs| {
      CheckedFits(assets, rs);
      CheckedInRange(assets, rs);
      TakeAllAccepts(assets, rs);
      forall i | 0 <= i < |rs| ensures Answers(assets, rs[i]) {
        CheckIs(assets, rs[i]);
      }
    } else {
      CheckIs(assets, rs[n]);
      if Answers(assets, rs[n]) {
        AskedAtLeast(assets, rs, n);
        NftQuantity(assets[rs[n].0], rs[n].1);
      }
    }
  }

  lemma {:induction false} NftQuantity(have: Asset, want: Asset)
    requires have.Key() == want.Key()
    ensures have.Cw721? ==> want.Quantity() <= have.Quantity()
  {
  }

  lemma {:induction false} TakeAllOverflows(assets: seq<Asset>, rs: seq<Request>)
    requires InRange(assets, rs)
    ensures TakeAll(assets, rs).Err? ==> TakeAll(assets, rs).error == Overflow
    decreases |rs|
  {
    if rs != [] && TakeOne(assets, rs[0]).Ok? {
      TakeAllOverflows(TakeOne(assets, rs[0]).value, rs[1..]);
    }
  }

  /** Why it is refused: the first request that names no position or not what is there, or asks more
      than is there; or, each being fine, all together do. */
  lemma {:induction false} RemovalRefused(assets: seq<Asset>, rs: seq<Request>) returns (i: nat)
    requires Removal(assets, rs).Err?
    ensures i <= |rs| && forall j :: 0 <= j < i ==> Answers(assets, rs[j]) && WithinOne(assets, rs[j])
    ensures if i == |rs| then Removal(assets, rs) == Err(Overflow) && !Affordable(assets, rs)
            else if !Answers(assets, rs[i]) then Removal(assets, rs) == Err(AssetNotFound(rs[i].0))
            else !WithinOne(assets, rs[i]) && Removal(assets, rs).error.TooMuchWithdrawn?
                 && Removal(assets, rs).error.wanted == rs[i].1.Quantity()
                 && Removal(assets, rs).error.available == assets[rs[i].0].Quantity()
  {
    i := ChecksAre(assets, rs);
    forall j | 0 <= j < i ensures Answers(assets, rs[j]) && WithinOne(assets, rs[j]) {
      CheckIs(assets, rs[j]);
    }
    if i < |rs| {
      CheckIs(assets, rs[i]);
    } else {
      CheckedFits(assets, rs);
      CheckedInRange(assets, rs);
      TakeAllAccepts(assets, rs);
      TakeAllOverflows(assets, rs);
    }
  }

  // ----- Order

  predicate Named(rs: seq<Request>, p: nat) {
    exists i :: 0 <= i < |rs| && rs[i].0 == p
  }

  lemma {:induction false} UnnamedUntouched(assets: seq<Asset>, rs: seq<Request>, p: nat)
    requires InRange(assets, rs) && TakeAll(assets, rs).Ok?
    requires p < |assets| && !Named(rs, p)
    ensures TakeAll(assets, rs).value[p] == assets[p]
    decreases |rs|
  {
    if rs != [] {
      assert forall i :: 0 <= i < |rs[1..]| ==> rs[1..][i] == rs[i + 1];
      UnnamedUntouched(TakeOne(assets, rs[0]).value, rs[1..], p);
    }
  }

  /** Where `retain` puts the entry at `i`. */
  function Slot(assets: seq<Asset>, i: nat): nat
    requires i <= |assets|
  {
    |Retain(assets[..i])|
  }

  lemma {:induction false} RetainSlot(assets: seq<Asset>, i: nat)
    requires i < |assets| && Kept(assets[i])
    ensures Slot(assets, i) < |Retain(assets)|
    ensures Retain(assets)[Slot(assets, i)] == assets[i]
  {
    if i > 0 {
      assert assets[..i][1..] == assets[1..][..i - 1];
      RetainSlot(assets[1..], i - 1);
    }
  }

  lemma {:induction false} SlotMonotone(assets: seq<Asset>, i: nat, j: nat)
    requires i < j < |assets| && Kept(assets[i])
    ensures Slot(assets, i) < Slot(assets, j)
  {
    var front := assets[..j];
    assert front[..i] == assets[..i];
    RetainSlot(front, i);
  }

  predicate InOrder(assets: seq<Asset>, x: Asset, y: Asset) {
    exists a, b :: 0 <= a < b < |assets| && assets[a] == x && assets[b] == y
  }

  /** Entries that no request names, and that hold anything, survive in their order. */
  lemma {:induction false} RemovalKeepsOrder(assets: seq<Asset>, rs: seq<Request>, i: nat, j: nat)
    requires Removal(assets, rs).Ok? && i < j < |assets|
    requires !Named(rs, i) && !Named(rs, j) && Kept(assets[i]) && Kept(assets[j])
    ensures InOrder(Removal(assets, rs).value, assets[i], assets[j])
  {
    CheckedInRange(assets, rs);
    var taken := TakeAll(assets, rs).value;
    UnnamedUntouched(assets, rs, i);
    UnnamedUntouched(assets, rs, j);
    RetainSlot(taken, i);
    RetainSlot(taken, j);
    SlotMonotone(taken, i, j);
    var out := Removal(assets, rs).value;
    assert out[Slot(taken, i)] == assets[i] && out[Slot(taken, j)] == assets[j];
  }

  // ----- What a removal keeps of the list's form

  lemma {:induction false} RetainMembers(assets: seq<Asset>)
    ensures forall x :: x in Retain(assets) ==> x in assets && Kept(x)
  {
    if assets != [] {
      RetainMembers(assets[1..]);
    }
  }

  /** A new head whose key no later entry shares. */
  lemma {:induction false} UniqueCons(head: Asset, tail: seq<Asset>)
    requires UniqueFungible(tail)
    requires !head.Cw721? ==> forall i :: 0 <= i < |tail| ==> tail[i].Key() != head.Key()
    ensures UniqueFungible([head] + tail)
  {
  }

  lemma {:induction false} RetainUnique(assets: seq<Asset>)
    requires UniqueFungible(assets)
    ensures UniqueFungible(Retain(assets))
  {
    if assets != [] {
      var tail := Retain(assets[1..]);
      assert UniqueFungible(assets[1..]) by {
        assert forall i :: 0 <= i < |assets[1..]| ==> assets[1..][i] == assets[i + 1];
      }
      RetainUnique(assets[1..]);
      RetainMembers(assets[1..]);
      if Kept(assets[0]) {
        forall i | 0 <= i < |tail| && !assets[0].Cw721? ensures tail[i].Key() != assets[0].Key() {
          assert tail[i] in assets[1..];
        }
        UniqueCons(assets[0], tail);
      }
    }
  }

  lemma {:induction false} TakeAllKeepsForm(assets: seq<Asset>, rs: seq<Request>)
    requires InRange(assets, rs) && TakeAll(assets, rs).Ok?
    ensures var out := TakeAll(assets, rs).value;
            forall p :: 0 <= p < |assets| ==>
              (out[p].Cw721? <==> assets[p].Cw721?)
              && (!assets[p].Cw721? ==> out[p].Key() == assets[p].Key() && out[p].HasContract() == assets[p].HasContract())
    decreases |rs|
  {
    if rs != [] {
      TakeAllKeepsForm(TakeOne(assets, rs[0]).value, rs[1..]);
    }
  }

  lemma {:induction false} RemovalKeepsForm(assets: seq<Asset>, rs: seq<Request>)
    requires UniqueFungible(assets) && Removal(assets, rs).Ok?
    ensures UniqueFungible(Removal(assets, rs).value)
    ensures Proper(assets) ==> Proper(Removal(assets, rs).value)
  {
    CheckedInRange(assets, rs);
    TakeAllKeepsForm(assets, rs);
    var taken := TakeAll(assets, rs).value;
    assert UniqueFungible(taken) by {
      forall i, j | 0 <= i < j < |taken| && !taken[i].Cw721? ensures taken[i].Key() != taken[j].Key() {
        assert assets[i].Key() != assets[j].Key();
      }
    }
    RetainUnique(taken);
    RetainMembers(taken);
    var out := Removal(assets, rs).value;
    if Proper(assets) {
      forall i | 0 <= i < |out| ensures out[i].HasContract() {
        assert out[i] in taken;
      }
    }
  }
}

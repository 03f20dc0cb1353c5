/** NFTs and multi-tokens taken into custody and given back, as the loan and raffle contracts
    both do it. */
module Nfts {
  import opened Base
  import opened Ledger

  predicate OnlyNfts(assets: seq<Asset>) {
    forall i :: 0 <= i < |assets| ==> assets[i].Cw721? || assets[i].Cw1155?
  }

  // ----- Taking

  /** How a contract answers what it cannot take. */
  datatype PullErrors<E> = PullErrors(wrongAsset: E, notOwner: E, noToken: E)

  /** The transfers that take `assets`. Each NFT must be `from`'s own now. */
  function Pulls<E>(self: Addr, w: Wallets, from: Addr, assets: seq<Asset>, errors: PullErrors<E>): (r: Result<seq<Transfer>, E>)
    ensures r.Ok? ==> |r.value| == |assets|
    ensures r.Ok? ==> forall i :: 0 <= i < |assets| ==> r.value[i] == Transfer(from, self, assets[i])
  {
    if assets == [] then Ok([])
    else
      var a := assets[0];
      if !a.Cw721? && !a.Cw1155? then Err(errors.wrongAsset)
      else if a.Cw721? && Lookup(w.nftOwner, a.Key()) != Some(from) then
        Err(if a.Key() in w.nftOwner then errors.notOwner else errors.noToken)
      else
        var rest :- Pulls(self, w, from, assets[1..], errors);
        Ok([Transfer(from, self, a)] + rest)
  }

  method PullAll<E>(self: Addr, w: Wallets, from: Addr, assets: seq<Asset>, errors: PullErrors<E>)
    returns (r: Result<seq<Transfer>, E>)
    ensures r == Pulls(self, w, from, assets, errors)
  {
    var messages: seq<Transfer> := [];
    var n := 0;
    assert assets[0..] == assets;
    ghost var all := Pulls(self, w, from, assets, errors);
    assert all.Ok? ==> messages + all.value == all.value;
    while n < |assets|
      invariant n <= |assets|
      invariant match Pulls(self, w, from, assets[n..], errors)
                case Ok(rest) => Pulls(self, w, from, assets, errors) == Ok(messages + rest)
                case Err(e) => Pulls(self, w, from, assets, errors) == Err(e)
    {
      var asset := assets[n];
      assert assets[n..][1..] == assets[n + 1..];
      match asset {
        case Cw721(_, _) =>
          if asset.Key() !in w.nftOwner {
            return Err(errors.noToken);
          }
          if w.nftOwner[asset.Key()] != from {
            return Err(errors.notOwner);
          }
        case Cw1155(_, _, _) =>
        case _ =>
          return Err(errors.wrongAsset);
      }
      ghost var rest := Pulls(self, w, from, assets[n + 1..], errors);
      assert rest.Ok? ==>
        messages + ([Transfer(from, self, asset)] + rest.value) == (messages + [Transfer(from, self, asset)]) + rest.value;
      messages := messages + [Transfer(from, self, asset)];
      n := n + 1;
    }
    assert messages + [] == messages;
    return Ok(messages);
  }

  /** Multi-tokens, and NFTs that are `from`'s own now. */
  predicate Takeable(w: Wallets, from: Addr, assets: seq<Asset>) {
    forall i :: 0 <= i < |assets| ==>
      assets[i].Cw1155? || (assets[i].Cw721? && Lookup(w.nftOwner, assets[i].Key()) == Some(from))
  }

  /** Exactly those are taken. */
  lemma {:induction false} PullsIff<E>(self: Addr, w: Wallets, from: Addr, assets: seq<Asset>, errors: PullErrors<E>)
    ensures Pulls(self, w, from, assets, errors).Ok? <==> Takeable(w, from, assets)
  {
    if assets != [] {
      PullsIff(self, w, from, assets[1..], errors);
      assert forall i :: 0 < i < |assets| ==> assets[i] == assets[1..][i - 1];
      if Takeable(w, from, assets) {
        assert forall i :: 0 <= i < |assets[1..]| ==> assets[1..][i] == assets[i + 1];
      }
    }
  }

  lemma {:induction false} PullsOnlyNfts<E>(self: Addr, w: Wallets, from: Addr, assets: seq<Asset>, errors: PullErrors<E>)
    requires Pulls(self, w, from, assets, errors).Ok?
    ensures OnlyNfts(assets)
  {
    if assets != [] {
      PullsOnlyNfts(self, w, from, assets[1..], errors);
      forall i | 0 <= i < |assets| ensures assets[i].Cw721? || assets[i].Cw1155? {
        if i > 0 { assert assets[i] == assets[1..][i - 1]; }
      }
    }
  }

  lemma {:induction false} PullsIncoming<E>(self: Addr, w: Wallets, from: Addr, assets: seq<Asset>, errors: PullErrors<E>, k: Key)
    requires from != self && Pulls(self, w, from, assets, errors).Ok?
    ensures AllPulls(self, Pulls(self, w, from, assets, errors).value)
    ensures Incoming(self, Pulls(self, w, from, assets, errors).value, k) == Total(assets, k)
    ensures Total(assets, k) > 0 && k.NftKey? ==> Lookup(w.nftOwner, k) == Some(from)
    ensures k.NativeKey? ==> Total(assets, k) == 0
  {
    if assets != [] {
      PullsIncoming(self, w, from, assets[1..], errors, k);
    }
  }

  /** What was taken lives at real contracts. */
  lemma {:induction false} PulledReal<E>(self: Addr, w: Wallets, from: Addr, assets: seq<Asset>,
                                         errors: PullErrors<E>, v: Wallets, allow: bool)
    requires Pulls(self, w, from, assets, errors).Ok?
    requires v.MoveAll(self, allow, Pulls(self, w, from, assets, errors).value).Some?
    ensures forall i :: 0 <= i < |assets| ==> assets[i].HasContract()
  {
    var ts := Pulls(self, w, from, assets, errors).value;
    MovedHaveContracts(v, self, allow, ts);
    forall i | 0 <= i < |assets| ensures assets[i].HasContract() {
      assert ts[i].asset == assets[i];
    }
  }

  // ----- Giving back

  function SendsBack<E>(self: Addr, to: Addr, assets: seq<Asset>, unreachable: E): Result<seq<Transfer>, E> {
    if OnlyNfts(assets) then Ok(Sends(self, to, assets)) else Err(unreachable)
  }

  method SendAll<E>(self: Addr, to: Addr, assets: seq<Asset>, unreachable: E) returns (r: Result<seq<Transfer>, E>)
    ensures r == SendsBack(self, to, assets, unreachable)
  {
    var messages := [];
    var n := 0;
    while n < |assets|
      invariant n <= |assets|
      invariant forall i :: 0 <= i < n ==> assets[i].Cw721? || assets[i].Cw1155?
      invariant |messages| == n && forall i :: 0 <= i < n ==> messages[i] == Transfer(self, to, assets[i])
    {
      if !assets[n].Cw721? && !assets[n].Cw1155? {
        return Err(unreachable);
      }
      messages := messages + [Transfer(self, to, assets[n])];
      n := n + 1;
    }
    assert messages == Sends(self, to, assets);
    return Ok(messages);
  }

  lemma {:induction false} NoNatives(assets: seq<Asset>, k: Key)
    requires OnlyNfts(assets) && !k.NftKey? && !k.Cw1155Key?
    ensures Total(assets, k) == 0
  {
    if assets != [] {
      assert assets[0].Cw721? || assets[0].Cw1155?;
      assert OnlyNfts(assets[1..]) by {
        assert forall i :: 0 <= i < |assets[1..]| ==> assets[1..][i] == assets[i + 1];
      }
      NoNatives(assets[1..], k);
    }
  }

  // ----- NFTs listed twice

  /** No NFT is listed twice. */
  predicate DistinctNfts(assets: seq<Asset>) {
    forall i, j :: 0 <= i < j < |assets| && assets[i].Cw721? ==> assets[i].Key() != assets[j].Key()
  }

  lemma {:induction false} NftTotal(assets: seq<Asset>, k: Key)
    requires k.NftKey? && DistinctNfts(assets)
    ensures Total(assets, k) <= 1
    ensures Total(assets, k) == 0 <==> forall i :: 0 <= i < |assets| ==> assets[i].Key() != k
  {
    if assets != [] {
      assert DistinctNfts(assets[1..]) by {
        forall i, j | 0 <= i < j < |assets[1..]| && assets[1..][i].Cw721? ensures assets[1..][i].Key() != assets[1..][j].Key() {
          assert assets[i + 1].Key() != assets[j + 1].Key();
        }
      }
      NftTotal(assets[1..], k);
      assert forall i :: 0 < i < |assets| ==> assets[i] == assets[1..][i - 1];
      if assets[0].Key() == k {
        forall i | 0 <= i < |assets[1..]| ensures assets[1..][i].Key() != k {
          assert assets[0].Key() != assets[i + 1].Key();
        }
      }
    }
  }

  lemma {:induction false} TwiceListed(assets: seq<Asset>, i: nat, j: nat)
    requires i < j < |assets| && assets[i].Cw721? && assets[i].Key() == assets[j].Key()
    ensures Total(assets, assets[i].Key()) >= 2
  {
    if i == 0 {
      TotalMember(assets[1..], j - 1);
    } else {
      TwiceListed(assets[1..], i - 1, j - 1);
    }
  }

  /** NFTs listed more often than they exist. */
  function Surplus(assets: seq<Asset>, k: Key): nat {
    if k.NftKey? && Total(assets, k) > 1 then Total(assets, k) - 1 else 0
  }

  ghost predicate NoSurplus(assets: seq<Asset>) {
    forall k :: Surplus(assets, k) == 0
  }

  lemma {:induction false} SurplusIff(assets: seq<Asset>)
    ensures NoSurplus(assets) <==> DistinctNfts(assets)
  {
    if DistinctNfts(assets) {
      forall k ensures Surplus(assets, k) == 0 {
        if k.NftKey? { NftTotal(assets, k); }
      }
    } else {
      var i, j :| 0 <= i < j < |assets| && assets[i].Cw721? && assets[i].Key() == assets[j].Key();
      TwiceListed(assets, i, j);
      assert Surplus(assets, assets[i].Key()) > 0;
    }
  }
}

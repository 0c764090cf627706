/** The total energy and the total currency held by all factories of a world
    state, and how one write changes those totals. */
module Holdings {
  import opened Records

  datatype Asset = Energy | Currency

  /** What one record contributes to the total of `asset`: a factory's
      balance, nothing for any other kind of record. */
  function Holding(r: Record, asset: Asset): (amount: real)
  {
    match r
    case FactoryRecord(f) => if asset == Energy then f.energyBalance else f.currencyBalance
    case _ => 0.0
  }

  function HoldingAt(s: State, key: string, asset: Asset): (amount: real)
  {
    if key in s then Holding(s[key], asset) else 0.0
  }

  ghost function Pick(keys: set<string>): (key: string)
    requires keys != {}
    ensures key in keys
  {
    var k :| k in keys; k
  }

  /** Sum of the holdings of `asset` over the keys `keys`. */
  ghost function SumOver(s: State, asset: Asset, keys: set<string>): (sum: real)
    decreases keys
  {
    if keys == {} then 0.0
    else
      var k := Pick(keys);
      HoldingAt(s, k, asset) + SumOver(s, asset, keys - {k})
  }

  /** The total of `asset` across the whole world state. */
  ghost function Total(s: State, asset: Asset): (sum: real)
  {
    SumOver(s, asset, s.Keys)
  }

  /** Any key of the set can be taken out first. */
  lemma {:induction false} SumRemove(s: State, asset: Asset, keys: set<string>, j: string)
    requires j in keys
    ensures SumOver(s, asset, keys) == HoldingAt(s, j, asset) + SumOver(s, asset, keys - {j})
    decreases keys
  {
    var k := Pick(keys);
    if k != j {
      SumRemove(s, asset, keys - {k}, j);
      SumRemove(s, asset, keys - {j}, k);
      assert keys - {k} - {j} == keys - {j} - {k};
    }
  }

  /** Two states that agree on the holdings of every key of `keys` have the
      same sum over `keys`. */
  lemma {:induction false} SumFrame(s: State, t: State, asset: Asset, keys: set<string>)
    requires forall k :: k in keys ==> HoldingAt(s, k, asset) == HoldingAt(t, k, asset)
    ensures SumOver(s, asset, keys) == SumOver(t, asset, keys)
    decreases keys
  {
    if keys != {} {
      var k := Pick(keys);
      SumFrame(s, t, asset, keys - {k});
    }
  }

  /** Writing `r` under `key` replaces that key's old holding by the new one
      in the total, and changes nothing else. */
  lemma TotalAfterWrite(s: State, key: string, r: Record, asset: Asset)
    ensures Total(s[key := r], asset) == Total(s, asset) - HoldingAt(s, key, asset) + Holding(r, asset)
  {
    var t := s[key := r];
    if key in s {
      assert t.Keys == s.Keys;
      SumRemove(s, asset, s.Keys, key);
      SumRemove(t, asset, t.Keys, key);
      SumFrame(s, t, asset, s.Keys - {key});
    } else {
      assert t.Keys - {key} == s.Keys;
      SumRemove(t, asset, t.Keys, key);
      SumFrame(s, t, asset, s.Keys);
    }
  }
}

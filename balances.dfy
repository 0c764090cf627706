/** Which transactions keep every factory's energy and currency balance
    non-negative, and where the contract lets a balance go below zero. */
module BalanceLaws {
  import opened Records
  import opened EnergyToken

  /** A factory record with no negative balance; other records hold none. */
  predicate Solvent(r: Record)
  {
    r.FactoryRecord? ==> r.factory.energyBalance >= 0.0 && r.factory.currencyBalance >= 0.0
  }

  ghost predicate NonNegative(s: State)
  {
    forall k :: k in s ==> Solvent(s[k])
  }

  lemma WriteKeepsNonNegative(s: State, key: string, r: Record)
    requires NonNegative(s) && Solvent(r)
    ensures NonNegative(s[key := r])
  {
  }

  lemma MintKeepsNonNegative(s: State, factoryId: string, amount: real)
    requires NonNegative(s)
    requires Mint(s, factoryId, amount).Commit?
    ensures NonNegative(Mint(s, factoryId, amount).post)
  {
    assert Solvent(s[factoryId]);
  }

  /** The sender keeps at least zero because the transfer checks its balance
      first; the receiver only gains. */
  lemma TransferKeepsNonNegative(s: State, fromId: string, toId: string, amount: real)
    requires NonNegative(s)
    requires Transfer(s, fromId, toId, amount).Commit?
    ensures NonNegative(Transfer(s, fromId, toId, amount).post)
  {
    var src, dst := s[fromId].factory, s[toId].factory;
    assert Solvent(s[fromId]) && Solvent(s[toId]);
    var r1 := FactoryRecord(src.(energyBalance := src.energyBalance - amount));
    var r2 := FactoryRecord(dst.(energyBalance := dst.energyBalance + amount));
    WriteKeepsNonNegative(s, fromId, r1);
    WriteKeepsNonNegative(s[fromId := r1], toId, r2);
  }

  lemma SetAvailableEnergyKeepsNonNegative(s: State, factoryId: string, v: real)
    requires NonNegative(s)
    requires SetAvailableEnergy(s, factoryId, v).Commit?
    ensures NonNegative(SetAvailableEnergy(s, factoryId, v).post)
  {
    assert Solvent(s[factoryId]);
  }

  lemma SetDailyConsumptionKeepsNonNegative(s: State, factoryId: string, v: real)
    requires NonNegative(s)
    requires SetDailyConsumption(s, factoryId, v).Commit?
    ensures NonNegative(SetDailyConsumption(s, factoryId, v).post)
  {
    assert Solvent(s[factoryId]);
  }

  /** Executing a trade whose stored total price is not negative keeps every
      balance non-negative: the buyer's currency was checked against the
      price, and the energy transfer keeps the energy balances. */
  lemma ExecuteKeepsNonNegative(s: State, tradeId: string)
    requires NonNegative(s)
    requires Execute(s, tradeId).Commit?
    requires s[tradeId].trade.totalPrice >= 0.0
    ensures NonNegative(Execute(s, tradeId).post)
  {
    var t := s[tradeId].trade;
    var moved := Transfer(s, t.sellerId, t.buyerId, t.amount).post;
    TransferKeepsNonNegative(s, t.sellerId, t.buyerId, t.amount);
    assert moved[t.buyerId].factory.currencyBalance == s[t.buyerId].factory.currencyBalance;
    var seller, buyer := moved[t.sellerId].factory, moved[t.buyerId].factory;
    assert Solvent(moved[t.sellerId]) && Solvent(moved[t.buyerId]);
    var rb := FactoryRecord(buyer.(currencyBalance := buyer.currencyBalance - t.totalPrice));
    var rs := FactoryRecord(seller.(currencyBalance := seller.currencyBalance + t.totalPrice));
    WriteKeepsNonNegative(moved, buyer.id, rb);
    WriteKeepsNonNegative(moved[buyer.id := rb], seller.id, rs);
    WriteKeepsNonNegative(moved[buyer.id := rb][seller.id := rs], tradeId, TradeRecord(t.(status := Completed)));
  }

  lemma {:induction false} SeedKeepsNonNegative(s: State, factories: seq<Factory>)
    requires NonNegative(s)
    requires forall i :: 0 <= i < |factories| ==> Solvent(FactoryRecord(factories[i]))
    ensures NonNegative(Seed(s, factories))
    decreases |factories|
  {
    if factories != [] {
      assert Solvent(FactoryRecord(factories[0]));
      WriteKeepsNonNegative(s, factories[0].id, FactoryRecord(factories[0]));
      SeedKeepsNonNegative(s[factories[0].id := FactoryRecord(factories[0])], factories[1..]);
    }
  }

  /** What a transaction must satisfy for the contract to keep balances
      non-negative: the two registrations and the energy update store the
      balances they are given, and execution moves the stored total price. */
  ghost predicate Guarded(s: State, c: Call)
  {
    match c
    case RegisterFactory(_, _, initialBalance, _, currencyBalance, _, _) =>
      initialBalance >= 0.0 && currencyBalance >= 0.0
    case RegisterFactoryWithAuth(_, _, _, _, _, _, _, _, _, initialBalance, currencyBalance, _) =>
      initialBalance >= 0.0 && currencyBalance >= 0.0
    case UpdateFactoryEnergy(_, energyBalance, _, _) => energyBalance >= 0.0
    case ExecuteTrade(tradeId) =>
      tradeId in s && s[tradeId].TradeRecord? ==> s[tradeId].trade.totalPrice >= 0.0
    case _ => true
  }

  /** Every committed transaction that meets its guard keeps all balances
      non-negative. */
  lemma ApplyKeepsNonNegative(s: State, c: Call)
    requires NonNegative(s) && Guarded(s, c)
    ensures Apply(s, c).Commit? ==> NonNegative(Apply(s, c).post)
  {
    if Apply(s, c).Commit? {
      match c
      case InitLedger =>
        SeedKeepsNonNegative(s, SampleFactories());
      case RegisterFactory(id, name, bal, ty, cur, daily, avail) =>
        WriteKeepsNonNegative(s, id, FactoryRecord(BasicFactory(id, name, bal, ty, cur, daily, avail)));
      case RegisterFactoryWithAuth(id, name, email, pw, loc, fiscal, cap, contact, src, bal, cur, ts) =>
        var r := FactoryRecord(AuthFactory(id, name, email, pw, loc, fiscal, cap, contact, src, bal, cur, ts));
        WriteKeepsNonNegative(s, id, r);
        WriteKeepsNonNegative(s[id := r], EmailKey(email), IndexRecord(id));
        WriteKeepsNonNegative(s[id := r][EmailKey(email) := IndexRecord(id)], FiscalKey(fiscal), IndexRecord(id));
      case MintEnergyTokens(id, amount) => MintKeepsNonNegative(s, id, amount);
      case TransferEnergy(from, to, amount) => TransferKeepsNonNegative(s, from, to, amount);
      case CreateEnergyTrade(id, seller, buyer, amount, price, ts) =>
      case ExecuteTrade(id) => ExecuteKeepsNonNegative(s, id);
      case UpdateAvailableEnergy(id, v) => SetAvailableEnergyKeepsNonNegative(s, id, v);
      case UpdateDailyConsumption(id, v) => SetDailyConsumptionKeepsNonNegative(s, id, v);
      case UpdateFactoryEnergy(id, bal, gen, cons) => assert Solvent(s[id]);
      case CreateOffer(id, factory, ty, amount, price, ts) =>
      case UpdateOfferStatus(id, status, ts) =>
    }
  }

  /** Trade creation checks the sign of neither amount nor price. A trade of
      10 at a unit price of -1 commits and executes, and the seller ends with
      a currency balance of -10. */
  lemma NegativePriceScenario()
    ensures var a := BasicFactory("A", "Plant A", 10.0, "solar", 0.0, 0.0, 0.0);
      var b := BasicFactory("B", "Plant B", 0.0, "wind", 0.0, 0.0, 0.0);
      var s := map["A" := FactoryRecord(a), "B" := FactoryRecord(b)];
      var created := CreateTrade(s, "T1", "A", "B", 10.0, -1.0, "t0");
      && NonNegative(s)
      && created.Commit?
      && Execute(created.post, "T1").Commit?
      && Execute(created.post, "T1").post["A"].factory.currencyBalance == -10.0
      && Execute(created.post, "T1").post["B"].factory.currencyBalance == 10.0
      && !NonNegative(Execute(created.post, "T1").post)
  {
    var a := BasicFactory("A", "Plant A", 10.0, "solar", 0.0, 0.0, 0.0);
    var b := BasicFactory("B", "Plant B", 0.0, "wind", 0.0, 0.0, 0.0);
    var s := map["A" := FactoryRecord(a), "B" := FactoryRecord(b)];
    var t := EnergyTrade("T1", "A", "B", 10.0, -1.0, -10.0, "t0", Pending);
    var created := s["T1" := TradeRecord(t)];
    assert CreateTrade(s, "T1", "A", "B", 10.0, -1.0, "t0") == Commit(created);
    var moved := created["A" := FactoryRecord(a.(energyBalance := 0.0))]["B" := FactoryRecord(b.(energyBalance := 10.0))];
    assert Transfer(created, "A", "B", 10.0) == Commit(moved);
    var post := Execute(created, "T1").post;
    assert post["A"] == FactoryRecord(a.(energyBalance := 0.0, currencyBalance := -10.0));
    assert !Solvent(post["A"]);
  }

  /** Registration and the energy update store whatever balance they are
      given, negative ones included. */
  lemma UnguardedWritesStoreNegatives(s: State, factoryId: string, name: string)
    requires factoryId !in s
    ensures var post := Register(s, factoryId, name, -1.0, "solar", 0.0, 0.0, 0.0).post;
      && Register(s, factoryId, name, -1.0, "solar", 0.0, 0.0, 0.0).Commit?
      && !NonNegative(post)
      && SetFactoryEnergy(post, factoryId, -2.0, 0.0, 0.0).Commit?
      && SetFactoryEnergy(post, factoryId, -2.0, 0.0, 0.0).post[factoryId].factory.energyBalance == -2.0
  {
    var post := Register(s, factoryId, name, -1.0, "solar", 0.0, 0.0, 0.0).post;
    assert !Solvent(post[factoryId]);
  }

  /** Registration with credentials stores negative opening balances too,
      when the factory id is neither of its own index keys. */
  lemma UnguardedAuthRegistrationStoresNegatives(s: State, factoryId: string, name: string, email: string,
                                                 fiscalMatricule: string)
    requires factoryId !in s && EmailKey(email) !in s && FiscalKey(fiscalMatricule) !in s
    requires factoryId != EmailKey(email) && factoryId != FiscalKey(fiscalMatricule)
    ensures var tx := RegisterWithAuth(s, factoryId, name, email, "", "", fiscalMatricule, 0.0, "", "solar",
                                       -1.0, -1.0, "t0");
      && tx.Commit?
      && tx.post[factoryId].factory.energyBalance == -1.0
      && tx.post[factoryId].factory.currencyBalance == -1.0
      && !NonNegative(tx.post)
  {
    var post := RegisterWithAuth(s, factoryId, name, email, "", "", fiscalMatricule, 0.0, "", "solar",
                                 -1.0, -1.0, "t0").post;
    assert !Solvent(post[factoryId]);
  }
}

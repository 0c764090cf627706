/** The trade state machine: creating a pending trade, settling it, and what
    settlement does to the two parties' balances and to the totals. */
module TradeLaws {
  import opened Records
  import opened Holdings
  import opened EnergyToken
  import opened LedgerLaws

  // ----------------------------------------------------------------- creation

  lemma CreateTradeOutcome(s: State, tradeId: string, sellerId: string, buyerId: string,
                           amount: real, pricePerUnit: real, txTimestamp: string)
    ensures CreateTrade(s, tradeId, sellerId, buyerId, amount, pricePerUnit, txTimestamp).Commit? <==>
      && tradeId !in s
      && IsFactory(s, sellerId) && s[sellerId].factory.energyBalance >= amount
      && IsFactory(s, buyerId)
    ensures tradeId in s ==>
      CreateTrade(s, tradeId, sellerId, buyerId, amount, pricePerUnit, txTimestamp) == Abort(TradeAlreadyExists(tradeId))
    ensures tradeId !in s && sellerId !in s ==>
      CreateTrade(s, tradeId, sellerId, buyerId, amount, pricePerUnit, txTimestamp) == Abort(FactoryNotFound(sellerId))
    ensures tradeId !in s && IsFactory(s, sellerId) && s[sellerId].factory.energyBalance < amount ==>
      CreateTrade(s, tradeId, sellerId, buyerId, amount, pricePerUnit, txTimestamp) == Abort(SellerInsufficientEnergy)
    ensures tradeId !in s && IsFactory(s, sellerId) && s[sellerId].factory.energyBalance >= amount && buyerId !in s ==>
      CreateTrade(s, tradeId, sellerId, buyerId, amount, pricePerUnit, txTimestamp) == Abort(FactoryNotFound(buyerId))
  {
  }

  /** A created trade is pending, carries the price fixed as amount times unit
      price, and creation moves no balance: it only adds the trade's key. */
  lemma CreatedTradeIsPending(s: State, tradeId: string, sellerId: string, buyerId: string,
                              amount: real, pricePerUnit: real, txTimestamp: string)
    requires CreateTrade(s, tradeId, sellerId, buyerId, amount, pricePerUnit, txTimestamp).Commit?
    ensures var post := CreateTrade(s, tradeId, sellerId, buyerId, amount, pricePerUnit, txTimestamp).post;
      && LookupTrade(post, tradeId) == Ok(EnergyTrade(tradeId, sellerId, buyerId, amount, pricePerUnit,
                                                      amount * pricePerUnit, txTimestamp, Pending))
      && var t := LookupTrade(post, tradeId).value;
      && t.status == Pending
      && t.totalPrice == amount * pricePerUnit
      && t.sellerId == sellerId && t.buyerId == buyerId && t.amount == amount
      && post.Keys == s.Keys + {tradeId}
      && (forall k :: k in s ==> post[k] == s[k])
      && Total(post, Energy) == Total(s, Energy)
      && Total(post, Currency) == Total(s, Currency)
  {
    var t := EnergyTrade(tradeId, sellerId, buyerId, amount, pricePerUnit, amount * pricePerUnit, txTimestamp, Pending);
    TotalAfterWrite(s, tradeId, TradeRecord(t), Energy);
    TotalAfterWrite(s, tradeId, TradeRecord(t), Currency);
  }

  // ---------------------------------------------------------------- execution

  /** The checks execution makes, in terms of the state it starts from. */
  ghost predicate ExecutionPermitted(s: State, tradeId: string)
  {
    && tradeId in s && s[tradeId].TradeRecord?
    && var t := s[tradeId].trade;
    && t.status != Completed
    && IsFactory(s, t.buyerId) && s[t.buyerId].factory.currencyBalance >= t.totalPrice
    && t.amount > 0.0
    && IsFactory(s, t.sellerId) && s[t.sellerId].factory.energyBalance >= t.amount
  }

  lemma ExecuteOutcome(s: State, tradeId: string)
    ensures Execute(s, tradeId).Commit? <==> ExecutionPermitted(s, tradeId)
    ensures tradeId !in s ==> Execute(s, tradeId) == Abort(TradeNotFound(tradeId))
    ensures tradeId in s && !s[tradeId].TradeRecord? ==> Execute(s, tradeId) == Abort(Undecodable(tradeId))
    ensures tradeId in s && s[tradeId].TradeRecord? && s[tradeId].trade.status == Completed ==>
      Execute(s, tradeId) == Abort(TradeAlreadyCompleted)
    ensures tradeId in s && s[tradeId].TradeRecord? && s[tradeId].trade.status != Completed ==>
      var t := s[tradeId].trade;
      && (t.buyerId !in s ==> Execute(s, tradeId) == Abort(FactoryNotFound(t.buyerId)))
      && (t.buyerId in s && !s[t.buyerId].FactoryRecord? ==> Execute(s, tradeId) == Abort(Undecodable(t.buyerId)))
    ensures tradeId in s && s[tradeId].TradeRecord? && s[tradeId].trade.status != Completed ==>
      var t := s[tradeId].trade;
      IsFactory(s, t.buyerId) && s[t.buyerId].factory.currencyBalance < t.totalPrice ==>
        Execute(s, tradeId) == Abort(InsufficientCurrency(s[t.buyerId].factory.currencyBalance, t.totalPrice))
    ensures tradeId in s && s[tradeId].TradeRecord? && s[tradeId].trade.status != Completed ==>
      var t := s[tradeId].trade;
      IsFactory(s, t.buyerId) && s[t.buyerId].factory.currencyBalance >= t.totalPrice &&
      Transfer(s, t.sellerId, t.buyerId, t.amount).Abort? ==>
        Execute(s, tradeId) == Abort(EnergyTransferFailed(Transfer(s, t.sellerId, t.buyerId, t.amount).error))
  {
  }

  /** Once executed, a trade can never be executed again. */
  lemma ExecuteTwiceFails(s: State, tradeId: string)
    requires Execute(s, tradeId).Commit?
    ensures Execute(Execute(s, tradeId).post, tradeId) == Abort(TradeAlreadyCompleted)
  {
  }

  /** On a well-formed ledger only a pending trade is ever executed. */
  lemma ExecuteOnlyPending(s: State, tradeId: string)
    requires WellFormed(s)
    requires Execute(s, tradeId).Commit?
    ensures s[tradeId].trade.status == Pending
  {
  }

  /** Settlement between distinct parties: energy moves seller to buyer,
      the stored total price moves buyer to seller, the trade is completed,
      and no other key changes. */
  lemma ExecuteSettles(s: State, tradeId: string)
    requires WellFormed(s)
    requires Execute(s, tradeId).Commit?
    requires s[tradeId].trade.sellerId != s[tradeId].trade.buyerId
    ensures var t := s[tradeId].trade;
      var seller, buyer := s[t.sellerId].factory, s[t.buyerId].factory;
      var post := Execute(s, tradeId).post;
      && post[t.sellerId] == FactoryRecord(seller.(energyBalance := seller.energyBalance - t.amount,
                                                   currencyBalance := seller.currencyBalance + t.totalPrice))
      && post[t.buyerId] == FactoryRecord(buyer.(energyBalance := buyer.energyBalance + t.amount,
                                                 currencyBalance := buyer.currencyBalance - t.totalPrice))
      && post[tradeId] == TradeRecord(t.(status := Completed))
      && OnlyChanged(s, post, {t.sellerId, t.buyerId, tradeId})
  {
  }

  /** Settlement between distinct parties conserves total energy and total
      currency. */
  lemma ExecuteConserves(s: State, tradeId: string)
    requires WellFormed(s)
    requires Execute(s, tradeId).Commit?
    requires s[tradeId].trade.sellerId != s[tradeId].trade.buyerId
    ensures Total(Execute(s, tradeId).post, Energy) == Total(s, Energy)
    ensures Total(Execute(s, tradeId).post, Currency) == Total(s, Currency)
  {
    var t := s[tradeId].trade;
    TransferConserves(s, t.sellerId, t.buyerId, t.amount);
    var moved := Transfer(s, t.sellerId, t.buyerId, t.amount).post;
    var seller, buyer := moved[t.sellerId].factory, moved[t.buyerId].factory;
    var rb := FactoryRecord(buyer.(currencyBalance := buyer.currencyBalance - t.totalPrice));
    var paid := moved[t.buyerId := rb];
    var rs := FactoryRecord(seller.(currencyBalance := seller.currencyBalance + t.totalPrice));
    var received := paid[t.sellerId := rs];
    var rt := TradeRecord(t.(status := Completed));
    assert Execute(s, tradeId).post == received[tradeId := rt];
    assert HoldingAt(paid, t.sellerId, Energy) == seller.energyBalance;
    assert HoldingAt(paid, t.sellerId, Currency) == seller.currencyBalance;
    TotalAfterWrite(moved, t.buyerId, rb, Energy);
    TotalAfterWrite(paid, t.sellerId, rs, Energy);
    TotalAfterWrite(received, tradeId, rt, Energy);
    TotalAfterWrite(moved, t.buyerId, rb, Currency);
    TotalAfterWrite(paid, t.sellerId, rs, Currency);
    TotalAfterWrite(received, tradeId, rt, Currency);
  }

  /** A trade whose seller is its buyer credits that factory with both the
      energy and the price: in each pair of writes the credited copy comes
      last. */
  lemma ExecuteSelfTrade(s: State, tradeId: string)
    requires WellFormed(s)
    requires Execute(s, tradeId).Commit?
    requires s[tradeId].trade.sellerId == s[tradeId].trade.buyerId
    ensures var t := s[tradeId].trade;
      var f := s[t.sellerId].factory;
      var post := Execute(s, tradeId).post;
      && post[t.sellerId] == FactoryRecord(f.(energyBalance := f.energyBalance + t.amount,
                                              currencyBalance := f.currencyBalance + t.totalPrice))
      && Total(post, Energy) == Total(s, Energy) + t.amount
      && Total(post, Currency) == Total(s, Currency) + t.totalPrice
  {
    var t := s[tradeId].trade;
    var id := t.sellerId;
    var f := s[id].factory;
    SelfTransferCredits(s, id, t.amount);
    var moved := Transfer(s, id, id, t.amount).post;
    var g := moved[id].factory;
    assert g == f.(energyBalance := f.energyBalance + t.amount) && g.id == id;
    var rb := FactoryRecord(g.(currencyBalance := g.currencyBalance - t.totalPrice));
    var rs := FactoryRecord(g.(currencyBalance := g.currencyBalance + t.totalPrice));
    var rt := TradeRecord(t.(status := Completed));
    assert moved[id := rb][id := rs] == moved[id := rs];
    var received := moved[id := rs];
    assert Execute(s, tradeId).post == received[tradeId := rt];
    TotalAfterWrite(moved, id, rs, Energy);
    TotalAfterWrite(received, tradeId, rt, Energy);
    TotalAfterWrite(moved, id, rs, Currency);
    TotalAfterWrite(received, tradeId, rt, Currency);
  }

  // ---------------------------------------------------------------- scenarios

  /** Seller A holds 100 energy, buyer B holds 50 currency; a trade of 20 at 2
      per unit costs 40 and leaves A with 80 energy and 40 currency and B with
      20 energy and 10 currency. */
  lemma SettlementScenario()
    ensures var a := BasicFactory("A", "Plant A", 100.0, "solar", 0.0, 0.0, 0.0);
      var b := BasicFactory("B", "Plant B", 0.0, "wind", 50.0, 0.0, 0.0);
      var s := map["A" := FactoryRecord(a), "B" := FactoryRecord(b)];
      var created := CreateTrade(s, "T1", "A", "B", 20.0, 2.0, "t0");
      && created.Commit?
      && created.post["T1"] == TradeRecord(EnergyTrade("T1", "A", "B", 20.0, 2.0, 40.0, "t0", Pending))
      && var done := Execute(created.post, "T1");
      && done.Commit?
      && done.post["A"] == FactoryRecord(a.(energyBalance := 80.0, currencyBalance := 40.0))
      && done.post["B"] == FactoryRecord(b.(energyBalance := 20.0, currencyBalance := 10.0))
      && done.post["T1"] == TradeRecord(EnergyTrade("T1", "A", "B", 20.0, 2.0, 40.0, "t0", Completed))
  {
    assert "A" != "B" && "A" != "T1" && "B" != "T1";
  }

  /** A seller with 5 energy cannot even create a trade of 10; and a pending
      trade of 10 whose seller has dropped to 5 fails in its energy transfer. */
  lemma ShortSellerScenario()
    ensures var c := BasicFactory("C", "Plant C", 5.0, "solar", 0.0, 0.0, 0.0);
      var d := BasicFactory("D", "Plant D", 0.0, "wind", 100.0, 0.0, 0.0);
      var s := map["C" := FactoryRecord(c), "D" := FactoryRecord(d)];
      var t := EnergyTrade("T2", "C", "D", 10.0, 1.0, 10.0, "t0", Pending);
      && CreateTrade(s, "T2", "C", "D", 10.0, 1.0, "t0") == Abort(SellerInsufficientEnergy)
      && Execute(s["T2" := TradeRecord(t)], "T2") == Abort(EnergyTransferFailed(InsufficientEnergy(5.0, 10.0)))
  {
    assert "C" != "D" && "C" != "T2" && "D" != "T2";
  }
}

/** The contract as the peer runs it: each transaction reads and writes the
    world state through the chaincode stub, one key at a time, and is proved
    to do exactly what the corresponding transaction of `EnergyToken` does. */
module Chaincode {
  import opened Records
  import EnergyToken

  /** The transaction's view of the world state. Reads see the writes made
      earlier in the same transaction; the transaction timestamp is fixed
      for the whole transaction. */
  class ChaincodeStub {
    var state: State
    const txTimestamp: string

    constructor (initial: State, timestamp: string)
      ensures state == initial && txTimestamp == timestamp
    {
      state := initial;
      txTimestamp := timestamp;
    }

    method GetState(key: string) returns (value: Option<Record>)
      ensures key in state ==> value == Some(state[key])
      ensures key !in state ==> value == None
    {
      if key in state {
        value := Some(state[key]);
      } else {
        value := None;
      }
    }

    method PutState(key: string, value: Record)
      modifies this
      ensures state == old(state)[key := value]
    {
      state := state[key := value];
    }

    /** The pairs whose key lies in [start, end); an empty end is unbounded. */
    method GetStateByRange(start: string, end: string) returns (kvs: State)
      ensures forall k :: k in kvs <==> k in state && InRange(k, start, end)
      ensures forall k :: k in kvs ==> kvs[k] == state[k]
    {
      kvs := map k | k in state && InRange(k, start, end) :: state[k];
    }
  }

  // ------------------------------------------------------------------ reads

  method GetFactory(stub: ChaincodeStub, factoryId: string) returns (r: Result<Factory>)
    ensures r.Ok? <==> EnergyToken.IsFactory(stub.state, factoryId)
    ensures r.Ok? ==> stub.state[factoryId] == FactoryRecord(r.value)
    ensures factoryId !in stub.state ==> r == Err(FactoryNotFound(factoryId))
    ensures factoryId in stub.state && r.Err? ==> r == Err(Undecodable(factoryId))
    ensures r == EnergyToken.LookupFactory(stub.state, factoryId)
  {
    var raw := stub.GetState(factoryId);
    match raw {
      case None => r := Err(FactoryNotFound(factoryId));
      case Some(FactoryRecord(f)) => r := Ok(f);
      case Some(_) => r := Err(Undecodable(factoryId));
    }
  }

  /** Any record under the key counts, whatever its kind. */
  method FactoryExists(stub: ChaincodeStub, factoryId: string) returns (found: bool)
    ensures found <==> factoryId in stub.state
  {
    var raw := stub.GetState(factoryId);
    found := raw.Some?;
  }

  method GetEnergyBalance(stub: ChaincodeStub, factoryId: string) returns (r: Result<real>)
    ensures r.Ok? <==> EnergyToken.IsFactory(stub.state, factoryId)
    ensures r.Ok? ==> r.value == stub.state[factoryId].factory.energyBalance
    ensures r.Err? ==> r.error == EnergyToken.LookupFactory(stub.state, factoryId).error
  {
    var f := GetFactory(stub, factoryId);
    if f.Err? {
      return Err(f.error);
    }
    r := Ok(f.value.energyBalance);
  }

  method GetCurrencyBalance(stub: ChaincodeStub, factoryId: string) returns (r: Result<real>)
    ensures r.Ok? <==> EnergyToken.IsFactory(stub.state, factoryId)
    ensures r.Ok? ==> r.value == stub.state[factoryId].factory.currencyBalance
    ensures r.Err? ==> r.error == EnergyToken.LookupFactory(stub.state, factoryId).error
  {
    var f := GetFactory(stub, factoryId);
    if f.Err? {
      return Err(f.error);
    }
    r := Ok(f.value.currencyBalance);
  }

  method GetAvailableEnergy(stub: ChaincodeStub, factoryId: string) returns (r: Result<real>)
    ensures r.Ok? <==> EnergyToken.IsFactory(stub.state, factoryId)
    ensures r.Ok? ==> r.value == stub.state[factoryId].factory.availableEnergy
    ensures r.Err? ==> r.error == EnergyToken.LookupFactory(stub.state, factoryId).error
  {
    var f := GetFactory(stub, factoryId);
    if f.Err? {
      return Err(f.error);
    }
    r := Ok(f.value.availableEnergy);
  }

  /** The status report of the factory stored under the id; what the report
      says is stated by `LedgerLaws.ReportMeaning`. */
  method GetEnergyStatus(stub: ChaincodeStub, factoryId: string) returns (r: Result<EnergyToken.EnergyReport>)
    ensures r.Ok? <==> EnergyToken.IsFactory(stub.state, factoryId)
    ensures r.Err? ==> r.error == EnergyToken.LookupFactory(stub.state, factoryId).error
    ensures r.Ok? ==> r.value == EnergyToken.Report(stub.state[factoryId].factory)
  {
    var got := GetFactory(stub, factoryId);
    if got.Err? {
      return Err(got.error);
    }
    var f := got.value;
    var difference := f.availableEnergy - f.dailyConsumption;
    var status := EnergyToken.Classify(difference);
    r := Ok(EnergyToken.EnergyReport(f.id, f.name, f.availableEnergy, f.dailyConsumption, difference, status));
  }

  method GetTrade(stub: ChaincodeStub, tradeId: string) returns (r: Result<EnergyTrade>)
    ensures r.Ok? <==> tradeId in stub.state && stub.state[tradeId].TradeRecord?
    ensures r.Ok? ==> stub.state[tradeId] == TradeRecord(r.value)
    ensures tradeId !in stub.state ==> r == Err(TradeNotFound(tradeId))
    ensures tradeId in stub.state && r.Err? ==> r == Err(Undecodable(tradeId))
    ensures r == EnergyToken.LookupTrade(stub.state, tradeId)
  {
    var raw := stub.GetState(tradeId);
    match raw {
      case None => r := Err(TradeNotFound(tradeId));
      case Some(TradeRecord(t)) => r := Ok(t);
      case Some(_) => r := Err(Undecodable(tradeId));
    }
  }

  method GetOffer(stub: ChaincodeStub, offerId: string) returns (r: Result<Offer>)
    ensures r.Ok? <==> OfferKey(offerId) in stub.state && stub.state[OfferKey(offerId)].OfferRecord?
    ensures r.Ok? ==> stub.state[OfferKey(offerId)] == OfferRecord(r.value)
    ensures OfferKey(offerId) !in stub.state ==> r == Err(OfferNotFound(offerId))
    ensures OfferKey(offerId) in stub.state && r.Err? ==> r == Err(Undecodable(OfferKey(offerId)))
    ensures r == EnergyToken.LookupOffer(stub.state, offerId)
  {
    var offerKey := OfferKey(offerId);
    var raw := stub.GetState(offerKey);
    match raw {
      case None => r := Err(OfferNotFound(offerId));
      case Some(OfferRecord(o)) => r := Ok(o);
      case Some(_) => r := Err(Undecodable(offerKey));
    }
  }

  /** Login lookup: the email index names the factory id to read. */
  method GetFactoryByEmail(stub: ChaincodeStub, email: string) returns (r: Result<Factory>)
    ensures EmailKey(email) !in stub.state ==> r == Err(EmailNotFound(email))
    ensures EmailKey(email) in stub.state && stub.state[EmailKey(email)].IndexRecord? ==>
      r == EnergyToken.LookupFactory(stub.state, stub.state[EmailKey(email)].target)
    ensures EmailKey(email) in stub.state && !stub.state[EmailKey(email)].IndexRecord? ==>
      r == Err(Undecodable(EmailKey(email)))
    ensures r == EnergyToken.LookupByEmail(stub.state, email)
  {
    var emailKey := EmailKey(email);
    var raw := stub.GetState(emailKey);
    match raw {
      case None => r := Err(EmailNotFound(email));
      case Some(IndexRecord(factoryId)) => r := GetFactory(stub, factoryId);
      case Some(_) => r := Err(Undecodable(emailKey));
    }
  }

  // ---------------------------------------------------------- registration

  /** Stores the five sample factories, one write per factory, in order. */
  method InitLedger(stub: ChaincodeStub) returns (out: Outcome)
    modifies stub
    ensures out == Pass && stub.state == EnergyToken.Seed(old(stub.state), EnergyToken.SampleFactories())
  {
    var factories := EnergyToken.SampleFactories();
    for i := 0 to |factories|
      invariant EnergyToken.Seed(stub.state, factories[i..]) == EnergyToken.Seed(old(stub.state), factories)
    {
      assert factories[i..][1..] == factories[i + 1..];
      stub.PutState(factories[i].id, FactoryRecord(factories[i]));
    }
    out := Pass;
  }

  method RegisterFactory(stub: ChaincodeStub, factoryId: string, name: string, initialBalance: real,
                         energyType: string, currencyBalance: real, dailyConsumption: real,
                         availableEnergy: real) returns (out: Outcome)
    modifies stub
    ensures Applied(EnergyToken.Register(old(stub.state), factoryId, name, initialBalance, energyType,
                                         currencyBalance, dailyConsumption, availableEnergy),
                    old(stub.state), stub.state, out)
  {
    var found := FactoryExists(stub, factoryId);
    if found {
      return Fail(FactoryAlreadyExists(factoryId));
    }
    var factory := EnergyToken.BasicFactory(factoryId, name, initialBalance, energyType, currencyBalance,
                                            dailyConsumption, availableEnergy);
    stub.PutState(factoryId, FactoryRecord(factory));
    out := Pass;
  }

  method RegisterFactoryWithAuth(stub: ChaincodeStub, factoryId: string, name: string, email: string,
                                 passwordHash: string, localisation: string, fiscalMatricule: string,
                                 energyCapacity: real, contactInfo: string, energySource: string,
                                 initialBalance: real, currencyBalance: real) returns (out: Outcome)
    modifies stub
    ensures Applied(EnergyToken.RegisterWithAuth(old(stub.state), factoryId, name, email, passwordHash,
                                                 localisation, fiscalMatricule, energyCapacity, contactInfo,
                                                 energySource, initialBalance, currencyBalance,
                                                 stub.txTimestamp),
                    old(stub.state), stub.state, out)
  {
    var found := FactoryExists(stub, factoryId);
    if found {
      return Fail(FactoryAlreadyExists(factoryId));
    }
    var emailKey := EmailKey(email);
    var existingFactory := stub.GetState(emailKey);
    if existingFactory.Some? {
      return Fail(EmailAlreadyRegistered(email));
    }
    var fiscalKey := FiscalKey(fiscalMatricule);
    var existingFiscal := stub.GetState(fiscalKey);
    if existingFiscal.Some? {
      return Fail(FiscalAlreadyRegistered(fiscalMatricule));
    }
    var factory := EnergyToken.AuthFactory(factoryId, name, email, passwordHash, localisation, fiscalMatricule,
                                           energyCapacity, contactInfo, energySource, initialBalance,
                                           currencyBalance, stub.txTimestamp);
    stub.PutState(factoryId, FactoryRecord(factory));
    stub.PutState(emailKey, IndexRecord(factoryId));
    stub.PutState(fiscalKey, IndexRecord(factoryId));
    out := Pass;
  }

  // ------------------------------------------------------------ ledger moves

  method MintEnergyTokens(stub: ChaincodeStub, factoryId: string, amount: real) returns (out: Outcome)
    modifies stub
    ensures Applied(EnergyToken.Mint(old(stub.state), factoryId, amount), old(stub.state), stub.state, out)
  {
    if amount <= 0.0 {
      return Fail(NonPositiveAmount);
    }
    var got := GetFactory(stub, factoryId);
    if got.Err? {
      return Fail(got.error);
    }
    var factory := got.value;
    factory := factory.(energyBalance := factory.energyBalance + amount);
    stub.PutState(factoryId, FactoryRecord(factory));
    out := Pass;
  }

  method TransferEnergy(stub: ChaincodeStub, fromId: string, toId: string, amount: real) returns (out: Outcome)
    modifies stub
    ensures Applied(EnergyToken.Transfer(old(stub.state), fromId, toId, amount), old(stub.state), stub.state, out)
  {
    if amount <= 0.0 {
      return Fail(NonPositiveAmount);
    }
    var gotFrom := GetFactory(stub, fromId);
    if gotFrom.Err? {
      return Fail(gotFrom.error);
    }
    var fromFactory := gotFrom.value;
    if fromFactory.energyBalance < amount {
      return Fail(InsufficientEnergy(fromFactory.energyBalance, amount));
    }
    var gotTo := GetFactory(stub, toId);
    if gotTo.Err? {
      return Fail(gotTo.error);
    }
    var toFactory := gotTo.value;
    fromFactory := fromFactory.(energyBalance := fromFactory.energyBalance - amount);
    toFactory := toFactory.(energyBalance := toFactory.energyBalance + amount);
    stub.PutState(fromId, FactoryRecord(fromFactory));
    stub.PutState(toId, FactoryRecord(toFactory));
    out := Pass;
  }

  method UpdateAvailableEnergy(stub: ChaincodeStub, factoryId: string, newAvailableEnergy: real)
    returns (out: Outcome)
    modifies stub
    ensures Applied(EnergyToken.SetAvailableEnergy(old(stub.state), factoryId, newAvailableEnergy),
                    old(stub.state), stub.state, out)
  {
    if newAvailableEnergy < 0.0 {
      return Fail(NegativeAvailableEnergy);
    }
    var got := GetFactory(stub, factoryId);
    if got.Err? {
      return Fail(got.error);
    }
    var factory := got.value.(availableEnergy := newAvailableEnergy);
    stub.PutState(factoryId, FactoryRecord(factory));
    out := Pass;
  }

  method UpdateDailyConsumption(stub: ChaincodeStub, factoryId: string, newDailyConsumption: real)
    returns (out: Outcome)
    modifies stub
    ensures Applied(EnergyToken.SetDailyConsumption(old(stub.state), factoryId, newDailyConsumption),
                    old(stub.state), stub.state, out)
  {
    if newDailyConsumption < 0.0 {
      return Fail(NegativeDailyConsumption);
    }
    var got := GetFactory(stub, factoryId);
    if got.Err? {
      return Fail(got.error);
    }
    var factory := got.value.(dailyConsumption := newDailyConsumption);
    stub.PutState(factoryId, FactoryRecord(factory));
    out := Pass;
  }

  method UpdateFactoryEnergy(stub: ChaincodeStub, factoryId: string, energyBalance: real,
                             currentGeneration: real, currentConsumption: real) returns (out: Outcome)
    modifies stub
    ensures Applied(EnergyToken.SetFactoryEnergy(old(stub.state), factoryId, energyBalance, currentGeneration,
                                                 currentConsumption),
                    old(stub.state), stub.state, out)
  {
    var got := GetFactory(stub, factoryId);
    if got.Err? {
      return Fail(got.error);
    }
    var factory := got.value.(energyBalance := energyBalance, currentGeneration := currentGeneration,
                              currentConsumption := currentConsumption);
    stub.PutState(factoryId, FactoryRecord(factory));
    out := Pass;
  }

  // ------------------------------------------------------------------ trades

  method CreateEnergyTrade(stub: ChaincodeStub, tradeId: string, sellerId: string, buyerId: string,
                           amount: real, pricePerUnit: real) returns (out: Outcome)
    modifies stub
    ensures Applied(EnergyToken.CreateTrade(old(stub.state), tradeId, sellerId, buyerId, amount, pricePerUnit,
                                            stub.txTimestamp),
                    old(stub.state), stub.state, out)
  {
    var existing := stub.GetState(tradeId);
    if existing.Some? {
      return Fail(TradeAlreadyExists(tradeId));
    }
    var gotSeller := GetFactory(stub, sellerId);
    if gotSeller.Err? {
      return Fail(gotSeller.error);
    }
    if gotSeller.value.energyBalance < amount {
      return Fail(SellerInsufficientEnergy);
    }
    var gotBuyer := GetFactory(stub, buyerId);
    if gotBuyer.Err? {
      return Fail(gotBuyer.error);
    }
    var totalPrice := amount * pricePerUnit;
    var trade := EnergyTrade(tradeId, sellerId, buyerId, amount, pricePerUnit, totalPrice,
                             stub.txTimestamp, Pending);
    stub.PutState(tradeId, TradeRecord(trade));
    out := Pass;
  }

  /** Checks the trade and the buyer's currency, moves the energy with
      `TransferEnergy`, then reads both factories again and settles the
      price. */
  method ExecuteTrade(stub: ChaincodeStub, tradeId: string) returns (out: Outcome)
    modifies stub
    ensures Applied(EnergyToken.Execute(old(stub.state), tradeId), old(stub.state), stub.state, out)
  {
    var gotTrade := GetTrade(stub, tradeId);
    if gotTrade.Err? {
      return Fail(gotTrade.error);
    }
    var trade := gotTrade.value;
    if trade.status == Completed {
      return Fail(TradeAlreadyCompleted);
    }
    var gotBuyer := GetFactory(stub, trade.buyerId);
    if gotBuyer.Err? {
      return Fail(gotBuyer.error);
    }
    if gotBuyer.value.currencyBalance < trade.totalPrice {
      return Fail(InsufficientCurrency(gotBuyer.value.currencyBalance, trade.totalPrice));
    }
    var moved := TransferEnergy(stub, trade.sellerId, trade.buyerId, trade.amount);
    if moved.Fail? {
      return Fail(EnergyTransferFailed(moved.error));
    }
    // a committed transfer has just written both factories, so both reads succeed
    var gotSeller := GetFactory(stub, trade.sellerId);
    gotBuyer := GetFactory(stub, trade.buyerId);
    var seller, buyer := gotSeller.value, gotBuyer.value;
    buyer := buyer.(currencyBalance := buyer.currencyBalance - trade.totalPrice);
    seller := seller.(currencyBalance := seller.currencyBalance + trade.totalPrice);
    stub.PutState(buyer.id, FactoryRecord(buyer));
    stub.PutState(seller.id, FactoryRecord(seller));
    stub.PutState(tradeId, TradeRecord(trade.(status := Completed)));
    out := Pass;
  }

  // ------------------------------------------------------------------ offers

  method CreateOffer(stub: ChaincodeStub, offerId: string, factoryId: string, offerType: string,
                     energyAmount: real, pricePerKwh: real) returns (out: Outcome)
    modifies stub
    ensures Applied(EnergyToken.PostOffer(old(stub.state), offerId, factoryId, offerType, energyAmount,
                                          pricePerKwh, stub.txTimestamp),
                    old(stub.state), stub.state, out)
  {
    var got := GetFactory(stub, factoryId);
    if got.Err? {
      return Fail(got.error);
    }
    var offerKey := OfferKey(offerId);
    var existing := stub.GetState(offerKey);
    if existing.Some? {
      return Fail(OfferAlreadyExists(offerId));
    }
    var offer := Offer(offerId, factoryId, offerType, energyAmount, pricePerKwh, Active,
                       stub.txTimestamp, stub.txTimestamp);
    stub.PutState(offerKey, OfferRecord(offer));
    out := Pass;
  }

  method UpdateOfferStatus(stub: ChaincodeStub, offerId: string, status: string) returns (out: Outcome)
    modifies stub
    ensures Applied(EnergyToken.SetOfferStatus(old(stub.state), offerId, status, stub.txTimestamp),
                    old(stub.state), stub.state, out)
  {
    var got := GetOffer(stub, offerId);
    if got.Err? {
      return Fail(got.error);
    }
    var offer := got.value.(status := status, updatedAt := stub.txTimestamp);
    stub.PutState(OfferKey(offerId), OfferRecord(offer));
    out := Pass;
  }

  // ---------------------------------------------------------------- listings

  /** Every factory record in the world state that has an id and a name. */
  method GetAllFactories(stub: ChaincodeStub) returns (factories: seq<Factory>)
    ensures forall f :: f in factories <==> f in EnergyToken.AllFactories(stub.state)
    ensures |factories| == |EnergyToken.ListedFactoryKeys(stub.state)|
  {
    var kvs := stub.GetStateByRange("", "");
    assert kvs == EnergyToken.Scan(stub.state, "", "");
    var pending := kvs.Keys;
    factories := [];
    while pending != {}
      invariant pending <= kvs.Keys
      invariant forall f :: f in factories <==> f in EnergyToken.FactoriesAmong(kvs, kvs.Keys - pending)
      invariant |factories| == |EnergyToken.FactoryKeysAmong(kvs, kvs.Keys - pending)|
      decreases pending
    {
      ghost var done := kvs.Keys - pending;
      var key :| key in pending;
      assert kvs.Keys - (pending - {key}) == done + {key};
      assert key !in EnergyToken.FactoryKeysAmong(kvs, done);
      match kvs[key] {
        case FactoryRecord(factory) =>
          if factory.id != "" && factory.name != "" {
            assert EnergyToken.FactoryKeysAmong(kvs, done + {key}) == EnergyToken.FactoryKeysAmong(kvs, done) + {key};
            factories := factories + [factory];
          } else {
            assert EnergyToken.FactoryKeysAmong(kvs, done + {key}) == EnergyToken.FactoryKeysAmong(kvs, done);
          }
        case _ =>
          assert EnergyToken.FactoryKeysAmong(kvs, done + {key}) == EnergyToken.FactoryKeysAmong(kvs, done);
      }
      pending := pending - {key};
    }
    assert kvs.Keys - pending == kvs.Keys;
  }

  /** Every trade record in the world state that has a trade id. */
  method GetAllTrades(stub: ChaincodeStub) returns (trades: seq<EnergyTrade>)
    ensures forall t :: t in trades <==> t in EnergyToken.AllTrades(stub.state)
    ensures |trades| == |EnergyToken.ListedTradeKeys(stub.state)|
  {
    var kvs := stub.GetStateByRange("", "");
    assert kvs == EnergyToken.Scan(stub.state, "", "");
    var pending := kvs.Keys;
    trades := [];
    while pending != {}
      invariant pending <= kvs.Keys
      invariant forall t :: t in trades <==> t in EnergyToken.TradesAmong(kvs, kvs.Keys - pending)
      invariant |trades| == |EnergyToken.TradeKeysAmong(kvs, kvs.Keys - pending)|
      decreases pending
    {
      ghost var done := kvs.Keys - pending;
      var key :| key in pending;
      assert kvs.Keys - (pending - {key}) == done + {key};
      assert key !in EnergyToken.TradeKeysAmong(kvs, done);
      match kvs[key] {
        case TradeRecord(trade) =>
          if trade.tradeId != "" {
            assert EnergyToken.TradeKeysAmong(kvs, done + {key}) == EnergyToken.TradeKeysAmong(kvs, done) + {key};
            trades := trades + [trade];
          } else {
            assert EnergyToken.TradeKeysAmong(kvs, done + {key}) == EnergyToken.TradeKeysAmong(kvs, done);
          }
        case _ =>
          assert EnergyToken.TradeKeysAmong(kvs, done + {key}) == EnergyToken.TradeKeysAmong(kvs, done);
      }
      pending := pending - {key};
    }
    assert kvs.Keys - pending == kvs.Keys;
  }

  /** Every active offer stored under a key in ["offer_", "offer_~"). */
  method GetAllOffers(stub: ChaincodeStub) returns (offers: seq<Offer>)
    ensures forall o :: o in offers <==> o in EnergyToken.ActiveOffers(stub.state)
    ensures |offers| == |EnergyToken.ActiveOfferKeys(stub.state)|
  {
    var kvs := stub.GetStateByRange(EnergyToken.OfferRangeStart, EnergyToken.OfferRangeEnd);
    assert kvs == EnergyToken.Scan(stub.state, EnergyToken.OfferRangeStart, EnergyToken.OfferRangeEnd);
    var pending := kvs.Keys;
    offers := [];
    while pending != {}
      invariant pending <= kvs.Keys
      invariant forall o :: o in offers <==> o in EnergyToken.OffersAmong(kvs, kvs.Keys - pending)
      invariant |offers| == |EnergyToken.OfferKeysAmong(kvs, kvs.Keys - pending)|
      decreases pending
    {
      ghost var done := kvs.Keys - pending;
      var key :| key in pending;
      assert kvs.Keys - (pending - {key}) == done + {key};
      assert key !in EnergyToken.OfferKeysAmong(kvs, done);
      match kvs[key] {
        case OfferRecord(offer) =>
          if offer.status == Active {
            assert EnergyToken.OfferKeysAmong(kvs, done + {key}) == EnergyToken.OfferKeysAmong(kvs, done) + {key};
            offers := offers + [offer];
          } else {
            assert EnergyToken.OfferKeysAmong(kvs, done + {key}) == EnergyToken.OfferKeysAmong(kvs, done);
          }
        case _ =>
          assert EnergyToken.OfferKeysAmong(kvs, done + {key}) == EnergyToken.OfferKeysAmong(kvs, done);
      }
      pending := pending - {key};
    }
    assert kvs.Keys - pending == kvs.Keys;
  }
}

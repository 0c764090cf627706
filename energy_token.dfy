/** The energy-token smart contract as pure transactions over the world state:
    each named transaction of the contract is a function from the state it
    starts in to the state it commits, or to the error that aborts it. Reads
    inside one transaction see the writes made earlier in that transaction. */
module EnergyToken {
  import opened Records

  // ---------------------------------------------------------------- lookups

  /** Reading a factory succeeds only when the key holds a factory record. */
  function LookupFactory(s: State, factoryId: string): (r: Result<Factory>)
  {
    if factoryId !in s then Err(FactoryNotFound(factoryId))
    else match s[factoryId]
      case FactoryRecord(f) => Ok(f)
      case _ => Err(Undecodable(factoryId))
  }

  predicate IsFactory(s: State, factoryId: string)
  {
    factoryId in s && s[factoryId].FactoryRecord?
  }

  function LookupTrade(s: State, tradeId: string): (r: Result<EnergyTrade>)
  {
    if tradeId !in s then Err(TradeNotFound(tradeId))
    else match s[tradeId]
      case TradeRecord(t) => Ok(t)
      case _ => Err(Undecodable(tradeId))
  }

  function LookupOffer(s: State, offerId: string): (r: Result<Offer>)
  {
    var key := OfferKey(offerId);
    if key !in s then Err(OfferNotFound(offerId))
    else match s[key]
      case OfferRecord(o) => Ok(o)
      case _ => Err(Undecodable(key))
  }

  /** Login lookup: the email index names a factory id, which is then read. */
  function LookupByEmail(s: State, email: string): (r: Result<Factory>)
  {
    var key := EmailKey(email);
    if key !in s then Err(EmailNotFound(email))
    else match s[key]
      case IndexRecord(factoryId) => LookupFactory(s, factoryId)
      case _ => Err(Undecodable(key))
  }

  // --------------------------------------------------------- registration

  /** A factory with the given core fields and every other field empty. */
  function BasicFactory(factoryId: string, name: string, energyBalance: real, energyType: string,
                        currencyBalance: real, dailyConsumption: real, availableEnergy: real): (f: Factory)
  {
    Factory(factoryId, name, energyBalance, energyType, currencyBalance, dailyConsumption,
            availableEnergy, "", "", "", "", 0.0, "", 0.0, 0.0, "")
  }

  /** The five sample factories the ledger is initialised with. */
  function SampleFactories(): (factories: seq<Factory>)
  {
    [ BasicFactory("Factory01", "Solar Manufacturing Plant", 1000.0, "solar", 1000.0, 800.0, 1200.0),
      BasicFactory("Factory02", "Wind Power Assembly", 800.0, "wind", 800.0, 750.0, 850.0),
      BasicFactory("Factory03", "Tech Production Facility", 500.0, "footstep", 500.0, 600.0, 450.0),
      BasicFactory("Factory04", "Heavy Industry Corp", 300.0, "solar", 300.0, 900.0, 250.0),
      BasicFactory("Factory05", "Electronics Assembly", 600.0, "wind", 600.0, 550.0, 700.0) ]
  }

  /** Writes each factory under its id, in order. */
  function Seed(s: State, factories: seq<Factory>): (post: State)
    decreases |factories|
  {
    if factories == [] then s
    else Seed(s[factories[0].id := FactoryRecord(factories[0])], factories[1..])
  }

  function Register(s: State, factoryId: string, name: string, initialBalance: real, energyType: string,
                    currencyBalance: real, dailyConsumption: real, availableEnergy: real): (tx: Tx)
  {
    if factoryId in s then Abort(FactoryAlreadyExists(factoryId))
    else Commit(s[factoryId := FactoryRecord(BasicFactory(factoryId, name, initialBalance, energyType,
                                                          currencyBalance, dailyConsumption, availableEnergy))])
  }

  /** The factory a registration with credentials stores. */
  function AuthFactory(factoryId: string, name: string, email: string, passwordHash: string,
                       localisation: string, fiscalMatricule: string, energyCapacity: real,
                       contactInfo: string, energySource: string, initialBalance: real,
                       currencyBalance: real, txTimestamp: string): (f: Factory)
  {
    Factory(factoryId, name, initialBalance, energySource, currencyBalance, 0.0, initialBalance,
            email, passwordHash, localisation, fiscalMatricule, energyCapacity, contactInfo,
            0.0, 0.0, txTimestamp)
  }

  /** Registration with credentials: writes the factory, then the email index,
      then the fiscal index, each index holding the factory id. */
  function RegisterWithAuth(s: State, factoryId: string, name: string, email: string, passwordHash: string,
                            localisation: string, fiscalMatricule: string, energyCapacity: real,
                            contactInfo: string, energySource: string, initialBalance: real,
                            currencyBalance: real, txTimestamp: string): (tx: Tx)
  {
    if factoryId in s then Abort(FactoryAlreadyExists(factoryId))
    else if EmailKey(email) in s then Abort(EmailAlreadyRegistered(email))
    else if FiscalKey(fiscalMatricule) in s then Abort(FiscalAlreadyRegistered(fiscalMatricule))
    else
      var f := AuthFactory(factoryId, name, email, passwordHash, localisation, fiscalMatricule,
                           energyCapacity, contactInfo, energySource, initialBalance,
                           currencyBalance, txTimestamp);
      Commit(s[factoryId := FactoryRecord(f)]
              [EmailKey(email) := IndexRecord(factoryId)]
              [FiscalKey(fiscalMatricule) := IndexRecord(factoryId)])
  }

  // ------------------------------------------------------ energy ledger moves

  function Mint(s: State, factoryId: string, amount: real): (tx: Tx)
  {
    if amount <= 0.0 then Abort(NonPositiveAmount)
    else match LookupFactory(s, factoryId)
      case Err(e) => Abort(e)
      case Ok(f) => Commit(s[factoryId := FactoryRecord(f.(energyBalance := f.energyBalance + amount))])
  }

  /** Both factories are read before either is written; the sender is written
      first, so when sender and receiver coincide the receiver's copy wins. */
  function Transfer(s: State, fromId: string, toId: string, amount: real): (tx: Tx)
  {
    if amount <= 0.0 then Abort(NonPositiveAmount)
    else match LookupFactory(s, fromId)
      case Err(e) => Abort(e)
      case Ok(src) =>
        if src.energyBalance < amount then Abort(InsufficientEnergy(src.energyBalance, amount))
        else match LookupFactory(s, toId)
          case Err(e) => Abort(e)
          case Ok(dst) =>
            Commit(s[fromId := FactoryRecord(src.(energyBalance := src.energyBalance - amount))]
                    [toId := FactoryRecord(dst.(energyBalance := dst.energyBalance + amount))])
  }

  function SetAvailableEnergy(s: State, factoryId: string, newAvailableEnergy: real): (tx: Tx)
  {
    if newAvailableEnergy < 0.0 then Abort(NegativeAvailableEnergy)
    else match LookupFactory(s, factoryId)
      case Err(e) => Abort(e)
      case Ok(f) => Commit(s[factoryId := FactoryRecord(f.(availableEnergy := newAvailableEnergy))])
  }

  function SetDailyConsumption(s: State, factoryId: string, newDailyConsumption: real): (tx: Tx)
  {
    if newDailyConsumption < 0.0 then Abort(NegativeDailyConsumption)
    else match LookupFactory(s, factoryId)
      case Err(e) => Abort(e)
      case Ok(f) => Commit(s[factoryId := FactoryRecord(f.(dailyConsumption := newDailyConsumption))])
  }

  /** No validation: any three values are written. */
  function SetFactoryEnergy(s: State, factoryId: string, energyBalance: real,
                            currentGeneration: real, currentConsumption: real): (tx: Tx)
  {
    match LookupFactory(s, factoryId)
    case Err(e) => Abort(e)
    case Ok(f) =>
      Commit(s[factoryId := FactoryRecord(f.(energyBalance := energyBalance,
                                             currentGeneration := currentGeneration,
                                             currentConsumption := currentConsumption))])
  }

  // ------------------------------------------------------------------ trades

  /** Creation checks the seller's energy but neither the sign of the amount
      nor that of the price. */
  function CreateTrade(s: State, tradeId: string, sellerId: string, buyerId: string,
                       amount: real, pricePerUnit: real, txTimestamp: string): (tx: Tx)
  {
    if tradeId in s then Abort(TradeAlreadyExists(tradeId))
    else match LookupFactory(s, sellerId)
      case Err(e) => Abort(e)
      case Ok(seller) =>
        if seller.energyBalance < amount then Abort(SellerInsufficientEnergy)
        else match LookupFactory(s, buyerId)
          case Err(e) => Abort(e)
          case Ok(_) =>
            Commit(s[tradeId := TradeRecord(EnergyTrade(tradeId, sellerId, buyerId, amount, pricePerUnit,
                                                        amount * pricePerUnit, txTimestamp, Pending))])
  }

  /** Settlement of trade `t` after its energy has moved: seller and buyer are
      read again (seeing the transfer), the buyer's copy is written with the
      price paid, then the seller's with the price received, each under the
      id stored in the record, and finally the completed trade. */
  function Settle(s: State, tradeId: string, t: EnergyTrade): (tx: Tx)
  {
    match LookupFactory(s, t.sellerId)
    case Err(e) => Abort(e)
    case Ok(seller) =>
      match LookupFactory(s, t.buyerId)
      case Err(e) => Abort(e)
      case Ok(buyer) =>
        var paid := s[buyer.id := FactoryRecord(buyer.(currencyBalance := buyer.currencyBalance - t.totalPrice))];
        var received := paid[seller.id := FactoryRecord(seller.(currencyBalance := seller.currencyBalance + t.totalPrice))];
        Commit(received[tradeId := TradeRecord(t.(status := Completed))])
  }

  /** Execution refuses only a trade already marked completed. */
  function Execute(s: State, tradeId: string): (tx: Tx)
  {
    match LookupTrade(s, tradeId)
    case Err(e) => Abort(e)
    case Ok(t) =>
      if t.status == Completed then Abort(TradeAlreadyCompleted)
      else match LookupFactory(s, t.buyerId)
        case Err(e) => Abort(e)
        case Ok(buyer) =>
          if buyer.currencyBalance < t.totalPrice then
            Abort(InsufficientCurrency(buyer.currencyBalance, t.totalPrice))
          else match Transfer(s, t.sellerId, t.buyerId, t.amount)
            case Abort(e) => Abort(EnergyTransferFailed(e))
            case Commit(moved) => Settle(moved, tradeId, t)
  }

  // ------------------------------------------------------------------ offers

  function PostOffer(s: State, offerId: string, factoryId: string, offerType: string,
                     energyAmount: real, pricePerKwh: real, txTimestamp: string): (tx: Tx)
  {
    match LookupFactory(s, factoryId)
    case Err(e) => Abort(e)
    case Ok(_) =>
      if OfferKey(offerId) in s then Abort(OfferAlreadyExists(offerId))
      else Commit(s[OfferKey(offerId) := OfferRecord(Offer(offerId, factoryId, offerType, energyAmount,
                                                           pricePerKwh, Active, txTimestamp, txTimestamp))])
  }

  /** Any status string is accepted. */
  function SetOfferStatus(s: State, offerId: string, status: string, txTimestamp: string): (tx: Tx)
  {
    match LookupOffer(s, offerId)
    case Err(e) => Abort(e)
    case Ok(o) => Commit(s[OfferKey(offerId) := OfferRecord(o.(status := status, updatedAt := txTimestamp))])
  }

  // ------------------------------------------------------------ energy status

  datatype EnergyReport = EnergyReport(
    factoryId: string,
    factoryName: string,
    availableEnergy: real,
    dailyConsumption: real,
    difference: real,
    status: string)

  /** Classification of a factory's energy position by the sign of the
      difference between what it has available and what it consumes daily. */
  function Classify(difference: real): (status: string)
    ensures status == "surplus" <==> difference > 0.0
    ensures status == "deficit" <==> difference < 0.0
    ensures status == "balanced" <==> difference == 0.0
  {
    if difference > 0.0 then "surplus"
    else if difference < 0.0 then "deficit"
    else "balanced"
  }

  function Report(f: Factory): (report: EnergyReport)
  {
    var difference := f.availableEnergy - f.dailyConsumption;
    EnergyReport(f.id, f.name, f.availableEnergy, f.dailyConsumption, difference, Classify(difference))
  }

  // ------------------------------------------------------------------ listings

  /** The key-value pairs a range query over [start, end) returns. */
  function Scan(s: State, start: string, end: string): (kvs: State)
  {
    map k | k in s && InRange(k, start, end) :: s[k]
  }

  /** A factory passes the listing filter when it has both an id and a name. */
  predicate Listed(f: Factory)
  {
    f.id != "" && f.name != ""
  }

  function FactoriesAmong(m: State, keys: set<string>): (factories: set<Factory>)
  {
    set k | k in keys && k in m && m[k].FactoryRecord? && Listed(m[k].factory) :: m[k].factory
  }

  function TradesAmong(m: State, keys: set<string>): (trades: set<EnergyTrade>)
  {
    set k | k in keys && k in m && m[k].TradeRecord? && m[k].trade.tradeId != "" :: m[k].trade
  }

  function OffersAmong(m: State, keys: set<string>): (offers: set<Offer>)
  {
    set k | k in keys && k in m && m[k].OfferRecord? && m[k].offer.status == Active :: m[k].offer
  }

  /** The keys whose records the listings keep, one entry per key. */
  function FactoryKeysAmong(m: State, keys: set<string>): (listed: set<string>)
  {
    set k | k in keys && k in m && m[k].FactoryRecord? && Listed(m[k].factory)
  }

  function TradeKeysAmong(m: State, keys: set<string>): (listed: set<string>)
  {
    set k | k in keys && k in m && m[k].TradeRecord? && m[k].trade.tradeId != ""
  }

  function OfferKeysAmong(m: State, keys: set<string>): (listed: set<string>)
  {
    set k | k in keys && k in m && m[k].OfferRecord? && m[k].offer.status == Active
  }

  const OfferRangeStart: string := "offer_"
  const OfferRangeEnd: string := "offer_~"

  function AllFactories(s: State): (factories: set<Factory>)
  {
    var m := Scan(s, "", ""); FactoriesAmong(m, m.Keys)
  }

  function AllTrades(s: State): (trades: set<EnergyTrade>)
  {
    var m := Scan(s, "", ""); TradesAmong(m, m.Keys)
  }

  function ActiveOffers(s: State): (offers: set<Offer>)
  {
    var m := Scan(s, OfferRangeStart, OfferRangeEnd); OffersAmong(m, m.Keys)
  }

  function ListedFactoryKeys(s: State): (listed: set<string>)
  {
    var m := Scan(s, "", ""); FactoryKeysAmong(m, m.Keys)
  }

  function ListedTradeKeys(s: State): (listed: set<string>)
  {
    var m := Scan(s, "", ""); TradeKeysAmong(m, m.Keys)
  }

  function ActiveOfferKeys(s: State): (listed: set<string>)
  {
    var m := Scan(s, OfferRangeStart, OfferRangeEnd); OfferKeysAmong(m, m.Keys)
  }

  // ----------------------------------------------------- the contract as a whole

  /** Every record sits under the key its own id names, and every trade keeps
      the price fixed at creation and is pending or completed. */
  ghost predicate WellFormed(s: State)
  {
    forall k :: k in s ==> Fits(k, s[k])
  }

  predicate Fits(key: string, r: Record)
  {
    match r
    case FactoryRecord(f) => f.id == key
    case TradeRecord(t) =>
      && t.tradeId == key
      && t.totalPrice == t.amount * t.pricePerUnit
      && (t.status == Pending || t.status == Completed)
    case OfferRecord(o) => key == OfferKey(o.id)
    case IndexRecord(_) => true
  }

  /** The contract's state-changing transactions, as a client submits them. */
  datatype Call =
    | InitLedger
    | RegisterFactory(factoryId: string, name: string, initialBalance: real, energyType: string,
                      currencyBalance: real, dailyConsumption: real, availableEnergy: real)
    | RegisterFactoryWithAuth(factoryId: string, name: string, email: string, passwordHash: string,
                              localisation: string, fiscalMatricule: string, energyCapacity: real,
                              contactInfo: string, energySource: string, initialBalance: real,
                              currencyBalance: real, txTimestamp: string)
    | MintEnergyTokens(factoryId: string, amount: real)
    | TransferEnergy(fromId: string, toId: string, amount: real)
    | CreateEnergyTrade(tradeId: string, sellerId: string, buyerId: string, amount: real,
                        pricePerUnit: real, txTimestamp: string)
    | ExecuteTrade(tradeId: string)
    | UpdateAvailableEnergy(factoryId: string, newAvailableEnergy: real)
    | UpdateDailyConsumption(factoryId: string, newDailyConsumption: real)
    | UpdateFactoryEnergy(factoryId: string, energyBalance: real, currentGeneration: real,
                          currentConsumption: real)
    | CreateOffer(offerId: string, factoryId: string, offerType: string, energyAmount: real,
                  pricePerKwh: real, txTimestamp: string)
    | UpdateOfferStatus(offerId: string, status: string, txTimestamp: string)

  function Apply(s: State, c: Call): (tx: Tx)
  {
    match c
    case InitLedger => Commit(Seed(s, SampleFactories()))
    case RegisterFactory(id, name, bal, ty, cur, daily, avail) =>
      Register(s, id, name, bal, ty, cur, daily, avail)
    case RegisterFactoryWithAuth(id, name, email, pw, loc, fiscal, cap, contact, src, bal, cur, ts) =>
      RegisterWithAuth(s, id, name, email, pw, loc, fiscal, cap, contact, src, bal, cur, ts)
    case MintEnergyTokens(id, amount) => Mint(s, id, amount)
    case TransferEnergy(from, to, amount) => Transfer(s, from, to, amount)
    case CreateEnergyTrade(id, seller, buyer, amount, price, ts) =>
      CreateTrade(s, id, seller, buyer, amount, price, ts)
    case ExecuteTrade(id) => Execute(s, id)
    case UpdateAvailableEnergy(id, v) => SetAvailableEnergy(s, id, v)
    case UpdateDailyConsumption(id, v) => SetDailyConsumption(s, id, v)
    case UpdateFactoryEnergy(id, bal, gen, cons) => SetFactoryEnergy(s, id, bal, gen, cons)
    case CreateOffer(id, factory, ty, amount, price, ts) => PostOffer(s, id, factory, ty, amount, price, ts)
    case UpdateOfferStatus(id, status, ts) => SetOfferStatus(s, id, status, ts)
  }

  /** The world state after a sequence of submitted transactions; an aborted
      one leaves the state as it was. */
  function Run(s: State, calls: seq<Call>): (post: State)
    decreases |calls|
  {
    if calls == [] then s
    else
      var next := match Apply(s, calls[0]) case Commit(t) => t case Abort(_) => s;
      Run(next, calls[1..])
  }
}

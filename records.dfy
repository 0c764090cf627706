/** The world state of the energy-token chaincode: the records it keeps under
    string keys, the errors a transaction can return, and how a transaction
    either commits a new state or aborts. Amounts are exact reals; the
    chaincode itself stores them as float64. */
module Records {

  datatype Option<T> = None | Some(value: T)

  /** A factory of the industrial zone, stored under its own id. */
  datatype Factory = Factory(
    id: string,
    name: string,
    energyBalance: real,
    energyType: string,
    currencyBalance: real,
    dailyConsumption: real,
    availableEnergy: real,
    email: string,
    passwordHash: string,
    localisation: string,
    fiscalMatricule: string,
    energyCapacity: real,
    contactInfo: string,
    currentGeneration: real,
    currentConsumption: real,
    createdAt: string)

  /** A marketplace offer, stored under OfferKey(id). */
  datatype Offer = Offer(
    id: string,
    factoryId: string,
    offerType: string,
    energyAmount: real,
    pricePerKwh: real,
    status: string,
    createdAt: string,
    updatedAt: string)

  /** A trade between two factories, stored under its trade id. */
  datatype EnergyTrade = EnergyTrade(
    tradeId: string,
    sellerId: string,
    buyerId: string,
    amount: real,
    pricePerUnit: real,
    totalPrice: real,
    timestamp: string,
    status: string)

  /** What one key of the world state holds. An index record is the raw
      factory id kept under an "email_" or "fiscal_" key. */
  datatype Record =
    | FactoryRecord(factory: Factory)
    | TradeRecord(trade: EnergyTrade)
    | OfferRecord(offer: Offer)
    | IndexRecord(target: string)

  type State = map<string, Record>

  const Pending: string := "pending"
  const Completed: string := "completed"
  const Active: string := "active"

  function EmailKey(email: string): (key: string) { "email_" + email }
  function FiscalKey(fiscalMatricule: string): (key: string) { "fiscal_" + fiscalMatricule }
  function OfferKey(offerId: string): (key: string) { "offer_" + offerId }

  /** One constructor per error the chaincode returns. Undecodable(key) stands
      for a key that holds a record of another kind than the one asked for. */
  datatype Error =
    | NonPositiveAmount
    | FactoryNotFound(factoryId: string)
    | FactoryAlreadyExists(factoryId: string)
    | InsufficientEnergy(has: real, needs: real)
    | SellerInsufficientEnergy
    | TradeAlreadyExists(tradeId: string)
    | TradeNotFound(tradeId: string)
    | TradeAlreadyCompleted
    | InsufficientCurrency(has: real, needs: real)
    | EnergyTransferFailed(cause: Error)
    | NegativeAvailableEnergy
    | NegativeDailyConsumption
    | EmailAlreadyRegistered(email: string)
    | FiscalAlreadyRegistered(fiscalMatricule: string)
    | EmailNotFound(email: string)
    | OfferAlreadyExists(offerId: string)
    | OfferNotFound(offerId: string)
    | Undecodable(key: string)

  datatype Result<T> = Ok(value: T) | Err(error: Error)

  /** A transaction either commits its whole write set or aborts with an
      error; an aborted transaction leaves no trace in the world state. */
  datatype Tx = Commit(post: State) | Abort(error: Error)

  /** What a state-changing contract method returns to its caller. */
  datatype Outcome = Pass | Fail(error: Error)

  /** The state `post` and the returned `out` are those that transaction `tx`
      prescribes when it starts from `pre`. */
  ghost predicate Applied(tx: Tx, pre: State, post: State, out: Outcome)
  {
    match tx
    case Commit(s) => out == Pass && post == s
    case Abort(e) => out == Fail(e) && post == pre
  }

  /** Byte-wise lexicographic order of keys, as the ledger orders them
      (UTF-8 byte order agrees with code-point order). */
  predicate Below(a: string, b: string)
  {
    if a == [] then b != []
    else if b == [] then false
    else if a[0] != b[0] then a[0] < b[0]
    else Below(a[1..], b[1..])
  }

  /** Keys a range query [start, end) returns; an empty end is unbounded. */
  predicate InRange(key: string, start: string, end: string)
  {
    !Below(key, start) && (end == [] || Below(key, end))
  }
}

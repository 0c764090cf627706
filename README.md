# Energy-token chaincode, modelled in Dafny

The energy-trading network runs one Hyperledger Fabric smart contract,
`EnergyTokenContract`. Factories of an industrial zone hold an energy balance
(tokens in kWh) and a currency balance (TEC). They register, mint energy they
produce, transfer it, and trade it against TEC. Trades are created `pending`
and executed to `completed`. Factories can also post marketplace offers. All
of this lives in one string-keyed world state. The state holds four kinds of
record:

- a factory under its id;
- a trade under its trade id;
- an offer under `offer_<id>`;
- an index entry under `email_<email>` or `fiscal_<matricule>`, holding a
  factory id.

The project has two layers:

- **Pure transactions** (`records.dfy`, `energy_token.dfy`). The world state
  is a `map<string, Record>`. Every state-changing transaction is a function
  from the state it starts in to `Commit(post)` or `Abort(error)`. An aborted
  transaction leaves the state as it was, as Fabric discards the write set of
  a transaction that returns an error.
- **The contract as written** (`chaincode.dfy`). A `ChaincodeStub` class
  holds the world state, with `GetState`, `PutState` and `GetStateByRange`.
  Each contract method reads and writes through it one key at a time, in the
  order of the Go code. Each method is proved to agree with its pure
  transaction (`Applied`). The three listing methods loop over the range
  query's result, with invariants tying the partial result to the filter.

The laws are lemmas about the pure transactions:

- `ledger_laws.dfy`: minting, transfers, field updates and the energy status
  report.
- `trade_laws.dfy`: the trade state machine, conservation of energy and
  currency, and settlement scenarios.
- `registry_laws.dfy`: registration, the email index, offers and listings.
- `invariants.dfy`: a world-state invariant that every transaction keeps.
  Each record sits under the key its id names, and every trade is pending or
  completed with `totalPrice = amount * pricePerUnit`.
- `holdings.dfy`: the sum of a balance over the whole state, used by the
  conservation laws.
- `balances.dfy`: which transactions keep every energy and currency balance
  non-negative, and how a negative balance can arise.

Behaviour of the code that the model keeps as written:

- `CreateEnergyTrade` checks neither the sign of the amount nor that of the
  price. A non-positive amount is rejected only at execution, by
  `TransferEnergy`.
- A trade with a negative price commits and executes. Executing it takes
  currency away from the seller and can leave the seller's balance below
  zero (`BalanceLaws.NegativePriceScenario`). `RegisterFactory`,
  `RegisterFactoryWithAuth` and `UpdateFactoryEnergy` store whatever
  balance they are given, negative ones included
  (`BalanceLaws.UnguardedWritesStoreNegatives`,
  `BalanceLaws.UnguardedAuthRegistrationStoresNegatives`). Every other transaction
  keeps all balances non-negative (`BalanceLaws.ApplyKeepsNonNegative`).
- A seller with less energy than the amount is refused at creation. A
  stored trade like that fails at execution, on its transfer, when the
  buyer can pay; otherwise the buyer's currency check fails first
  (`TradeLaws.ShortSellerScenario`).
- `ExecuteTrade` rejects only a trade whose status is `completed`. The
  contract has no cancel operation.
- A factory may trade with itself or transfer to itself. Both copies of the
  factory are read before either is written, so the last write wins and
  the balance grows (`LedgerLaws.SelfTransferCredits`,
  `TradeLaws.ExecuteSelfTrade`).
- Of the two energy figures, minting, transfers and trade execution change
  only `energyBalance`. `availableEnergy` is set at registration and changes only through
  `UpdateAvailableEnergy`, so the two figures do not move together
  (`LedgerLaws.MintOutcome`, `LedgerLaws.TransferMovesEnergy`,
  `LedgerLaws.SetAvailableEnergyOutcome`).
- Each failed check returns its own error (`InsufficientCurrency`,
  `TradeAlreadyCompleted`, ...).

Reads inside one transaction are modelled as seeing the writes made earlier in
that same transaction. This is what the re-read of seller and buyer in
`ExecuteTrade` expects (energyToken.go:300-309). It is an assumption about
the stub, recorded here: a Fabric peer's `GetState` returns the committed
value instead.

## Model

| member | source | states |
|---|---|---|
| EnergyToken.Classify | energy-trading-network/chaincode/energyToken.go:410-419 | the status is "surplus" iff the difference is positive, "deficit" iff negative, "balanced" iff zero |
| LedgerLaws.ReportMeaning | energy-trading-network/chaincode/energyToken.go:409-428 | the energy report carries the factory's id and name and difference = availableEnergy - dailyConsumption; its status is surplus, deficit or balanced exactly as available energy is above, below or equal to daily consumption |
| LedgerLaws.MintOutcome | energy-trading-network/chaincode/energyToken.go:130-149 | minting commits iff amount > 0 and the factory exists; non-positive amounts and unknown factories are rejected with their errors; on success only that factory changes, its energy balance raised by exactly amount |
| LedgerLaws.MintRaisesTotalEnergy | energy-trading-network/chaincode/energyToken.go:141-149 | a committed mint raises the zone's total energy by amount and leaves total currency unchanged |
| LedgerLaws.TransferOutcome | energy-trading-network/chaincode/energyToken.go:157-199 | a transfer commits iff amount > 0, the sender exists with at least amount, and the receiver exists; each failed check gives its own error, in the code's order |
| LedgerLaws.TransferMovesEnergy | energy-trading-network/chaincode/energyToken.go:179-199 | between distinct factories the sender loses amount, the receiver gains amount, and no other key changes |
| LedgerLaws.TransferConserves | energy-trading-network/chaincode/energyToken.go:179-199 | a transfer between distinct factories conserves total energy and total currency |
| LedgerLaws.SelfTransferCredits | energy-trading-network/chaincode/energyToken.go:162-199 | a transfer from a factory to itself leaves it with amount more energy, because the credited copy is written last; total energy grows by amount, total currency is unchanged |
| LedgerLaws.SetAvailableEnergyOutcome | energy-trading-network/chaincode/energyToken.go:438-457 | commits iff the value is non-negative and the factory exists; on success only that factory's availableEnergy changes, and both totals are unchanged |
| LedgerLaws.SetDailyConsumptionOutcome | energy-trading-network/chaincode/energyToken.go:465-484 | commits iff the value is non-negative and the factory exists; on success only that factory's dailyConsumption changes, and both totals are unchanged |
| LedgerLaws.SetFactoryEnergyOutcome | energy-trading-network/chaincode/energyToken.go:703-717 | commits iff the factory exists, with no check on the values; it overwrites the balance and the generation and consumption figures, so total energy moves by new minus old balance |
| TradeLaws.CreateTradeOutcome | energy-trading-network/chaincode/energyToken.go:207-228 | trade creation commits iff the trade key is unused, the seller exists with energy at least amount, and the buyer exists; each failure gives its error, in the code's order |
| TradeLaws.CreatedTradeIsPending | energy-trading-network/chaincode/energyToken.go:230-257 | a created trade reads back as exactly the record of lines 240-249: the given id, parties, amount and unit price, totalPrice = amount * pricePerUnit, the transaction timestamp and status pending; only its key is added and no balance changes |
| TradeLaws.ExecuteOutcome | energy-trading-network/chaincode/energyToken.go:265-298 | execution commits iff the trade exists and is not completed, the buyer exists with currency at least totalPrice, and the energy transfer would commit; otherwise it aborts with TradeNotFound for an absent key, Undecodable for a key holding another kind of record, TradeAlreadyCompleted, FactoryNotFound for a missing buyer, Undecodable for a buyer key holding another kind of record, InsufficientCurrency, or the wrapped transfer error |
| TradeLaws.ExecuteTwiceFails | energy-trading-network/chaincode/energyToken.go:280-340 | executing a trade right after it executed aborts with TradeAlreadyCompleted |
| TradeLaws.ExecuteOnlyPending | energy-trading-network/chaincode/energyToken.go:280-282 | in a well-formed state only a pending trade can be executed |
| TradeLaws.ExecuteSettles | energy-trading-network/chaincode/energyToken.go:295-340 | with distinct seller and buyer, the seller loses amount of energy and gains totalPrice of currency, the buyer the reverse, the trade becomes completed, and nothing else changes |
| TradeLaws.ExecuteConserves | energy-trading-network/chaincode/energyToken.go:295-340 | with distinct seller and buyer, execution conserves total energy and total currency |
| TradeLaws.ExecuteSelfTrade | energy-trading-network/chaincode/energyToken.go:295-340 | a trade whose seller is its buyer leaves that factory with amount more energy and totalPrice more currency |
| TradeLaws.SettlementScenario | energy-trading-network/chaincode/energyToken.go:203-340 | A (energy 100, currency 0) sells 20 at 2 to B (energy 0, currency 50): the trade totals 40, and after execution A has 80 and 40, B has 20 and 10, and the trade is completed |
| TradeLaws.ShortSellerScenario | energy-trading-network/chaincode/energyToken.go:220-222 | a seller with 5 energy cannot create a trade for 10; a stored such trade fails to execute with the insufficient-energy transfer error |
| RegistryLaws.RegisterOutcome | energy-trading-network/chaincode/energyToken.go:95-122 | registration commits iff the id is unused, and then the factory reads back with the given fields; only its key is added |
| RegistryLaws.IndexKeysDiffer | energy-trading-network/chaincode/energyToken.go:610-620 | an email index key is never a fiscal index key |
| RegistryLaws.RegisterWithAuthOutcome | energy-trading-network/chaincode/energyToken.go:600-679 | registration with credentials commits iff the id, the email key and the fiscal key are all unused, rejecting them in that order; afterwards both index keys hold the factory id and only the three keys are added; when the id is neither index key, the factory under it is exactly the record of lines 635-652: the given name, email, password hash, localisation, fiscal matricule, capacity and contact, energyType = energySource, energyBalance = availableEnergy = initialBalance, the given currency balance, zero daily consumption, generation and consumption, and createdAt = the transaction timestamp |
| RegistryLaws.RegisteredFactoryFoundByEmail | energy-trading-network/chaincode/energyToken.go:636-696 | after such a registration, lookup by email finds the factory, with availableEnergy = initialBalance and dailyConsumption = 0, provided the id is neither index key |
| RegistryLaws.RegistrationKeyCollision | energy-trading-network/chaincode/energyToken.go:662-674 | if the factory id equals its own email or fiscal key, the index write overwrites the factory, and it can be found neither by id nor by email |
| RegistryLaws.PostOfferOutcome | energy-trading-network/chaincode/energyToken.go:724-762 | creating an offer commits iff the factory exists and the offer key is unused; the offer reads back active with both timestamps set to the transaction time |
| RegistryLaws.SetOfferStatusOutcome | energy-trading-network/chaincode/energyToken.go:791-811 | updating an offer commits iff it exists; any status is accepted and only status and updatedAt change |
| RegistryLaws.RangeAfterPrefix | energy-trading-network/chaincode/energyToken.go:816 | the range from p to p followed by c holds exactly the keys that extend p and then end or continue with a character below c |
| RegistryLaws.OfferKeyInRange | energy-trading-network/chaincode/energyToken.go:816 | the offer listing's range holds an offer's key iff the offer id is empty or starts with a character below '~' |
| RegistryLaws.ScanUnbounded | energy-trading-network/chaincode/energyToken.go:511 | a range query from "" to "" returns the whole world state |
| RegistryLaws.PostedOfferListed | energy-trading-network/chaincode/energyToken.go:816-839 | a freshly posted offer is among the listed active offers iff its id is empty or starts below '~' |
| RegistryLaws.RegisteredFactoryListed | energy-trading-network/chaincode/energyToken.go:511-535 | a freshly registered factory is listed iff it has a non-empty id and name |
| RegistryLaws.CreatedTradeListed | energy-trading-network/chaincode/energyToken.go:846-869 | a freshly created trade is listed iff its trade id is non-empty |
| Invariants.WriteKeepsWellFormed | energy-trading-network/chaincode/energyToken.go:122 | writing a record that fits its key keeps the world-state invariant |
| Invariants.SeedKeepsWellFormed | energy-trading-network/chaincode/energyToken.go:74-85 | initialising the ledger keeps the invariant |
| Invariants.SeedStores | energy-trading-network/chaincode/energyToken.go:74-85 | writing factories with distinct ids stores each under its id and keeps every other key |
| Invariants.InitLedgerStoresSamples | energy-trading-network/chaincode/energyToken.go:65-85 | after InitLedger the five sample factories are stored under Factory01 to Factory05 |
| Invariants.ApplyKeepsWellFormed | energy-trading-network/chaincode/energyToken.go:63-812 | every committed transaction of the contract keeps the invariant |
| Invariants.RunKeepsWellFormed | energy-trading-network/chaincode/energyToken.go:63-812 | any sequence of transactions, committed or aborted, keeps the invariant |
| Invariants.ReachableStatesWellFormed | energy-trading-network/chaincode/energyToken.go:63-812 | every state reachable from an empty ledger satisfies the invariant |
| BalanceLaws.WriteKeepsNonNegative | energy-trading-network/chaincode/energyToken.go:122 | writing a record with no negative balance keeps every balance non-negative |
| BalanceLaws.MintKeepsNonNegative | energy-trading-network/chaincode/energyToken.go:130-149 | a committed mint keeps every balance non-negative |
| BalanceLaws.TransferKeepsNonNegative | energy-trading-network/chaincode/energyToken.go:157-199 | a committed transfer keeps every balance non-negative, self-transfers included |
| BalanceLaws.SetAvailableEnergyKeepsNonNegative | energy-trading-network/chaincode/energyToken.go:438-457 | updating available energy keeps every balance non-negative |
| BalanceLaws.SetDailyConsumptionKeepsNonNegative | energy-trading-network/chaincode/energyToken.go:465-484 | updating daily consumption keeps every balance non-negative |
| BalanceLaws.ExecuteKeepsNonNegative | energy-trading-network/chaincode/energyToken.go:285-340 | executing a trade whose stored total price is not negative keeps every balance non-negative |
| BalanceLaws.SeedKeepsNonNegative | energy-trading-network/chaincode/energyToken.go:65-85 | writing factories with non-negative balances keeps every balance non-negative |
| BalanceLaws.ApplyKeepsNonNegative | energy-trading-network/chaincode/energyToken.go:63-812 | every committed transaction keeps balances non-negative, provided registrations and the energy update store non-negative balances and an executed trade has a non-negative total price |
| BalanceLaws.NegativePriceScenario | energy-trading-network/chaincode/energyToken.go:220-312 | a trade of 10 at price -1 between A (energy 10) and B commits and executes, leaving A with currency -10 and B with 10 |
| BalanceLaws.UnguardedWritesStoreNegatives | energy-trading-network/chaincode/energyToken.go:105-122 | registration stores a negative energy balance and the energy update stores a negative one too |
| BalanceLaws.UnguardedAuthRegistrationStoresNegatives | energy-trading-network/chaincode/energyToken.go:595-680 | registration with credentials commits with negative opening energy and currency balances and stores them, leaving a state with a negative balance |
| Chaincode.ChaincodeStub.GetState | energy-trading-network/chaincode/energyToken.go:347 | returns the record under the key, or nothing when the key is absent |
| Chaincode.ChaincodeStub.PutState | energy-trading-network/chaincode/energyToken.go:122 | sets the key to the record and changes nothing else |
| Chaincode.ChaincodeStub.GetStateByRange | energy-trading-network/chaincode/energyToken.go:511 | returns exactly the pairs whose key lies in the requested range |
| Chaincode.GetFactory | energy-trading-network/chaincode/energyToken.go:344-362 | succeeds iff the key holds a factory, returning that factory; otherwise FactoryNotFound for an absent key, Undecodable for another kind of record; the result is the pure lookup EnergyToken.LookupFactory |
| Chaincode.FactoryExists | energy-trading-network/chaincode/energyToken.go:541-550 | true iff any record is stored under the id |
| Chaincode.GetEnergyBalance | energy-trading-network/chaincode/energyToken.go:365-374 | the factory's energy balance, or the lookup's error |
| Chaincode.GetCurrencyBalance | energy-trading-network/chaincode/energyToken.go:377-386 | the factory's currency balance, or the lookup's error |
| Chaincode.GetAvailableEnergy | energy-trading-network/chaincode/energyToken.go:389-398 | the factory's available energy, or the lookup's error |
| Chaincode.GetEnergyStatus | energy-trading-network/chaincode/energyToken.go:401-431 | succeeds iff the id holds a factory, returning EnergyToken.Report of that factory (whose meaning ReportMeaning states), otherwise the lookup's error |
| Chaincode.GetTrade | energy-trading-network/chaincode/energyToken.go:488-506 | succeeds iff the key holds a trade, returning it; otherwise TradeNotFound or Undecodable; the result is EnergyToken.LookupTrade |
| Chaincode.GetOffer | energy-trading-network/chaincode/energyToken.go:766-785 | succeeds iff the offer key holds an offer, returning it; otherwise OfferNotFound or Undecodable; the result is EnergyToken.LookupOffer |
| Chaincode.GetFactoryByEmail | energy-trading-network/chaincode/energyToken.go:683-697 | EmailNotFound without an index entry; otherwise the factory lookup of the id the index holds; the result is EnergyToken.LookupByEmail |
| Chaincode.InitLedger | energy-trading-network/chaincode/energyToken.go:63-88 | the loop writes the five sample factories in order, leaving the state EnergyToken.Seed of EnergyToken.SampleFactories describes |
| Chaincode.RegisterFactory | energy-trading-network/chaincode/energyToken.go:91-123 | the reads and the write agree with EnergyToken.Register, which RegisterOutcome describes |
| Chaincode.RegisterFactoryWithAuth | energy-trading-network/chaincode/energyToken.go:595-680 | the three existence checks and three writes agree with EnergyToken.RegisterWithAuth, which RegisterWithAuthOutcome describes, with the transaction timestamp as creation time |
| Chaincode.MintEnergyTokens | energy-trading-network/chaincode/energyToken.go:126-150 | the read-modify-write agrees with EnergyToken.Mint, which MintOutcome describes |
| Chaincode.TransferEnergy | energy-trading-network/chaincode/energyToken.go:153-200 | the two reads and two writes agree with EnergyToken.Transfer, which TransferOutcome describes, including the last write winning on a self-transfer |
| Chaincode.UpdateAvailableEnergy | energy-trading-network/chaincode/energyToken.go:434-458 | agrees with EnergyToken.SetAvailableEnergy, which SetAvailableEnergyOutcome describes |
| Chaincode.UpdateDailyConsumption | energy-trading-network/chaincode/energyToken.go:461-485 | agrees with EnergyToken.SetDailyConsumption, which SetDailyConsumptionOutcome describes |
| Chaincode.UpdateFactoryEnergy | energy-trading-network/chaincode/energyToken.go:700-718 | agrees with EnergyToken.SetFactoryEnergy, which SetFactoryEnergyOutcome describes |
| Chaincode.CreateEnergyTrade | energy-trading-network/chaincode/energyToken.go:203-258 | agrees with EnergyToken.CreateTrade, which CreateTradeOutcome describes, stamping the trade with the transaction timestamp |
| Chaincode.ExecuteTrade | energy-trading-network/chaincode/energyToken.go:261-341 | checks the trade and the buyer, calls TransferEnergy, re-reads both factories and writes buyer, seller and the completed trade; the outcome agrees with EnergyToken.Execute, whose settlement step is EnergyToken.Settle, and which ExecuteOutcome, ExecuteSettles and ExecuteConserves describe |
| Chaincode.CreateOffer | energy-trading-network/chaincode/energyToken.go:721-763 | agrees with EnergyToken.PostOffer, which PostOfferOutcome describes |
| Chaincode.UpdateOfferStatus | energy-trading-network/chaincode/energyToken.go:788-812 | agrees with EnergyToken.SetOfferStatus, which SetOfferStatusOutcome describes |
| Chaincode.GetAllFactories | energy-trading-network/chaincode/energyToken.go:509-538 | the loop returns exactly the factory records of the state that have a non-empty id and name, one entry per such key |
| Chaincode.GetAllTrades | energy-trading-network/chaincode/energyToken.go:845-872 | the loop returns exactly the trade records of the state that have a non-empty trade id, one entry per such key |
| Chaincode.GetAllOffers | energy-trading-network/chaincode/energyToken.go:815-842 | the loop returns exactly the active offers whose keys lie in ["offer_", "offer_~"), one entry per such key |

## Left out

- JSON encoding and decoding. Records are typed values. When a key holds a
  record of another kind, a lookup fails with `Undecodable`. Go would decode
  a zero-valued or partly filled struct from such JSON instead.
- An index entry holds the bare factory id. Reading it as a factory, trade
  or offer fails in the model. In Go it fails unless the id is a JSON object
  or `null`; a JSON number, string, array or boolean still fails to decode.
  An id such as `{"id":"x","name":"y"}` decodes as a factory, so Go's
  `GetAllFactories` would also list the email and fiscal index entries of
  that factory; an id that is a JSON object with a non-empty `"tradeId"`
  would make `GetAllTrades` list them in the same way. The model does not
  capture this.
- The listing methods skip records of other kinds. Go gets the same result
  through the id and name filter, or the trade id or status filter.
- `GetFactoryByEmail` on an `email_` key holding something other than an
  index entry returns `Undecodable`. Go would use the raw bytes as a
  factory id.
- `GetTxTimestamp` is the stub's fixed `txTimestamp` field: one abstract
  string per transaction, not a protobuf timestamp.
- `GetFactoryHistory` is left out. It uses Fabric's key-history API, which
  is outside the world-state model.
- `main` is left out: chaincode start-up only.
- Iteration order is not modelled. The listing methods are specified by the
  set of records they return, not by the lexicographic order a peer yields
  them in.
- `float64` rounding is not modelled. Amounts are exact reals. Nor are
  non-finite values: when a balance or a total price overflows to ±Inf or
  becomes NaN (`amount * pricePerUnit` at energyToken.go:231, `+= amount` at
  energyToken.go:141), `json.Marshal` fails and Go aborts the transaction,
  where the model commits.
- Endorsement, MVCC conflicts and concurrent transactions are left out.
  `GetState` sees earlier writes of the same transaction, as assumed above.
- `GetState`, `PutState` and the range query never fail here, so the "failed
  to read" error branches are not modelled. One such failure is certain on
  a peer: the shim refuses `PutState` with an empty key, so
  `RegisterFactory` and `RegisterFactoryWithAuth` with an empty factory id
  and `CreateEnergyTrade` with an empty trade id abort there (the error
  returned at energyToken.go:122, energyToken.go:662 and
  energyToken.go:257), while the model commits. The empty-id cases of
  `RegistryLaws.RegisteredFactoryListed` and
  `RegistryLaws.CreatedTradeListed` describe states a peer never reaches.
- `Chaincode.ExecuteTrade` has no error branches for its re-reads of seller
  and buyer after `TransferEnergy`. The Go code has them, but they cannot be
  taken: a committed transfer has just written both factories.
- `RegistryLaws.RegisteredFactoryFoundByEmail` assumes the factory id is
  neither `email_<email>` nor `fiscal_<matricule>`. Without that assumption
  the claim is false, and `RegistryLaws.RegistrationKeyCollision` states what
  happens instead.
- The web application, connection profiles, CA enrollment and JSON file
  validation are front-end and I/O code around the contract, so they are not
  part of this model.
- The authentication rate limiter and the SQL-backed settlement variants are
  not part of this model: their sources are not among the files modelled.

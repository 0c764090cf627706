/** What minting, transferring, the field updates and trade settlement do to
    the balances of the world state, and what they leave alone. */
module LedgerLaws {
  import opened Records
  import opened Holdings
  import opened EnergyToken

  /** `post` has the keys of `s` and differs from it at most under `touched`. */
  ghost predicate OnlyChanged(s: State, post: State, touched: set<string>)
  {
    post.Keys == s.Keys && forall k :: k in s && k !in touched ==> post[k] == s[k]
  }

  // -------------------------------------------------------------------- mint

  lemma MintOutcome(s: State, factoryId: string, amount: real)
    ensures Mint(s, factoryId, amount).Commit? <==> amount > 0.0 && IsFactory(s, factoryId)
    ensures amount <= 0.0 ==> Mint(s, factoryId, amount) == Abort(NonPositiveAmount)
    ensures amount > 0.0 && factoryId !in s ==> Mint(s, factoryId, amount) == Abort(FactoryNotFound(factoryId))
    ensures Mint(s, factoryId, amount).Commit? ==>
      var f := s[factoryId].factory;
      var post := Mint(s, factoryId, amount).post;
      && post[factoryId] == FactoryRecord(f.(energyBalance := f.energyBalance + amount))
      && OnlyChanged(s, post, {factoryId})
  {
  }

  /** Minting creates exactly `amount` energy and no currency. */
  lemma MintRaisesTotalEnergy(s: State, factoryId: string, amount: real)
    requires Mint(s, factoryId, amount).Commit?
    ensures Total(Mint(s, factoryId, amount).post, Energy) == Total(s, Energy) + amount
    ensures Total(Mint(s, factoryId, amount).post, Currency) == Total(s, Currency)
  {
    var f := s[factoryId].factory;
    var r := FactoryRecord(f.(energyBalance := f.energyBalance + amount));
    TotalAfterWrite(s, factoryId, r, Energy);
    TotalAfterWrite(s, factoryId, r, Currency);
  }

  // ---------------------------------------------------------------- transfer

  lemma TransferOutcome(s: State, fromId: string, toId: string, amount: real)
    ensures Transfer(s, fromId, toId, amount).Commit? <==>
      && amount > 0.0
      && IsFactory(s, fromId) && s[fromId].factory.energyBalance >= amount
      && IsFactory(s, toId)
    ensures amount <= 0.0 ==> Transfer(s, fromId, toId, amount) == Abort(NonPositiveAmount)
    ensures amount > 0.0 && fromId !in s ==> Transfer(s, fromId, toId, amount) == Abort(FactoryNotFound(fromId))
    ensures amount > 0.0 && IsFactory(s, fromId) && s[fromId].factory.energyBalance < amount ==>
      Transfer(s, fromId, toId, amount) == Abort(InsufficientEnergy(s[fromId].factory.energyBalance, amount))
    ensures amount > 0.0 && IsFactory(s, fromId) && s[fromId].factory.energyBalance >= amount && toId !in s ==>
      Transfer(s, fromId, toId, amount) == Abort(FactoryNotFound(toId))
  {
  }

  /** Between two distinct factories the sender loses what the receiver gains
      and nothing else of the state changes. */
  lemma TransferMovesEnergy(s: State, fromId: string, toId: string, amount: real)
    requires fromId != toId
    requires Transfer(s, fromId, toId, amount).Commit?
    ensures var src, dst := s[fromId].factory, s[toId].factory;
      var post := Transfer(s, fromId, toId, amount).post;
      && post[fromId] == FactoryRecord(src.(energyBalance := src.energyBalance - amount))
      && post[toId] == FactoryRecord(dst.(energyBalance := dst.energyBalance + amount))
      && OnlyChanged(s, post, {fromId, toId})
  {
  }

  /** A transfer between distinct factories conserves total energy and does
      not touch currency. */
  lemma TransferConserves(s: State, fromId: string, toId: string, amount: real)
    requires fromId != toId
    requires Transfer(s, fromId, toId, amount).Commit?
    ensures Total(Transfer(s, fromId, toId, amount).post, Energy) == Total(s, Energy)
    ensures Total(Transfer(s, fromId, toId, amount).post, Currency) == Total(s, Currency)
  {
    var src, dst := s[fromId].factory, s[toId].factory;
    var r1 := FactoryRecord(src.(energyBalance := src.energyBalance - amount));
    var r2 := FactoryRecord(dst.(energyBalance := dst.energyBalance + amount));
    var mid := s[fromId := r1];
    assert HoldingAt(mid, toId, Energy) == HoldingAt(s, toId, Energy);
    assert HoldingAt(mid, toId, Currency) == HoldingAt(s, toId, Currency);
    TotalAfterWrite(s, fromId, r1, Energy);
    TotalAfterWrite(mid, toId, r2, Energy);
    TotalAfterWrite(s, fromId, r1, Currency);
    TotalAfterWrite(mid, toId, r2, Currency);
  }

  /** A factory transferring to itself ends with `amount` more energy: the
      credited copy, written last, overwrites the debited one. */
  lemma SelfTransferCredits(s: State, factoryId: string, amount: real)
    requires Transfer(s, factoryId, factoryId, amount).Commit?
    ensures var f := s[factoryId].factory;
      var post := Transfer(s, factoryId, factoryId, amount).post;
      && post[factoryId] == FactoryRecord(f.(energyBalance := f.energyBalance + amount))
      && Total(post, Energy) == Total(s, Energy) + amount
      && Total(post, Currency) == Total(s, Currency)
  {
    var f := s[factoryId].factory;
    var r1 := FactoryRecord(f.(energyBalance := f.energyBalance - amount));
    var r2 := FactoryRecord(f.(energyBalance := f.energyBalance + amount));
    var mid := s[factoryId := r1];
    assert mid[factoryId := r2] == s[factoryId := r2];
    TotalAfterWrite(s, factoryId, r2, Energy);
    TotalAfterWrite(s, factoryId, r2, Currency);
  }

  // ----------------------------------------------------------- field updates

  lemma SetAvailableEnergyOutcome(s: State, factoryId: string, v: real)
    ensures SetAvailableEnergy(s, factoryId, v).Commit? <==> v >= 0.0 && IsFactory(s, factoryId)
    ensures v < 0.0 ==> SetAvailableEnergy(s, factoryId, v) == Abort(NegativeAvailableEnergy)
    ensures v >= 0.0 && factoryId !in s ==> SetAvailableEnergy(s, factoryId, v) == Abort(FactoryNotFound(factoryId))
    ensures SetAvailableEnergy(s, factoryId, v).Commit? ==>
      var post := SetAvailableEnergy(s, factoryId, v).post;
      && post[factoryId] == FactoryRecord(s[factoryId].factory.(availableEnergy := v))
      && OnlyChanged(s, post, {factoryId})
      && Total(post, Energy) == Total(s, Energy)
      && Total(post, Currency) == Total(s, Currency)
  {
    if SetAvailableEnergy(s, factoryId, v).Commit? {
      var r := FactoryRecord(s[factoryId].factory.(availableEnergy := v));
      TotalAfterWrite(s, factoryId, r, Energy);
      TotalAfterWrite(s, factoryId, r, Currency);
    }
  }

  lemma SetDailyConsumptionOutcome(s: State, factoryId: string, v: real)
    ensures SetDailyConsumption(s, factoryId, v).Commit? <==> v >= 0.0 && IsFactory(s, factoryId)
    ensures v < 0.0 ==> SetDailyConsumption(s, factoryId, v) == Abort(NegativeDailyConsumption)
    ensures v >= 0.0 && factoryId !in s ==> SetDailyConsumption(s, factoryId, v) == Abort(FactoryNotFound(factoryId))
    ensures SetDailyConsumption(s, factoryId, v).Commit? ==>
      var post := SetDailyConsumption(s, factoryId, v).post;
      && post[factoryId] == FactoryRecord(s[factoryId].factory.(dailyConsumption := v))
      && OnlyChanged(s, post, {factoryId})
      && Total(post, Energy) == Total(s, Energy)
      && Total(post, Currency) == Total(s, Currency)
  {
    if SetDailyConsumption(s, factoryId, v).Commit? {
      var r := FactoryRecord(s[factoryId].factory.(dailyConsumption := v));
      TotalAfterWrite(s, factoryId, r, Energy);
      TotalAfterWrite(s, factoryId, r, Currency);
    }
  }

  /** The energy update overwrites the balance, so the total energy moves by
      the difference between the new and the old balance. */
  lemma SetFactoryEnergyOutcome(s: State, factoryId: string, energyBalance: real,
                                currentGeneration: real, currentConsumption: real)
    ensures SetFactoryEnergy(s, factoryId, energyBalance, currentGeneration, currentConsumption).Commit?
            <==> IsFactory(s, factoryId)
    ensures factoryId !in s ==>
      SetFactoryEnergy(s, factoryId, energyBalance, currentGeneration, currentConsumption) == Abort(FactoryNotFound(factoryId))
    ensures SetFactoryEnergy(s, factoryId, energyBalance, currentGeneration, currentConsumption).Commit? ==>
      var f := s[factoryId].factory;
      var post := SetFactoryEnergy(s, factoryId, energyBalance, currentGeneration, currentConsumption).post;
      && post[factoryId] == FactoryRecord(f.(energyBalance := energyBalance, currentGeneration := currentGeneration,
                                             currentConsumption := currentConsumption))
      && OnlyChanged(s, post, {factoryId})
      && Total(post, Energy) == Total(s, Energy) - f.energyBalance + energyBalance
      && Total(post, Currency) == Total(s, Currency)
  {
    if IsFactory(s, factoryId) {
      var f := s[factoryId].factory;
      var r := FactoryRecord(f.(energyBalance := energyBalance, currentGeneration := currentGeneration,
                                currentConsumption := currentConsumption));
      TotalAfterWrite(s, factoryId, r, Energy);
      TotalAfterWrite(s, factoryId, r, Currency);
    }
  }

  // ------------------------------------------------------------ energy status

  /** The status report of a factory: the difference it reports is its
      available energy minus its daily consumption, and the status word is
      the sign of that difference. */
  lemma ReportMeaning(f: Factory)
    ensures Report(f).factoryId == f.id && Report(f).factoryName == f.name
    ensures Report(f).difference == f.availableEnergy - f.dailyConsumption
    ensures Report(f).status == "surplus" <==> f.availableEnergy > f.dailyConsumption
    ensures Report(f).status == "deficit" <==> f.availableEnergy < f.dailyConsumption
    ensures Report(f).status == "balanced" <==> f.availableEnergy == f.dailyConsumption
  {
  }
}

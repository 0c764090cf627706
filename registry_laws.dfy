/** Registration, the email and fiscal indexes, offers, and the listings that
    range queries over the world state produce. */
module RegistryLaws {
  import opened Records
  import opened EnergyToken
  import opened Invariants

  // ------------------------------------------------------------ registration

  /** Plain registration succeeds exactly when the id is unused, and then the
      factory is read back as registered. */
  lemma RegisterOutcome(s: State, factoryId: string, name: string, initialBalance: real, energyType: string,
                        currencyBalance: real, dailyConsumption: real, availableEnergy: real)
    ensures factoryId !in s <==>
      Register(s, factoryId, name, initialBalance, energyType, currencyBalance, dailyConsumption,
               availableEnergy).Commit?
    ensures factoryId in s ==>
      Register(s, factoryId, name, initialBalance, energyType, currencyBalance, dailyConsumption,
               availableEnergy) == Abort(FactoryAlreadyExists(factoryId))
    ensures factoryId !in s ==>
      var post := Register(s, factoryId, name, initialBalance, energyType, currencyBalance, dailyConsumption,
                           availableEnergy).post;
      && LookupFactory(post, factoryId) == Ok(BasicFactory(factoryId, name, initialBalance, energyType,
                                                           currencyBalance, dailyConsumption, availableEnergy))
      && post.Keys == s.Keys + {factoryId}
      && (forall k :: k in s ==> post[k] == s[k])
  {
  }

  /** The email key and the fiscal key never coincide. */
  lemma IndexKeysDiffer(email: string, fiscalMatricule: string)
    ensures EmailKey(email) != FiscalKey(fiscalMatricule)
  {
    assert EmailKey(email)[0] == 'e' && FiscalKey(fiscalMatricule)[0] == 'f';
  }

  lemma RegisterWithAuthOutcome(s: State, factoryId: string, name: string, email: string, passwordHash: string,
                                localisation: string, fiscalMatricule: string, energyCapacity: real,
                                contactInfo: string, energySource: string, initialBalance: real,
                                currencyBalance: real, txTimestamp: string)
    ensures RegisterWithAuth(s, factoryId, name, email, passwordHash, localisation, fiscalMatricule, energyCapacity,
                             contactInfo, energySource, initialBalance, currencyBalance, txTimestamp).Commit? <==>
      factoryId !in s && EmailKey(email) !in s && FiscalKey(fiscalMatricule) !in s
    ensures factoryId in s ==>
      RegisterWithAuth(s, factoryId, name, email, passwordHash, localisation, fiscalMatricule, energyCapacity,
                       contactInfo, energySource, initialBalance, currencyBalance, txTimestamp)
      == Abort(FactoryAlreadyExists(factoryId))
    ensures factoryId !in s && EmailKey(email) in s ==>
      RegisterWithAuth(s, factoryId, name, email, passwordHash, localisation, fiscalMatricule, energyCapacity,
                       contactInfo, energySource, initialBalance, currencyBalance, txTimestamp)
      == Abort(EmailAlreadyRegistered(email))
    ensures factoryId !in s && EmailKey(email) !in s && FiscalKey(fiscalMatricule) in s ==>
      RegisterWithAuth(s, factoryId, name, email, passwordHash, localisation, fiscalMatricule, energyCapacity,
                       contactInfo, energySource, initialBalance, currencyBalance, txTimestamp)
      == Abort(FiscalAlreadyRegistered(fiscalMatricule))
    ensures RegisterWithAuth(s, factoryId, name, email, passwordHash, localisation, fiscalMatricule, energyCapacity,
                             contactInfo, energySource, initialBalance, currencyBalance, txTimestamp).Commit? ==>
      var post := RegisterWithAuth(s, factoryId, name, email, passwordHash, localisation, fiscalMatricule,
                                   energyCapacity, contactInfo, energySource, initialBalance, currencyBalance,
                                   txTimestamp).post;
      // the id, the email and the fiscal matricule are all taken afterwards
      && factoryId in post
      && (factoryId != EmailKey(email) && factoryId != FiscalKey(fiscalMatricule) ==>
            LookupFactory(post, factoryId) == Ok(AuthFactory(factoryId, name, email, passwordHash, localisation,
                                                             fiscalMatricule, energyCapacity, contactInfo,
                                                             energySource, initialBalance, currencyBalance,
                                                             txTimestamp)))
      && post[EmailKey(email)] == IndexRecord(factoryId)
      && post[FiscalKey(fiscalMatricule)] == IndexRecord(factoryId)
      && post.Keys == s.Keys + {factoryId, EmailKey(email), FiscalKey(fiscalMatricule)}
      && (forall k :: k in s ==> post[k] == s[k])
  {
    IndexKeysDiffer(email, fiscalMatricule);
  }

  /** A registration whose id is neither of its index keys can be found by
      email, with its available energy set to the initial balance and no
      daily consumption. */
  lemma RegisteredFactoryFoundByEmail(s: State, factoryId: string, name: string, email: string,
                                      passwordHash: string, localisation: string, fiscalMatricule: string,
                                      energyCapacity: real, contactInfo: string, energySource: string,
                                      initialBalance: real, currencyBalance: real, txTimestamp: string)
    requires RegisterWithAuth(s, factoryId, name, email, passwordHash, localisation, fiscalMatricule, energyCapacity,
                              contactInfo, energySource, initialBalance, currencyBalance, txTimestamp).Commit?
    requires factoryId != EmailKey(email) && factoryId != FiscalKey(fiscalMatricule)
    ensures var post := RegisterWithAuth(s, factoryId, name, email, passwordHash, localisation, fiscalMatricule,
                                         energyCapacity, contactInfo, energySource, initialBalance, currencyBalance,
                                         txTimestamp).post;
      var found := LookupByEmail(post, email);
      && found.Ok?
      && found.value.id == factoryId && found.value.email == email
      && found.value.fiscalMatricule == fiscalMatricule
      && found.value.energyBalance == initialBalance && found.value.availableEnergy == initialBalance
      && found.value.currencyBalance == currencyBalance && found.value.dailyConsumption == 0.0
      && found.value.passwordHash == passwordHash
      && LookupFactory(post, factoryId) == found
  {
    IndexKeysDiffer(email, fiscalMatricule);
  }

  /** A registration whose id equals its email key or its fiscal key commits,
      but the index written after the factory overwrites it, so the factory
      can be found neither by id nor by email. */
  lemma RegistrationKeyCollision(s: State, factoryId: string, name: string, email: string,
                                 passwordHash: string, localisation: string, fiscalMatricule: string,
                                 energyCapacity: real, contactInfo: string, energySource: string,
                                 initialBalance: real, currencyBalance: real, txTimestamp: string)
    requires RegisterWithAuth(s, factoryId, name, email, passwordHash, localisation, fiscalMatricule, energyCapacity,
                              contactInfo, energySource, initialBalance, currencyBalance, txTimestamp).Commit?
    requires factoryId == EmailKey(email) || factoryId == FiscalKey(fiscalMatricule)
    ensures var post := RegisterWithAuth(s, factoryId, name, email, passwordHash, localisation, fiscalMatricule,
                                         energyCapacity, contactInfo, energySource, initialBalance, currencyBalance,
                                         txTimestamp).post;
      && post[factoryId] == IndexRecord(factoryId)
      && LookupFactory(post, factoryId) == Err(Undecodable(factoryId))
      && LookupByEmail(post, email) == Err(Undecodable(factoryId))
  {
    IndexKeysDiffer(email, fiscalMatricule);
  }

  // ------------------------------------------------------------------ offers

  lemma PostOfferOutcome(s: State, offerId: string, factoryId: string, offerType: string,
                         energyAmount: real, pricePerKwh: real, txTimestamp: string)
    ensures PostOffer(s, offerId, factoryId, offerType, energyAmount, pricePerKwh, txTimestamp).Commit? <==>
      IsFactory(s, factoryId) && OfferKey(offerId) !in s
    ensures factoryId !in s ==>
      PostOffer(s, offerId, factoryId, offerType, energyAmount, pricePerKwh, txTimestamp) == Abort(FactoryNotFound(factoryId))
    ensures IsFactory(s, factoryId) && OfferKey(offerId) in s ==>
      PostOffer(s, offerId, factoryId, offerType, energyAmount, pricePerKwh, txTimestamp) == Abort(OfferAlreadyExists(offerId))
    ensures PostOffer(s, offerId, factoryId, offerType, energyAmount, pricePerKwh, txTimestamp).Commit? ==>
      var post := PostOffer(s, offerId, factoryId, offerType, energyAmount, pricePerKwh, txTimestamp).post;
      && LookupOffer(post, offerId)
         == Ok(Offer(offerId, factoryId, offerType, energyAmount, pricePerKwh, Active, txTimestamp, txTimestamp))
      && post.Keys == s.Keys + {OfferKey(offerId)}
      && (forall k :: k in s ==> post[k] == s[k])
  {
  }

  lemma SetOfferStatusOutcome(s: State, offerId: string, status: string, txTimestamp: string)
    ensures SetOfferStatus(s, offerId, status, txTimestamp).Commit? <==>
      OfferKey(offerId) in s && s[OfferKey(offerId)].OfferRecord?
    ensures OfferKey(offerId) !in s ==> SetOfferStatus(s, offerId, status, txTimestamp) == Abort(OfferNotFound(offerId))
    ensures SetOfferStatus(s, offerId, status, txTimestamp).Commit? ==>
      var o := s[OfferKey(offerId)].offer;
      var post := SetOfferStatus(s, offerId, status, txTimestamp).post;
      && LookupOffer(post, offerId) == Ok(o.(status := status, updatedAt := txTimestamp))
      && post.Keys == s.Keys
      && (forall k :: k in s && k != OfferKey(offerId) ==> post[k] == s[k])
  {
  }

  // ----------------------------------------------------------------- listings

  /** The range from a prefix p to p followed by one character c holds exactly
      the keys that extend p and either end there or continue with a
      character below c. */
  lemma {:induction false} RangeAfterPrefix(k: string, p: string, c: char)
    ensures InRange(k, p, p + [c]) <==>
      |p| <= |k| && k[..|p|] == p && (|k| == |p| || k[|p|] < c)
    decreases |p|
  {
    var q := p + [c];
    if p == [] {
      assert q == [c];
      assert !Below(k, []);
      if k != [] {
        assert Below(k, q) == (k[0] < c || (k[0] == c && Below(k[1..], [])));
      }
    } else if k == [] {
      assert Below(k, p);
    } else if k[0] != p[0] {
      assert q[0] == p[0];
      if |p| <= |k| {
        assert k[..|p|][0] == k[0];
      }
    } else {
      assert q[0] == p[0] && q[1..] == p[1..] + [c];
      RangeAfterPrefix(k[1..], p[1..], c);
      assert Below(k, p) == Below(k[1..], p[1..]);
      assert Below(k, q) == Below(k[1..], p[1..] + [c]);
      if |p| <= |k| {
        assert k[..|p|] == [k[0]] + k[1..][..|p| - 1];
        assert p == [p[0]] + p[1..];
      }
    }
  }

  /** The offer listing reaches the key of an offer exactly when the offer id
      is empty or starts with a character below '~'. */
  lemma OfferKeyInRange(offerId: string)
    ensures InRange(OfferKey(offerId), OfferRangeStart, OfferRangeEnd) <==>
      offerId == [] || offerId[0] < '~'
  {
    var k := OfferKey(offerId);
    assert OfferRangeEnd == OfferRangeStart + ['~'];
    RangeAfterPrefix(k, OfferRangeStart, '~');
    assert k[..|OfferRangeStart|] == OfferRangeStart;
    assert |k| > |OfferRangeStart| ==> k[|OfferRangeStart|] == offerId[0];
  }

  /** An unbounded range query sees every key. */
  lemma ScanUnbounded(s: State)
    ensures Scan(s, "", "") == s
  {
    forall k | k in s ensures InRange(k, "", "") {
      assert !Below(k, []);
    }
  }

  /** A freshly posted offer is listed as active exactly when its id is empty
      or starts with a character below '~'; an id such as "~1" is never
      listed. */
  lemma PostedOfferListed(s: State, offerId: string, factoryId: string, offerType: string,
                          energyAmount: real, pricePerKwh: real, txTimestamp: string)
    requires WellFormed(s)
    requires PostOffer(s, offerId, factoryId, offerType, energyAmount, pricePerKwh, txTimestamp).Commit?
    ensures var post := PostOffer(s, offerId, factoryId, offerType, energyAmount, pricePerKwh, txTimestamp).post;
      (Offer(offerId, factoryId, offerType, energyAmount, pricePerKwh, Active, txTimestamp, txTimestamp)
         in ActiveOffers(post)) <==> offerId == [] || offerId[0] < '~'
  {
    var post := PostOffer(s, offerId, factoryId, offerType, energyAmount, pricePerKwh, txTimestamp).post;
    var o := Offer(offerId, factoryId, offerType, energyAmount, pricePerKwh, Active, txTimestamp, txTimestamp);
    var key := OfferKey(offerId);
    ApplyKeepsWellFormed(s, CreateOffer(offerId, factoryId, offerType, energyAmount, pricePerKwh, txTimestamp));
    assert WellFormed(post);
    OfferKeyInRange(offerId);
    var m := Scan(post, OfferRangeStart, OfferRangeEnd);
    if o in ActiveOffers(post) {
      var k :| k in m.Keys && k in m && m[k].OfferRecord? && m[k].offer.status == Active && m[k].offer == o;
      assert Fits(k, post[k]);
      assert k == key;
    }
    if offerId == [] || offerId[0] < '~' {
      assert key in m && m[key] == OfferRecord(o);
    }
  }

  /** A registered factory is listed exactly when it has both an id and a
      name. */
  lemma RegisteredFactoryListed(s: State, factoryId: string, name: string, initialBalance: real, energyType: string,
                                currencyBalance: real, dailyConsumption: real, availableEnergy: real)
    requires Register(s, factoryId, name, initialBalance, energyType, currencyBalance, dailyConsumption,
                      availableEnergy).Commit?
    ensures var post := Register(s, factoryId, name, initialBalance, energyType, currencyBalance, dailyConsumption,
                                 availableEnergy).post;
      (BasicFactory(factoryId, name, initialBalance, energyType, currencyBalance, dailyConsumption, availableEnergy)
       in AllFactories(post)) <==> factoryId != "" && name != ""
  {
    var post := Register(s, factoryId, name, initialBalance, energyType, currencyBalance, dailyConsumption,
                         availableEnergy).post;
    var f := BasicFactory(factoryId, name, initialBalance, energyType, currencyBalance, dailyConsumption,
                          availableEnergy);
    ScanUnbounded(post);
    assert factoryId in post && post[factoryId] == FactoryRecord(f);
    if f in AllFactories(post) {
      var k :| k in post && post[k].FactoryRecord? && Listed(post[k].factory) && post[k].factory == f;
    }
  }

  /** A created trade is listed exactly when its id is not empty. */
  lemma CreatedTradeListed(s: State, tradeId: string, sellerId: string, buyerId: string,
                           amount: real, pricePerUnit: real, txTimestamp: string)
    requires CreateTrade(s, tradeId, sellerId, buyerId, amount, pricePerUnit, txTimestamp).Commit?
    ensures var post := CreateTrade(s, tradeId, sellerId, buyerId, amount, pricePerUnit, txTimestamp).post;
      (EnergyTrade(tradeId, sellerId, buyerId, amount, pricePerUnit, amount * pricePerUnit, txTimestamp, Pending)
       in AllTrades(post)) <==> tradeId != ""
  {
    var post := CreateTrade(s, tradeId, sellerId, buyerId, amount, pricePerUnit, txTimestamp).post;
    var t := EnergyTrade(tradeId, sellerId, buyerId, amount, pricePerUnit, amount * pricePerUnit, txTimestamp, Pending);
    ScanUnbounded(post);
    assert tradeId in post && post[tradeId] == TradeRecord(t);
    if t in AllTrades(post) {
      var k :| k in post && post[k].TradeRecord? && post[k].trade.tradeId != "" && post[k].trade == t;
    }
  }
}

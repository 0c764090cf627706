/** The world-state invariant every transaction of the contract keeps: each
    record sits under the key its own id names, and each trade is pending or
    completed with the price fixed at creation. */
module Invariants {
  import opened Records
  import opened EnergyToken

  /** A write of a record that fits its key keeps the invariant. */
  lemma WriteKeepsWellFormed(s: State, key: string, r: Record)
    requires WellFormed(s) && Fits(key, r)
    ensures WellFormed(s[key := r])
  {
  }

  /** Initialising the ledger writes each factory under its own id. */
  lemma {:induction false} SeedKeepsWellFormed(s: State, factories: seq<Factory>)
    requires WellFormed(s)
    ensures WellFormed(Seed(s, factories))
    decreases |factories|
  {
    if factories != [] {
      var f := factories[0];
      WriteKeepsWellFormed(s, f.id, FactoryRecord(f));
      SeedKeepsWellFormed(s[f.id := FactoryRecord(f)], factories[1..]);
    }
  }

  /** After seeding, each factory of the list is stored under its id, and
      every other key is as before. */
  lemma {:induction false} SeedStores(s: State, factories: seq<Factory>)
    requires forall i, j :: 0 <= i < j < |factories| ==> factories[i].id != factories[j].id
    ensures forall i :: 0 <= i < |factories| ==>
      factories[i].id in Seed(s, factories) && Seed(s, factories)[factories[i].id] == FactoryRecord(factories[i])
    ensures forall k :: k in s && (forall i :: 0 <= i < |factories| ==> factories[i].id != k) ==>
      k in Seed(s, factories) && Seed(s, factories)[k] == s[k]
    decreases |factories|
  {
    if factories != [] {
      var f := factories[0];
      var rest := factories[1..];
      var next := s[f.id := FactoryRecord(f)];
      SeedStores(next, rest);
      assert Seed(s, factories) == Seed(next, rest);
      forall i | 0 <= i < |factories|
        ensures factories[i].id in Seed(s, factories) && Seed(s, factories)[factories[i].id] == FactoryRecord(factories[i])
      {
        if i > 0 {
          assert factories[i] == rest[i - 1];
        } else {
          assert forall j :: 0 <= j < |rest| ==> rest[j] == factories[j + 1];
        }
      }
      forall k | k in s && (forall i :: 0 <= i < |factories| ==> factories[i].id != k)
        ensures k in Seed(s, factories) && Seed(s, factories)[k] == s[k]
      {
        assert f.id != k by { assert factories[0] == f; }
        assert forall j :: 0 <= j < |rest| ==> rest[j] == factories[j + 1];
      }
    }
  }

  /** The five sample factories land under Factory01 to Factory05. */
  lemma InitLedgerStoresSamples(s: State)
    ensures forall i :: 0 <= i < |SampleFactories()| ==>
      Seed(s, SampleFactories())[SampleFactories()[i].id] == FactoryRecord(SampleFactories()[i])
    ensures Seed(s, SampleFactories())["Factory03"].factory.availableEnergy == 450.0
  {
    var fs := SampleFactories();
    assert forall i, j :: 0 <= i < j < |fs| ==> fs[i].id != fs[j].id by {
      forall i, j | 0 <= i < j < |fs| ensures fs[i].id != fs[j].id {
        assert fs[i].id[8] != fs[j].id[8];
      }
    }
    SeedStores(s, fs);
    assert fs[2].id == "Factory03";
  }

  /** Every transaction, committed, keeps the invariant. */
  lemma ApplyKeepsWellFormed(s: State, c: Call)
    requires WellFormed(s)
    ensures Apply(s, c).Commit? ==> WellFormed(Apply(s, c).post)
  {
    match c
    case InitLedger => SeedKeepsWellFormed(s, SampleFactories());
    case ExecuteTrade(id) =>
      if Execute(s, id).Commit? {
        var t := s[id].trade;
        var moved := Transfer(s, t.sellerId, t.buyerId, t.amount).post;
        assert WellFormed(moved);
      }
    case _ =>
  }

  /** Every state reachable from an empty ledger by any sequence of submitted
      transactions satisfies the invariant. */
  lemma {:induction false} RunKeepsWellFormed(s: State, calls: seq<Call>)
    requires WellFormed(s)
    ensures WellFormed(Run(s, calls))
    decreases |calls|
  {
    if calls != [] {
      ApplyKeepsWellFormed(s, calls[0]);
      var next := match Apply(s, calls[0]) case Commit(t) => t case Abort(_) => s;
      RunKeepsWellFormed(next, calls[1..]);
    }
  }

  lemma ReachableStatesWellFormed(calls: seq<Call>)
    ensures WellFormed(Run(map[], calls))
  {
    RunKeepsWellFormed(map[], calls);
  }
}

/** The shadow evidence log as it runs: freezing, binding, counting, and rebuilding itself from a ledger.  */
module ShadowLog {
  import opened Tables
  import opened Shadow
  import Ledger

  class ShadowEvidenceLog {
    const store: Store
    const keyring: set<string>
    const deadline: int

    constructor (store: Store, keyring: set<string>, deadline: int)
      ensures this.store == store && this.keyring == keyring && this.deadline == deadline
    {
      this.store, this.keyring, this.deadline := store, keyring, deadline;
    }

    method Refuse(id: string, reason: QuarantineReason) returns (r: Status)
      modifies store`db
      ensures Follows(Quarantined(old(store.db), id, reason), r, store.db)
    {
      var sequence := |store.db.ledger|;
      r := store.Append(CONTROLLER, ShadowQuarantined(id, reason));
      if r.Raised? { return; }
      store.db := store.db.(quarantines := store.db.quarantines + [Quarantine(sequence, id, reason)]);
    }

    method OpenEpoch(key: PartitionKey) returns (r: Status, floor: nat)
      modifies store`db
      ensures Follows(EpochStarted(old(store.db), key), r, store.db) && floor == |old(store.db).ledger|
      ensures r.Raised? ==> store.db == old(store.db)
    {
      floor := |store.db.ledger|;
      r := store.Append(CONTROLLER, EpochOpened(key));
      if r.Raised? { return; }
      store.db := store.db.(epochs := store.db.epochs[key := FloorsOf(store.db.epochs, key) + [floor]]);
    }

    method BindOracle(key: PartitionKey, oracle: Oracle) returns (r: Status)
      modifies store`db
      ensures Follows(OracleSet(old(store.db), key, oracle), r, store.db)
      ensures r.Raised? ==> store.db == old(store.db)
    {
      var floor, sequence := Floor(store.db, key), |store.db.ledger|;
      if (key, floor) in store.db.oracles {
        var bound := store.db.oracles[(key, floor)].oracle;
        return if (bound.id, bound.version) != (oracle.id, oracle.version) then Raised else OK;
      }
      r := store.Append(CONTROLLER, OracleBound(key, floor, oracle));
      if r.Raised? { return; }
      store.db := store.db.(oracles := store.db.oracles[(key, floor) := BoundOracle(oracle, sequence)]);
    }

    method Freeze(now: int, id: string, p: Proposal) returns (r: Status)
      modifies store
      ensures Transacted(store, Frozen(old(store.db), now, id, p), r)
    {
      store.Begin();
      var refusal := FreezeRefusal(store.db, id, p);
      if refusal.Some? {
        r := Refuse(id, refusal.value);
      } else {
        var provenance := ProvenanceOf(store.db, id, store.db.decisions[id].route).value;
        var sequence := |store.db.ledger|;
        r := store.Append(CONTROLLER, ShadowFrozen(id, provenance, p.partition, p, now));
        if r.Done? {
          store.db := store.db.(trials := store.db.trials + [Trial(id, provenance, p.partition, p, now, sequence)]);
        }
      }
      store.End(r);
    }

    method RecordHumanReview(id: string, reviewer: string) returns (r: Status)
      modifies store
      ensures Transacted(store, ReviewRecorded(old(store.db), id, reviewer), r)
    {
      store.Begin();
      if Find(store.db.trials, id).None? {
        r := Refuse(id, UnknownTrial);
      } else {
        r := store.Append(reviewer, HumanReview(id));
      }
      store.End(r);
    }

    /** The counts of the current epoch and, if there are any, their time. */
    method Snapshot(key: PartitionKey, pending: PendingRule) returns (r: Option<Reading>)
      ensures r == Read(store.db, key, pending)
    {
      var floor := Floor(store.db, key);
      var c := CountTrials(store.db.trials, store.db.labels, key, floor);
      if c.frozen == 0 { return None; }
      TimedIfFrozen(store.db.trials, store.db.labels, key, floor);
      var until := LatestMark(store.db.trials, store.db.labels, key, floor);
      r := Some(Reading(c.positive, c.negative + c.inconclusive + if pending == Pessimistic then c.pending else 0, until.value));
    }

    static method CountTrials(trials: seq<Trial>, labels: map<string, Resolution>, key: PartitionKey, floor: int) returns (c: Counts)
      ensures c == Tally(trials, labels, key, floor, COUNTING)
    {
      c := Zero();
      var i := 0;
      while i < |trials|
        invariant 0 <= i <= |trials|
        invariant c == Tally(trials[..i], labels, key, floor, COUNTING)
      {
        assert trials[..i + 1][..i] == trials[..i];
        c := Plus(c, CountOf(labels, trials[i], key, floor, COUNTING));
        i := i + 1;
      }
      assert trials[..|trials|] == trials;
    }

    static method LatestMark(trials: seq<Trial>, labels: map<string, Resolution>, key: PartitionKey, floor: int) returns (until: Option<int>)
      ensures until == EvidenceTime(trials, labels, key, floor)
    {
      until := None;
      var i := 0;
      while i < |trials|
        invariant 0 <= i <= |trials|
        invariant until == EvidenceTime(trials[..i], labels, key, floor)
      {
        assert trials[..i + 1][..i] == trials[..i];
        if Counted(trials[i], key, floor, COUNTING) && (until.None? || until.value < Mark(labels, trials[i])) {
          until := Some(Mark(labels, trials[i]));
        }
        i := i + 1;
      }
      assert trials[..|trials|] == trials;
    }
  }

  /** A database with no evidence and no ledger. */
  predicate Blank(db: Db) {
    EvidenceOf(db) == NOTHING && db.ledger == []
  }

  lemma ReplayNext(entries: seq<Entry>, n: nat)
    requires n < |entries|
    ensures Replayed(entries[..n + 1])
         == match Replayed(entries[..n]) { case Raised => Raised case Done(e) => Replay1(e, n, entries[n].body) }
  {
    assert entries[..n + 1][..n] == entries[..n];
  }

  lemma {:induction false} ReplayRaises(entries: seq<Entry>, n: nat)
    requires n <= |entries| && Replayed(entries[..n]).Raised?
    ensures Replayed(entries).Raised?
    decreases |entries| - n
  {
    if n == |entries| {
      assert entries[..n] == entries;
    } else {
      ReplayNext(entries, n);
      ReplayRaises(entries, n + 1);
    }
  }

  /** Rebuilds the evidence tables from a ledger alone, into an empty database; a ledger that does not verify
      is refused before any event is read. */
  method Replay<H(==)>(ledger: Ledger.EventLedger<Entry, H>, into: Store) returns (r: Status)
    modifies into
    ensures Transacted(into,
              if Ledger.Verified(ledger.mac, ledger.rows) && Blank(old(into.db))
              then var e :- Replayed(Ledger.Bodies(ledger.rows)); Done(Rebuilt(old(into.db), e)) else Raised, r)
  {
    var verified := ledger.Verify();
    if !verified { return Raised; }
    into.Begin();
    r := Raised;
    if Blank(into.db) {
      r := ReplayAll(Ledger.Bodies(ledger.rows), into);
    }
    into.End(r);
  }

  function Rebuilt(db: Db, e: Evidence): Db {
    db.(trials := e.trials, labels := e.labels, epochs := e.epochs, oracles := e.oracles, quarantines := e.quarantines)
  }

  /** One pass over the events, inserting as it goes. */
  method ReplayAll(entries: seq<Entry>, into: Store) returns (r: Status)
    requires EvidenceOf(into.db) == NOTHING
    modifies into`db
    ensures Follows(var e :- Replayed(entries); Done(Rebuilt(old(into.db), e)), r, into.db)
  {
    var i := 0;
    while i < |entries|
      invariant 0 <= i <= |entries|
      invariant Replayed(entries[..i]) == Done(EvidenceOf(into.db))
      invariant into.db == Rebuilt(old(into.db), EvidenceOf(into.db))
    {
      ReplayNext(entries, i);
      var inserted := Insert(into, i, entries[i].body);
      if inserted.Raised? {
        ReplayRaises(entries, i + 1);
        return Raised;
      }
      i := i + 1;
    }
    assert entries[..|entries|] == entries;
    r := OK;
  }

  method Insert(into: Store, n: nat, body: Body) returns (r: Status)
    modifies into`db
    ensures Follows(var e :- Replay1(EvidenceOf(old(into.db)), n, body); Done(Rebuilt(old(into.db), e)), r, into.db)
  {
    var db := into.db;
    match body {
      case ShadowFrozen(id, provenance, key, p, at) =>
        if Find(db.trials, id).Some? { return Raised; }
        into.db := db.(trials := db.trials + [Trial(id, provenance, key, p, at, n)]);
      case ShadowLabeled(id, verdict, _, claimedAt, at) =>
        if Find(db.trials, id).None? || id in db.labels { return Raised; }
        into.db := db.(labels := db.labels[id := Labeled(verdict, at, claimedAt)]);
      case ShadowCensored(id, at) =>
        if Find(db.trials, id).None? || id in db.labels { return Raised; }
        into.db := db.(labels := db.labels[id := Censored(at)]);
      case EpochOpened(key) => into.db := db.(epochs := db.epochs[key := FloorsOf(db.epochs, key) + [n]]);
      case OracleBound(key, floor, oracle) =>
        if (key, floor) in db.oracles { return Raised; }
        into.db := db.(oracles := db.oracles[(key, floor) := BoundOracle(oracle, n)]);
      case ShadowQuarantined(id, reason) => into.db := db.(quarantines := db.quarantines + [Quarantine(n, id, reason)]);
      case _ =>
    }
    r := OK;
  }

  /** Replay is a round trip: the verified ledger of any state with the evidence invariant, replayed into an
      empty database, rebuilds exactly the tables that state holds. */
  lemma ReplayRoundTrip<H>(mac: Ledger.Covered<Entry, H> -> H, rows: seq<Ledger.Row<Entry, H>>, db: Db, blank: Db)
    requires EvidenceInv(db) && rows == Ledger.Chain(mac, db.ledger) && Blank(blank)
    ensures Ledger.Verified(mac, rows) && Replayed(Ledger.Bodies(rows)).Done?
    ensures EvidenceOf(Rebuilt(blank, Replayed(Ledger.Bodies(rows)).value)) == EvidenceOf(db)
  {
    ChainHolds(mac, db.ledger);
  }

  lemma {:induction false} ChainHolds<H>(mac: Ledger.Covered<Entry, H> -> H, entries: seq<Entry>)
    ensures Ledger.Verified(mac, Ledger.Chain(mac, entries)) && Ledger.Bodies(Ledger.Chain(mac, entries)) == entries
    decreases |entries|
  {
    if entries != [] {
      var n := |entries| - 1;
      ChainHolds(mac, entries[..n]);
      var before := Ledger.Chain(mac, entries[..n]);
      Ledger.AppendVerifies(mac, before, entries[n]);
      assert Ledger.Bodies(before + [Ledger.Next(mac, before, entries[n])]) == Ledger.Bodies(before) + [entries[n]];
      assert entries == entries[..n] + [entries[n]];
    }
  }
}

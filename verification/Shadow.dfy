/** Frozen trials, their labels, the epochs they count in, and what was refused: the evidence tables, how
    counts are read from them, and how the ledger rebuilds them.  */
module Shadow {
  import opened Tables

  const COUNTING: set<Provenance> := {ShadowTrial, AutonomousTrial, AuditTrial}

  // ---- epochs ----------------------------------------------------------------------------------

  /** The largest floor under a limit, -1 before any. */
  function LatestBelow(floors: seq<nat>, limit: int): (floor: int)
    ensures floor == -1 || (floor in floors && floor < limit)
    ensures forall f :: f in floors && f < limit ==> f <= floor
  {
    if floors == [] then -1
    else
      var earlier, last := LatestBelow(floors[..|floors| - 1], limit), floors[|floors| - 1];
      assert forall f :: f in floors <==> f in floors[..|floors| - 1] || f == last;
      if last < limit && last > earlier then last else earlier
  }

  function Latest(floors: seq<nat>): (floor: int)
    ensures floor == -1 || floor in floors
    ensures forall f :: f in floors ==> f <= floor
  {
    if floors == [] then -1
    else
      var earlier, last := Latest(floors[..|floors| - 1]), floors[|floors| - 1];
      assert forall f :: f in floors <==> f in floors[..|floors| - 1] || f == last;
      if last > earlier then last else earlier
  }

  lemma NewestIsLatest(floors: seq<nat>, next: nat)
    requires forall f :: f in floors ==> f < next
    ensures Latest(floors + [next]) == next
  {
    assert (floors + [next])[..|floors|] == floors;
  }

  function FloorsOf(epochs: map<PartitionKey, seq<nat>>, key: PartitionKey): seq<nat> {
    if key in epochs then epochs[key] else []
  }

  /** Trials count from here on: where on the ledger the latest opening stands, -1 before any. */
  function Floor(db: Db, key: PartitionKey): int {
    Latest(FloorsOf(db.epochs, key))
  }

  /** The epoch a trial was frozen in. */
  function TrialFloor(db: Db, t: Trial): int {
    LatestBelow(FloorsOf(db.epochs, t.partition), t.sequence)
  }

  // ---- reading ---------------------------------------------------------------------------------

  function Find(trials: seq<Trial>, id: string): (r: Option<Trial>)
    ensures r.Some? ==> r.value in trials && r.value.id == id
    ensures r.None? ==> forall t :: t in trials ==> t.id != id
  {
    if trials == [] then None
    else if trials[0].id == id then Some(trials[0])
    else Find(trials[1..], id)
  }

  datatype Counts = Counts(frozen: nat, positive: nat, negative: nat, inconclusive: nat, pending: nat)

  function Plus(c: Counts, d: Counts): Counts {
    Counts(c.frozen + d.frozen, c.positive + d.positive, c.negative + d.negative, c.inconclusive + d.inconclusive, c.pending + d.pending)
  }

  function Zero(): Counts { Counts(0, 0, 0, 0, 0) }

  predicate InEpoch(t: Trial, key: PartitionKey, floor: int) {
    t.partition == key && t.sequence > floor
  }

  predicate Counted(t: Trial, key: PartitionKey, floor: int, provenances: set<Provenance>) {
    InEpoch(t, key, floor) && t.provenance in provenances
  }

  function One(labels: map<string, Resolution>, t: Trial): Counts {
    if t.id !in labels then Counts(1, 0, 0, 0, 1)
    else match labels[t.id]
      case Labeled(Positive, _, _) => Counts(1, 1, 0, 0, 0)
      case Labeled(Negative, _, _) => Counts(1, 0, 1, 0, 0)
      case _ => Counts(1, 0, 0, 1, 0)
  }

  function CountOf(labels: map<string, Resolution>, t: Trial, key: PartitionKey, floor: int, provenances: set<Provenance>): Counts {
    if Counted(t, key, floor, provenances) then One(labels, t) else Zero()
  }

  function Tally(trials: seq<Trial>, labels: map<string, Resolution>, key: PartitionKey, floor: int, provenances: set<Provenance>): Counts {
    if trials == [] then Zero()
    else
      var n := |trials| - 1;
      Plus(Tally(trials[..n], labels, key, floor, provenances), CountOf(labels, trials[n], key, floor, provenances))
  }

  /** Every frozen trial is positive, negative, inconclusive or pending: none is lost or counted twice. */
  lemma {:induction false} EvidenceConserved(trials: seq<Trial>, labels: map<string, Resolution>, key: PartitionKey, floor: int,
                                             provenances: set<Provenance>)
    ensures var c := Tally(trials, labels, key, floor, provenances);
            c.frozen == c.positive + c.negative + c.inconclusive + c.pending
    decreases |trials|
  {
    if trials != [] {
      EvidenceConserved(trials[..|trials| - 1], labels, key, floor, provenances);
    }
  }

  function Mark(labels: map<string, Resolution>, t: Trial): int {
    if t.id in labels then labels[t.id].at else t.frozenAt
  }

  /** When the evidence was last moved: the latest label, censoring or, for a pending trial, freezing. */
  function EvidenceTime(trials: seq<Trial>, labels: map<string, Resolution>, key: PartitionKey, floor: int): Option<int> {
    if trials == [] then None
    else
      var n := |trials| - 1;
      var rest := EvidenceTime(trials[..n], labels, key, floor);
      if Counted(trials[n], key, floor, COUNTING) && (rest.Some? ==> rest.value < Mark(labels, trials[n]))
      then Some(Mark(labels, trials[n])) else rest
  }

  lemma {:induction false} TimedIfFrozen(trials: seq<Trial>, labels: map<string, Resolution>, key: PartitionKey, floor: int)
    ensures EvidenceTime(trials, labels, key, floor).Some? <==> Tally(trials, labels, key, floor, COUNTING).frozen > 0
    decreases |trials|
  {
    if trials != [] { TimedIfFrozen(trials[..|trials| - 1], labels, key, floor); }
  }

  /** What the gate reads. */
  datatype Reading = Reading(successes: nat, failures: nat, until: int) {
    function N(): nat { successes + failures }
  }

  function ReadFrom(trials: seq<Trial>, labels: map<string, Resolution>, key: PartitionKey, floor: int, pending: PendingRule): Option<Reading> {
    var c := Tally(trials, labels, key, floor, COUNTING);
    if c.frozen == 0 then None
    else
      TimedIfFrozen(trials, labels, key, floor);
      Some(Reading(c.positive, c.negative + c.inconclusive + if pending == Pessimistic then c.pending else 0,
                   EvidenceTime(trials, labels, key, floor).value))
  }

  /** Admissible evidence of the current epoch, nothing while no counting trial exists. */
  function Read(db: Db, key: PartitionKey, pending: PendingRule): Option<Reading> {
    ReadFrom(db.trials, db.labels, key, Floor(db, key), pending)
  }

  /** Under pessimistic counting n is the number of frozen trials: nothing that happens to labels moves it. */
  lemma PessimisticCountsFrozen(db: Db, key: PartitionKey)
    ensures var c := Tally(db.trials, db.labels, key, Floor(db, key), COUNTING);
            (Read(db, key, Pessimistic).None? <==> c.frozen == 0)
            && (Read(db, key, Pessimistic).Some? ==> Read(db, key, Pessimistic).value.N() == c.frozen)
  {
    EvidenceConserved(db.trials, db.labels, key, Floor(db, key), COUNTING);
  }

  /** The unresolved trials past their deadline, in the order they were frozen. */
  function Overdue(trials: seq<Trial>, labels: map<string, Resolution>, cutoff: int): seq<Trial> {
    if trials == [] then []
    else (if trials[0].id !in labels && trials[0].frozenAt < cutoff then [trials[0]] else []) + Overdue(trials[1..], labels, cutoff)
  }

  lemma {:induction false} OverdueMembers(trials: seq<Trial>, labels: map<string, Resolution>, cutoff: int, t: Trial)
    ensures t in Overdue(trials, labels, cutoff) <==> t in trials && t.id !in labels && t.frozenAt < cutoff
  {
    if trials != [] { OverdueMembers(trials[1..], labels, cutoff, t); }
  }

  // ---- writing ---------------------------------------------------------------------------------

  /** A refusal changes no trial and no label, and stays on the record. */
  function Quarantined(db: Db, id: string, reason: QuarantineReason): Outcome<Db> {
    var db1 :- Appended(db, CONTROLLER, ShadowQuarantined(id, reason));
    Done(db1.(quarantines := db.quarantines + [Quarantine(|db.ledger|, id, reason)]))
  }

  function EpochStarted(db: Db, key: PartitionKey): Outcome<Db> {
    var db1 :- Appended(db, CONTROLLER, EpochOpened(key));
    Done(db1.(epochs := db.epochs[key := FloorsOf(db.epochs, key) + [|db.ledger|]]))
  }

  /** An epoch is bound once; binding it again to the same oracle changes nothing. */
  function OracleSet(db: Db, key: PartitionKey, oracle: Oracle): Outcome<Db> {
    var floor := Floor(db, key);
    if (key, floor) in db.oracles then
      var bound := db.oracles[(key, floor)].oracle;
      if (bound.id, bound.version) != (oracle.id, oracle.version) then Raised else Done(db)
    else
      var db1 :- Appended(db, CONTROLLER, OracleBound(key, floor, oracle));
      Done(db1.(oracles := db.oracles[(key, floor) := BoundOracle(oracle, |db.ledger|)]))
  }

  /** Derived from the decision's route and approval, never passed in. */
  function ProvenanceOf(db: Db, decisionId: string, route: Route): Option<Provenance> {
    if exists t :: t in db.tokens && db.tokens[t].terms.decisionId == decisionId && db.tokens[t].terms.approvalId.Some?
    then Some(HumanApprovedTrial)
    else match route
      case Audit => Some(AuditTrial)
      case Autonomous => Some(AutonomousTrial)
      case HumanApproval => Some(ShadowTrial)
      case _ => None
  }

  predicate AlreadyCounted(db: Db, p: Proposal) {
    exists t :: t in db.trials && t.proposal == p && Counted(t, p.partition, Floor(db, p.partition), COUNTING)
  }

  /** Why a decision may not become a trial now. */
  function FreezeRefusal(db: Db, id: string, p: Proposal): Option<QuarantineReason> {
    if Find(db.trials, id).Some? then Some(DuplicateTrial)
    else if id !in db.decisions then Some(NotCommitted)
    else if db.decisions[id].proposal != p then Some(DigestMismatch)
    else
      var provenance := ProvenanceOf(db, id, db.decisions[id].route);
      if provenance.None? then Some(NotTrialable)
      else if provenance.value in COUNTING && AlreadyCounted(db, p) then Some(DuplicateProposal)
      else None
  }

  function Frozen(db: Db, now: int, id: string, p: Proposal): Outcome<Db> {
    if FreezeRefusal(db, id, p).Some? then Quarantined(db, id, FreezeRefusal(db, id, p).value)
    else
      var provenance := ProvenanceOf(db, id, db.decisions[id].route).value;
      var db1 :- Appended(db, CONTROLLER, ShadowFrozen(id, provenance, p.partition, p, now));
      Done(db1.(trials := db.trials + [Trial(id, provenance, p.partition, p, now, |db.ledger|)]))
  }

  /** A trial resolves once: the labels table has one row per trial. */
  function Resolved(db: Db, id: string, actor: string, body: Body, resolution: Resolution): Outcome<Db> {
    var db1 :- Appended(db, actor, body);
    if id in db.labels then Raised else Done(db1.(labels := db.labels[id := resolution]))
  }

  function CensoredAt(db: Db, id: string, now: int): Outcome<Db> {
    Resolved(db, id, CONTROLLER, ShadowCensored(id, now), Censored(now))
  }

  datatype SignedLabel = SignedLabel(trialId: string, partition: PartitionKey, proposal: Proposal, verdict: TrialLabel,
                                     oracle: Oracle, claimedAt: int, mac: Mac)

  predicate Reviewed(ledger: seq<Entry>, trialId: string, reviewer: string) {
    Entry(reviewer, HumanReview(trialId)) in ledger
  }

  /** Why a label is refused, in the order the program asks; none if it is admissible now. */
  function LabelRefusal(db: Db, keyring: set<string>, deadline: int, now: int, s: SignedLabel): Option<QuarantineReason> {
    var found := Find(db.trials, s.trialId);
    if found.None? then Some(UnknownTrial)
    else if s.partition != found.value.partition then Some(WrongPartition)
    else if s.proposal != found.value.proposal then Some(DigestMismatch)
    else if !Active(db, s.oracle.id) || db.principals[s.oracle.id].kind != OracleKind || db.principals[s.oracle.id].keyId.None?
    then Some(OracleNotRegistered)
    else if !Verifies(keyring, db.principals[s.oracle.id].keyId.value, PayloadOf(s), s.mac) then Some(BadSignature)
    else if s.trialId in db.labels then Some(AlreadyAdjudicated)
    else if Reviewed(db.ledger, s.trialId, s.oracle.id) then Some(ReviewerIsOracle)
    else
      var floor := TrialFloor(db, found.value);
      if (s.partition, floor) !in db.oracles then Some(OracleNotBound)
      else if (db.oracles[(s.partition, floor)].oracle.id, db.oracles[(s.partition, floor)].oracle.version)
              != (s.oracle.id, s.oracle.version) then Some(WrongOracle)
      else if now < found.value.frozenAt then Some(LabelBeforeFreeze)
      else if now > found.value.frozenAt + deadline then Some(LateLabel)
      else None
  }

  function PayloadOf(s: SignedLabel): Payload {
    LabelPayload(s.trialId, s.partition, s.proposal, s.verdict, s.oracle, s.claimedAt)
  }

  function LabelRecorded(db: Db, now: int, s: SignedLabel): Outcome<Db> {
    Resolved(db, s.trialId, s.oracle.id, ShadowLabeled(s.trialId, s.verdict, s.oracle, s.claimedAt, now),
             Labeled(s.verdict, now, s.claimedAt))
  }

  /** A review is kept beside the evidence and never touches it. */
  function ReviewRecorded(db: Db, id: string, reviewer: string): Outcome<Db> {
    if Find(db.trials, id).None? then Quarantined(db, id, UnknownTrial) else Appended(db, reviewer, HumanReview(id))
  }

  // ---- replay ----------------------------------------------------------------------------------

  datatype Evidence = Evidence(trials: seq<Trial>, labels: map<string, Resolution>, epochs: map<PartitionKey, seq<nat>>,
                               oracles: map<(PartitionKey, int), BoundOracle>, quarantines: seq<Quarantine>)

  const NOTHING := Evidence([], map[], map[], map[], [])

  function EvidenceOf(db: Db): Evidence {
    Evidence(db.trials, db.labels, db.epochs, db.oracles, db.quarantines)
  }

  /** What replaying the n-th event inserts; a primary or foreign key that does not hold raises. */
  function Replay1(e: Evidence, n: nat, body: Body): Outcome<Evidence> {
    match body
    case ShadowFrozen(id, provenance, key, p, at) =>
      if Find(e.trials, id).Some? then Raised else Done(e.(trials := e.trials + [Trial(id, provenance, key, p, at, n)]))
    case ShadowLabeled(id, verdict, _, claimedAt, at) =>
      if Find(e.trials, id).None? || id in e.labels then Raised else Done(e.(labels := e.labels[id := Labeled(verdict, at, claimedAt)]))
    case ShadowCensored(id, at) =>
      if Find(e.trials, id).None? || id in e.labels then Raised else Done(e.(labels := e.labels[id := Censored(at)]))
    case EpochOpened(key) => Done(e.(epochs := e.epochs[key := FloorsOf(e.epochs, key) + [n]]))
    case OracleBound(key, floor, oracle) =>
      if (key, floor) in e.oracles then Raised else Done(e.(oracles := e.oracles[(key, floor) := BoundOracle(oracle, n)]))
    case ShadowQuarantined(id, reason) => Done(e.(quarantines := e.quarantines + [Quarantine(n, id, reason)]))
    case _ => Done(e)
  }

  function Replayed(ledger: seq<Entry>): Outcome<Evidence> {
    if ledger == [] then Done(NOTHING)
    else
      var n := |ledger| - 1;
      var before :- Replayed(ledger[..n]);
      Replay1(before, n, ledger[n].body)
  }

  /** The evidence tables are exactly what their own ledger replays to. */
  ghost predicate ReplayInv(db: Db) {
    Replayed(db.ledger) == Done(EvidenceOf(db))
  }

  lemma ReplaySnoc(db: Db, entry: Entry)
    requires ReplayInv(db)
    ensures Replayed(db.ledger + [entry]) == Replay1(EvidenceOf(db), |db.ledger|, entry.body)
  {
    assert (db.ledger + [entry])[..|db.ledger|] == db.ledger;
  }

  predicate IsEvidence(body: Body) {
    body.ShadowFrozen? || body.ShadowLabeled? || body.ShadowCensored? || body.EpochOpened? || body.OracleBound? || body.ShadowQuarantined?
  }

  /** What writes about evidence put on the ledger: replay reads all of it but the reviews. */
  predicate AboutEvidence(body: Body) {
    IsEvidence(body) || body.HumanReview?
  }

  // ---- what every reachable evidence table satisfies ----------------------------------------------

  ghost predicate TrialsOrdered(db: Db) {
    && (forall i, j :: 0 <= i < j < |db.trials| ==> db.trials[i].sequence < db.trials[j].sequence && db.trials[i].id != db.trials[j].id)
    && (forall i :: 0 <= i < |db.trials| ==> db.trials[i].sequence < |db.ledger|)
    && (forall id :: id in db.labels ==> Find(db.trials, id).Some?)
    && (forall key, f :: key in db.epochs && f in db.epochs[key] ==> f < |db.ledger|)
  }

  /** Two counting trials of one proposal lie in different epochs. */
  ghost predicate ApartAt(db: Db, i: nat, j: nat)
    requires i < j < |db.trials|
  {
    db.trials[i].provenance in COUNTING && db.trials[j].provenance in COUNTING
    && db.trials[i].partition == db.trials[j].partition && db.trials[i].proposal == db.trials[j].proposal
    ==> db.trials[i].sequence <= TrialFloor(db, db.trials[j])
  }

  ghost predicate NoneCountedTwice(db: Db) {
    forall i, j :: 0 <= i < j < |db.trials| ==> ApartAt(db, i, j)
  }

  ghost predicate EvidenceInv(db: Db) {
    ReplayInv(db) && TrialsOrdered(db) && NoneCountedTwice(db)
  }

  /** In every reachable state a proposal is counted at most once in the current epoch. */
  lemma CountedOnce(db: Db, i: nat, j: nat)
    requires EvidenceInv(db) && i < j < |db.trials| && db.trials[i].proposal == db.trials[j].proposal
    requires Counted(db.trials[i], db.trials[i].partition, Floor(db, db.trials[i].partition), COUNTING)
    ensures !Counted(db.trials[j], db.trials[i].partition, Floor(db, db.trials[i].partition), COUNTING)
  {
    assert ApartAt(db, i, j);
  }

  lemma LaterFloor(floors: seq<nat>, floor: nat, limit: int)
    requires floor >= limit
    ensures LatestBelow(floors + [floor], limit) == LatestBelow(floors, limit)
  {
    assert (floors + [floor])[..|floors|] == floors;
  }

  // The four kinds of write to the evidence tables, each of which keeps the invariant.

  lemma NoteKeeps(db: Db, after: Db)
    requires EvidenceInv(db) && EvidenceOf(after) == EvidenceOf(db) && db.ledger <= after.ledger
    requires forall i :: |db.ledger| <= i < |after.ledger| ==> !IsEvidence(after.ledger[i].body)
    ensures EvidenceInv(after)
    decreases |after.ledger|
  {
    if |after.ledger| == |db.ledger| {
      assert after.ledger == db.ledger;
    } else {
      var n := |after.ledger| - 1;
      var before := after.(ledger := after.ledger[..n]);
      assert db.ledger <= before.ledger by { assert db.ledger == after.ledger[..|db.ledger|]; }
      NoteKeeps(db, before);
      assert after.ledger == before.ledger + [after.ledger[n]];
      ReplaySnoc(before, after.ledger[n]);
    }
    forall i, j | 0 <= i < j < |after.trials| ensures ApartAt(after, i, j) { assert ApartAt(db, i, j); }
  }

  lemma ResolveKeeps(db: Db, id: string, actor: string, body: Body, resolution: Resolution)
    requires EvidenceInv(db) && Find(db.trials, id).Some? && Resolved(db, id, actor, body, resolution).Done?
    requires (body.ShadowCensored? && body.trialId == id && resolution == Censored(body.at))
          || (body.ShadowLabeled? && body.trialId == id && resolution == Labeled(body.verdict, body.receivedAt, body.claimedAt))
    ensures EvidenceInv(Resolved(db, id, actor, body, resolution).value)
  {
    var after := Resolved(db, id, actor, body, resolution).value;
    ReplaySnoc(db, Entry(actor, body));
    forall i, j | 0 <= i < j < |after.trials| ensures ApartAt(after, i, j) { assert ApartAt(db, i, j); }
  }

  lemma QuarantineKeeps(db: Db, id: string, reason: QuarantineReason)
    requires EvidenceInv(db) && Quarantined(db, id, reason).Done?
    ensures EvidenceInv(Quarantined(db, id, reason).value)
  {
    var after := Quarantined(db, id, reason).value;
    ReplaySnoc(db, Entry(CONTROLLER, ShadowQuarantined(id, reason)));
    forall i, j | 0 <= i < j < |after.trials| ensures ApartAt(after, i, j) { assert ApartAt(db, i, j); }
  }

  lemma EpochKeeps(db: Db, key: PartitionKey)
    requires EvidenceInv(db) && EpochStarted(db, key).Done?
    ensures EvidenceInv(EpochStarted(db, key).value)
  {
    var after := EpochStarted(db, key).value;
    ReplaySnoc(db, Entry(CONTROLLER, EpochOpened(key)));
    forall i, j | 0 <= i < j < |after.trials| ensures ApartAt(after, i, j) {
      assert ApartAt(db, i, j);
      LaterFloor(FloorsOf(db.epochs, key), |db.ledger|, db.trials[j].sequence);
    }
  }

  lemma BindKeeps(db: Db, key: PartitionKey, oracle: Oracle)
    requires EvidenceInv(db) && OracleSet(db, key, oracle).Done?
    ensures EvidenceInv(OracleSet(db, key, oracle).value)
  {
    var after := OracleSet(db, key, oracle).value;
    if after != db { ReplaySnoc(db, Entry(CONTROLLER, OracleBound(key, Floor(db, key), oracle))); }
    forall i, j | 0 <= i < j < |after.trials| ensures ApartAt(after, i, j) { assert ApartAt(db, i, j); }
  }

  lemma FindAppends(trials: seq<Trial>, t: Trial, id: string)
    ensures Find(trials + [t], id) == if Find(trials, id).Some? then Find(trials, id) else if t.id == id then Some(t) else None
  {
    if trials != [] {
      assert (trials + [t])[1..] == trials[1..] + [t];
      FindAppends(trials[1..], t, id);
    }
  }

  lemma FreezeKeeps(db: Db, now: int, id: string, p: Proposal)
    requires EvidenceInv(db) && Frozen(db, now, id, p).Done?
    ensures EvidenceInv(Frozen(db, now, id, p).value)
  {
    if FreezeRefusal(db, id, p).Some? {
      QuarantineKeeps(db, id, FreezeRefusal(db, id, p).value);
    } else {
      var after, n := Frozen(db, now, id, p).value, |db.trials|;
      var provenance := ProvenanceOf(db, id, db.decisions[id].route).value;
      ReplaySnoc(db, Entry(CONTROLLER, ShadowFrozen(id, provenance, p.partition, p, now)));
      forall other | other in after.labels ensures Find(after.trials, other).Some? { FindAppends(db.trials, after.trials[n], other); }
      forall i, j | 0 <= i < j < |after.trials| ensures ApartAt(after, i, j) {
        if j < n { assert ApartAt(db, i, j); } else { NewTrialApart(db, after, i, p); }
      }
    }
  }

  lemma NewTrialApart(db: Db, after: Db, i: nat, p: Proposal)
    requires TrialsOrdered(db) && i < |db.trials| && after.epochs == db.epochs && |after.trials| == |db.trials| + 1
    requires after.trials[..|db.trials|] == db.trials && after.trials[|db.trials|].sequence == |db.ledger|
    requires after.trials[|db.trials|].proposal == p && after.trials[|db.trials|].partition == p.partition
    requires after.trials[|db.trials|].provenance in COUNTING ==> !AlreadyCounted(db, p)
    ensures ApartAt(after, i, |db.trials|)
  {
    assert after.trials[i] == db.trials[i];
    var floors := FloorsOf(db.epochs, p.partition);
    assert forall f :: f in floors ==> f < |db.ledger|;
    assert LatestBelow(floors, |db.ledger|) >= Latest(floors);
    if after.trials[|db.trials|].provenance in COUNTING && db.trials[i].provenance in COUNTING
       && db.trials[i].partition == p.partition && db.trials[i].proposal == p {
      assert db.trials[i] in db.trials;
      assert !Counted(db.trials[i], p.partition, Floor(db, p.partition), COUNTING);
    }
  }

  // ---- what evidence writes leave alone --------------------------------------------------------------

  /** At most one entry, about evidence, and no table but the evidence tables. */
  predicate Wrote(a: Db, b: Db) {
    && b == a.(ledger := b.ledger, trials := b.trials, labels := b.labels, epochs := b.epochs, oracles := b.oracles,
               quarantines := b.quarantines)
    && (b.ledger == a.ledger || (b.ledger != [] && b.ledger == a.ledger + [b.ledger[|b.ledger| - 1]]
                                 && AboutEvidence(b.ledger[|b.ledger| - 1].body)))
  }

  lemma QuarantineWrote(db: Db, id: string, reason: QuarantineReason)
    requires Quarantined(db, id, reason).Done?
    ensures Wrote(db, Quarantined(db, id, reason).value)
  {}

  lemma EpochWrote(db: Db, key: PartitionKey)
    requires EpochStarted(db, key).Done?
    ensures Wrote(db, EpochStarted(db, key).value)
  {}

  lemma BindWrote(db: Db, key: PartitionKey, oracle: Oracle)
    requires OracleSet(db, key, oracle).Done?
    ensures Wrote(db, OracleSet(db, key, oracle).value)
  {}

  lemma FreezeWrote(db: Db, now: int, id: string, p: Proposal)
    requires Frozen(db, now, id, p).Done?
    ensures Wrote(db, Frozen(db, now, id, p).value)
  {
    if FreezeRefusal(db, id, p).Some? { QuarantineWrote(db, id, FreezeRefusal(db, id, p).value); }
  }

  lemma ResolveWrote(db: Db, id: string, actor: string, body: Body, resolution: Resolution)
    requires Resolved(db, id, actor, body, resolution).Done? && IsEvidence(body)
    ensures Wrote(db, Resolved(db, id, actor, body, resolution).value)
  {}

  lemma ReviewWrote(db: Db, id: string, reviewer: string)
    requires ReviewRecorded(db, id, reviewer).Done?
    ensures Wrote(db, ReviewRecorded(db, id, reviewer).value)
  {
    if Find(db.trials, id).None? { QuarantineWrote(db, id, UnknownTrial); }
  }

  /** A review moves no evidence: no trial, label, epoch or oracle, and the quarantine only for an unknown trial. */
  lemma ReviewKeeps(db: Db, id: string, reviewer: string)
    requires EvidenceInv(db) && ReviewRecorded(db, id, reviewer).Done?
    ensures var b := ReviewRecorded(db, id, reviewer).value; var known := exists t :: t in db.trials && t.id == id;
            && EvidenceInv(b)
            && EvidenceOf(b) == EvidenceOf(db).(quarantines := db.quarantines + if known then [] else [Quarantine(|db.ledger|, id, UnknownTrial)])
            && b.ledger == db.ledger + [if known then Entry(reviewer, HumanReview(id)) else Entry(CONTROLLER, ShadowQuarantined(id, UnknownTrial))]
  {
    if Find(db.trials, id).None? {
      QuarantineKeeps(db, id, UnknownTrial);
    } else {
      NoteKeeps(db, ReviewRecorded(db, id, reviewer).value);
    }
  }
}

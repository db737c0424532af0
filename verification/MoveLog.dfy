/** What a refresh puts on the ledger about moves: every move that a walk makes and the revocation that goes with it,
    and exactly when one of them is logged twice.  */
module MoveLog {
  import opened Tables
  import opened Shadow
  import opened Lifecycle
  import opened Steps
  import opened Worklist
  import opened Settling
  import opened Expiry

  // ---- the moves on a ledger -------------------------------------------------------------------------------------

  /** A move, or a revocation of authority. */
  datatype Mark = Made(move: Body) | Took(cause: Cause)

  function MarksOf(body: Body): seq<Mark> {
    if body.Transition? && body.event.Some? then [Made(body)]
    else if body.AuthorityRevoked? then [Took(body.cause)]
    else []
  }

  /** The moves and revocations on a ledger, in order. */
  function Marks(ledger: seq<Entry>): seq<Mark> {
    if ledger == [] then [] else Marks(ledger[..|ledger| - 1]) + MarksOf(ledger[|ledger| - 1].body)
  }

  lemma MarksAppend(ledger: seq<Entry>, entry: Entry)
    ensures Marks(ledger + [entry]) == Marks(ledger) + MarksOf(entry.body)
  {
    assert (ledger + [entry])[..|ledger|] == ledger;
  }

  /** Some move is logged twice. */
  ghost predicate Repeats(marks: seq<Mark>) {
    exists i, j :: 0 <= i < j < |marks| && marks[i] == marks[j] && marks[i].Made?
  }

  // ---- what a tail logs ------------------------------------------------------------------------------------------

  function MoveMarks(key: PartitionKey, record: Record, event: Event): seq<Mark> {
    var target := Next(Some(record.state), event);
    if target.None? then []
    else [Made(Transition(key, Some(record.state), record.(state := target.value), Some(event)))]
         + if event == GATE_LOST_OUTCOME then [Took(GateLost)] else []
  }

  predicate Admits(record: Record, reading: Option<Reading>) {
    record.state == UNESTABLISHED && reading.Some? && reading.value.N() >= 1
  }

  function AdmissionMarks(key: PartitionKey, record: Record, reading: Option<Reading>): seq<Mark> {
    if Admits(record, reading) then MoveMarks(key, record, TRIAL_ADMITTED) else []
  }

  function GateMarks(key: PartitionKey, record: Record, reasons: set<GateReason>): seq<Mark> {
    if record.state == QUALIFYING && reasons == {} then MoveMarks(key, record, GATE_MET)
    else if record.state == AUTONOMOUS && EVIDENCE_STALE in reasons then MoveMarks(key, record, EVIDENCE_EXPIRED)
    else if record.state == AUTONOMOUS && reasons != {} then MoveMarks(key, record, GATE_LOST_OUTCOME)
    else []
  }

  /** The moves that bring a live partition's record to where its evidence puts it, read off the tables before them. */
  function TailMarks(env: Env, db: Db, key: PartitionKey, record: Record): seq<Mark> {
    var reading := Read(db, key, env.policy.pending);
    var admitted := if Admits(record, reading) then record.(state := QUALIFYING) else record;
    AdmissionMarks(key, record, reading) + GateMarks(key, admitted, GateReasons(env, db, key, record, reading))
  }

  lemma AppendMarks(db: Db, actor: string, body: Body)
    requires Appended(db, actor, body).Done?
    ensures Marks(Appended(db, actor, body).value.ledger) == Marks(db.ledger) + MarksOf(body)
  {
    MarksAppend(db.ledger, Entry(actor, body));
  }

  lemma RevokeMarks(db: Db, cause: Cause, scope: set<string>)
    requires TokensRevoked(db, cause, scope, CONTROLLER).Done?
    ensures Marks(TokensRevoked(db, cause, scope, CONTROLLER).value.ledger) == Marks(db.ledger) + [Took(cause)]
  {
    var revoked := db.(tokens := RevokeIn(db.tokens, cause, scope));
    AppendMarks(revoked, CONTROLLER, AuthorityRevoked(cause, InState(db.tokens, scope, Issued), InState(db.tokens, scope, HandlerStarted)));
  }

  lemma MovedMarks(db: Db, key: PartitionKey, record: Record, event: Event)
    requires Moved(db, key, record, event).Done? && event in WALK_EVENTS
    ensures var w := Moved(db, key, record, event).value;
            Marks(w.db.ledger) == Marks(db.ledger) + MoveMarks(key, record, event) && w.record == record.(state := w.record.state)
  {
    hide Marks, RevokeIn, InState;
    var moved := record.(state := Next(Some(record.state), event).value);
    var saved := Saved(db, key, moved);
    AppendMarks(saved, CONTROLLER, Transition(key, Some(record.state), moved, Some(event)));
    if event == GATE_LOST_OUTCOME {
      var db1 := Logged(saved, key, Some(record.state), moved, Some(event)).value;
      RevokeMarks(db1, GateLost, OnEvidence(db1, key));
    }
  }

  lemma SyncMarks(env: Env, db: Db, key: PartitionKey, record: Record)
    requires Synced(env, db, key, record).Done?
    ensures Synced(env, db, key, record).value.ledger == db.ledger
  {
    SyncedShape(env, db, key, record);
  }

  lemma AdmittedMarks(db: Db, key: PartitionKey, record: Record, reading: Option<Reading>)
    requires Admitted(db, key, record, reading).Done?
    ensures var w := Admitted(db, key, record, reading).value;
            && Marks(w.db.ledger) == Marks(db.ledger) + AdmissionMarks(key, record, reading)
            && w.record == if Admits(record, reading) then record.(state := QUALIFYING) else record
  {
    hide Marks;
    AdmittedTarget(db, key, record, reading);
    if Admits(record, reading) {
      MovedMarks(db, key, record, TRIAL_ADMITTED);
    } else {
      assert Marks(db.ledger) + [] == Marks(db.ledger);
    }
  }

  lemma GatedMarks(env: Env, db: Db, key: PartitionKey, record: Record, reading: Option<Reading>)
    requires Gated(env, db, key, record, reading).Done?
    ensures var w := Gated(env, db, key, record, reading).value;
            Marks(w.db.ledger) == Marks(db.ledger) + GateMarks(key, record, GateReasons(env, db, key, record, reading))
  {
    hide Marks, GateReasons, Moved, MoveMarks;
    var reasons := GateReasons(env, db, key, record, reading);
    if record.state == QUALIFYING && reasons == {} {
      MovedMarks(db, key, record, GATE_MET);
    } else if record.state == AUTONOMOUS && EVIDENCE_STALE in reasons {
      MovedMarks(db, key, record, EVIDENCE_EXPIRED);
    } else if record.state == AUTONOMOUS && reasons != {} {
      MovedMarks(db, key, record, GATE_LOST_OUTCOME);
    } else {
      assert Marks(db.ledger) + [] == Marks(db.ledger);
    }
  }

  /** A tail logs the moves its tables call for, whatever the stored state is. */
  lemma TailLogs(env: Env, db: Db, key: PartitionKey, record: Record)
    requires Tail(env, db, key, record).Done? && Awake(record)
    ensures Marks(Tail(env, db, key, record).value.ledger) == Marks(db.ledger) + TailMarks(env, db, key, record)
  {
    hide Gated, Admitted, Synced, GateReasons, Marks, AdmissionMarks, GateMarks;
    var reading := Read(db, key, env.policy.pending);
    var db1 := Synced(env, db, key, record).value;
    SyncedSame(env, db, key, record);
    SyncMarks(env, db, key, record);
    AdmittedTarget(db1, key, record, reading);
    AdmittedMarks(db1, key, record, reading);
    var w1 := Admitted(db1, key, record, reading).value;
    GatedMarks(env, w1.db, key, w1.record, reading);
    var w2 := Gated(env, w1.db, key, w1.record, reading).value;
    SameGate(env, db, w1.db, key, record, w1.record, reading);
    SyncMarks(env, w2.db, key, w2.record);
    Regroup(Marks(db.ledger), AdmissionMarks(key, record, reading), GateMarks(key, w1.record, GateReasons(env, db, key, record, reading)));
  }

  lemma Regroup(a: seq<Mark>, b: seq<Mark>, c: seq<Mark>)
    ensures (a + b) + c == a + (b + c)
  {}

  // ---- what a refresh logs ---------------------------------------------------------------------------------------

  lemma {:induction false} CensoringLogsNothing(db: Db, late: seq<Trial>, now: int)
    requires AllCensored(db, late, now).Done?
    ensures Marks(AllCensored(db, late, now).value.ledger) == Marks(db.ledger)
    decreases |late|
  {
    hide Marks;
    if late != [] {
      AppendMarks(db, CONTROLLER, ShadowCensored(late[0].id, now));
      CensoringLogsNothing(CensoredAt(db, late[0].id, now).value, late[1..], now);
    }
  }

  /** What the walk that the last censoring sets off logs. */
  function WalkMarks(env: Env, db: Db, walked: PartitionKey): seq<Mark> {
    if Walkable(db, walked) && Head(env, db, walked).Done?
    then TailMarks(env, Head(env, db, walked).value.db, walked, db.lifecycle[walked])
    else []
  }

  lemma HeadOfLive(env: Env, db: Db, key: PartitionKey)
    requires Walkable(db, key) && key.policyVersion == env.policy.version && Head(env, db, key).Done?
    ensures Head(env, db, key).value.record == db.lifecycle[key] && Head(env, db, key).value.db.ledger == db.ledger
    ensures IndexOf(db.alphas, key).Some? ==> Head(env, db, key).value.db == db
  {}

  lemma OnLabelLogs(env: Env, db: Db, walked: PartitionKey, d: Db)
    requires Versioned(env, db) && LateTrials(env, db) == [] && OnLabel(env, db, walked) == Done(d)
    ensures Marks(d.ledger) == Marks(db.ledger) + WalkMarks(env, db, walked)
  {
    hide Tail, Head, Marks, TailMarks;
    assert env.pick(db, {walked}) in {walked};
    if Walkable(db, walked) {
      var s := WalkDeferring(env, db, walked).value;
      WalkWithoutLate(env, db, walked);
      var none: set<PartitionKey> := {walked} - {walked} + s.deferred;
      assert none == {} && Drained(env, s.db, none) == Done(s.db);
      WalkLogs(env, db, walked, s.db);
    } else {
      assert {walked} - {walked} == {} && Drained(env, db, {}) == Done(db);
      assert Marks(db.ledger) + [] == Marks(db.ledger);
    }
  }

  lemma WalkLogs(env: Env, db: Db, walked: PartitionKey, d: Db)
    requires Walkable(db, walked) && walked.policyVersion == env.policy.version && LateTrials(env, db) == []
    requires WalkDeferring(env, db, walked).Done? && WalkDeferring(env, db, walked).value.db == d
    ensures Marks(d.ledger) == Marks(db.ledger) + WalkMarks(env, db, walked)
  {
    hide Tail, Head, Marks, TailMarks;
    var h := Head(env, db, walked).value;
    HeadOfLive(env, db, walked);
    HeadEvidence(env, db, walked);
    assert AllCensored(h.db, [], env.now) == Done(h.db);
    TailLogs(env, h.db, walked, h.record);
  }

  /** The same moves are called for by tables that agree on the partition. */
  lemma SameMoves(env: Env, a: Db, b: Db, key: PartitionKey, record: Record)
    requires EvidenceOf(a) == EvidenceOf(b)
    requires GateReasons(env, a, key, record, Read(a, key, env.policy.pending)) == GateReasons(env, b, key, record, Read(a, key, env.policy.pending))
    ensures TailMarks(env, b, key, record) == TailMarks(env, a, key, record)
  {
    hide GateReasons;
  }

  lemma OtherWalkSameMoves(env: Env, db: Db, walked: PartitionKey, key: PartitionKey, record: Record, d: Db)
    requires Versioned(env, db) && LateTrials(env, db) == [] && OnLabel(env, db, walked) == Done(d) && walked != key
    ensures TailMarks(env, d, key, record) == TailMarks(env, db, key, record)
  {
    hide WalkDeferring, TailMarks, GateReasons, ViewOf;
    assert env.pick(db, {walked}) in {walked};
    if Walkable(db, walked) {
      var s := WalkDeferring(env, db, walked).value;
      WalkWithoutLate(env, db, walked);
      var none: set<PartitionKey> := {walked} - {walked} + s.deferred;
      assert none == {} && Drained(env, s.db, none) == Done(s.db);
      UnseenStable(env, key, ViewOf(db, key), walked);
      WalkKeeps(env, Unseen(key, ViewOf(db, key)), db, walked);
      SameViewGate(env, db, s.db, key, record, Read(db, key, env.policy.pending));
      SameMoves(env, db, s.db, key, record);
    } else {
      assert {walked} - {walked} == {} && Drained(env, db, {}) == Done(db);
    }
  }

  lemma OwnWalkSameMoves(env: Env, db: Db, key: PartitionKey, record: Record, d: Db)
    requires Tail(env, db, key, record) == Done(d) && Awake(record) && key in db.lifecycle && db.lifecycle[key] == record
    ensures TailMarks(env, d, key, record) == TailMarks(env, db, key, record)
  {
    hide Tail, TailMarks, GateReasons;
    TailKeepsSides(env, db, key, record);
    SameGate(env, db, d, key, record, record, Read(db, key, env.policy.pending));
    SameMoves(env, db, d, key, record);
  }

  /** What the walk inside the censoring and the tail after it log, both read off the tables before the walk. */
  lemma CensoredThenTailLogs(env: Env, db: Db, walked: PartitionKey, key: PartitionKey, record: Record, d: Db)
    requires Versioned(env, db) && LateTrials(env, db) == [] && OnLabel(env, db, walked) == Done(d)
    requires key in db.lifecycle && db.lifecycle[key] == record && Awake(record) && IndexOf(db.alphas, key).Some?
    requires Tail(env, d, key, record).Done?
    ensures Marks(Tail(env, d, key, record).value.ledger)
         == Marks(db.ledger) + (WalkMarks(env, db, walked) + TailMarks(env, db, key, record))
  {
    hide Tail, WalkDeferring, Marks, TailMarks, OnLabel, WalkMarks;
    OnLabelLogs(env, db, walked, d);
    TailLogs(env, d, key, record);
    if walked == key {
      OnlyWalk(env, db, key, record, d);
      OwnWalkSameMoves(env, db, key, record, d);
    } else {
      OtherWalkSameMoves(env, db, walked, key, record, d);
    }
    Regroup(Marks(db.ledger), WalkMarks(env, db, walked), TailMarks(env, db, key, record));
  }

  /** Everything a refresh logs about moves, as the tables stand once it has registered the partition and censored what
      is overdue: the moves of the last overdue trial's partition, and then those of its own. */
  function RefreshMarks(env: Env, db: Db, key: PartitionKey, record: Record): seq<Mark> {
    var late := LateTrials(env, db);
    var all := AllCensored(db, late, env.now);
    if all.Raised? then []
    else (if late == [] then [] else WalkMarks(env, all.value, late[|late| - 1].partition)) + TailMarks(env, all.value, key, record)
  }

  lemma ExpiredLogs(env: Env, db: Db, key: PartitionKey, record: Record, d: Db)
    requires Versioned(env, db) && DistinctIds(db.trials) && key in db.lifecycle && db.lifecycle[key] == record && Awake(record)
    requires IndexOf(db.alphas, key).Some? && Expired(env, db) == Done(d) && Tail(env, d, key, record).Done?
    ensures Marks(Tail(env, d, key, record).value.ledger) == Marks(db.ledger) + RefreshMarks(env, db, key, record)
    ensures AllCensored(db, LateTrials(env, db), env.now).Done?
  {
    hide Tail, OnLabel, Marks, TailMarks, WalkMarks;
    var late := LateTrials(env, db);
    ExpiringIsCensoringAll(env, db, late);
    if late == [] {
      TailLogs(env, db, key, record);
      assert [] + TailMarks(env, db, key, record) == TailMarks(env, db, key, record);
    } else {
      var all := AllCensored(db, late, env.now).value;
      CensoringResolves(db, late, env.now);
      CensoringClears(env, db);
      CensoringLogsNothing(db, late, env.now);
      assert Versioned(env, all) by { assert forall k :: Walkable(all, k) ==> Walkable(db, k); }
      CensoredThenTailLogs(env, all, late[|late| - 1].partition, key, record, d);
    }
  }

  /** A registration, and the revocation if it inherits a suspension. */
  function HeadMarks(env: Env, db: Db, key: PartitionKey): seq<Mark> {
    if key in db.lifecycle then []
    else [Made(Transition(key, None, NewRecord(false), Some(FIRST_PROPOSAL)))]
         + if SuspendedPredecessors(db, key) != {} then [Took(LineageSuspended)] else []
  }

  lemma HeadLogs(env: Env, db: Db, key: PartitionKey)
    requires Head(env, db, key).Done? && Awake(Head(env, db, key).value.record)
    ensures Marks(Head(env, db, key).value.db.ledger) == Marks(db.ledger) + HeadMarks(env, db, key)
  {
    hide Marks;
    if key in db.lifecycle {
      assert Marks(db.ledger) + [] == Marks(db.ledger);
    } else {
      EnrolmentLogs(env, db, key);
    }
  }

  lemma EnrolmentLogs(env: Env, db: Db, key: PartitionKey)
    requires key !in db.lifecycle && Enrolled(env, db, key).Done?
    ensures Marks(Enrolled(env, db, key).value.db.ledger) == Marks(db.ledger) + HeadMarks(env, db, key)
  {
    hide Marks, Registrations, AlphaRecorded;
    var db1 := FirstAlpha(env, db, key).value;
    FirstAlphaShape(env, db, key);
    AppendMarks(db1, CONTROLLER, Transition(key, None, NewRecord(false), Some(FIRST_PROPOSAL)));
    var db2 := Logged(db1, key, None, NewRecord(false), Some(FIRST_PROPOSAL)).value;
    NewcomerSuspendsNobody(db, db2, key);
    if SuspendedPredecessors(db, key) != {} { FlagLogs(db2, key); }
  }

  lemma FlagLogs(db: Db, key: PartitionKey)
    requires LineageFlagged(db, key, NewRecord(false)).Done?
    ensures Marks(LineageFlagged(db, key, NewRecord(false)).value.db.ledger) == Marks(db.ledger) + [Took(LineageSuspended)]
  {
    hide Marks, RevokeIn, InState;
    var flagged := NewRecord(false).(lineageSuspended := true);
    AppendMarks(Saved(db, key, flagged), CONTROLLER, Transition(key, Some(UNESTABLISHED), flagged, None));
    var db1 := Logged(Saved(db, key, flagged), key, Some(UNESTABLISHED), flagged, None).value;
    assert Marks(db.ledger) + [] == Marks(db.ledger);
    RevokeMarks(db1, LineageSuspended, OfPartitions(db1, {key}));
  }

  /** Exactly what a refresh of a live partition logs. */
  lemma RefreshLogs(env: Env, db: Db, key: PartitionKey)
    requires Refreshed(env, db, key).Done? && Awake(Head(env, db, key).value.record)
    requires DistinctIds(db.trials) && Versioned(env, Head(env, db, key).value.db)
    ensures var h := Head(env, db, key).value;
            && AllCensored(h.db, LateTrials(env, h.db), env.now).Done?
            && Marks(Refreshed(env, db, key).value.ledger)
            == Marks(db.ledger) + (HeadMarks(env, db, key) + RefreshMarks(env, h.db, key, h.record))
  {
    hide Head, Tail, Expired, Marks, RefreshMarks, HeadMarks;
    var h := Head(env, db, key).value;
    HeadHolds(env, db, key);
    HeadEvidence(env, db, key);
    HeadRegisters(env, db, key);
    HeadLogs(env, db, key);
    ExpiredLogs(env, h.db, key, h.record, Expired(env, h.db).value);
    Regroup(Marks(db.ledger), HeadMarks(env, db, key), RefreshMarks(env, h.db, key, h.record));
  }

  // ---- when a move is logged twice -------------------------------------------------------------------------------

  /** A move from one state to another, and not a registration. */
  predicate IsMove(body: Body) {
    body.Transition? && body.from.Some?
  }

  ghost predicate OfPartition(marks: seq<Mark>, key: PartitionKey) {
    forall i :: 0 <= i < |marks| && marks[i].Made? ==> IsMove(marks[i].move) && marks[i].move.partition == key
  }

  /** One move at most is owed to admission, and one to the gate. */
  ghost predicate OneMove(marks: seq<Mark>, key: PartitionKey, from: State) {
    && OfPartition(marks, key) && (marks != [] ==> marks[0].Made? && marks[0].move.from == Some(from))
    && forall i :: 1 <= i < |marks| ==> marks[i].Took?
  }

  lemma MoveIsOne(key: PartitionKey, record: Record, event: Event)
    ensures OneMove(MoveMarks(key, record, event), key, record.state)
    ensures MoveMarks(key, record, event) == [] <==> Next(Some(record.state), event).None?
  {}

  lemma TwoMovesDiffer(a: seq<Mark>, b: seq<Mark>, key: PartitionKey, from: State, then_: State)
    requires OneMove(a, key, from) && OneMove(b, key, then_) && (a != [] ==> from != then_)
    ensures !Repeats(a + b) && OfPartition(a + b, key) && (a + b != [] ==> (a + b)[0].Made?)
  {
    var c := a + b;
    forall i | 0 <= i < |c| ensures c[i] == if i < |a| then a[i] else b[i - |a|] {}
  }

  lemma GateIsOne(key: PartitionKey, record: Record, reasons: set<GateReason>)
    ensures OneMove(GateMarks(key, record, reasons), key, record.state)
    ensures GateMarks(key, record, reasons) != [] <==>
            (record.state == QUALIFYING && reasons == {}) || (record.state == AUTONOMOUS && reasons != {})
  {
    hide MoveMarks, OneMove;
    MoveIsOne(key, record, GATE_MET);
    MoveIsOne(key, record, EVIDENCE_EXPIRED);
    MoveIsOne(key, record, GATE_LOST_OUTCOME);
    assert [] == MoveMarks(key, record, FIRST_PROPOSAL) by { MoveIsOne(key, record, FIRST_PROPOSAL); }
    MoveIsOne(key, record, FIRST_PROPOSAL);
  }

  lemma AdmissionIsOne(key: PartitionKey, record: Record, reading: Option<Reading>)
    ensures OneMove(AdmissionMarks(key, record, reading), key, record.state)
    ensures AdmissionMarks(key, record, reading) != [] <==> Admits(record, reading)
  {
    MoveIsOne(key, record, TRIAL_ADMITTED);
  }

  /** The moves one tail calls for are all different, are its partition's, and are none exactly if the record is
      already where it belongs. */
  lemma TailMarksDiffer(env: Env, db: Db, key: PartitionKey, record: Record)
    requires Awake(record)
    ensures var ms := TailMarks(env, db, key, record);
            && !Repeats(ms) && OfPartition(ms, key) && (ms != [] ==> ms[0].Made?)
            && (ms == [] <==> TailTarget(env, db, key, record) == record.state)
  {
    hide GateReasons, AdmissionMarks, GateMarks, OneMove, Repeats, OfPartition, Read;
    var reading := Read(db, key, env.policy.pending);
    var admitted := if Admits(record, reading) then record.(state := QUALIFYING) else record;
    var reasons := GateReasons(env, db, key, record, reading);
    AdmissionIsOne(key, record, reading);
    GateIsOne(key, admitted, reasons);
    TwoMovesDiffer(AdmissionMarks(key, record, reading), GateMarks(key, admitted, reasons), key, record.state, admitted.state);
  }

  lemma WalkMarksOwn(env: Env, db: Db, walked: PartitionKey)
    ensures !Repeats(WalkMarks(env, db, walked)) && OfPartition(WalkMarks(env, db, walked), walked)
  {
    hide TailMarks, Head;
    if Walkable(db, walked) && Head(env, db, walked).Done? {
      TailMarksDiffer(env, Head(env, db, walked).value.db, walked, db.lifecycle[walked]);
    }
  }

  lemma ApartDoNotRepeat(a: seq<Mark>, b: seq<Mark>, k: PartitionKey, l: PartitionKey)
    requires !Repeats(a) && !Repeats(b) && OfPartition(a, k) && OfPartition(b, l) && k != l
    ensures !Repeats(a + b)
  {
    var c := a + b;
    forall i, j | 0 <= i < j < |c| && c[i].Made? ensures c[i] != c[j] {
      if i < |a| { assert c[i] == a[i]; } else { assert c[i] == b[i - |a|]; }
      if j < |a| { assert c[j] == a[j]; } else { assert c[j] == b[j - |a|]; }
    }
  }

  /** A first registration's entry is no later move. */
  lemma HeadAddsNoRepeat(env: Env, db: Db, key: PartitionKey, ms: seq<Mark>)
    requires forall i :: 0 <= i < |ms| && ms[i].Made? ==> IsMove(ms[i].move)
    ensures Repeats(HeadMarks(env, db, key) + ms) <==> Repeats(ms)
  {
    var h, all := HeadMarks(env, db, key), HeadMarks(env, db, key) + ms;
    forall k | 0 <= k < |all| ensures all[k] == if k < |h| then h[k] else ms[k - |h|] {}
    if Repeats(ms) {
      var i, j :| 0 <= i < j < |ms| && ms[i] == ms[j] && ms[i].Made?;
      assert all[|h| + i] == all[|h| + j];
    } else {
      forall i, j | 0 <= i < j < |all| && all[i].Made? ensures all[i] != all[j] {}
    }
  }

  lemma TwiceRepeats(ms: seq<Mark>)
    requires !Repeats(ms) && (ms != [] ==> ms[0].Made?)
    ensures Repeats(ms + ms) <==> ms != []
  {
    if ms != [] {
      assert (ms + ms)[0] == (ms + ms)[|ms|];
    } else {
      assert ms + ms == [];
    }
  }

  /** The last overdue trial is the partition's own, and its evidence, once everything overdue is censored, moves it. */
  predicate CensorsOwnLast(env: Env, db: Db, key: PartitionKey, record: Record) {
    var late := LateTrials(env, db);
    late != [] && late[|late| - 1].partition == key
    && AllCensored(db, late, env.now).Done? && TailTarget(env, AllCensored(db, late, env.now).value, key, record) != record.state
  }

  /** The moves the partition's evidence calls for once everything overdue is censored. */
  function MovesOwed(env: Env, db: Db, key: PartitionKey, record: Record): seq<Mark> {
    var all := AllCensored(db, LateTrials(env, db), env.now);
    if all.Done? then TailMarks(env, all.value, key, record) else []
  }

  function Twice(marks: seq<Mark>): seq<Mark> { marks + marks }

  lemma OwnWalkMarks(env: Env, db: Db, key: PartitionKey, record: Record)
    requires key in db.lifecycle && db.lifecycle[key] == record && Awake(record) && IndexOf(db.alphas, key).Some?
    requires key.policyVersion == env.policy.version
    ensures WalkMarks(env, db, key) == TailMarks(env, db, key, record)
  {
    hide TailMarks;
    assert Head(env, db, key) == Done(Walked(db, record));
  }

  lemma RefreshMarksRepeat(env: Env, db: Db, key: PartitionKey, record: Record)
    requires key in db.lifecycle && db.lifecycle[key] == record && Awake(record) && IndexOf(db.alphas, key).Some?
    requires key.policyVersion == env.policy.version && AllCensored(db, LateTrials(env, db), env.now).Done?
    ensures Repeats(RefreshMarks(env, db, key, record)) <==> CensorsOwnLast(env, db, key, record)
    ensures CensorsOwnLast(env, db, key, record) ==> RefreshMarks(env, db, key, record) == Twice(MovesOwed(env, db, key, record))
    ensures var ms := RefreshMarks(env, db, key, record); forall i :: 0 <= i < |ms| && ms[i].Made? ==> IsMove(ms[i].move)
  {
    hide TailMarks, WalkMarks, TailTarget, Repeats;
    var late := LateTrials(env, db);
    var all := AllCensored(db, late, env.now).value;
    CensoringResolves(db, late, env.now);
    var own := TailMarks(env, all, key, record);
    TailMarksDiffer(env, all, key, record);
    if late == [] {
      assert [] + own == own;
    } else if late[|late| - 1].partition == key {
      OwnWalkMarks(env, all, key, record);
      TwiceRepeats(own);
    } else {
      WalkMarksOwn(env, all, late[|late| - 1].partition);
      ApartDoNotRepeat(WalkMarks(env, all, late[|late| - 1].partition), own, late[|late| - 1].partition, key);
    }
  }

  /** What a refresh has logged about moves. */
  function NewMarks(db: Db, after: Db): seq<Mark> {
    if |Marks(db.ledger)| <= |Marks(after.ledger)| then Marks(after.ledger)[|Marks(db.ledger)|..] else []
  }

  /** A refresh of a live partition logs a move twice if and only if the last trial overdue belongs to the partition
      and the evidence, with everything overdue censored, calls for a move of it.  Then every move called for is logged
      twice, and the revocation of a lost gate with it. */
  lemma MoveRepeatsExactly(env: Env, db: Db, key: PartitionKey)
    requires Refreshed(env, db, key).Done? && Awake(Head(env, db, key).value.record)
    requires DistinctIds(db.trials) && Versioned(env, Head(env, db, key).value.db)
    ensures var h := Head(env, db, key).value;
            && (Repeats(NewMarks(db, Refreshed(env, db, key).value)) <==> CensorsOwnLast(env, h.db, key, h.record))
            && (CensorsOwnLast(env, h.db, key, h.record) ==>
                  NewMarks(db, Refreshed(env, db, key).value) == HeadMarks(env, db, key) + Twice(MovesOwed(env, h.db, key, h.record)))
  {
    hide Head, Tail, Expired, Marks, RefreshMarks, Repeats, CensorsOwnLast, HeadMarks, MovesOwed, Twice;
    var h := Head(env, db, key).value;
    RefreshLogs(env, db, key);
    HeadReady(env, db, key);
    RefreshMarksRepeat(env, h.db, key, h.record);
    HeadAddsNoRepeat(env, db, key, RefreshMarks(env, h.db, key, h.record));
  }

  lemma HeadReady(env: Env, db: Db, key: PartitionKey)
    requires Head(env, db, key).Done? && Awake(Head(env, db, key).value.record)
    ensures var h := Head(env, db, key).value;
            key in h.db.lifecycle && h.db.lifecycle[key] == h.record && IndexOf(h.db.alphas, key).Some? && key.policyVersion == env.policy.version
  {
    HeadHolds(env, db, key);
    HeadRegisters(env, db, key);
  }
}

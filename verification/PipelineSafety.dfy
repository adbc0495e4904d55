/** What every step of the system keeps, over all interleavings, crashes, requeues and late finishes. */
module PipelineSafety {
  import opened Text
  import opened Naming
  import opened Metadata
  import opened Registry
  import opened RegistrySafety
  import P = Publisher
  import S = PublisherSafety
  import Publication
  import Signer
  import opened Vouching
  import Gates
  import Policy
  import Provenance
  import opened Pipeline

  // ------------------------------------------------------------- registry facts

  /** Rows keep their identity: no source changes its application, no job its kind, source or payload. */
  ghost predicate Evolves(db: Db, t: Db) {
    && db.now <= t.now
    && (forall id | id in t.sources && id < db.now ::
          id in db.sources && t.sources[id].slot.appId == db.sources[id].slot.appId)
    && (forall j | j in t.jobs && j < db.now :: j in db.jobs && SameJob(t.jobs[j], db.jobs[j]))
  }

  predicate SameJob(a: Job, b: Job) {
    a.kind == b.kind && a.source == b.source && a.payload == b.payload
  }

  lemma PutEvolves(db: Db, id: nat, row: Source)
    requires id in db.sources && row.slot.appId == db.sources[id].slot.appId
    ensures Evolves(db, PutSource(db, id, row))
  {
  }

  lemma TickEvolves(db: Db)
    ensures Evolves(db, db) && Evolves(db, Ticked(db))
  {
  }

  lemma SourceWriteEvolves(db: Db, w: Write)
    requires w.Add? || w.Move? || w.Identify? || w.Edited? || w.Delegated? || w.Delete?
    ensures Evolves(db, Apply(db, w))
  {
    hide RowAllowed, Evolves, PutSource, Registered, Waiting;
    TickEvolves(db);
    match w {
      case Add(s) => AddEvolves(db, s);
      case Delete(id) => DeleteEvolves(db, id);
      case Move(id, status) =>
        if id in db.sources { PutEvolves(db, id, db.sources[id].(status := status)); }
      case Identify(id, r, o) =>
        if id in db.sources {
          var s := db.sources[id];
          PutEvolves(db, id,
                     s.(status := PENDING_DELEGATION, pins := s.pins.(repositoryId := Some(r), ownerId := Some(o))));
        }
      case Edited(id, e) =>
        if id in db.sources {
          PutEvolves(db, id, EditedRow(db.sources[id], e));
        }
      case Delegated(id, _) =>
        if id in db.sources { PutEvolves(db, id, db.sources[id].(status := ACTIVE)); }
    }
  }

  lemma AddEvolves(db: Db, s: Source)
    ensures AddSource(db, s).Ok? ==> Evolves(db, AddSource(db, s).value)
  {
  }

  lemma DeleteEvolves(db: Db, id: nat)
    ensures Evolves(db, DeleteSource(db, id))
  {
  }

  lemma JobWriteEvolves(db: Db, w: Write)
    requires w.Queue? || w.Take? || w.Finish? || w.Reset?
    ensures Evolves(db, Apply(db, w))
  {
    hide HasOpen, Oldest;
    if w.Take? { OldestExists(db, w.kinds, w.job); }
  }

  lemma OldestExists(db: Db, kinds: set<Kind>, j: nat)
    ensures Oldest(db, kinds, j) ==> j in db.jobs
  {
  }

  lemma WriteEvolves(db: Db, w: Write)
    ensures Evolves(db, Apply(db, w))
  {
    hide Evolves, Apply;
    if w.Queue? || w.Take? || w.Finish? || w.Reset? {
      JobWriteEvolves(db, w);
    } else {
      SourceWriteEvolves(db, w);
    }
  }

  lemma AllowedIsAsked(s: System, team: Team, pc: Pc, x: Action)
    requires x.Operator? ==> OperatorMay(x.write)
    ensures WriteOf(team, pc, x).Some? ==> Asked(WriteOf(team, pc, x).value)
  {
  }

  lemma WrittenKeeps(db: Db, w: Option<Write>)
    requires RegistryOk(db) && (w.Some? ==> Asked(w.value))
    ensures RegistryOk(Written(db, w)) && Evolves(db, Written(db, w))
  {
    if w.Some? {
      hide RegistryOk, Apply, Evolves;
      AskedKeeps(db, w.value);
      WriteEvolves(db, w.value);
    } else {
      TickKeeps(db);
      hide OneOpenJob, PendingValidated, RowAllowed;
    }
  }

  // ------------------------------------------------------------------ approval

  predicate PayloadApproved(job: Job, appId: string, ok: Approved) {
    job.kind == PUBLISH && job.payload.sha256.Some? ==> (job.payload.sha256.value, appId) in ok
  }

  /** Every queued publish names a digest approved for its source's application. */
  ghost predicate JobsApproved(db: Db, ok: Approved) {
    forall j | j in db.jobs && db.jobs[j].source in db.sources ::
      PayloadApproved(db.jobs[j], db.sources[db.jobs[j].source].slot.appId, ok)
  }

  predicate RecordApproved(record: Record, appId: string, ok: Approved) {
    record.promoted ==> record.artifact.sha256.Some? && (record.artifact.sha256.value, appId) in ok
  }

  /** What a worker remembers of a job still agrees with the row, if there is one. */
  predicate JobMatches(db: Db, id: nat, job: Job) {
    id < db.now && job.source < db.now && (id in db.jobs ==> SameJob(db.jobs[id], job))
  }

  predicate HasRow(pc: Pc) {
    pc.Loaded? || pc.Identifying? || pc.Finishing? || pc.HandingOff?
  }

  predicate WorkerOk(db: Db, ok: Approved, w: Worker) {
    && (Started(w.pc) ==> w.pc.job.kind in Claims(w.team) && JobMatches(db, w.pc.id, w.pc.job))
    && (w.pc.Took? && w.pc.job.source in db.sources ==>
          PayloadApproved(w.pc.job, db.sources[w.pc.job.source].slot.appId, ok))
    && (HasRow(w.pc) ==>
          && PayloadApproved(w.pc.job, w.pc.row.slot.appId, ok)
          && (w.pc.job.source in db.sources ==> db.sources[w.pc.job.source].slot.appId == w.pc.row.slot.appId))
    && (w.pc.Identifying? ==> w.team == INGEST && w.pc.job.kind == VALIDATE)
    && (w.pc.HandingOff? ==> w.team == INGEST)
    && (w.pc.Finishing? || w.pc.HandingOff? ==>
          && RecordApproved(w.pc.record, w.pc.row.slot.appId, ok)
          && (w.pc.record.promoted ==> w.team == INGEST && w.pc.job.kind == POLL))
  }

  ghost predicate SystemOk(env: Env, s: System) {
    && RegistryOk(s.db) && JobsApproved(s.db, Pairs(s.approvals))
    && (forall w | w in s.workers :: WorkerOk(s.db, Pairs(s.approvals), s.workers[w]))
    && Sane(s.disk, Pairs(s.approvals))
    && (forall a | a in s.approvals :: Genuine(env, a))
  }

  lemma WorkerStaysOk(db: Db, t: Db, ok: Approved, more: Approved, w: Worker)
    requires Evolves(db, t) && ok <= more && WorkerOk(db, ok, w)
    ensures WorkerOk(t, more, w)
  {
  }

  lemma PairsGrow(env: Env, s: System, pc: Pc, x: Action)
    ensures Pairs(s.approvals) <= Pairs(s.approvals + NewApprovals(env, pc, x))
    ensures forall a | a in s.approvals + NewApprovals(env, pc, x) :: a in s.approvals || Genuine(env, a)
  {
    hide Genuine;
  }

  /** Whoever enqueues a publish has an approved digest for the source's application. */
  lemma QueuedApproved(db: Db, ok: Approved, team: Team, pc: Pc, x: Action, source: nat, kind: Kind,
                       payload: PublishJob)
    requires RegistryOk(db) && WorkerOk(db, ok, Worker(team, pc)) && (x.Operator? ==> OperatorMay(x.write))
    requires WriteOf(team, pc, x) == Some(Queue(source, kind, payload)) && source in db.sources
    ensures kind == PUBLISH && payload.sha256.Some? ==> (payload.sha256.value, db.sources[source].slot.appId) in ok
  {
  }

  /** What a write adds to the queue, if anything: the row under `db.now`. */
  lemma NewJob(db: Db, w: Write, j: nat)
    requires Consistent(db) && j in Apply(db, w).jobs && !(j in db.jobs && j < db.now)
    ensures w.Queue? && j == db.now && w.owner in db.sources && Apply(db, w).sources == db.sources
    ensures Apply(db, w).jobs[j].source == w.owner && Apply(db, w).jobs[j].kind == w.kind
    ensures Apply(db, w).jobs[j].payload == w.payload
  {
    hide HasOpen, Oldest, RowAllowed, Registered, Waiting;
    if w.Take? { OldestExists(db, w.kinds, w.job); }
  }

  lemma JobsStayApproved(db: Db, ok: Approved, w: Option<Write>)
    requires RegistryOk(db) && JobsApproved(db, ok)
    requires w.Some? && w.value.Queue? && w.value.owner in db.sources
             && w.value.kind == PUBLISH && w.value.payload.sha256.Some? ==>
               (w.value.payload.sha256.value, db.sources[w.value.owner].slot.appId) in ok
    ensures JobsApproved(Written(db, w), ok)
  {
    hide RowAllowed, Apply, OneOpenJob, PendingValidated;
    var t := Written(db, w);
    forall j | j in t.jobs && t.jobs[j].source in t.sources
      ensures PayloadApproved(t.jobs[j], t.sources[t.jobs[j].source].slot.appId, ok)
    {
      if w.Some? {
        WriteEvolves(db, w.value);
        if !(j in db.jobs && j < db.now) {
          NewJob(db, w.value, j);
        } else {
          assert SameJob(t.jobs[j], db.jobs[j]);
          assert db.jobs[j].source in db.sources && db.jobs[j].source < db.now;
        }
      }
    }
  }

  lemma ApprovedMore(db: Db, ok: Approved, more: Approved)
    requires JobsApproved(db, ok) && ok <= more
    ensures JobsApproved(db, more)
  {
  }

  lemma TakeStaysOk(db: Db, team: Team, id: nat, ok: Approved)
    requires RegistryOk(db) && JobsApproved(db, ok) && Oldest(db, Claims(team), id)
    ensures WorkerOk(Apply(db, Take(Claims(team), id)), ok, Worker(team, Took(id, db.jobs[id])))
  {
    hide RowAllowed, PayloadApproved, OneOpenJob, PendingValidated;
  }

  lemma LoadStaysOk(db: Db, team: Team, pc: Pc, ok: Approved)
    requires WorkerOk(db, ok, Worker(team, pc)) && pc.Took?
    ensures WorkerOk(db, ok, Worker(team, Failing(pc.id, pc.job)))
    ensures pc.job.source in db.sources ==>
              WorkerOk(db, ok, Worker(team, Loaded(pc.id, pc.job, db.sources[pc.job.source])))
  {
    hide PayloadApproved;
  }

  lemma PollStaysOk(env: Env, s: System, team: Team, pc: Pc, x: Action, t: Db)
    requires Enabled(s.db, team, pc, x) && x.PollBy?
    requires WorkerOk(t, Pairs(s.approvals + NewApprovals(env, pc, x)), Worker(team, pc))
    ensures WorkerOk(t, Pairs(s.approvals + NewApprovals(env, pc, x)), Worker(team, Next(env, s, team, pc, x)))
  {
    hide PayloadApproved, Policy.Ingested;
    var a := Approval(x.artifact, pc.row, x.envelope);
    if Genuine(env, a) {
      assert a in s.approvals + NewApprovals(env, pc, x);
      assert (Sha256(a.artifact), a.row.slot.appId) in Pairs(s.approvals + NewApprovals(env, pc, x));
    }
  }

  /** Every other action keeps the job in hand, or lets it go. */
  lemma OtherStaysOk(env: Env, s: System, team: Team, pc: Pc, x: Action, t: Db, ok: Approved)
    requires Enabled(s.db, team, pc, x) && Actor(x).Some? && !x.TakeBy? && !x.LoadBy? && !x.PollBy?
    requires WorkerOk(t, ok, Worker(team, pc))
    ensures WorkerOk(t, ok, Worker(team, Next(env, s, team, pc, x)))
  {
    hide PayloadApproved, Policy.Ingested, Signer.PublishRun, JobMatches, RecordApproved, Unchanged, LastPoll,
         DonePoll, Oldest, HasOpen;
    assert !NO_RECORD.promoted;
    forall appId ensures RecordApproved(NO_RECORD, appId, ok) { EmptyRecordApproved(appId, ok); }
  }

  lemma EmptyRecordApproved(appId: string, ok: Approved)
    ensures RecordApproved(NO_RECORD, appId, ok)
  {
  }

  /** The acting worker stays within its own kinds and its own approvals. */
  lemma ActorStaysOk(env: Env, s: System, x: Action, team: Team, pc: Pc)
    requires RegistryOk(s.db) && JobsApproved(s.db, Pairs(s.approvals))
    requires WorkerOk(s.db, Pairs(s.approvals), Worker(team, pc))
    requires Enabled(s.db, team, pc, x) && Actor(x).Some?
    ensures WorkerOk(Written(s.db, WriteOf(team, pc, x)), Pairs(s.approvals + NewApprovals(env, pc, x)),
                     Worker(team, Next(env, s, team, pc, x)))
  {
    var ok, more := Pairs(s.approvals), Pairs(s.approvals + NewApprovals(env, pc, x));
    var t := Written(s.db, WriteOf(team, pc, x));
    PairsGrow(env, s, pc, x);
    AllowedIsAsked(s, team, pc, x);
    WrittenKeeps(s.db, WriteOf(team, pc, x));
    WorkerStaysOk(s.db, t, ok, more, Worker(team, pc));
    ApprovedMore(s.db, ok, more);
    hide RegistryOk, Apply, JobsApproved, WorkerOk, Evolves, WriteOf, NewApprovals;
    if x.TakeBy? {
      TakeIsWritten(s.db, team, pc, x);
      TakeStaysOk(s.db, team, x.id, more);
    } else if x.LoadBy? {
      LoadIsRead(s.db, team, pc, x);
      LoadStaysOk(t, team, pc, more);
    } else if x.PollBy? {
      PollStaysOk(env, s, team, pc, x, t);
    } else {
      OtherStaysOk(env, s, team, pc, x, t, more);
    }
  }

  lemma TakeIsWritten(db: Db, team: Team, pc: Pc, x: Action)
    requires x.TakeBy?
    ensures Written(db, WriteOf(team, pc, x)) == Apply(db, Take(Claims(team), x.id))
  {
  }

  lemma LoadIsRead(db: Db, team: Team, pc: Pc, x: Action)
    requires x.LoadBy?
    ensures Written(db, WriteOf(team, pc, x)) == Ticked(db)
  {
  }

  // ---------------------------------------------------------------- repository

  lemma EndsInTrail(trail: seq<P.State>, ending: Ending, d: Disk, ok: Approved)
    requires EndsIn(trail, ending, d) && AllSane(trail, ok)
    ensures Sane(d, ok)
  {
    hide Sane;
  }

  lemma SaneMore(d: Disk, ok: Approved, more: Approved)
    requires Sane(d, ok) && ok <= more
    ensures Sane(d, more)
  {
    hide S.Shaped, S.PayloadsStored, Vouched;
    VouchedMore(d, ok, more);
  }

  /** The disk stays sound and vouched for, whoever moves it, however old their scan and however that ends. */
  lemma DiskStaysOk(env: Env, s: System, team: Team, pc: Pc, x: Action, d: Disk)
    requires Sane(s.disk, Pairs(s.approvals)) && DiskMoves(s, pc, x, d)
    requires x.Ceremony? ==> x.op.OpInitialize? || x.op.OpAddApp?
    requires x.PublishBy? ==> WorkerOk(s.db, Pairs(s.approvals), Worker(team, pc)) && pc.Loaded? && team == SIGNING
    ensures Sane(d, Pairs(s.approvals))
  {
    hide Sane, P.Perform, EndsIn, AllSane, Signer.PublishRun;
    var ok := Pairs(s.approvals);
    match x {
      case Ceremony(op, backend, memory, ending) =>
        PerformVouched(backend, P.State(s.disk, memory), op, ok);
        EndsInTrail(P.Perform(backend, P.State(s.disk, memory), op).trail, ending, d, ok);
      case PublishBy(_, q, backend, memory, ending) =>
        assert pc.job.kind == PUBLISH;
        PublishVouched(backend, P.State(s.disk, memory), q, pc.row.slot, pc.job.payload, ok);
        EndsInTrail(Signer.PublishRun(backend, P.State(s.disk, memory), q, pc.row.slot, pc.job.payload).trail, ending,
                    d, ok);
      case _ =>
    }
  }

  // --------------------------------------------------------------------- steps

  lemma OutsideStep(env: Env, s: System, x: Action, t: System)
    requires SystemOk(env, s) && Steps(env, s, x, t) && Actor(x).None?
    ensures SystemOk(env, t)
  {
    hide Sane, RegistryOk, JobsApproved, Apply, Genuine, WorkerOk, DiskMoves, Evolves;
    var w := WriteOf(INGEST, Idle, x);
    AllowedIsAsked(s, INGEST, Idle, x);
    WrittenKeeps(s.db, w);
    OperatorQueuesNothing(x);
    JobsStayApproved(s.db, Pairs(s.approvals), w);
    forall i | i in s.workers ensures WorkerOk(t.db, Pairs(s.approvals), s.workers[i]) {
      WorkerStaysOk(s.db, t.db, Pairs(s.approvals), Pairs(s.approvals), s.workers[i]);
    }
    DiskStaysOk(env, s, INGEST, Idle, x, t.disk);
  }

  lemma OperatorQueuesNothing(x: Action)
    requires Actor(x).None? && (x.Operator? ==> OperatorMay(x.write))
    ensures var w := WriteOf(INGEST, Idle, x); w.Some? && w.value.Queue? ==> w.value.kind != PUBLISH
  {
  }

  lemma WorkerStep(env: Env, s: System, x: Action, t: System)
    requires SystemOk(env, s) && Steps(env, s, x, t) && Actor(x).Some?
    ensures SystemOk(env, t)
  {
    hide Sane, RegistryOk, JobsApproved, Apply, Genuine, WorkerOk, DiskMoves, Evolves, WriteOf,
         NewApprovals, Next, Enabled;
    var i := Actor(x).value;
    var team, pc := s.workers[i].team, s.workers[i].pc;
    assert s.workers[i] == Worker(team, pc);
    var w, ok, more := WriteOf(team, pc, x), Pairs(s.approvals), Pairs(t.approvals);
    PairsGrow(env, s, pc, x);
    AllowedIsAsked(s, team, pc, x);
    WrittenKeeps(s.db, w);
    if w.Some? && w.value.Queue? && w.value.owner in s.db.sources {
      QueuedApproved(s.db, ok, team, pc, x, w.value.owner, w.value.kind, w.value.payload);
    }
    JobsStayApproved(s.db, ok, w);
    ApprovedMore(t.db, ok, more);
    forall j | j in t.workers ensures WorkerOk(t.db, more, t.workers[j]) {
      if j == i {
        ActorStaysOk(env, s, x, team, pc);
      } else {
        WorkerStaysOk(s.db, t.db, ok, more, s.workers[j]);
      }
    }
    if x.PublishBy? { EnabledPublish(s.db, team, pc, x); }
    DiskStaysOk(env, s, team, pc, x, t.disk);
    SaneMore(t.disk, ok, more);
  }

  lemma EnabledPublish(db: Db, team: Team, pc: Pc, x: Action)
    requires x.PublishBy? && Enabled(db, team, pc, x)
    ensures pc.Loaded? && team == SIGNING
  {
  }

  /** Every step of every interleaving keeps the whole invariant. */
  lemma EveryStepIsOk(env: Env, s: System, x: Action, t: System)
    requires SystemOk(env, s) && Steps(env, s, x, t)
    ensures SystemOk(env, t)
  {
    hide SystemOk, Steps;
    if Actor(x).None? {
      OutsideStep(env, s, x, t);
    } else {
      WorkerStep(env, s, x, t);
    }
  }

  // --------------------------------------------------------------------- runs

  ghost predicate RunOf(env: Env, actions: seq<Action>, states: seq<System>) {
    |states| == |actions| + 1 && forall i | 0 <= i < |actions| :: Steps(env, states[i], actions[i], states[i + 1])
  }

  lemma {:induction false} EveryRunIsOk(env: Env, actions: seq<Action>, states: seq<System>, n: nat)
    requires RunOf(env, actions, states) && SystemOk(env, states[0]) && n <= |actions|
    ensures SystemOk(env, states[n])
  {
    hide SystemOk, Steps;
    if n > 0 {
      EveryRunIsOk(env, actions, states, n - 1);
      EveryStepIsOk(env, states[n - 1], actions[n - 1], states[n]);
    }
  }

  /** Nothing registered, nothing published, every worker idle. */
  ghost predicate Starts(s: System) {
    && s.db == Db(map[], map[], 0) && s.disk == Disk(map[], map[]) && s.approvals == {}
    && forall w | w in s.workers :: s.workers[w].pc == Idle
  }

  lemma StartIsOk(env: Env, s: System)
    requires Starts(s)
    ensures SystemOk(env, s)
  {
  }

  /** Every state of every run from nothing. */
  lemma ReachedIsOk(env: Env, actions: seq<Action>, states: seq<System>, n: nat)
    requires RunOf(env, actions, states) && Starts(states[0]) && n <= |actions|
    ensures SystemOk(env, states[n])
  {
    hide SystemOk, Starts;
    StartIsOk(env, states[0]);
    EveryRunIsOk(env, actions, states, n);
  }

  /** The work an action does is the work of the team it belongs to, on a job of the right kind. */
  ghost predicate OwnWork(s: System, x: Action) {
    Actor(x).Some? && Actor(x).value in s.workers ==>
      var w := s.workers[Actor(x).value];
      && (x.PublishBy? && w.pc.Loaded? ==>
            && w.team == SIGNING
            && w.pc.job.kind == PUBLISH
            && (w.pc.id in s.db.jobs ==> s.db.jobs[w.pc.id].kind == PUBLISH))
      && (x.PollBy? && w.pc.Loaded? ==>
            && w.team == INGEST
            && w.pc.job.kind == POLL
            && (w.pc.id in s.db.jobs ==> s.db.jobs[w.pc.id].kind == POLL))
      && (x.ValidateBy? && w.pc.Loaded? ==>
            && w.team == INGEST
            && w.pc.job.kind == VALIDATE
            && (w.pc.id in s.db.jobs ==> s.db.jobs[w.pc.id].kind == VALIDATE))
  }

  lemma OwnWorkStep(env: Env, s: System, x: Action, t: System)
    requires SystemOk(env, s) && Steps(env, s, x, t)
    ensures OwnWork(s, x)
  {
    hide Sane, RegistryOk, JobsApproved, Apply, Genuine, DiskMoves, Next, PayloadApproved, RecordApproved;
    if Actor(x).Some? {
      assert WorkerOk(s.db, Pairs(s.approvals), s.workers[Actor(x).value]);
    }
  }

  predicate IsActive(db: Db, id: nat) {
    id in db.sources && db.sources[id].status == ACTIVE
  }

  /**
   In every interleaving: one open job per source; each kind of work done only by its own team; a
   source becomes active only by `mark_delegated`; an active GitHub source has both numeric pins.
   */
  lemma EveryRunKeepsTheQueue(env: Env, actions: seq<Action>, states: seq<System>, n: nat)
    requires RunOf(env, actions, states) && Starts(states[0]) && n < |actions|
    ensures OneOpenJob(states[n].db) && OwnWork(states[n], actions[n])
    ensures forall id | IsActive(states[n].db, id) && states[n].db.sources[id].forge == GITHUB ::
              Identified(states[n].db.sources[id])
    ensures forall id | IsActive(states[n + 1].db, id) && !IsActive(states[n].db, id) ::
              actions[n].Operator? && actions[n].write.Delegated? && actions[n].write.id == id
  {
    hide Steps, Starts;
    ReachedIsOk(env, actions, states, n);
    var s, x, t := states[n], actions[n], states[n + 1];
    OwnWorkStep(env, s, x, t);
    hide Sane, JobsApproved, Genuine, WorkerOk, Apply;
    forall id | IsActive(t.db, id) && !IsActive(s.db, id)
      ensures x.Operator? && x.write.Delegated? && x.write.id == id
    {
      ActivationStep(env, s, x, t, id);
    }
  }

  lemma ActivationStep(env: Env, s: System, x: Action, t: System, id: nat)
    requires RegistryOk(s.db) && Steps(env, s, x, t) && id in t.db.sources && t.db.sources[id].status == ACTIVE
    requires !(id in s.db.sources && s.db.sources[id].status == ACTIVE)
    ensures x.Operator? && x.write.Delegated? && x.write.id == id
  {
    hide RegistryOk, Apply, DiskMoves, Next, NewApprovals, Enabled;
    var team := if Actor(x).Some? then s.workers[Actor(x).value].team else INGEST;
    var pc := if Actor(x).Some? then s.workers[Actor(x).value].pc else Idle;
    var w := WriteOf(team, pc, x);
    assert t.db == Written(s.db, w);
    if w.Some? {
      OnlyDelegationActivates(s.db, w.value, id);
    }
  }

  // ----------------------------------------------------------- what was signed

  /** A release entry at rest: listed in some signed file of some role. */
  ghost predicate ReleaseListed(d: Disk, n: FileName, key: TargetKey) {
    n in d.files && d.files[n].body.TargetsBody? && Path(key) in d.files[n].body.targets
  }

  /**
   Every release entry ever signed, wherever a publish was cut: its bytes are stored, and they are the
   bytes of a poll that ended PROMOTE for the application whose role lists them.
   */
  lemma EverySignedReleaseWasPromoted(env: Env, actions: seq<Action>, states: seq<System>, n: nat, name: FileName,
                                      key: TargetKey)
    requires RunOf(env, actions, states) && Starts(states[0]) && n <= |actions|
    requires ReleaseListed(states[n].disk, name, key)
    ensures var d := states[n].disk;
            var e := d.files[name].body.targets[Path(key)];
            && PayloadName(Path(key), e.digest) in d.payloads
            && exists a | a in states[n].approvals ::
                 && Genuine(env, a) && d.payloads[PayloadName(Path(key), e.digest)] == a.artifact
                 && Publication.RoleOf(name) == AppRoleName(a.row.slot.appId)
  {
    ReachedIsOk(env, actions, states, n);
    var s := states[n];
    var d := s.disk;
    var e := d.files[name].body.targets[Path(key)];
    hide RegistryOk, JobsApproved, WorkerOk, Genuine, S.Shaped, RunOf, Starts;
    assert S.Stored(d, Path(key), e);
    assert VouchedBody(Publication.RoleOf(name), d.files[name].body, Pairs(s.approvals));
    NotAPointer(key, e);
    var pair :| pair in Pairs(s.approvals) && pair.0 == e.digest && Publication.RoleOf(name) == AppRoleName(pair.1);
    var a :| a in s.approvals && pair == (Sha256(a.artifact), a.row.slot.appId);
    assert Genuine(env, a);
  }

  lemma NotAPointer(key: TargetKey, e: Entry)
    ensures !IsPointerEntry(Path(key), e)
  {
    forall other: TargetKey
      ensures Path(key) != PointerPath(ChannelOf(other)) { ReleaseIsNeverPointer(key, ChannelOf(other)); }
  }

  /** On the certificate route: Sigstore found the row's own workflow and the forge's own identifiers. */
  ghost predicate CertifiedFor(env: Env, a: Approval) {
    var p := a.row.pins;
    && p.workflowUri.Some? && p.workflowUri.value != "" && p.issuer.Some? && p.issuer.value != ""
    && p.repositoryId.Some? && p.repositoryId.value != "" && p.ownerId.Some? && p.ownerId.value != ""
    && a.envelope.Some? && a.envelope.value != ""
    && var identity := Identity(p.workflowUri.value, p.issuer.value, p.repositoryId.value, p.ownerId.value,
                                a.row.projectUrl, a.row.tagRefPrefix);
       env.sigstore(identity)(a.envelope.value, env.world.hash(env.octets(a.artifact))).Ok?
  }

  /** On the fixed-key route: the envelope verifies under the row's one builder and attests these bytes. */
  ghost predicate ProvenFor(env: Env, a: Approval) {
    var p := a.row.pins;
    && p.builderId.Some? && p.builderId.value != "" && p.builderKeyId.Some? && p.builderKeyId.value != ""
    && p.builderKey.Some? && p.builderKey.value != "" && a.envelope.Some? && a.envelope.value != ""
    && var builder := Provenance.TrustedBuilder(p.builderId.value, p.builderKeyId.value, env.utf8(p.builderKey.value));
       Provenance.Proven(env.world.proving, a.envelope.value, env.world.hash(env.octets(a.artifact)),
                         Provenance.Policy([builder], a.row.projectUrl, a.row.tagRefPrefix))
  }

  /** The archive is no archive or one within the deployment's limits. */
  ghost predicate ArchiveFits(env: Env, a: Approval) {
    var artifact := env.octets(a.artifact);
    && |artifact| <= env.maxBytes
    && (env.world.unpack(artifact).NotArchive?
        || (env.world.unpack(artifact).Listing?
            && Gates.WithinLimits(env.world.unpack(artifact).members, |artifact|, env.limits)))
  }

  /**
   A promotion means exactly this of the row it was judged by: not critical; provenance by the row's own
   pins on its forge's own route; a fitting archive; and a deployment that names the three gates as skipped
   and no other.
   */
  lemma PromotedMeansCleared(env: Env, a: Approval)
    ensures Genuine(env, a) <==>
      && !a.row.critical
      && (if a.row.forge == GITHUB then CertifiedFor(env, a) else ProvenFor(env, a))
      && ArchiveFits(env, a) && env.skip == {"malware", "publisher", "sbom"}
  {
    hide Provenance.Proven, Gates.WithinLimits, Gates.GatesClear, Provenance.VerifyProvenance, Gates.Skipped;
    Gates.WiredGatesNeedEverySkip(env.skip);
    Gates.ContentCheckedMeans(Gates.WiredGates(env.skip), None, Gates.Refused);
    hide Gates.FirstFailure, Gates.StopsAt;
    if PolicyOf(env, a.row).Some? {
      var policy := PolicyOf(env, a.row).value;
      assert policy.gates(env.octets(a.artifact)) == Gates.WiredGates(env.skip);
      if a.row.forge == GITLAB {
        Policy.PromotesExactly(env.world, policy, env.maxBytes, env.octets(a.artifact), a.envelope, None);
      }
    }
  }

  /** So every release ever signed was promoted on those grounds. */
  lemma EverySignedReleaseWasCleared(env: Env, actions: seq<Action>, states: seq<System>, n: nat, name: FileName,
                                     key: TargetKey)
    requires RunOf(env, actions, states) && Starts(states[0]) && n <= |actions|
    requires ReleaseListed(states[n].disk, name, key)
    ensures env.skip == {"malware", "publisher", "sbom"}
    ensures exists a | a in states[n].approvals ::
              && Sha256(a.artifact) == states[n].disk.files[name].body.targets[Path(key)].digest
              && Publication.RoleOf(name) == AppRoleName(a.row.slot.appId) && !a.row.critical && ArchiveFits(env, a)
              && (if a.row.forge == GITHUB then CertifiedFor(env, a) else ProvenFor(env, a))
  {
    hide Steps, Starts, Genuine, CertifiedFor, ProvenFor, ArchiveFits;
    EverySignedReleaseWasPromoted(env, actions, states, n, name, key);
    var d := states[n].disk;
    var e := d.files[name].body.targets[Path(key)];
    var a :| && a in states[n].approvals && Genuine(env, a)
             && d.payloads[PayloadName(Path(key), e.digest)] == a.artifact
             && Publication.RoleOf(name) == AppRoleName(a.row.slot.appId);
    PromotedMeansCleared(env, a);
    ReachedIsOk(env, actions, states, n);
    PayloadIsItsName(env, states[n], PayloadName(Path(key), e.digest));
  }

  lemma PayloadIsItsName(env: Env, s: System, p: PayloadName)
    requires SystemOk(env, s) && p in s.disk.payloads
    ensures Sha256(s.disk.payloads[p]) == p.digest
  {
    hide RegistryOk, JobsApproved, WorkerOk, Genuine, S.Shaped, Vouched;
    assert s.disk.payloads[p] == p.digest.of;
  }
}

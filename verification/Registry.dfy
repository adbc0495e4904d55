/**
 The registry (dist_registry/store.py over schema.sql): sources, the job queue, and one function per
 transaction. Every transaction ticks `now`, which also stands for fresh identifiers.
 */
module Registry {
  import opened Text
  import opened Naming
  import opened Metadata

  datatype Forge = GITHUB | GITLAB

  datatype Status = DRAFT | VALIDATING | INVALID | PENDING_DELEGATION | ACTIVE | PAUSED

  datatype Pins = Pins(workflowUri: Option<string>, issuer: Option<string>, repositoryId: Option<string>,
                       ownerId: Option<string>,
                       builderId: Option<string>, builderKeyId: Option<string>, builderKey: Option<string>)

  datatype Source = Source(slot: ChannelFields, forge: Forge, status: Status, critical: bool, pins: Pins,
                           projectUrl: string, tagRefPrefix: string)

  datatype Kind = VALIDATE | POLL | PUBLISH

  datatype JobState = QUEUED | RUNNING | DONE | FAILED

  /** A finished job's result, as later code reads it. */
  datatype Record = Record(tag: string, skips: Option<nat>, promoted: bool, artifact: PublishJob)

  datatype Job = Job(source: nat, kind: Kind, state: JobState, payload: PublishJob, result: Option<Record>,
                     requestedAt: nat, startedAt: nat, finishedAt: nat)

  datatype Db = Db(sources: map<nat, Source>, jobs: map<nat, Job>, now: nat)

  datatype StoreError =
    | AlreadyRegistered
    | CheckViolation
    | ActiveIsReserved
    | SourceGone
    | NotWaiting
    | ForeignKey
    | OpenJobExists

  const NO_PAYLOAD := PublishJob(None, "", "")
  const NO_RECORD := Record("", None, false, NO_PAYLOAD)

  predicate Unfinished(state: JobState) {
    state == QUEUED || state == RUNNING
  }

  predicate Open(j: Job) {
    Unfinished(j.state)
  }

  /** `github_active_needs_certificate_identity` and `gitlab_active_needs_builder_key`. */
  predicate ActiveAllowed(s: Source) {
    match s.forge
    case GITHUB => s.pins.workflowUri.Some? && s.pins.issuer.Some? && s.pins.repositoryId.Some? && s.pins.ownerId.Some?
    case GITLAB => s.pins.builderId.Some? && s.pins.builderKeyId.Some? && s.pins.builderKey.Some?
  }

  /** The checks on one row of `sources`. */
  predicate RowAllowed(s: Source) {
    IsAppId(s.slot.appId) && s.slot.channel in CHANNELS && (s.status == ACTIVE ==> ActiveAllowed(s))
  }

  function Ticked(db: Db): Db {
    db.(now := db.now + 1)
  }

  // ----------------------------------------------------------------- sources

  predicate Registered(db: Db, appId: string) {
    exists id | id in db.sources :: db.sources[id].slot.appId == appId
  }

  /** `add_source`: always a draft, and never with the forge's identifiers. */
  function Draft(s: Source): Source {
    s.(status := DRAFT, pins := s.pins.(repositoryId := None, ownerId := None))
  }

  function AddSource(db: Db, s: Source): Result<Db, StoreError> {
    if !RowAllowed(Draft(s)) then Err(CheckViolation)
    else if Registered(db, s.slot.appId) then Err(AlreadyRegistered)
    else Ok(Ticked(db).(sources := db.sources[db.now := Draft(s)]))
  }

  function PutSource(db: Db, id: nat, s: Source): Db {
    Ticked(db).(sources := db.sources[id := s])
  }

  function SetStatus(db: Db, id: nat, status: Status): Result<Db, StoreError> {
    if status == ACTIVE then Err(ActiveIsReserved)
    else if id !in db.sources then Ok(Ticked(db))
    else Ok(PutSource(db, id, db.sources[id].(status := status)))
  }

  function RecordIdentity(db: Db, id: nat, repositoryId: string, ownerId: string): Db {
    if id !in db.sources then Ticked(db)
    else
      var s := db.sources[id];
      PutSource(db, id, s.(status := PENDING_DELEGATION,
                           pins := s.pins.(repositoryId := Some(repositoryId), ownerId := Some(ownerId))))
  }

  /** The columns `update_source` may write that the rest of the model reads. */
  datatype Edit = Edit(critical: bool, channel: string, platform: string, arch: string, tagRefPrefix: string)

  function EditedRow(s: Source, e: Edit): Source {
    s.(critical := e.critical, tagRefPrefix := e.tagRefPrefix,
       slot := s.slot.(channel := e.channel, platform := e.platform, arch := e.arch))
  }

  function UpdateSource(db: Db, id: nat, e: Edit): Result<Db, StoreError> {
    if id !in db.sources then Err(SourceGone)
    else
      var t := EditedRow(db.sources[id], e);
      if !RowAllowed(t) then Err(CheckViolation) else Ok(PutSource(db, id, t))
  }

  predicate Waiting(s: Source, appId: string) {
    s.slot.appId == appId && (s.status == PENDING_DELEGATION || s.status == PAUSED)
  }

  /** `mark_delegated` on the row it finds; `app_id` is unique. */
  function MarkDelegated(db: Db, id: nat, appId: string): Result<Db, StoreError> {
    if id !in db.sources || !Waiting(db.sources[id], appId) then Err(NotWaiting)
    else if !RowAllowed(db.sources[id].(status := ACTIVE)) then Err(CheckViolation)
    else Ok(PutSource(db, id, db.sources[id].(status := ACTIVE)))
  }

  /** `delete_source`, and its jobs with it. */
  function DeleteSource(db: Db, id: nat): Db {
    Ticked(db).(sources := db.sources - {id}, jobs := map j | j in db.jobs && db.jobs[j].source != id :: db.jobs[j])
  }

  // -------------------------------------------------------------------- jobs

  predicate HasOpen(db: Db, source: nat) {
    exists j | j in db.jobs :: db.jobs[j].source == source && Open(db.jobs[j])
  }

  /** `enqueue`: the new job is `db.now`; nothing happens when one is open, and a missing source is an error. */
  function Enqueue(db: Db, source: nat, kind: Kind, payload: PublishJob): Result<Db, StoreError> {
    if source !in db.sources then Err(ForeignKey)
    else if HasOpen(db, source) then Ok(Ticked(db))
    else Ok(Ticked(db).(jobs := db.jobs[db.now := Job(source, kind, QUEUED, payload, None, db.now, 0, 0)]))
  }

  predicate Claimable(db: Db, kinds: set<Kind>, j: nat) {
    j in db.jobs && db.jobs[j].state == QUEUED && db.jobs[j].kind in kinds
  }

  /** The oldest queued job of these kinds. */
  predicate Oldest(db: Db, kinds: set<Kind>, j: nat) {
    && Claimable(db, kinds, j)
    && forall i | i in db.jobs && Claimable(db, kinds, i) :: db.jobs[j].requestedAt <= db.jobs[i].requestedAt
  }

  function Claim(db: Db, j: nat): Db
    requires j in db.jobs
  {
    Ticked(db).(jobs := db.jobs[j := db.jobs[j].(state := RUNNING, startedAt := db.now)])
  }

  /** The row `finish_job` leaves. */
  function FinishedRow(db: Db, j: nat, state: JobState, result: Option<Record>): Job
    requires j in db.jobs
  {
    db.jobs[j].(state := state, result := result, finishedAt := db.now)
  }

  /** The unique index on open jobs stands against the row's new state. */
  predicate Reopens(db: Db, j: nat, state: JobState)
    requires j in db.jobs
  {
    Unfinished(state) && exists i | i in db.jobs && i != j :: db.jobs[i].source == db.jobs[j].source && Open(db.jobs[i])
  }

  /** `finish_job`: whatever state the row is in, if it is there. */
  function FinishJob(db: Db, j: nat, state: JobState, result: Option<Record>): Db {
    if j !in db.jobs then Ticked(db)
    else if Reopens(db, j, state) then db
    else Ticked(db).(jobs := db.jobs[j := FinishedRow(db, j, state, result)])
  }

  function Requeued(j: Job, before: nat): Job {
    if j.state == RUNNING && j.startedAt < before then j.(state := QUEUED, startedAt := 0) else j
  }

  /** `reset_stale_jobs`: of any kind. */
  function ResetStale(db: Db, before: nat): Db {
    Ticked(db).(jobs := map j | j in db.jobs :: Requeued(db.jobs[j], before))
  }

  predicate DonePoll(db: Db, source: nat, j: nat) {
    j in db.jobs && db.jobs[j].source == source && db.jobs[j].kind == POLL && db.jobs[j].state == DONE
  }

  /** `last_poll`. */
  predicate LastPoll(db: Db, source: nat, j: nat) {
    && DonePoll(db, source, j)
    && forall i | i in db.jobs && DonePoll(db, source, i) :: db.jobs[i].finishedAt <= db.jobs[j].finishedAt
  }

  // -------------------------------------------------------------- invariants

  ghost predicate OneOpenJob(db: Db) {
    forall i, j | i in db.jobs && j in db.jobs && Open(db.jobs[i]) && Open(db.jobs[j])
                  && db.jobs[i].source == db.jobs[j].source :: i == j
  }

  ghost predicate Consistent(db: Db) {
    && (forall id | id in db.sources :: id < db.now && RowAllowed(db.sources[id]))
    && (forall id, other | id in db.sources && other in db.sources
                           && db.sources[id].slot.appId == db.sources[other].slot.appId :: id == other)
    && (forall j | j in db.jobs :: j < db.now && db.jobs[j].source in db.sources && db.jobs[j].finishedAt < db.now)
  }

  /** The forge's two numeric identifiers are on record. */
  predicate Identified(s: Source) {
    s.pins.repositoryId.Some? && s.pins.ownerId.Some?
  }

  /** Only validation leads to `pending_delegation`, and it leaves the forge's identifiers behind. */
  ghost predicate PendingValidated(db: Db) {
    forall id | id in db.sources && db.sources[id].status == PENDING_DELEGATION :: Identified(db.sources[id])
  }

  ghost predicate StoreOk(db: Db) {
    OneOpenJob(db) && Consistent(db)
  }

  ghost predicate RegistryOk(db: Db) {
    StoreOk(db) && PendingValidated(db)
  }

  // ------------------------------------------------------------------- class

  /** The tables, and each function of `store` as one committed transaction on them. */
  class Store {
    var sources: map<nat, Source>
    var jobs: map<nat, Job>
    var now: nat

    constructor ()
      ensures Contents() == Db(map[], map[], 0)
    {
      sources, jobs, now := map[], map[], 0;
    }

    function Contents(): Db
      reads this
    {
      Db(sources, jobs, now)
    }

    method Add(source: Source) returns (r: Result<nat, StoreError>)
      modifies this
      ensures var t := AddSource(old(Contents()), source);
              if t.Ok? then r == Ok(old(now)) && Contents() == t.value
              else r == Err(t.error) && Contents() == old(Contents())
      ensures r.Ok? <==> && IsAppId(source.slot.appId) && source.slot.channel in {"stable", "beta", "canary"}
                         && forall id | id in old(sources) :: old(sources)[id].slot.appId != source.slot.appId
      ensures r.Ok? ==>
                && r.value == old(now) && jobs == old(jobs)
                && var pins := source.pins.(repositoryId := None, ownerId := None);
                   sources == old(sources)[r.value := source.(status := DRAFT, pins := pins)]
    {
      var row := source.(status := DRAFT, pins := source.pins.(repositoryId := None, ownerId := None));
      if !RowAllowed(row) { return Err(CheckViolation); }
      var ids := sources.Keys;
      while ids != {}
        invariant ids <= sources.Keys
        invariant forall id | id in sources.Keys - ids :: sources[id].slot.appId != source.slot.appId
        decreases ids
      {
        var id :| id in ids;
        if sources[id].slot.appId == source.slot.appId { return Err(AlreadyRegistered); }
        ids := ids - {id};
      }
      sources, now := sources[now := row], now + 1;
      r := Ok(now - 1);
    }

    method Move(id: nat, status: Status) returns (r: Result<(), StoreError>)
      modifies this
      ensures var t := SetStatus(old(Contents()), id, status);
              if t.Ok? then r == Ok(()) && Contents() == t.value else r == Err(t.error) && Contents() == old(Contents())
      ensures r.Ok? <==> status != ACTIVE
      ensures jobs == old(jobs)
      ensures sources == if status != ACTIVE && id in old(sources)
                         then old(sources)[id := old(sources)[id].(status := status)] else old(sources)
    {
      if status == ACTIVE { return Err(ActiveIsReserved); }
      if id in sources {
        sources := sources[id := sources[id].(status := status)];
      }
      now := now + 1;
      r := Ok(());
    }

    method Identify(id: nat, repositoryId: string, ownerId: string)
      modifies this
      ensures Contents() == RecordIdentity(old(Contents()), id, repositoryId, ownerId)
      ensures jobs == old(jobs) && (id !in old(sources) ==> sources == old(sources))
      ensures id in old(sources) ==>
                var s := old(sources)[id];
                sources == old(sources)[id := s.(status := PENDING_DELEGATION,
                                                 pins := s.pins.(repositoryId := Some(repositoryId),
                                                                 ownerId := Some(ownerId)))]
    {
      if id in sources {
        var s := sources[id];
        sources := sources[id := s.(status := PENDING_DELEGATION,
                                    pins := s.pins.(repositoryId := Some(repositoryId), ownerId := Some(ownerId)))];
      }
      now := now + 1;
    }

    /** `update_source`: how a source is handled, never who it is. */
    method Update(id: nat, e: Edit) returns (r: Result<(), StoreError>)
      modifies this
      ensures var t := UpdateSource(old(Contents()), id, e);
              if t.Ok? then r == Ok(()) && Contents() == t.value else r == Err(t.error) && Contents() == old(Contents())
      ensures r.Ok? ==>
                && id in old(sources) && jobs == old(jobs)
                && var s, t := old(sources)[id], sources[id];
                   && sources == old(sources)[id := t]
                   && t.slot == ChannelFields(s.slot.appId, e.channel, e.platform, e.arch)
                   && t == Source(t.slot, s.forge, s.status, e.critical, s.pins, s.projectUrl, e.tagRefPrefix)
    {
      if id !in sources { return Err(SourceGone); }
      var s := sources[id];
      var row := s.(critical := e.critical, tagRefPrefix := e.tagRefPrefix,
                    slot := s.slot.(channel := e.channel, platform := e.platform, arch := e.arch));
      if !RowAllowed(row) { return Err(CheckViolation); }
      sources, now := sources[id := row], now + 1;
      r := Ok(());
    }

    method Delegated(appId: string) returns (r: Result<nat, StoreError>)
      requires Consistent(Contents())
      modifies this
      ensures r.Ok? ==> MarkDelegated(old(Contents()), r.value, appId) == Ok(Contents())
      ensures r.Err? ==> Contents() == old(Contents()) && forall id :: MarkDelegated(old(Contents()), id, appId).Err?
      ensures r.Ok? ==>
                && r.value in old(sources) && jobs == old(jobs)
                && var s := old(sources)[r.value];
                   && s.slot.appId == appId && (s.status == PENDING_DELEGATION || s.status == PAUSED)
                   && (s.forge == GITHUB ==> s.pins.workflowUri.Some? && s.pins.issuer.Some?
                                             && s.pins.repositoryId.Some? && s.pins.ownerId.Some?)
                   && (s.forge == GITLAB ==> s.pins.builderId.Some? && s.pins.builderKeyId.Some?
                                             && s.pins.builderKey.Some?)
                   && sources == old(sources)[r.value := s.(status := ACTIVE)]
    {
      var ids := sources.Keys;
      while ids != {}
        invariant ids <= sources.Keys && Contents() == old(Contents())
        invariant forall id | id in sources.Keys - ids :: !Waiting(sources[id], appId)
        decreases ids
      {
        var id :| id in ids;
        if Waiting(sources[id], appId) {
          if !RowAllowed(sources[id].(status := ACTIVE)) { return Err(CheckViolation); }
          sources, now := sources[id := sources[id].(status := ACTIVE)], now + 1;
          return Ok(id);
        }
        ids := ids - {id};
      }
      r := Err(NotWaiting);
    }

    method Delete(id: nat)
      modifies this
      ensures Contents() == DeleteSource(old(Contents()), id)
      ensures sources == old(sources) - {id}
      ensures forall j :: j in jobs <==> j in old(jobs) && old(jobs)[j].source != id
      ensures forall j | j in jobs :: jobs[j] == old(jobs)[j]
    {
      sources, jobs, now := sources - {id}, map j | j in jobs && jobs[j].source != id :: jobs[j], now + 1;
    }

    method Queue(source: nat, kind: Kind, payload: PublishJob) returns (r: Result<Option<nat>, StoreError>)
      modifies this
      ensures var t := Enqueue(old(Contents()), source, kind, payload);
              if t.Err? then r == Err(t.error) && Contents() == old(Contents())
              else Contents() == t.value && r == Ok(if HasOpen(old(Contents()), source) then None else Some(old(now)))
      ensures r.Ok? <==> source in old(sources)
      ensures sources == old(sources) && (r.Ok? && r.value.Some? <==>
                && source in old(sources)
                && forall j | j in old(jobs) && old(jobs)[j].source == source ::
                     old(jobs)[j].state == DONE || old(jobs)[j].state == FAILED)
      ensures jobs == if r.Ok? && r.value.Some?
                      then old(jobs)[old(now) := Job(source, kind, QUEUED, payload, None, old(now), 0, 0)]
                      else old(jobs)
    {
      if source !in sources { return Err(ForeignKey); }
      var open := false;
      var ids := jobs.Keys;
      while ids != {}
        invariant ids <= jobs.Keys && Contents() == old(Contents())
        invariant open <==> exists j | j in jobs.Keys - ids :: jobs[j].source == source && Open(jobs[j])
        decreases ids
      {
        var j :| j in ids;
        ids := ids - {j};
        open := open || (jobs[j].source == source && (jobs[j].state == QUEUED || jobs[j].state == RUNNING));
      }
      if open {
        now := now + 1;
        return Ok(None);
      }
      jobs, now := jobs[now := Job(source, kind, QUEUED, payload, None, now, 0, 0)], now + 1;
      r := Ok(Some(now - 1));
    }

    /** `claim_job`: the oldest queued job of these kinds, or none. */
    method Take(kinds: set<Kind>) returns (r: Option<nat>)
      modifies this
      ensures r.Some? ==> Oldest(old(Contents()), kinds, r.value) && Contents() == Claim(old(Contents()), r.value)
      ensures r.None? ==> Contents() == old(Contents()) && forall j :: !Claimable(old(Contents()), kinds, j)
      ensures sources == old(sources)
      ensures r.None? ==>
                && jobs == old(jobs)
                && forall j | j in old(jobs) && old(jobs)[j].kind in kinds :: old(jobs)[j].state != QUEUED
      ensures r.Some? ==>
                && r.value in old(jobs) && old(jobs)[r.value].state == QUEUED && old(jobs)[r.value].kind in kinds
                && (forall j | j in old(jobs) && old(jobs)[j].state == QUEUED && old(jobs)[j].kind in kinds ::
                      old(jobs)[r.value].requestedAt <= old(jobs)[j].requestedAt)
                && jobs == old(jobs)[r.value := old(jobs)[r.value].(state := RUNNING, startedAt := old(now))]
    {
      var best: Option<nat> := None;
      var ids := jobs.Keys;
      while ids != {}
        invariant ids <= jobs.Keys && Contents() == old(Contents())
        invariant best.None? ==> forall j | j in jobs.Keys - ids :: !Claimable(Contents(), kinds, j)
        invariant best.Some? ==> Claimable(Contents(), kinds, best.value)
        invariant best.Some? ==> forall j | j in jobs.Keys - ids && Claimable(Contents(), kinds, j) ::
                                   jobs[best.value].requestedAt <= jobs[j].requestedAt
        decreases ids
      {
        var j :| j in ids;
        ids := ids - {j};
        if jobs[j].state == QUEUED && jobs[j].kind in kinds
           && (best.None? || jobs[j].requestedAt < jobs[best.value].requestedAt) {
          best := Some(j);
        }
      }
      assert forall j | j in jobs && jobs[j].state == QUEUED && jobs[j].kind in kinds ::
          Claimable(Contents(), kinds, j);
      if best.Some? {
        jobs, now := jobs[best.value := jobs[best.value].(state := RUNNING, startedAt := now)], now + 1;
      }
      r := best;
    }

    /** The index is the database's own check, made here by looking at every other row. */
    method Finish(j: nat, state: JobState, result: Option<Record>) returns (r: Result<(), StoreError>)
      modifies this
      ensures Contents() == FinishJob(old(Contents()), j, state, result)
      ensures r == if j in old(jobs) && Reopens(old(Contents()), j, state) then Err(OpenJobExists) else Ok(())
      ensures sources == old(sources) && (state == DONE || state == FAILED ==> r == Ok(()))
      ensures jobs == if r.Ok? && j in old(jobs)
                      then old(jobs)[j := old(jobs)[j].(state := state, result := result, finishedAt := old(now))]
                      else old(jobs)
    {
      if j in jobs {
        var ids := jobs.Keys;
        while ids != {}
          invariant ids <= jobs.Keys && Contents() == old(Contents())
          invariant !exists i | i in jobs.Keys - ids && i != j ::
                      jobs[i].source == jobs[j].source && Open(jobs[i]) && Unfinished(state)
          decreases ids
        {
          var i :| i in ids;
          ids := ids - {i};
          if i != j && jobs[i].source == jobs[j].source && Open(jobs[i]) && Unfinished(state) {
            return Err(OpenJobExists);
          }
        }
        jobs := jobs[j := jobs[j].(state := state, result := result, finishedAt := now)];
      }
      now := now + 1;
      r := Ok(());
    }

    method Reset(before: nat)
      modifies this
      ensures Contents() == ResetStale(old(Contents()), before)
      ensures sources == old(sources) && jobs.Keys == old(jobs).Keys
      ensures forall j | j in jobs && old(jobs)[j].state == RUNNING && old(jobs)[j].startedAt < before ::
                jobs[j] == old(jobs)[j].(state := QUEUED, startedAt := 0)
      ensures forall j | j in jobs && !(old(jobs)[j].state == RUNNING && old(jobs)[j].startedAt < before) ::
                jobs[j] == old(jobs)[j]
    {
      var ids := jobs.Keys;
      ghost var start := jobs;
      while ids != {}
        invariant ids <= jobs.Keys == start.Keys && sources == old(sources) && now == old(now)
        invariant forall j | j in start :: jobs[j] == if j in ids then start[j] else Requeued(start[j], before)
        decreases ids
      {
        var j :| j in ids;
        ids := ids - {j};
        if jobs[j].state == RUNNING && jobs[j].startedAt < before {
          jobs := jobs[j := jobs[j].(state := QUEUED, startedAt := 0)];
        }
      }
      now := now + 1;
    }
  }
}

/** What every transaction of the registry keeps. */
module RegistrySafety {
  import opened Text
  import opened Metadata
  import opened Registry

  /** Every write either service makes, at the grain of one committed transaction. */
  datatype Write =
    | Add(source: Source)
    | Move(id: nat, status: Status)
    | Identify(id: nat, repositoryId: string, ownerId: string)
    | Edited(id: nat, edit: Edit)
    | Delegated(id: nat, appId: string)
    | Delete(id: nat)
    | Queue(owner: nat, kind: Kind, payload: PublishJob)
    | Take(kinds: set<Kind>, job: nat)
    | Finish(job: nat, state: JobState, result: Option<Record>)
    | Reset(before: nat)

  function OrSame(db: Db, r: Result<Db, StoreError>): Db {
    if r.Ok? then r.value else db
  }

  function Apply(db: Db, w: Write): Db {
    match w
    case Add(s) => OrSame(db, AddSource(db, s))
    case Move(id, status) => OrSame(db, SetStatus(db, id, status))
    case Identify(id, r, o) => RecordIdentity(db, id, r, o)
    case Edited(id, e) => OrSame(db, UpdateSource(db, id, e))
    case Delegated(id, appId) => OrSame(db, MarkDelegated(db, id, appId))
    case Delete(id) => DeleteSource(db, id)
    case Queue(s, kind, payload) => OrSame(db, Enqueue(db, s, kind, payload))
    case Take(kinds, j) => if Oldest(db, kinds, j) then Claim(db, j) else db
    case Finish(j, state, result) => FinishJob(db, j, state, result)
    case Reset(before) => ResetStale(db, before)
  }

  lemma PutKeeps(db: Db, id: nat, s: Source)
    requires StoreOk(db) && id in db.sources && RowAllowed(s) && s.slot.appId == db.sources[id].slot.appId
    ensures StoreOk(PutSource(db, id, s))
  {
    hide RowAllowed, Open;
  }

  lemma TickKeeps(db: Db)
    requires StoreOk(db)
    ensures StoreOk(Ticked(db))
  {
    hide RowAllowed, Open;
  }

  lemma AddKeeps(db: Db, s: Source)
    requires StoreOk(db) && AddSource(db, s).Ok?
    ensures StoreOk(AddSource(db, s).value)
  {
    hide RowAllowed, Open;
  }

  lemma DeleteKeeps(db: Db, id: nat)
    requires StoreOk(db)
    ensures StoreOk(DeleteSource(db, id))
  {
    hide RowAllowed, Open;
  }

  lemma SourceWriteKeeps(db: Db, w: Write)
    requires StoreOk(db) && (w.Add? || w.Move? || w.Identify? || w.Edited? || w.Delegated? || w.Delete?)
    ensures StoreOk(Apply(db, w))
  {
    TickKeeps(db);
    match w {
      case Add(s) => hide StoreOk; if AddSource(db, s).Ok? { AddKeeps(db, s); }
      case Delete(id) => DeleteKeeps(db, id);
      case Move(id, status) =>
        if id in db.sources && status != ACTIVE { PutKeeps(db, id, db.sources[id].(status := status)); }
      case Identify(id, r, o) =>
        if id in db.sources {
          var s := db.sources[id];
          PutKeeps(db, id,
                   s.(status := PENDING_DELEGATION, pins := s.pins.(repositoryId := Some(r), ownerId := Some(o))));
        }
      case Edited(id, e) =>
        if id in db.sources && UpdateSource(db, id, e).Ok? { PutKeeps(db, id, EditedRow(db.sources[id], e)); }
      case Delegated(id, appId) =>
        if MarkDelegated(db, id, appId).Ok? { PutKeeps(db, id, db.sources[id].(status := ACTIVE)); }
    }
  }

  /** A job row changed without opening it beside another. */
  lemma JobPutKeeps(db: Db, j: nat, row: Job)
    requires StoreOk(db) && j in db.jobs && row.source == db.jobs[j].source && row.finishedAt <= db.now
    requires Open(row) ==> Open(db.jobs[j]) || !Reopens(db, j, QUEUED)
    ensures StoreOk(Ticked(db).(jobs := db.jobs[j := row]))
  {
    hide RowAllowed;
  }

  lemma QueueKeeps(db: Db, source: nat, kind: Kind, payload: PublishJob)
    requires StoreOk(db) && Enqueue(db, source, kind, payload).Ok?
    ensures StoreOk(Enqueue(db, source, kind, payload).value)
  {
    hide RowAllowed;
  }

  lemma ResetKeeps(db: Db, before: nat)
    requires StoreOk(db)
    ensures StoreOk(ResetStale(db, before))
  {
    hide RowAllowed;
    var t := ResetStale(db, before);
    assert forall j | j in t.jobs ::
        && t.jobs[j].source == db.jobs[j].source
        && (Open(t.jobs[j]) <==> Open(db.jobs[j]))
        && t.jobs[j].finishedAt == db.jobs[j].finishedAt;
  }

  lemma JobWriteKeeps(db: Db, w: Write)
    requires StoreOk(db) && (w.Queue? || w.Take? || w.Finish? || w.Reset?)
    ensures StoreOk(Apply(db, w))
  {
    hide StoreOk;
    TickKeeps(db);
    match w {
      case Queue(s, kind, payload) =>
        if Enqueue(db, s, kind, payload).Ok? { QueueKeeps(db, s, kind, payload); }
      case Take(kinds, j) =>
        if Oldest(db, kinds, j) { TakeKeeps(db, j); }
      case Finish(j, state, result) =>
        if j in db.jobs { FinishKeeps(db, j, state, result); }
      case Reset(before) => ResetKeeps(db, before);
    }
  }

  lemma TakeKeeps(db: Db, j: nat)
    requires StoreOk(db) && j in db.jobs && db.jobs[j].state == QUEUED
    ensures StoreOk(Claim(db, j))
  {
    JobPutKeeps(db, j, db.jobs[j].(state := RUNNING, startedAt := db.now));
  }

  lemma FinishKeeps(db: Db, j: nat, state: JobState, result: Option<Record>)
    requires StoreOk(db) && j in db.jobs
    ensures StoreOk(FinishJob(db, j, state, result))
  {
    if !Reopens(db, j, state) {
      JobPutKeeps(db, j, db.jobs[j].(state := state, result := result, finishedAt := db.now));
    }
  }

  /** Every transaction, whoever makes it and whenever: one open job per source, and every row within the schema. */
  lemma EveryWriteKeeps(db: Db, w: Write)
    requires StoreOk(db)
    ensures StoreOk(Apply(db, w))
  {
    hide StoreOk, Apply;
    if w.Queue? || w.Take? || w.Finish? || w.Reset? {
      JobWriteKeeps(db, w);
    } else {
      SourceWriteKeeps(db, w);
    }
  }

  /** The one write that pends a source nobody validated: `set_status` accepts it, and no service makes it. */
  predicate PendsUnvalidated(db: Db, w: Write) {
    w.Move? && w.status == PENDING_DELEGATION && w.id in db.sources && !Identified(db.sources[w.id])
  }

  /** Pending means validated, exactly until somebody sets that status by hand. */
  lemma PendingStaysValidatedIff(db: Db, w: Write)
    requires StoreOk(db) && PendingValidated(db)
    ensures PendingValidated(Apply(db, w)) <==> !PendsUnvalidated(db, w)
  {
    hide RowAllowed, HasOpen, Oldest, Open, Registered, Waiting, OneOpenJob;
    if PendsUnvalidated(db, w) {
      assert Apply(db, w).sources[w.id].status == PENDING_DELEGATION;
    }
  }

  /** What the callers in this system ask for. */
  predicate Asked(w: Write) {
    w.Move? ==> w.status != PENDING_DELEGATION
  }

  lemma AskedKeeps(db: Db, w: Write)
    requires RegistryOk(db) && Asked(w)
    ensures RegistryOk(Apply(db, w))
  {
    hide StoreOk, PendingValidated, Apply;
    EveryWriteKeeps(db, w);
    PendingStaysValidatedIff(db, w);
  }

  /** Status can step into ACTIVE only through `mark_delegated`. */
  lemma OnlyDelegationActivates(db: Db, w: Write, id: nat)
    requires id in Apply(db, w).sources && Apply(db, w).sources[id].status == ACTIVE
    requires !(id in db.sources && db.sources[id].status == ACTIVE)
    ensures w.Delegated? && w.id == id && id in db.sources && Waiting(db.sources[id], w.appId)
  {
    hide RowAllowed, HasOpen, Oldest, Open, Registered;
  }

  /** Validated: the worker has written what the forge reported. Nothing else does. */
  predicate Validated(s: Source) {
    s.pins.repositoryId.Some?
  }

  lemma OnlyValidationIdentifies(db: Db, w: Write, id: nat)
    requires id in Apply(db, w).sources && Validated(Apply(db, w).sources[id])
    requires !(id in db.sources && Validated(db.sources[id]))
    ensures w.Identify? && w.id == id
  {
    hide RowAllowed, HasOpen, Oldest, Open, Registered, Waiting;
  }

  /**
   An activation skips validation exactly when it takes a GitLab source out of `paused` that was never
   validated but has its builder key: neither the status test nor the schema stops that one.
   */
  lemma ActivationSkipsValidation(db: Db, id: nat, appId: string)
    requires RegistryOk(db) && id in db.sources
    ensures MarkDelegated(db, id, appId).Ok? && !Validated(db.sources[id])
       <==> var s := db.sources[id];
            && s.slot.appId == appId && s.status == PAUSED && s.forge == GITLAB && !Validated(s)
            && s.pins.builderId.Some? && s.pins.builderKeyId.Some? && s.pins.builderKey.Some?
  {
  }

  /** And that state is one an operator can reach: register, pause. */
  lemma DraftCanBePaused(source: Source)
    requires RowAllowed(Draft(source)) && source.forge == GITLAB && ActiveAllowed(source)
    ensures var db := Apply(Apply(Db(map[], map[], 0), Add(source)), Move(0, PAUSED));
            && MarkDelegated(db, 0, source.slot.appId).Ok?
            && !Validated(MarkDelegated(db, 0, source.slot.appId).value.sources[0])
  {
  }
}

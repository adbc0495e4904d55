/**
 `run_job` and `tick` of both workers, run without interruption against the store and the repository.
 What may interrupt or interleave with them is the subject of `Pipeline`.
 */
module Workers {
  import opened Text
  import opened Metadata
  import opened Registry
  import opened RegistrySafety
  import P = Publisher
  import Publication
  import Signer

  /** What the forge and the ingestion policy made of the job in hand. */
  datatype Work = Validated(repositoryId: string, ownerId: string) | Polled(record: Record) | Raised

  /** `_hand_off_to_signer`. */
  function HandOff(db: Db, kind: Kind, source: nat, record: Record): Db {
    if kind == POLL && record.promoted then OrSame(db, Enqueue(db, source, PUBLISH, record.artifact)) else db
  }

  /** A failure filed, and the source marked if it was a validation. */
  function Failed(db: Db, id: nat, kind: Kind, source: nat): Db {
    var t := FinishJob(db, id, FAILED, None);
    if kind == VALIDATE then OrSame(t, SetStatus(t, source, INVALID)) else t
  }

  /** The ingest worker's `run_job` on a claimed job. */
  function Ingested(db: Db, id: nat, work: Work): Db
    requires id in db.jobs
  {
    var job := db.jobs[id];
    if job.source !in db.sources then FinishJob(db, id, FAILED, None)
    else if work.Raised? || (job.kind == VALIDATE) != work.Validated?
            || (job.kind != VALIDATE && db.sources[job.source].status != ACTIVE)
    then Failed(db, id, job.kind, job.source)
    else if work.Validated?
    then FinishJob(RecordIdentity(db, job.source, work.repositoryId, work.ownerId), id, DONE, Some(NO_RECORD))
    else HandOff(FinishJob(db, id, DONE, Some(work.record)), job.kind, job.source, work.record)
  }

  /** Publish job `j`, of this payload, is the source's one open job. */
  ghost predicate OnlyOpen(db: Db, source: nat, j: nat, payload: PublishJob) {
    && j in db.jobs && db.jobs[j] == Job(source, PUBLISH, QUEUED, payload, None, j, 0, 0)
    && forall i | i in db.jobs && db.jobs[i].source == source && Open(db.jobs[i]) :: i == j
  }

  /** After a promoting poll, what runs is exactly: file the poll, then queue the publish. */
  lemma PromotionRuns(db: Db, id: nat, record: Record)
    requires id in db.jobs && db.jobs[id].kind == POLL && record.promoted
    requires db.jobs[id].source in db.sources && db.sources[db.jobs[id].source].status == ACTIVE
    ensures Ingested(db, id, Polled(record)) == OrSame(FinishJob(db, id, DONE, Some(record)),
              Enqueue(FinishJob(db, id, DONE, Some(record)), db.jobs[id].source, PUBLISH, record.artifact))
  {
  }

  /** The only open job a source has after its poll is filed is the publish its promotion queued. */
  lemma PromotionIsQueued(db: Db, id: nat, record: Record)
    requires StoreOk(db) && id in db.jobs && db.jobs[id].kind == POLL && db.jobs[id].state == RUNNING
    requires record.promoted
    requires db.jobs[id].source in db.sources && db.sources[db.jobs[id].source].status == ACTIVE
    ensures db.now + 1 !in db.jobs
    ensures OnlyOpen(Ingested(db, id, Polled(record)), db.jobs[id].source, db.now + 1, record.artifact)
  {
    hide StoreOk, HasOpen, FinishJob, Ingested, Enqueue, OnlyOpen, OrSame;
    var filed := FinishJob(db, id, DONE, Some(record));
    FinishKeeps(db, id, DONE, Some(record));
    FiledIsClosed(db, id, record);
    FiledKeepsIds(db, id, DONE, Some(record));
    PromotionRuns(db, id, record);
    QueuedIsAlone(filed, db.jobs[id].source, record.artifact);
  }

  lemma FiledKeepsIds(db: Db, id: nat, state: JobState, result: Option<Record>)
    requires !Unfinished(state)
    ensures FinishJob(db, id, state, result).sources == db.sources
    ensures FinishJob(db, id, state, result).jobs.Keys == db.jobs.Keys
    ensures FinishJob(db, id, state, result).now == db.now + 1
  {
  }

  lemma QueuedIsAlone(db: Db, source: nat, payload: PublishJob)
    requires StoreOk(db) && source in db.sources && !HasOpen(db, source)
    ensures db.now !in db.jobs
    ensures OnlyOpen(OrSame(db, Enqueue(db, source, PUBLISH, payload)), source, db.now, payload)
  {
    hide OneOpenJob, RowAllowed, Open;
  }

  lemma FiledIsClosed(db: Db, id: nat, record: Record)
    requires StoreOk(db) && id in db.jobs && Open(db.jobs[id])
    ensures !HasOpen(FinishJob(db, id, DONE, Some(record)), db.jobs[id].source)
  {
    hide Consistent;
  }

  predicate Elsewhere(db: Db, id: nat)
    requires id in db.jobs
  {
    exists j | j in db.jobs && j != id ::
      db.jobs[j].source == db.jobs[id].source && (db.jobs[j].state == QUEUED || db.jobs[j].state == RUNNING)
  }

  /** Validated: the source is there, and the forge answered. */
  predicate WasValidated(db: Db, id: nat, work: Work)
    requires id in db.jobs
  {
    db.jobs[id].source in db.sources && db.jobs[id].kind == VALIDATE && work.Validated?
  }

  /** Polled: the source is there and active, and the poll came to a record. */
  predicate WasPolled(db: Db, id: nat, work: Work)
    requires id in db.jobs
  {
    && db.jobs[id].source in db.sources && db.jobs[id].kind != VALIDATE && work.Polled?
    && db.sources[db.jobs[id].source].status == ACTIVE
  }

  /** The poll was of a kind that is handed on, promoted, and its source has nothing else open. */
  predicate HandsOn(db: Db, id: nat, work: Work)
    requires id in db.jobs
  {
    WasPolled(db, id, work) && db.jobs[id].kind == POLL && work.record.promoted && !Elsewhere(db, id)
  }

  /** What the job's own row says afterwards. */
  predicate FiledAs(db: Db, id: nat, row: Job, state: JobState, result: Option<Record>)
    requires id in db.jobs
  {
    var job := db.jobs[id];
    && row == Job(job.source, job.kind, state, job.payload, result, job.requestedAt, job.startedAt, row.finishedAt)
    && db.now <= row.finishedAt <= db.now + 1
  }

  /** What the ingest worker makes of a job, row by row. */
  ghost predicate IngestSettled(db: Db, id: nat, work: Work, t: Db)
    requires id in db.jobs
  {
    var job := db.jobs[id];
    && t.jobs.Keys == db.jobs.Keys + (if HandsOn(db, id, work) then {db.now + 1} else {})
    && (HandsOn(db, id, work) ==>
          t.jobs[db.now + 1] == Job(job.source, PUBLISH, QUEUED, work.record.artifact, None, db.now + 1, 0, 0))
    && (forall j | j in db.jobs && j != id :: t.jobs[j] == db.jobs[j])
    && (WasValidated(db, id, work) ==>
          && t.sources == db.sources[job.source := Pending(db.sources[job.source], work)]
          && FiledAs(db, id, t.jobs[id], DONE, Some(Record("", None, false, NO_PAYLOAD))))
    && (WasPolled(db, id, work) ==>
          t.sources == db.sources && FiledAs(db, id, t.jobs[id], DONE, Some(work.record)))
    && (!WasValidated(db, id, work) && !WasPolled(db, id, work) ==>
          && FiledAs(db, id, t.jobs[id], FAILED, None)
          && t.sources == if job.source in db.sources && job.kind == VALIDATE
                          then db.sources[job.source := db.sources[job.source].(status := INVALID)] else db.sources)
  }

  lemma OpenElsewhere(db: Db, id: nat, record: Record)
    requires id in db.jobs
    ensures HasOpen(FinishJob(db, id, DONE, Some(record)), db.jobs[id].source) <==> Elsewhere(db, id)
  {
    var filed := FinishJob(db, id, DONE, Some(record));
    assert filed.jobs.Keys == db.jobs.Keys && !Open(filed.jobs[id]);
    assert forall j | j in db.jobs && j != id :: filed.jobs[j] == db.jobs[j];
    if j :| j in db.jobs && j != id && db.jobs[j].source == db.jobs[id].source && Open(db.jobs[j]) {
      assert Open(filed.jobs[j]);
    }
  }

  lemma PolledMeans(db: Db, id: nat, work: Work)
    requires db.now + 1 !in db.jobs && id in db.jobs && WasPolled(db, id, work)
    ensures IngestSettled(db, id, work, Ingested(db, id, work))
  {
    OpenElsewhere(db, id, work.record);
    hide HasOpen, Elsewhere;
  }

  lemma OthersMean(db: Db, id: nat, work: Work)
    requires id in db.jobs && !WasPolled(db, id, work)
    ensures IngestSettled(db, id, work, Ingested(db, id, work))
  {
    hide Elsewhere;
  }

  /**
   It is done exactly when its source is there and it was validated, or polled while active; failed otherwise. A
   validation leaves its source pending with the forge's identifiers, or invalid; a poll leaves it alone. A
   promoted poll queues the publish of its own artifact, if the source has nothing else open. Every other row of
   either table is as it was.
   */
  lemma IngestedMeans(db: Db, id: nat, work: Work)
    requires StoreOk(db) && id in db.jobs
    ensures IngestSettled(db, id, work, Ingested(db, id, work))
  {
    hide Ingested, IngestSettled, WasPolled, OneOpenJob, RowAllowed;
    assert db.now + 1 !in db.jobs;
    if WasPolled(db, id, work) { PolledMeans(db, id, work); } else { OthersMean(db, id, work); }
  }

  function Pending(row: Source, work: Work): Source
    requires work.Validated?
  {
    row.(status := PENDING_DELEGATION,
         pins := row.pins.(repositoryId := Some(work.repositoryId), ownerId := Some(work.ownerId)))
  }

  /** The process that holds the forge credential. */
  class IngestWorker {
    const store: Store

    constructor (store: Store)
      ensures this.store == store
    {
      this.store := store;
    }

    method RunJob(id: nat, work: Work)
      requires id in store.jobs
      modifies store
      ensures store.Contents() == Ingested(old(store.Contents()), id, work)
      ensures StoreOk(old(store.Contents())) ==> IngestSettled(old(store.Contents()), id, work, store.Contents())
    {
      hide StoreOk, IngestSettled;
      if StoreOk(store.Contents()) { IngestedMeans(store.Contents(), id, work); }
      var job := store.jobs[id];
      if job.source !in store.sources {
        var _ := store.Finish(id, FAILED, None);
        return;
      }
      var source := store.sources[job.source];
      if job.kind == VALIDATE && work.Validated? {
        store.Identify(job.source, work.repositoryId, work.ownerId);
        var _ := store.Finish(id, DONE, Some(NO_RECORD));
      } else if job.kind != VALIDATE && source.status == ACTIVE && work.Polled? {
        var _ := store.Finish(id, DONE, Some(work.record));
        if job.kind == POLL && work.record.promoted {
          var _ := store.Queue(job.source, PUBLISH, work.record.artifact);
        }
      } else {
        var _ := store.Finish(id, FAILED, None);
        if job.kind == VALIDATE {
          var _ := store.Move(job.source, INVALID);
        }
      }
    }
  }

  /** How the signer's `run_job` files a job. */
  function Filed(db: Db, id: nat, error: Option<Signer.SignError>): Db {
    if error.None? then FinishJob(db, id, DONE, Some(NO_RECORD)) else FinishJob(db, id, FAILED, None)
  }

  /** What running publish job `id` does to the tables and to the repository. */
  ghost predicate RanPublish(backend: P.Backend, db: Db, s: P.State, quarantine: Signer.Quarantine, id: nat, db': Db,
                             s': P.State)
    requires id in db.jobs
  {
    var job := db.jobs[id];
    if job.source !in db.sources then db' == FinishJob(db, id, FAILED, None) && s' == s
    else
      var run := Signer.PublishRun(backend, s, quarantine, db.sources[job.source].slot, job.payload);
      db' == Filed(db, id, run.error) && s' == Signer.Last(run)
  }

  /** The publish can be made: its source is there, its job in order, and the application's key in the store. */
  predicate CanPublish(backend: P.Backend, db: Db, s: P.State, quarantine: Signer.Quarantine, id: nat)
    requires id in db.jobs
  {
    var job := db.jobs[id];
    && job.source in db.sources && Signer.Publishable(s, quarantine, db.sources[job.source].slot, job.payload)
    && P.KeyIds(backend, "app-" + db.sources[job.source].slot.appId) != {}
  }

  /**
   A publish job is done exactly when it can be made, and failed otherwise; done means that its source's release
   is listed and its pointer moved, failed that no document was touched. No other row changes.
   */
  ghost predicate Settled(backend: P.Backend, db: Db, s: P.State, quarantine: Signer.Quarantine, id: nat, db': Db,
                          s': P.State)
    requires id in db.jobs
  {
    var job, done := db.jobs[id], CanPublish(backend, db, s, quarantine, id);
    && db'.sources == db.sources
    && db'.jobs == db.jobs[id := Job(job.source, job.kind, if done then DONE else FAILED, job.payload,
                                     if done then Some(Record("", None, false, NO_PAYLOAD)) else None,
                                     job.requestedAt, job.startedAt, db.now)]
    && if done
       then Signer.Published(s, s', db.sources[job.source].slot, job.payload, quarantine[job.payload.sha256.value])
       else s'.disk.files == s.disk.files && s'.memory == s.memory
  }

  /** From any ready repository, with the signer's own keys. */
  lemma PublishIsSettled(backend: P.Backend, ring: P.Backend, db: Db, s: P.State, quarantine: Signer.Quarantine,
                         id: nat, db': Db, s': P.State)
    requires id in db.jobs && RanPublish(backend, db, s, quarantine, id, db', s')
    requires Publication.Ready(ring, s) && Signer.SignerHolds(backend, ring)
    ensures Settled(backend, db, s, quarantine, id, db', s')
  {
    FiledMeans(db, id);
    hide Signer.PublishRun, Signer.Publishable, Signer.SignerHolds, Publication.Ready, P.KeyIds, Signer.Published,
         Filed, FinishJob;
    var job := db.jobs[id];
    if job.source in db.sources {
      var slot := db.sources[job.source].slot;
      Signer.PublishesExactly(backend, ring, s, quarantine, slot, job.payload);
      if CanPublish(backend, db, s, quarantine, id) {
        Signer.JobPublishes(backend, ring, s, quarantine, slot, job.payload);
      } else {
        Signer.FailedJobListsNothing(backend, ring, s, quarantine, slot, job.payload);
      }
    }
  }

  lemma FiledMeans(db: Db, id: nat)
    requires id in db.jobs
    ensures forall error :: Filed(db, id, error).sources == db.sources
    ensures forall error :: Filed(db, id, error).jobs == db.jobs[id := db.jobs[id].(
              state := if error.None? then DONE else FAILED, result := if error.None? then Some(NO_RECORD) else None,
              finishedAt := db.now)]
    ensures FinishJob(db, id, FAILED, None).sources == db.sources
    ensures FinishJob(db, id, FAILED, None).jobs
         == db.jobs[id := db.jobs[id].(state := FAILED, result := None, finishedAt := db.now)]
  {
  }

  /** The signing worker's pass over the queue. */
  class SigningPass {
    const store: Store
    const signer: Signer.SigningWorker

    constructor (store: Store, signer: Signer.SigningWorker)
      ensures this.store == store && this.signer == signer
    {
      this.store, this.signer := store, signer;
    }

    method RunJob(id: nat, quarantine: Signer.Quarantine)
      requires id in store.jobs && signer.repo.Valid()
      modifies store, signer.repo, signer.repo.directory
      ensures signer.repo.Valid()
      ensures RanPublish(signer.repo.backend, old(store.Contents()), old(signer.repo.State()), quarantine, id,
                         store.Contents(), signer.repo.State())
      ensures forall ring | Publication.Ready(ring, old(signer.repo.State()))
                            && Signer.SignerHolds(signer.repo.backend, ring) ::
                Settled(signer.repo.backend, old(store.Contents()), old(signer.repo.State()), quarantine, id,
                        store.Contents(), signer.repo.State())
    {
      hide Signer.PublishRun, Settled, Publication.Ready, Signer.SignerHolds;
      ghost var db, s := store.Contents(), signer.repo.State();
      var job := store.jobs[id];
      if job.source !in store.sources {
        var _ := store.Finish(id, FAILED, None);
      } else {
        var error := signer.DoPublish(quarantine, store.sources[job.source].slot, job.payload);
        if error.None? {
          var _ := store.Finish(id, DONE, Some(NO_RECORD));
        } else {
          var _ := store.Finish(id, FAILED, None);
        }
      }
      assert RanPublish(signer.repo.backend, db, s, quarantine, id, store.Contents(), signer.repo.State());
      forall ring | Publication.Ready(ring, s) && Signer.SignerHolds(signer.repo.backend, ring)
        ensures Settled(signer.repo.backend, db, s, quarantine, id, store.Contents(), signer.repo.State())
      {
        PublishIsSettled(signer.repo.backend, ring, db, s, quarantine, id, store.Contents(), signer.repo.State());
      }
    }

    /** `tick`: requeue the stale, take the oldest publish, run it. */
    method Tick(before: nat, quarantine: Signer.Quarantine) returns (worked: bool)
      requires signer.repo.Valid()
      modifies store, signer.repo, signer.repo.directory
      ensures signer.repo.Valid()
      ensures !worked ==> && store.Contents() == ResetStale(old(store.Contents()), before)
                          && (forall j :: !Claimable(store.Contents(), {PUBLISH}, j))
                          && signer.repo.State() == old(signer.repo.State())
      ensures worked ==> exists j :: var db := ResetStale(old(store.Contents()), before);
                          && Oldest(db, {PUBLISH}, j)
                          && RanPublish(signer.repo.backend, Claim(db, j), old(signer.repo.State()), quarantine, j,
                                        store.Contents(), signer.repo.State())
    {
      hide Signer.PublishRun, P.AddRelease, P.SetCurrent;
      store.Reset(before);
      ghost var db := store.Contents();
      var job := store.Take({PUBLISH});
      if job.None? { return false; }
      assert Oldest(db, {PUBLISH}, job.value);
      RunJob(job.value, quarantine);
      worked := true;
    }
  }
}

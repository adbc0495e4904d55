/**
 One application's way through the whole system, beside whatever else the registry and the repository hold:
 registered, validated, delegated, polled, published, and told to its clients.
 */
module Lifecycle {
  import opened Text
  import opened Naming
  import opened Metadata
  import opened Registry
  import opened RegistrySafety
  import opened Workers
  import P = Publisher
  import Publication
  import Releases
  import Offers
  import U = UpdateCheck
  import Signer

  const INGEST_KINDS := {VALIDATE, POLL}

  /** The source's row, and no job of it open. */
  ghost predicate Rests(db: Db, id: nat, row: Source) {
    StoreOk(db) && id in db.sources && db.sources[id] == row && !HasOpen(db, id)
  }

  /** Nothing is waiting for a worker. */
  ghost predicate Drained(db: Db) {
    forall j | j in db.jobs :: db.jobs[j].state != QUEUED
  }

  // ------------------------------------------------------------- one job at a time

  /** Queueing a job, and a worker of these kinds claiming it. */
  function Claimed(db: Db, id: nat, kinds: set<Kind>, kind: Kind): Db {
    Apply(Apply(db, Queue(id, kind, NO_PAYLOAD)), Take(kinds, db.now))
  }

  lemma FreshId(db: Db)
    requires StoreOk(db)
    ensures db.now !in db.jobs && db.now !in db.sources
  {
    hide OneOpenJob, RowAllowed;
  }

  lemma QueuesOne(db: Db, id: nat, row: Source, kind: Kind)
    requires Rests(db, id, row)
    ensures Apply(db, Queue(id, kind, NO_PAYLOAD))
         == Db(db.sources, db.jobs[db.now := Job(id, kind, QUEUED, NO_PAYLOAD, None, db.now, 0, 0)], db.now + 1)
  {
    hide StoreOk, HasOpen;
  }

  lemma TakesOnly(db: Db, j: nat, kinds: set<Kind>)
    requires j in db.jobs && db.jobs[j].state == QUEUED && db.jobs[j].kind in kinds
    requires forall i | i in db.jobs && i != j :: db.jobs[i].state != QUEUED
    ensures Apply(db, Take(kinds, j))
         == Db(db.sources, db.jobs[j := db.jobs[j].(state := RUNNING, startedAt := db.now)], db.now + 1)
  {
    assert Oldest(db, kinds, j);
  }

  lemma AloneInSource(db: Db, id: nat, row: Source, t: Db)
    requires Rests(db, id, row) && db.now in t.jobs && t.jobs[db.now].source == id
    requires t.jobs == db.jobs[db.now := t.jobs[db.now]] && db.now !in db.jobs
    ensures !Elsewhere(t, db.now)
  {
    forall j | j in t.jobs && j != db.now && t.jobs[j].source == id ensures !Open(t.jobs[j]) {
      assert j in db.jobs && t.jobs[j] == db.jobs[j];
    }
    hide StoreOk, HasOpen;
  }

  lemma ClaimsNew(db: Db, id: nat, row: Source, kinds: set<Kind>, kind: Kind)
    requires Rests(db, id, row) && Drained(db) && kind in kinds
    ensures var t := Claimed(db, id, kinds, kind);
            && StoreOk(t) && db.now !in db.jobs && !Elsewhere(t, db.now) && Drained(t)
            && t == Db(db.sources, db.jobs[db.now := Job(id, kind, RUNNING, NO_PAYLOAD, None, db.now, db.now + 1, 0)],
                       db.now + 2)
  {
    var queued := Apply(db, Queue(id, kind, NO_PAYLOAD));
    assert StoreOk(db) by { hide StoreOk; }
    hide Apply, StoreOk, Oldest, Elsewhere, HasOpen;
    EveryWriteKeeps(db, Queue(id, kind, NO_PAYLOAD));
    EveryWriteKeeps(queued, Take(kinds, db.now));
    FreshId(db);
    QueuesOne(db, id, row, kind);
    TakesOnly(queued, db.now, kinds);
    hide Rests;
    AloneInSource(db, id, row, Claimed(db, id, kinds, kind));
  }

  /** A running job alone in its source leaves the source at rest once it is filed. */
  lemma RestsAfter(db: Db, j: nat, t: Db, row: Source)
    requires StoreOk(t) && j in db.jobs && !Elsewhere(db, j) && t.jobs.Keys == db.jobs.Keys
    requires forall i | i in db.jobs && i != j :: t.jobs[i] == db.jobs[i]
    requires t.jobs[j].source == db.jobs[j].source && !Open(t.jobs[j])
    requires db.jobs[j].source in t.sources && t.sources[db.jobs[j].source] == row
    ensures Rests(t, db.jobs[j].source, row)
  {
    hide StoreOk;
  }

  lemma IngestedKeeps(db: Db, id: nat, work: Work)
    requires StoreOk(db) && id in db.jobs
    ensures StoreOk(Ingested(db, id, work))
  {
    hide StoreOk, RecordIdentity, FinishJob, Enqueue, SetStatus, OrSame;
    var job := db.jobs[id];
    FinishKeeps(db, id, FAILED, None);
    var failed := FinishJob(db, id, FAILED, None);
    EveryWriteKeeps(failed, Move(job.source, INVALID));
    if work.Validated? {
      EveryWriteKeeps(db, Identify(job.source, work.repositoryId, work.ownerId));
      var identified := RecordIdentity(db, job.source, work.repositoryId, work.ownerId);
      EveryWriteKeeps(identified, Finish(id, DONE, Some(NO_RECORD)));
    }
    if work.Polled? {
      FinishKeeps(db, id, DONE, Some(work.record));
      EveryWriteKeeps(FinishJob(db, id, DONE, Some(work.record)), Queue(job.source, PUBLISH, work.record.artifact));
    }
  }

  // ------------------------------------------------------------------- the steps

  /** `add_source` on a row the schema allows and an application nobody registered. */
  lemma Registers(db: Db, row: Source)
    requires StoreOk(db) && Drained(db) && RowAllowed(row) && row.status == DRAFT
    requires row.pins.repositoryId.None? && row.pins.ownerId.None?
    requires forall id | id in db.sources :: db.sources[id].slot.appId != row.slot.appId
    ensures var t := Apply(db, Add(row));
            Rests(t, db.now, row) && Drained(t) && t.sources == db.sources[db.now := row] && t.jobs == db.jobs
  {
    EveryWriteKeeps(db, Add(row));
    FreshId(db);
    assert Draft(row) == row;
    assert forall j | j in db.jobs :: db.jobs[j].source in db.sources;
    hide RowAllowed, Open, OneOpenJob;
  }

  lemma SettledValidation(db: Db, j: nat, work: Work, t: Db)
    requires j in db.jobs && IngestSettled(db, j, work, t) && WasValidated(db, j, work) && Drained(db)
    ensures t.sources == db.sources[db.jobs[j].source := Pending(db.sources[db.jobs[j].source], work)]
    ensures t.jobs.Keys == db.jobs.Keys && t.jobs[j].source == db.jobs[j].source && !Open(t.jobs[j]) && Drained(t)
    ensures forall i | i in db.jobs && i != j :: t.jobs[i] == db.jobs[i]
  {
    hide Elsewhere, Pending;
    assert !HandsOn(db, j, work);
  }

  lemma SettledPromotion(db: Db, j: nat, record: Record, t: Db)
    requires j in db.jobs && IngestSettled(db, j, Polled(record), t) && HandsOn(db, j, Polled(record)) && Drained(db)
    ensures t.sources == db.sources && db.now + 1 in t.jobs
    ensures t.jobs[db.now + 1]
         == Job(db.jobs[j].source, PUBLISH, QUEUED, record.artifact, None, db.now + 1, 0, 0)
    ensures forall i | i in t.jobs && i != db.now + 1 :: t.jobs[i].state != QUEUED
  {
    hide Elsewhere;
    forall i | i in t.jobs && i != db.now + 1 ensures t.jobs[i].state != QUEUED {
      if i != j { assert t.jobs[i] == db.jobs[i]; }
    }
  }

  lemma Validates(db: Db, id: nat, row: Source, r: string, o: string)
    requires Rests(db, id, row) && Drained(db)
    ensures var t := Ingested(Claimed(db, id, INGEST_KINDS, VALIDATE), db.now, Work.Validated(r, o));
            var pending := row.(status := PENDING_DELEGATION,
                                pins := row.pins.(repositoryId := Some(r), ownerId := Some(o)));
            Rests(t, id, pending) && Drained(t) && t.sources == db.sources[id := pending]
  {
    ClaimsNew(db, id, row, INGEST_KINDS, VALIDATE);
    assert id in db.sources && db.sources[id] == row by { hide StoreOk, HasOpen; }
    hide Claimed, Rests, Ingested, StoreOk, Elsewhere, HasOpen, IngestSettled, Drained;
    var claimed := Claimed(db, id, INGEST_KINDS, VALIDATE);
    IngestedMeans(claimed, db.now, Work.Validated(r, o));
    IngestedKeeps(claimed, db.now, Work.Validated(r, o));
    var t := Ingested(claimed, db.now, Work.Validated(r, o));
    SettledValidation(claimed, db.now, Work.Validated(r, o), t);
    RestsAfter(claimed, db.now, t, t.sources[id]);
  }

  lemma Delegates(db: Db, id: nat, row: Source)
    requires Rests(db, id, row) && Drained(db) && row.status == PENDING_DELEGATION
    requires RowAllowed(row.(status := ACTIVE))
    ensures var t, active := Apply(db, Delegated(id, row.slot.appId)), row.(status := ACTIVE);
            Rests(t, id, active) && Drained(t) && t.sources == db.sources[id := active]
  {
    EveryWriteKeeps(db, Delegated(id, row.slot.appId));
    hide StoreOk, RowAllowed;
  }

  lemma PollPromotes(db: Db, id: nat, row: Source, record: Record)
    requires Rests(db, id, row) && Drained(db) && row.status == ACTIVE && record.promoted
    ensures var t := Ingested(Claimed(db, id, INGEST_KINDS, POLL), db.now, Polled(record));
            && StoreOk(t) && t.sources == db.sources
            && db.now + 3 in t.jobs && t.jobs[db.now + 3].source == id && t.jobs[db.now + 3].kind == PUBLISH
            && t.jobs[db.now + 3].state == QUEUED && t.jobs[db.now + 3].payload == record.artifact
            && forall j | j in t.jobs && j != db.now + 3 :: t.jobs[j].state != QUEUED
  {
    ClaimsNew(db, id, row, INGEST_KINDS, POLL);
    assert id in db.sources && db.sources[id] == row by { hide StoreOk, HasOpen; }
    hide Claimed, Rests, Ingested, StoreOk, Elsewhere, HasOpen, IngestSettled, Drained;
    var claimed := Claimed(db, id, INGEST_KINDS, POLL);
    IngestedMeans(claimed, db.now, Polled(record));
    IngestedKeeps(claimed, db.now, Polled(record));
    SettledPromotion(claimed, db.now, record, Ingested(claimed, db.now, Polled(record)));
  }

  // ------------------------------------------------------------------ the story

  /** Registered, validated by the ingest worker, delegated by the ceremony. */
  function Onboarded(db: Db, row: Source, r: string, o: string): Db {
    var claimed := Claimed(Apply(db, Add(row)), db.now, INGEST_KINDS, VALIDATE);
    if db.now + 1 !in claimed.jobs then claimed
    else Apply(Ingested(claimed, db.now + 1, Work.Validated(r, o)), Delegated(db.now, row.slot.appId))
  }

  /** The row its registration asks for, with what the forge reported. */
  function ActiveRow(row: Source, r: string, o: string): Source {
    row.(status := ACTIVE, pins := row.pins.(repositoryId := Some(r), ownerId := Some(o)))
  }

  /** A registration that can go all the way: a new application, and the pins its forge needs. */
  ghost predicate Registrable(db: Db, row: Source) {
    && IsAppId(row.slot.appId) && row.slot.channel in {"stable", "beta", "canary"} && row.status == DRAFT
    && row.pins.repositoryId.None? && row.pins.ownerId.None?
    && (row.forge == GITHUB ==> row.pins.workflowUri.Some? && row.pins.issuer.Some?)
    && (row.forge == GITLAB ==>
          row.pins.builderId.Some? && row.pins.builderKeyId.Some? && row.pins.builderKey.Some?)
    && forall id | id in db.sources :: db.sources[id].slot.appId != row.slot.appId
  }

  lemma RegistrableRows(db: Db, row: Source, r: string, o: string)
    requires Registrable(db, row)
    ensures RowAllowed(row) && RowAllowed(ActiveRow(row, r, o))
  {
  }

  lemma Onboards(db: Db, row: Source, r: string, o: string)
    requires StoreOk(db) && Drained(db) && Registrable(db, row)
    ensures var t := Onboarded(db, row, r, o);
            && Rests(t, db.now, ActiveRow(row, r, o)) && Drained(t)
            && t.sources == db.sources[db.now := ActiveRow(row, r, o)]
  {
    hide StoreOk, Drained, RowAllowed, Rests, Ingested, Apply, Claimed;
    RegistrableRows(db, row, r, o);
    FreshId(db);
    Registers(db, row);
    AddTicks(db, row);
    var added := Apply(db, Add(row));
    ClaimsNew(added, db.now, row, INGEST_KINDS, VALIDATE);
    Validates(added, db.now, row, r, o);
    var pending := row.(status := PENDING_DELEGATION, pins := row.pins.(repositoryId := Some(r), ownerId := Some(o)));
    var validated := Ingested(Claimed(added, db.now, INGEST_KINDS, VALIDATE), added.now, Work.Validated(r, o));
    Delegates(validated, db.now, pending);
  }

  lemma AddTicks(db: Db, row: Source)
    requires db.now in Apply(db, Add(row)).sources && db.now !in db.sources
    ensures Apply(db, Add(row)).now == db.now + 1
  {
  }

  /** A poll that ended in promotion, and the signing worker taking what it queued. */
  function Scheduled(db: Db, id: nat, record: Record): Db {
    var claimed := Claimed(db, id, INGEST_KINDS, POLL);
    if db.now !in claimed.jobs then claimed
    else Apply(Ingested(claimed, db.now, Polled(record)), Take({PUBLISH}, db.now + 3))
  }

  lemma Schedules(db: Db, id: nat, row: Source, record: Record)
    requires Rests(db, id, row) && Drained(db) && row.status == ACTIVE && record.promoted
    ensures var t := Scheduled(db, id, record);
            && t.sources == db.sources && db.now + 3 in t.jobs && t.jobs[db.now + 3].source == id
            && t.jobs[db.now + 3].payload == record.artifact
  {
    hide Rests, Drained, Claimed, Ingested, Apply, StoreOk;
    ClaimsNew(db, id, row, INGEST_KINDS, POLL);
    PollPromotes(db, id, row, record);
    TakesOnly(Ingested(Claimed(db, id, INGEST_KINDS, POLL), db.now, Polled(record)), db.now + 3, {PUBLISH});
  }

  /**
   From a new registration to the client: once it is validated, delegated and polled with a promotion, running the
   publish job that was queued files it as done, and every client of the registered slot is told of those bytes.
   */
  lemma FromRegistrationToClient(backend: P.Backend, ring: P.Backend, db: Db, row: Source, r: string, o: string,
                                 record: Record, s: P.State, quarantine: Signer.Quarantine, db': Db, s': P.State,
                                 c: U.Client)
    requires StoreOk(db) && Drained(db) && Registrable(db, row) && record.promoted
    requires var t := Onboarded(db, row, r, o);
             var scheduled, publish := Scheduled(t, db.now, record), t.now + 3;
             publish in scheduled.jobs ==> RanPublish(backend, scheduled, s, quarantine, publish, db', s')
    requires Publication.Ready(ring, s) && Signer.SignerHolds(backend, ring)
    requires Signer.Publishable(s, quarantine, row.slot, record.artifact)
    requires P.KeyIds(backend, "app-" + row.slot.appId) != {}
    requires Releases.Trusts(c, ring) && c.channel == row.slot
    ensures var publish, artifact := Onboarded(db, row, r, o).now + 3, quarantine[record.artifact.sha256.value];
            && publish in db'.jobs && db'.jobs[publish].state == DONE
            && db'.sources == db.sources[db.now := ActiveRow(row, r, o)]
            && Signer.Published(s, s', row.slot, record.artifact, artifact)
            && U.CheckAt(c, s'.disk)
               == Signer.Told(row.slot, record.artifact, artifact, Offers.FirstRole(s) == "app-" + row.slot.appId)
  {
    hide Onboarded, Scheduled, Rests, Drained, StoreOk, Registrable, Signer.PublishRun, Signer.Publishable,
         Signer.Published, Signer.Told, Publication.Ready, Signer.SignerHolds, Releases.Trusts, U.Check,
         Offers.FirstRole, P.KeyIds;
    Onboards(db, row, r, o);
    var t := Onboarded(db, row, r, o);
    Schedules(t, db.now, ActiveRow(row, r, o), record);
    var scheduled, publish := Scheduled(t, db.now, record), t.now + 3;
    PublishIsSettled(backend, ring, scheduled, s, quarantine, publish, db', s');
    Signer.JobReachesClient(backend, ring, s, quarantine, row.slot, record.artifact, c);
  }
}

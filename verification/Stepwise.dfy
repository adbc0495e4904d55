/**
 The pipeline's steps and the worker loops are one thing: a worker whose steps nothing interrupts does to the
 tables and to the disk what `run_job` does, two ticks of the clock later.
 */
module Stepwise {
  import opened Text
  import opened Metadata
  import opened Registry
  import opened RegistrySafety
  import opened Pipeline
  import opened Workers
  import P = Publisher
  import Signer
  import Policy
  import Dsse

  predicate At(s: System, w: nat, team: Team, pc: Pc) {
    w in s.workers && s.workers[w] == Worker(team, pc)
  }

  /** The worker has just claimed a job whose source is there. */
  predicate Holding(s: System, w: nat, team: Team, id: nat) {
    id in s.db.jobs && s.db.jobs[id].source in s.db.sources && At(s, w, team, Took(id, s.db.jobs[id]))
  }

  /** The tables as they stand two ticks on. */
  function Later(db: Db): Db {
    db.(now := db.now + 2)
  }

  // ------------------------------------------------------------------ step by step

  lemma LoadStep(env: Env, s: System, t: System, w: nat, team: Team, id: nat)
    requires Holding(s, w, team, id) && Steps(env, s, LoadBy(w), t)
    ensures t.db == Ticked(s.db) && t.disk == s.disk
    ensures At(t, w, team, Loaded(id, s.db.jobs[id], s.db.sources[s.db.jobs[id].source]))
  {
    hide Policy.Ingested, Signer.PublishRun;
  }

  lemma ValidateStep(env: Env, s: System, t: System, w: nat, pc: Pc, r: string, o: string)
    requires At(s, w, INGEST, pc) && pc.Loaded? && Steps(env, s, ValidateBy(w, r, o), t)
    ensures t.db == Ticked(s.db) && t.disk == s.disk && At(t, w, INGEST, Identifying(pc.id, pc.job, pc.row, r, o))
  {
    hide Policy.Ingested, Signer.PublishRun;
  }

  lemma IdentifyStep(env: Env, s: System, t: System, w: nat, pc: Pc)
    requires At(s, w, INGEST, pc) && pc.Identifying? && Steps(env, s, IdentifyBy(w), t)
    ensures t.db == RecordIdentity(s.db, pc.job.source, pc.repositoryId, pc.ownerId) && t.disk == s.disk
    ensures At(t, w, INGEST, Finishing(pc.id, pc.job, pc.row, NO_RECORD))
  {
    hide Policy.Ingested, Signer.PublishRun, RecordIdentity;
  }

  lemma PollStep(env: Env, s: System, t: System, w: nat, pc: Pc, artifact: Bytes, envelope: Option<Dsse.Octets>,
                 tag: string, version: string, filename: string)
    requires At(s, w, INGEST, pc) && pc.Loaded?
    requires Steps(env, s, PollBy(w, artifact, envelope, tag, version, filename), t)
    ensures t.db == Ticked(s.db) && t.disk == s.disk
    ensures At(t, w, INGEST,
               if PolicyOf(env, pc.row).None? || Judged(env, pc.row, artifact, envelope).Escaped?
               then Failing(pc.id, pc.job)
               else Finishing(pc.id, pc.job, pc.row,
                              Record(tag, None, Promotes(env, pc.row, artifact, envelope),
                                     PublishJob(Some(Sha256(artifact)), version, filename))))
  {
    hide Policy.Ingested, Signer.PublishRun, PolicyOf;
  }

  lemma PublishStep(env: Env, s: System, t: System, w: nat, pc: Pc, q: Signer.Quarantine, backend: P.Backend,
                    memory: P.Memory)
    requires At(s, w, SIGNING, pc) && pc.Loaded? && Steps(env, s, PublishBy(w, q, backend, memory, Finished), t)
    ensures var run := Signer.PublishRun(backend, P.State(s.disk, memory), q, pc.row.slot, pc.job.payload);
            && t.db == Ticked(s.db) && t.disk == Signer.Last(run).disk
            && At(t, w, SIGNING, if run.error.None? then Finishing(pc.id, pc.job, pc.row, NO_RECORD)
                                 else Failing(pc.id, pc.job))
  {
    hide Policy.Ingested, Signer.PublishRun;
  }

  lemma FinishStep(env: Env, s: System, t: System, w: nat, team: Team, pc: Pc)
    requires At(s, w, team, pc) && Steps(env, s, FinishBy(w), t)
    ensures pc.Finishing? && t.db == FinishJob(s.db, pc.id, DONE, Some(pc.record)) && t.disk == s.disk
    ensures At(t, w, team, if team == INGEST then HandingOff(pc.id, pc.job, pc.row, pc.record) else Idle)
  {
    hide Policy.Ingested, Signer.PublishRun, FinishJob;
  }

  lemma HandOffStep(env: Env, s: System, t: System, w: nat, pc: Pc)
    requires At(s, w, INGEST, pc) && pc.HandingOff? && Steps(env, s, HandOffBy(w), t)
    ensures t.db == if pc.job.kind == POLL && pc.record.promoted
                    then OrSame(s.db, Enqueue(s.db, pc.job.source, PUBLISH, pc.record.artifact)) else Ticked(s.db)
    ensures t.disk == s.disk && At(t, w, INGEST, Idle)
  {
    hide Policy.Ingested, Signer.PublishRun, Enqueue;
  }

  lemma RaiseStep(env: Env, s: System, t: System, w: nat, team: Team, pc: Pc)
    requires At(s, w, team, pc) && pc.Loaded? && Steps(env, s, RaiseBy(w), t)
    ensures t.db == Ticked(s.db) && t.disk == s.disk && At(t, w, team, Failing(pc.id, pc.job))
  {
    hide Policy.Ingested, Signer.PublishRun;
  }

  lemma FailStep(env: Env, s: System, t: System, w: nat, team: Team, pc: Pc)
    requires At(s, w, team, pc) && Steps(env, s, FailBy(w), t)
    ensures pc.Failing? && t.db == FinishJob(s.db, pc.id, FAILED, None) && t.disk == s.disk
    ensures At(t, w, team, if team == INGEST && pc.job.kind == VALIDATE then Marking(pc.job.source) else Idle)
  {
    hide Policy.Ingested, Signer.PublishRun, FinishJob;
  }

  lemma MarkStep(env: Env, s: System, t: System, w: nat, pc: Pc)
    requires At(s, w, INGEST, pc) && pc.Marking? && Steps(env, s, MarkBy(w), t)
    ensures t.db == OrSame(s.db, SetStatus(s.db, pc.source, INVALID)) && t.disk == s.disk && At(t, w, INGEST, Idle)
  {
    hide Policy.Ingested, Signer.PublishRun, SetStatus;
  }

  // -------------------------------------------------------------------- job by job

  /** Publishing to its end: load, publish, file as the outcome says. */
  lemma PublishSteps(env: Env, s: seq<System>, w: nat, id: nat, q: Signer.Quarantine, backend: P.Backend,
                     memory: P.Memory, last: Action)
    requires |s| == 4 && Holding(s[0], w, SIGNING, id)
    requires Steps(env, s[0], LoadBy(w), s[1]) && Steps(env, s[1], PublishBy(w, q, backend, memory, Finished), s[2])
    requires last in [FinishBy(w), FailBy(w)] && Steps(env, s[2], last, s[3])
    ensures At(s[3], w, SIGNING, Idle)
    ensures exists s': P.State :: && s'.disk == s[3].disk
                                  && RanPublish(backend, Later(s[0].db), P.State(s[0].disk, memory), q, id, s[3].db, s')
  {
    hide Steps, FinishJob, Signer.PublishRun;
    LoadStep(env, s[0], s[1], w, SIGNING, id);
    var pc := s[1].workers[w].pc;
    PublishStep(env, s[1], s[2], w, pc, q, backend, memory);
    if last == FinishBy(w) {
      FinishStep(env, s[2], s[3], w, SIGNING, s[2].workers[w].pc);
    } else {
      FailStep(env, s[2], s[3], w, SIGNING, s[2].workers[w].pc);
    }
    var run := Signer.PublishRun(backend, P.State(s[0].disk, memory), q, pc.row.slot, pc.job.payload);
    assert RanPublish(backend, Later(s[0].db), P.State(s[0].disk, memory), q, id, s[3].db, Signer.Last(run));
  }

  /** Validating to its end: load, ask the forge, write the identifiers, file, nothing to hand off. */
  lemma ValidateSteps(env: Env, s: seq<System>, w: nat, id: nat, r: string, o: string)
    requires |s| == 6 && Holding(s[0], w, INGEST, id) && s[0].db.jobs[id].kind == VALIDATE
    requires Steps(env, s[0], LoadBy(w), s[1]) && Steps(env, s[1], ValidateBy(w, r, o), s[2])
    requires Steps(env, s[2], IdentifyBy(w), s[3]) && Steps(env, s[3], FinishBy(w), s[4])
    requires Steps(env, s[4], HandOffBy(w), s[5])
    ensures s[5].db == Ticked(Ingested(Later(s[0].db), id, Work.Validated(r, o)))
    ensures At(s[5], w, INGEST, Idle) && s[5].disk == s[0].disk
  {
    hide Steps, FinishJob, RecordIdentity;
    LoadStep(env, s[0], s[1], w, INGEST, id);
    ValidateStep(env, s[1], s[2], w, s[1].workers[w].pc, r, o);
    IdentifyStep(env, s[2], s[3], w, s[2].workers[w].pc);
    FinishStep(env, s[3], s[4], w, INGEST, s[3].workers[w].pc);
    HandOffStep(env, s[4], s[5], w, s[4].workers[w].pc);
  }

  /** Anything raised: load, file as failed, and mark a source whose validation it was. */
  lemma RaiseSteps(env: Env, s: seq<System>, w: nat, id: nat)
    requires |s| == 5 && Holding(s[0], w, INGEST, id)
    requires Steps(env, s[0], LoadBy(w), s[1]) && Steps(env, s[1], RaiseBy(w), s[2])
    requires Steps(env, s[2], FailBy(w), s[3])
    requires if s[0].db.jobs[id].kind == VALIDATE then Steps(env, s[3], MarkBy(w), s[4]) else s[4] == s[3]
    ensures s[4].db == Ingested(Later(s[0].db), id, Work.Raised)
    ensures At(s[4], w, INGEST, Idle) && s[4].disk == s[0].disk
  {
    hide Steps, FinishJob, SetStatus;
    LoadStep(env, s[0], s[1], w, INGEST, id);
    RaiseStep(env, s[1], s[2], w, INGEST, s[1].workers[w].pc);
    FailStep(env, s[2], s[3], w, INGEST, s[2].workers[w].pc);
    if s[0].db.jobs[id].kind == VALIDATE { MarkStep(env, s[3], s[4], w, s[3].workers[w].pc); }
  }

  /** Polling to its end: load, judge, file, hand a promotion and nothing else to the signer. */
  lemma PollSteps(env: Env, s: seq<System>, w: nat, id: nat, artifact: Bytes, envelope: Option<Dsse.Octets>,
                  tag: string, version: string, filename: string)
    requires |s| == 5 && Holding(s[0], w, INGEST, id) && s[0].db.jobs[id].kind == POLL
    requires s[0].db.sources[s[0].db.jobs[id].source].status == ACTIVE
    requires Steps(env, s[0], LoadBy(w), s[1])
    requires Steps(env, s[1], PollBy(w, artifact, envelope, tag, version, filename), s[2])
    requires Steps(env, s[2], FinishBy(w), s[3]) && Steps(env, s[3], HandOffBy(w), s[4])
    ensures var row := s[0].db.sources[s[0].db.jobs[id].source];
            var promoted := Promotes(env, row, artifact, envelope);
            var record := Record(tag, None, promoted, PublishJob(Some(Sha256(artifact)), version, filename));
            var ended := Ingested(Later(s[0].db), id, Polled(record));
            s[4].db == if promoted then ended else Ticked(ended)
    ensures At(s[4], w, INGEST, Idle) && s[4].disk == s[0].disk
  {
    hide Steps, FinishJob, Enqueue, Promotes, PolicyOf, Judged;
    LoadStep(env, s[0], s[1], w, INGEST, id);
    PollStep(env, s[1], s[2], w, s[1].workers[w].pc, artifact, envelope, tag, version, filename);
    FinishStep(env, s[2], s[3], w, INGEST, s[2].workers[w].pc);
    HandOffStep(env, s[3], s[4], w, s[3].workers[w].pc);
  }

  lemma LoadNothing(env: Env, s: System, t: System, w: nat, team: Team, pc: Pc)
    requires At(s, w, team, pc) && pc.Took? && pc.job.source !in s.db.sources && Steps(env, s, LoadBy(w), t)
    ensures t.db == Ticked(s.db) && t.disk == s.disk && At(t, w, team, Failing(pc.id, pc.job))
  {
    hide Policy.Ingested, Signer.PublishRun;
  }

  /** A job whose source is gone, by either team: filed as failed, and nothing else in the tables or on the disk. */
  lemma GoneSteps(env: Env, s: seq<System>, w: nat, team: Team, id: nat)
    requires |s| == 4 && id in s[0].db.jobs && s[0].db.jobs[id].source !in s[0].db.sources
    requires At(s[0], w, team, Took(id, s[0].db.jobs[id]))
    requires Steps(env, s[0], LoadBy(w), s[1]) && Steps(env, s[1], FailBy(w), s[2])
    requires if team == INGEST && s[0].db.jobs[id].kind == VALIDATE then Steps(env, s[2], MarkBy(w), s[3])
             else s[3] == s[2]
    ensures s[3].db.sources == s[0].db.sources && s[3].disk == s[0].disk && At(s[3], w, team, Idle)
    ensures s[3].db.jobs == s[0].db.jobs[id := s[0].db.jobs[id].(state := FAILED, result := None,
                                                                 finishedAt := s[0].db.now + 1)]
  {
    hide Steps;
    LoadNothing(env, s[0], s[1], w, team, s[0].workers[w].pc);
    FailStep(env, s[1], s[2], w, team, s[1].workers[w].pc);
    if team == INGEST && s[0].db.jobs[id].kind == VALIDATE { MarkStep(env, s[2], s[3], w, s[2].workers[w].pc); }
  }
}

/**
 Admin, ingest workers, signing worker and ceremony as one system. A step is one committed transaction
 or one stretch of a worker's own work; between steps anything may interleave, and a worker may die.
 */
module Pipeline {
  import opened Text
  import opened Metadata
  import opened Registry
  import opened RegistrySafety
  import P = Publisher
  import Signer
  import opened Vouching
  import Gates
  import Policy
  import Provenance
  import Dsse

  const MAX_CONSECUTIVE_SKIPS: nat := 24

  datatype Team = INGEST | SIGNING

  function Claims(team: Team): set<Kind> {
    match team
    case INGEST => {VALIDATE, POLL}
    case SIGNING => {PUBLISH}
  }

  /** Where a worker is between transactions. */
  datatype Pc =
    | Idle
    | Took(id: nat, job: Job)
    | Loaded(id: nat, job: Job, row: Source)
    | Identifying(id: nat, job: Job, row: Source, repositoryId: string, ownerId: string)
    | Finishing(id: nat, job: Job, row: Source, record: Record)
    | HandingOff(id: nat, job: Job, row: Source, record: Record)
    | Failing(id: nat, job: Job)
    | Marking(source: nat)
    | Queueing(source: nat)
    | Skipping(source: nat, tag: string, skips: nat)
    | SkipQueued(id: nat, source: nat, tag: string, skips: nat)

  datatype Worker = Worker(team: Team, pc: Pc)

  /** A poll that ended PROMOTE: the bytes, the row it judged them by, and the evidence it had. */
  datatype Approval = Approval(artifact: Bytes, row: Source, envelope: Option<Dsse.Octets>)

  /** The tables, the workers, the published disk they share, and the promotions so far. */
  datatype System = System(db: Db, workers: map<nat, Worker>, disk: Disk, approvals: set<Approval>)

  /** What Sigstore must find in a certificate for one source. */
  datatype Identity = Identity(workflowUri: string, issuer: string, repositoryId: string, ownerId: string,
                               projectUrl: string, tagRefPrefix: string)

  /** Parsers, Sigstore and the deployment's settings. */
  datatype Env = Env(world: Policy.World, maxBytes: nat, octets: Bytes -> Dsse.Octets, utf8: string -> Dsse.Octets,
                     sigstore: Identity -> Policy.Sigstore, limits: Gates.Limits, skip: set<string>)

  // ---------------------------------------------------------- a row's own policy

  predicate Given(field: Option<string>) {
    field.Some? && field.value != []
  }

  function BuilderOf(env: Env, row: Source): Provenance.TrustedBuilder
    requires Given(row.pins.builderId) && Given(row.pins.builderKeyId) && Given(row.pins.builderKey)
  {
    Provenance.TrustedBuilder(row.pins.builderId.value, row.pins.builderKeyId.value,
                              env.utf8(row.pins.builderKey.value))
  }

  /** `provenance_policy`: the forge decides the route; a row without its pins has no policy. */
  function RouteOf(env: Env, row: Source): Option<(Policy.Route, Provenance.Policy)> {
    var p := row.pins;
    match row.forge
    case GITHUB =>
      if Given(p.workflowUri) && Given(p.issuer) && Given(p.repositoryId) && Given(p.ownerId)
      then Some((Policy.CertificateIdentity(env.sigstore(IdentityOf(row))),
                 Provenance.Policy([], row.projectUrl, row.tagRefPrefix)))
      else None
    case GITLAB =>
      if Given(p.builderId) && Given(p.builderKeyId) && Given(p.builderKey)
      then Some((Policy.FixedKey, Provenance.Policy([BuilderOf(env, row)], row.projectUrl, row.tagRefPrefix)))
      else None
  }

  function IdentityOf(row: Source): Identity
    requires Given(row.pins.workflowUri) && Given(row.pins.issuer) && Given(row.pins.repositoryId)
    requires Given(row.pins.ownerId)
  {
    Identity(row.pins.workflowUri.value, row.pins.issuer.value, row.pins.repositoryId.value, row.pins.ownerId.value,
             row.projectUrl, row.tagRefPrefix)
  }

  const GATE_NAMES := {"malware", "publisher", "sbom"}

  /**
   `ingest_policy`: custody from the row, the gates the deployment names skipped and nothing else wired. There
   is no policy when a pin is missing or the deployment names a gate that does not exist.
   */
  function PolicyOf(env: Env, row: Source): Option<Policy.AppPolicy> {
    match RouteOf(env, row)
    case None => None
    case Some((route, provenance)) =>
      if !(env.skip <= GATE_NAMES) then None
      else Some(Policy.AppPolicy(row.critical, route, provenance, env.limits, _ => Gates.WiredGates(env.skip)))
  }

  ghost function Judged(env: Env, row: Source, artifact: Bytes, envelope: Option<Dsse.Octets>): Policy.Verdict
    requires PolicyOf(env, row).Some?
  {
    Policy.Ingested(env.world, PolicyOf(env, row).value, env.maxBytes, env.octets(artifact), envelope, None)
  }

  ghost predicate Promotes(env: Env, row: Source, artifact: Bytes, envelope: Option<Dsse.Octets>) {
    PolicyOf(env, row).Some? && Policy.DecidedAs(Judged(env, row, artifact, envelope), Policy.PROMOTE)
  }

  ghost predicate Genuine(env: Env, a: Approval) {
    Promotes(env, a.row, a.artifact, a.envelope)
  }

  function Pairs(approvals: set<Approval>): Approved {
    set a | a in approvals :: (Sha256(a.artifact), a.row.slot.appId)
  }

  // ------------------------------------------------------------------ actions

  datatype Ending = Finished | Survived(writes: nat) | Killed(writes: nat)

  datatype Action =
    | Operator(write: Write)
    | Ceremony(op: P.Operation, backend: P.Backend, memory: P.Memory, ending: Ending)
    | ResetBy(worker: nat, before: nat)
    | TakeBy(worker: nat, id: nat)
    | LoadBy(worker: nat)
    | ValidateBy(worker: nat, repositoryId: string, ownerId: string)
    | IdentifyBy(worker: nat)
    | PollBy(worker: nat, artifact: Bytes, envelope: Option<Dsse.Octets>, tag: string, version: string,
             filename: string)
    | PollNothingBy(worker: nat)
    | PublishBy(worker: nat, quarantine: Signer.Quarantine, backend: P.Backend, memory: P.Memory, ending: Ending)
    | FinishBy(worker: nat)
    | HandOffBy(worker: nat)
    | RaiseBy(worker: nat)
    | FailBy(worker: nat)
    | MarkBy(worker: nat)
    | ConsiderBy(worker: nat, source: nat, last: Option<nat>, hint: Option<string>)
    | QueueBy(worker: nat)
    | SkipFinishBy(worker: nat)
    | CrashBy(worker: nat)

  /** What the web application and the ceremony may write. */
  predicate OperatorMay(w: Write) {
    match w
    case Add(_) => true
    case Move(_, status) => status == VALIDATING || status == PAUSED
    case Edited(_, _) => true
    case Delegated(_, _) => true
    case Delete(_) => true
    case Queue(_, kind, payload) => (kind == VALIDATE || kind == POLL) && payload == NO_PAYLOAD
    case _ => false
  }

  /** `_unchanged_since_last_poll`: the skip to record, or none to poll properly. */
  function Unchanged(last: Option<Record>, hint: Option<string>): Option<(string, nat)> {
    if last.None? || last.value.tag == [] then None
    else
      var skips := if last.value.skips.Some? then last.value.skips.value else 0;
      if skips >= MAX_CONSECUTIVE_SKIPS || hint != Some(last.value.tag) then None
      else Some((last.value.tag, skips + 1))
  }

  function LastRecord(db: Db, last: Option<nat>): Option<Record> {
    if last.Some? && last.value in db.jobs then db.jobs[last.value].result else None
  }

  /** `_outcome_record`, as later code reads it. */
  ghost function PollRecord(env: Env, row: Source, artifact: Bytes, envelope: Option<Dsse.Octets>, tag: string,
                            version: string, filename: string): Record {
    Record(tag, None, Promotes(env, row, artifact, envelope), PublishJob(Some(Sha256(artifact)), version, filename))
  }

  function Started(pc: Pc): bool {
    pc.Took? || pc.Loaded? || pc.Identifying? || pc.Finishing? || pc.HandingOff? || pc.Failing?
  }

  /** The worker an action belongs to. */
  function Actor(x: Action): Option<nat> {
    match x
    case Operator(_) => None
    case Ceremony(_, _, _, _) => None
    case ResetBy(w, _) => Some(w)
    case TakeBy(w, _) => Some(w)
    case LoadBy(w) => Some(w)
    case ValidateBy(w, _, _) => Some(w)
    case IdentifyBy(w) => Some(w)
    case PollBy(w, _, _, _, _, _) => Some(w)
    case PollNothingBy(w) => Some(w)
    case PublishBy(w, _, _, _, _) => Some(w)
    case FinishBy(w) => Some(w)
    case HandOffBy(w) => Some(w)
    case RaiseBy(w) => Some(w)
    case FailBy(w) => Some(w)
    case MarkBy(w) => Some(w)
    case ConsiderBy(w, _, _, _) => Some(w)
    case QueueBy(w) => Some(w)
    case SkipFinishBy(w) => Some(w)
    case CrashBy(w) => Some(w)
  }

  /** Where the code lets a worker take an action: note what it does not check, the kind of the job it holds. */
  ghost predicate Enabled(db: Db, team: Team, pc: Pc, x: Action) {
    match x
    case ResetBy(_, _) => pc.Idle?
    case TakeBy(_, id) => pc.Idle? && Oldest(db, Claims(team), id)
    case LoadBy(_) => pc.Took?
    case ValidateBy(_, _, _) => pc.Loaded? && team == INGEST && pc.job.kind == VALIDATE
    case IdentifyBy(_) => pc.Identifying?
    case PollBy(_, _, _, _, _, _) => pc.Loaded? && team == INGEST && pc.job.kind != VALIDATE && pc.row.status == ACTIVE
    case PollNothingBy(_) => pc.Loaded? && team == INGEST && pc.job.kind != VALIDATE && pc.row.status == ACTIVE
    case PublishBy(_, _, _, _, _) => pc.Loaded? && team == SIGNING
    case FinishBy(_) => pc.Finishing?
    case HandOffBy(_) => pc.HandingOff?
    case RaiseBy(_) => pc.Loaded? || pc.Identifying? || pc.Finishing? || pc.HandingOff?
    case FailBy(_) => pc.Failing?
    case MarkBy(_) => pc.Marking?
    case ConsiderBy(_, source, last, _) =>
      pc.Idle? && team == INGEST
      && (if last.Some? then LastPoll(db, source, last.value) else forall j :: !DonePoll(db, source, j))
    case QueueBy(_) => pc.Queueing? || pc.Skipping?
    case SkipFinishBy(_) => pc.SkipQueued?
    case CrashBy(_) => true
    case _ => false
  }

  /** The transaction an action commits, if any. */
  function WriteOf(team: Team, pc: Pc, x: Action): Option<Write> {
    match x
    case Operator(w) => Some(w)
    case ResetBy(_, before) => Some(Reset(before))
    case TakeBy(_, id) => Some(Take(Claims(team), id))
    case IdentifyBy(_) => if pc.Identifying? then Some(Identify(pc.job.source, pc.repositoryId, pc.ownerId)) else None
    case FinishBy(_) => if pc.Finishing? then Some(Finish(pc.id, DONE, Some(pc.record))) else None
    case HandOffBy(_) =>
      if pc.HandingOff? && pc.job.kind == POLL && pc.record.promoted
      then Some(Queue(pc.job.source, PUBLISH, pc.record.artifact)) else None
    case FailBy(_) => if pc.Failing? then Some(Finish(pc.id, FAILED, None)) else None
    case MarkBy(_) => if pc.Marking? then Some(Move(pc.source, INVALID)) else None
    case QueueBy(_) =>
      if pc.Queueing? || pc.Skipping? then Some(Queue(pc.source, POLL, NO_PAYLOAD)) else None
    case SkipFinishBy(_) =>
      if pc.SkipQueued? then Some(Finish(pc.id, DONE, Some(Record(pc.tag, Some(pc.skips), false, NO_PAYLOAD))))
      else None
    case _ => None
  }

  /** Where the acting worker is next. */
  ghost function Next(env: Env, s: System, team: Team, pc: Pc, x: Action): Pc
    requires Enabled(s.db, team, pc, x)
  {
    match x
    case TakeBy(_, id) => Took(id, s.db.jobs[id])
    case LoadBy(_) =>
      if pc.job.source in s.db.sources then Loaded(pc.id, pc.job, s.db.sources[pc.job.source])
      else Failing(pc.id, pc.job)
    case ValidateBy(_, r, o) => Identifying(pc.id, pc.job, pc.row, r, o)
    case IdentifyBy(_) => Finishing(pc.id, pc.job, pc.row, NO_RECORD)
    case PollBy(_, artifact, envelope, tag, version, filename) =>
      if PolicyOf(env, pc.row).None? || Judged(env, pc.row, artifact, envelope).Escaped? then Failing(pc.id, pc.job)
      else Finishing(pc.id, pc.job, pc.row, PollRecord(env, pc.row, artifact, envelope, tag, version, filename))
    case PollNothingBy(_) => Finishing(pc.id, pc.job, pc.row, NO_RECORD)
    case PublishBy(_, q, backend, memory, ending) =>
      if ending.Killed? then Idle
      else if ending.Survived? || Signer.PublishRun(backend, P.State(s.disk, memory), q, pc.row.slot,
                                                    pc.job.payload).error.Some?
      then Failing(pc.id, pc.job)
      else Finishing(pc.id, pc.job, pc.row, NO_RECORD)
    case FinishBy(_) => if team == INGEST then HandingOff(pc.id, pc.job, pc.row, pc.record) else Idle
    case RaiseBy(_) => Failing(pc.id, pc.job)
    case FailBy(_) => if team == INGEST && pc.job.kind == VALIDATE then Marking(pc.job.source) else Idle
    case ConsiderBy(_, source, last, hint) =>
      (match Unchanged(LastRecord(s.db, last), hint)
       case None => Queueing(source)
       case Some(skip) => Skipping(source, skip.0, skip.1))
    case QueueBy(_) =>
      if pc.Skipping? && pc.source in s.db.sources && !HasOpen(s.db, pc.source)
      then SkipQueued(s.db.now, pc.source, pc.tag, pc.skips) else Idle
    case _ => Idle
  }

  /** Polls that end PROMOTE are remembered. */
  ghost function NewApprovals(env: Env, pc: Pc, x: Action): set<Approval> {
    if x.PollBy? && pc.Loaded? && Genuine(env, Approval(x.artifact, pc.row, x.envelope))
    then {Approval(x.artifact, pc.row, x.envelope)} else {}
  }

  /** The disk a list of states leaves behind, by how the process ended. */
  ghost predicate EndsIn(trail: seq<P.State>, ending: Ending, d: Disk) {
    match ending
    case Finished => trail != [] && d == trail[|trail| - 1].disk
    case Survived(k) => k < |trail| && d == trail[k].disk
    case Killed(k) => k < |trail| && d == trail[k].disk
  }

  /**
   The disk moves only when a signer publishes or a ceremony runs. Each does so with keys of its own and
   from a memory of its own, however old: nothing here makes two processes agree.
   */
  ghost predicate DiskMoves(s: System, pc: Pc, x: Action, d: Disk) {
    match x
    case Ceremony(op, backend, memory, ending) =>
      EndsIn(P.Perform(backend, P.State(s.disk, memory), op).trail, ending, d)
    case PublishBy(_, q, backend, memory, ending) =>
      && pc.Loaded?
      && EndsIn(Signer.PublishRun(backend, P.State(s.disk, memory), q, pc.row.slot, pc.job.payload).trail, ending, d)
    case _ => d == s.disk
  }

  function Written(db: Db, w: Option<Write>): Db {
    if w.Some? then Apply(db, w.value) else Ticked(db)
  }

  ghost predicate Steps(env: Env, s: System, x: Action, t: System) {
    match Actor(x)
    case None =>
      && (x.Operator? ==> OperatorMay(x.write))
      && (x.Ceremony? ==> x.op.OpInitialize? || x.op.OpAddApp?) && DiskMoves(s, Idle, x, t.disk)
      && t == System(Written(s.db, WriteOf(INGEST, Idle, x)), s.workers, t.disk, s.approvals)
    case Some(w) =>
      && w in s.workers
      && var team, pc := s.workers[w].team, s.workers[w].pc;
         && Enabled(s.db, team, pc, x) && DiskMoves(s, pc, x, t.disk)
         && t == System(Written(s.db, WriteOf(team, pc, x)), s.workers[w := Worker(team, Next(env, s, team, pc, x))],
                        t.disk, s.approvals + NewApprovals(env, pc, x))
  }
}

/**
 The operations of `FileSystemRepository` as functions on a state.

 A `Run` lists every state an operation passes through: a crash can leave the disk of any of them.
 python-tuf's `do_snapshot` and `do_timestamp` are taken at their contract: the role is rewritten when
 it is absent, not validly signed, or behind; left alone otherwise; and a fall in version is refused.
 */
module Publisher {
  import opened Text
  import opened Naming
  import opened Metadata

  type Backend = map<Role, set<KeyId>>

  function KeyIds(b: Backend, role: Role): set<KeyId> {
    if role in b then b[role] else {}
  }

  datatype Memory = Memory(versions: map<Role, nat>, appRoles: set<Role>, policies: map<Role, RolePolicy>)

  datatype State = State(disk: Disk, memory: Memory)

  datatype Error =
    | AlreadyInitialised
    | NoSigningKey(role: Role)
    | NoPolicy(role: Role)
    | ThresholdNotMet(role: Role)
    | InvalidAppId(appId: string)
    | VersionMismatch
    | NoDelegatedRole(appId: string)
    | NotPublished(path: string)
    | VersionRollback(role: Role)

  datatype Run = Run(trail: seq<State>, error: Option<Error>)

  ghost predicate WellFormed(r: Run, start: State) {
    r.trail != [] && r.trail[0] == start
  }

  function Final(r: Run): State
    requires r.trail != []
  {
    r.trail[|r.trail| - 1]
  }

  function After(s: State, r: Run): Run {
    Run([s] + r.trail, r.error)
  }

  // ------------------------------------------------------------- open, close

  function Version(m: Memory, role: Role): nat {
    if role in m.versions then m.versions[role] else 0
  }

  /** python-tuf's fresh documents. */
  function Initial(role: Role): Body {
    if role == ROOT then RootBody(map[], true)
    else if role == SNAPSHOT then SnapshotBody(map[TARGETS := 1])
    else if role == TIMESTAMP then TimestampBody(1)
    else TargetsBody(map[], [])
  }

  function Open(s: State, role: Role): Doc {
    var name := NameOf(role, Version(s.memory, role));
    if Version(s.memory, role) == 0 || name !in s.disk.files then Doc(0, {}, Initial(role))
    else s.disk.files[name]
  }

  function Targets(s: State, role: Role): Body
    ensures Targets(s, role).TargetsBody?
  {
    var body := Open(s, role).body;
    if body.TargetsBody? then body else TargetsBody(map[], [])
  }

  function WriteFile(s: State, name: FileName, doc: Doc): State {
    s.(disk := s.disk.(files := s.disk.files[name := doc]))
  }

  function SetVersion(s: State, role: Role, version: nat): State {
    s.(memory := s.memory.(versions := s.memory.versions[role := version]))
  }

  function WriteRole(s: State, role: Role, doc: Doc): State {
    SetVersion(WriteFile(s, NameOf(role, doc.version), doc), role, doc.version)
  }

  /** The document `close` signs, or why it refuses. */
  function Sign(b: Backend, s: State, role: Role, body: Body): Result<Doc, Error> {
    if role !in s.memory.policies then Err(NoPolicy(role))
    else if |KeyIds(b, role)| < s.memory.policies[role].threshold then Err(ThresholdNotMet(role))
    else Ok(Doc(Version(s.memory, role) + 1, KeyIds(b, role), body))
  }

  function Close(b: Backend, s: State, role: Role, body: Body): Result<State, Error> {
    match Sign(b, s, role, body)
    case Err(e) => Err(e)
    case Ok(doc) => Ok(WriteRole(s, role, doc))
  }

  function StorePayload(s: State, path: string, bytes: Bytes): State {
    s.(disk := s.disk.(payloads := s.disk.payloads[PayloadName(path, Sha256(bytes)) := bytes]))
  }

  // ------------------------------------------------------------------ publish

  function TargetsInfos(m: Memory): map<Role, nat> {
    map role | role in {TARGETS} + m.appRoles && Version(m, role) > 0 :: Version(m, role)
  }

  function RootKeys(s: State, role: Role): RoleKeys {
    var root := Open(s, ROOT).body;
    if root.RootBody? && role in root.roles then root.roles[role] else RoleKeys({}, 1)
  }

  function SnapshotMeta(s: State): map<Role, nat> {
    var body := Open(s, SNAPSHOT).body;
    if body.SnapshotBody? then body.meta else map[]
  }

  function TimestampSnapshot(s: State): nat {
    var body := Open(s, TIMESTAMP).body;
    if body.TimestampBody? then body.snapshot else 1
  }

  function SnapshotInfo(m: Memory): nat {
    if SNAPSHOT in m.versions then m.versions[SNAPSHOT] else 1
  }

  predicate SnapshotFell(s: State) {
    var infos, meta := TargetsInfos(s.memory), SnapshotMeta(s);
    exists role | role in infos :: role in meta && infos[role] < meta[role]
  }

  predicate SnapshotDue(s: State) {
    var infos, meta := TargetsInfos(s.memory), SnapshotMeta(s);
    || !SignedBy(Open(s, SNAPSHOT), RootKeys(s, SNAPSHOT))
    || exists role | role in infos :: role !in meta || meta[role] < infos[role]
  }

  function DoSnapshot(b: Backend, s: State): Result<State, Error> {
    if SnapshotFell(s) then Err(VersionRollback(SNAPSHOT))
    else if !SnapshotDue(s) then Ok(s)
    else Close(b, s, SNAPSHOT, SnapshotBody(SnapshotMeta(s) + TargetsInfos(s.memory)))
  }

  predicate TimestampDue(s: State) {
    || !SignedBy(Open(s, TIMESTAMP), RootKeys(s, TIMESTAMP))
    || TimestampSnapshot(s) < SnapshotInfo(s.memory)
  }

  function DoTimestamp(b: Backend, s: State): Result<State, Error> {
    if SnapshotInfo(s.memory) < TimestampSnapshot(s) then Err(VersionRollback(TIMESTAMP))
    else if !TimestampDue(s) then Ok(s)
    else Close(b, s, TIMESTAMP, TimestampBody(SnapshotInfo(s.memory)))
  }

  function Publish(b: Backend, s: State): (r: Run)
    ensures WellFormed(r, s)
  {
    match DoSnapshot(b, s)
    case Err(e) => Run([s], Some(e))
    case Ok(s1) =>
      match DoTimestamp(b, s1)
      case Err(e) => Run([s, s1], Some(e))
      case Ok(s2) => Run([s, s1, s2], None)
  }

  // --------------------------------------------------------------- operations

  function RootFor(b: Backend): Body {
    RootBody(map role | role in TOP_LEVEL_POLICIES :: RoleKeys(KeyIds(b, role), TOP_LEVEL_POLICIES[role].threshold),
             true)
  }

  function FirstUnkeyed(b: Backend, roles: seq<Role>): Option<Role> {
    if roles == [] then None
    else if KeyIds(b, roles[0]) == {} then Some(roles[0])
    else FirstUnkeyed(b, roles[1..])
  }

  function Initialize(b: Backend, s: State): (r: Run)
    ensures WellFormed(r, s)
  {
    if Version(s.memory, ROOT) > 0 then Run([s], Some(AlreadyInitialised))
    else
      match FirstUnkeyed(b, [ROOT, TARGETS, SNAPSHOT, TIMESTAMP])
      case Some(role) => Run([s], Some(NoSigningKey(role)))
      case None =>
        match Sign(b, s, ROOT, RootFor(b))
        case Err(e) => Run([s], Some(e))
        case Ok(root) => WriteRoot(b, s, root)
  }

  /** The root under its version, its alias, then an empty top-level targets and the first publish. */
  function WriteRoot(b: Backend, s: State, root: Doc): (r: Run)
    ensures WellFormed(r, s)
  {
    var s1 := WriteFile(s, NameOf(ROOT, root.version), root);
    var s2 := SetVersion(WriteFile(s1, RootJson, root), ROOT, root.version);
    match Close(b, s2, TARGETS, Open(s2, TARGETS).body)
    case Err(e) => Run([s, s1, s2], Some(e))
    case Ok(s3) => After(s, After(s1, After(s2, Publish(b, s3))))
  }

  /** `roles[role] = delegation` in an insertion-ordered dictionary. */
  function PutDelegation(roles: seq<Delegation>, d: Delegation): seq<Delegation> {
    if roles == [] then [d]
    else if roles[0].role == d.role then [d] + roles[1..]
    else [roles[0]] + PutDelegation(roles[1..], d)
  }

  function DelegationFor(b: Backend, appId: string): Delegation {
    var role := AppRoleName(appId);
    Delegation(role, RoleKeys(KeyIds(b, role), 1), false, {AppPathPattern(appId)})
  }

  function AddApp(b: Backend, s: State, appId: string, critical: bool): (r: Run)
    ensures WellFormed(r, s)
  {
    if !IsAppId(appId) then Run([s], Some(InvalidAppId(appId)))
    else
      var s0 := SetPolicy(s, AppRoleName(appId), AppRolePolicy(critical));
      if KeyIds(b, AppRoleName(appId)) == {} then Run([s, s0], Some(NoSigningKey(AppRoleName(appId))))
      else After(s, Delegate(b, s0, appId))
  }

  function SetPolicy(s: State, role: Role, policy: RolePolicy): State {
    s.(memory := s.memory.(policies := s.memory.policies[role := policy]))
  }

  /** Name the app's role in a new top-level targets, then let the role in. */
  function Delegate(b: Backend, s: State, appId: string): (r: Run)
    ensures WellFormed(r, s)
  {
    var targets := Targets(s, TARGETS);
    match Close(b, s, TARGETS, targets.(delegations := PutDelegation(targets.delegations, DelegationFor(b, appId))))
    case Err(e) => Run([s], Some(e))
    case Ok(s1) => After(s, Admit(b, s1, AppRoleName(appId)))
  }

  /** A delegated role joins `_app_roles`, gets a file of its own, and is published. */
  function Admit(b: Backend, s: State, role: Role): (r: Run)
    ensures WellFormed(r, s)
  {
    var s1 := AddAppRole(s, role);
    match Close(b, s1, role, Targets(s1, role))
    case Err(e) => Run([s, s1], Some(e))
    case Ok(s2) => After(s, After(s1, Publish(b, s2)))
  }

  function AddAppRole(s: State, role: Role): State {
    s.(memory := s.memory.(appRoles := s.memory.appRoles + {role}))
  }

  function EntryFor(bytes: Bytes, info: ReleaseInfo): Entry {
    Entry(bytes.length, Sha256(bytes), ToCustom(info))
  }

  /** Store the payload, list it in the app's role, publish: the tail both publishing operations share. */
  function PutTarget(b: Backend, s: State, role: Role, path: string, bytes: Bytes, info: ReleaseInfo): (r: Run)
    ensures WellFormed(r, s)
  {
    var s1 := StorePayload(s, path, bytes);
    var listed := Targets(s1, role);
    match Close(b, s1, role, listed.(targets := listed.targets[path := EntryFor(bytes, info)]))
    case Err(e) => Run([s, s1], Some(e))
    case Ok(s2) => After(s, After(s1, Publish(b, s2)))
  }

  function AddRelease(b: Backend, s: State, key: TargetKey, payload: Bytes, info: ReleaseInfo): (r: Run)
    ensures WellFormed(r, s)
  {
    if info.version != key.version then Run([s], Some(VersionMismatch))
    else if !IsAppId(key.appId) then Run([s], Some(InvalidAppId(key.appId)))
    else if AppRoleName(key.appId) !in s.memory.appRoles then Run([s], Some(NoDelegatedRole(key.appId)))
    else PutTarget(b, s, AppRoleName(key.appId), Path(key), payload, info)
  }

  function PointerInfo(version: string): ReleaseInfo
    requires IsSegment(version)
  {
    InfoFields(version, 100, false, None, None, None)
  }

  function SetCurrent(b: Backend, s: State, key: TargetKey): (r: Run)
    ensures WellFormed(r, s)
  {
    if !IsAppId(key.appId) then Run([s], Some(InvalidAppId(key.appId)))
    else
      var role := AppRoleName(key.appId);
      if role !in s.memory.appRoles then Run([s], Some(NoDelegatedRole(key.appId)))
      else if Path(key) !in Targets(s, role).targets then Run([s], Some(NotPublished(Path(key))))
      else PutTarget(b, s, role, PointerPath(ChannelOf(key)), PointerJson(Path(key), key.version),
                     PointerInfo(key.version))
  }

  datatype Operation =
    | OpInitialize
    | OpAddApp(appId: string, critical: bool)
    | OpAddRelease(key: TargetKey, payload: Bytes, info: ReleaseInfo)
    | OpSetCurrent(current: TargetKey)
    | OpPublish

  function Perform(b: Backend, s: State, op: Operation): (r: Run)
    ensures WellFormed(r, s)
  {
    match op
    case OpInitialize => Initialize(b, s)
    case OpAddApp(appId, critical) => AddApp(b, s, appId, critical)
    case OpAddRelease(key, payload, info) => AddRelease(b, s, key, payload, info)
    case OpSetCurrent(key) => SetCurrent(b, s, key)
    case OpPublish => Publish(b, s)
  }
}

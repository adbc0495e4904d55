/**
 Two processes that scanned the same repository and publish one after the other: a signer beside a
 ceremony, or two signers. Taking turns is not enough.
 */
module TwoWriters {
  import opened Naming
  import opened Metadata
  import opened Publisher
  import opened PublisherSafety
  import opened PublisherRuns
  import opened Keyrings
  import opened Publication
  import opened Releases
  import opened StaleWriters

  // ------------------------------------------------------ what a publish moves

  /** At most one snapshot and one timestamp further; each is the old one if its version is. */
  ghost predicate Advances(s: State, t: State) {
    && Version(s.memory, SNAPSHOT) <= Version(t.memory, SNAPSHOT) <= Version(s.memory, SNAPSHOT) + 1
    && (Version(t.memory, SNAPSHOT) == Version(s.memory, SNAPSHOT) ==> Open(t, SNAPSHOT) == Open(s, SNAPSHOT))
    && Version(s.memory, TIMESTAMP) <= Version(t.memory, TIMESTAMP) <= Version(s.memory, TIMESTAMP) + 1
    && (Version(t.memory, TIMESTAMP) == Version(s.memory, TIMESTAMP) ==> Open(t, TIMESTAMP) == Open(s, TIMESTAMP))
  }

  ghost predicate Untouched(s: State, t: State) {
    && Version(t.memory, SNAPSHOT) == Version(s.memory, SNAPSHOT) && Open(t, SNAPSHOT) == Open(s, SNAPSHOT)
    && Version(t.memory, TIMESTAMP) == Version(s.memory, TIMESTAMP) && Open(t, TIMESTAMP) == Open(s, TIMESTAMP)
  }

  lemma PublishMoves(b: Backend, s: State)
    ensures Advances(s, Final(Publish(b, s)))
    ensures forall role | role !in {SNAPSHOT, TIMESTAMP} ::
              Version(Final(Publish(b, s)).memory, role) == Version(s.memory, role)
  {
    hide SnapshotDue, SnapshotFell, TimestampDue, TimestampSnapshot, SnapshotMeta, TargetsInfos;
  }

  lemma CloseLeaves(b: Backend, s: State, role: Role, body: Body)
    requires role !in {SNAPSHOT, TIMESTAMP}
    ensures Close(b, s, role, body).Ok? ==>
              var t := Close(b, s, role, body).value;
              && Untouched(s, t) && Version(t.memory, role) == Version(s.memory, role) + 1
              && forall r | r != role :: Version(t.memory, r) == Version(s.memory, r)
  {
  }

  lemma PutTargetMoves(b: Backend, s: State, role: Role, path: string, bytes: Bytes, info: ReleaseInfo)
    requires role !in {SNAPSHOT, TIMESTAMP} && PutTarget(b, s, role, path, bytes, info).error.None?
    ensures var t := Final(PutTarget(b, s, role, path, bytes, info));
            && Advances(s, t)
            && forall r | r !in {role, SNAPSHOT, TIMESTAMP} :: Version(t.memory, r) == Version(s.memory, r)
  {
    hide Publish, Close, Targets, EntryFor;
    var s1 := StorePayload(s, path, bytes);
    var body := Targets(s1, role).(targets := Targets(s1, role).targets[path := EntryFor(bytes, info)]);
    assert Untouched(s, s1);
    hide Untouched;
    CloseLeaves(b, s1, role, body);
    PublishMoves(b, Close(b, s1, role, body).value);
    UntouchedMoves(s1, Close(b, s1, role, body).value, Final(Publish(b, Close(b, s1, role, body).value)));
    UntouchedMoves(s, s1, Final(Publish(b, Close(b, s1, role, body).value)));
  }

  lemma UntouchedMoves(s: State, x: State, t: State)
    requires Untouched(s, x) && Advances(x, t)
    ensures Advances(s, t)
  {
    hide Open;
  }

  lemma AdmitMoves(b: Backend, s: State, role: Role)
    requires role !in TOP_LEVEL_ROLES && Admit(b, s, role).error.None?
    ensures var t := Final(Admit(b, s, role));
            && Advances(s, t) && Version(t.memory, role) == Version(s.memory, role) + 1
            && forall r | r !in {role, SNAPSHOT, TIMESTAMP} :: Version(t.memory, r) == Version(s.memory, r)
  {
    hide Publish, Close, Targets;
    var s1 := AddAppRole(s, role);
    assert Untouched(s, s1);
    hide Untouched;
    CloseLeaves(b, s1, role, Targets(s1, role));
    var s2 := Close(b, s1, role, Targets(s1, role)).value;
    PublishMoves(b, s2);
    UntouchedMoves(s1, s2, Final(Publish(b, s2)));
    UntouchedMoves(s, s1, Final(Publish(b, s2)));
  }

  lemma AddAppMoves(b: Backend, s: State, appId: string, critical: bool)
    requires AddApp(b, s, appId, critical).error.None?
    ensures var t, role := Final(AddApp(b, s, appId, critical)), AppRoleName(appId);
            && Advances(s, t) && Version(t.memory, TARGETS) == Version(s.memory, TARGETS) + 1
            && Version(t.memory, role) == Version(s.memory, role) + 1
            && forall r | r !in {TARGETS, role, SNAPSHOT, TIMESTAMP} :: Version(t.memory, r) == Version(s.memory, r)
  {
    var role := AppRoleName(appId);
    AppRoleIsNotTop(appId);
    hide Admit, Close, Targets, PutDelegation, KeyIds, DelegationFor;
    var s0 := SetPolicy(s, role, AppRolePolicy(critical));
    assert Untouched(s, s0);
    hide Untouched;
    var targets := Targets(s0, TARGETS);
    var body := targets.(delegations := PutDelegation(targets.delegations, DelegationFor(b, appId)));
    CloseLeaves(b, s0, TARGETS, body);
    var s1 := Close(b, s0, TARGETS, body).value;
    AdmitMoves(b, s1, role);
    UntouchedMoves(s0, s1, Final(Admit(b, s1, role)));
    UntouchedMoves(s, s0, Final(Admit(b, s1, role)));
  }

  // ---------------------------------------------------- what an operation leaves

  /** The operations that list or delegate something. */
  predicate Rises(op: Operation) {
    op.OpAddApp? || op.OpAddRelease? || op.OpSetCurrent?
  }

  /** The role whose file an operation is for. */
  function Subject(op: Operation): Role
    requires Rises(op)
  {
    match op
    case OpAddApp(_, _) => TARGETS
    case OpAddRelease(key, _, _) => AppRoleName(key.appId)
    case OpSetCurrent(key) => AppRoleName(key.appId)
  }

  /** Where it ends: published, its own role one further, the snapshot one further. */
  ghost predicate Rose(ring: Backend, s: State, t: State, role: Role) {
    && Ready(ring, t) && Advertised(t) && s.memory.appRoles <= t.memory.appRoles
    && role in {TARGETS} + s.memory.appRoles
    && Version(t.memory, role) == Version(s.memory, role) + 1
    && Version(t.memory, SNAPSHOT) == Version(s.memory, SNAPSHOT) + 1
    && Version(t.memory, TIMESTAMP) <= Version(s.memory, TIMESTAMP) + 1
  }

  /** A snapshot never names a version that `_versions` does not have yet. */
  lemma MetaIsBelow(s: State, role: Role)
    requires Inv(s) && Version(s.memory, TARGETS) > 0 && role in SnapshotMeta(s) && role != ROOT
    ensures SnapshotMeta(s)[role] <= Version(s.memory, role)
  {
    if Version(s.memory, SNAPSHOT) > 0 {
      MetaNamesFiles(s);
      hide PayloadsStored, Closed, SnapshotsRise, Shaped, RolesKnown;
    } else {
      hide Inv;
      assert SnapshotMeta(s) == map[TARGETS := 1];
    }
  }

  lemma SnapshotRises(s: State, t: State, role: Role)
    requires Inv(s) && Version(s.memory, TARGETS) > 0 && Advances(s, t) && Advertised(t)
    requires role in {TARGETS} + t.memory.appRoles && Version(t.memory, role) == Version(s.memory, role) + 1
    requires role != ROOT
    ensures Version(t.memory, SNAPSHOT) == Version(s.memory, SNAPSHOT) + 1
  {
    if Version(t.memory, SNAPSHOT) == Version(s.memory, SNAPSHOT) {
      assert SnapshotMeta(t) == SnapshotMeta(s);
      assert role in SnapshotMeta(t) && SnapshotMeta(t)[role] == Version(t.memory, role);
      hide Inv, Advances, Advertised;
      MetaIsBelow(s, role);
    }
  }

  lemma PerformRises(ring: Backend, s: State, op: Operation)
    requires Ready(ring, s) && Accepted(ring, s, op) && Rises(op)
    ensures Rose(ring, s, Final(Perform(ring, s, op)), Subject(op))
    ensures !op.OpAddApp? ==>
              && Intended(ring, s, op) == map[Subject(op) := Targets(Final(Perform(ring, s, op)), Subject(op))]
              && forall r | r !in {Subject(op), SNAPSHOT, TIMESTAMP} ::
                   Version(Final(Perform(ring, s, op)).memory, r) == Version(s.memory, r)
  {
    hide DiskOk, Newest, RolesKnown, Signed, Capable, Advertised, PutTarget, AddApp, Holds, Lists, Advances, Path,
         PointerPath;
    HoldsItself(ring, op);
    match op {
      case OpAddApp(appId, critical) =>
        AddAppEnds(ring, ring, s, appId, critical);
        AddAppMoves(ring, s, appId, critical);
      case OpAddRelease(key, payload, info) =>
        AppRoleIsNotTop(key.appId);
        AddReleaseEnds(ring, ring, s, key, payload, info);
        ListsVersion(s, Final(AddRelease(ring, s, key, payload, info)), AppRoleName(key.appId), Path(key), payload,
                     info);
        PutTargetMoves(ring, s, AppRoleName(key.appId), Path(key), payload, info);
      case OpSetCurrent(key) =>
        AppRoleIsNotTop(key.appId);
        SetCurrentEnds(ring, ring, s, key);
        ListsVersion(s, Final(SetCurrent(ring, s, key)), AppRoleName(key.appId), PointerPath(ChannelOf(key)),
                     PointerJson(Path(key), key.version), PointerInfo(key.version));
        PutTargetMoves(ring, s, AppRoleName(key.appId), PointerPath(ChannelOf(key)),
                       PointerJson(Path(key), key.version), PointerInfo(key.version));
    }
    var t := Final(Perform(ring, s, op));
    SubjectIsNotRoot(op);
    hide Perform;
    SnapshotRises(s, t, Subject(op));
    MovesTimestamp(s, t);
  }

  lemma MovesTimestamp(s: State, t: State)
    requires Advances(s, t)
    ensures Version(t.memory, TIMESTAMP) <= Version(s.memory, TIMESTAMP) + 1
  {
  }

  lemma SubjectIsNotRoot(op: Operation)
    requires Rises(op)
    ensures Subject(op) !in {ROOT, SNAPSHOT, TIMESTAMP}
  {
    match op {
      case OpAddApp(_, _) =>
      case OpAddRelease(key, _, _) => AppRoleIsNotTop(key.appId);
      case OpSetCurrent(key) => AppRoleIsNotTop(key.appId);
    }
  }

  lemma ListsVersion(s: State, t: State, role: Role, path: string, bytes: Bytes, info: ReleaseInfo)
    requires Lists(s, t, role, path, bytes, info)
    ensures Version(t.memory, role) == Version(s.memory, role) + 1 && t.memory.appRoles == s.memory.appRoles
    ensures Targets(t, role) == Listing(s, role, path, EntryFor(bytes, info))
  {
  }

  // ---------------------------------------------------------------- the pair

  lemma OpensFile(s: State, role: Role)
    requires Inv(s) && role !in {ROOT, TIMESTAMP} && Version(s.memory, role) > 0
    ensures Versioned(role, Version(s.memory, role)) in s.disk.files
    ensures Open(s, role) == s.disk.files[Versioned(role, Version(s.memory, role))]
  {
    hide DiskOk, RolesKnown;
  }

  lemma NamesVersion(s: State, role: Role)
    requires Advertised(s) && role in {TARGETS} + s.memory.appRoles && Version(s.memory, role) > 0
    ensures role in SnapshotMeta(s) && SnapshotMeta(s)[role] == Version(s.memory, role)
    ensures Version(s.memory, SNAPSHOT) > 0
  {
  }

  /** Sharing the next snapshot file means being no further than the other for any role. */
  lemma SharedSnapshot(ring: Backend, t: State, u: State, role: Role)
    requires Ready(ring, t) && Advertised(t) && Ready(ring, u) && Advertised(u) && NoClash(t.disk, u.disk)
    requires Version(t.memory, SNAPSHOT) == Version(u.memory, SNAPSHOT)
    requires role in {TARGETS} + t.memory.appRoles && Version(t.memory, role) > 0 && role != ROOT
    ensures Version(t.memory, role) <= Version(u.memory, role)
  {
    NamesVersion(t, role);
    hide Inv, Signed, Capable, Advertised;
    OpensFile(t, SNAPSHOT);
    OpensFile(u, SNAPSHOT);
    assert Open(t, SNAPSHOT) == Open(u, SNAPSHOT);
    assert SnapshotMeta(t) == SnapshotMeta(u);
    hide SnapshotMeta, Open;
    MetaIsBelow(u, role);
  }

  lemma ClashIsMutual(d: Disk, e: Disk)
    requires NoClash(d, e)
    ensures NoClash(e, d)
  {
  }

  /** Two processes for different roles always meet at the next snapshot. */
  lemma OthersClash(ring: Backend, s: State, t: State, u: State, role: Role, other: Role)
    requires Rose(ring, s, t, role) && Rose(ring, s, u, other)
    requires Version(u.memory, role) == Version(s.memory, role) && role !in {ROOT, SNAPSHOT, TIMESTAMP}
    ensures !NoClash(t.disk, u.disk) && !NoClash(u.disk, t.disk)
  {
    hide Ready, Advertised, NoClash;
    if NoClash(u.disk, t.disk) { ClashIsMutual(u.disk, t.disk); }
    if NoClash(t.disk, u.disk) { SharedSnapshot(ring, t, u, role); }
  }

  lemma SharedListing(ring: Backend, t: State, u: State, role: Role)
    requires Ready(ring, t) && Ready(ring, u) && NoClash(t.disk, u.disk) && role !in TOP_LEVEL_ROLES
    requires Version(t.memory, role) == Version(u.memory, role) > 0
    ensures Targets(t, role) == Targets(u, role)
  {
    hide Inv, Signed, Capable;
    OpensFile(t, role);
    OpensFile(u, role);
    assert Open(t, role) == Open(u, role);
  }

  /** The same metadata and memory, but for custody: policies agree in what they ask of signers. */
  ghost predicate Alike(x: State, y: State) {
    && x.disk.files == y.disk.files
    && x.memory.versions == y.memory.versions && x.memory.appRoles == y.memory.appRoles
    && x.memory.policies.Keys == y.memory.policies.Keys
    && forall role | role in x.memory.policies :: x.memory.policies[role].threshold == y.memory.policies[role].threshold
  }

  lemma MemoriesAlike(x: State, y: State)
    requires Alike(x, y)
    ensures TargetsInfos(x.memory) == TargetsInfos(y.memory) && SnapshotInfo(x.memory) == SnapshotInfo(y.memory)
  {
    assert forall role :: Version(x.memory, role) == Version(y.memory, role);
  }

  lemma OpensAlike(x: State, y: State, role: Role)
    requires Alike(x, y)
    ensures Open(x, role) == Open(y, role)
  {
  }

  lemma WriteAlike(b: Backend, x: State, y: State, role: Role, body: Body)
    requires Alike(x, y)
    ensures Close(b, x, role, body).Ok? == Close(b, y, role, body).Ok?
    ensures Close(b, x, role, body).Ok? ==> Alike(Close(b, x, role, body).value, Close(b, y, role, body).value)
  {
  }

  lemma SnapshotAlike(b: Backend, x: State, y: State)
    requires Alike(x, y)
    ensures DoSnapshot(b, x).Ok? == DoSnapshot(b, y).Ok?
    ensures DoSnapshot(b, x).Ok? ==> Alike(DoSnapshot(b, x).value, DoSnapshot(b, y).value)
  {
    OpensAlike(x, y, ROOT);
    OpensAlike(x, y, SNAPSHOT);
    assert RootKeys(x, SNAPSHOT) == RootKeys(y, SNAPSHOT) && SnapshotMeta(x) == SnapshotMeta(y);
    MemoriesAlike(x, y);
    WriteAlike(b, x, y, SNAPSHOT, SnapshotBody(SnapshotMeta(x) + TargetsInfos(x.memory)));
    hide Close, Open, RootKeys, SnapshotMeta, TargetsInfos, Alike;
    DueAlike(y, x);
    hide SnapshotDue, SnapshotFell;
  }

  lemma TimestampAlike(b: Backend, x: State, y: State)
    requires Alike(x, y)
    ensures DoTimestamp(b, x).Ok? == DoTimestamp(b, y).Ok?
    ensures DoTimestamp(b, x).Ok? ==> Alike(DoTimestamp(b, x).value, DoTimestamp(b, y).value)
  {
    OpensAlike(x, y, ROOT);
    OpensAlike(x, y, TIMESTAMP);
    assert RootKeys(x, TIMESTAMP) == RootKeys(y, TIMESTAMP);
    MemoriesAlike(x, y);
    WriteAlike(b, x, y, TIMESTAMP, TimestampBody(SnapshotInfo(x.memory)));
    hide Close, Open, RootKeys, SnapshotInfo, Alike;
  }

  /** Publishing looks at metadata only. */
  lemma PublishAlike(b: Backend, x: State, y: State)
    requires Alike(x, y)
    ensures Alike(Final(Publish(b, x)), Final(Publish(b, y)))
  {
    hide Alike, DoSnapshot, DoTimestamp;
    SnapshotAlike(b, x, y);
    if DoSnapshot(b, x).Ok? {
      TimestampAlike(b, DoSnapshot(b, x).value, DoSnapshot(b, y).value);
    }
  }

  lemma PutTargetStops(b: Backend, s: State, role: Role, path: string, bytes: Bytes, info: ReleaseInfo)
    requires var s1 := StorePayload(s, path, bytes);
             Close(b, s1, role, Listing(s1, role, path, EntryFor(bytes, info))).Err?
    ensures Final(PutTarget(b, s, role, path, bytes, info)) == StorePayload(s, path, bytes)
  {
    hide Publish, Targets;
  }

  lemma StoredAlike(s: State, path: string, bytes: Bytes, path': string, bytes': Bytes, role: Role, listed: string,
                    e: Entry)
    ensures Alike(StorePayload(s, path, bytes), StorePayload(s, path', bytes'))
    ensures Listing(StorePayload(s, path, bytes), role, listed, e) == Listing(s, role, listed, e)
  {
    assert Open(StorePayload(s, path, bytes), role) == Open(s, role);
  }

  lemma PutTargetAlike(b: Backend, s: State, role: Role, path: string, bytes: Bytes, info: ReleaseInfo, path': string,
                       bytes': Bytes, info': ReleaseInfo)
    requires Listing(s, role, path, EntryFor(bytes, info)) == Listing(s, role, path', EntryFor(bytes', info'))
    ensures Alike(Final(PutTarget(b, s, role, path, bytes, info)), Final(PutTarget(b, s, role, path', bytes', info')))
  {
    hide Publish, EntryFor, Alike, Listing, StorePayload, PutTarget, Close;
    var s1, s1' := StorePayload(s, path, bytes), StorePayload(s, path', bytes');
    StoredAlike(s, path, bytes, path', bytes', role, path, EntryFor(bytes, info));
    StoredAlike(s, path', bytes', path, bytes, role, path', EntryFor(bytes', info'));
    var body := Listing(s, role, path, EntryFor(bytes, info));
    WriteAlike(b, s1, s1', role, body);
    if Close(b, s1, role, body).Ok? {
      PutTargetRuns(b, s, role, path, bytes, info);
      PutTargetRuns(b, s, role, path', bytes', info');
      PublishAlike(b, Close(b, s1, role, body).value, Close(b, s1', role, body).value);
    } else {
      PutTargetStops(b, s, role, path, bytes, info);
      PutTargetStops(b, s, role, path', bytes', info');
    }
  }

  lemma AdmitStops(b: Backend, s: State, role: Role)
    requires Close(b, AddAppRole(s, role), role, Targets(AddAppRole(s, role), role)).Err?
    ensures Final(Admit(b, s, role)) == AddAppRole(s, role)
  {
    hide Publish, Targets;
  }

  lemma AdmitAlike(b: Backend, x: State, y: State, role: Role)
    requires Alike(x, y)
    ensures Alike(Final(Admit(b, x, role)), Final(Admit(b, y, role)))
  {
    var x1, y1 := AddAppRole(x, role), AddAppRole(y, role);
    assert Alike(x1, y1);
    OpensAlike(x1, y1, role);
    assert Targets(x1, role) == Targets(y1, role);
    var body := Targets(x1, role);
    hide Alike, Open, Close, Publish, Targets, Admit;
    WriteAlike(b, x1, y1, role, body);
    if Close(b, x1, role, body).Ok? {
      AdmitRuns(b, x, role);
      AdmitRuns(b, y, role);
      PublishAlike(b, Close(b, x1, role, body).value, Close(b, y1, role, body).value);
    } else {
      AdmitStops(b, x, role);
      AdmitStops(b, y, role);
    }
  }

  lemma AddAppEnd(b: Backend, s: State, appId: string, critical: bool)
    ensures var s0 := SetPolicy(s, AppRoleName(appId), AppRolePolicy(critical));
            Final(AddApp(b, s, appId, critical)) ==
              if !IsAppId(appId) then s
              else if KeyIds(b, AppRoleName(appId)) == {} then s0
              else Final(Delegate(b, s0, appId))
  {
    hide Delegate, KeyIds;
  }

  lemma DelegateEnd(b: Backend, s: State, appId: string)
    ensures var closed := Close(b, s, TARGETS, Delegating(b, s, appId));
            Final(Delegate(b, s, appId)) == if closed.Ok? then Final(Admit(b, closed.value, AppRoleName(appId))) else s
  {
    hide Close, Admit, Targets, PutDelegation, DelegationFor;
  }

  lemma DelegatingAlike(b: Backend, x: State, y: State, appId: string)
    requires Alike(x, y)
    ensures Delegating(b, x, appId) == Delegating(b, y, appId)
  {
    hide Alike, Open, PutDelegation, DelegationFor;
    OpensAlike(x, y, TARGETS);
  }

  lemma DelegateAlike(b: Backend, x: State, y: State, appId: string)
    requires Alike(x, y)
    ensures Alike(Final(Delegate(b, x, appId)), Final(Delegate(b, y, appId)))
  {
    hide Alike, Close, Admit, Delegate, Delegating, AppRoleName;
    DelegateEnd(b, x, appId);
    DelegateEnd(b, y, appId);
    DelegatingAlike(b, x, y, appId);
    WriteAlike(b, x, y, TARGETS, Delegating(b, x, appId));
    var closed := Close(b, x, TARGETS, Delegating(b, x, appId));
    if closed.Ok? {
      AdmitAlike(b, closed.value, Close(b, y, TARGETS, Delegating(b, x, appId)).value, AppRoleName(appId));
    }
  }

  /** Adding one application with either custody writes the same metadata. */
  lemma AddAppAlike(b: Backend, s: State, appId: string, critical: bool, otherwise: bool)
    ensures Alike(Final(AddApp(b, s, appId, critical)), Final(AddApp(b, s, appId, otherwise)))
  {
    hide AddApp, Delegate, KeyIds;
    AddAppEnd(b, s, appId, critical);
    AddAppEnd(b, s, appId, otherwise);
    var role := AppRoleName(appId);
    var x, y := SetPolicy(s, role, AppRolePolicy(critical)), SetPolicy(s, role, AppRolePolicy(otherwise));
    DelegateAlike(b, x, y, appId);
  }

  lemma SameIntentAlike(ring: Backend, s: State, mine: Operation, theirs: Operation)
    requires Accepted(ring, s, mine) && Accepted(ring, s, theirs)
    requires Intended(ring, s, mine) == Intended(ring, s, theirs)
    requires (mine.OpAddRelease? || mine.OpSetCurrent?) && (theirs.OpAddRelease? || theirs.OpSetCurrent?)
    ensures Alike(Final(Perform(ring, s, mine)), Final(Perform(ring, s, theirs)))
  {
    var role := Subject(mine);
    assert role in Intended(ring, s, mine) && Subject(theirs) == role by {
      IntendedFor(ring, s, mine);
      IntendedFor(ring, s, theirs);
    }
    var (p, x, i) := Put(mine);
    var (p', x', i') := Put(theirs);
    PerformIsPut(ring, s, mine);
    PerformIsPut(ring, s, theirs);
    hide Perform, Accepted, PutTarget, Put, Path, PointerPath, Alike;
    PutTargetAlike(ring, s, role, p, x, i, p', x', i');
  }

  /** What a listing operation puts where. */
  function Put(op: Operation): (string, Bytes, ReleaseInfo)
    requires op.OpAddRelease? || op.OpSetCurrent?
  {
    match op
    case OpAddRelease(key, payload, info) => (Path(key), payload, info)
    case OpSetCurrent(key) =>
      (PointerPath(ChannelOf(key)), PointerJson(Path(key), key.version), PointerInfo(key.version))
  }

  lemma IntendedFor(ring: Backend, s: State, op: Operation)
    requires op.OpAddRelease? || op.OpSetCurrent?
    ensures Intended(ring, s, op).Keys == {Subject(op)}
    ensures Intended(ring, s, op)[Subject(op)] == Listing(s, Subject(op), Put(op).0, EntryFor(Put(op).1, Put(op).2))
  {
    hide Path, PointerPath, Listing;
  }

  lemma PerformIsPut(ring: Backend, s: State, op: Operation)
    requires (op.OpAddRelease? || op.OpSetCurrent?) && Accepted(ring, s, op)
    ensures Perform(ring, s, op) == PutTarget(ring, s, Subject(op), Put(op).0, Put(op).1, Put(op).2)
  {
    hide Path, PointerPath, PutTarget, Targets;
  }

  /** The disk the other process leaves keeps all that was scanned. */
  lemma TheirsIsLater(ring: Backend, s: State, theirs: Operation)
    requires Ready(ring, s) && Accepted(ring, s, theirs) && Rises(theirs)
    ensures Later(ring, s.disk, Final(Perform(ring, s, theirs)).disk)
  {
    PerformRises(ring, s, theirs);
    hide DiskOk, Newest, RolesKnown, Signed, Capable, Advertised, Perform, Grows;
    PerformKeeps(ring, s, theirs);
    var trail := Perform(ring, s, theirs).trail;
    GrowsReflexive(s.disk);
    GrowsAlong(trail, 0, |trail| - 1);
  }

  lemma TheirTimestampIsSafe(ring: Backend, s: State, u: State, role: Role)
    requires Rose(ring, s, u, role)
    ensures TimestampSafe(u.disk, s.memory, Version(s.memory, SNAPSHOT) + 1)
    ensures TimestampJson in u.disk.files
    ensures u.disk.files[TimestampJson].body == TimestampBody(Version(s.memory, SNAPSHOT) + 1)
  {
    hide PayloadsStored, Closed, SnapshotsRise, RolesKnown, Signed, Capable, Shaped;
  }

  /**
   Two processes from one scan, one after the other, ceremonies against signers included: the second is
   harmless exactly when it lists the very same thing. Another release, another application or a
   delegation in between, and it writes over the first one's published metadata.
   */
  lemma TakingTurnsIff(b: Backend, c: Backend, ring: Backend, s: State, mine: Operation, theirs: Operation)
    requires Ready(ring, s) && Accepted(ring, s, mine) && Accepted(ring, s, theirs)
    requires Rises(mine) && Rises(theirs)
    requires Holds(b, ring, mine) && Holds(c, ring, theirs)
    ensures var d := Final(Perform(c, s, theirs)).disk;
            AllGrow(d, Perform(b, State(d, s.memory), mine).trail) <==>
              Intended(ring, s, mine) == Intended(ring, s, theirs)
  {
    hide Ready, Accepted, Holds, Perform, AllGrow, NoClash, TimestampSafe, Later, Intended, Advertised;
    PerformSame(c, ring, s, theirs);
    TheirsIsLater(ring, s, theirs);
    PerformRises(ring, s, mine);
    PerformRises(ring, s, theirs);
    var t, u := Final(Perform(ring, s, mine)), Final(Perform(ring, s, theirs));
    StaleRunHarmlessIff(b, ring, s.disk, s.memory, u.disk, mine);
    PerformSame(b, ring, s, mine);
    TheirTimestampIsSafe(ring, s, u, Subject(theirs));
    assert NoClash(t.disk, u.disk) <==> Intended(ring, s, mine) == Intended(ring, s, theirs) by {
      ClashIff(ring, s, mine, theirs);
    }
  }

  lemma AlikeNeverClash(t: State, u: State)
    requires Alike(t, u)
    ensures NoClash(t.disk, u.disk)
  {
  }

  lemma AddAppRises(ring: Backend, s: State, appId: string, critical: bool)
    requires Ready(ring, s) && Accepted(ring, s, OpAddApp(appId, critical))
    ensures var t, role := Final(Perform(ring, s, OpAddApp(appId, critical))), AppRoleName(appId);
            && role in t.memory.appRoles && Version(t.memory, role) == Version(s.memory, role) + 1
            && forall r | r !in {TARGETS, role, SNAPSHOT, TIMESTAMP} :: Version(t.memory, r) == Version(s.memory, r)
  {
    HoldsItself(ring, OpAddApp(appId, critical));
    hide Ready, Advertised, Holds, AddApp, KeyIds, Targets, Advances;
    AddAppEnds(ring, ring, s, appId, critical);
    AddAppMoves(ring, s, appId, critical);
  }

  lemma AppIntent(ring: Backend, s: State, op: Operation)
    requires op.OpAddApp?
    ensures Intended(ring, s, op).Keys == {TARGETS, AppRoleName(op.appId)}
  {
    hide Delegating, Targets;
  }

  lemma SameAppSameIntent(ring: Backend, s: State, mine: Operation, theirs: Operation)
    requires mine.OpAddApp? && theirs.OpAddApp? && mine.appId == theirs.appId
    ensures Intended(ring, s, mine) == Intended(ring, s, theirs)
  {
    hide Delegating, Targets;
  }

  lemma RolesDiffer(a: string, b: string)
    requires a != b
    ensures AppRoleName(a) != AppRoleName(b)
  {
    assert AppRoleName(a)[4..] == a && AppRoleName(b)[4..] == b;
  }

  /** A role only one of the two has moved. */
  lemma AheadClashes(ring: Backend, s: State, t: State, u: State, role: Role)
    requires Rose(ring, s, t, TARGETS) && Rose(ring, s, u, TARGETS) && role in t.memory.appRoles && role != ROOT
    requires Version(t.memory, role) == Version(s.memory, role) + 1
    requires Version(u.memory, role) == Version(s.memory, role)
    ensures !NoClash(t.disk, u.disk)
  {
    hide Ready, Advertised, NoClash;
    if NoClash(t.disk, u.disk) { SharedSnapshot(ring, t, u, role); }
  }

  lemma OtherAppsClash(ring: Backend, s: State, appId: string, critical: bool, other: string, otherwise: bool)
    requires Ready(ring, s) && appId != other
    requires Accepted(ring, s, OpAddApp(appId, critical)) && Accepted(ring, s, OpAddApp(other, otherwise))
    ensures !NoClash(Final(Perform(ring, s, OpAddApp(appId, critical))).disk,
                     Final(Perform(ring, s, OpAddApp(other, otherwise))).disk)
  {
    AppRoleIsNotTop(appId);
    RolesDiffer(appId, other);
    hide Ready, Perform, NoClash, KeyIds, AppRoleName, Rose, Accepted;
    PerformRises(ring, s, OpAddApp(appId, critical));
    PerformRises(ring, s, OpAddApp(other, otherwise));
    AddAppRises(ring, s, appId, critical);
    AddAppRises(ring, s, other, otherwise);
    AheadClashes(ring, s, Final(Perform(ring, s, OpAddApp(appId, critical))),
                 Final(Perform(ring, s, OpAddApp(other, otherwise))), AppRoleName(appId));
  }

  /** Two ceremonies from one scan: harmless exactly when they add the same application. */
  lemma CeremoniesClashIff(ring: Backend, s: State, mine: Operation, theirs: Operation)
    requires Ready(ring, s) && Accepted(ring, s, mine) && Accepted(ring, s, theirs)
    requires mine.OpAddApp? && theirs.OpAddApp?
    ensures NoClash(Final(Perform(ring, s, mine)).disk, Final(Perform(ring, s, theirs)).disk) <==>
              Intended(ring, s, mine) == Intended(ring, s, theirs)
  {
    hide Ready, Accepted, AddApp, NoClash, Intended, Alike, AppRoleName;
    if mine.appId == theirs.appId {
      AddAppAlike(ring, s, mine.appId, mine.critical, theirs.critical);
      AlikeNeverClash(Final(Perform(ring, s, mine)), Final(Perform(ring, s, theirs)));
      SameAppSameIntent(ring, s, mine, theirs);
    } else {
      OtherAppsClash(ring, s, mine.appId, mine.critical, theirs.appId, theirs.critical);
      OtherAppsDiffer(ring, s, mine, theirs);
    }
  }

  lemma OtherAppsDiffer(ring: Backend, s: State, mine: Operation, theirs: Operation)
    requires mine.OpAddApp? && theirs.OpAddApp? && mine.appId != theirs.appId
    ensures Intended(ring, s, mine) != Intended(ring, s, theirs)
  {
    AppRoleIsNotTop(mine.appId);
    RolesDiffer(mine.appId, theirs.appId);
    AppIntent(ring, s, mine);
    AppIntent(ring, s, theirs);
    hide Intended, AppRoleName;
    assert AppRoleName(mine.appId) in Intended(ring, s, mine).Keys;
  }

  lemma ClashIff(ring: Backend, s: State, mine: Operation, theirs: Operation)
    requires Ready(ring, s) && Accepted(ring, s, mine) && Accepted(ring, s, theirs)
    requires Rises(mine) && Rises(theirs)
    ensures NoClash(Final(Perform(ring, s, mine)).disk, Final(Perform(ring, s, theirs)).disk) <==>
              Intended(ring, s, mine) == Intended(ring, s, theirs)
  {
    hide Ready, Accepted, Perform, NoClash, Intended, Rose;
    PerformRises(ring, s, mine);
    PerformRises(ring, s, theirs);
    SubjectIsNotRoot(mine);
    SubjectIsNotRoot(theirs);
    IntendedKeys(ring, s, mine);
    IntendedKeys(ring, s, theirs);
    var t, u := Final(Perform(ring, s, mine)), Final(Perform(ring, s, theirs));
    if mine.OpAddApp? && theirs.OpAddApp? {
      CeremoniesClashIff(ring, s, mine, theirs);
    } else if mine.OpAddApp? {
      assert Version(u.memory, TARGETS) == Version(s.memory, TARGETS);
      OthersClash(ring, s, t, u, TARGETS, Subject(theirs));
    } else if theirs.OpAddApp? {
      assert Version(t.memory, TARGETS) == Version(s.memory, TARGETS);
      OthersClash(ring, s, u, t, TARGETS, Subject(mine));
    } else if Subject(theirs) != Subject(mine) {
      assert Version(u.memory, Subject(mine)) == Version(s.memory, Subject(mine));
      OthersClash(ring, s, t, u, Subject(mine), Subject(theirs));
    } else {
      if NoClash(t.disk, u.disk) { RoseListing(ring, s, t, u, Subject(mine)); }
      if Intended(ring, s, mine) == Intended(ring, s, theirs) {
        SameIntentAlike(ring, s, mine, theirs);
        AlikeNeverClash(t, u);
      }
    }
  }

  lemma IntendedKeys(ring: Backend, s: State, op: Operation)
    requires Rises(op)
    ensures if op.OpAddApp? then TARGETS in Intended(ring, s, op)
            else Intended(ring, s, op).Keys == {Subject(op)} && Subject(op) !in TOP_LEVEL_ROLES
  {
    if op.OpAddApp? {
      hide Delegating, Targets;
    } else {
      SubjectIsNotTop(op);
      IntendedFor(ring, s, op);
    }
  }

  lemma RoseListing(ring: Backend, s: State, t: State, u: State, role: Role)
    requires Rose(ring, s, t, role) && Rose(ring, s, u, role) && NoClash(t.disk, u.disk) && role !in TOP_LEVEL_ROLES
    ensures Targets(t, role) == Targets(u, role)
  {
    hide Ready, Advertised, NoClash, Targets;
    SharedListing(ring, t, u, role);
  }

  lemma SubjectIsNotTop(op: Operation)
    requires op.OpAddRelease? || op.OpSetCurrent?
    ensures Subject(op) !in TOP_LEVEL_ROLES
  {
    match op {
      case OpAddRelease(key, _, _) => AppRoleIsNotTop(key.appId);
      case OpSetCurrent(key) => AppRoleIsNotTop(key.appId);
    }
  }

  // ------------------------------------------------------- a ceremony beside a signer

  /** What clients of a disk are led to for top-level targets. */
  ghost predicate Leads(d: Disk, snapshot: nat, v: nat, body: Body) {
    && TimestampJson in d.files && d.files[TimestampJson].body == TimestampBody(snapshot)
    && Versioned(SNAPSHOT, snapshot) in d.files && d.files[Versioned(SNAPSHOT, snapshot)].body.SnapshotBody?
    && TARGETS in d.files[Versioned(SNAPSHOT, snapshot)].body.meta
    && d.files[Versioned(SNAPSHOT, snapshot)].body.meta[TARGETS] == v
    && Versioned(TARGETS, v) in d.files && d.files[Versioned(TARGETS, v)].body == body
  }

  lemma AdvertisedLeads(ring: Backend, t: State)
    requires Ready(ring, t) && Advertised(t)
    ensures Leads(t.disk, Version(t.memory, SNAPSHOT), Version(t.memory, TARGETS), Targets(t, TARGETS))
  {
    hide Inv, Signed, Capable;
    OpensFile(t, SNAPSHOT);
    OpensFile(t, TARGETS);
    TargetsOk(ring, t, TARGETS);
    assert TimestampJson in t.disk.files by { TimestampIsThere(t); }
  }

  lemma TimestampIsThere(t: State)
    requires Inv(t) && Version(t.memory, TIMESTAMP) > 0
    ensures TimestampJson in t.disk.files
  {
    hide DiskOk, RolesKnown;
  }

  lemma LeadsSurvives(d: Disk, e: Disk, p: Disk, snapshot: nat, v: nat, body: Body)
    requires Leads(p, snapshot, v, body)
    requires forall n: FileName | n.Versioned? && n.role != ROOT && n in p.files ::
               n in e.files && e.files[n] == p.files[n]
    requires TimestampJson in d.files && d.files[TimestampJson].body == TimestampBody(snapshot)
    requires TimestampFrom(d, e, snapshot)
    ensures Leads(e, snapshot, v, body)
  {
  }

  lemma ListingKeepsTop(ring: Backend, s: State, op: Operation)
    requires Ready(ring, s) && Accepted(ring, s, op) && (op.OpAddRelease? || op.OpSetCurrent?)
    ensures Targets(Final(Perform(ring, s, op)), TARGETS) == Targets(s, TARGETS)
  {
    hide Ready, Advertised, Holds, AddRelease, SetCurrent, Path, PointerPath, Open;
    HoldsItself(ring, op);
    match op {
      case OpAddRelease(key, payload, info) =>
        AppRoleIsNotTop(key.appId);
        AddReleaseEnds(ring, ring, s, key, payload, info);
      case OpSetCurrent(key) =>
        AppRoleIsNotTop(key.appId);
        SetCurrentEnds(ring, ring, s, key);
    }
  }

  /**
   A ceremony adds an application while the signer keeps its scan. The signer's next listing writes the
   same snapshot version again, naming the top-level targets from before the ceremony: clients follow the
   timestamp to it, and the new application's delegation is gone.
   */
  lemma CeremonyIsUndone(b: Backend, c: Backend, ring: Backend, s: State, mine: Operation, appId: string,
                         critical: bool)
    requires Ready(ring, s) && Accepted(ring, s, mine) && Accepted(ring, s, OpAddApp(appId, critical))
    requires (mine.OpAddRelease? || mine.OpSetCurrent?) && Holds(b, ring, mine)
    requires Holds(c, ring, OpAddApp(appId, critical))
    requires !Delegates(Targets(s, TARGETS).delegations, AppRoleName(appId))
    ensures var snapshot, v := Version(s.memory, SNAPSHOT) + 1, Version(s.memory, TARGETS);
            var d := Final(Perform(c, s, OpAddApp(appId, critical))).disk;
            var e := Final(Perform(b, State(d, s.memory), mine)).disk;
            && Leads(d, snapshot, v + 1, Delegating(ring, s, appId)) && Leads(e, snapshot, v, Targets(s, TARGETS))
            && Delegates(Delegating(ring, s, appId).delegations, AppRoleName(appId))
  {
    hide Ready, Accepted, Holds, Perform, Later, Advertised, Leads, TimestampFrom, Delegating, Delegates, Targets;
    var theirs := OpAddApp(appId, critical);
    PerformSame(c, ring, s, theirs);
    PerformSame(b, ring, s, mine);
    TheirsIsLater(ring, s, theirs);
    PerformRises(ring, s, mine);
    PerformRises(ring, s, theirs);
    SubjectIsNotTop(mine);
    var t, u := Final(Perform(ring, s, mine)), Final(Perform(ring, s, theirs));
    StaleRunEnds(b, ring, s.disk, s.memory, u.disk, mine);
    TheirTimestampIsSafe(ring, s, u, TARGETS);
    AdvertisedLeads(ring, t);
    AdvertisedLeads(ring, u);
    ListingKeepsTop(ring, s, mine);
    CeremonyEnds(ring, s, appId, critical);
    LeadsSurvives(u.disk, Final(Perform(b, State(u.disk, s.memory), mine)).disk, t.disk,
                  Version(s.memory, SNAPSHOT) + 1,
                  Version(s.memory, TARGETS), Targets(s, TARGETS));
  }

  lemma CeremonyEnds(ring: Backend, s: State, appId: string, critical: bool)
    requires Ready(ring, s) && Accepted(ring, s, OpAddApp(appId, critical))
    ensures Targets(Final(Perform(ring, s, OpAddApp(appId, critical))), TARGETS) == Delegating(ring, s, appId)
    ensures Delegates(Delegating(ring, s, appId).delegations, AppRoleName(appId))
  {
    HoldsItself(ring, OpAddApp(appId, critical));
    hide Ready, Advertised, Holds, AddApp, Delegating, Delegates, Targets, KeyIds;
    AddAppEnds(ring, ring, s, appId, critical);
    DelegatingOk(ring, s, appId);
  }
}

/**
 What is published under one keyring: which files each operation may write, and with what in them;
 that publishing succeeds from every state a run can reach; and that a second publish writes nothing.
 The lemmas marked with a backend and a keyring hold of any backend with the keys it needs.
 */
module Publication {
  import opened Text
  import opened Naming
  import opened Metadata
  import opened Publisher
  import opened PublisherSafety
  import opened PublisherRuns
  import opened Keyrings
  import opened Verifier

  // ------------------------------------------------------------------ frames

  function RoleOf(n: FileName): Role {
    match n
    case Versioned(role, _) => role
    case TimestampJson => TIMESTAMP
    case RootJson => ROOT
  }

  /** `e` is `d` with files added or replaced: snapshots, timestamps, and the allowed bodies of other roles. */
  ghost predicate Adds(b: Backend, allowed: map<Role, Body>, d: Disk, e: Disk) {
    forall n | n in e.files :: (n in d.files && d.files[n] == e.files[n]) || Authored(b, allowed, n, e.files[n])
  }

  ghost predicate Authored(b: Backend, allowed: map<Role, Body>, n: FileName, doc: Doc) {
    && doc.signers == KeyIds(b, RoleOf(n))
    && (RoleOf(n) in {SNAPSHOT, TIMESTAMP} || (RoleOf(n) in allowed && allowed[RoleOf(n)] == doc.body))
  }

  ghost predicate AllAdd(b: Backend, allowed: map<Role, Body>, d: Disk, trail: seq<State>) {
    forall i | 0 <= i < |trail| :: Adds(b, allowed, d, trail[i].disk)
  }

  /** The bodies an operation may write, by role. */
  function Intended(b: Backend, s: State, op: Operation): map<Role, Body> {
    match op
    case OpInitialize => map[ROOT := RootFor(b), TARGETS := Open(s, TARGETS).body]
    case OpAddApp(appId, _) =>
      map[TARGETS := Delegating(b, s, appId), AppRoleName(appId) := Targets(s, AppRoleName(appId))]
    case OpAddRelease(key, payload, info) =>
      map[AppRoleName(key.appId) := Listing(s, AppRoleName(key.appId), Path(key), EntryFor(payload, info))]
    case OpSetCurrent(key) =>
      map[AppRoleName(key.appId) := Listing(s, AppRoleName(key.appId), PointerPath(ChannelOf(key)), PointerEntry(key))]
    case OpPublish => map[]
  }

  /** The top-level targets body that delegates an application. */
  function Delegating(b: Backend, s: State, appId: string): Body {
    var targets := Targets(s, TARGETS);
    targets.(delegations := PutDelegation(targets.delegations, DelegationFor(b, appId)))
  }

  function Listing(s: State, role: Role, path: string, e: Entry): Body {
    var listed := Targets(s, role);
    listed.(targets := listed.targets[path := e])
  }

  function PointerEntry(key: TargetKey): Entry {
    EntryFor(PointerJson(Path(key), key.version), PointerInfo(key.version))
  }

  lemma AppRoleIsNotTop(appId: string)
    ensures AppRoleName(appId) !in TOP_LEVEL_ROLES
  {
    assert AppRoleName(appId)[3] == '-';
    assert ROOT[3] == 't' && TARGETS[3] == 'g' && SNAPSHOT[3] == 'p' && TIMESTAMP[3] == 'e';
  }

  lemma AddsNothing(b: Backend, allowed: map<Role, Body>, d: Disk, e: Disk)
    requires d.files == e.files
    ensures Adds(b, allowed, d, e)
  {
  }

  lemma CloseAdds(b: Backend, allowed: map<Role, Body>, d: Disk, s: State, role: Role, body: Body)
    requires Adds(b, allowed, d, s.disk)
    requires role in {SNAPSHOT, TIMESTAMP} || (role in allowed && allowed[role] == body)
    ensures Close(b, s, role, body).Ok? ==> Adds(b, allowed, d, Close(b, s, role, body).value.disk)
  {
  }

  lemma PublishAdds(b: Backend, allowed: map<Role, Body>, d: Disk, s: State)
    requires Adds(b, allowed, d, s.disk)
    ensures AllAdd(b, allowed, d, Publish(b, s).trail)
  {
    hide Adds, SnapshotDue, SnapshotFell, TimestampDue;
    CloseAdds(b, allowed, d, s, SNAPSHOT, SnapshotBody(SnapshotMeta(s) + TargetsInfos(s.memory)));
    if DoSnapshot(b, s).Ok? {
      var s1 := DoSnapshot(b, s).value;
      CloseAdds(b, allowed, d, s1, TIMESTAMP, TimestampBody(SnapshotInfo(s1.memory)));
    }
  }

  lemma AllAddAfter(b: Backend, allowed: map<Role, Body>, d: Disk, s: State, trail: seq<State>)
    requires Adds(b, allowed, d, s.disk) && AllAdd(b, allowed, d, trail)
    ensures AllAdd(b, allowed, d, [s] + trail)
  {
    hide Adds;
  }

  lemma PutTargetAdds(b: Backend, s: State, role: Role, path: string, bytes: Bytes, info: ReleaseInfo)
    ensures AllAdd(b, map[role := Listing(s, role, path, EntryFor(bytes, info))], s.disk,
                   PutTarget(b, s, role, path, bytes, info).trail)
  {
    hide Adds, Publish;
    var allowed := map[role := Listing(s, role, path, EntryFor(bytes, info))];
    var s1 := StorePayload(s, path, bytes);
    AddsNothing(b, allowed, s.disk, s.disk);
    AddsNothing(b, allowed, s.disk, s1.disk);
    assert Targets(s1, role) == Targets(s, role);
    var body := Listing(s, role, path, EntryFor(bytes, info));
    CloseAdds(b, allowed, s.disk, s1, role, body);
    if Close(b, s1, role, body).Ok? {
      var s2 := Close(b, s1, role, body).value;
      PublishAdds(b, allowed, s.disk, s2);
      AllAddAfter(b, allowed, s.disk, s1, Publish(b, s2).trail);
      AllAddAfter(b, allowed, s.disk, s, [s1] + Publish(b, s2).trail);
    }
  }

  lemma AdmitAdds(b: Backend, allowed: map<Role, Body>, d: Disk, s: State, role: Role)
    requires Adds(b, allowed, d, s.disk) && role in allowed && allowed[role] == Targets(s, role)
    ensures AllAdd(b, allowed, d, Admit(b, s, role).trail)
  {
    hide Adds, Publish;
    var s1 := AddAppRole(s, role);
    assert Targets(s1, role) == Targets(s, role);
    CloseAdds(b, allowed, d, s1, role, Targets(s1, role));
    if Close(b, s1, role, Targets(s1, role)).Ok? {
      var s2 := Close(b, s1, role, Targets(s1, role)).value;
      PublishAdds(b, allowed, d, s2);
      AllAddAfter(b, allowed, d, s1, Publish(b, s2).trail);
      AllAddAfter(b, allowed, d, s, [s1] + Publish(b, s2).trail);
    }
  }

  lemma AddAppAdds(b: Backend, s: State, appId: string, critical: bool)
    ensures AllAdd(b, Intended(b, s, OpAddApp(appId, critical)), s.disk, AddApp(b, s, appId, critical).trail)
  {
    hide Adds, Admit, PutDelegation;
    var role, allowed := AppRoleName(appId), Intended(b, s, OpAddApp(appId, critical));
    AppRoleIsNotTop(appId);
    AddsNothing(b, allowed, s.disk, s.disk);
    var s0 := SetPolicy(s, role, AppRolePolicy(critical));
    assert Targets(s0, TARGETS) == Targets(s, TARGETS) && Targets(s0, role) == Targets(s, role);
    var body := allowed[TARGETS];
    CloseAdds(b, allowed, s.disk, s0, TARGETS, body);
    if IsAppId(appId) && KeyIds(b, role) != {} && Close(b, s0, TARGETS, body).Ok? {
      var s1 := Close(b, s0, TARGETS, body).value;
      assert Targets(s1, role) == Targets(s, role);
      AdmitAdds(b, allowed, s.disk, s1, role);
      AllAddAfter(b, allowed, s.disk, s0, Admit(b, s1, role).trail);
      AllAddAfter(b, allowed, s.disk, s, [s0] + Admit(b, s1, role).trail);
    }
  }

  lemma RootAdds(b: Backend, allowed: map<Role, Body>, d: Disk, s: State, name: FileName, root: Doc)
    requires Adds(b, allowed, d, s.disk) && RoleOf(name) == ROOT
    requires root.signers == KeyIds(b, ROOT) && ROOT in allowed && allowed[ROOT] == root.body
    ensures Adds(b, allowed, d, WriteFile(s, name, root).disk)
  {
  }

  lemma InitializeAdds(b: Backend, s: State)
    ensures AllAdd(b, Intended(b, s, OpInitialize), s.disk, Initialize(b, s).trail)
  {
    hide Adds, Publish, FirstUnkeyed, RootFor;
    var allowed := Intended(b, s, OpInitialize);
    AddsNothing(b, allowed, s.disk, s.disk);
    var signed := Sign(b, s, ROOT, RootFor(b));
    if signed.Ok? {
      var root := signed.value;
      var s1 := WriteFile(s, NameOf(ROOT, root.version), root);
      RootAdds(b, allowed, s.disk, s, NameOf(ROOT, root.version), root);
      RootAdds(b, allowed, s.disk, s1, RootJson, root);
      var s2 := SetVersion(WriteFile(s1, RootJson, root), ROOT, root.version);
      assert Open(s2, TARGETS) == Open(s, TARGETS);
      CloseAdds(b, allowed, s.disk, s2, TARGETS, allowed[TARGETS]);
      if Close(b, s2, TARGETS, allowed[TARGETS]).Ok? {
        var s3 := Close(b, s2, TARGETS, allowed[TARGETS]).value;
        PublishAdds(b, allowed, s.disk, s3);
        AllAddAfter(b, allowed, s.disk, s2, Publish(b, s3).trail);
        AllAddAfter(b, allowed, s.disk, s1, [s2] + Publish(b, s3).trail);
        AllAddAfter(b, allowed, s.disk, s, [s1] + ([s2] + Publish(b, s3).trail));
      }
    }
  }

  /** The exact footprint of every operation, after each of its writes. */
  lemma PerformAdds(b: Backend, s: State, op: Operation)
    ensures AllAdd(b, Intended(b, s, op), s.disk, Perform(b, s, op).trail)
  {
    hide Adds, PutTarget, Publish, Listing;
    AddsNothing(b, Intended(b, s, op), s.disk, s.disk);
    match op {
      case OpInitialize => InitializeAdds(b, s);
      case OpAddApp(appId, critical) => AddAppAdds(b, s, appId, critical);
      case OpAddRelease(key, payload, info) =>
        PutTargetAdds(b, s, AppRoleName(key.appId), Path(key), payload, info);
      case OpSetCurrent(key) =>
        PutTargetAdds(b, s, AppRoleName(key.appId), PointerPath(ChannelOf(key)),
                      PointerJson(Path(key), key.version), PointerInfo(key.version));
      case OpPublish => PublishAdds(b, map[], s.disk, s);
    }
  }

  // -------------------------------------------------------------- signatures

  /** Signed by the keyring's keys for the role, with a body only this code can have written. */
  ghost predicate Signed(ring: Backend, d: Disk) {
    forall n | n in d.files ::
      d.files[n].signers == KeyIds(ring, RoleOf(n)) && BodyOk(ring, RoleOf(n), d.files[n].body)
  }

  ghost predicate BodyOk(ring: Backend, role: Role, body: Body) {
    if role == ROOT then body == RootFor(ring)
    else if role == TARGETS
    then body.TargetsBody? && body.targets == map[] && AppDelegations(body.delegations) && Keyed(ring, body.delegations)
    else if role in {SNAPSHOT, TIMESTAMP} then true
    else body.TargetsBody? && body.delegations == [] && Described(body.targets)
  }

  ghost predicate Keyed(ring: Backend, delegations: seq<Delegation>) {
    forall i | 0 <= i < |delegations| ::
      KeyIds(ring, delegations[i].role) != {} && delegations[i].keys == RoleKeys(KeyIds(ring, delegations[i].role), 1)
  }

  /** The entry at a release path carries that release's version and a rollout percentage. */
  ghost predicate Described(targets: map<string, Entry>) {
    forall k: TargetKey | Path(k) in targets :: Describes(targets[Path(k)], k.version)
  }

  predicate Describes(e: Entry, version: string) {
    e.custom.version == Some(version) && e.custom.rolloutPct.Some? && e.custom.rolloutPct.value <= 100
  }

  lemma AddsSigned(b: Backend, allowed: map<Role, Body>, d: Disk, e: Disk)
    requires Signed(b, d) && Adds(b, allowed, d, e)
    requires forall role | role in allowed :: BodyOk(b, role, allowed[role])
    ensures Signed(b, e)
  {
    hide BodyOk;
    forall n | n in e.files
      ensures BodyOk(b, RoleOf(n), e.files[n].body) && e.files[n].signers == KeyIds(b, RoleOf(n)) {
      if !(n in d.files && d.files[n] == e.files[n]) {
        assert Authored(b, allowed, n, e.files[n]);
        OnlineBodiesOk(b, RoleOf(n), e.files[n].body);
      }
    }
  }

  lemma OnlineBodiesOk(b: Backend, role: Role, body: Body)
    ensures role in {SNAPSHOT, TIMESTAMP} ==> BodyOk(b, role, body)
  {
  }

  lemma TargetsOk(b: Backend, s: State, role: Role)
    requires Signed(b, s.disk) && role !in {ROOT, SNAPSHOT, TIMESTAMP}
    ensures BodyOk(b, role, Targets(s, role)) && Open(s, role).body == Targets(s, role)
  {
  }

  /** Replacing keeps every position's role; adding appends one that was not there. */
  lemma {:induction false} PutDelegationShape(roles: seq<Delegation>, d: Delegation)
    ensures var after := PutDelegation(roles, d);
            && |roles| <= |after| <= |roles| + 1
            && (forall i | 0 <= i < |roles| ::
                  after[i].role == roles[i].role && (after[i] == roles[i] || after[i] == d))
            && (|after| > |roles| ==> after[|roles|] == d && forall i | 0 <= i < |roles| :: roles[i].role != d.role)
  {
    if roles != [] && roles[0].role != d.role {
      PutDelegationShape(roles[1..], d);
      assert forall i | 1 <= i < |roles| :: roles[i] == roles[1..][i - 1];
    }
  }

  /** Whoever looks the role up finds the new delegation; every other role's is found as before. */
  lemma {:induction false} PutDelegationFinds(roles: seq<Delegation>, d: Delegation, role: Role)
    ensures FindDelegation(PutDelegation(roles, d), role)
         == if role == d.role then Some(d) else FindDelegation(roles, role)
  {
    if roles != [] {
      PutDelegationFinds(roles[1..], d, role);
    }
  }

  lemma PutDelegationOk(b: Backend, roles: seq<Delegation>, d: Delegation)
    requires AppDelegations(roles) && Keyed(b, roles) && IsAppDelegation(d) && Keyed(b, [d])
    ensures AppDelegations(PutDelegation(roles, d)) && Keyed(b, PutDelegation(roles, d))
    ensures PutDelegation(roles, d)[0].role == if roles == [] then d.role else roles[0].role
  {
    hide IsAppDelegation, PutDelegation;
    PutDelegationShape(roles, d);
    assert [d][0] == d;
    var after := PutDelegation(roles, d);
    assert |after| > 0 by { PutDelegationMembers(roles, d, d.role); }
  }

  /** Listing one more target keeps a role's body what this code writes. */
  lemma ListingOk(b: Backend, s: State, appId: string, path: string, e: Entry)
    requires Signed(b, s.disk)
    requires forall k: TargetKey | Path(k) == path :: Describes(e, k.version)
    ensures BodyOk(b, AppRoleName(appId), Listing(s, AppRoleName(appId), path, e))
  {
    AppRoleIsNotTop(appId);
    TargetsOk(b, s, AppRoleName(appId));
  }

  predicate IsListed(s: State, key: TargetKey) {
    Path(key) in Targets(s, AppRoleName(key.appId)).targets
  }

  /** What `set_current` checks: a known application, and a release that is published. */
  predicate CanPoint(s: State, key: TargetKey) {
    IsAppId(key.appId) && AppRoleName(key.appId) in s.memory.appRoles && IsListed(s, key)
  }

  /** The guards an operation checks before it writes anything. */
  predicate Accepted(b: Backend, s: State, op: Operation) {
    match op
    case OpInitialize => Version(s.memory, ROOT) == 0
    case OpAddApp(appId, _) => IsAppId(appId) && KeyIds(b, AppRoleName(appId)) != {}
    case OpAddRelease(key, _, info) =>
      info.version == key.version && IsAppId(key.appId) && AppRoleName(key.appId) in s.memory.appRoles
    case OpSetCurrent(key) => CanPoint(s, key)
    case OpPublish => true
  }

  lemma RefusedWritesNothing(b: Backend, s: State, op: Operation)
    requires !Accepted(b, s, op)
    ensures Perform(b, s, op).error.Some?
    ensures forall i | 0 <= i < |Perform(b, s, op).trail| :: Perform(b, s, op).trail[i].disk == s.disk
  {
  }

  lemma IntendedOk(b: Backend, s: State, op: Operation, role: Role)
    requires Signed(b, s.disk) && Accepted(b, s, op) && role in Intended(b, s, op)
    ensures BodyOk(b, role, Intended(b, s, op)[role])
  {
    hide Listing;
    match op {
      case OpInitialize => TargetsOk(b, s, TARGETS);
      case OpAddApp(appId, _) =>
        AppRoleIsNotTop(appId);
        TargetsOk(b, s, TARGETS);
        TargetsOk(b, s, AppRoleName(appId));
        PutDelegationOk(b, Targets(s, TARGETS).delegations, DelegationFor(b, appId));
      case OpAddRelease(key, payload, info) =>
        forall k: TargetKey | Path(k) == Path(key) ensures k.version == key.version { PathsMeet(k, key); }
        ListingOk(b, s, key.appId, Path(key), EntryFor(payload, info));
      case OpSetCurrent(key) =>
        forall k: TargetKey ensures Path(k) != PointerPath(ChannelOf(key)) { ReleaseIsNeverPointer(k, ChannelOf(key)); }
        ListingOk(b, s, key.appId, PointerPath(ChannelOf(key)), PointerEntry(key));
      case OpPublish =>
    }
  }

  lemma KeyringSigned(b: Backend, s: State, op: Operation)
    requires Signed(b, s.disk)
    ensures forall i | 0 <= i < |Perform(b, s, op).trail| :: Signed(b, Perform(b, s, op).trail[i].disk)
  {
    hide Signed, Adds, BodyOk, Perform, Intended, Accepted;
    if Accepted(b, s, op) {
      PerformAdds(b, s, op);
      forall role | role in Intended(b, s, op) ensures BodyOk(b, role, Intended(b, s, op)[role]) {
        IntendedOk(b, s, op, role);
      }
      forall i | 0 <= i < |Perform(b, s, op).trail| ensures Signed(b, Perform(b, s, op).trail[i].disk) {
        AddsSigned(b, Intended(b, s, op), s.disk, Perform(b, s, op).trail[i].disk);
      }
    } else {
      RefusedWritesNothing(b, s, op);
    }
  }

  /**
   Whatever part of the keyring an operation runs with, all it leaves is signed by the keyring's keys for the role.
   */
  lemma PerformSigned(b: Backend, ring: Backend, s: State, op: Operation)
    requires PartOf(b, ring) && Inv(s) && Signed(ring, s.disk)
    ensures forall i | 0 <= i < |Perform(b, s, op).trail| :: Signed(ring, Perform(b, s, op).trail[i].disk)
  {
    hide PartOf, Inv, Signed, Perform;
    KeyringSigned(ring, s, op);
    PerformCut(b, ring, s, op);
    var trail, full := Perform(b, s, op).trail, Perform(ring, s, op).trail;
    assert forall i | 0 <= i < |trail| :: trail[i] == full[i];
  }

  // ------------------------------------------------------- publishing settles

  /** Enough keys for every top-level role. */
  ghost predicate Capable(ring: Backend) {
    forall role | role in TOP_LEVEL_ROLES :: |KeyIds(ring, role)| >= TOP_LEVEL_POLICIES[role].threshold
  }

  /** A state some run under one keyring can have left, with root and targets on disk. */
  ghost predicate Ready(ring: Backend, s: State) {
    Inv(s) && Signed(ring, s.disk) && Capable(ring) && Version(s.memory, ROOT) > 0 && Version(s.memory, TARGETS) > 0
  }

  /** The timestamp names the newest snapshot, and that the newest targets and application roles. */
  ghost predicate Advertised(s: State) {
    && Version(s.memory, SNAPSHOT) > 0 && Version(s.memory, TIMESTAMP) > 0
    && Open(s, TIMESTAMP).body == TimestampBody(Version(s.memory, SNAPSHOT))
    && Open(s, SNAPSHOT).body.SnapshotBody?
    && forall role | role in {TARGETS} + s.memory.appRoles && Version(s.memory, role) > 0 ::
         role in SnapshotMeta(s) && SnapshotMeta(s)[role] == Version(s.memory, role)
  }

  lemma RootNamesKeys(b: Backend, s: State, role: Role)
    requires Inv(s) && Signed(b, s.disk) && Capable(b) && Version(s.memory, ROOT) > 0 && role in TOP_LEVEL_ROLES
    ensures RootKeys(s, role) == RoleKeys(KeyIds(b, role), TOP_LEVEL_POLICIES[role].threshold)
    ensures forall doc: Doc | doc.signers == KeyIds(b, role) :: SignedBy(doc, RootKeys(s, role))
  {
    hide DiskOk, RolesKnown;
    assert Versioned(ROOT, Version(s.memory, ROOT)) in s.disk.files;
    assert Open(s, ROOT).body == RootFor(b);
    forall doc: Doc | doc.signers == KeyIds(b, role) ensures SignedBy(doc, RootKeys(s, role)) {
      assert doc.signers * KeyIds(b, role) == KeyIds(b, role);
    }
  }

  /** Nothing a publish compares against is ahead of `_versions`, so it is never refused as a rollback. */
  lemma NeverFalls(s: State)
    requires Inv(s) && Version(s.memory, TARGETS) > 0
    ensures !SnapshotFell(s)
    ensures Version(s.memory, SNAPSHOT) > 0 ==> TimestampSnapshot(s) <= SnapshotInfo(s.memory)
  {
    if Version(s.memory, SNAPSHOT) > 0 {
      MetaNamesFiles(s);
      hide PayloadsStored, SnapshotsRise, RolesKnown, Shaped;
    } else {
      assert SnapshotMeta(s) == map[TARGETS := 1] by { hide Inv; }
    }
  }

  lemma OpenedIsSigned(b: Backend, s: State, role: Role)
    requires Inv(s) && Signed(b, s.disk) && role != ROOT && Version(s.memory, role) > 0
    ensures NameOf(role, Version(s.memory, role)) in s.disk.files
    ensures Open(s, role).signers == KeyIds(b, role)
  {
    hide DiskOk, RolesKnown, BodyOk;
  }

  /** The snapshot names exactly the versions `_versions` holds. */
  ghost predicate SnapshotCurrent(s: State) {
    && Version(s.memory, SNAPSHOT) > 0
    && Open(s, SNAPSHOT).body.SnapshotBody?
    && forall role | role in {TARGETS} + s.memory.appRoles && Version(s.memory, role) > 0 ::
         role in SnapshotMeta(s) && SnapshotMeta(s)[role] == Version(s.memory, role)
  }

  ghost predicate SameButFor(s: State, t: State, role: Role) {
    && t.memory.appRoles == s.memory.appRoles && t.memory.policies == s.memory.policies
    && forall r | r != role :: Version(t.memory, r) == Version(s.memory, r) && Open(t, r) == Open(s, r)
  }

  lemma SnapshotNotDue(b: Backend, s: State)
    requires Ready(b, s) && Version(s.memory, SNAPSHOT) > 0 && !SnapshotDue(s)
    ensures SnapshotCurrent(s)
  {
    NeverFalls(s);
    hide Signed, Capable;
    hide PayloadsStored, Closed, SnapshotsRise;
  }

  /** A snapshot that names the current versions under the root's keys is left alone. */
  lemma SnapshotIdle(b: Backend, s: State)
    requires Ready(b, s) && SnapshotCurrent(s)
    ensures DoSnapshot(b, s) == Ok(s)
  {
    OpenedIsSigned(b, s, SNAPSHOT);
    RootNamesKeys(b, s, SNAPSHOT);
    NeverFalls(s);
    hide Signed, Capable, Inv;
  }

  lemma WriteRoleOpens(s: State, role: Role, doc: Doc)
    requires doc.version > 0
    ensures Open(WriteRole(s, role, doc), role) == doc
    ensures Version(WriteRole(s, role, doc).memory, role) == doc.version
    ensures SameButFor(s, WriteRole(s, role, doc), role)
  {
  }

  lemma OnlineRoleSigns(b: Backend, s: State, role: Role, body: Body)
    requires Ready(b, s) && role in {SNAPSHOT, TIMESTAMP}
    ensures Sign(b, s, role, body) == Ok(Doc(Version(s.memory, role) + 1, KeyIds(b, role), body))
  {
    assert role in TOP_LEVEL_ROLES && role in s.memory.policies by { hide DiskOk, Newest, Signed; }
    hide Inv, Signed;
  }

  lemma OnlineCloseSigned(b: Backend, s: State, role: Role, body: Body)
    requires Signed(b, s.disk) && role in {SNAPSHOT, TIMESTAMP}
    ensures Close(b, s, role, body).Ok? ==> Signed(b, Close(b, s, role, body).value.disk)
  {
    hide Adds;
    AddsNothing(b, map[], s.disk, s.disk);
    CloseAdds(b, map[], s.disk, s, role, body);
    if Close(b, s, role, body).Ok? {
      AddsSigned(b, map[], s.disk, Close(b, s, role, body).value.disk);
    }
  }

  lemma StillReady(b: Backend, s: State, t: State, role: Role)
    requires Ready(b, s) && Inv(t) && Signed(b, t.disk) && SameButFor(s, t, role) && role in {SNAPSHOT, TIMESTAMP}
    ensures Ready(b, t)
  {
    hide Inv, Signed, Capable;
  }

  lemma SameAsItself(s: State, role: Role)
    ensures SameButFor(s, s, role)
  {
  }

  lemma SnapshotWritten(s: State, doc: Doc, infos: map<Role, nat>)
    requires doc.version > 0 && doc.body.SnapshotBody? && infos == TargetsInfos(s.memory)
    requires forall role | role in infos :: role in doc.body.meta && doc.body.meta[role] == infos[role]
    requires SNAPSHOT !in s.memory.appRoles
    ensures SnapshotCurrent(WriteRole(s, SNAPSHOT, doc))
  {
    WriteRoleOpens(s, SNAPSHOT, doc);
  }

  lemma AppRolesExclude(s: State)
    requires Inv(s)
    ensures s.memory.appRoles !! TOP_LEVEL_ROLES
  {
    hide DiskOk, Newest;
    forall role | role in s.memory.appRoles ensures role !in TOP_LEVEL_ROLES { AppRolesAreNotTopLevel(role); }
  }

  lemma SnapshotStep(b: Backend, s: State)
    requires Ready(b, s)
    ensures DoSnapshot(b, s).Ok?
    ensures var t := DoSnapshot(b, s).value;
            Ready(b, t) && SnapshotCurrent(t) && SameButFor(s, t, SNAPSHOT)
  {
    hide Inv, Signed, Capable, SnapshotDue, SnapshotFell, SameButFor, SnapshotCurrent;
    NeverFalls(s);
    var infos := TargetsInfos(s.memory);
    var body := SnapshotBody(SnapshotMeta(s) + infos);
    OnlineRoleSigns(b, s, SNAPSHOT, body);
    SnapshotStepKeeps(b, s);
    OnlineCloseSigned(b, s, SNAPSHOT, body);
    if SnapshotDue(s) {
      var doc := Sign(b, s, SNAPSHOT, body).value;
      AppRolesExclude(s);
      WriteRoleOpens(s, SNAPSHOT, doc);
      SnapshotWritten(s, doc, infos);
      StillReady(b, s, WriteRole(s, SNAPSHOT, doc), SNAPSHOT);
    } else {
      assert SignedBy(Open(s, SNAPSHOT), RootKeys(s, SNAPSHOT)) by { NotDueIsSigned(s); }
      SignedMeansPresent(s, SNAPSHOT);
      SnapshotNotDue(b, s);
      SameAsItself(s, SNAPSHOT);
    }
  }

  lemma NotDueIsSigned(s: State)
    ensures !SnapshotDue(s) ==> SignedBy(Open(s, SNAPSHOT), RootKeys(s, SNAPSHOT))
    ensures !TimestampDue(s) ==>
              && SignedBy(Open(s, TIMESTAMP), RootKeys(s, TIMESTAMP))
              && TimestampSnapshot(s) >= SnapshotInfo(s.memory)
  {
  }

  lemma TimestampWritten(s: State, doc: Doc)
    requires SnapshotCurrent(s) && doc.version > 0 && doc.body == TimestampBody(Version(s.memory, SNAPSHOT))
    requires TIMESTAMP !in s.memory.appRoles
    ensures Advertised(WriteRole(s, TIMESTAMP, doc))
  {
    WriteRoleOpens(s, TIMESTAMP, doc);
  }

  lemma TimestampNotDue(b: Backend, s: State)
    requires Inv(s) && SnapshotCurrent(s) && !TimestampDue(s) && Version(s.memory, TIMESTAMP) > 0
    requires TimestampSnapshot(s) <= SnapshotInfo(s.memory)
    ensures Advertised(s)
  {
    NotDueIsSigned(s);
    assert Open(s, TIMESTAMP).body.TimestampBody? by { hide PayloadsStored, Closed, SnapshotsRise, RolesKnown; }
    hide Inv, TimestampDue;
  }

  lemma TimestampStep(b: Backend, s: State)
    requires Ready(b, s) && SnapshotCurrent(s)
    ensures DoTimestamp(b, s).Ok?
    ensures var t := DoTimestamp(b, s).value;
            Ready(b, t) && Advertised(t) && SameButFor(s, t, TIMESTAMP)
  {
    hide Inv, Signed, Capable, SameButFor, Advertised, TimestampDue;
    NeverFalls(s);
    var body := TimestampBody(SnapshotInfo(s.memory));
    OnlineRoleSigns(b, s, TIMESTAMP, body);
    TimestampStepKeeps(b, s);
    OnlineCloseSigned(b, s, TIMESTAMP, body);
    if TimestampDue(s) {
      var doc := Sign(b, s, TIMESTAMP, body).value;
      AppRolesExclude(s);
      WriteRoleOpens(s, TIMESTAMP, doc);
      TimestampWritten(s, doc);
      StillReady(b, s, WriteRole(s, TIMESTAMP, doc), TIMESTAMP);
    } else {
      NotDueIsSigned(s);
      SignedMeansPresent(s, TIMESTAMP);
      TimestampNotDue(b, s);
      SameAsItself(s, TIMESTAMP);
    }
  }

  lemma TimestampIdle(b: Backend, s: State)
    requires Ready(b, s) && Advertised(s)
    ensures DoTimestamp(b, s) == Ok(s)
  {
    OpenedIsSigned(b, s, TIMESTAMP);
    RootNamesKeys(b, s, TIMESTAMP);
    hide Signed, Capable, Inv;
  }

  /** Only snapshot and timestamp move. */
  ghost predicate OnlineOnly(s: State, t: State) {
    && t.memory.appRoles == s.memory.appRoles && t.disk.payloads == s.disk.payloads
    && forall r | r !in {SNAPSHOT, TIMESTAMP} ::
         Version(t.memory, r) == Version(s.memory, r) && Open(t, r) == Open(s, r)
  }

  lemma KeyringSettles(b: Backend, s: State)
    requires Ready(b, s)
    ensures var r := Publish(b, s);
            && r.error.None? && Ready(b, Final(r)) && Advertised(Final(r))
            && Publish(b, Final(r)) == Run([Final(r), Final(r), Final(r)], None)
    ensures OnlineOnly(s, Final(Publish(b, s)))
  {
    hide Ready, Advertised, SnapshotCurrent, SnapshotDue, SnapshotFell, TimestampDue;
    SnapshotStep(b, s);
    var s1 := DoSnapshot(b, s).value;
    TimestampStep(b, s1);
    var s2 := DoTimestamp(b, s1).value;
    AdvertisedSnapshot(s2);
    SnapshotIdle(b, s2);
    TimestampIdle(b, s2);
  }

  /**
   From every state a run can leave, a backend with the online keys publishes: it ends with the timestamp
   naming the newest snapshot and that the newest of every role; only snapshot and timestamp move; a
   second publish writes nothing.
   */
  lemma PublishSettles(b: Backend, ring: Backend, s: State)
    requires Ready(ring, s) && Holds(b, ring, OpPublish)
    ensures var r := Publish(b, s);
            && r.error.None? && Ready(ring, Final(r)) && Advertised(Final(r)) && OnlineOnly(s, Final(r))
            && Publish(b, Final(r)) == Run([Final(r), Final(r), Final(r)], None)
  {
    hide Ready, Advertised, OnlineOnly, Publish, Agree;
    assert Agree(b, ring, SNAPSHOT) && Agree(b, ring, TIMESTAMP);
    PublishSame(b, ring, s);
    KeyringSettles(ring, s);
    PublishSame(b, ring, Final(Publish(ring, s)));
  }

  lemma AdvertisedSnapshot(s: State)
    requires Advertised(s)
    ensures SnapshotCurrent(s)
  {
  }
}

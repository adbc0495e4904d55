/**
 Who holds which keys. A keyring is every signing key there is; the offline store, the online store and
 a ceremony's view of both are backends over some of its roles. An operation run by such a backend is
 the keyring's own run of it, cut at the first role whose keys are elsewhere.
 */
module Keyrings {
  import opened Naming
  import opened Metadata
  import opened Publisher
  import opened PublisherSafety

  predicate Agree(b: Backend, ring: Backend, role: Role) {
    KeyIds(b, role) == KeyIds(ring, role)
  }

  /** All of a role's keys or none: a store is listed by the role its entries carry. */
  ghost predicate PartOf(b: Backend, ring: Backend) {
    forall role: Role :: KeyIds(b, role) == {} || Agree(b, ring, role)
  }

  /** The roles an operation signs for, or names the keys of. */
  function Signs(op: Operation): set<Role> {
    match op
    case OpInitialize => TOP_LEVEL_ROLES
    case OpAddApp(appId, _) => {TARGETS, AppRoleName(appId), SNAPSHOT, TIMESTAMP}
    case OpAddRelease(key, _, _) => {AppRoleName(key.appId), SNAPSHOT, TIMESTAMP}
    case OpSetCurrent(key) => {AppRoleName(key.appId), SNAPSHOT, TIMESTAMP}
    case OpPublish => {SNAPSHOT, TIMESTAMP}
  }

  /** The backend holds every key the operation needs. */
  ghost predicate Holds(b: Backend, ring: Backend, op: Operation) {
    forall role | role in Signs(op) :: Agree(b, ring, role)
  }

  lemma HoldsItself(ring: Backend, op: Operation)
    ensures Holds(ring, ring, op)
  {
  }

  // -------------------------------------------------------- with all the keys

  lemma PublishSame(b: Backend, ring: Backend, s: State)
    requires Agree(b, ring, SNAPSHOT) && Agree(b, ring, TIMESTAMP)
    ensures Publish(b, s) == Publish(ring, s)
  {
    hide KeyIds, SnapshotDue, SnapshotFell, TimestampDue, TimestampSnapshot, SnapshotMeta, TargetsInfos;
  }

  lemma PutTargetSame(b: Backend, ring: Backend, s: State, role: Role, path: string, bytes: Bytes, info: ReleaseInfo)
    requires Agree(b, ring, role) && Agree(b, ring, SNAPSHOT) && Agree(b, ring, TIMESTAMP)
    ensures PutTarget(b, s, role, path, bytes, info) == PutTarget(ring, s, role, path, bytes, info)
  {
    hide KeyIds, Targets, Publish;
    var s1 := StorePayload(s, path, bytes);
    var listed := Targets(s1, role);
    var closed := Close(b, s1, role, listed.(targets := listed.targets[path := EntryFor(bytes, info)]));
    if closed.Ok? { PublishSame(b, ring, closed.value); }
  }

  lemma AdmitSame(b: Backend, ring: Backend, s: State, role: Role)
    requires Agree(b, ring, role) && Agree(b, ring, SNAPSHOT) && Agree(b, ring, TIMESTAMP)
    ensures Admit(b, s, role) == Admit(ring, s, role)
  {
    hide KeyIds, Targets, Publish;
    var s1 := AddAppRole(s, role);
    var closed := Close(b, s1, role, Targets(s1, role));
    if closed.Ok? { PublishSame(b, ring, closed.value); }
  }

  lemma AddAppSame(b: Backend, ring: Backend, s: State, appId: string, critical: bool)
    requires Holds(b, ring, OpAddApp(appId, critical))
    ensures AddApp(b, s, appId, critical) == AddApp(ring, s, appId, critical)
  {
    var role := AppRoleName(appId);
    assert Agree(b, ring, TARGETS) && Agree(b, ring, role) && Agree(b, ring, SNAPSHOT) && Agree(b, ring, TIMESTAMP);
    assert DelegationFor(b, appId) == DelegationFor(ring, appId);
    hide KeyIds, Targets, Admit, PutDelegation, DelegationFor;
    var s0 := SetPolicy(s, role, AppRolePolicy(critical));
    var targets := Targets(s0, TARGETS);
    var closed := Close(b, s0, TARGETS,
                        targets.(delegations := PutDelegation(targets.delegations, DelegationFor(b, appId))));
    if closed.Ok? { AdmitSame(b, ring, closed.value, role); }
  }

  lemma {:induction false} FirstUnkeyedSame(b: Backend, ring: Backend, roles: seq<Role>)
    requires forall i | 0 <= i < |roles| :: Agree(b, ring, roles[i])
    ensures FirstUnkeyed(b, roles) == FirstUnkeyed(ring, roles)
  {
    if roles != [] { FirstUnkeyedSame(b, ring, roles[1..]); }
  }

  lemma WriteRootSame(b: Backend, ring: Backend, s: State, root: Doc)
    requires Agree(b, ring, TARGETS) && Agree(b, ring, SNAPSHOT) && Agree(b, ring, TIMESTAMP)
    ensures WriteRoot(b, s, root) == WriteRoot(ring, s, root)
  {
    hide KeyIds, Open, Publish;
    var s2 := SetVersion(WriteFile(WriteFile(s, NameOf(ROOT, root.version), root), RootJson, root), ROOT, root.version);
    var closed := Close(b, s2, TARGETS, Open(s2, TARGETS).body);
    if closed.Ok? { PublishSame(b, ring, closed.value); }
  }

  lemma InitializeSame(b: Backend, ring: Backend, s: State)
    requires Holds(b, ring, OpInitialize)
    ensures Initialize(b, s) == Initialize(ring, s)
  {
    var roles := [ROOT, TARGETS, SNAPSHOT, TIMESTAMP];
    forall role | role in TOP_LEVEL_ROLES ensures Agree(b, ring, role) {
      assert role in Signs(OpInitialize);
    }
    assert RootFor(b) == RootFor(ring);
    FirstUnkeyedSame(b, ring, roles);
    assert Agree(b, ring, ROOT) && Agree(b, ring, TARGETS) && Agree(b, ring, SNAPSHOT) && Agree(b, ring, TIMESTAMP);
    hide KeyIds, RootFor, FirstUnkeyed, WriteRoot;
    var signed := Sign(b, s, ROOT, RootFor(b));
    if signed.Ok? { WriteRootSame(b, ring, s, signed.value); }
  }

  /** With the keys of the roles it signs for, a backend does exactly what the whole keyring would do. */
  lemma PerformSame(b: Backend, ring: Backend, s: State, op: Operation)
    requires Holds(b, ring, op)
    ensures Perform(b, s, op) == Perform(ring, s, op)
  {
    assert forall role | role in Signs(op) :: Agree(b, ring, role);
    hide Agree, PutTarget, Initialize, AddApp, Publish, Targets;
    match op {
      case OpInitialize => InitializeSame(b, ring, s);
      case OpAddApp(appId, critical) => AddAppSame(b, ring, s, appId, critical);
      case OpAddRelease(key, payload, info) =>
        PutTargetSame(b, ring, s, AppRoleName(key.appId), Path(key), payload, info);
      case OpSetCurrent(key) =>
        PutTargetSame(b, ring, s, AppRoleName(key.appId), PointerPath(ChannelOf(key)),
                      PointerJson(Path(key), key.version), PointerInfo(key.version));
      case OpPublish => PublishSame(b, ring, s);
    }
  }

  // ------------------------------------------------------- with some of the keys

  /** The same run, or an error part of the way along it. */
  ghost predicate CutOf(r: Run, full: Run) {
    r == full || (r.error.Some? && r.trail <= full.trail)
  }

  lemma CutAfter(s: State, r: Run, full: Run)
    requires CutOf(r, full)
    ensures CutOf(After(s, r), After(s, full))
  {
  }

  /** A role without keys cannot meet its policy. */
  predicate Armed(s: State, role: Role) {
    role in s.memory.policies ==> s.memory.policies[role].threshold >= 1
  }

  lemma CloseCut(b: Backend, ring: Backend, s: State, role: Role, body: Body)
    requires PartOf(b, ring) && Armed(s, role)
    ensures Close(b, s, role, body).Err? || Close(b, s, role, body) == Close(ring, s, role, body)
  {
    assert KeyIds(b, role) == {} || Agree(b, ring, role);
  }

  lemma CloseKeepsPolicies(b: Backend, s: State, role: Role, body: Body)
    ensures Close(b, s, role, body).Ok? ==> Close(b, s, role, body).value.memory.policies == s.memory.policies
  {
  }

  lemma PublishCut(b: Backend, ring: Backend, s: State)
    requires PartOf(b, ring) && Armed(s, SNAPSHOT) && Armed(s, TIMESTAMP)
    ensures CutOf(Publish(b, s), Publish(ring, s))
  {
    hide PartOf, Close, SnapshotDue, SnapshotFell, TimestampDue, TimestampSnapshot, SnapshotMeta, TargetsInfos;
    var body := SnapshotBody(SnapshotMeta(s) + TargetsInfos(s.memory));
    CloseCut(b, ring, s, SNAPSHOT, body);
    CloseKeepsPolicies(b, s, SNAPSHOT, body);
    if DoSnapshot(b, s).Ok? {
      var s1 := DoSnapshot(b, s).value;
      CloseCut(b, ring, s1, TIMESTAMP, TimestampBody(SnapshotInfo(s1.memory)));
    }
  }

  lemma PutTargetCut(b: Backend, ring: Backend, s: State, role: Role, path: string, bytes: Bytes, info: ReleaseInfo)
    requires PartOf(b, ring) && Armed(s, role) && Armed(s, SNAPSHOT) && Armed(s, TIMESTAMP)
    ensures CutOf(PutTarget(b, s, role, path, bytes, info), PutTarget(ring, s, role, path, bytes, info))
  {
    hide PartOf, Close, Publish, Targets;
    var s1 := StorePayload(s, path, bytes);
    var listed := Targets(s1, role);
    var body := listed.(targets := listed.targets[path := EntryFor(bytes, info)]);
    CloseCut(b, ring, s1, role, body);
    CloseKeepsPolicies(b, s1, role, body);
    if Close(b, s1, role, body).Ok? { PublishCut(b, ring, Close(b, s1, role, body).value); }
  }

  lemma AdmitCut(b: Backend, ring: Backend, s: State, role: Role)
    requires PartOf(b, ring) && Armed(s, role) && Armed(s, SNAPSHOT) && Armed(s, TIMESTAMP)
    ensures CutOf(Admit(b, s, role), Admit(ring, s, role))
  {
    hide PartOf, Close, Publish, Targets;
    var s1 := AddAppRole(s, role);
    CloseCut(b, ring, s1, role, Targets(s1, role));
    CloseKeepsPolicies(b, s1, role, Targets(s1, role));
    if Close(b, s1, role, Targets(s1, role)).Ok? {
      PublishCut(b, ring, Close(b, s1, role, Targets(s1, role)).value);
    }
  }

  lemma DelegateCut(b: Backend, ring: Backend, s: State, appId: string)
    requires PartOf(b, ring) && Agree(b, ring, AppRoleName(appId))
    requires Armed(s, TARGETS) && Armed(s, AppRoleName(appId)) && Armed(s, SNAPSHOT) && Armed(s, TIMESTAMP)
    ensures CutOf(Delegate(b, s, appId), Delegate(ring, s, appId))
  {
    assert DelegationFor(b, appId) == DelegationFor(ring, appId);
    hide PartOf, Close, Admit, Targets, DelegationFor, PutDelegation, Agree, CutOf;
    var targets := Targets(s, TARGETS);
    var body := targets.(delegations := PutDelegation(targets.delegations, DelegationFor(b, appId)));
    CloseCut(b, ring, s, TARGETS, body);
    CloseKeepsPolicies(b, s, TARGETS, body);
    if Close(b, s, TARGETS, body).Ok? {
      var s1 := Close(b, s, TARGETS, body).value;
      AdmitCut(b, ring, s1, AppRoleName(appId));
      CutAfter(s, Admit(b, s1, AppRoleName(appId)), Admit(ring, s1, AppRoleName(appId)));
    } else {
      CutAtStart(Delegate(b, s, appId), Delegate(ring, s, appId), s);
    }
  }

  lemma CutAtStart(r: Run, full: Run, s: State)
    requires r.error.Some? && r.trail == [s] && WellFormed(full, s)
    ensures CutOf(r, full)
  {
  }

  lemma AddAppCut(b: Backend, ring: Backend, s: State, appId: string, critical: bool)
    requires PartOf(b, ring) && Armed(s, TARGETS) && Armed(s, SNAPSHOT) && Armed(s, TIMESTAMP)
    ensures CutOf(AddApp(b, s, appId, critical), AddApp(ring, s, appId, critical))
  {
    var role := AppRoleName(appId);
    var s0 := SetPolicy(s, role, AppRolePolicy(critical));
    assert KeyIds(b, role) == {} || Agree(b, ring, role);
    hide PartOf, Delegate, KeyIds;
    if IsAppId(appId) && KeyIds(b, role) != {} {
      DelegateCut(b, ring, s0, appId);
      CutAfter(s, Delegate(b, s0, appId), Delegate(ring, s0, appId));
    }
  }

  lemma {:induction false} AllKeyedAgree(b: Backend, ring: Backend, roles: seq<Role>)
    requires PartOf(b, ring) && FirstUnkeyed(b, roles).None?
    ensures forall i | 0 <= i < |roles| :: Agree(b, ring, roles[i])
  {
    if roles != [] {
      assert KeyIds(b, roles[0]) == {} || Agree(b, ring, roles[0]);
      AllKeyedAgree(b, ring, roles[1..]);
      assert forall i | 0 < i < |roles| :: roles[i] == roles[1..][i - 1];
    }
  }

  lemma InitializeCut(b: Backend, ring: Backend, s: State)
    requires PartOf(b, ring)
    ensures CutOf(Initialize(b, s), Initialize(ring, s))
  {
    var roles := [ROOT, TARGETS, SNAPSHOT, TIMESTAMP];
    hide PartOf, FirstUnkeyed, WriteRoot, Sign, RootFor;
    if Version(s.memory, ROOT) == 0 && FirstUnkeyed(b, roles).None? {
      AllKeyedAgree(b, ring, roles);
      assert Agree(b, ring, roles[0]) && Agree(b, ring, roles[1]) && Agree(b, ring, roles[2]);
      assert Agree(b, ring, roles[3]);
      InitializeSame(b, ring, s);
    }
  }

  lemma RolesArmed(s: State, role: Role)
    requires Inv(s) && role in TOP_LEVEL_ROLES + s.memory.appRoles
    ensures Armed(s, role)
  {
    hide DiskOk, Newest;
  }

  lemma AddReleaseCut(b: Backend, ring: Backend, s: State, key: TargetKey, payload: Bytes, info: ReleaseInfo)
    requires PartOf(b, ring) && Inv(s) && Armed(s, SNAPSHOT) && Armed(s, TIMESTAMP)
    ensures CutOf(AddRelease(b, s, key, payload, info), AddRelease(ring, s, key, payload, info))
  {
    hide PartOf, Inv, Armed, PutTarget, Path;
    if AppRoleName(key.appId) in s.memory.appRoles {
      RolesArmed(s, AppRoleName(key.appId));
      PutTargetCut(b, ring, s, AppRoleName(key.appId), Path(key), payload, info);
    }
  }

  lemma SetCurrentCut(b: Backend, ring: Backend, s: State, key: TargetKey)
    requires PartOf(b, ring) && Inv(s) && Armed(s, SNAPSHOT) && Armed(s, TIMESTAMP)
    ensures CutOf(SetCurrent(b, s, key), SetCurrent(ring, s, key))
  {
    hide PartOf, Inv, Armed, PutTarget, Path, PointerPath, Targets;
    if AppRoleName(key.appId) in s.memory.appRoles {
      RolesArmed(s, AppRoleName(key.appId));
      PutTargetCut(b, ring, s, AppRoleName(key.appId), PointerPath(ChannelOf(key)),
                   PointerJson(Path(key), key.version), PointerInfo(key.version));
    }
  }

  /** With some of the keyring, a backend does what the keyring would do, up to the first role it cannot sign for. */
  lemma PerformCut(b: Backend, ring: Backend, s: State, op: Operation)
    requires PartOf(b, ring) && Inv(s)
    ensures CutOf(Perform(b, s, op), Perform(ring, s, op))
  {
    RolesArmed(s, TARGETS);
    RolesArmed(s, SNAPSHOT);
    RolesArmed(s, TIMESTAMP);
    hide PartOf, Inv, Armed, Initialize, AddApp, AddRelease, SetCurrent, Publish, CutOf;
    match op {
      case OpInitialize => InitializeCut(b, ring, s);
      case OpAddApp(appId, critical) => AddAppCut(b, ring, s, appId, critical);
      case OpAddRelease(key, payload, info) => AddReleaseCut(b, ring, s, key, payload, info);
      case OpSetCurrent(key) => SetCurrentCut(b, ring, s, key);
      case OpPublish => PublishCut(b, ring, s);
    }
  }
}

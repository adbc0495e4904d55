/**
 From publishing to the client: what `add_release` and `set_current` end with, and exactly when a
 client is offered the release its channel points at.
 */
module Releases {
  import opened Text
  import opened Naming
  import opened Metadata
  import opened Publisher
  import opened PublisherSafety
  import opened PublisherRuns
  import opened Keyrings
  import opened Publication
  import opened Verifier
  import opened Rollout
  import opened Patterns
  import opened UpdateCheck

  // ------------------------------------------------------- how operations end

  lemma KnownRolePolicy(s: State, role: Role)
    requires Inv(s) && role in s.memory.appRoles
    ensures role in s.memory.policies && s.memory.policies[role].threshold == 1
    ensures Delegates(Targets(s, TARGETS).delegations, role)
  {
    hide DiskOk, Newest;
    assert Delegates(Targets(s, TARGETS).delegations, role);
  }

  lemma DelegatedHasKeys(b: Backend, delegations: seq<Delegation>, role: Role)
    requires Keyed(b, delegations) && Delegates(delegations, role)
    ensures KeyIds(b, role) != {}
  {
  }

  /** A known application role has keys and a policy that they meet. */
  lemma KnownRoleSigns(b: Backend, s: State, role: Role, body: Body)
    requires Ready(b, s) && role in s.memory.appRoles
    ensures Sign(b, s, role, body) == Ok(Doc(Version(s.memory, role) + 1, KeyIds(b, role), body))
  {
    hide Inv, Signed, Capable, Targets, Keyed, Delegates, KeyIds, AppDelegations;
    TargetsOk(b, s, TARGETS);
    KnownRolePolicy(s, role);
    DelegatedHasKeys(b, Targets(s, TARGETS).delegations, role);
  }

  /** What one successful listing changes, and all that it changes. */
  ghost predicate Lists(s: State, t: State, role: Role, path: string, bytes: Bytes, info: ReleaseInfo) {
    && t.memory.appRoles == s.memory.appRoles
    && Targets(t, role) == Listing(s, role, path, EntryFor(bytes, info))
    && Version(t.memory, role) == Version(s.memory, role) + 1
    && t.disk.payloads == s.disk.payloads[PayloadName(path, Sha256(bytes)) := bytes]
    && forall r | r !in {role, SNAPSHOT, TIMESTAMP} ::
         Version(t.memory, r) == Version(s.memory, r) && Open(t, r) == Open(s, r)
  }

  lemma StoreStaysReady(b: Backend, s: State, path: string, bytes: Bytes, info: ReleaseInfo)
    requires Ready(b, s)
    ensures Ready(b, StorePayload(s, path, bytes))
  {
    StorePayloadKeeps(s, path, bytes, info);
    hide Inv, BodyOk;
  }

  lemma ListedStaysReady(b: Backend, s: State, appId: string, body: Body)
    requires Ready(b, s) && IsAppId(appId) && AppRoleName(appId) in s.memory.appRoles
    requires EntriesStored(s.disk, body) && BodyOk(b, AppRoleName(appId), body)
    ensures Close(b, s, AppRoleName(appId), body).Ok?
    ensures var t := Close(b, s, AppRoleName(appId), body).value;
            Ready(b, t) && SameButFor(s, t, AppRoleName(appId)) && t.disk.payloads == s.disk.payloads
            && Targets(t, AppRoleName(appId)) == body
            && Version(t.memory, AppRoleName(appId)) == Version(s.memory, AppRoleName(appId)) + 1
  {
    var role := AppRoleName(appId);
    AppRoleIsNotTop(appId);
    KnownRoleSigns(b, s, role, body);
    hide Inv, Signed, Capable, BodyOk, EntriesStored, Adds, SameButFor, KeyIds, Open;
    var doc := Sign(b, s, role, body).value;
    TargetsStep(b, s, role, body);
    WriteRoleOpens(s, role, doc);
    KeepsBaseRoles(s, WriteRole(s, role, doc), role);
    AddsNothing(b, map[role := body], s.disk, s.disk);
    CloseAdds(b, map[role := body], s.disk, s, role, body);
    AddsSigned(b, map[role := body], s.disk, WriteRole(s, role, doc).disk);
  }

  lemma KeepsBaseRoles(s: State, t: State, role: Role)
    requires SameButFor(s, t, role) && role !in TOP_LEVEL_ROLES
    ensures Version(t.memory, ROOT) == Version(s.memory, ROOT)
    ensures Version(t.memory, TARGETS) == Version(s.memory, TARGETS)
  {
  }

  lemma ListsCompose(s: State, s1: State, s2: State, t: State, role: Role, path: string, bytes: Bytes,
                     info: ReleaseInfo)
    requires s1 == StorePayload(s, path, bytes) && role !in {SNAPSHOT, TIMESTAMP}
    requires SameButFor(s1, s2, role) && s2.disk.payloads == s1.disk.payloads
    requires Targets(s2, role) == Listing(s, role, path, EntryFor(bytes, info))
    requires Version(s2.memory, role) == Version(s.memory, role) + 1
    requires OnlineOnly(s2, t)
    ensures Lists(s, t, role, path, bytes, info)
  {
    assert forall r :: Open(s1, r) == Open(s, r);
  }

  lemma PutListingOk(b: Backend, s: State, appId: string, path: string, bytes: Bytes, info: ReleaseInfo)
    requires Signed(b, s.disk)
    requires forall k: TargetKey | Path(k) == path :: k.version == info.version
    ensures BodyOk(b, AppRoleName(appId), Listing(s, AppRoleName(appId), path, EntryFor(bytes, info)))
  {
    hide Path, Signed, BodyOk, Listing;
    ListingOk(b, s, appId, path, EntryFor(bytes, info));
  }

  /** Everything `PutTarget` needs of its first write, and what it then closes. */
  lemma PutTargetCloses(b: Backend, s: State, appId: string, path: string, bytes: Bytes, info: ReleaseInfo)
    requires Ready(b, s) && IsAppId(appId) && AppRoleName(appId) in s.memory.appRoles
    requires BodyOk(b, AppRoleName(appId), Listing(s, AppRoleName(appId), path, EntryFor(bytes, info)))
    ensures var role, s1 := AppRoleName(appId), StorePayload(s, path, bytes);
            var body := Listing(s, role, path, EntryFor(bytes, info));
            && Targets(s1, role) == Targets(s, role) && Close(b, s1, role, body).Ok?
            && var s2 := Close(b, s1, role, body).value;
               && Ready(b, s2) && SameButFor(s1, s2, role) && s2.disk.payloads == s1.disk.payloads
               && Targets(s2, role) == body && Version(s2.memory, role) == Version(s.memory, role) + 1
  {
    var role, s1 := AppRoleName(appId), StorePayload(s, path, bytes);
    assert Targets(s1, role) == Targets(s, role) && s1.memory == s.memory;
    StoreStaysReady(b, s, path, bytes, info);
    NewListingStored(s, role, path, bytes, info);
    hide Ready, BodyOk, EntriesStored, Close, SameButFor, Targets, Listing, StorePayload;
    ListedStaysReady(b, s1, appId, Listing(s, role, path, EntryFor(bytes, info)));
  }

  lemma PutTargetEnds(b: Backend, s: State, appId: string, path: string, bytes: Bytes, info: ReleaseInfo)
    requires Ready(b, s) && IsAppId(appId) && AppRoleName(appId) in s.memory.appRoles
    requires forall k: TargetKey | Path(k) == path :: k.version == info.version
    ensures var r := PutTarget(b, s, AppRoleName(appId), path, bytes, info);
            && r.error.None? && Ready(b, Final(r)) && Advertised(Final(r))
            && Lists(s, Final(r), AppRoleName(appId), path, bytes, info)
  {
    hide Inv, Signed, Capable, Advertised, BodyOk, Publish, Close, SameButFor, OnlineOnly, Lists, Targets, Path,
         EntryFor, AppRoleName;
    var role, s1 := AppRoleName(appId), StorePayload(s, path, bytes);
    AppRoleIsNotTop(appId);
    PutListingOk(b, s, appId, path, bytes, info);
    hide Ready;
    PutTargetCloses(b, s, appId, path, bytes, info);
    var s2 := Close(b, s1, role, Listing(s, role, path, EntryFor(bytes, info))).value;
    KeyringSettles(b, s2);
    ListsCompose(s, s1, s2, Final(Publish(b, s2)), role, path, bytes, info);
  }

  lemma NewListingStored(s: State, role: Role, path: string, bytes: Bytes, info: ReleaseInfo)
    requires Inv(s)
    ensures EntriesStored(StorePayload(s, path, bytes).disk, Listing(s, role, path, EntryFor(bytes, info)))
  {
    StorePayloadKeeps(s, path, bytes, info);
    OpenedEntriesStored(s, role);
    hide Inv;
  }

  /** With the keys of the application and of the online roles, a release is listed and published. */
  lemma AddReleaseEnds(b: Backend, ring: Backend, s: State, key: TargetKey, payload: Bytes, info: ReleaseInfo)
    requires Ready(ring, s) && Accepted(b, s, OpAddRelease(key, payload, info))
    requires Holds(b, ring, OpAddRelease(key, payload, info))
    ensures var r := AddRelease(b, s, key, payload, info);
            && r.error.None? && Ready(ring, Final(r)) && Advertised(Final(r))
            && Lists(s, Final(r), AppRoleName(key.appId), Path(key), payload, info)
  {
    hide Ready, Advertised, Lists, PutTarget, Holds;
    PerformSame(b, ring, s, OpAddRelease(key, payload, info));
    forall k: TargetKey | Path(k) == Path(key) ensures k.version == key.version { PathsMeet(k, key); }
    PutTargetEnds(ring, s, key.appId, Path(key), payload, info);
  }

  lemma SetCurrentEnds(b: Backend, ring: Backend, s: State, key: TargetKey)
    requires Ready(ring, s) && CanPoint(s, key) && Holds(b, ring, OpSetCurrent(key))
    ensures var r := SetCurrent(b, s, key);
            && r.error.None? && Ready(ring, Final(r)) && Advertised(Final(r))
            && Lists(s, Final(r), AppRoleName(key.appId), PointerPath(ChannelOf(key)),
                     PointerJson(Path(key), key.version), PointerInfo(key.version))
  {
    hide Ready, Advertised, Lists, PutTarget, Holds;
    PerformSame(b, ring, s, OpSetCurrent(key));
    forall k: TargetKey ensures Path(k) != PointerPath(ChannelOf(key)) { ReleaseIsNeverPointer(k, ChannelOf(key)); }
    PutTargetEnds(ring, s, key.appId, PointerPath(ChannelOf(key)), PointerJson(Path(key), key.version),
                  PointerInfo(key.version));
  }

  /** The role has a policy and keys to meet it. */
  predicate CanSign(b: Backend, s: State, role: Role) {
    KeyIds(b, role) != {} && role in s.memory.policies && s.memory.policies[role].threshold == 1
  }

  lemma PolicyStaysReady(b: Backend, s: State, appId: string, critical: bool)
    requires Ready(b, s) && IsAppId(appId)
    ensures Ready(b, SetPolicy(s, AppRoleName(appId), AppRolePolicy(critical)))
  {
    assert IsAppRole(AppRoleName(appId));
    PoliciesKeep(s, AppRoleName(appId), AppRolePolicy(critical));
    hide Inv;
  }

  lemma AdmittedStaysReady(b: Backend, s: State, role: Role)
    requires Ready(b, s) && CanSign(b, s, role) && Delegates(Targets(s, TARGETS).delegations, role)
    ensures Ready(b, AddAppRole(s, role))
  {
    AppRoleJoins(s, role);
    hide Inv;
  }

  /** What letting a role in changes: the role has a file, with what was listed before. */
  ghost predicate LetIn(s: State, t: State, role: Role) {
    && t.memory.appRoles == s.memory.appRoles + {role}
    && Targets(t, role) == Targets(s, role) && Targets(t, TARGETS) == Targets(s, TARGETS)
  }

  lemma LetInCompose(s: State, s2: State, t: State, role: Role)
    requires SameButFor(AddAppRole(s, role), s2, role) && Targets(s2, role) == Targets(AddAppRole(s, role), role)
    requires OnlineOnly(s2, t) && role !in TOP_LEVEL_ROLES
    ensures LetIn(s, t, role)
  {
    var s1 := AddAppRole(s, role);
    assert Targets(s1, role) == Targets(s, role) && Open(s1, TARGETS) == Open(s, TARGETS);
    assert Open(s2, TARGETS) == Open(s1, TARGETS) && Open(t, TARGETS) == Open(s2, TARGETS);
    assert Open(t, role) == Open(s2, role);
    hide SameButFor, OnlineOnly, Open;
  }

  lemma AdmitEnds(b: Backend, s: State, appId: string)
    requires Ready(b, s) && IsAppId(appId) && CanSign(b, s, AppRoleName(appId))
    requires Delegates(Targets(s, TARGETS).delegations, AppRoleName(appId))
    ensures var r := Admit(b, s, AppRoleName(appId));
            r.error.None? && Ready(b, Final(r)) && Advertised(Final(r)) && LetIn(s, Final(r), AppRoleName(appId))
  {
    var role := AppRoleName(appId);
    AppRoleIsNotTop(appId);
    hide Inv, Signed, Capable, Advertised, BodyOk, EntriesStored, Publish, Close, Open, LetIn, SameButFor, OnlineOnly;
    AdmittedStaysReady(b, s, role);
    var s1 := AddAppRole(s, role);
    var body := Targets(s1, role);
    OpenedEntriesStored(s1, role);
    TargetsOk(b, s1, role);
    hide Ready, Targets;
    ListedStaysReady(b, s1, appId, body);
    var s2 := Close(b, s1, role, body).value;
    KeyringSettles(b, s2);
    LetInCompose(s, s2, Final(Publish(b, s2)), role);
  }

  lemma DelegatingOk(b: Backend, s: State, appId: string)
    requires Ready(b, s) && IsAppId(appId) && KeyIds(b, AppRoleName(appId)) != {}
    ensures var body := Delegating(b, s, appId);
            && EntriesStored(s.disk, body) && DelegationsKept(s, body) && BodyOk(b, TARGETS, body)
            && Delegates(body.delegations, AppRoleName(appId))
  {
    hide Inv, Signed, Capable, EntriesStored, DelegationsKept, BodyOk, PutDelegation, Delegates;
    DelegationJoins(b, s, appId);
    IntendedOk(b, s, OpAddApp(appId, false), TARGETS);
    AppRoleIsNotTop(appId);
  }

  lemma TargetsClosed(b: Backend, s: State, body: Body, role: Role)
    requires Ready(b, s) && EntriesStored(s.disk, body) && DelegationsKept(s, body) && BodyOk(b, TARGETS, body)
    requires role !in TOP_LEVEL_ROLES
    ensures Close(b, s, TARGETS, body).Ok?
    ensures var t := Close(b, s, TARGETS, body).value;
            && Ready(b, t) && Targets(t, TARGETS) == body && Targets(t, role) == Targets(s, role)
            && t.memory.appRoles == s.memory.appRoles && t.memory.policies == s.memory.policies
  {
    TargetsSign(b, s, body);
    hide Inv, Signed, Capable, BodyOk, EntriesStored, DelegationsKept, Adds;
    TargetsStep(b, s, TARGETS, body);
    var doc := Sign(b, s, TARGETS, body).value;
    WriteRoleOpens(s, TARGETS, doc);
    AddsNothing(b, map[TARGETS := body], s.disk, s.disk);
    CloseAdds(b, map[TARGETS := body], s.disk, s, TARGETS, body);
    AddsSigned(b, map[TARGETS := body], s.disk, WriteRole(s, TARGETS, doc).disk);
  }

  lemma TargetsSign(b: Backend, s: State, body: Body)
    requires Ready(b, s)
    ensures Sign(b, s, TARGETS, body) == Ok(Doc(Version(s.memory, TARGETS) + 1, KeyIds(b, TARGETS), body))
  {
    assert TARGETS in TOP_LEVEL_ROLES;
    assert TARGETS in s.memory.policies && s.memory.policies[TARGETS] == TOP_LEVEL_POLICIES[TARGETS] by {
      hide DiskOk, Newest, Signed, Capable;
    }
    hide Inv, Signed;
  }

  lemma DelegateEnds(b: Backend, s: State, appId: string)
    requires Ready(b, s) && IsAppId(appId) && CanSign(b, s, AppRoleName(appId))
    ensures var r, role := Delegate(b, s, appId), AppRoleName(appId);
            && r.error.None? && Ready(b, Final(r)) && Advertised(Final(r))
            && Final(r).memory.appRoles == s.memory.appRoles + {role}
            && Targets(Final(r), TARGETS) == Delegating(b, s, appId) && Targets(Final(r), role) == Targets(s, role)
  {
    var role, body := AppRoleName(appId), Delegating(b, s, appId);
    AppRoleIsNotTop(appId);
    hide Ready, Advertised, Admit, Close, Targets, PutDelegation, EntriesStored, DelegationsKept, BodyOk, Delegates,
         KeyIds;
    DelegatingOk(b, s, appId);
    TargetsClosed(b, s, body, role);
    AdmitEnds(b, Close(b, s, TARGETS, body).value, appId);
  }

  lemma PolicyKeepsTargets(s: State, role: Role, policy: RolePolicy, other: Role)
    ensures Targets(SetPolicy(s, role, policy), other) == Targets(s, other)
  {
  }

  /** `add_app` delegates the role, lets it in and publishes; nothing already listed changes. */
  lemma AddAppEnds(b: Backend, ring: Backend, s: State, appId: string, critical: bool)
    requires Ready(ring, s) && Accepted(ring, s, OpAddApp(appId, critical))
    requires Holds(b, ring, OpAddApp(appId, critical))
    ensures var r, role := AddApp(b, s, appId, critical), AppRoleName(appId);
            && r.error.None? && Ready(ring, Final(r)) && Advertised(Final(r))
            && Final(r).memory.appRoles == s.memory.appRoles + {role}
            && Targets(Final(r), TARGETS) == Delegating(ring, s, appId) && Targets(Final(r), role) == Targets(s, role)
  {
    var role := AppRoleName(appId);
    var s0 := SetPolicy(s, role, AppRolePolicy(critical));
    hide Ready, Advertised, Delegate, Targets, PutDelegation, KeyIds, DelegationFor, Holds;
    PerformSame(b, ring, s, OpAddApp(appId, critical));
    PolicyKeepsTargets(s, role, AppRolePolicy(critical), TARGETS);
    PolicyKeepsTargets(s, role, AppRolePolicy(critical), role);
    PolicyStaysReady(ring, s, appId, critical);
    DelegateEnds(ring, s0, appId);
  }

  lemma TopLevelSigns(b: Backend, s: State, role: Role, body: Body)
    requires RolesKnown(s) && Capable(b) && role in TOP_LEVEL_ROLES
    ensures KeyIds(b, role) != {}
    ensures Sign(b, s, role, body) == Ok(Doc(Version(s.memory, role) + 1, KeyIds(b, role), body))
  {
    assert role in s.memory.policies && s.memory.policies[role] == TOP_LEVEL_POLICIES[role];
  }

  lemma RootStaysSigned(b: Backend, s: State, name: FileName, root: Doc)
    requires Signed(b, s.disk) && RoleOf(name) == ROOT && root.body == RootFor(b) && root.signers == KeyIds(b, ROOT)
    ensures Signed(b, WriteFile(s, name, root).disk)
  {
    hide RootFor;
  }

  /** Root written under both names: still an invariant state, now with a root. */
  lemma RootWrittenEnds(b: Backend, s: State, root: Doc)
    requires Inv(s) && Signed(b, s.disk) && root == Doc(Version(s.memory, ROOT) + 1, KeyIds(b, ROOT), RootFor(b))
    ensures var s2 := SetVersion(WriteFile(WriteFile(s, NameOf(ROOT, root.version), root), RootJson, root), ROOT,
                                 root.version);
            Inv(s2) && Signed(b, s2.disk) && Version(s2.memory, ROOT) > 0
  {
    var s1 := WriteFile(s, NameOf(ROOT, root.version), root);
    assert root.body.RootBody?;
    hide Inv, Signed, RootFor;
    RootWritesKeep(b, s, root);
    RootStaysSigned(b, s, NameOf(ROOT, root.version), root);
    RootStaysSigned(b, s1, RootJson, root);
  }

  lemma RootLeavesTargets(s: State, root: Doc)
    ensures Targets(SetVersion(WriteFile(WriteFile(s, NameOf(ROOT, root.version), root), RootJson, root), ROOT,
                               root.version), TARGETS)
         == Targets(s, TARGETS)
  {
  }

  /** Top-level targets rewritten as they stand: ready to publish. */
  lemma TargetsWrittenEnds(b: Backend, s: State)
    requires Inv(s) && Signed(b, s.disk) && Capable(b) && Version(s.memory, ROOT) > 0
    ensures Open(s, TARGETS).body == Targets(s, TARGETS)
    ensures Close(b, s, TARGETS, Targets(s, TARGETS)).Ok? && Ready(b, Close(b, s, TARGETS, Targets(s, TARGETS)).value)
    ensures Targets(Close(b, s, TARGETS, Targets(s, TARGETS)).value, TARGETS) == Targets(s, TARGETS)
  {
    OpenedEntriesStored(s, TARGETS);
    OpenedTargetsKept(s);
    TargetsOk(b, s, TARGETS);
    var body := Targets(s, TARGETS);
    TopLevelSigns(b, s, TARGETS, body) by { hide DiskOk, Newest; }
    hide Inv, Signed, Capable, BodyOk, EntriesStored, DelegationsKept, Adds, Targets, Open;
    TargetsStep(b, s, TARGETS, body);
    var t := Close(b, s, TARGETS, body).value;
    AddsNothing(b, map[TARGETS := body], s.disk, s.disk);
    CloseAdds(b, map[TARGETS := body], s.disk, s, TARGETS, body);
    AddsSigned(b, map[TARGETS := body], s.disk, t.disk);
  }

  lemma WriteRootEnds(b: Backend, s: State, root: Doc)
    requires Inv(s) && Signed(b, s.disk) && Capable(b)
    requires root == Doc(Version(s.memory, ROOT) + 1, KeyIds(b, ROOT), RootFor(b))
    ensures var r := WriteRoot(b, s, root);
            && r.error.None?
            && Ready(b, Final(r))
            && Advertised(Final(r))
            && Targets(Final(r), TARGETS) == Targets(s, TARGETS)
  {
    hide Inv, Signed, Capable, Advertised, Publish, Targets, Open, RootFor, Close, Ready;
    RootWrittenEnds(b, s, root);
    RootLeavesTargets(s, root);
    var s2 := SetVersion(WriteFile(WriteFile(s, NameOf(ROOT, root.version), root), RootJson, root), ROOT, root.version);
    TargetsWrittenEnds(b, s2);
    var s3 := Close(b, s2, TARGETS, Targets(s2, TARGETS)).value;
    KeyringSettles(b, s3);
    OnlineKeepsTargets(s3, Final(Publish(b, s3)), TARGETS);
  }

  lemma OnlineKeepsTargets(s: State, t: State, role: Role)
    requires OnlineOnly(s, t) && role !in {SNAPSHOT, TIMESTAMP}
    ensures Targets(t, role) == Targets(s, role)
  {
  }

  lemma RootSigns(b: Backend, s: State)
    requires Inv(s) && Capable(b) && Version(s.memory, ROOT) == 0
    ensures Sign(b, s, ROOT, RootFor(b)) == Ok(Doc(1, KeyIds(b, ROOT), RootFor(b)))
    ensures FirstUnkeyed(b, [ROOT, TARGETS, SNAPSHOT, TIMESTAMP]).None?
  {
    hide DiskOk, Newest, RootFor, FirstUnkeyed, Sign;
    assert ROOT in TOP_LEVEL_ROLES;
    TopLevelSigns(b, s, ROOT, RootFor(b));
    forall role | role in TOP_LEVEL_ROLES ensures KeyIds(b, role) != {} {
      TopLevelSigns(b, s, role, RootFor(b));
    }
    AllKeyed(b, [ROOT, TARGETS, SNAPSHOT, TIMESTAMP]);
  }

  /** `initialize` with enough keys makes a repository every later lemma here starts from. */
  lemma InitializeEnds(b: Backend, ring: Backend, s: State)
    requires Inv(s) && Signed(ring, s.disk) && Capable(ring) && Version(s.memory, ROOT) == 0
    requires Holds(b, ring, OpInitialize)
    ensures var r := Initialize(b, s);
            && r.error.None? && Ready(ring, Final(r)) && Advertised(Final(r))
            && Targets(Final(r), TARGETS) == Targets(s, TARGETS)
  {
    hide Inv, Signed, Capable, Advertised, RootFor, WriteRoot, FirstUnkeyed, Ready, Sign, Targets, Holds;
    PerformSame(b, ring, s, OpInitialize);
    RootSigns(ring, s);
    WriteRootEnds(ring, s, Doc(1, KeyIds(ring, ROOT), RootFor(ring)));
  }

  lemma {:induction false} AllKeyed(b: Backend, roles: seq<Role>)
    requires forall i | 0 <= i < |roles| :: KeyIds(b, roles[i]) != {}
    ensures FirstUnkeyed(b, roles).None?
  {
    if roles != [] {
      AllKeyed(b, roles[1..]);
    }
  }

  /** The root of a keyring: three keys sign root, two targets, one each the online roles. */
  function ThreeKeyRoot(b: Backend): Body {
    RootBody(map["root" := RoleKeys(KeyIds(b, "root"), 3), "targets" := RoleKeys(KeyIds(b, "targets"), 2),
                 "snapshot" := RoleKeys(KeyIds(b, "snapshot"), 1), "timestamp" := RoleKeys(KeyIds(b, "timestamp"), 1)],
             true)
  }

  lemma RootNames(b: Backend)
    ensures RootFor(b) == ThreeKeyRoot(b)
  {
    TopLevelNames();
    var roles := RootFor(b).roles;
    assert roles.Keys == {"root", "targets", "snapshot", "timestamp"};
    hide KeyIds;
  }

  lemma TopLevelNames()
    ensures "root" != "targets" && "root" != "snapshot" && "root" != "timestamp"
    ensures "targets" != "snapshot" && "targets" != "timestamp" && "snapshot" != "timestamp"
  {
    assert |"root"| == 4 && |"targets"| == 7 && |"snapshot"| == 8 && |"timestamp"| == 9;
  }

  /** Keys enough for every top-level role. */
  predicate EnoughKeys(b: Backend) {
    && |KeyIds(b, "root")| >= 3 && |KeyIds(b, "targets")| >= 2
    && KeyIds(b, "snapshot") != {} && KeyIds(b, "timestamp") != {}
  }

  lemma EnoughIsCapable(b: Backend)
    ensures Capable(b) <==> EnoughKeys(b)
  {
    assert ROOT in TOP_LEVEL_ROLES && TARGETS in TOP_LEVEL_ROLES;
    assert SNAPSHOT in TOP_LEVEL_ROLES && TIMESTAMP in TOP_LEVEL_ROLES;
    TopLevelNames();
    assert KeyIds(b, "snapshot") != {} <==> |KeyIds(b, "snapshot")| >= 1;
    assert KeyIds(b, "timestamp") != {} <==> |KeyIds(b, "timestamp")| >= 1;
    hide KeyIds;
  }

  lemma RootIsServed(b: Backend, s: State)
    requires Inv(s) && Signed(b, s.disk) && Capable(b) && Version(s.memory, ROOT) == 0
    ensures RootJson in Final(Initialize(b, s)).disk.files
  {
    RootSigns(b, s);
    InitializeKeeps(b, s);
    hide Inv, Signed, Capable, RootFor, WriteRoot, FirstUnkeyed, Sign, Good;
    WriteRootServes(b, s, Doc(1, KeyIds(b, ROOT), RootFor(b)));
  }

  lemma WriteRootServes(b: Backend, s: State, root: Doc)
    requires Good(WriteRoot(b, s, root).trail)
    ensures RootJson in Final(WriteRoot(b, s, root)).disk.files
  {
    hide Inv, Publish, Close, Open;
    var trail := WriteRoot(b, s, root).trail;
    assert trail[2].disk.files[RootJson] == root;
    GrowsReflexive(trail[2].disk);
    assert trail[2].disk.files.Keys <= trail[|trail| - 1].disk.files.Keys;
  }

  lemma FewerKeysFail(b: Backend, s: State)
    requires Inv(s) && Version(s.memory, ROOT) == 0 && !EnoughKeys(b)
    ensures Initialize(b, s).error.Some?
  {
    hide DiskOk, Newest, RootFor, Publish, Targets, Open;
    assert ROOT in TOP_LEVEL_ROLES && TARGETS in TOP_LEVEL_ROLES;
    TopLevelNames();
    var unkeyed := FirstUnkeyed(b, [ROOT, TARGETS, SNAPSHOT, TIMESTAMP]);
    if unkeyed.None? {
      NoneUnkeyed(b, [ROOT, TARGETS, SNAPSHOT, TIMESTAMP]);
      var roles := [ROOT, TARGETS, SNAPSHOT, TIMESTAMP];
      assert roles[2] == SNAPSHOT && roles[3] == TIMESTAMP;
    }
  }

  lemma {:induction false} NoneUnkeyed(b: Backend, roles: seq<Role>)
    requires FirstUnkeyed(b, roles).None?
    ensures forall i | 0 <= i < |roles| :: KeyIds(b, roles[i]) != {}
  {
    if roles != [] {
      NoneUnkeyed(b, roles[1..]);
      assert roles == [roles[0]] + roles[1..];
    }
  }

  /**
   `initialize` succeeds exactly with three root keys, two targets keys and one of each online role; and then
   what it serves as the root names those, is signed by all its root keys, and takes three of them to sign again.
   */
  lemma InitializeNeeds(b: Backend, s: State)
    requires Inv(s) && Signed(b, s.disk) && Version(s.memory, ROOT) == 0
    ensures var r := Initialize(b, s);
            && (r.error.None? <==> EnoughKeys(b))
            && (r.error.None? ==>
                  && RootJson in Final(r).disk.files
                  && var root := Final(r).disk.files[RootJson];
                     && root.body == ThreeKeyRoot(b) && root.signers == KeyIds(b, "root") && Bootstrap(root).Ok?
                     && forall doc: Doc :: SignedBy(doc, KeysIn(root, "root"))
                                      <==> |doc.signers * KeyIds(b, "root")| >= 3)
  {
    hide Inv, Signed, Capable, RootFor, Initialize, EnoughKeys, Ready, Advertised, Targets;
    EnoughIsCapable(b);
    if EnoughKeys(b) {
      HoldsItself(b, OpInitialize);
      InitializeEnds(b, b, s);
      RootIsServed(b, s);
      RootNames(b);
      ServedRoot(b, Final(Initialize(b, s)));
    } else {
      FewerKeysFail(b, s);
    }
  }

  lemma ServedRoot(b: Backend, s: State)
    requires Ready(b, s) && RootJson in s.disk.files
    ensures var root := s.disk.files[RootJson];
            && root.body == ThreeKeyRoot(b) && root.signers == KeyIds(b, "root") && Bootstrap(root).Ok?
            && forall doc: Doc :: SignedBy(doc, KeysIn(root, "root")) <==> |doc.signers * KeyIds(b, "root")| >= 3
  {
    hide Inv, Capable;
    RootNames(b);
    EnoughIsCapable(b);
    var root := s.disk.files[RootJson];
    assert RoleOf(RootJson) == ROOT;
    assert root.signers * KeyIds(b, "root") == KeyIds(b, "root");
    TopLevelNames();
    hide Signed, RootFor;
  }

  // ------------------------------------------------------- what a client sees

  /** The client was shipped with a root of this keyring. */
  ghost predicate Trusts(c: Client, ring: Backend) {
    c.root.body == RootFor(ring) && c.root.signers == KeyIds(ring, ROOT)
  }

  ghost predicate Serves(d: Disk, role: Role, v: Served) {
    && TimestampJson in d.files && d.files[TimestampJson] == v.timestamp && v.timestamp.body.TimestampBody?
    && Versioned(SNAPSHOT, v.timestamp.body.snapshot) in d.files
    && d.files[Versioned(SNAPSHOT, v.timestamp.body.snapshot)] == v.snapshot && v.snapshot.body.SnapshotBody?
    && ServesRole(d, v.snapshot.body.meta, TARGETS, v.top) && ServesRole(d, v.snapshot.body.meta, role, v.listing)
  }

  ghost predicate ServesRole(d: Disk, meta: map<Role, nat>, role: Role, doc: Doc) {
    && role in meta && Versioned(role, meta[role]) in d.files
    && d.files[Versioned(role, meta[role])] == doc && doc.version == meta[role]
  }

  lemma RootAccepts(b: Backend, root: Doc, role: Role, doc: Doc)
    requires root.body == RootFor(b) && Capable(b) && role in TOP_LEVEL_ROLES && doc.signers == KeyIds(b, role)
    ensures SignedBy(doc, KeysIn(root, role))
  {
    assert doc.signers * KeyIds(b, role) == KeyIds(b, role);
  }

  lemma DelegationAccepts(b: Backend, delegations: seq<Delegation>, role: Role, doc: Doc)
    requires Keyed(b, delegations) && Delegates(delegations, role) && doc.signers == KeyIds(b, role)
    ensures FindDelegation(delegations, role).Some?
    ensures SignedBy(doc, FindDelegation(delegations, role).value.keys)
  {
    FindsDelegation(delegations, role);
    assert doc.signers * KeyIds(b, role) == KeyIds(b, role);
  }

  lemma {:induction false} FindsDelegation(delegations: seq<Delegation>, role: Role)
    requires Delegates(delegations, role)
    ensures FindDelegation(delegations, role).Some?
    ensures exists i | 0 <= i < |delegations| ::
              delegations[i] == FindDelegation(delegations, role).value && delegations[i].role == role
  {
    if delegations[0].role != role {
      var i :| 0 <= i < |delegations| && delegations[i].role == role;
      assert delegations[1..][i - 1].role == role;
      FindsDelegation(delegations[1..], role);
    }
  }

  lemma RefreshServed(b: Backend, root: Doc, d: Disk, role: Role, v: Served)
    requires Signed(b, d) && Capable(b) && root.body == RootFor(b) && root.signers == KeyIds(b, ROOT)
    requires Serves(d, role, v) && v.snapshot.version == v.timestamp.body.snapshot
    ensures Refresh(root, Still(d)) == Ok(Trusted(root, role, v).(delegations := map[]))
  {
    RootAccepts(b, root, ROOT, root);
    RootAccepts(b, root, TIMESTAMP, v.timestamp);
    RootAccepts(b, root, SNAPSHOT, v.snapshot);
    RootAccepts(b, root, TARGETS, v.top);
    assert BodyOk(b, TARGETS, v.top.body);
    hide Signed, Capable, SignedBy, RootFor, BodyOk;
    var t0 := Trust(root, None, None, None, map[]);
    var t1 := t0.(timestamp := Some(v.timestamp));
    assert AcceptTimestamp(t0, v.timestamp) == Ok(t1);
    var t2 := t1.(snapshot := Some(v.snapshot));
    assert AcceptSnapshot(t1, v.snapshot) == Ok(t2);
    assert AcceptTargets(t2, v.top) == Ok(t2.(targets := Some(v.top)));
  }

  lemma ServedIsSigned(b: Backend, d: Disk, role: Role, v: Served)
    requires Signed(b, d) && Serves(d, role, v) && role !in TOP_LEVEL_ROLES
    ensures v.top.body.TargetsBody? && Keyed(b, v.top.body.delegations)
    ensures v.listing.body.TargetsBody? && v.listing.signers == KeyIds(b, role)
  {
    hide AppDelegations, Keyed, Described;
    assert BodyOk(b, RoleOf(Versioned(TARGETS, v.snapshot.body.meta[TARGETS])), v.top.body);
    assert BodyOk(b, RoleOf(Versioned(role, v.snapshot.body.meta[role])), v.listing.body);
  }

  /** A client of this keyring comes to trust exactly what the disk advertises. */
  lemma CheckServed(b: Backend, c: Client, d: Disk, v: Served)
    requires Signed(b, d) && Capable(b) && Trusts(c, b) && IsAppId(c.channel.appId)
    requires Serves(d, ChannelRole(c.channel), v) && v.snapshot.version == v.timestamp.body.snapshot
    requires v.top.body.TargetsBody? && Delegates(v.top.body.delegations, ChannelRole(c.channel))
    ensures CheckAt(c, d) == FollowPointer(c, Trusted(c.root, ChannelRole(c.channel), v), d)
  {
    var role := ChannelRole(c.channel);
    AppRoleIsNotTop(c.channel.appId);
    ServedIsSigned(b, d, role, v);
    hide Signed, Capable, BodyOk, SignedBy, Refresh, FollowPointer, Keyed, Delegates, FindDelegation;
    DelegationAccepts(b, v.top.body.delegations, role, v.listing);
    RefreshServed(b, c.root, d, role, v);
    var t := Trusted(c.root, role, v).(delegations := map[]);
    assert TargetsVersion(t, role) == Some(v.listing.version);
    assert VerifyTargets(t, role, v.listing, FindDelegation(v.top.body.delegations, role).value.keys, None)
        == Ok(Some(v.listing));
    assert AcceptDelegated(t, role, v.listing) == Ok(Trusted(c.root, role, v));
  }

  /** What the C ABI makes of one entry. */
  function Read(e: Entry): Result<TargetInfo, VerifyError> {
    var info :- ReadCustom(e.custom);
    if |info.version| >= DIST_VERSION_CAPACITY then Err(Overflow)
    else Ok(TargetInfo(info.version, e.length, e.digest, info.rolloutPct, info.mandatory))
  }

  /** A path of the client's own app resolves to its entry if the app was the first delegated, else to nothing. */
  lemma TargetServed(b: Backend, root: Doc, v: Served, appId: string, path: string)
    requires BodyOk(b, TARGETS, v.top.body) && BodyOk(b, AppRoleName(appId), v.listing.body)
    requires IsAppId(appId) && IsAppPath(path, appId) && ParsePath(path).Ok?
    ensures var delegations, targets := DelegationsOf(v.top), TargetsOf(v.listing);
            Target(Trusted(root, AppRoleName(appId), v), path) ==
              if delegations != [] && delegations[0].role == AppRoleName(appId) && path in targets
              then Read(targets[path])
              else Err(UnknownTarget)
  {
    AppRoleIsNotTop(appId);
    hide MatchesChain, SafePath, ParsePath, Lookup;
    LookupMeans(map[AppRoleName(appId) := v.listing], path, v.top.body.delegations, appId);
  }

  /** The app was the first ever delegated: the only place the client's delegation walk looks. */
  ghost predicate FirstDelegated(v: Served, role: Role) {
    v.top.body.TargetsBody? && v.top.body.delegations != [] && v.top.body.delegations[0].role == role
  }

  /** What the design promises a client whose channel points at `key`. */
  function Promised(c: Client, key: TargetKey, e: Entry): Answer
    requires Describes(e, key.version)
  {
    var pct := e.custom.rolloutPct.value;
    if InRolloutServer(c.sha, c.installId, key.appId, pct) == Some(true)
    then Ok(Some(Available(key.version, Path(key),
                           TargetInfo(key.version, e.length, e.digest, pct, e.custom.mandatory == Some(true)))))
    else Ok(None)
  }

  predicate PointerFits(key: TargetKey) {
    PointerJson(Path(key), key.version).length <= MAX_POINTER_BYTES
  }

  /** What the code answers. */
  function Answered(c: Client, key: TargetKey, e: Entry, first: bool): Answer
    requires Describes(e, key.version)
  {
    if !first then Ok(None)
    else if |key.version| >= DIST_VERSION_CAPACITY then Err(Refused(Overflow))
    else if !PointerFits(key) then Err(PointerTooLarge)
    else Promised(c, key, e)
  }

  lemma PathsAreOwn(key: TargetKey)
    requires IsAppId(key.appId)
    ensures IsAppPath(Path(key), key.appId) && ParsePath(Path(key)).Ok?
    ensures IsAppPath(PointerPath(ChannelOf(key)), key.appId) && ParsePath(PointerPath(ChannelOf(key))).Ok?
  {
    RenderedPathsCovered(key);
    RenderedPathsParse(key, ChannelOf(key));
    PathSegments(key);
    PointerPathSegments(ChannelOf(key));
  }

  lemma PathStartsWithPrefix(key: TargetKey)
    ensures StartsWith(Path(key), Prefix(ChannelOf(key)))
  {
    CoversOwnReleases(ChannelOf(key), key);
  }

  /** The served listing holds the pointer to `key`, and `key` as `e`. */
  ghost predicate Points(v: Served, key: TargetKey, e: Entry) {
    var targets := TargetsOf(v.listing);
    && PointerPath(ChannelOf(key)) in targets && targets[PointerPath(ChannelOf(key))] == PointerEntry(key)
    && Path(key) in targets && targets[Path(key)] == e
  }

  lemma PointerReads(key: TargetKey)
    ensures Read(PointerEntry(key)) ==
      if |key.version| >= DIST_VERSION_CAPACITY then Err(Overflow)
      else Ok(TargetInfo(key.version, PointerJson(Path(key), key.version).length,
                         Sha256(PointerJson(Path(key), key.version)), 100, false))
  {
  }

  lemma FollowServed(b: Backend, c: Client, d: Disk, v: Served, key: TargetKey, e: Entry)
    requires BodyOk(b, TARGETS, v.top.body) && BodyOk(b, AppRoleName(key.appId), v.listing.body)
    requires PayloadsStored(d) && (exists n | n in d.files :: d.files[n] == v.listing)
    requires IsAppId(key.appId) && c.channel == ChannelOf(key) && Points(v, key, e) && Describes(e, key.version)
    ensures FollowPointer(c, Trusted(c.root, AppRoleName(key.appId), v), d)
         == Answered(c, key, e, FirstDelegated(v, AppRoleName(key.appId)))
  {
    var role, t, first := AppRoleName(key.appId), Trusted(c.root, AppRoleName(key.appId), v), FirstDelegated(v,
                                      AppRoleName(key.appId));
    assert v.listing.body.TargetsBody? && v.top.body.TargetsBody? by { AppRoleIsNotTop(key.appId); }
    PathsAreOwn(key);
    TargetServed(b, c.root, v, key.appId, PointerPath(c.channel));
    TargetServed(b, c.root, v, key.appId, Path(key));
    PointerReads(key);
    PathStartsWithPrefix(key);
    var n :| n in d.files && d.files[n] == v.listing;
    assert Stored(d, PointerPath(c.channel), v.listing.body.targets[PointerPath(c.channel)]);
    hide BodyOk, Target, IsAppPath, Path, PointerPath, Prefix, PayloadsStored;
  }

  // --------------------------------------------------------- after set_current

  /** Where `set_current` ends. */
  function Pointed(b: Backend, s: State, key: TargetKey): State {
    Final(SetCurrent(b, s, key))
  }

  /** The entry a role lists for a release. */
  function ListedEntry(s: State, key: TargetKey): Entry
    requires IsListed(s, key)
  {
    Targets(s, AppRoleName(key.appId)).targets[Path(key)]
  }

  /** What a state advertises for one role. */
  function ServedBy(s: State, role: Role): Served {
    Served(Open(s, TIMESTAMP), Open(s, SNAPSHOT), Open(s, TARGETS), Open(s, role))
  }

  lemma AdvertisedServes(s: State, role: Role)
    requires Inv(s) && Advertised(s) && Version(s.memory, TARGETS) > 0
    requires role in s.memory.appRoles && Version(s.memory, role) > 0
    ensures Serves(s.disk, role, ServedBy(s, role))
    ensures Open(s, SNAPSHOT).version == Open(s, TIMESTAMP).body.snapshot
  {
    AppRolesExclude(s);
    hide PayloadsStored, Closed, SnapshotsRise, RolesKnown;
  }

  /** Whoever is listed was described when listed. */
  lemma ListedIsDescribed(b: Backend, s: State, key: TargetKey)
    requires Signed(b, s.disk) && IsListed(s, key)
    ensures Describes(ListedEntry(s, key), key.version)
  {
    AppRoleIsNotTop(key.appId);
    TargetsOk(b, s, AppRoleName(key.appId));
  }
}

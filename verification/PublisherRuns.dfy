/** Every state an operation passes through keeps the invariant, and so does every run of operations. */
module PublisherRuns {
  import opened Naming
  import opened Metadata
  import opened Publisher
  import opened PublisherSafety

  // ----------------------------------------------------------------- publish

  lemma InfosNameFiles(s: State)
    requires Inv(s) && Version(s.memory, TARGETS) > 0
    ensures NamesFiles(s.disk, TargetsInfos(s.memory))
  {
    hide DiskOk;
    forall role | role in s.memory.appRoles ensures role !in TOP_LEVEL_ROLES {
      assert Delegates(Targets(s, TARGETS).delegations, role);
      AppRolesAreNotTopLevel(role);
    }
  }

  lemma MetaNamesFiles(s: State)
    requires Inv(s) && Version(s.memory, SNAPSHOT) > 0
    ensures NamesFiles(s.disk, SnapshotMeta(s))
  {
    hide PayloadsStored, SnapshotsRise, RolesKnown;
    assert Versioned(SNAPSHOT, Version(s.memory, SNAPSHOT)) in s.disk.files;
  }

  /** What a due snapshot would name: present on disk, and nothing less than before. */
  lemma NextSnapshotMeta(s: State)
    requires Inv(s) && Version(s.memory, TARGETS) > 0 && !SnapshotFell(s)
    ensures var meta := SnapshotMeta(s) + TargetsInfos(s.memory);
            NamesFiles(s.disk, meta) && Below(SnapshotMeta(s), meta)
  {
    InfosNameFiles(s);
    if Version(s.memory, SNAPSHOT) > 0 {
      MetaNamesFiles(s);
    } else {
      hide Inv;
      assert SnapshotMeta(s) == map[TARGETS := 1];
    }
    hide Inv;
  }

  lemma SignedMeansPresent(s: State, role: Role)
    requires SignedBy(Open(s, role), RootKeys(s, role))
    ensures Version(s.memory, role) > 0
  {
    var common := Open(s, role).signers * RootKeys(s, role).keys;
    assert common != {} && common <= Open(s, role).signers;
  }

  lemma SnapshotStepKeeps(b: Backend, s: State)
    requires Inv(s) && Version(s.memory, TARGETS) > 0
    ensures DoSnapshot(b, s).Ok? ==>
              var t := DoSnapshot(b, s).value;
              Inv(t) && Grows(s.disk, t.disk) && Version(t.memory, TARGETS) > 0 && Version(t.memory, SNAPSHOT) > 0
  {
    hide Inv, Grows;
    if !SnapshotFell(s) {
      var body := SnapshotBody(SnapshotMeta(s) + TargetsInfos(s.memory));
      if !SnapshotDue(s) {
        GrowsReflexive(s.disk);
        SignedMeansPresent(s, SNAPSHOT);
      } else if Sign(b, s, SNAPSHOT, body).Ok? {
        NextSnapshotMeta(s);
        hide SnapshotDue, NamesFiles, Below;
        WriteSnapshotKeeps(s, Sign(b, s, SNAPSHOT, body).value);
      }
    }
  }

  lemma TimestampStepKeeps(b: Backend, s: State)
    requires Inv(s) && Version(s.memory, SNAPSHOT) > 0
    ensures DoTimestamp(b, s).Ok? ==>
              Inv(DoTimestamp(b, s).value) && Grows(s.disk, DoTimestamp(b, s).value.disk)
  {
    var info := SnapshotInfo(s.memory);
    assert info == Version(s.memory, SNAPSHOT) && Versioned(SNAPSHOT, info) in s.disk.files by {
      hide DiskOk, RolesKnown;
    }
    hide Inv, Grows, TimestampDue;
    if info >= TimestampSnapshot(s) {
      if !TimestampDue(s) {
        GrowsReflexive(s.disk);
      } else if Sign(b, s, TIMESTAMP, TimestampBody(info)).Ok? {
        WriteTimestampKeeps(s, Sign(b, s, TIMESTAMP, TimestampBody(info)).value);
      }
    }
  }

  lemma GoodOne(s: State)
    requires Inv(s)
    ensures Good([s])
  {
  }

  lemma GoodPair(s: State, t: State)
    requires Inv(s) && Inv(t) && Grows(s.disk, t.disk)
    ensures Good([s, t])
  {
    hide Inv, Grows;
  }

  /** With targets on disk, publishing keeps the invariant in every state it passes through. */
  lemma PublishKeeps(b: Backend, s: State)
    requires Inv(s) && Version(s.memory, TARGETS) > 0
    ensures Good(Publish(b, s).trail)
  {
    hide Inv, Grows, Good, DoTimestamp;
    SnapshotStepKeeps(b, s);
    GoodOne(s);
    if DoSnapshot(b, s).Ok? {
      var s1 := DoSnapshot(b, s).value;
      TimestampStepKeeps(b, s1);
      GoodPair(s, s1);
      if DoTimestamp(b, s1).Ok? {
        var s2 := DoTimestamp(b, s1).value;
        GoodPair(s1, s2);
        GoodAfter(s, [s1, s2]);
        assert [s] + [s1, s2] == [s, s1, s2];
      }
    }
  }

  // --------------------------------------------------------------- operations

  lemma PoliciesKeep(s: State, role: Role, policy: RolePolicy)
    requires Inv(s) && IsAppRole(role) && policy.threshold == 1
    ensures Inv(SetPolicy(s, role, policy))
  {
    hide DiskOk;
    AppRolesAreNotTopLevel(role);
    var t := SetPolicy(s, role, policy);
    assert Open(t, TARGETS) == Open(s, TARGETS);
    assert forall r :: Version(t.memory, r) == Version(s.memory, r);
  }

  lemma AppRoleJoins(s: State, role: Role)
    requires Inv(s) && Delegates(Targets(s, TARGETS).delegations, role)
    requires role in s.memory.policies && s.memory.policies[role].threshold == 1
    ensures Inv(AddAppRole(s, role))
  {
    hide DiskOk;
    var t := AddAppRole(s, role);
    assert Open(t, TARGETS) == Open(s, TARGETS);
    assert forall r :: Version(t.memory, r) == Version(s.memory, r);
  }

  /** A listed body read from disk has its payloads stored. */
  lemma OpenedEntriesStored(s: State, role: Role)
    requires Inv(s)
    ensures EntriesStored(s.disk, Targets(s, role))
  {
    hide Closed, SnapshotsRise, RolesKnown;
  }

  lemma {:induction false} PutDelegationMembers(roles: seq<Delegation>, d: Delegation, role: Role)
    ensures Delegates(PutDelegation(roles, d), role) <==> Delegates(roles, role) || role == d.role
  {
    var after := PutDelegation(roles, d);
    if roles == [] {
      assert after[0].role == d.role;
    } else if roles[0].role == d.role {
      assert after[0].role == d.role && roles[0].role == d.role;
      assert forall i | 1 <= i < |roles| :: after[i] == roles[i];
    } else {
      PutDelegationMembers(roles[1..], d, role);
      var rest := PutDelegation(roles[1..], d);
      assert after == [roles[0]] + rest;
      if Delegates(rest, role) {
        var i :| 0 <= i < |rest| && rest[i].role == role;
        assert after[i + 1].role == role;
      }
      if Delegates(roles[1..], role) {
        var i :| 0 <= i < |roles| - 1 && roles[1..][i].role == role;
        assert roles[i + 1].role == role;
      }
      if Delegates(after, role) {
        var i :| 0 <= i < |after| && after[i].role == role;
        if i > 0 {
          assert rest[i - 1].role == role;
        } else {
          assert roles[0].role == role;
        }
      }
      if Delegates(roles, role) {
        var i :| 0 <= i < |roles| && roles[i].role == role;
        if i > 0 {
          assert roles[1..][i - 1].role == role;
        } else {
          assert after[0].role == role;
        }
      }
    }
  }

  lemma DelegationJoins(b: Backend, s: State, appId: string)
    requires Inv(s) && IsAppId(appId)
    ensures var targets := Targets(s, TARGETS);
            var next := targets.(delegations := PutDelegation(targets.delegations, DelegationFor(b, appId)));
            EntriesStored(s.disk, next) && DelegationsKept(s, next) && Delegates(next.delegations, AppRoleName(appId))
  {
    OpenedEntriesStored(s, TARGETS);
    hide DiskOk, Newest;
    var targets := Targets(s, TARGETS);
    forall role
      ensures Delegates(PutDelegation(targets.delegations, DelegationFor(b, appId)), role)
         <==> Delegates(targets.delegations, role) || role == AppRoleName(appId)
    {
      PutDelegationMembers(targets.delegations, DelegationFor(b, appId), role);
    }
  }

  lemma TargetsStep(b: Backend, s: State, role: Role, body: Body)
    requires Inv(s) && EntriesStored(s.disk, body)
    requires if role == TARGETS then DelegationsKept(s, body) else role in s.memory.appRoles
    ensures Close(b, s, role, body).Ok? ==>
              var t := Close(b, s, role, body).value;
              && Inv(t) && Grows(s.disk, t.disk)
              && t.memory.appRoles == s.memory.appRoles && t.memory.policies == s.memory.policies
              && Version(t.memory, TARGETS) >= Version(s.memory, TARGETS) && Version(t.memory, role) > 0
              && (role == TARGETS ==> Targets(t, TARGETS) == body)
              && (role != TARGETS ==> Version(t.memory, TARGETS) == Version(s.memory, TARGETS))
  {
    assert body.TargetsBody?;
    hide Inv, Grows, EntriesStored, DelegationsKept;
    if Sign(b, s, role, body).Ok? {
      WriteTargetsKeeps(s, role, Sign(b, s, role, body).value);
    }
  }

  lemma KnownRoleHasTargets(s: State, role: Role)
    requires Inv(s) && role in s.memory.appRoles
    ensures Version(s.memory, TARGETS) > 0 && role !in TOP_LEVEL_ROLES
  {
    hide DiskOk, Newest;
    assert Delegates(Targets(s, TARGETS).delegations, role);
    AppRolesAreNotTopLevel(role);
  }

  lemma PutTargetKeeps(b: Backend, s: State, role: Role, path: string, bytes: Bytes, info: ReleaseInfo)
    requires Inv(s) && role in s.memory.appRoles
    ensures Good(PutTarget(b, s, role, path, bytes, info).trail)
  {
    var s1 := StorePayload(s, path, bytes);
    StorePayloadKeeps(s, path, bytes, info);
    KnownRoleHasTargets(s1, role);
    OpenedEntriesStored(s1, role);
    var listed := Targets(s1, role);
    var body := listed.(targets := listed.targets[path := EntryFor(bytes, info)]);
    assert EntriesStored(s1.disk, body);
    hide Inv, Grows, Good, EntriesStored, Publish;
    TargetsStep(b, s1, role, body);
    GoodPair(s, s1);
    if Close(b, s1, role, body).Ok? {
      var s2 := Close(b, s1, role, body).value;
      PublishKeeps(b, s2);
      GoodAfter(s1, Publish(b, s2).trail);
      GoodAfter(s, [s1] + Publish(b, s2).trail);
    }
  }

  lemma AdmitKeeps(b: Backend, s: State, role: Role)
    requires Inv(s) && Version(s.memory, TARGETS) > 0
    requires Delegates(Targets(s, TARGETS).delegations, role) && IsAppRole(role)
    requires role in s.memory.policies && s.memory.policies[role].threshold == 1
    ensures Good(Admit(b, s, role).trail)
  {
    var s1 := AddAppRole(s, role);
    AppRoleJoins(s, role);
    OpenedEntriesStored(s1, role);
    AppRolesAreNotTopLevel(role);
    hide Inv, Grows, Good, EntriesStored, DelegationsKept, Publish;
    GrowsReflexive(s.disk);
    GoodPair(s, s1);
    TargetsStep(b, s1, role, Targets(s1, role));
    if Close(b, s1, role, Targets(s1, role)).Ok? {
      var s2 := Close(b, s1, role, Targets(s1, role)).value;
      PublishKeeps(b, s2);
      GoodAfter(s1, Publish(b, s2).trail);
      GoodAfter(s, [s1] + Publish(b, s2).trail);
    }
  }

  lemma DelegateKeeps(b: Backend, s: State, appId: string)
    requires Inv(s) && IsAppId(appId)
    requires AppRoleName(appId) in s.memory.policies && s.memory.policies[AppRoleName(appId)].threshold == 1
    ensures Good(Delegate(b, s, appId).trail)
  {
    GoodOne(s);
    DelegationJoins(b, s, appId);
    hide Inv, Grows, Good, EntriesStored, DelegationsKept, Admit;
    var targets := Targets(s, TARGETS);
    var body := targets.(delegations := PutDelegation(targets.delegations, DelegationFor(b, appId)));
    TargetsStep(b, s, TARGETS, body);
    if Close(b, s, TARGETS, body).Ok? {
      var s1 := Close(b, s, TARGETS, body).value;
      AdmitKeeps(b, s1, AppRoleName(appId));
      GoodAfter(s, Admit(b, s1, AppRoleName(appId)).trail);
    }
  }

  lemma AddAppKeeps(b: Backend, s: State, appId: string, critical: bool)
    requires Inv(s)
    ensures Good(AddApp(b, s, appId, critical).trail)
  {
    GoodOne(s);
    if IsAppId(appId) {
      var role := AppRoleName(appId);
      var s0 := SetPolicy(s, role, AppRolePolicy(critical));
      assert IsAppRole(role);
      PoliciesKeep(s, role, AppRolePolicy(critical));
      hide Inv, Grows, Good, Delegate;
      GrowsReflexive(s.disk);
      GoodPair(s, s0);
      DelegateKeeps(b, s0, appId);
      GoodAfter(s, Delegate(b, s0, appId).trail);
    }
  }

  lemma RootVersionKeeps(s: State, version: nat)
    requires Inv(s) && Versioned(ROOT, version) in s.disk.files
    ensures Inv(SetVersion(s, ROOT, version))
  {
    var t := SetVersion(s, ROOT, version);
    assert forall r | r != ROOT :: Version(t.memory, r) == Version(s.memory, r);
    assert Newest(t.disk, t.memory) by { hide DiskOk, RolesKnown; }
    hide DiskOk, Newest;
    assert Open(t, TARGETS) == Open(s, TARGETS);
    forall r | IsAppRole(r) ensures r != ROOT { AppRolesAreNotTopLevel(r); }
    RolesStayKnown(s, t);
  }

  lemma RootWritesKeep(b: Backend, s: State, root: Doc)
    requires Inv(s) && root.version > 0 && root.body.RootBody?
    ensures var s1 := WriteFile(s, NameOf(ROOT, root.version), root);
            var s2 := SetVersion(WriteFile(s1, RootJson, root), ROOT, root.version);
            Inv(s1) && Inv(s2) && Grows(s.disk, s1.disk) && Grows(s1.disk, s2.disk)
  {
    hide Inv, Grows;
    var s1 := WriteFile(s, NameOf(ROOT, root.version), root);
    RootWriteKeeps(s, s1, NameOf(ROOT, root.version), root);
    var s2 := WriteFile(s1, RootJson, root);
    RootWriteKeeps(s1, s2, RootJson, root);
    RootVersionKeeps(s2, root.version);
  }

  lemma RootWriteKeepsClosed(d: Disk, e: Disk, name: FileName, root: Doc)
    requires Closed(d) && root.body.RootBody? && (name == RootJson || name == Versioned(ROOT, root.version))
    requires e == d.(files := d.files[name := root])
    ensures Closed(e)
  {
    forall v: nat | Versioned(SNAPSHOT, v) in e.files && e.files[Versioned(SNAPSHOT, v)].body.SnapshotBody?
      ensures NamesFiles(e, e.files[Versioned(SNAPSHOT, v)].body.meta)
    {
      assert NamesFiles(d, e.files[Versioned(SNAPSHOT, v)].body.meta);
    }
  }

  lemma RootWriteKeepsShape(d: Disk, e: Disk, m: Memory, name: FileName, root: Doc)
    requires Shaped(d) && SnapshotsRise(d) && Newest(d, m) && root.body.RootBody? && root.version > 0
    requires name == RootJson || name == Versioned(ROOT, root.version)
    requires e == d.(files := d.files[name := root])
    ensures Shaped(e) && SnapshotsRise(e) && Grows(d, e) && Newest(e, m)
  {
    assert forall n | n in e.files && n != name :: n in d.files && e.files[n] == d.files[n];
  }

  lemma RootWriteKeepsPayloads(d: Disk, e: Disk, name: FileName, root: Doc)
    requires PayloadsStored(d) && root.body.RootBody? && e == d.(files := d.files[name := root])
    ensures PayloadsStored(e)
  {
  }

  lemma RootWriteKeeps(s: State, t: State, name: FileName, root: Doc)
    requires Inv(s) && root.body.RootBody? && root.version > 0
    requires name == RootJson || name == Versioned(ROOT, root.version)
    requires t == WriteFile(s, name, root)
    ensures Inv(t) && Grows(s.disk, t.disk)
  {
    assert Open(t, TARGETS) == Open(s, TARGETS);
    hide Shaped, PayloadsStored, Closed, SnapshotsRise, Newest, Grows, RolesKnown;
    RootWriteKeepsShape(s.disk, t.disk, t.memory, name, root);
    RootWriteKeepsPayloads(s.disk, t.disk, name, root);
    RootWriteKeepsClosed(s.disk, t.disk, name, root);
    RolesStayKnown(s, t);
  }

  lemma OpenedTargetsKept(s: State)
    requires Inv(s)
    ensures DelegationsKept(s, Targets(s, TARGETS)) && Open(s, TARGETS).body == Targets(s, TARGETS)
  {
    assert Open(s, TARGETS).body == Targets(s, TARGETS) by { hide PayloadsStored, Closed, SnapshotsRise, RolesKnown; }
    hide DiskOk, Newest;
  }

  lemma WriteRootKeeps(b: Backend, s: State, root: Doc)
    requires Inv(s) && root.version > 0 && root.body.RootBody?
    ensures Good(WriteRoot(b, s, root).trail)
  {
    var s1 := WriteFile(s, NameOf(ROOT, root.version), root);
    var s2 := SetVersion(WriteFile(s1, RootJson, root), ROOT, root.version);
    RootWritesKeep(b, s, root);
    OpenedEntriesStored(s2, TARGETS);
    OpenedTargetsKept(s2);
    hide Inv, Grows, Good, EntriesStored, DelegationsKept, Publish;
    TargetsStep(b, s2, TARGETS, Targets(s2, TARGETS));
    GoodPair(s, s1);
    GoodPair(s1, s2);
    if Close(b, s2, TARGETS, Targets(s2, TARGETS)).Ok? {
      var s3 := Close(b, s2, TARGETS, Targets(s2, TARGETS)).value;
      PublishKeeps(b, s3);
      GoodAfter(s2, Publish(b, s3).trail);
      GoodAfter(s1, [s2] + Publish(b, s3).trail);
      GoodAfter(s, [s1] + ([s2] + Publish(b, s3).trail));
    } else {
      GoodAfter(s, [s1, s2]);
      assert [s] + [s1, s2] == [s, s1, s2];
    }
  }

  lemma InitializeKeeps(b: Backend, s: State)
    requires Inv(s)
    ensures Good(Initialize(b, s).trail)
  {
    hide Inv, WriteRoot, Good;
    GoodOne(s);
    var signed := Sign(b, s, ROOT, RootFor(b));
    if signed.Ok? {
      WriteRootKeeps(b, s, signed.value);
    }
  }

  // -------------------------------------------------------------- whole runs

  /** How an operation ends: to its end, killed after some write, or stopped there by an error. */
  datatype Ending = Finished | Killed(writes: nat) | Survived(writes: nat)

  datatype Event = Event(op: Operation, backend: Backend, ending: Ending)

  /** What `_scan` reads off a disk. */
  ghost predicate Rescanned(d: Disk, m: Memory) {
    && Newest(d, m)
    && (forall v: nat | Versioned(ROOT, v) in d.files :: v <= Version(m, ROOT))
    && (forall role :: role in m.appRoles <==> Delegates(Targets(State(d, m), TARGETS).delegations, role))
    && m.policies == map role | role in TOP_LEVEL_POLICIES.Keys + m.appRoles ::
         if role in TOP_LEVEL_POLICIES then TOP_LEVEL_POLICIES[role] else AppRolePolicy(false)
  }

  /** Publishing a repository that has no targets yet is the one operation the promise excludes. */
  ghost predicate Sound(s: State, op: Operation) {
    op == OpPublish ==> Version(s.memory, TARGETS) > 0
  }

  /** `trail` is what one event passes through, starting in `s`. */
  ghost predicate Follows(s: State, e: Event, trail: seq<State>) {
    var full := Perform(e.backend, s, e.op).trail;
    match e.ending
    case Finished => trail == full
    case Survived(k) => k < |full| && trail == full[..k + 1]
    case Killed(k) =>
      && k < |full| && |trail| == k + 2 && trail[..k + 1] == full[..k + 1]
      && trail[k + 1].disk == full[k].disk && Rescanned(trail[k + 1].disk, trail[k + 1].memory)
  }

  /** `trail` is what a whole run passes through; `cuts[i]` states of it belong to event `i`. */
  ghost predicate RunOf(s: State, events: seq<Event>, cuts: seq<nat>, trail: seq<State>)
    decreases |events|
  {
    if events == [] then trail == [s] && cuts == []
    else
      && |cuts| > 0 && 0 < cuts[0] <= |trail|
      && Sound(s, events[0].op) && Follows(s, events[0], trail[..cuts[0]])
      && RunOf(trail[cuts[0] - 1], events[1..], cuts[1..], trail[cuts[0] - 1..])
  }

  lemma PerformKeeps(b: Backend, s: State, op: Operation)
    requires Inv(s) && Sound(s, op)
    ensures Good(Perform(b, s, op).trail)
  {
    GoodOne(s);
    match op
    case OpInitialize => InitializeKeeps(b, s);
    case OpAddApp(appId, critical) => AddAppKeeps(b, s, appId, critical);
    case OpAddRelease(key, payload, info) =>
      hide Inv, PutTarget, Good;
      if info.version == key.version && IsAppId(key.appId) && AppRoleName(key.appId) in s.memory.appRoles {
        PutTargetKeeps(b, s, AppRoleName(key.appId), Path(key), payload, info);
      }
    case OpSetCurrent(key) =>
      hide Inv, PutTarget, Good;
      if IsAppId(key.appId) && AppRoleName(key.appId) in s.memory.appRoles {
        PutTargetKeeps(b, s, AppRoleName(key.appId), PointerPath(ChannelOf(key)),
                       PointerJson(Path(key), key.version), PointerInfo(key.version));
      }
    case OpPublish => PublishKeeps(b, s);
  }

  /** A restart loses memory only: the rescanned state keeps the invariant. */
  lemma RescanKeeps(s: State, m: Memory)
    requires Inv(s) && Rescanned(s.disk, m)
    ensures Inv(State(s.disk, m))
  {
    var t := State(s.disk, m);
    assert forall role | role != ROOT :: Version(m, role) == Version(s.memory, role) by {
      hide DiskOk, RolesKnown;
    }
    hide DiskOk, Newest;
    assert Open(t, TARGETS) == Open(s, TARGETS);
    forall role | role in m.appRoles ensures role !in TOP_LEVEL_ROLES && IsAppRole(role) {
      AppRolesAreNotTopLevel(role);
    }
    forall role | IsAppRole(role) && Version(m, role) > 0 ensures role in m.appRoles {
      AppRolesAreNotTopLevel(role);
      assert role in s.memory.appRoles;
    }
  }

  lemma GoodPrefix(full: seq<State>, k: nat)
    requires Good(full) && k < |full|
    ensures Good(full[..k + 1])
  {
    hide Inv, Grows;
  }

  lemma KilledKeeps(full: seq<State>, k: nat, last: State)
    requires Good(full) && k < |full|
    requires last.disk == full[k].disk && Rescanned(last.disk, last.memory)
    ensures Good(full[..k + 1] + [last])
  {
    hide Grows, Inv, Rescanned;
    RescanKeeps(full[k], last.memory);
    GrowsReflexive(full[k].disk);
    GoodOne(last);
    GoodPrefix(full, k);
    GoodJoin(full[..k + 1], [last]);
  }

  lemma FollowsKeeps(s: State, e: Event, trail: seq<State>)
    requires Inv(s) && Sound(s, e.op) && Follows(s, e, trail)
    ensures Good(trail) && trail[0] == s
  {
    hide Inv, Grows, Perform, Rescanned, Good, Sound;
    PerformKeeps(e.backend, s, e.op);
    var full := Perform(e.backend, s, e.op).trail;
    match e.ending {
      case Finished =>
      case Survived(k) =>
        GoodPrefix(full, k);
      case Killed(k) =>
        KilledKeeps(full, k, trail[k + 1]);
        assert trail == full[..k + 1] + [trail[k + 1]];
    }
  }

  /**
   After every single write of every run: the disk is closed, payloads are stored, and nothing but
   root is ever rewritten or withdrawn.
   */
  lemma {:induction false} EveryRunIsGood(s: State, events: seq<Event>, cuts: seq<nat>, trail: seq<State>)
    requires Inv(s) && RunOf(s, events, cuts, trail)
    ensures Good(trail) && trail[0] == s
    decreases |events|
  {
    hide Inv, Grows, Follows;
    if events == [] {
      GoodOne(s);
    } else {
      var k := cuts[0];
      var head, tail := trail[..k], trail[k - 1..];
      FollowsKeeps(s, events[0], head);
      assert head[k - 1] == trail[k - 1];
      EveryRunIsGood(trail[k - 1], events[1..], cuts[1..], tail);
      if |tail| == 1 {
        assert head == trail;
      } else {
        assert Good(tail[1..]);
        assert trail == head + tail[1..];
        GoodJoin(head, tail[1..]);
      }
    }
  }

  lemma EmptyIsFine()
    ensures Inv(EMPTY)
  {
    assert forall role :: !Delegates([], role);
  }
}

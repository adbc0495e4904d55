/** Where the publisher's promises stop: publishing before there are targets. */
module PublisherLimits {
  import opened Metadata
  import opened Publisher
  import opened PublisherSafety
  import opened PublisherRuns

  lemma NoTargetsNoSnapshot(s: State)
    requires Inv(s) && Version(s.memory, TARGETS) == 0
    ensures Version(s.memory, SNAPSHOT) == 0 && s.memory.appRoles == {}
    ensures forall v: nat :: Versioned(TARGETS, v) !in s.disk.files && Versioned(SNAPSHOT, v) !in s.disk.files
  {
    assert Shaped(s.disk) && Closed(s.disk) && Newest(s.disk, s.memory);
    assert forall v: nat :: Versioned(TARGETS, v) !in s.disk.files by {
      hide PayloadsStored, Closed, SnapshotsRise, RolesKnown;
    }
    if Version(s.memory, SNAPSHOT) > 0 {
      MetaNamesFiles(s);
      assert false;
    }
    assert forall v: nat :: Versioned(SNAPSHOT, v) !in s.disk.files by {
      hide PayloadsStored, Closed, SnapshotsRise, RolesKnown;
    }
    forall role | role in s.memory.appRoles ensures false {
      KnownRoleHasTargets(s, role);
    }
  }

  lemma EmptyRepositoryIsDue(b: Backend, s: State)
    requires Version(s.memory, TARGETS) == 0 && Version(s.memory, SNAPSHOT) == 0 && s.memory.appRoles == {}
    ensures TargetsInfos(s.memory) == map[] && SnapshotMeta(s) == map[TARGETS := 1] && !SnapshotFell(s)
    ensures SnapshotDue(s)
  {
    assert TargetsInfos(s.memory) == map[];
    assert SnapshotMeta(s) == map[TARGETS := 1];
    assert Open(s, SNAPSHOT).signers == {};
    if !SnapshotDue(s) {
      SignedMeansPresent(s, SNAPSHOT);
      assert false;
    }
  }

  /** The dangling snapshot: python-tuf's default names version 1 of a targets file nobody wrote. */
  lemma PublishTooEarly(b: Backend, s: State)
    requires Inv(s) && Version(s.memory, TARGETS) == 0 && KeyIds(b, SNAPSHOT) != {}
    ensures |Publish(b, s).trail| > 1 && !Closed(Publish(b, s).trail[1].disk)
  {
    hide Inv, RootKeys, SnapshotDue, SnapshotFell, SnapshotMeta, TargetsInfos, DoTimestamp, NamesFiles, Closed;
    NoTargetsNoSnapshot(s);
    SnapshotPolicy(s);
    EmptyRepositoryIsDue(b, s);
    var t := DoSnapshot(b, s).value;
    assert map[TARGETS := 1] + map[] == map[TARGETS := 1];
    assert t == WriteRole(s, SNAPSHOT, Doc(1, KeyIds(b, SNAPSHOT), SnapshotBody(map[TARGETS := 1])));
    DanglingIsNotClosed(t.disk);
  }

  lemma SnapshotPolicy(s: State)
    requires Inv(s)
    ensures SNAPSHOT in s.memory.policies && s.memory.policies[SNAPSHOT].threshold == 1
  {
    hide DiskOk, Newest;
    assert SNAPSHOT in TOP_LEVEL_ROLES;
  }

  lemma DanglingIsNotClosed(d: Disk)
    requires Versioned(SNAPSHOT, 1) in d.files
    requires d.files[Versioned(SNAPSHOT, 1)].body == SnapshotBody(map[TARGETS := 1])
    requires Versioned(TARGETS, 1) !in d.files
    ensures !Closed(d)
  {
    assert !NamesFiles(d, map[TARGETS := 1]);
  }

  /** `publish` keeps every advertised file on disk, after each of its writes, exactly when targets exist. */
  lemma PublishNeedsTargets(b: Backend, s: State)
    requires Inv(s) && KeyIds(b, SNAPSHOT) != {}
    ensures (forall i | 0 <= i < |Publish(b, s).trail| :: DiskOk(Publish(b, s).trail[i].disk))
       <==> Version(s.memory, TARGETS) > 0
  {
    if Version(s.memory, TARGETS) > 0 {
      PublishKeeps(b, s);
      hide DiskOk, Newest, RolesKnown, Publish, Grows;
      assert forall i | 0 <= i < |Publish(b, s).trail| :: Inv(Publish(b, s).trail[i]);
    } else {
      PublishTooEarly(b, s);
      hide Shaped, PayloadsStored, Closed, SnapshotsRise, Publish;
    }
  }
}

/**
 What every single write keeps, over every run with one writer: crashes, restarts and survived
 errors included. No backend is fixed: each operation may run with keys of its own.
 */
module PublisherSafety {
  import opened Naming
  import opened Metadata
  import opened Publisher

  // -------------------------------------------------------------- invariants

  ghost predicate HasShape(role: Role, body: Body) {
    if role == ROOT then body.RootBody?
    else if role == SNAPSHOT then body.SnapshotBody?
    else body.TargetsBody?
  }

  /** Every file is the document its name says it is. */
  ghost predicate Shaped(d: Disk) {
    && (forall role, v: nat | Versioned(role, v) in d.files ::
          var doc := d.files[Versioned(role, v)];
          role != TIMESTAMP && v > 0 && doc.version == v && HasShape(role, doc.body))
    && (TimestampJson in d.files ==>
          d.files[TimestampJson].body.TimestampBody? && d.files[TimestampJson].version > 0)
  }

  ghost predicate Stored(d: Disk, path: string, e: Entry) {
    PayloadName(path, e.digest) in d.payloads && e.length == e.digest.of.length
  }

  /** The payload of every listed target is stored, under a name that is its own digest. */
  ghost predicate PayloadsStored(d: Disk) {
    && (forall n | n in d.payloads :: d.payloads[n] == n.digest.of)
    && (forall n, path | n in d.files && d.files[n].body.TargetsBody? && path in d.files[n].body.targets ::
          Stored(d, path, d.files[n].body.targets[path]))
  }

  ghost predicate NamesFiles(d: Disk, meta: map<Role, nat>) {
    && TARGETS in meta
    && forall role | role in meta :: role !in {ROOT, SNAPSHOT} && Versioned(role, meta[role]) in d.files
  }

  /** Everything a snapshot names is on disk, and so is the snapshot the timestamp names. */
  ghost predicate Closed(d: Disk) {
    && (forall v: nat | Versioned(SNAPSHOT, v) in d.files && d.files[Versioned(SNAPSHOT, v)].body.SnapshotBody? ::
          NamesFiles(d, d.files[Versioned(SNAPSHOT, v)].body.meta))
    && (TimestampJson in d.files && d.files[TimestampJson].body.TimestampBody? ==>
          Versioned(SNAPSHOT, d.files[TimestampJson].body.snapshot) in d.files)
  }

  ghost predicate Below(m: map<Role, nat>, n: map<Role, nat>) {
    forall role | role in m :: role in n && m[role] <= n[role]
  }

  /** Later snapshots name everything earlier ones did, at no lower version. */
  ghost predicate SnapshotsRise(d: Disk) {
    forall v: nat, w: nat | v <= w && Versioned(SNAPSHOT, v) in d.files && Versioned(SNAPSHOT, w) in d.files ::
      var a, b := d.files[Versioned(SNAPSHOT, v)].body, d.files[Versioned(SNAPSHOT, w)].body;
      a.SnapshotBody? && b.SnapshotBody? ==> Below(a.meta, b.meta)
  }

  ghost predicate DiskOk(d: Disk) {
    Shaped(d) && PayloadsStored(d) && Closed(d) && SnapshotsRise(d)
  }

  /** `_versions` holds the newest version of every role but root, 0 for none. */
  ghost predicate Newest(d: Disk, m: Memory) {
    && (forall role, v: nat | Versioned(role, v) in d.files && role != ROOT :: v <= Version(m, role))
    && (forall role | role !in {ROOT, TIMESTAMP} && Version(m, role) > 0 ::
          Versioned(role, Version(m, role)) in d.files)
    && (TimestampJson in d.files <==> Version(m, TIMESTAMP) > 0)
    && (TimestampJson in d.files ==> d.files[TimestampJson].version == Version(m, TIMESTAMP))
    && (Version(m, ROOT) > 0 ==> Versioned(ROOT, Version(m, ROOT)) in d.files)
    && (SNAPSHOT in m.versions ==> m.versions[SNAPSHOT] > 0)
  }

  ghost predicate IsAppRole(role: Role) {
    exists appId | IsAppId(appId) :: role == AppRoleName(appId)
  }

  /** `_app_roles` are delegated, and hold every application role that has a file; all have policies. */
  ghost predicate RolesKnown(s: State) {
    && (forall role | role in s.memory.appRoles :: Delegates(Targets(s, TARGETS).delegations, role))
    && (forall role | Delegates(Targets(s, TARGETS).delegations, role) :: IsAppRole(role))
    && (forall role | IsAppRole(role) && Version(s.memory, role) > 0 :: role in s.memory.appRoles)
    && TOP_LEVEL_ROLES + s.memory.appRoles <= s.memory.policies.Keys
    && (forall role | role in TOP_LEVEL_ROLES :: s.memory.policies[role] == TOP_LEVEL_POLICIES[role])
    && (forall role | role in s.memory.appRoles :: s.memory.policies[role].threshold == 1)
  }

  ghost predicate Inv(s: State) {
    DiskOk(s.disk) && Newest(s.disk, s.memory) && RolesKnown(s)
  }

  const EMPTY := State(Disk(map[], map[]), Memory(map[], {}, TOP_LEVEL_POLICIES))

  // -------------------------------------------------------------- the promise

  /** Nothing published is rewritten or withdrawn, and the timestamp never falls. */
  ghost predicate Grows(d: Disk, e: Disk) {
    && d.files.Keys <= e.files.Keys
    && (forall role, v: nat | Versioned(role, v) in d.files && role != ROOT ::
          Versioned(role, v) in e.files && e.files[Versioned(role, v)] == d.files[Versioned(role, v)])
    && (forall n | n in d.payloads :: n in e.payloads && e.payloads[n] == d.payloads[n])
    && (TimestampJson in d.files && d.files[TimestampJson].body.TimestampBody? ==>
          && TimestampJson in e.files && e.files[TimestampJson].body.TimestampBody?
          && d.files[TimestampJson].version <= e.files[TimestampJson].version
          && d.files[TimestampJson].body.snapshot <= e.files[TimestampJson].body.snapshot)
  }

  lemma GrowsTransitive(d: Disk, e: Disk, f: Disk)
    requires Grows(d, e) && Grows(e, f)
    ensures Grows(d, f)
  {
  }

  lemma GrowsReflexive(d: Disk)
    ensures Grows(d, d)
  {
  }

  ghost predicate Good(trail: seq<State>) {
    && trail != []
    && (forall i | 0 <= i < |trail| :: Inv(trail[i]))
    && (forall i, j | 0 <= i < j < |trail| :: Grows(trail[i].disk, trail[j].disk))
  }

  lemma GoodAfter(s: State, trail: seq<State>)
    requires Inv(s) && Good(trail) && Grows(s.disk, trail[0].disk)
    ensures Good([s] + trail)
  {
    var t := [s] + trail;
    forall i, j | 0 <= i < j < |t| ensures Grows(t[i].disk, t[j].disk) {
      if i == 0 && j > 1 {
        GrowsTransitive(s.disk, trail[0].disk, trail[j - 1].disk);
      }
    }
  }

  lemma GrowsAlong(a: seq<State>, i: nat, j: nat)
    requires Good(a) && i <= j < |a|
    ensures Grows(a[i].disk, a[j].disk)
  {
    GrowsReflexive(a[i].disk);
    hide Inv, Grows;
  }

  /** One good trail continued by another. */
  lemma GoodJoin(a: seq<State>, b: seq<State>)
    requires Good(a) && Good(b) && Grows(a[|a| - 1].disk, b[0].disk)
    ensures Good(a + b)
  {
    hide Inv, Grows;
    var t := a + b;
    forall i | 0 <= i < |t| ensures Inv(t[i]) {
      if i >= |a| {
        assert t[i] == b[i - |a|];
      }
    }
    forall i, j | 0 <= i < j < |t| ensures Grows(t[i].disk, t[j].disk) {
      if j < |a| {
        GrowsAlong(a, i, j);
      } else if i >= |a| {
        GrowsAlong(b, i - |a|, j - |a|);
      } else {
        GrowsAlong(a, i, |a| - 1);
        GrowsAlong(b, 0, j - |a|);
        GrowsTransitive(a[i].disk, a[|a| - 1].disk, b[0].disk);
        GrowsTransitive(a[i].disk, b[0].disk, b[j - |a|].disk);
      }
    }
  }

  // -------------------------------------------------------------- single writes

  lemma StorePayloadKeeps(s: State, path: string, bytes: Bytes, info: ReleaseInfo)
    requires Inv(s)
    ensures var t := StorePayload(s, path, bytes);
            Inv(t) && Grows(s.disk, t.disk) && Stored(t.disk, path, EntryFor(bytes, info))
  {
    var t := StorePayload(s, path, bytes);
    assert t.disk.files == s.disk.files && t.memory == s.memory;
    assert forall role :: Open(t, role) == Open(s, role);
    assert forall n | n in s.disk.payloads :: n in t.disk.payloads && t.disk.payloads[n] == n.digest.of;
  }

  ghost predicate EntriesStored(d: Disk, body: Body) {
    body.TargetsBody? && forall path | path in body.targets :: Stored(d, path, body.targets[path])
  }

  /** The delegations a new top-level targets file may carry, so that `RolesKnown` survives. */
  ghost predicate DelegationsKept(s: State, body: Body) {
    && body.TargetsBody?
    && (forall role | Delegates(Targets(s, TARGETS).delegations, role) :: Delegates(body.delegations, role))
    && (forall role | Delegates(body.delegations, role) :: IsAppRole(role))
  }

  lemma AppRolesAreNotTopLevel(role: Role)
    requires IsAppRole(role)
    ensures role !in TOP_LEVEL_ROLES
  {
    var appId :| IsAppId(appId) && role == AppRoleName(appId);
    assert role[3] == '-';
    assert ROOT[3] == 't' && TARGETS[3] == 'g' && SNAPSHOT[3] == 'p' && TIMESTAMP[3] == 'e';
  }

  /** `d` with one more versioned file, the next of its role. */
  function Added(d: Disk, role: Role, doc: Doc): Disk {
    d.(files := d.files[Versioned(role, doc.version) := doc])
  }

  lemma AddedGrows(d: Disk, role: Role, doc: Doc)
    requires role !in {ROOT, TIMESTAMP} && Versioned(role, doc.version) !in d.files
    ensures Grows(d, Added(d, role, doc))
  {
  }

  lemma AddedShaped(d: Disk, role: Role, doc: Doc)
    requires Shaped(d) && role != TIMESTAMP && doc.version > 0 && HasShape(role, doc.body)
    ensures Shaped(Added(d, role, doc))
  {
  }

  lemma AddedPayloadsStored(d: Disk, role: Role, doc: Doc)
    requires PayloadsStored(d)
    requires doc.body.TargetsBody? ==> EntriesStored(d, doc.body)
    ensures PayloadsStored(Added(d, role, doc))
  {
  }

  lemma AddedClosed(d: Disk, role: Role, doc: Doc)
    requires Closed(d) && role != TIMESTAMP
    requires role == SNAPSHOT && doc.body.SnapshotBody? ==> NamesFiles(d, doc.body.meta)
    ensures Closed(Added(d, role, doc))
  {
    var e := Added(d, role, doc);
    forall v: nat | Versioned(SNAPSHOT, v) in e.files && e.files[Versioned(SNAPSHOT, v)].body.SnapshotBody?
      ensures NamesFiles(e, e.files[Versioned(SNAPSHOT, v)].body.meta)
    {
      var meta := e.files[Versioned(SNAPSHOT, v)].body.meta;
      assert NamesFiles(d, meta);
    }
  }

  lemma AddedSnapshotsRise(d: Disk, role: Role, doc: Doc)
    requires SnapshotsRise(d)
    requires role == SNAPSHOT && doc.body.SnapshotBody? ==>
               forall v: nat | Versioned(SNAPSHOT, v) in d.files ::
                 && v < doc.version
                 && (d.files[Versioned(SNAPSHOT, v)].body.SnapshotBody? ==>
                       Below(d.files[Versioned(SNAPSHOT, v)].body.meta, doc.body.meta))
    ensures SnapshotsRise(Added(d, role, doc))
  {
  }

  lemma WrittenNewest(s: State, role: Role, doc: Doc)
    requires Newest(s.disk, s.memory) && role !in {ROOT, TIMESTAMP} && doc.version == Version(s.memory, role) + 1
    ensures var t := WriteRole(s, role, doc);
            t.disk == Added(s.disk, role, doc) && Newest(t.disk, t.memory)
    ensures Versioned(role, doc.version) !in s.disk.files
  {
    var t := WriteRole(s, role, doc);
    assert forall r | r != role :: Version(t.memory, r) == Version(s.memory, r);
  }

  lemma RolesStayKnown(s: State, t: State)
    requires RolesKnown(s)
    requires s.memory.appRoles == t.memory.appRoles && s.memory.policies == t.memory.policies
    requires Targets(s, TARGETS).delegations == Targets(t, TARGETS).delegations
    requires forall role | IsAppRole(role) && role !in s.memory.appRoles ::
               Version(t.memory, role) == Version(s.memory, role)
    ensures RolesKnown(t)
  {
  }

  lemma WriteTargetsKeepsDisk(s: State, role: Role, doc: Doc)
    requires DiskOk(s.disk) && Newest(s.disk, s.memory)
    requires role !in {ROOT, SNAPSHOT, TIMESTAMP} && doc.version == Version(s.memory, role) + 1
    requires EntriesStored(s.disk, doc.body)
    ensures var t := WriteRole(s, role, doc);
            DiskOk(t.disk) && Newest(t.disk, t.memory) && Grows(s.disk, t.disk)
  {
    hide Shaped, PayloadsStored, Closed, SnapshotsRise, Newest, Grows;
    WrittenNewest(s, role, doc);
    AddedGrows(s.disk, role, doc);
    AddedShaped(s.disk, role, doc);
    AddedPayloadsStored(s.disk, role, doc);
    AddedClosed(s.disk, role, doc);
    AddedSnapshotsRise(s.disk, role, doc);
  }

  lemma WriteTargetsKeeps(s: State, role: Role, doc: Doc)
    requires Inv(s)
    requires doc.version == Version(s.memory, role) + 1
    requires EntriesStored(s.disk, doc.body)
    requires if role == TARGETS then DelegationsKept(s, doc.body) else role in s.memory.appRoles
    ensures var t := WriteRole(s, role, doc); Inv(t) && Grows(s.disk, t.disk)
  {
    hide DiskOk, Newest, Grows;
    if role != TARGETS {
      assert Delegates(Targets(s, TARGETS).delegations, role);
      AppRolesAreNotTopLevel(role);
    }
    var t := WriteRole(s, role, doc);
    WriteTargetsKeepsDisk(s, role, doc);
    forall r | IsAppRole(r) && r != role ensures Version(t.memory, r) == Version(s.memory, r) {}
    if role == TARGETS {
      assert Open(t, TARGETS) == doc;
      forall r | IsAppRole(r) ensures r != TARGETS { AppRolesAreNotTopLevel(r); }
    } else {
      assert Open(t, TARGETS) == Open(s, TARGETS);
      RolesStayKnown(s, t);
    }
  }

  lemma TopLevelWriteKeepsRoles(s: State, role: Role, doc: Doc)
    requires RolesKnown(s) && role in {SNAPSHOT, TIMESTAMP}
    ensures RolesKnown(WriteRole(s, role, doc))
  {
    var t := WriteRole(s, role, doc);
    assert Open(t, TARGETS) == Open(s, TARGETS);
    forall r | IsAppRole(r) ensures Version(t.memory, r) == Version(s.memory, r) {
      AppRolesAreNotTopLevel(r);
    }
    RolesStayKnown(s, t);
  }

  lemma EarlierSnapshotsBelow(s: State, meta: map<Role, nat>)
    requires DiskOk(s.disk) && Newest(s.disk, s.memory)
    requires Version(s.memory, SNAPSHOT) > 0 ==> Below(SnapshotMeta(s), meta)
    ensures forall v: nat | Versioned(SNAPSHOT, v) in s.disk.files ::
              && v <= Version(s.memory, SNAPSHOT)
              && s.disk.files[Versioned(SNAPSHOT, v)].body.SnapshotBody?
              && Below(s.disk.files[Versioned(SNAPSHOT, v)].body.meta, meta)
  {
    hide PayloadsStored, Closed;
    forall v: nat | Versioned(SNAPSHOT, v) in s.disk.files
      ensures && v <= Version(s.memory, SNAPSHOT)
              && s.disk.files[Versioned(SNAPSHOT, v)].body.SnapshotBody?
              && Below(s.disk.files[Versioned(SNAPSHOT, v)].body.meta, meta)
    {
      var w := Version(s.memory, SNAPSHOT);
      assert Versioned(SNAPSHOT, w) in s.disk.files;
      assert Below(s.disk.files[Versioned(SNAPSHOT, v)].body.meta, SnapshotMeta(s));
    }
  }

  lemma WriteSnapshotKeeps(s: State, doc: Doc)
    requires Inv(s)
    requires doc.version == Version(s.memory, SNAPSHOT) + 1 && doc.body.SnapshotBody?
    requires NamesFiles(s.disk, doc.body.meta)
    requires Version(s.memory, SNAPSHOT) > 0 ==> Below(SnapshotMeta(s), doc.body.meta)
    ensures var t := WriteRole(s, SNAPSHOT, doc); Inv(t) && Grows(s.disk, t.disk)
  {
    EarlierSnapshotsBelow(s, doc.body.meta);
    hide Shaped, PayloadsStored, Closed, SnapshotsRise, Newest, Grows, RolesKnown, Below, NamesFiles;
    WrittenNewest(s, SNAPSHOT, doc);
    AddedGrows(s.disk, SNAPSHOT, doc);
    AddedShaped(s.disk, SNAPSHOT, doc);
    AddedPayloadsStored(s.disk, SNAPSHOT, doc);
    AddedClosed(s.disk, SNAPSHOT, doc);
    AddedSnapshotsRise(s.disk, SNAPSHOT, doc);
    TopLevelWriteKeepsRoles(s, SNAPSHOT, doc);
  }

  lemma WriteTimestampKeepsDisk(d: Disk, doc: Doc)
    requires DiskOk(d) && doc.body.TimestampBody? && doc.version > 0
    requires Versioned(SNAPSHOT, doc.body.snapshot) in d.files
    requires TimestampJson in d.files ==>
               d.files[TimestampJson].version <= doc.version && d.files[TimestampJson].body.TimestampBody?
               && d.files[TimestampJson].body.snapshot <= doc.body.snapshot
    ensures var e := d.(files := d.files[TimestampJson := doc]); DiskOk(e) && Grows(d, e)
  {
    var e := d.(files := d.files[TimestampJson := doc]);
    assert Shaped(e) && Grows(d, e) && SnapshotsRise(e);
    assert PayloadsStored(e) by { hide Shaped, Closed, SnapshotsRise, Grows; }
    forall v: nat | Versioned(SNAPSHOT, v) in e.files && e.files[Versioned(SNAPSHOT, v)].body.SnapshotBody?
      ensures NamesFiles(e, e.files[Versioned(SNAPSHOT, v)].body.meta)
    {
      var meta := e.files[Versioned(SNAPSHOT, v)].body.meta;
      assert NamesFiles(d, meta);
    }
  }

  lemma WriteTimestampKeeps(s: State, doc: Doc)
    requires Inv(s)
    requires doc.version == Version(s.memory, TIMESTAMP) + 1 && doc.body.TimestampBody?
    requires Versioned(SNAPSHOT, doc.body.snapshot) in s.disk.files
    requires Version(s.memory, TIMESTAMP) > 0 ==> TimestampSnapshot(s) <= doc.body.snapshot
    ensures var t := WriteRole(s, TIMESTAMP, doc); Inv(t) && Grows(s.disk, t.disk)
  {
    hide RolesKnown, PayloadsStored, Closed, SnapshotsRise;
    var t := WriteRole(s, TIMESTAMP, doc);
    WriteTimestampKeepsDisk(s.disk, doc);
    TopLevelWriteKeepsRoles(s, TIMESTAMP, doc);
    assert forall r | r != TIMESTAMP :: Version(t.memory, r) == Version(s.memory, r);
  }
}

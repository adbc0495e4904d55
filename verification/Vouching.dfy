/** Every release entry the signer's repository ever lists is one of a set of approved digests. */
module Vouching {
  import opened Naming
  import opened Metadata
  import opened Publisher
  import opened PublisherSafety
  import opened Publication
  import opened Signer

  /** Approved artifacts: a digest, and the application it was approved for. */
  type Approved = set<(Digest, string)>

  ghost predicate IsPointerEntry(path: string, e: Entry) {
    exists key: TargetKey :: path == PointerPath(ChannelOf(key)) && e == PointerEntry(key)
  }

  /** A channel pointer, or an artifact approved for the application whose role lists it. */
  ghost predicate VouchedEntry(role: Role, path: string, e: Entry, ok: Approved) {
    IsPointerEntry(path, e) || exists a | a in ok :: a.0 == e.digest && role == AppRoleName(a.1)
  }

  ghost predicate VouchedBody(role: Role, body: Body, ok: Approved) {
    body.TargetsBody? ==> forall path | path in body.targets :: VouchedEntry(role, path, body.targets[path], ok)
  }

  ghost predicate Vouched(d: Disk, ok: Approved) {
    forall n | n in d.files :: VouchedBody(RoleOf(n), d.files[n].body, ok)
  }

  lemma VouchedMore(d: Disk, ok: Approved, more: Approved)
    requires Vouched(d, ok) && ok <= more
    ensures Vouched(d, more)
  {
    hide IsPointerEntry;
  }

  lemma OpenedVouched(s: State, role: Role, ok: Approved)
    requires Vouched(s.disk, ok)
    ensures VouchedBody(role, Targets(s, role), ok) && VouchedBody(role, Open(s, role).body, ok)
  {
    hide VouchedEntry;
  }

  /** What holds of the published disk whoever writes it: any process, any scan, any keys. */
  ghost predicate Sane(d: Disk, ok: Approved) {
    Shaped(d) && PayloadsStored(d) && Vouched(d, ok)
  }

  /** A body that may be filed under the role. */
  ghost predicate Fitting(d: Disk, role: Role, body: Body, ok: Approved) {
    && (if role == TIMESTAMP then body.TimestampBody? else HasShape(role, body))
    && (body.TargetsBody? ==> EntriesStored(d, body) && VouchedBody(role, body, ok))
  }

  lemma FiledSane(d: Disk, n: FileName, doc: Doc, ok: Approved)
    requires Sane(d, ok) && Fitting(d, RoleOf(n), doc.body, ok) && doc.version > 0
    requires n.Versioned? ==> n.role != TIMESTAMP && n.version == doc.version
    ensures Sane(d.(files := d.files[n := doc]), ok)
  {
    hide VouchedEntry;
    var e := d.(files := d.files[n := doc]);
    assert Shaped(e) by { hide PayloadsStored, Vouched; }
    assert PayloadsStored(e) by { hide Shaped, Vouched; }
    assert Vouched(e, ok) by { hide Shaped, PayloadsStored, EntriesStored, HasShape; }
  }

  lemma CloseSane(b: Backend, s: State, role: Role, body: Body, ok: Approved)
    requires Sane(s.disk, ok) && Fitting(s.disk, role, body, ok)
    ensures Close(b, s, role, body).Ok? ==> Sane(Close(b, s, role, body).value.disk, ok)
  {
    hide Sane, Fitting, KeyIds;
    if Close(b, s, role, body).Ok? {
      var doc := Sign(b, s, role, body).value;
      FiledSane(s.disk, NameOf(role, doc.version), doc, ok);
    }
  }

  lemma OpenedFits(s: State, role: Role, ok: Approved)
    requires Sane(s.disk, ok) && role !in {ROOT, SNAPSHOT, TIMESTAMP}
    ensures Fitting(s.disk, role, Targets(s, role), ok) && Open(s, role).body == Targets(s, role)
  {
    hide VouchedEntry;
    OpenedVouched(s, role, ok);
  }

  ghost predicate AllSane(trail: seq<State>, ok: Approved) {
    forall i | 0 <= i < |trail| :: Sane(trail[i].disk, ok)
  }

  lemma SaneAfter(s: State, trail: seq<State>, ok: Approved)
    requires Sane(s.disk, ok) && AllSane(trail, ok)
    ensures AllSane([s] + trail, ok)
  {
    hide Sane;
  }

  lemma PublishSane(b: Backend, s: State, ok: Approved)
    requires Sane(s.disk, ok)
    ensures AllSane(Publish(b, s).trail, ok)
  {
    hide Sane, SnapshotDue, SnapshotFell, TimestampDue, SnapshotMeta, TargetsInfos;
    CloseSane(b, s, SNAPSHOT, SnapshotBody(SnapshotMeta(s) + TargetsInfos(s.memory)), ok);
    if DoSnapshot(b, s).Ok? {
      var s1 := DoSnapshot(b, s).value;
      CloseSane(b, s1, TIMESTAMP, TimestampBody(SnapshotInfo(s1.memory)), ok);
    }
  }

  /** Store, list what is vouched for, publish. */
  lemma PutTargetSane(b: Backend, s: State, role: Role, path: string, bytes: Bytes, info: ReleaseInfo, ok: Approved)
    requires Sane(s.disk, ok) && role !in TOP_LEVEL_ROLES && VouchedEntry(role, path, EntryFor(bytes, info), ok)
    ensures AllSane(PutTarget(b, s, role, path, bytes, info).trail, ok)
  {
    var s1 := StorePayload(s, path, bytes);
    var body := Listing(s1, role, path, EntryFor(bytes, info));
    PutFits(s, role, path, bytes, info, ok);
    hide Sane, Fitting, VouchedEntry, Publish, Targets, EntryFor, Close;
    CloseSane(b, s1, role, body, ok);
    if Close(b, s1, role, body).Ok? {
      PublishSane(b, Close(b, s1, role, body).value, ok);
      SaneAfter(s1, Publish(b, Close(b, s1, role, body).value).trail, ok);
      SaneAfter(s, [s1] + Publish(b, Close(b, s1, role, body).value).trail, ok);
    }
  }

  lemma PutFits(s: State, role: Role, path: string, bytes: Bytes, info: ReleaseInfo, ok: Approved)
    requires Sane(s.disk, ok) && role !in TOP_LEVEL_ROLES && VouchedEntry(role, path, EntryFor(bytes, info), ok)
    ensures var s1 := StorePayload(s, path, bytes);
            && Sane(s1.disk, ok)
            && Fitting(s1.disk, role, Listing(s1, role, path, EntryFor(bytes, info)), ok)
  {
    hide VouchedEntry;
    var s1 := StorePayload(s, path, bytes);
    StoredSane(s, path, bytes, ok);
    OpenedFits(s1, role, ok);
  }

  lemma StoredSane(s: State, path: string, bytes: Bytes, ok: Approved)
    requires Sane(s.disk, ok)
    ensures Sane(StorePayload(s, path, bytes).disk, ok)
  {
    hide VouchedBody;
    var d, e := s.disk, StorePayload(s, path, bytes).disk;
    assert forall n | n in d.payloads :: n in e.payloads && e.payloads[n] == n.digest.of;
  }

  lemma AdmitSane(b: Backend, s: State, role: Role, ok: Approved)
    requires Sane(s.disk, ok) && role !in TOP_LEVEL_ROLES
    ensures AllSane(Admit(b, s, role).trail, ok)
  {
    hide Sane, Fitting, Publish, Targets, Close;
    var s1 := AddAppRole(s, role);
    OpenedFits(s1, role, ok);
    CloseSane(b, s1, role, Targets(s1, role), ok);
    if Close(b, s1, role, Targets(s1, role)).Ok? {
      PublishSane(b, Close(b, s1, role, Targets(s1, role)).value, ok);
      SaneAfter(s1, Publish(b, Close(b, s1, role, Targets(s1, role)).value).trail, ok);
      SaneAfter(s, [s1] + Publish(b, Close(b, s1, role, Targets(s1, role)).value).trail, ok);
    }
  }

  /** Delegations do not change what is listed. */
  lemma DelegatingFits(b: Backend, s: State, appId: string, ok: Approved)
    requires Sane(s.disk, ok)
    ensures Fitting(s.disk, TARGETS, Delegating(b, s, appId), ok)
  {
    hide VouchedEntry, PutDelegation;
    OpenedFits(s, TARGETS, ok);
  }

  lemma AddAppSane(b: Backend, s: State, appId: string, critical: bool, ok: Approved)
    requires Sane(s.disk, ok)
    ensures AllSane(AddApp(b, s, appId, critical).trail, ok)
  {
    var role := AppRoleName(appId);
    AppRoleIsNotTop(appId);
    hide Sane, Fitting, Admit, Close, PutDelegation, KeyIds, Targets, DelegationFor;
    var s0 := SetPolicy(s, role, AppRolePolicy(critical));
    DelegatingFits(b, s0, appId, ok);
    CloseSane(b, s0, TARGETS, Delegating(b, s0, appId), ok);
    if Close(b, s0, TARGETS, Delegating(b, s0, appId)).Ok? {
      var s1 := Close(b, s0, TARGETS, Delegating(b, s0, appId)).value;
      AdmitSane(b, s1, role, ok);
      SaneAfter(s0, Admit(b, s1, role).trail, ok);
      SaneAfter(s, [s0] + Admit(b, s1, role).trail, ok);
    }
  }

  lemma WriteRootSane(b: Backend, s: State, root: Doc, ok: Approved)
    requires Sane(s.disk, ok) && root.version > 0 && root.body.RootBody?
    ensures AllSane(WriteRoot(b, s, root).trail, ok)
  {
    hide Sane, Publish, Close, Open;
    var s1 := WriteFile(s, NameOf(ROOT, root.version), root);
    FiledSane(s.disk, NameOf(ROOT, root.version), root, ok);
    FiledSane(s1.disk, RootJson, root, ok);
    var s2 := SetVersion(WriteFile(s1, RootJson, root), ROOT, root.version);
    OpenedFits(s2, TARGETS, ok);
    hide Fitting;
    CloseSane(b, s2, TARGETS, Open(s2, TARGETS).body, ok);
    if Close(b, s2, TARGETS, Open(s2, TARGETS).body).Ok? {
      var s3 := Close(b, s2, TARGETS, Open(s2, TARGETS).body).value;
      PublishSane(b, s3, ok);
      SaneAfter(s2, Publish(b, s3).trail, ok);
      SaneAfter(s1, [s2] + Publish(b, s3).trail, ok);
      SaneAfter(s, [s1] + ([s2] + Publish(b, s3).trail), ok);
    }
  }

  /** Only `add_release` lists anything new, and that must be approved for the application. */
  ghost predicate Releases(op: Operation, ok: Approved) {
    op.OpAddRelease? ==> (Sha256(op.payload), op.key.appId) in ok
  }

  lemma PointerVouched(role: Role, key: TargetKey, ok: Approved)
    ensures VouchedEntry(role, PointerPath(ChannelOf(key)), PointerEntry(key), ok)
  {
    assert IsPointerEntry(PointerPath(ChannelOf(key)), PointerEntry(key));
  }

  lemma ReleaseVouched(role: Role, path: string, payload: Bytes, info: ReleaseInfo, appId: string, ok: Approved)
    requires (Sha256(payload), appId) in ok && role == AppRoleName(appId)
    ensures VouchedEntry(role, path, EntryFor(payload, info), ok)
  {
    var a := (Sha256(payload), appId);
    assert a in ok && a.0 == EntryFor(payload, info).digest && role == AppRoleName(a.1);
  }

  /**
   After each write of an operation, by any process with any keys and however old its scan: every file is
   what its name says, every listed payload is stored, and nothing unapproved is listed.
   */
  lemma PerformVouched(b: Backend, s: State, op: Operation, ok: Approved)
    requires Sane(s.disk, ok) && Releases(op, ok)
    ensures AllSane(Perform(b, s, op).trail, ok)
  {
    hide Sane, PutTarget, AddApp, WriteRoot, Publish, Targets, VouchedEntry, Path, PointerPath, FirstUnkeyed;
    match op {
      case OpInitialize =>
        var signed := Sign(b, s, ROOT, RootFor(b));
        if signed.Ok? { WriteRootSane(b, s, signed.value, ok); }
      case OpAddApp(appId, critical) => AddAppSane(b, s, appId, critical, ok);
      case OpAddRelease(key, payload, info) =>
        AppRoleIsNotTop(key.appId);
        ReleaseVouched(AppRoleName(key.appId), Path(key), payload, info, key.appId, ok);
        PutTargetSane(b, s, AppRoleName(key.appId), Path(key), payload, info, ok);
      case OpSetCurrent(key) =>
        AppRoleIsNotTop(key.appId);
        PointerVouched(AppRoleName(key.appId), key, ok);
        PutTargetSane(b, s, AppRoleName(key.appId), PointerPath(ChannelOf(key)), PointerJson(Path(key), key.version),
                      PointerInfo(key.version), ok);
      case OpPublish => PublishSane(b, s, ok);
    }
  }

  /** The same for `do_publish`, of a job whose digest is approved for its application. */
  lemma PublishVouched(b: Backend, s: State, q: Quarantine, slot: ChannelFields, job: PublishJob, ok: Approved)
    requires Sane(s.disk, ok)
    requires job.sha256.Some? ==> (job.sha256.value, slot.appId) in ok
    ensures AllSane(PublishRun(b, s, q, slot, job).trail, ok)
  {
    hide Sane, AddRelease, SetCurrent;
    if Refusal(s, q, slot, job).None? {
      GuardsHold(s, q, slot, job);
      var key: TargetKey, artifact := KeyFor(slot, job), q[job.sha256.value];
      var added := AddRelease(b, s, key, artifact, PointerInfo(key.version));
      PerformVouched(b, s, OpAddRelease(key, artifact, PointerInfo(key.version)), ok);
      assert Sane(Final(added).disk, ok);
      if added.error.None? {
        PerformVouched(b, Final(added), OpSetCurrent(key), ok);
        JoinSane(added.trail, SetCurrent(b, Final(added), key).trail, ok);
      }
    }
  }

  lemma JoinSane(a: seq<State>, c: seq<State>, ok: Approved)
    requires AllSane(a, ok) && AllSane(c, ok) && c != []
    ensures AllSane(a + c[1..], ok)
  {
    hide Sane;
  }
}

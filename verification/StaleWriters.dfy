/**
 A second repository object over the same disk. It reads the disk as it is, but plans by the `_versions`
 of its own scan; when that scan is out of date it may write over what another process has published.
 */
module StaleWriters {
  import opened Text
  import opened Naming
  import opened Metadata
  import opened Publisher
  import opened PublisherSafety
  import opened PublisherRuns
  import opened Keyrings
  import opened Publication
  import opened Releases

  // ------------------------------------------------------------- single writes

  predicate FreeOrSame(d: Disk, n: FileName, doc: Doc) {
    n !in d.files || d.files[n] == doc
  }

  /**
   One versioned write, from any memory: harmless exactly when the name is free or already holds that very document.
   */
  lemma WriteHarmlessIff(b: Backend, d: Disk, m: Memory, role: Role, body: Body)
    requires role !in {ROOT, TIMESTAMP} && Sign(b, State(d, m), role, body).Ok?
    ensures Grows(d, Close(b, State(d, m), role, body).value.disk)
       <==> FreeOrSame(d, Versioned(role, Version(m, role) + 1), Sign(b, State(d, m), role, body).value)
  {
  }

  /** The timestamp has one name: what is there must not be ahead of what is written, if it is written. */
  predicate TimestampSafe(d: Disk, m: Memory, snapshot: nat) {
    TimestampJson in d.files && d.files[TimestampJson].body.TimestampBody?
    && (Version(m, TIMESTAMP) == 0 || d.files[TimestampJson].body.snapshot < snapshot) ==>
      && d.files[TimestampJson].version <= Version(m, TIMESTAMP) + 1
      && d.files[TimestampJson].body.snapshot <= snapshot
  }

  // ------------------------------------------------------------------ lockstep

  type Files = map<FileName, Doc>

  /** What the stale process works over: a later disk that keeps all that was scanned. */
  ghost predicate Later(ring: Backend, d0: Disk, d: Disk) {
    Grows(d0, d) && DiskOk(d) && Signed(ring, d)
  }

  /** The same writes made over the scanned disk and over the later one. */
  ghost predicate Lockstep(d0: Disk, d: Disk, w: Files, x0: State, x: State) {
    && x0.memory == x.memory
    && x0.disk.files == d0.files + w && x.disk.files == d.files + w
    && (forall n | n in w :: n.Versioned? && n.role !in {ROOT, TIMESTAMP} && n.version <= Version(x.memory, n.role))
    && (forall n | n in d.payloads :: n in x.disk.payloads && x.disk.payloads[n] == d.payloads[n])
    && (forall role | role != TIMESTAMP && Version(x0.memory, role) > 0 ::
          Versioned(role, Version(x0.memory, role)) in x0.disk.files)
  }

  /** No write differs from what the later disk has under the same name. */
  ghost predicate Fits(d: Disk, w: Files) {
    forall n | n in w :: FreeOrSame(d, n, w[n])
  }

  ghost predicate Extends(w: Files, more: Files) {
    forall n | n in w :: n in more && more[n] == w[n]
  }

  lemma FitsLess(d: Disk, w: Files, more: Files)
    requires Extends(w, more) && Fits(d, more)
    ensures Fits(d, w)
  {
  }

  lemma StartsInStep(ring: Backend, d0: Disk, m: Memory, d: Disk)
    requires Ready(ring, State(d0, m)) && Later(ring, d0, d)
    ensures Lockstep(d0, d, map[], State(d0, m), State(d, m))
  {
    hide DiskOk, RolesKnown, Signed, Capable;
    assert d0.files + map[] == d0.files && d.files + map[] == d.files;
  }

  lemma RootsAgree(ring: Backend, d0: Disk, d: Disk, v: nat)
    requires Shaped(d0) && Signed(ring, d0) && Later(ring, d0, d) && Versioned(ROOT, v) in d0.files
    ensures Versioned(ROOT, v) in d.files && d.files[Versioned(ROOT, v)] == d0.files[Versioned(ROOT, v)]
  {
    hide RootFor, PayloadsStored, Closed, SnapshotsRise;
    assert RoleOf(Versioned(ROOT, v)) == ROOT;
    assert Shaped(d);
  }

  lemma OpensAgree(ring: Backend, d0: Disk, d: Disk, w: Files, x0: State, x: State, role: Role)
    requires Lockstep(d0, d, w, x0, x) && Shaped(d0) && Signed(ring, d0) && Later(ring, d0, d) && role != TIMESTAMP
    ensures Open(x0, role) == Open(x, role)
  {
    var n := Versioned(role, Version(x0.memory, role));
    if Version(x0.memory, role) > 0 && n !in w {
      assert n in d0.files;
      if role == ROOT { RootsAgree(ring, d0, d, Version(x0.memory, ROOT)); }
      hide DiskOk, Signed;
      assert Grows(d0, d);
    }
  }

  /** Over the later disk, what has been written does no harm exactly when it fits. */
  lemma InStepGrowsIff(d0: Disk, d: Disk, w: Files, x0: State, x: State)
    requires Lockstep(d0, d, w, x0, x)
    ensures Grows(d, x.disk) <==> Fits(d, w)
  {
    if Grows(d, x.disk) {
      forall n | n in w ensures FreeOrSame(d, n, w[n]) {
        assert n == Versioned(n.role, n.version);
      }
    }
  }

  lemma PutLast(files: Files, w: Files, n: FileName, doc: Doc)
    ensures (files + w)[n := doc] == files + w[n := doc]
  {
  }

  lemma WriteInStep(d0: Disk, d: Disk, w: Files, x0: State, x: State, role: Role, doc: Doc)
    requires Lockstep(d0, d, w, x0, x) && role !in {ROOT, TIMESTAMP} && doc.version == Version(x.memory, role) + 1
    ensures var more := w[Versioned(role, doc.version) := doc];
            Lockstep(d0, d, more, WriteRole(x0, role, doc), WriteRole(x, role, doc)) && Extends(w, more)
  {
    var n := Versioned(role, doc.version);
    var more := w[n := doc];
    var y0, y := WriteRole(x0, role, doc), WriteRole(x, role, doc);
    PutLast(d0.files, w, n, doc);
    PutLast(d.files, w, n, doc);
    assert n !in w;
    assert forall r | r != role :: Version(y0.memory, r) == Version(x0.memory, r);
    assert Version(y0.memory, role) == doc.version;
    forall r | r != TIMESTAMP && Version(y0.memory, r) > 0
      ensures Versioned(r, Version(y0.memory, r)) in y0.disk.files {
      if r != role { assert Versioned(r, Version(x0.memory, r)) in x0.disk.files; }
    }
  }

  lemma CloseInStep(b: Backend, d0: Disk, d: Disk, w: Files, x0: State, x: State, role: Role, body: Body)
    requires Lockstep(d0, d, w, x0, x) && role !in {ROOT, TIMESTAMP} && Sign(b, x0, role, body).Ok?
    ensures Close(b, x0, role, body).Ok? && Close(b, x, role, body).Ok?
    ensures var more := w[Versioned(role, Version(x.memory, role) + 1) := Sign(b, x0, role, body).value];
            && Lockstep(d0, d, more, Close(b, x0, role, body).value, Close(b, x, role, body).value)
            && Extends(w, more)
  {
    SameMemory(d0, d, w, x0, x);
    hide Lockstep, Extends, WriteRole, KeyIds;
    WriteInStep(d0, d, w, x0, x, role, Sign(b, x0, role, body).value);
  }

  lemma StoreInStep(d0: Disk, d: Disk, w: Files, x0: State, x: State, path: string, bytes: Bytes)
    requires Lockstep(d0, d, w, x0, x) && PayloadsStored(d)
    ensures Lockstep(d0, d, w, StorePayload(x0, path, bytes), StorePayload(x, path, bytes))
  {
  }

  lemma MemoryInStep(d0: Disk, d: Disk, w: Files, x0: State, x: State, y0: State, y: State)
    requires Lockstep(d0, d, w, x0, x) && y0.disk == x0.disk && y.disk == x.disk && y0.memory == y.memory
    requires y0.memory.versions == x0.memory.versions
    ensures Lockstep(d0, d, w, y0, y)
  {
    assert forall role :: Version(y0.memory, role) == Version(x0.memory, role);
  }

  // ------------------------------------------------------------------- publish

  ghost predicate AllGrow(d: Disk, trail: seq<State>) {
    forall i | 0 <= i < |trail| :: Grows(d, trail[i].disk)
  }

  /** The versioned files of the planned end. */
  ghost predicate Plans(d0: Disk, w: Files, e: Disk) {
    forall n: FileName | n.Versioned? ::
      (n in e.files <==> n in d0.files + w) && (n in e.files ==> e.files[n] == (d0.files + w)[n])
  }

  ghost predicate Ordinary(w: Files) {
    forall n | n in w :: n.Versioned? && n.role != ROOT
  }

  lemma InStepOrdinary(d0: Disk, d: Disk, w: Files, x0: State, x: State)
    requires Lockstep(d0, d, w, x0, x)
    ensures Ordinary(w)
  {
  }

  /** The timestamp is the later disk's or names the planned snapshot. */
  ghost predicate TimestampFrom(d: Disk, e: Disk, snapshot: nat) {
    TimestampJson in d.files ==>
      && TimestampJson in e.files
      && (e.files[TimestampJson] == d.files[TimestampJson] || e.files[TimestampJson].body == TimestampBody(snapshot))
  }

  /**
   Two runs in step end with the same writes; over the later disk every state is harmless exactly when
   those fit and the timestamp is not behind.
   */
  ghost predicate Twins(d0: Disk, d: Disk, m: Memory, w: Files, r0: Run, r: Run)
    requires r0.trail != [] && r.trail != []
  {
    && Ordinary(w) && Plans(d0, w, Final(r0).disk) && Plans(d, w, Final(r).disk)
    && TimestampFrom(d, Final(r).disk, Version(Final(r0).memory, SNAPSHOT))
    && (AllGrow(d, r.trail) <==> Fits(d, w) && TimestampSafe(d, m, Version(Final(r0).memory, SNAPSHOT)))
  }

  lemma SnapshotInStep(ring: Backend, d0: Disk, d: Disk, w: Files, x0: State, x: State) returns (more: Files)
    requires Ready(ring, x0) && Shaped(d0) && Signed(ring, d0) && Later(ring, d0, d) && Lockstep(d0, d, w, x0, x)
    ensures DoSnapshot(ring, x0).Ok? && DoSnapshot(ring, x).Ok?
    ensures Lockstep(d0, d, more, DoSnapshot(ring, x0).value, DoSnapshot(ring, x).value) && Extends(w, more)
  {
    hide Ready, Later, Signed, Shaped, Lockstep;
    OpensAgree(ring, d0, d, w, x0, x, SNAPSHOT);
    OpensAgree(ring, d0, d, w, x0, x, ROOT);
    SameMemory(d0, d, w, x0, x);
    SnapshotStep(ring, x0);
    var body := SnapshotBody(SnapshotMeta(x0) + TargetsInfos(x0.memory));
    assert RootKeys(x, SNAPSHOT) == RootKeys(x0, SNAPSHOT) && SnapshotMeta(x) == SnapshotMeta(x0);
    hide Open, RootKeys, SnapshotMeta, TargetsInfos, Sign;
    assert SnapshotDue(x) == SnapshotDue(x0) && SnapshotFell(x) == SnapshotFell(x0) by { DueAlike(x0, x); }
    hide SnapshotDue, SnapshotFell;
    if SnapshotDue(x0) {
      CloseInStep(ring, d0, d, w, x0, x, SNAPSHOT, body);
      more := w[Versioned(SNAPSHOT, Version(x.memory, SNAPSHOT) + 1) := Sign(ring, x0, SNAPSHOT, body).value];
    } else {
      more := w;
    }
  }

  lemma SameMemory(d0: Disk, d: Disk, w: Files, x0: State, x: State)
    requires Lockstep(d0, d, w, x0, x)
    ensures x0.memory == x.memory
  {
  }

  lemma DueAlike(x0: State, x: State)
    requires TargetsInfos(x0.memory) == TargetsInfos(x.memory) && Open(x, SNAPSHOT) == Open(x0, SNAPSHOT)
    requires RootKeys(x, SNAPSHOT) == RootKeys(x0, SNAPSHOT) && SnapshotMeta(x) == SnapshotMeta(x0)
    ensures SnapshotDue(x) == SnapshotDue(x0) && SnapshotFell(x) == SnapshotFell(x0)
  {
    hide Open, RootKeys, SnapshotMeta, TargetsInfos;
  }

  /** When the stale process writes a timestamp: over a fresh memory, or when the one on disk is behind. */
  ghost predicate WritesTimestamp(d: Disk, x: State) {
    && (Version(x.memory, TIMESTAMP) > 0 ==> TimestampJson in d.files)
    && (TimestampJson in d.files ==>
          && d.files[TimestampJson].body.TimestampBody? && TimestampJson in x.disk.files
          && x.disk.files[TimestampJson] == d.files[TimestampJson])
    && SnapshotInfo(x.memory) == Version(x.memory, SNAPSHOT)
    && TimestampSnapshot(x) == (if Version(x.memory, TIMESTAMP) == 0 then 1 else d.files[TimestampJson].body.snapshot)
    && (TimestampDue(x) <==> Version(x.memory, TIMESTAMP) == 0 || TimestampSnapshot(x) < Version(x.memory, SNAPSHOT))
  }

  lemma TimestampDueIff(ring: Backend, d0: Disk, d: Disk, w: Files, x0: State, x: State)
    requires Ready(ring, x0) && Shaped(d0) && Signed(ring, d0) && Later(ring, d0, d) && Lockstep(d0, d, w, x0, x)
    requires Version(x0.memory, SNAPSHOT) > 0
    ensures WritesTimestamp(d, x)
  {
    hide Ready, Later, Lockstep, Signed, Shaped, Open;
    ReadyRootKeys(ring, x0);
    OpensAgree(ring, d0, d, w, x0, x, ROOT);
    assert RootKeys(x, TIMESTAMP) == RootKeys(x0, TIMESTAMP);
    TimestampOnDisk(ring, d0, d, w, x0, x);
    hide RootKeys, SnapshotInfo;
    DueWhen(ring, d, x);
  }

  lemma ReadyRootKeys(ring: Backend, x: State)
    requires Ready(ring, x)
    ensures forall doc: Doc | doc.signers == KeyIds(ring, TIMESTAMP) :: SignedBy(doc, RootKeys(x, TIMESTAMP))
  {
    assert TIMESTAMP in TOP_LEVEL_ROLES;
    hide Inv, Signed, Capable, SignedBy, RootKeys;
    RootNamesKeys(ring, x, TIMESTAMP);
  }

  lemma DueWhen(ring: Backend, d: Disk, x: State)
    requires Version(x.memory, TIMESTAMP) > 0 ==> TimestampJson in d.files
    requires TimestampJson in d.files ==>
               && d.files[TimestampJson].body.TimestampBody?
               && d.files[TimestampJson].signers == KeyIds(ring, TIMESTAMP)
               && TimestampJson in x.disk.files && x.disk.files[TimestampJson] == d.files[TimestampJson]
    requires SnapshotInfo(x.memory) == Version(x.memory, SNAPSHOT)
    requires forall doc: Doc | doc.signers == KeyIds(ring, TIMESTAMP) :: SignedBy(doc, RootKeys(x, TIMESTAMP))
    ensures WritesTimestamp(d, x)
  {
    hide RootKeys, SignedBy, SnapshotInfo;
    if Version(x.memory, TIMESTAMP) == 0 {
      if SignedBy(Open(x, TIMESTAMP), RootKeys(x, TIMESTAMP)) { SignedMeansPresent(x, TIMESTAMP); }
    } else {
      assert Open(x, TIMESTAMP) == d.files[TimestampJson];
    }
  }

  lemma TimestampOnDisk(ring: Backend, d0: Disk, d: Disk, w: Files, x0: State, x: State)
    requires Ready(ring, x0) && Later(ring, d0, d) && Lockstep(d0, d, w, x0, x)
    requires Version(x0.memory, SNAPSHOT) > 0
    ensures Version(x.memory, TIMESTAMP) > 0 ==> TimestampJson in d.files
    ensures TimestampJson in d.files ==>
              && d.files[TimestampJson].body.TimestampBody? && d.files[TimestampJson].signers == KeyIds(ring, TIMESTAMP)
              && TimestampJson in x.disk.files && x.disk.files[TimestampJson] == d.files[TimestampJson]
    ensures x.memory == x0.memory && SnapshotInfo(x.memory) == Version(x.memory, SNAPSHOT)
  {
    hide PayloadsStored, Closed, SnapshotsRise, RolesKnown, BodyOk, Capable;
    assert Newest(x0.disk, x0.memory) && Shaped(d);
    assert TimestampJson !in w;
    if TimestampJson in d.files { assert RoleOf(TimestampJson) == TIMESTAMP; }
  }

  /** A timestamp over whatever snapshot files are there: harmless exactly when it is not behind. */
  lemma TimestampGrowsIff(d: Disk, e: Disk, doc: Doc)
    requires Grows(d, e) && doc.body.TimestampBody?
    requires TimestampJson in d.files ==> d.files[TimestampJson].body.TimestampBody?
    ensures Grows(d, e.(files := e.files[TimestampJson := doc]))
       <==> (TimestampJson in d.files ==> d.files[TimestampJson].version <= doc.version
                                          && d.files[TimestampJson].body.snapshot <= doc.body.snapshot)
  {
  }

  lemma TimestampEffect(b: Backend, d: Disk, x: State, doc: Doc)
    requires WritesTimestamp(d, x) && Grows(d, x.disk) && Version(x.memory, SNAPSHOT) > 0
    requires Sign(b, x, TIMESTAMP, TimestampBody(Version(x.memory, SNAPSHOT))) == Ok(doc)
    requires doc.version == Version(x.memory, TIMESTAMP) + 1 && doc.body == TimestampBody(Version(x.memory, SNAPSHOT))
    ensures (DoTimestamp(b, x).Ok? ==> Grows(d, DoTimestamp(b, x).value.disk))
       <==> TimestampSafe(d, x.memory, Version(x.memory, SNAPSHOT))
  {
    hide Grows, TimestampDue, TimestampSnapshot, Sign, SnapshotInfo;
    TimestampGrowsIff(d, x.disk, doc);
    assert WriteRole(x, TIMESTAMP, doc).disk == x.disk.(files := x.disk.files[TimestampJson := doc]);
    hide WriteRole;
  }

  lemma TimestampTwin(ring: Backend, d0: Disk, d: Disk, w: Files, x0: State, x: State)
    requires Ready(ring, x0) && Shaped(d0) && Signed(ring, d0) && Later(ring, d0, d) && Lockstep(d0, d, w, x0, x)
    requires Version(x0.memory, SNAPSHOT) > 0 && Grows(d, x.disk)
    ensures (DoTimestamp(ring, x).Ok? ==> Grows(d, DoTimestamp(ring, x).value.disk))
       <==> TimestampSafe(d, x.memory, Version(x.memory, SNAPSHOT))
  {
    TimestampDueIff(ring, d0, d, w, x0, x);
    SameMemory(d0, d, w, x0, x);
    OnlineRoleSigns(ring, x0, TIMESTAMP, TimestampBody(Version(x.memory, SNAPSHOT)));
    hide Ready, Later, Lockstep, Signed, Shaped, Grows, WritesTimestamp, TimestampSafe, DoTimestamp, KeyIds;
    TimestampEffect(ring, d, x, Sign(ring, x, TIMESTAMP, TimestampBody(Version(x.memory, SNAPSHOT))).value);
  }

  lemma PlannedFiles(ring: Backend, d0: Disk, d: Disk, w: Files, x0: State, x: State)
    requires Lockstep(d0, d, w, x0, x) && DoTimestamp(ring, x0).Ok?
    ensures Plans(d0, w, DoTimestamp(ring, x0).value.disk)
    ensures Version(DoTimestamp(ring, x0).value.memory, SNAPSHOT) == Version(x0.memory, SNAPSHOT)
  {
    hide TimestampDue, TimestampSnapshot, SnapshotInfo;
  }

  lemma EndedFiles(ring: Backend, d0: Disk, d: Disk, w: Files, x0: State, x: State)
    requires Lockstep(d0, d, w, x0, x) && SnapshotInfo(x.memory) == Version(x.memory, SNAPSHOT)
    ensures var e := if DoTimestamp(ring, x).Ok? then DoTimestamp(ring, x).value.disk else x.disk;
            Plans(d, w, e) && TimestampFrom(d, e, Version(x0.memory, SNAPSHOT))
  {
    hide TimestampDue, TimestampSnapshot, SnapshotInfo, KeyIds;
    assert TimestampJson !in w;
    InStepPlans(d0, d, w, x0, x);
    if DoTimestamp(ring, x).Ok? && TimestampDue(x) {
      TimestampPlans(d, w, x, Sign(ring, x, TIMESTAMP, TimestampBody(SnapshotInfo(x.memory))).value);
    }
  }

  lemma InStepPlans(d0: Disk, d: Disk, w: Files, x0: State, x: State)
    requires Lockstep(d0, d, w, x0, x)
    ensures Plans(d, w, x.disk) && TimestampFrom(d, x.disk, Version(x0.memory, SNAPSHOT))
  {
    assert TimestampJson !in w;
  }

  /** The timestamp is no versioned file. */
  lemma TimestampPlans(d: Disk, w: Files, x: State, doc: Doc)
    requires Plans(d, w, x.disk)
    ensures Plans(d, w, WriteRole(x, TIMESTAMP, doc).disk)
    ensures WriteRole(x, TIMESTAMP, doc).disk.files == x.disk.files[TimestampJson := doc]
  {
  }

  lemma PublishTwin(ring: Backend, d0: Disk, d: Disk, w: Files, x0: State, x: State) returns (more: Files)
    requires Ready(ring, x0) && Shaped(d0) && Signed(ring, d0) && Later(ring, d0, d) && Lockstep(d0, d, w, x0, x)
    ensures Extends(w, more) && Twins(d0, d, x.memory, more, Publish(ring, x0), Publish(ring, x))
  {
    hide Ready, Later, Lockstep, Signed, Shaped, Fits, TimestampSafe, Grows, Extends, Plans, SameButFor,
         SnapshotCurrent,
         Advertised, TimestampFrom, AllGrow, DoSnapshot, DoTimestamp, SnapshotInfo, Ordinary;
    more := SnapshotInStep(ring, d0, d, w, x0, x);
    var y0, y := DoSnapshot(ring, x0).value, DoSnapshot(ring, x).value;
    SnapshotStep(ring, x0);
    assert Version(y0.memory, SNAPSHOT) > 0 by { SnapshotIsThere(y0); }
    TimestampStep(ring, y0);
    InStepGrowsIff(d0, d, w, x0, x);
    InStepGrowsIff(d0, d, more, y0, y);
    SameMemory(d0, d, more, y0, y);
    InStepOrdinary(d0, d, more, y0, y);
    PlannedFiles(ring, d0, d, more, y0, y);
    if Fits(d, more) {
      FitsLess(d, w, more);
      TimestampTwin(ring, d0, d, more, y0, y);
    }
    TimestampOnDisk(ring, d0, d, more, y0, y);
    EndedFiles(ring, d0, d, more, y0, y);
    PublishEnd(ring, x);
    TimestampVersionKept(ring, x);
    SafeAlike(d, x.memory, y.memory, Version(y.memory, SNAPSHOT));
    TrailGrows(ring, d, x);
  }

  lemma PublishEnd(b: Backend, x: State)
    requires DoSnapshot(b, x).Ok?
    ensures var y := DoSnapshot(b, x).value;
            Final(Publish(b, x)) == if DoTimestamp(b, y).Ok? then DoTimestamp(b, y).value else y
  {
    hide DoSnapshot, DoTimestamp;
  }

  lemma SnapshotIsThere(s: State)
    requires SnapshotCurrent(s)
    ensures Version(s.memory, SNAPSHOT) > 0
  {
  }

  lemma TimestampVersionKept(ring: Backend, x: State)
    ensures DoSnapshot(ring, x).Ok? ==>
              Version(DoSnapshot(ring, x).value.memory, TIMESTAMP) == Version(x.memory, TIMESTAMP)
  {
    hide SnapshotDue, SnapshotFell, SnapshotMeta, TargetsInfos;
  }

  lemma SafeAlike(d: Disk, m: Memory, n: Memory, snapshot: nat)
    requires Version(m, TIMESTAMP) == Version(n, TIMESTAMP)
    ensures TimestampSafe(d, m, snapshot) == TimestampSafe(d, n, snapshot)
  {
  }

  lemma TrailGrows(ring: Backend, d: Disk, x: State)
    requires DoSnapshot(ring, x).Ok?
    ensures var y := DoSnapshot(ring, x).value;
            AllGrow(d, Publish(ring, x).trail) <==>
              && Grows(d, x.disk) && Grows(d, y.disk)
              && (DoTimestamp(ring, y).Ok? ==> Grows(d, DoTimestamp(ring, y).value.disk))
  {
    hide Grows, DoSnapshot, DoTimestamp;
    var y := DoSnapshot(ring, x).value;
    var trail := Publish(ring, x).trail;
    assert trail[0] == x && trail[1] == y;
    if DoTimestamp(ring, y).Ok? { assert trail[2] == DoTimestamp(ring, y).value; }
  }

  // ---------------------------------------------------------------- operations

  /** One more harmless state in front, or one the rest would show to be harmful. */
  lemma TwinsAfter(d0: Disk, d: Disk, m: Memory, w: Files, x0: State, x: State, r0: Run, r: Run)
    requires r0.trail != [] && r.trail != [] && Twins(d0, d, m, w, r0, r) && (AllGrow(d, r.trail) ==> Grows(d, x.disk))
    ensures Twins(d0, d, m, w, After(x0, r0), After(x, r))
  {
    hide Grows, Plans, Fits, TimestampSafe, TimestampFrom, Ordinary;
    assert Final(After(x0, r0)) == Final(r0) && Final(After(x, r)) == Final(r);
    assert forall i | 0 <= i < |r.trail| :: After(x, r).trail[i + 1] == r.trail[i];
  }

  lemma TwinsAlike(d0: Disk, d: Disk, m: Memory, n: Memory, w: Files, r0: Run, r: Run)
    requires r0.trail != [] && r.trail != [] && Twins(d0, d, m, w, r0, r)
    requires Version(m, TIMESTAMP) == Version(n, TIMESTAMP)
    ensures Twins(d0, d, n, w, r0, r)
  {
    hide AllGrow, Plans, Fits, TimestampSafe, TimestampFrom, Ordinary;
    SafeAlike(d, m, n, Version(Final(r0).memory, SNAPSHOT));
  }

  /** The write in hand, then a publish: whatever came before is harmless if the end is. */
  lemma CloseTwin(ring: Backend, d0: Disk, d: Disk, w: Files, x0: State, x: State, role: Role, body: Body)
    returns (more: Files)
    requires Shaped(d0) && Signed(ring, d0) && Later(ring, d0, d) && Lockstep(d0, d, w, x0, x)
    requires role !in TOP_LEVEL_ROLES && Close(ring, x0, role, body).Ok?
    requires Ready(ring, Close(ring, x0, role, body).value)
    ensures Close(ring, x, role, body).Ok? && Extends(w, more)
    ensures Twins(d0, d, x.memory, more, Publish(ring, Close(ring, x0, role, body).value),
                  Publish(ring, Close(ring, x, role, body).value))
    ensures AllGrow(d, Publish(ring, Close(ring, x, role, body).value).trail) ==> Grows(d, x.disk)
  {
    hide Ready, Later, Lockstep, Signed, Shaped, Publish, Twins, Grows, Extends, Fits, Sign, TimestampSafe;
    SameMemory(d0, d, w, x0, x);
    CloseInStep(ring, d0, d, w, x0, x, role, body);
    var y0, y := Close(ring, x0, role, body).value, Close(ring, x, role, body).value;
    var once := w[Versioned(role, Version(x.memory, role) + 1) := Sign(ring, x0, role, body).value];
    more := PublishTwin(ring, d0, d, once, y0, y);
    ExtendsOn(w, once, more);
    CloseKeepsTimestamp(ring, x, role, body);
    TwinsAlike(d0, d, y.memory, x.memory, more, Publish(ring, y0), Publish(ring, y));
    if AllGrow(d, Publish(ring, y).trail) {
      assert Fits(d, more) by { TwinsFit(d0, d, x.memory, more, Publish(ring, y0), Publish(ring, y)); }
      FitsLess(d, w, more);
      InStepGrowsIff(d0, d, w, x0, x);
    }
  }

  lemma TwinsFit(d0: Disk, d: Disk, m: Memory, w: Files, r0: Run, r: Run)
    requires r0.trail != [] && r.trail != [] && Twins(d0, d, m, w, r0, r) && AllGrow(d, r.trail)
    ensures Fits(d, w)
  {
    hide Plans, TimestampFrom, Ordinary;
  }

  lemma CloseKeepsTimestamp(b: Backend, x: State, role: Role, body: Body)
    requires role != TIMESTAMP
    ensures Close(b, x, role, body).Ok? ==>
              Version(Close(b, x, role, body).value.memory, TIMESTAMP) == Version(x.memory, TIMESTAMP)
  {
  }

  lemma ExtendsOn(w: Files, once: Files, more: Files)
    requires Extends(w, once) && Extends(once, more)
    ensures Extends(w, more)
  {
  }

  lemma PutTargetTwin(ring: Backend, d0: Disk, m: Memory, d: Disk, appId: string, path: string, bytes: Bytes,
                      info: ReleaseInfo) returns (w: Files)
    requires Ready(ring, State(d0, m)) && Later(ring, d0, d) && IsAppId(appId) && AppRoleName(appId) in m.appRoles
    requires BodyOk(ring, AppRoleName(appId), Listing(State(d0, m), AppRoleName(appId), path, EntryFor(bytes, info)))
    ensures Twins(d0, d, m, w, PutTarget(ring, State(d0, m), AppRoleName(appId), path, bytes, info),
                  PutTarget(ring, State(d, m), AppRoleName(appId), path, bytes, info))
  {
    var role := AppRoleName(appId);
    AppRoleIsNotTop(appId);
    var x0, x := State(d0, m), State(d, m);
    var y0, y := StorePayload(x0, path, bytes), StorePayload(x, path, bytes);
    PutTargetCloses(ring, x0, appId, path, bytes, info);
    StartsInStep(ring, d0, m, d);
    ReadyDisk(ring, x0);
    LaterStored(ring, d0, d);
    hide Ready, Later, Signed, Shaped, BodyOk, Listing, EntryFor, Publish, Twins, Grows, AppRoleName;
    StoreInStep(d0, d, map[], x0, x, path, bytes);
    OpensAgree(ring, d0, d, map[], y0, y, role);
    var body := Listing(x0, role, path, EntryFor(bytes, info));
    SameListing(x0, y0, y, role, path, bytes, info);
    w := CloseTwin(ring, d0, d, map[], y0, y, role, body);
    hide Lockstep;
    PutTargetRuns(ring, x0, role, path, bytes, info);
    PutTargetRuns(ring, x, role, path, bytes, info);
    hide PutTarget;
    var r0, r := Publish(ring, Close(ring, y0, role, body).value), Publish(ring, Close(ring, y, role, body).value);
    NothingFits(d0, d, x0, x);
    TwinsAfter(d0, d, m, w, y0, y, r0, r);
    TwinsAfter(d0, d, m, w, x0, x, After(y0, r0), After(y, r));
  }

  lemma PutTargetRuns(b: Backend, s: State, role: Role, path: string, bytes: Bytes, info: ReleaseInfo)
    requires var s1 := StorePayload(s, path, bytes);
             Close(b, s1, role, Listing(s1, role, path, EntryFor(bytes, info))).Ok?
    ensures var s1 := StorePayload(s, path, bytes);
            var s2 := Close(b, s1, role, Listing(s1, role, path, EntryFor(bytes, info))).value;
            PutTarget(b, s, role, path, bytes, info) == After(s, After(s1, Publish(b, s2)))
  {
    hide Publish, Targets;
  }

  lemma ReadyDisk(ring: Backend, s: State)
    requires Ready(ring, s)
    ensures Shaped(s.disk) && Signed(ring, s.disk) && PayloadsStored(s.disk)
  {
  }

  lemma LaterStored(ring: Backend, d0: Disk, d: Disk)
    requires Later(ring, d0, d)
    ensures PayloadsStored(d)
  {
  }

  lemma SameListing(x0: State, y0: State, y: State, role: Role, path: string, bytes: Bytes, info: ReleaseInfo)
    requires y0 == StorePayload(x0, path, bytes) && Open(y0, role) == Open(y, role)
    ensures Listing(y0, role, path, EntryFor(bytes, info)) == Listing(x0, role, path, EntryFor(bytes, info))
    ensures Listing(y, role, path, EntryFor(bytes, info)) == Listing(x0, role, path, EntryFor(bytes, info))
  {
    assert Open(y0, role) == Open(x0, role);
  }

  lemma NothingFits(d0: Disk, d: Disk, x0: State, x: State)
    requires Lockstep(d0, d, map[], x0, x)
    ensures Grows(d, x.disk)
  {
    InStepGrowsIff(d0, d, map[], x0, x);
  }

  lemma AdmitRuns(b: Backend, s: State, role: Role)
    requires Close(b, AddAppRole(s, role), role, Targets(AddAppRole(s, role), role)).Ok?
    ensures var s1 := AddAppRole(s, role);
            Admit(b, s, role) == After(s, After(s1, Publish(b, Close(b, s1, role, Targets(s1, role)).value)))
  {
    hide Publish, Targets;
  }

  lemma AdmitCloses(ring: Backend, s: State, appId: string)
    requires Ready(ring, s) && IsAppId(appId) && CanSign(ring, s, AppRoleName(appId))
    requires Delegates(Targets(s, TARGETS).delegations, AppRoleName(appId))
    ensures var role, s1 := AppRoleName(appId), AddAppRole(s, AppRoleName(appId));
            && Ready(ring, s1) && Close(ring, s1, role, Targets(s1, role)).Ok?
            && Ready(ring, Close(ring, s1, role, Targets(s1, role)).value)
  {
    hide Ready, BodyOk, EntriesStored, CanSign, Delegates, Targets, Close;
    AdmittedStaysReady(ring, s, AppRoleName(appId));
    var s1 := AddAppRole(s, AppRoleName(appId));
    ReadyListing(ring, s1, appId);
    ListedStaysReady(ring, s1, appId, Targets(s1, AppRoleName(appId)));
  }

  lemma TwoBefore(d0: Disk, d: Disk, m: Memory, w: Files, x0: State, x: State, y0: State, y: State, r0: Run, r: Run)
    requires r0.trail != [] && r.trail != [] && Twins(d0, d, m, w, r0, r) && x.disk == y.disk
    requires AllGrow(d, r.trail) ==> Grows(d, y.disk)
    ensures Twins(d0, d, m, w, After(x0, After(y0, r0)), After(x, After(y, r)))
    ensures AllGrow(d, After(x, After(y, r)).trail) ==> Grows(d, x.disk)
  {
    hide Twins, Grows, AllGrow;
    SameDisks(d, x, y);
    AllGrowAfter(d, y, r);
    TwinsAfter(d0, d, m, w, y0, y, r0, r);
    TwinsAfter(d0, d, m, w, x0, x, After(y0, r0), After(y, r));
    AllGrowAfter(d, x, After(y, r));
  }

  lemma AddRoleInStep(d0: Disk, d: Disk, w: Files, x0: State, x: State, role: Role)
    requires Lockstep(d0, d, w, x0, x)
    ensures Lockstep(d0, d, w, AddAppRole(x0, role), AddAppRole(x, role)) && AddAppRole(x, role).disk == x.disk
    ensures Version(AddAppRole(x, role).memory, TIMESTAMP) == Version(x.memory, TIMESTAMP)
  {
    SameMemory(d0, d, w, x0, x);
    MemoryInStep(d0, d, w, x0, x, AddAppRole(x0, role), AddAppRole(x, role));
  }

  lemma AdmitTwin(ring: Backend, d0: Disk, d: Disk, w: Files, x0: State, x: State, appId: string) returns (more: Files)
    requires Shaped(d0) && Signed(ring, d0) && Later(ring, d0, d) && Lockstep(d0, d, w, x0, x) && Ready(ring, x0)
    requires IsAppId(appId) && CanSign(ring, x0, AppRoleName(appId))
    requires Delegates(Targets(x0, TARGETS).delegations, AppRoleName(appId))
    ensures Twins(d0, d, x.memory, more, Admit(ring, x0, AppRoleName(appId)), Admit(ring, x, AppRoleName(appId)))
    ensures AllGrow(d, Admit(ring, x, AppRoleName(appId)).trail) ==> Grows(d, x.disk)
  {
    var role := AppRoleName(appId);
    AppRoleIsNotTop(appId);
    hide Ready, Later, Lockstep, Signed, Shaped, Publish, Twins, Grows, Delegates, CanSign, Targets, Admit, AllGrow,
         Close, AddAppRole, AppRoleName, Extends;
    var y0, y := AddAppRole(x0, role), AddAppRole(x, role);
    AdmitCloses(ring, x0, appId);
    AddRoleInStep(d0, d, w, x0, x, role);
    TargetsAgree(ring, d0, d, w, y0, y, role);
    var body := Targets(y0, role);
    more := CloseTwin(ring, d0, d, w, y0, y, role, body);
    AdmitRuns(ring, x0, role);
    AdmitRuns(ring, x, role);
    var r0, r := Publish(ring, Close(ring, y0, role, body).value), Publish(ring, Close(ring, y, role, body).value);
    TwinsAlike(d0, d, y.memory, x.memory, more, r0, r);
    TwoBefore(d0, d, x.memory, more, x0, x, y0, y, r0, r);
  }

  lemma TargetsAgree(ring: Backend, d0: Disk, d: Disk, w: Files, x0: State, x: State, role: Role)
    requires Lockstep(d0, d, w, x0, x) && Shaped(d0) && Signed(ring, d0) && Later(ring, d0, d) && role != TIMESTAMP
    ensures Targets(x0, role) == Targets(x, role)
  {
    hide Lockstep, Shaped, Signed, Later;
    OpensAgree(ring, d0, d, w, x0, x, role);
  }

  lemma ReadyListing(ring: Backend, s: State, appId: string)
    requires Ready(ring, s)
    ensures EntriesStored(s.disk, Targets(s, AppRoleName(appId)))
    ensures BodyOk(ring, AppRoleName(appId), Targets(s, AppRoleName(appId)))
  {
    AppRoleIsNotTop(appId);
    OpenedEntriesStored(s, AppRoleName(appId));
    hide Inv, Capable;
    TargetsOk(ring, s, AppRoleName(appId));
  }

  lemma SameDisks(d: Disk, x: State, y: State)
    requires x.disk == y.disk
    ensures Grows(d, x.disk) == Grows(d, y.disk)
  {
  }

  lemma AllGrowAfter(d: Disk, x: State, r: Run)
    ensures AllGrow(d, After(x, r).trail) ==> Grows(d, x.disk) && AllGrow(d, r.trail)
  {
    hide Grows;
    if AllGrow(d, After(x, r).trail) {
      assert After(x, r).trail[0] == x;
      assert forall i | 0 <= i < |r.trail| :: After(x, r).trail[i + 1] == r.trail[i];
    }
  }

  lemma DelegateTwin(ring: Backend, d0: Disk, d: Disk, x0: State, x: State, appId: string) returns (w: Files)
    requires Shaped(d0) && Signed(ring, d0) && Later(ring, d0, d) && Lockstep(d0, d, map[], x0, x) && Ready(ring, x0)
    requires IsAppId(appId) && CanSign(ring, x0, AppRoleName(appId))
    ensures Twins(d0, d, x.memory, w, Delegate(ring, x0, appId), Delegate(ring, x, appId))
  {
    var role, body := AppRoleName(appId), Delegating(ring, x0, appId);
    AppRoleIsNotTop(appId);
    SameMemory(d0, d, map[], x0, x);
    hide Ready, Later, Lockstep, Signed, Shaped, Admit, Twins, Grows, Delegates, BodyOk, EntriesStored,
         DelegationsKept, PutDelegation, KeyIds, Open;
    DelegatingOk(ring, x0, appId);
    TargetsClosed(ring, x0, body, role);
    OpensAgree(ring, d0, d, map[], x0, x, TARGETS);
    assert Targets(x, TARGETS) == Targets(x0, TARGETS);
    assert Delegating(ring, x, appId) == body;
    CloseInStep(ring, d0, d, map[], x0, x, TARGETS, body);
    var y0, y := Close(ring, x0, TARGETS, body).value, Close(ring, x, TARGETS, body).value;
    var once := map[Versioned(TARGETS, Version(x.memory, TARGETS) + 1) := Sign(ring, x0, TARGETS, body).value];
    w := AdmitTwin(ring, d0, d, once, y0, y, appId);
    CloseKeepsTimestamp(ring, x, TARGETS, body);
    TwinsAlike(d0, d, y.memory, x.memory, w, Admit(ring, y0, role), Admit(ring, y, role));
    NothingFits(d0, d, x0, x);
    TwinsAfter(d0, d, x.memory, w, x0, x, Admit(ring, y0, role), Admit(ring, y, role));
  }

  lemma AddAppTwin(ring: Backend, d0: Disk, m: Memory, d: Disk, appId: string, critical: bool) returns (w: Files)
    requires Ready(ring, State(d0, m)) && Later(ring, d0, d) && IsAppId(appId) && KeyIds(ring, AppRoleName(appId)) != {}
    ensures Twins(d0, d, m, w, AddApp(ring, State(d0, m), appId, critical), AddApp(ring, State(d, m), appId, critical))
  {
    var x0, x, role := State(d0, m), State(d, m), AppRoleName(appId);
    var y0, y := SetPolicy(x0, role, AppRolePolicy(critical)), SetPolicy(x, role, AppRolePolicy(critical));
    hide Delegate, Twins, Grows, KeyIds, Later;
    StartsInStep(ring, d0, m, d);
    MemoryInStep(d0, d, map[], x0, x, y0, y);
    PolicyStaysReady(ring, x0, appId, critical);
    ReadyDisk(ring, x0);
    hide Ready, Lockstep, Signed, Shaped;
    w := DelegateTwin(ring, d0, d, y0, y, appId);
    NothingFits(d0, d, x0, x);
    TwinsAlike(d0, d, y.memory, m, w, Delegate(ring, y0, appId), Delegate(ring, y, appId));
    TwinsAfter(d0, d, m, w, x0, x, Delegate(ring, y0, appId), Delegate(ring, y, appId));
  }

  lemma PerformTwin(ring: Backend, d0: Disk, m: Memory, d: Disk, op: Operation) returns (w: Files)
    requires Ready(ring, State(d0, m)) && Later(ring, d0, d) && Accepted(ring, State(d0, m), op)
    ensures Twins(d0, d, m, w, Perform(ring, State(d0, m), op), Perform(ring, State(d, m), op))
  {
    hide Inv, Signed, Capable, Later, PutTarget, AddApp, Publish, Twins, BodyOk, Listing;
    match op {
      case OpInitialize => assert false;
      case OpAddApp(appId, critical) =>
        w := AddAppTwin(ring, d0, m, d, appId, critical);
      case OpAddRelease(key, payload, info) =>
        forall k: TargetKey | Path(k) == Path(key) ensures k.version == key.version { PathsMeet(k, key); }
        PutListingOk(ring, State(d0, m), key.appId, Path(key), payload, info);
        w := PutTargetTwin(ring, d0, m, d, key.appId, Path(key), payload, info);
      case OpSetCurrent(key) =>
        forall k: TargetKey ensures Path(k) != PointerPath(ChannelOf(key)) { ReleaseIsNeverPointer(k, ChannelOf(key)); }
        PutListingOk(ring, State(d0, m), key.appId, PointerPath(ChannelOf(key)), PointerJson(Path(key), key.version),
                     PointerInfo(key.version));
        StaleCanPoint(ring, d0, m, d, key);
        w := PutTargetTwin(ring, d0, m, d, key.appId, PointerPath(ChannelOf(key)), PointerJson(Path(key), key.version),
                           PointerInfo(key.version));
      case OpPublish =>
        hide Ready, Lockstep;
        StartsInStep(ring, d0, m, d);
        ReadyDisk(ring, State(d0, m));
        w := PublishTwin(ring, d0, d, map[], State(d0, m), State(d, m));
    }
  }

  lemma StaleCanPoint(ring: Backend, d0: Disk, m: Memory, d: Disk, key: TargetKey)
    requires Ready(ring, State(d0, m)) && Later(ring, d0, d) && CanPoint(State(d0, m), key)
    ensures CanPoint(State(d, m), key)
  {
    AppRoleIsNotTop(key.appId);
    StartsInStep(ring, d0, m, d);
    ReadyDisk(ring, State(d0, m));
    hide Ready, Later, Lockstep, Signed, Shaped, Open;
    OpensAgree(ring, d0, d, map[], State(d0, m), State(d, m), AppRoleName(key.appId));
  }

  /** Files of the same name in both are the same file. */
  ghost predicate NoClash(e: Disk, d: Disk) {
    forall n | n in e.files && n in d.files && n.Versioned? && n.role != ROOT :: e.files[n] == d.files[n]
  }

  lemma PlansFitIff(ring: Backend, d0: Disk, d: Disk, w: Files, e: Disk)
    requires Later(ring, d0, d) && Plans(d0, w, e) && Ordinary(w)
    ensures Fits(d, w) <==> NoClash(e, d)
  {
    hide DiskOk, Signed;
    assert Grows(d0, d);
    if Fits(d, w) {
      forall n | n in e.files && n in d.files && n.Versioned? && n.role != ROOT ensures e.files[n] == d.files[n] {
        if n !in w { assert n == Versioned(n.role, n.version) && n in d0.files; }
      }
    }
    if NoClash(e, d) {
      forall n | n in w ensures FreeOrSame(d, n, w[n]) {
        assert n in d0.files + w;
      }
    }
  }

  /**
   A process whose scan is out of date does no harm exactly when nothing it would have written over the
   disk it scanned clashes with what has been published since, and its timestamp is not behind.
   */
  lemma StaleRunHarmlessIff(b: Backend, ring: Backend, d0: Disk, m: Memory, d: Disk, op: Operation)
    requires Ready(ring, State(d0, m)) && Later(ring, d0, d) && Accepted(ring, State(d0, m), op) && Holds(b, ring, op)
    ensures var planned := Final(Perform(b, State(d0, m), op));
            AllGrow(d, Perform(b, State(d, m), op).trail) <==>
              NoClash(planned.disk, d) && TimestampSafe(d, m, Version(planned.memory, SNAPSHOT))
  {
    hide Ready, Later, Accepted, Holds, Perform, AllGrow, Plans, Fits, NoClash, TimestampSafe, TimestampFrom, Ordinary;
    PerformSame(b, ring, State(d0, m), op);
    PerformSame(b, ring, State(d, m), op);
    var w := PerformTwin(ring, d0, m, d, op);
    PlansFitIff(ring, d0, d, w, Final(Perform(ring, State(d0, m), op)).disk);
  }

  lemma PlansKept(ring: Backend, d0: Disk, d: Disk, w: Files, planned: Disk, e: Disk)
    requires Later(ring, d0, d) && Plans(d0, w, planned) && Plans(d, w, e)
    ensures forall n: FileName | n.Versioned? && n.role != ROOT && n in planned.files ::
              n in e.files && e.files[n] == planned.files[n]
  {
    hide DiskOk, Signed;
    assert Grows(d0, d);
    forall n: FileName | n.Versioned? && n.role != ROOT && n in planned.files
      ensures n in e.files && e.files[n] == planned.files[n]
    {
      if n !in w { assert n == Versioned(n.role, n.version) && n in d0.files; }
    }
  }

  /** Harmless or not, it leaves every file it planned, as planned, and a timestamp of the later disk's or its own. */
  lemma StaleRunEnds(b: Backend, ring: Backend, d0: Disk, m: Memory, d: Disk, op: Operation)
    requires Ready(ring, State(d0, m)) && Later(ring, d0, d) && Accepted(ring, State(d0, m), op) && Holds(b, ring, op)
    ensures var planned, e := Final(Perform(b, State(d0, m), op)), Final(Perform(b, State(d, m), op)).disk;
            && TimestampFrom(d, e, Version(planned.memory, SNAPSHOT))
            && forall n: FileName | n.Versioned? && n.role != ROOT && n in planned.disk.files ::
                 n in e.files && e.files[n] == planned.disk.files[n]
  {
    hide Ready, Later, Accepted, Holds, Perform, AllGrow, Plans, Fits, NoClash, TimestampSafe, TimestampFrom, Ordinary;
    PerformSame(b, ring, State(d0, m), op);
    PerformSame(b, ring, State(d, m), op);
    var w := PerformTwin(ring, d0, m, d, op);
    PlansKept(ring, d0, d, w, Final(Perform(ring, State(d0, m), op)).disk, Final(Perform(ring, State(d, m), op)).disk);
  }
}

/**
 `do_publish` of the signing worker (dist_sign/worker.py): one approved artifact becomes a release and
 then the channel's current one. Interrupting it anywhere and running the job again converges.
 */
module Signer {
  import opened Text
  import opened Naming
  import opened Metadata
  import opened Publisher
  import opened PublisherSafety
  import opened PublisherRuns
  import opened Keyrings
  import opened Publication
  import opened Verifier
  import opened UpdateCheck
  import opened Releases
  import opened Offers
  import Repository

  /** Files in quarantine, by the digest their name claims. */
  type Quarantine = map<Digest, Bytes>

  datatype SignError =
    | MissingField
    | NoArtifact
    | DigestChanged
    | BadName
    | NotDelegated
    | Failed(error: Publisher.Error)

  datatype SignRun = SignRun(trail: seq<State>, error: Option<SignError>)

  function KeyFor(slot: ChannelFields, job: PublishJob): KeyFields {
    KeyFields(slot.appId, slot.channel, slot.platform, slot.arch, job.version, job.filename)
  }

  /** Every check `do_publish` makes before it touches the repository, in its order. */
  function Refusal(s: State, q: Quarantine, slot: ChannelFields, job: PublishJob): Option<SignError> {
    if job.sha256.None? || job.version == [] || job.filename == [] then Some(MissingField)
    else if job.sha256.value !in q then Some(NoArtifact)
    else if Sha256(q[job.sha256.value]) != job.sha256.value then Some(DigestChanged)
    else if !IsAppId(slot.appId) then Some(BadName)
    else if AppRoleName(slot.appId) !in s.memory.appRoles then Some(NotDelegated)
    else if !IsTargetKey(KeyFor(slot, job)) then Some(BadName)
    else None
  }

  function Lift(error: Option<Publisher.Error>): Option<SignError> {
    match error
    case None => None
    case Some(e) => Some(Failed(e))
  }

  /** `add_release`, and `set_current` from where it ended. */
  function Release(b: Backend, s: State, key: TargetKey, artifact: Bytes): (r: SignRun)
    ensures r.trail != [] && r.trail[0] == s
  {
    var added := AddRelease(b, s, key, artifact, PointerInfo(key.version));
    if added.error.Some? then SignRun(added.trail, Lift(added.error))
    else
      var current := SetCurrent(b, Final(added), key);
      SignRun(added.trail + current.trail[1..], Lift(current.error))
  }

  function PublishRun(b: Backend, s: State, q: Quarantine, slot: ChannelFields, job: PublishJob): (r: SignRun)
    ensures r.trail != [] && r.trail[0] == s
  {
    match Refusal(s, q, slot, job)
    case Some(e) => SignRun([s], Some(e))
    case None => Release(b, s, KeyFor(slot, job), q[job.sha256.value])
  }

  function Last(r: SignRun): State
    requires r.trail != []
  {
    r.trail[|r.trail| - 1]
  }

  // ---------------------------------------------------------------- contents

  /** Two states alike but for version numbers, signatures and dates. */
  ghost predicate SameContents(s: State, t: State) {
    && s.disk.payloads == t.disk.payloads
    && forall role | role !in {ROOT, SNAPSHOT, TIMESTAMP} ::
         Targets(s, role) == Targets(t, role) && (Version(s.memory, role) > 0 <==> Version(t.memory, role) > 0)
  }

  lemma {:induction false} LookupBodies(m: map<Role, Doc>, n: map<Role, Doc>, terminate: bool, path: string,
                                        delegations: seq<Delegation>, parents: seq<set<string>>, visited: set<Role>)
    requires m.Keys == n.Keys && forall role | role in m :: m[role].body == n[role].body
    ensures Lookup(m, terminate, path, delegations, parents, visited)
         == Lookup(n, terminate, path, delegations, parents, visited)
    decreases |m.Keys - visited|, |delegations|
  {
    hide Patterns.MatchesChain;
    if delegations != [] && delegations[0].role !in visited {
      var d := delegations[0];
      var seen := visited + {d.role};
      if Patterns.MatchesChain(path, parents + [d.paths]) && d.role in m && path !in TargetsOf(m[d.role]) {
        Smaller(m.Keys - seen, m.Keys - visited, d.role);
        var children := DelegationsOf(m[d.role]);
        if children == [] {
          LookupBodies(m, n, terminate, path, delegations[1..], parents, seen);
        } else {
          LookupBodies(m, n, d.terminating, path, children, parents + [d.paths], seen);
          var child := Lookup(m, d.terminating, path, children, parents + [d.paths], seen);
          NoLarger(m.Keys - child.visited, m.Keys - seen);
          LookupBodies(m, n, terminate, path, delegations[1..], parents, child.visited);
        }
      }
    }
  }

  lemma TargetBodies(root: Doc, role: Role, v: Served, w: Served, path: string)
    requires v.top.body == w.top.body && v.listing.body == w.listing.body
    ensures Target(Trusted(root, role, v), path) == Target(Trusted(root, role, w), path)
  {
    hide Lookup;
    LookupBodies(map[role := v.listing], map[role := w.listing], false, path, DelegationsOf(v.top), [], {});
  }

  lemma FollowBodies(c: Client, v: Served, w: Served, d: Disk, e: Disk)
    requires v.top.body == w.top.body && v.listing.body == w.listing.body && d.payloads == e.payloads
    ensures FollowPointer(c, Trusted(c.root, ChannelRole(c.channel), v), d)
         == FollowPointer(c, Trusted(c.root, ChannelRole(c.channel), w), e)
  {
    hide Target, Prefix, PointerPath;
    forall path: string
      ensures Target(Trusted(c.root, ChannelRole(c.channel), v), path)
           == Target(Trusted(c.root, ChannelRole(c.channel), w), path) {
      TargetBodies(c.root, ChannelRole(c.channel), v, w, path);
    }
  }

  /** An advertised state answers a delegated application's client out of its own listing. */
  lemma AdvertisedCheck(b: Backend, s: State, c: Client)
    requires Ready(b, s) && Advertised(s) && Trusts(c, b) && IsAppId(c.channel.appId)
    requires Version(s.memory, ChannelRole(c.channel)) > 0
    ensures var role := ChannelRole(c.channel);
            && Open(s, TARGETS).body == Targets(s, TARGETS) && Open(s, role).body == Targets(s, role)
            && CheckAt(c, s.disk) == FollowPointer(c, Trusted(c.root, role, ServedBy(s, role)), s.disk)
  {
    hide DiskOk, Newest, Signed, Capable, Advertised, Check, FollowPointer, Open;
    var role := ChannelRole(c.channel);
    assert IsAppRole(role);
    KnownRoleIsDelegated(s, role);
    AdvertisedServes(s, role);
    AppRoleIsNotTop(c.channel.appId);
    TargetsOk(b, s, TARGETS);
    TargetsOk(b, s, role);
    CheckServed(b, c, s.disk, ServedBy(s, role));
  }

  /** An application without a file of its own is not in the snapshot: nothing to offer. */
  lemma UndelegatedCheck(b: Backend, s: State, c: Client)
    requires Ready(b, s) && Advertised(s) && Trusts(c, b) && IsAppId(c.channel.appId)
    requires Version(s.memory, ChannelRole(c.channel)) == 0
    ensures CheckAt(c, s.disk) == Ok(None)
  {
    var role := ChannelRole(c.channel);
    AppRoleIsNotTop(c.channel.appId);
    MetaNamesFiles(s);
    assert role !in SnapshotMeta(s) by { hide DiskOk, RolesKnown, Signed, Capable; }
    var v := Served(Open(s, TIMESTAMP), Open(s, SNAPSHOT), Open(s, TARGETS), Open(s, TARGETS));
    TopServes(b, s, v);
    hide Inv, Signed, Capable, Refresh, FollowPointer;
    RefreshServed(b, c.root, s.disk, TARGETS, v);
  }

  lemma TopServes(b: Backend, s: State, v: Served)
    requires Ready(b, s) && Advertised(s)
    requires v == Served(Open(s, TIMESTAMP), Open(s, SNAPSHOT), Open(s, TARGETS), Open(s, TARGETS))
    ensures Serves(s.disk, TARGETS, v) && v.snapshot.version == v.timestamp.body.snapshot
  {
    hide PayloadsStored, Closed, SnapshotsRise, RolesKnown, Signed, Capable;
  }

  /** What a client is told depends on contents alone, never on version numbers. */
  lemma ContentsDecide(b: Backend, s: State, t: State, c: Client)
    requires Ready(b, s) && Advertised(s) && Ready(b, t) && Advertised(t) && SameContents(s, t)
    requires Trusts(c, b) && IsAppId(c.channel.appId)
    ensures CheckAt(c, s.disk) == CheckAt(c, t.disk)
  {
    hide Ready, Advertised, Check, FollowPointer, Open, Targets;
    var role := ChannelRole(c.channel);
    AppRoleIsNotTop(c.channel.appId);
    assert Targets(s, TARGETS) == Targets(t, TARGETS) && Targets(s, role) == Targets(t, role);
    if Version(s.memory, role) > 0 {
      AdvertisedCheck(b, s, c);
      AdvertisedCheck(b, t, c);
      FollowBodies(c, ServedBy(s, role), ServedBy(t, role), s.disk, t.disk);
    } else {
      UndelegatedCheck(b, s, c);
      UndelegatedCheck(b, t, c);
    }
  }

  // ------------------------------------------------------------ a whole publish

  function ArtifactEntry(key: TargetKey, artifact: Bytes): Entry {
    EntryFor(artifact, PointerInfo(key.version))
  }

  function WithPayload(payloads: map<PayloadName, Bytes>, path: string, bytes: Bytes): map<PayloadName, Bytes> {
    payloads[PayloadName(path, Sha256(bytes)) := bytes]
  }

  /** What an uncut publish leaves: both entries listed, both payloads stored, nothing else touched. */
  ghost predicate Released(s: State, t: State, key: TargetKey, artifact: Bytes) {
    var role := AppRoleName(key.appId);
    && Targets(t, role) == Listed(Targets(s, role), key, artifact)
    && t.disk.payloads == WithPayload(WithPayload(s.disk.payloads, Path(key), artifact), PointerPath(ChannelOf(key)),
                                      PointerJson(Path(key), key.version))
    && Version(t.memory, role) > 0
    && forall r | r !in {role, ROOT, SNAPSHOT, TIMESTAMP} ::
         Targets(t, r) == Targets(s, r) && (Version(t.memory, r) > 0 <==> Version(s.memory, r) > 0)
  }

  function ReleasedOnly(listed: Body, key: TargetKey, artifact: Bytes): Body
    requires listed.TargetsBody?
  {
    listed.(targets := listed.targets[Path(key) := ArtifactEntry(key, artifact)])
  }

  function Listed(listed: Body, key: TargetKey, artifact: Bytes): Body
    requires listed.TargetsBody?
  {
    var released := ReleasedOnly(listed, key, artifact);
    released.(targets := released.targets[PointerPath(ChannelOf(key)) := PointerEntry(key)])
  }

  lemma AddReleaseSame(b: Backend, ring: Backend, s: State, key: TargetKey, artifact: Bytes, info: ReleaseInfo)
    requires Holds(b, ring, OpSetCurrent(key))
    ensures AddRelease(b, s, key, artifact, info) == AddRelease(ring, s, key, artifact, info)
  {
    SameHands(b, ring, key, artifact, info);
    hide AddRelease, Holds;
    PerformSame(b, ring, s, OpAddRelease(key, artifact, info));
  }

  lemma SetCurrentSame(b: Backend, ring: Backend, s: State, key: TargetKey)
    requires Holds(b, ring, OpSetCurrent(key))
    ensures SetCurrent(b, s, key) == SetCurrent(ring, s, key)
  {
    hide SetCurrent, Holds;
    PerformSame(b, ring, s, OpSetCurrent(key));
  }

  /** A worker with the application's keys and the online roles' publishes as the whole keyring would. */
  lemma ReleaseSame(b: Backend, ring: Backend, s: State, key: TargetKey, artifact: Bytes)
    requires Holds(b, ring, OpSetCurrent(key))
    ensures Release(b, s, key, artifact) == Release(ring, s, key, artifact)
  {
    var info: ReleaseInfo := PointerInfo(key.version);
    hide AddRelease, SetCurrent, Holds, PointerInfo;
    AddReleaseSame(b, ring, s, key, artifact, info);
    SetCurrentSame(b, ring, Final(AddRelease(ring, s, key, artifact, info)), key);
  }

  lemma KeyringReleaseEnds(b: Backend, s: State, key: TargetKey, artifact: Bytes)
    requires Ready(b, s) && Accepted(b, s, OpAddRelease(key, artifact, PointerInfo(key.version)))
    ensures var r := Release(b, s, key, artifact);
            r.error.None? && Ready(b, Last(r)) && Advertised(Last(r)) && Released(s, Last(r), key, artifact)
  {
    hide Ready, Advertised, AddRelease, SetCurrent, Lists, Holds;
    var info: ReleaseInfo := PointerInfo(key.version);
    AppRoleIsNotTop(key.appId);
    HoldsItself(b, OpAddRelease(key, artifact, info));
    HoldsItself(b, OpSetCurrent(key));
    AddReleaseEnds(b, b, s, key, artifact, info);
    var s1 := Final(AddRelease(b, s, key, artifact, info));
    ListsMeans(s, s1, AppRoleName(key.appId), Path(key), artifact, info);
    SetCurrentEnds(b, b, s1, key);
    var s2 := Final(SetCurrent(b, s1, key));
    ListsMeans(s1, s2, AppRoleName(key.appId), PointerPath(ChannelOf(key)), PointerJson(Path(key), key.version), info);
    hide Open, Path, PointerPath;
    assert Last(Release(b, s, key, artifact)) == s2;
  }

  lemma ReleaseEnds(b: Backend, ring: Backend, s: State, key: TargetKey, artifact: Bytes)
    requires Ready(ring, s) && Accepted(b, s, OpAddRelease(key, artifact, PointerInfo(key.version)))
    requires Holds(b, ring, OpSetCurrent(key))
    ensures var r := Release(b, s, key, artifact);
            r.error.None? && Ready(ring, Last(r)) && Advertised(Last(r)) && Released(s, Last(r), key, artifact)
  {
    hide Ready, Advertised, Release, Released, Holds;
    ReleaseSame(b, ring, s, key, artifact);
    KeyringReleaseEnds(ring, s, key, artifact);
  }

  lemma ListsMeans(s: State, t: State, role: Role, path: string, bytes: Bytes, info: ReleaseInfo)
    requires Lists(s, t, role, path, bytes, info) && role !in TOP_LEVEL_ROLES
    ensures t.memory.appRoles == s.memory.appRoles && Version(t.memory, role) > 0
    ensures Targets(t, role) == Targets(s, role).(targets := Targets(s, role).targets[path := EntryFor(bytes, info)])
    ensures t.disk.payloads == WithPayload(s.disk.payloads, path, bytes)
    ensures forall r | r !in {role, SNAPSHOT, TIMESTAMP} ::
              Version(t.memory, r) == Version(s.memory, r) && Targets(t, r) == Targets(s, r)
  {
  }

  // ------------------------------------------------------------------ cut short

  /** How far a publish got before it was cut: neither entry listed, the release, or both. */
  ghost predicate Partial(s: State, x: State, key: TargetKey, artifact: Bytes) {
    var role, listed := AppRoleName(key.appId), Targets(s, AppRoleName(key.appId));
    var p1 := WithPayload(s.disk.payloads, Path(key), artifact);
    var p2 := WithPayload(p1, PointerPath(ChannelOf(key)), PointerJson(Path(key), key.version));
    && Targets(x, role) in [listed, ReleasedOnly(listed, key, artifact), Listed(listed, key, artifact)]
    && x.disk.payloads in [s.disk.payloads, p1, p2]
    && forall r | r !in {role, ROOT, SNAPSHOT, TIMESTAMP} ::
         Targets(x, r) == Targets(s, r) && (Version(x.memory, r) > 0 <==> Version(s.memory, r) > 0)
  }

  /** Publishing the rest from any cut leaves what an uncut publish leaves. */
  lemma PartialConverges(s: State, x: State, t: State, u: State, key: TargetKey, artifact: Bytes)
    requires Partial(s, x, key, artifact) && Released(x, t, key, artifact) && Released(s, u, key, artifact)
    ensures SameContents(t, u)
  {
    ReleaseIsNeverPointer(key, ChannelOf(key));
    hide Targets, Path, PointerPath;
    var role, listed := AppRoleName(key.appId), Targets(s, AppRoleName(key.appId));
    assert listed.TargetsBody? && Targets(x, role).TargetsBody?;
    assert Targets(t, role) == Targets(u, role);
    assert t.disk.payloads == u.disk.payloads;
  }

  /** A role's newest listing after some writes is the old one or the one those writes were allowed. */
  lemma BodiesAfter(b: Backend, allowed: map<Role, Body>, s: State, x: State, role: Role)
    requires Inv(s) && Inv(x) && Grows(s.disk, x.disk) && Adds(b, allowed, s.disk, x.disk)
    requires role !in {ROOT, SNAPSHOT, TIMESTAMP}
    ensures Targets(x, role) == Targets(s, role) || (role in allowed && Targets(x, role) == allowed[role])
    ensures role !in allowed ==>
              && Targets(x, role) == Targets(s, role)
              && Version(x.memory, role) == Version(s.memory, role)
  {
    hide PayloadsStored, Closed, SnapshotsRise, RolesKnown;
    var v := Version(x.memory, role);
    if Version(s.memory, role) > 0 {
      assert Versioned(role, Version(s.memory, role)) in x.disk.files;
    }
    if v > 0 {
      var n := Versioned(role, v);
      assert n in x.disk.files && x.disk.files[n].body.TargetsBody?;
      if n in s.disk.files {
        assert v == Version(s.memory, role);
      } else {
        assert Authored(b, allowed, n, x.disk.files[n]);
      }
    }
  }

  lemma PublishPayloads(b: Backend, s: State, i: nat)
    requires i < |Publish(b, s).trail|
    ensures Publish(b, s).trail[i].disk.payloads == s.disk.payloads
  {
    hide SnapshotDue, SnapshotFell, TimestampDue, TimestampSnapshot, Sign, SnapshotMeta, TargetsInfos;
  }

  lemma PutTargetPayloads(b: Backend, s: State, role: Role, path: string, bytes: Bytes, info: ReleaseInfo, i: nat)
    requires i < |PutTarget(b, s, role, path, bytes, info).trail|
    ensures PutTarget(b, s, role, path, bytes, info).trail[i].disk.payloads
         in [s.disk.payloads, WithPayload(s.disk.payloads, path, bytes)]
  {
    hide Publish, Targets, Open, EntryFor;
    var s1 := StorePayload(s, path, bytes);
    var listed := Targets(s1, role);
    var closed := Close(b, s1, role, listed.(targets := listed.targets[path := EntryFor(bytes, info)]));
    if closed.Ok? && i >= 2 {
      PublishPayloads(b, closed.value, i - 2);
    }
  }

  /** Where `add_release` or `set_current` can be cut: one more listing or not, one more payload or not. */
  ghost predicate HalfListed(s: State, x: State, role: Role, path: string, e: Entry, bytes: Bytes) {
    && Targets(x, role) in [Targets(s, role), Listing(s, role, path, e)]
    && x.disk.payloads in [s.disk.payloads, WithPayload(s.disk.payloads, path, bytes)]
    && forall r | r !in {role, ROOT, SNAPSHOT, TIMESTAMP} ::
         Targets(x, r) == Targets(s, r) && Version(x.memory, r) == Version(s.memory, r)
  }

  lemma CutIsHalfListed(b: Backend, s: State, role: Role, path: string, bytes: Bytes, info: ReleaseInfo, i: nat)
    requires Inv(s) && role in s.memory.appRoles && i < |PutTarget(b, s, role, path, bytes, info).trail|
    ensures HalfListed(s, PutTarget(b, s, role, path, bytes, info).trail[i], role, path, EntryFor(bytes, info), bytes)
  {
    hide DiskOk, Newest, RolesKnown, Adds, Grows, PutTarget, Targets, EntryFor;
    var trail := PutTarget(b, s, role, path, bytes, info).trail;
    var allowed := map[role := Listing(s, role, path, EntryFor(bytes, info))];
    PutTargetKeeps(b, s, role, path, bytes, info);
    PutTargetAdds(b, s, role, path, bytes, info);
    PutTargetPayloads(b, s, role, path, bytes, info, i);
    KnownRoleHasTargets(s, role);
    GrowsAlong(trail, 0, i);
    forall r | r !in {ROOT, SNAPSHOT, TIMESTAMP} ensures
      (Targets(trail[i], r) == Targets(s, r) || (r in allowed && Targets(trail[i], r) == allowed[r]))
      && (r !in allowed ==>
            Targets(trail[i], r) == Targets(s, r) && Version(trail[i].memory, r) == Version(s.memory, r))
    {
      BodiesAfter(b, allowed, s, trail[i], r);
    }
  }

  lemma CutAddRelease(s: State, x: State, key: TargetKey, artifact: Bytes)
    requires HalfListed(s, x, AppRoleName(key.appId), Path(key), ArtifactEntry(key, artifact), artifact)
    ensures Partial(s, x, key, artifact)
  {
    hide Path, PointerPath, Targets;
  }

  lemma CutSetCurrent(s: State, s1: State, x: State, key: TargetKey, artifact: Bytes)
    requires Lists(s, s1, AppRoleName(key.appId), Path(key), artifact, PointerInfo(key.version))
    requires HalfListed(s1, x, AppRoleName(key.appId), PointerPath(ChannelOf(key)), PointerEntry(key),
                        PointerJson(Path(key), key.version))
    ensures Partial(s, x, key, artifact)
  {
    AppRoleIsNotTop(key.appId);
    ListsMeans(s, s1, AppRoleName(key.appId), Path(key), artifact, PointerInfo(key.version));
    hide Path, PointerPath, Targets, Lists;
  }

  /** Every state of an uncut operation is a state the invariants describe. */
  ghost predicate Reached(b: Backend, s: State, x: State) {
    Inv(x) && Signed(b, x.disk) && Grows(s.disk, x.disk)
  }

  lemma OperationReaches(b: Backend, s: State, op: Operation, i: nat)
    requires Inv(s) && Signed(b, s.disk) && Sound(s, op) && i < |Perform(b, s, op).trail|
    ensures Reached(b, s, Perform(b, s, op).trail[i])
  {
    hide Inv, Signed, Grows, Perform, Sound;
    PerformKeeps(b, s, op);
    KeyringSigned(b, s, op);
    GrowsAlong(Perform(b, s, op).trail, 0, i);
  }

  lemma CutInAddRelease(b: Backend, s: State, key: TargetKey, artifact: Bytes, k: nat)
    requires Ready(b, s) && Accepted(b, s, OpAddRelease(key, artifact, PointerInfo(key.version)))
    requires k < |AddRelease(b, s, key, artifact, PointerInfo(key.version)).trail|
    ensures var x := AddRelease(b, s, key, artifact, PointerInfo(key.version)).trail[k];
            Reached(b, s, x) && Partial(s, x, key, artifact)
  {
    hide Inv, Signed, Capable, Grows, PutTarget, HalfListed, Partial, Reached;
    OperationReaches(b, s, OpAddRelease(key, artifact, PointerInfo(key.version)), k);
    CutIsHalfListed(b, s, AppRoleName(key.appId), Path(key), artifact, PointerInfo(key.version), k);
    CutAddRelease(s, AddRelease(b, s, key, artifact, PointerInfo(key.version)).trail[k], key, artifact);
  }

  lemma CutInSetCurrent(b: Backend, s: State, s1: State, key: TargetKey, artifact: Bytes, i: nat)
    requires Reached(b, s, s1) && Accepted(b, s1, OpSetCurrent(key)) && i < |SetCurrent(b, s1, key).trail|
    requires Lists(s, s1, AppRoleName(key.appId), Path(key), artifact, PointerInfo(key.version))
    ensures var x := SetCurrent(b, s1, key).trail[i];
            Reached(b, s, x) && Partial(s, x, key, artifact)
  {
    hide Inv, Signed, Grows, PutTarget, HalfListed, Partial, Lists;
    OperationReaches(b, s1, OpSetCurrent(key), i);
    var x := SetCurrent(b, s1, key).trail[i];
    GrowsTransitive(s.disk, s1.disk, x.disk);
    CutIsHalfListed(b, s1, AppRoleName(key.appId), PointerPath(ChannelOf(key)), PointerJson(Path(key), key.version),
                    PointerInfo(key.version), i);
    CutSetCurrent(s, s1, x, key, artifact);
  }

  /** Where a publish is after its `k`-th write: inside `add_release`, or inside the `set_current` after it. */
  lemma ReleaseAt(b: Backend, s: State, key: TargetKey, artifact: Bytes, k: nat)
    requires AddRelease(b, s, key, artifact, PointerInfo(key.version)).error.None?
    requires k < |Release(b, s, key, artifact).trail|
    ensures var added := AddRelease(b, s, key, artifact, PointerInfo(key.version));
            var x := Release(b, s, key, artifact).trail[k];
            if k < |added.trail| then x == added.trail[k]
            else
              var current, i := SetCurrent(b, Final(added), key), k - |added.trail| + 1;
              i < |current.trail| && x == current.trail[i]
  {
    hide AddRelease, SetCurrent;
  }

  lemma AddedIsAccepted(b: Backend, s: State, key: TargetKey, artifact: Bytes)
    requires Ready(b, s) && Accepted(b, s, OpAddRelease(key, artifact, PointerInfo(key.version)))
    ensures var added := AddRelease(b, s, key, artifact, PointerInfo(key.version));
            && added.error.None? && Accepted(b, Final(added), OpSetCurrent(key))
            && Lists(s, Final(added), AppRoleName(key.appId), Path(key), artifact, PointerInfo(key.version))
  {
    hide Ready, Advertised, Lists, AddRelease, Holds;
    AppRoleIsNotTop(key.appId);
    HoldsItself(b, OpAddRelease(key, artifact, PointerInfo(key.version)));
    AddReleaseEnds(b, b, s, key, artifact, PointerInfo(key.version));
    ListsMeans(s, Final(AddRelease(b, s, key, artifact, PointerInfo(key.version))), AppRoleName(key.appId), Path(key),
               artifact, PointerInfo(key.version));
  }

  lemma CutIsPartial(b: Backend, s: State, key: TargetKey, artifact: Bytes, k: nat)
    requires Ready(b, s) && Accepted(b, s, OpAddRelease(key, artifact, PointerInfo(key.version)))
    requires k < |Release(b, s, key, artifact).trail|
    ensures var x := Release(b, s, key, artifact).trail[k];
            Reached(b, s, x) && Partial(s, x, key, artifact)
  {
    hide Ready, Accepted, Partial, Lists, Reached, AddRelease, SetCurrent, Release;
    AddedIsAccepted(b, s, key, artifact);
    ReleaseAt(b, s, key, artifact, k);
    var added := AddRelease(b, s, key, artifact, PointerInfo(key.version));
    if k < |added.trail| {
      CutInAddRelease(b, s, key, artifact, k);
    } else {
      CutInAddRelease(b, s, key, artifact, |added.trail| - 1);
      CutInSetCurrent(b, s, Final(added), key, artifact, k - |added.trail| + 1);
    }
  }

  lemma RescanOpens(x: State, m: Memory)
    requires Inv(x) && Rescanned(x.disk, m)
    ensures forall r | r != ROOT :: Version(m, r) == Version(x.memory, r) && Open(State(x.disk, m), r) == Open(x, r)
  {
    hide DiskOk, RolesKnown;
  }

  /** A restart after any cut is ready to publish again, and knows the role. */
  lemma RestartIsReady(b: Backend, s: State, x: State, m: Memory, role: Role)
    requires Ready(b, s) && Reached(b, s, x) && Rescanned(x.disk, m) && role in s.memory.appRoles
    requires Targets(x, TARGETS) == Targets(s, TARGETS)
    ensures Ready(b, State(x.disk, m)) && role in m.appRoles
  {
    RescanKeeps(x, m);
    RescanOpens(x, m);
    KnownRoleIsDelegated(s, role);
    hide DiskOk, RolesKnown, Signed, Capable, Rescanned;
    assert Versioned(ROOT, Version(s.memory, ROOT)) in x.disk.files;
    assert Versioned(TARGETS, Version(s.memory, TARGETS)) in x.disk.files;
    RescannedFacts(x, m, Version(s.memory, ROOT), role);
  }

  lemma RescannedFacts(x: State, m: Memory, v: nat, role: Role)
    requires Inv(x) && Rescanned(x.disk, m) && Versioned(ROOT, v) in x.disk.files
    requires Delegates(Targets(x, TARGETS).delegations, role)
    ensures Version(m, ROOT) > 0 && role in m.appRoles
  {
    RescanOpens(x, m);
    hide Inv, Newest;
    assert Targets(State(x.disk, m), TARGETS) == Targets(x, TARGETS);
  }

  lemma PartialAcross(s: State, x: State, y: State, key: TargetKey, artifact: Bytes)
    requires Partial(s, x, key, artifact) && x.disk == y.disk
    requires forall r | r != ROOT :: Version(y.memory, r) == Version(x.memory, r) && Open(y, r) == Open(x, r)
    ensures Partial(s, y, key, artifact) && Targets(x, TARGETS) == Targets(s, TARGETS)
  {
    AppRoleIsNotTop(key.appId);
    assert forall r | r != ROOT :: Targets(y, r) == Targets(x, r);
    hide Path, PointerPath, Targets, Open;
  }

  /** Everything a publish job and its surroundings must meet, field by field. */
  predicate Publishable(s: State, q: Quarantine, slot: ChannelFields, job: PublishJob) {
    && job.sha256.Some? && job.sha256.value in q && job.sha256.value == Sha256(q[job.sha256.value])
    && IsAppId(slot.appId) && "app-" + slot.appId in s.memory.appRoles && slot.channel in {"stable", "beta", "canary"}
    && IsSegment(slot.platform) && IsSegment(slot.arch) && IsSegment(job.version) && IsSegment(job.filename)
  }

  /** The checks pass exactly then, and what they pass is the key of a release. */
  lemma GuardsHold(s: State, q: Quarantine, slot: ChannelFields, job: PublishJob)
    ensures Refusal(s, q, slot, job).None? <==> Publishable(s, q, slot, job)
    ensures Publishable(s, q, slot, job) ==> IsTargetKey(KeyFor(slot, job))
  {
    if IsAppId(slot.appId) { AppIdIsSegment(slot.appId); }
    assert !IsSegment([]);
    hide IsSegment, IsAppId;
  }

  /** What is left when the application's keys are elsewhere: the payload, and nothing that lists it. */
  function Stranded(s: State, key: TargetKey, artifact: Bytes): SignRun {
    SignRun([s, StorePayload(s, Path(key), artifact)], Some(Failed(ThresholdNotMet(AppRoleName(key.appId)))))
  }

  lemma UnkeyedIsStranded(b: Backend, s: State, key: TargetKey, artifact: Bytes)
    requires Inv(s) && IsAppId(key.appId) && AppRoleName(key.appId) in s.memory.appRoles
    requires KeyIds(b, AppRoleName(key.appId)) == {}
    ensures Release(b, s, key, artifact) == Stranded(s, key, artifact)
  {
    KnownRolePolicy(s, AppRoleName(key.appId));
    hide Inv, Targets, Publish, Path;
  }

  /** The signer's hands: the online roles' keys, and of every other role all the keys or none. */
  ghost predicate SignerHolds(b: Backend, ring: Backend) {
    PartOf(b, ring) && Agree(b, ring, SNAPSHOT) && Agree(b, ring, TIMESTAMP)
  }

  lemma SignerMayRelease(b: Backend, ring: Backend, key: TargetKey)
    requires SignerHolds(b, ring) && KeyIds(b, AppRoleName(key.appId)) != {}
    ensures Holds(b, ring, OpSetCurrent(key))
  {
  }

  /** `<app-id>/<channel>/<platform>-<arch>/<version>/<file>`. */
  function ReleasePath(slot: ChannelFields, job: PublishJob): string {
    slot.appId + "/" + slot.channel + "/" + slot.platform + "-" + slot.arch + "/" + job.version + "/" + job.filename
  }

  /** Where the slot's clients look first. */
  function PointerAt(slot: ChannelFields): string {
    slot.appId + "/" + slot.channel + "/" + slot.platform + "-" + slot.arch + "/_current/release.json"
  }

  lemma PathsRead(slot: ChannelFields, job: PublishJob)
    requires IsTargetKey(KeyFor(slot, job))
    ensures Path(KeyFor(slot, job)) == ReleasePath(slot, job) && PointerPath(slot) == PointerAt(slot)
  {
    Unnested(slot.appId, slot.channel, slot.platform, slot.arch, job.version + "/" + job.filename);
    Unnested(slot.appId, slot.channel, slot.platform, slot.arch, POINTER_VERSION + "/" + POINTER_FILE);
    var prefix := slot.appId + "/" + slot.channel + "/" + slot.platform + "-" + slot.arch + "/";
    assert prefix + (job.version + "/" + job.filename) == prefix + job.version + "/" + job.filename;
    var base := slot.appId + "/" + slot.channel + "/" + slot.platform + "-" + slot.arch;
    assert POINTER_VERSION + "/" + POINTER_FILE == "_current/release.json";
    assert base + "/" + "_current/release.json" == base + "/_current/release.json" by {
      assert "/" + "_current/release.json" == "/_current/release.json";
    }
  }

  lemma Unnested(a: string, b: string, c: string, d: string, rest: string)
    ensures (a + "/" + b + "/" + c + "-" + d + "/") + rest == (a + "/" + (b + "/" + ((c + "-" + d) + "/"))) + rest
  {
  }

  /**
   `do_publish` by a worker with the online store succeeds exactly when its artifact is the approved one,
   its names are usable and the application's key is online. An unusable job writes nothing; a job of an
   application whose key is offline stores its payload and is then refused.
   */
  lemma PublishesExactly(b: Backend, ring: Backend, s: State, q: Quarantine, slot: ChannelFields, job: PublishJob)
    requires Ready(ring, s) && SignerHolds(b, ring)
    ensures PublishRun(b, s, q, slot, job).error.None?
       <==> Publishable(s, q, slot, job) && KeyIds(b, AppRoleName(slot.appId)) != {}
    ensures !Publishable(s, q, slot, job) ==> PublishRun(b, s, q, slot, job).trail == [s]
    ensures Publishable(s, q, slot, job) && KeyIds(b, AppRoleName(slot.appId)) == {} ==>
              PublishRun(b, s, q, slot, job)
                == SignRun([s, StorePayload(s, ReleasePath(slot, job), q[job.sha256.value])],
                           Some(Failed(ThresholdNotMet("app-" + slot.appId))))
  {
    hide Ready, Advertised, Release, Released, SignerHolds, KeyIds, Holds, Stranded, Refusal, IsSegment, IsAppId;
    GuardsHold(s, q, slot, job);
    if Publishable(s, q, slot, job) {
      var key: TargetKey := KeyFor(slot, job);
      if KeyIds(b, AppRoleName(slot.appId)) != {} {
        SignerMayRelease(b, ring, key);
        ReleaseEnds(b, ring, s, key, q[job.sha256.value]);
      } else {
        ReadyIsInv(ring, s);
        UnkeyedIsStranded(b, s, key, q[job.sha256.value]);
        PathsRead(slot, job);
        StrandedMeans(s, key, q[job.sha256.value]);
      }
    }
  }

  /** The slot's release and its pointer, listed and stored; nothing else in any role or payload touched. */
  ghost predicate Published(s: State, t: State, slot: ChannelFields, job: PublishJob, artifact: Bytes) {
    var role, path, at := "app-" + slot.appId, ReleasePath(slot, job), PointerAt(slot);
    var info, pointer := Custom(Some(job.version), Some(100), Some(false), None, None, None),
                         PointerJson(ReleasePath(slot, job), job.version);
    var listed := Targets(s, role).targets;
    && Targets(t, role).targets == listed[path := Entry(artifact.length, Sha256(artifact), info)]
                                         [at := Entry(pointer.length, Sha256(pointer), info)]
    && pointer.pointer == Some(CurrentRelease(path, job.version))
    && t.disk.payloads == s.disk.payloads[PayloadName(path, Sha256(artifact)) := artifact]
                                         [PayloadName(at, Sha256(pointer)) := pointer]
    && forall r | r !in {role, "root", "snapshot", "timestamp"} :: Targets(t, r) == Targets(s, r)
  }

  lemma ReleasedIsPublished(s: State, t: State, slot: ChannelFields, job: PublishJob, artifact: Bytes)
    requires IsTargetKey(KeyFor(slot, job)) && Released(s, t, KeyFor(slot, job), artifact)
    ensures Published(s, t, slot, job, artifact)
  {
    PathsRead(slot, job);
    hide Path, PointerPath, ReleasePath, PointerAt, Targets;
  }

  /** What the slot's clients are told once the job is done. */
  function Told(slot: ChannelFields, job: PublishJob, artifact: Bytes, first: bool): Answer {
    if !first then Ok(None)
    else if |job.version| >= 64 then Err(CheckError.Refused(Overflow))
    else if |"{\"target_path\":\"\",\"version\":\"\"}"| + |ReleasePath(slot, job)| + |job.version| > 65536
    then Err(PointerTooLarge)
    else Ok(Some(Available(job.version, ReleasePath(slot, job),
                           TargetInfo(job.version, artifact.length, Sha256(artifact), 100, false))))
  }

  lemma AnsweredIsTold(c: Client, slot: ChannelFields, job: PublishJob, artifact: Bytes, first: bool)
    requires IsTargetKey(KeyFor(slot, job))
    ensures var key: TargetKey := KeyFor(slot, job);
            && Describes(EntryFor(artifact, PointerInfo(key.version)), key.version)
            && Answered(c, key, EntryFor(artifact, PointerInfo(key.version)), first) == Told(slot, job, artifact, first)
  {
    PathsRead(slot, job);
    hide Path, PointerPath, ReleasePath, PointerAt;
  }

  lemma ReleaseIsPointed(b: Backend, ring: Backend, s: State, key: TargetKey, artifact: Bytes)
    requires Ready(ring, s) && Accepted(b, s, OpAddRelease(key, artifact, PointerInfo(key.version)))
    requires Holds(b, ring, OpSetCurrent(key))
    ensures Last(Release(b, s, key, artifact))
         == Pointed(b, Final(AddRelease(b, s, key, artifact, PointerInfo(key.version))), key)
  {
    hide Ready, Advertised, AddRelease, SetCurrent, Lists, Holds;
    SameHands(b, ring, key, artifact, PointerInfo(key.version));
    AddReleaseEnds(b, ring, s, key, artifact, PointerInfo(key.version));
  }

  /** Why an unusable job is refused: the first of these that applies, before anything is written. */
  lemma UnusableJobs(b: Backend, s: State, q: Quarantine, slot: ChannelFields, job: PublishJob)
    requires !Publishable(s, q, slot, job)
    ensures PublishRun(b, s, q, slot, job) == SignRun([s], Some(
              if job.sha256.None? || job.version == "" || job.filename == "" then MissingField
              else if job.sha256.value !in q then NoArtifact
              else if q[job.sha256.value] != job.sha256.value.of then DigestChanged
              else if IsAppId(slot.appId) && "app-" + slot.appId !in s.memory.appRoles then NotDelegated
              else BadName))
  {
    GuardsHold(s, q, slot, job);
    hide IsSegment, IsAppId;
  }

  lemma JobPublishes(b: Backend, ring: Backend, s: State, q: Quarantine, slot: ChannelFields, job: PublishJob)
    requires Ready(ring, s) && SignerHolds(b, ring) && Publishable(s, q, slot, job)
    requires KeyIds(b, "app-" + slot.appId) != {}
    ensures var r, artifact := PublishRun(b, s, q, slot, job), q[job.sha256.value];
            r.error.None? && Ready(ring, Last(r)) && Published(s, Last(r), slot, job, artifact)
  {
    hide Ready, Advertised, Release, Released, SignerHolds, Holds, Refusal, IsSegment, IsAppId, Published, KeyIds;
    GuardsHold(s, q, slot, job);
    var key: TargetKey, artifact := KeyFor(slot, job), q[job.sha256.value];
    SignerMayRelease(b, ring, key);
    ReleaseEnds(b, ring, s, key, artifact);
    ReleasedIsPublished(s, Last(Release(b, s, key, artifact)), slot, job, artifact);
  }

  /** A job that fails has touched no document. */
  lemma FailedJobListsNothing(b: Backend, ring: Backend, s: State, q: Quarantine, slot: ChannelFields, job: PublishJob)
    requires Ready(ring, s) && SignerHolds(b, ring) && PublishRun(b, s, q, slot, job).error.Some?
    ensures var t := Last(PublishRun(b, s, q, slot, job)); t.disk.files == s.disk.files && t.memory == s.memory
  {
    PublishesExactly(b, ring, s, q, slot, job);
    hide PublishRun, Publishable, SignerHolds, Ready, KeyIds, ReleasePath;
  }

  /**
   What a job publishes is its own source's: the approved bytes under the slot's own path, the slot's own pointer
   moved to them, and, straight after, that release told to every client of the slot by length, digest and
   version, unless the application was not the first delegated or a size limit bites.
   */
  lemma JobReachesClient(b: Backend, ring: Backend, s: State, q: Quarantine, slot: ChannelFields, job: PublishJob,
                         c: Client)
    requires Ready(ring, s) && SignerHolds(b, ring) && Publishable(s, q, slot, job)
    requires KeyIds(b, "app-" + slot.appId) != {} && Trusts(c, ring) && c.channel == slot
    ensures var r, artifact := PublishRun(b, s, q, slot, job), q[job.sha256.value];
            && r.error.None? && Ready(ring, Last(r)) && Published(s, Last(r), slot, job, artifact)
            && CheckAt(c, Last(r).disk) == Told(slot, job, artifact, FirstRole(s) == "app-" + slot.appId)
  {
    hide Ready, Advertised, Release, SignerHolds, Holds, Refusal, IsSegment, IsAppId, Published, Told, Check, Trusts,
         FirstRole, KeyIds, Answered, AddRelease, Pointed;
    JobPublishes(b, ring, s, q, slot, job);
    GuardsHold(s, q, slot, job);
    var key: TargetKey, artifact := KeyFor(slot, job), q[job.sha256.value];
    SignerMayRelease(b, ring, key);
    ReleaseIsPointed(b, ring, s, key, artifact);
    ReleaseReachesClient(b, ring, s, key, artifact, PointerInfo(key.version), c);
    AnsweredIsTold(c, slot, job, artifact, FirstRole(s) == "app-" + slot.appId);
  }

  lemma StrandedMeans(s: State, key: TargetKey, artifact: Bytes)
    ensures Stranded(s, key, artifact)
         == SignRun([s, StorePayload(s, Path(key), artifact)], Some(Failed(ThresholdNotMet(AppRoleName(key.appId)))))
  {
  }

  lemma ReadyIsInv(ring: Backend, s: State)
    requires Ready(ring, s)
    ensures Inv(s)
  {
  }

  lemma RefusalNeedsRole(s: State, t: State, q: Quarantine, slot: ChannelFields, job: PublishJob)
    requires Refusal(s, q, slot, job).None? && AppRoleName(slot.appId) in t.memory.appRoles
    ensures Refusal(t, q, slot, job).None?
  {
  }

  /** The keyring's own publish, cut and rerun. */
  lemma KeyringConverges(b: Backend, s: State, q: Quarantine, slot: ChannelFields, job: PublishJob, k: nat, m: Memory)
    requires Ready(b, s) && Refusal(s, q, slot, job).None?
    requires k < |PublishRun(b, s, q, slot, job).trail| && Rescanned(PublishRun(b, s, q, slot, job).trail[k].disk, m)
    ensures var uncut := PublishRun(b, s, q, slot, job);
            var rerun := PublishRun(b, State(uncut.trail[k].disk, m), q, slot, job);
            && uncut.error.None? && rerun.error.None? && SameContents(Last(rerun), Last(uncut))
            && Ready(b, Last(rerun)) && Advertised(Last(rerun)) && Ready(b, Last(uncut)) && Advertised(Last(uncut))
            && Ready(b, State(uncut.trail[k].disk, m)) && Refusal(State(uncut.trail[k].disk, m), q, slot, job).None?
  {
    hide Ready, Advertised, Rescanned, Release, Refusal, Partial, Released, SameContents, Reached, Holds;
    GuardsHold(s, q, slot, job);
    var key: TargetKey, artifact, role := KeyFor(slot, job), q[job.sha256.value], AppRoleName(slot.appId);
    HoldsItself(b, OpSetCurrent(key));
    ReleaseEnds(b, b, s, key, artifact);
    CutIsPartial(b, s, key, artifact, k);
    var u := Last(Release(b, s, key, artifact));
    var x := Release(b, s, key, artifact).trail[k];
    var y := State(x.disk, m);
    ReachedInv(b, s, x);
    RescanOpens(x, m);
    PartialAcross(s, x, y, key, artifact);
    RestartIsReady(b, s, x, m, role);
    RefusalNeedsRole(s, y, q, slot, job);
    ReleaseEnds(b, b, y, key, artifact);
    var t := Last(Release(b, y, key, artifact));
    PartialConverges(s, y, t, u, key, artifact);
  }

  /** A stranded publish, cut and rerun, strands the same payload once more. */
  lemma StrandedConverges(b: Backend, ring: Backend, s: State, key: TargetKey, artifact: Bytes, k: nat, m: Memory)
    requires Ready(ring, s) && IsAppId(key.appId) && AppRoleName(key.appId) in s.memory.appRoles && k < 2
    requires KeyIds(b, AppRoleName(key.appId)) == {}
    requires Rescanned(Stranded(s, key, artifact).trail[k].disk, m)
    ensures var y := State(Stranded(s, key, artifact).trail[k].disk, m);
            && Ready(ring, y) && AppRoleName(key.appId) in m.appRoles
            && Release(b, y, key, artifact) == Stranded(y, key, artifact)
            && Last(Stranded(y, key, artifact)).disk == Last(Stranded(s, key, artifact)).disk
            && SameContents(Last(Stranded(y, key, artifact)), Last(Stranded(s, key, artifact)))
  {
    hide Reached, Rescanned, Path, Ready, Release, SameContents, KeyIds;
    var x := Stranded(s, key, artifact).trail[k];
    var y := State(x.disk, m);
    StrandedReaches(ring, s, key, artifact, k);
    RestartIsReady(ring, s, x, m, AppRoleName(key.appId));
    ReachedInv(ring, s, x);
    hide Inv;
    RescanOpens(x, m);
    assert forall r | r != ROOT :: Targets(y, r) == Targets(x, r) == Targets(s, r);
    StrandedAgain(s, y, key, artifact);
    ReadyIsInv(ring, y);
    UnkeyedIsStranded(b, y, key, artifact);
  }

  lemma StrandedReaches(ring: Backend, s: State, key: TargetKey, artifact: Bytes, k: nat)
    requires Ready(ring, s) && k < 2
    ensures Reached(ring, s, Stranded(s, key, artifact).trail[k])
    ensures Targets(Stranded(s, key, artifact).trail[k], TARGETS) == Targets(s, TARGETS)
  {
    hide DiskOk, Newest, RolesKnown, BodyOk, Capable, Grows;
    StorePayloadKeeps(s, Path(key), artifact, PointerInfo(key.version));
    GrowsReflexive(s.disk);
  }

  /** Storing the payload over itself changes nothing, whatever the memory. */
  lemma StrandedAgain(s: State, y: State, key: TargetKey, artifact: Bytes)
    requires y.disk == s.disk || y.disk == StorePayload(s, Path(key), artifact).disk
    requires forall r | r != ROOT :: Version(y.memory, r) == Version(s.memory, r) && Targets(y, r) == Targets(s, r)
    ensures Last(Stranded(y, key, artifact)).disk == Last(Stranded(s, key, artifact)).disk
    ensures SameContents(Last(Stranded(y, key, artifact)), Last(Stranded(s, key, artifact)))
  {
    var t, u := Last(Stranded(y, key, artifact)), Last(Stranded(s, key, artifact));
    assert t.disk.payloads == u.disk.payloads;
    assert forall r :: Targets(t, r) == Targets(y, r) && Targets(u, r) == Targets(s, r);
  }

  lemma StrandedIsTwo(s: State, key: TargetKey, artifact: Bytes)
    ensures |Stranded(s, key, artifact).trail| == 2
    ensures Stranded(s, key, artifact).error == Some(Failed(ThresholdNotMet(AppRoleName(key.appId))))
  {
  }

  /** Two ends of one job that nobody can tell apart: verdict, contents, and what every client is told. */
  ghost predicate SameOutcome(ring: Backend, r: SignRun, u: SignRun)
    requires r.trail != [] && u.trail != []
  {
    && r.error == u.error && SameContents(Last(r), Last(u))
    && forall c: Client | Trusts(c, ring) && IsAppId(c.channel.appId) ::
         CheckAt(c, Last(r).disk) == CheckAt(c, Last(u).disk)
  }

  /** One cut and restart: the job may be run again, and its end is the same. */
  lemma OneCutConverges(b: Backend, ring: Backend, s: State, q: Quarantine, slot: ChannelFields, job: PublishJob,
                        k: nat, m: Memory)
    requires Ready(ring, s) && SignerHolds(b, ring) && Refusal(s, q, slot, job).None?
    requires k < |PublishRun(b, s, q, slot, job).trail| && Rescanned(PublishRun(b, s, q, slot, job).trail[k].disk, m)
    ensures var uncut := PublishRun(b, s, q, slot, job);
            var y := State(uncut.trail[k].disk, m);
            Ready(ring, y) && Refusal(y, q, slot, job).None? && SameOutcome(ring, PublishRun(b, y, q, slot, job), uncut)
  {
    hide Ready, Advertised, Rescanned, Release, Refusal, SameContents, Check, Trusts, SignerHolds, Holds, KeyIds,
         Stranded;
    GuardsHold(s, q, slot, job);
    var key: TargetKey, artifact, role := KeyFor(slot, job), q[job.sha256.value], AppRoleName(slot.appId);
    if KeyIds(b, role) != {} {
      SignerMayRelease(b, ring, key);
      ReleaseSame(b, ring, s, key, artifact);
      KeyringConverges(ring, s, q, slot, job, k, m);
      var y := State(PublishRun(ring, s, q, slot, job).trail[k].disk, m);
      ReleaseSame(b, ring, y, key, artifact);
      var t, u := Last(PublishRun(ring, y, q, slot, job)), Last(PublishRun(ring, s, q, slot, job));
      forall c: Client | Trusts(c, ring) && IsAppId(c.channel.appId) ensures CheckAt(c, t.disk) == CheckAt(c, u.disk) {
        ContentsDecide(ring, t, u, c);
      }
    } else {
      ReadyIsInv(ring, s);
      UnkeyedIsStranded(b, s, key, artifact);
      StrandedIsTwo(s, key, artifact);
      StrandedConverges(b, ring, s, key, artifact, k, m);
      RefusalNeedsRole(s, State(PublishRun(b, s, q, slot, job).trail[k].disk, m), q, slot, job);
      StrandedIsTwo(State(PublishRun(b, s, q, slot, job).trail[k].disk, m), key, artifact);
    }
  }

  /** The job has been cut and restarted once per entry, by a worker that rescans, and is to run again from `last`. */
  ghost predicate Requeued(b: Backend, s: State, q: Quarantine, slot: ChannelFields, job: PublishJob, cuts: seq<nat>,
                           memories: seq<Memory>, last: State)
    decreases |cuts|
  {
    if cuts == [] || memories == [] then cuts == [] && memories == [] && last == s
    else
      var trail := PublishRun(b, s, q, slot, job).trail;
      && cuts[0] < |trail| && Rescanned(trail[cuts[0]].disk, memories[0])
      && Requeued(b, State(trail[cuts[0]].disk, memories[0]), q, slot, job, cuts[1..], memories[1..], last)
  }

  lemma SameOutcomeJoins(ring: Backend, r: SignRun, x: SignRun, u: SignRun)
    requires r.trail != [] && x.trail != [] && u.trail != []
    requires SameOutcome(ring, r, x) && SameOutcome(ring, x, u)
    ensures SameOutcome(ring, r, u)
  {
    hide Trusts, Check, Targets;
  }

  lemma SameOutcomeAsItself(ring: Backend, r: SignRun)
    requires r.trail != []
    ensures SameOutcome(ring, r, r)
  {
  }

  /**
   Cut `do_publish` at any write, restart, run the requeued job, cut that again, as often as may be: once a
   run reaches its end there are the same verdict, targets, pointer and payloads as after one uncut run, and
   the same answer to every client, whatever its application. It holds for the worker's own store, whether or
   not that store has the application's key.
   */
  lemma {:induction false} CutAndRerunConverges(b: Backend, ring: Backend, s: State, q: Quarantine, slot: ChannelFields,
                                                job: PublishJob, cuts: seq<nat>, memories: seq<Memory>, last: State)
    requires Ready(ring, s) && SignerHolds(b, ring) && Refusal(s, q, slot, job).None?
    requires Requeued(b, s, q, slot, job, cuts, memories, last)
    ensures SameOutcome(ring, PublishRun(b, last, q, slot, job), PublishRun(b, s, q, slot, job))
    decreases |cuts|
  {
    hide Ready, Rescanned, PublishRun, Refusal, SameOutcome, SignerHolds;
    if cuts == [] {
      SameOutcomeAsItself(ring, PublishRun(b, s, q, slot, job));
    } else {
      var y := State(PublishRun(b, s, q, slot, job).trail[cuts[0]].disk, memories[0]);
      OneCutConverges(b, ring, s, q, slot, job, cuts[0], memories[0]);
      CutAndRerunConverges(b, ring, y, q, slot, job, cuts[1..], memories[1..], last);
      SameOutcomeJoins(ring, PublishRun(b, last, q, slot, job), PublishRun(b, y, q, slot, job),
                       PublishRun(b, s, q, slot, job));
    }
  }

  lemma ReachedInv(b: Backend, s: State, x: State)
    requires Reached(b, s, x)
    ensures Inv(x)
  {
  }

  // ------------------------------------------------------------------- worker

  /** The process that holds the online keys, and its long-lived repository object. */
  class SigningWorker {
    const repo: Repository.FileSystemRepository

    constructor (repo: Repository.FileSystemRepository)
      ensures this.repo == repo
    {
      this.repo := repo;
    }

    /** `do_publish`: passes through the states of `PublishRun`, and reports its error. */
    method DoPublish(quarantine: Quarantine, slot: ChannelFields, job: PublishJob) returns (error: Option<SignError>)
      requires repo.Valid()
      modifies repo, repo.directory
      ensures repo.Valid()
      ensures var run := PublishRun(repo.backend, old(repo.State()), quarantine, slot, job);
              && error == run.error && repo.State() == Last(run) && repo.trail == old(repo.trail) + run.trail[1..]
    {
      hide AddRelease, SetCurrent;
      error := Refusal(repo.State(), quarantine, slot, job);
      if error.Some? {
        return;
      }
      var key: TargetKey := KeyFor(slot, job);
      var failed := repo.AddRelease(key, quarantine[job.sha256.value], PointerInfo(key.version));
      if failed.None? {
        failed := repo.SetCurrent(key);
      }
      error := Lift(failed);
    }
  }
}

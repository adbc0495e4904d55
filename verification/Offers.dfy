/**
 How long an offer lasts: over any run under one keyring, whichever stores its events open, crashes and
 restarts included, every state gives a client the same answer until someone republishes that release
 or moves that channel.
 */
module Offers {
  import opened Text
  import opened Naming
  import opened Metadata
  import opened Publisher
  import opened PublisherSafety
  import opened PublisherRuns
  import opened Keyrings
  import opened Publication
  import opened Verifier
  import opened UpdateCheck
  import opened Releases

  // -------------------------------------------------------------- one keyring

  /** Ceremonies, the signing worker and any other process, each with a store of its own. */
  ghost predicate AllPartOf(ring: Backend, events: seq<Event>) {
    forall i | 0 <= i < |events| :: PartOf(events[i].backend, ring)
  }

  /** Whatever ends it, an event passes only through disks its operation passes through. */
  lemma FollowsDisks(s: State, e: Event, trail: seq<State>, i: nat)
    requires Follows(s, e, trail) && i < |trail|
    ensures var full := Perform(e.backend, s, e.op).trail;
            exists j | 0 <= j < |full| :: trail[i].disk == full[j].disk
  {
    hide Perform, Rescanned;
    var full := Perform(e.backend, s, e.op).trail;
    match e.ending {
      case Finished => assert trail[i].disk == full[i].disk;
      case Survived(k) => assert trail[i] == full[..k + 1][i];
      case Killed(k) =>
        if i <= k {
          assert trail[i] == trail[..k + 1][i] == full[i];
        } else {
          assert trail[i].disk == full[k].disk;
        }
    }
  }

  /** The keyring signs everything a run leaves behind, in every state. */
  lemma {:induction false} RunIsSigned(ring: Backend, s: State, events: seq<Event>, cuts: seq<nat>, trail: seq<State>)
    requires Inv(s) && Signed(ring, s.disk) && AllPartOf(ring, events) && RunOf(s, events, cuts, trail)
    ensures forall i | 0 <= i < |trail| :: Signed(ring, trail[i].disk)
    decreases |events|
  {
    hide Inv, Signed, Follows, Sound, Perform, PartOf;
    if events != [] {
      var k, e := cuts[0], events[0];
      PerformSigned(e.backend, ring, s, e.op);
      forall i | 0 <= i < k ensures Signed(ring, trail[i].disk) {
        FollowsDisks(s, e, trail[..k], i);
      }
      FollowsKeeps(s, e, trail[..k]);
      assert Inv(trail[..k][k - 1]);
      RunIsSigned(ring, trail[k - 1], events[1..], cuts[1..], trail[k - 1..]);
      forall i | k <= i < |trail| ensures Signed(ring, trail[i].disk) {
        assert trail[i] == trail[k - 1..][i - (k - 1)];
      }
    }
  }

  /**
   Publishing after any run of ceremonies, signers and restarts: from every state of it that has root
   and targets on disk, whoever holds the online keys publishes, advertises the newest of everything,
   and the next publish writes nothing.
   */
  lemma EveryRunCanPublish(b: Backend, ring: Backend, s: State, events: seq<Event>, cuts: seq<nat>, trail: seq<State>,
                           i: nat)
    requires Inv(s) && Signed(ring, s.disk) && Capable(ring) && AllPartOf(ring, events) && RunOf(s, events, cuts, trail)
    requires i < |trail| && Version(trail[i].memory, ROOT) > 0 && Version(trail[i].memory, TARGETS) > 0
    requires Holds(b, ring, OpPublish)
    ensures var r := Publish(b, trail[i]);
            && r.error.None? && Advertised(Final(r)) && Grows(trail[i].disk, Final(r).disk)
            && Publish(b, Final(r)) == Run([Final(r), Final(r), Final(r)], None)
  {
    hide DiskOk, Newest, RolesKnown, Signed, Capable, Advertised, Publish, RunOf, Grows, AllPartOf, Holds, OnlineOnly;
    EveryRunIsGood(s, events, cuts, trail);
    RunIsSigned(ring, s, events, cuts, trail);
    assert Inv(trail[i]) && Signed(ring, trail[i].disk);
    PublishSettles(b, ring, trail[i]);
    PublishKeeps(b, trail[i]);
    var t := Publish(b, trail[i]).trail;
    GrowsReflexive(trail[i].disk);
    GrowsAlong(t, 0, |t| - 1);
  }

  // ------------------------------------------------------------------ pinning

  /** From these versions on, the role's files point at `key`, and targets files delegate `first` first. */
  datatype Pin = Pin(key: TargetKey, entry: Entry, first: Role, listedFrom: nat, topFrom: nat, snapshotFrom: nat)

  ghost predicate Keeps(body: Body, pin: Pin) {
    && body.TargetsBody?
    && PointerPath(ChannelOf(pin.key)) in body.targets
    && body.targets[PointerPath(ChannelOf(pin.key))] == PointerEntry(pin.key)
    && Path(pin.key) in body.targets && body.targets[Path(pin.key)] == pin.entry
  }

  ghost predicate Leads(body: Body, pin: Pin) {
    && body.TargetsBody? && body.delegations != [] && body.delegations[0].role == pin.first
    && Delegates(body.delegations, AppRoleName(pin.key.appId))
  }

  ghost predicate Names(body: Body, pin: Pin) {
    && body.SnapshotBody?
    && TARGETS in body.meta && body.meta[TARGETS] >= pin.topFrom
    && AppRoleName(pin.key.appId) in body.meta && body.meta[AppRoleName(pin.key.appId)] >= pin.listedFrom
  }

  ghost predicate Pinned(d: Disk, pin: Pin) {
    var role := AppRoleName(pin.key.appId);
    && Versioned(role, pin.listedFrom) in d.files && Versioned(TARGETS, pin.topFrom) in d.files
    && Versioned(SNAPSHOT, pin.snapshotFrom) in d.files
    && Names(d.files[Versioned(SNAPSHOT, pin.snapshotFrom)].body, pin)
    && (forall v: nat | v >= pin.listedFrom && Versioned(role, v) in d.files ::
          Keeps(d.files[Versioned(role, v)].body, pin))
    && (forall v: nat | v >= pin.topFrom && Versioned(TARGETS, v) in d.files ::
          Leads(d.files[Versioned(TARGETS, v)].body, pin))
    && TimestampJson in d.files && d.files[TimestampJson].body.TimestampBody?
    && d.files[TimestampJson].body.snapshot >= pin.snapshotFrom
  }

  /** The operations that leave the release and its channel alone. */
  predicate Leaves(op: Operation, key: TargetKey) {
    match op
    case OpAddRelease(k, _, _) => Path(k) != Path(key)
    case OpSetCurrent(k) => Prefix(ChannelOf(k)) != Prefix(ChannelOf(key))
    case _ => true
  }

  lemma PinnedGrows(b: Backend, allowed: map<Role, Body>, d: Disk, e: Disk, pin: Pin)
    requires Pinned(d, pin) && Grows(d, e) && Adds(b, allowed, d, e)
    requires AppRoleName(pin.key.appId) in allowed ==> Keeps(allowed[AppRoleName(pin.key.appId)], pin)
    requires TARGETS in allowed ==> Leads(allowed[TARGETS], pin)
    ensures Pinned(e, pin)
  {
    hide Keeps, Leads, Names;
    var role := AppRoleName(pin.key.appId);
    AppRoleIsNotTop(pin.key.appId);
    forall v: nat | v >= pin.listedFrom && Versioned(role, v) in e.files
      ensures Keeps(e.files[Versioned(role, v)].body, pin) {
      assert RoleOf(Versioned(role, v)) == role;
    }
    forall v: nat | v >= pin.topFrom && Versioned(TARGETS, v) in e.files
      ensures Leads(e.files[Versioned(TARGETS, v)].body, pin) {
      assert RoleOf(Versioned(TARGETS, v)) == TARGETS;
    }
  }

  lemma NewestIsPinned(s: State, pin: Pin)
    requires Inv(s) && Pinned(s.disk, pin)
    ensures Keeps(Targets(s, AppRoleName(pin.key.appId)), pin) && Leads(Targets(s, TARGETS), pin)
    ensures Open(s, TARGETS).body == Targets(s, TARGETS)
  {
    var role := AppRoleName(pin.key.appId);
    AppRoleIsNotTop(pin.key.appId);
    NewestOpens(s, role, pin.listedFrom);
    NewestOpens(s, TARGETS, pin.topFrom);
    hide Inv, Keeps, Leads, Names;
    KeepsIsTargets(Open(s, role).body, pin);
    KeepsIsTargets(Open(s, TARGETS).body, pin);
  }

  /** A role with some file opens at its newest. */
  lemma NewestOpens(s: State, role: Role, v: nat)
    requires Inv(s) && role !in {ROOT, TIMESTAMP} && Versioned(role, v) in s.disk.files
    ensures v <= Version(s.memory, role) && Versioned(role, Version(s.memory, role)) in s.disk.files
    ensures Open(s, role) == s.disk.files[Versioned(role, Version(s.memory, role))]
  {
    hide PayloadsStored, Closed, SnapshotsRise, RolesKnown;
  }

  lemma KeepsIsTargets(body: Body, pin: Pin)
    ensures Keeps(body, pin) || Leads(body, pin) ==> body.TargetsBody?
  {
  }

  lemma IntendedKeeps(b: Backend, s: State, op: Operation, pin: Pin)
    requires Leaves(op, pin.key) && Keeps(Targets(s, AppRoleName(pin.key.appId)), pin)
    requires Leads(Targets(s, TARGETS), pin) && Open(s, TARGETS).body == Targets(s, TARGETS)
    ensures var role := AppRoleName(pin.key.appId);
            role in Intended(b, s, op) ==> Keeps(Intended(b, s, op)[role], pin)
    ensures TARGETS in Intended(b, s, op) ==> Leads(Intended(b, s, op)[TARGETS], pin)
  {
    var role := AppRoleName(pin.key.appId);
    AppRoleIsNotTop(pin.key.appId);
    match op {
      case OpInitialize =>
      case OpAddApp(appId, _) =>
        AppRoleIsNotTop(appId);
        LeadsAfter(Targets(s, TARGETS), DelegationFor(b, appId), pin);
      case OpAddRelease(k, payload, info) =>
        AppRoleIsNotTop(k.appId);
        ReleaseIsNeverPointer(k, ChannelOf(pin.key));
      case OpSetCurrent(k) =>
        AppRoleIsNotTop(k.appId);
        ReleaseIsNeverPointer(pin.key, ChannelOf(k));
        PointersMeet(ChannelOf(k), ChannelOf(pin.key));
      case OpPublish =>
    }
  }

  lemma LeadsAfter(targets: Body, d: Delegation, pin: Pin)
    requires Leads(targets, pin)
    ensures Leads(targets.(delegations := PutDelegation(targets.delegations, d)), pin)
  {
    PutDelegationShape(targets.delegations, d);
    var role := AppRoleName(pin.key.appId);
    var i :| 0 <= i < |targets.delegations| && targets.delegations[i].role == role;
    assert PutDelegation(targets.delegations, d)[i].role == role;
  }

  lemma PerformPins(b: Backend, s: State, op: Operation, pin: Pin)
    requires Inv(s) && Sound(s, op) && Pinned(s.disk, pin) && Leaves(op, pin.key)
    ensures forall j | 0 <= j < |Perform(b, s, op).trail| :: Pinned(Perform(b, s, op).trail[j].disk, pin)
  {
    PerformKeeps(b, s, op);
    PerformAdds(b, s, op);
    NewestIsPinned(s, pin);
    IntendedKeeps(b, s, op, pin);
    hide Inv, Sound, Pinned, Leaves, Perform, Intended, Keeps, Leads, Adds, Grows;
    var trail := Perform(b, s, op).trail;
    forall j | 0 <= j < |trail| ensures Pinned(trail[j].disk, pin) {
      GrowsReflexive(s.disk);
      GrowsAlong(trail, 0, j);
      PinnedGrows(b, Intended(b, s, op), s.disk, trail[j].disk, pin);
    }
  }

  ghost predicate AllLeave(events: seq<Event>, key: TargetKey) {
    forall i | 0 <= i < |events| :: Leaves(events[i].op, key)
  }

  lemma {:induction false} RunPins(s: State, events: seq<Event>, cuts: seq<nat>, trail: seq<State>, pin: Pin)
    requires Inv(s) && Pinned(s.disk, pin) && AllLeave(events, pin.key) && RunOf(s, events, cuts, trail)
    ensures forall i | 0 <= i < |trail| :: Pinned(trail[i].disk, pin)
    decreases |events|
  {
    hide Inv, Pinned, Follows, Perform, Leaves, Sound;
    if events != [] {
      var k, e := cuts[0], events[0];
      PerformPins(e.backend, s, e.op, pin);
      forall i | 0 <= i < k ensures Pinned(trail[i].disk, pin) {
        FollowsDisks(s, e, trail[..k], i);
        assert trail[..k][i] == trail[i];
      }
      FollowsKeeps(s, e, trail[..k]);
      assert Inv(trail[..k][k - 1]);
      RunPins(trail[k - 1], events[1..], cuts[1..], trail[k - 1..], pin);
      forall i | k <= i < |trail| ensures Pinned(trail[i].disk, pin) {
        assert trail[i] == trail[k - 1..][i - (k - 1)];
      }
    }
  }

  // ----------------------------------------------------------------- the offer

  /** What a pinned disk leads a client to. */
  lemma PinnedServes(d: Disk, pin: Pin) returns (v: Served)
    requires DiskOk(d) && Pinned(d, pin)
    ensures Serves(d, AppRoleName(pin.key.appId), v) && v.snapshot.version == v.timestamp.body.snapshot
    ensures Keeps(v.listing.body, pin) && Leads(v.top.body, pin)
  {
    hide PayloadsStored, Keeps, Leads;
    var role := AppRoleName(pin.key.appId);
    AppRoleIsNotTop(pin.key.appId);
    var timestamp := d.files[TimestampJson];
    var n := timestamp.body.snapshot;
    var snapshot := d.files[Versioned(SNAPSHOT, n)];
    var meta := snapshot.body.meta;
    assert Below(d.files[Versioned(SNAPSHOT, pin.snapshotFrom)].body.meta, meta);
    assert NamesFiles(d, meta);
    v := Served(timestamp, snapshot, d.files[Versioned(TARGETS, meta[TARGETS])], d.files[Versioned(role, meta[role])]);
  }

  lemma PinnedIsServed(b: Backend, d: Disk, pin: Pin, v: Served)
    requires Signed(b, d) && Serves(d, AppRoleName(pin.key.appId), v)
    requires Keeps(v.listing.body, pin) && Leads(v.top.body, pin)
    ensures BodyOk(b, TARGETS, v.top.body) && BodyOk(b, AppRoleName(pin.key.appId), v.listing.body)
    ensures Points(v, pin.key, pin.entry)
    ensures FirstDelegated(v, AppRoleName(pin.key.appId)) == (pin.first == AppRoleName(pin.key.appId))
    ensures v.top.body.TargetsBody? && Delegates(v.top.body.delegations, AppRoleName(pin.key.appId))
    ensures exists n | n in d.files :: d.files[n] == v.listing
  {
    var role := AppRoleName(pin.key.appId);
    hide BodyOk, Path, PointerPath;
    assert BodyOk(b, RoleOf(Versioned(TARGETS, v.snapshot.body.meta[TARGETS])), v.top.body);
    assert BodyOk(b, RoleOf(Versioned(role, v.snapshot.body.meta[role])), v.listing.body);
    assert d.files[Versioned(role, v.snapshot.body.meta[role])] == v.listing;
  }

  lemma PinnedAnswers(b: Backend, d: Disk, pin: Pin, c: Client)
    requires DiskOk(d) && Signed(b, d) && Capable(b) && Pinned(d, pin)
    requires Trusts(c, b) && c.channel == ChannelOf(pin.key) && IsAppId(pin.key.appId)
    requires Describes(pin.entry, pin.key.version)
    ensures CheckAt(c, d) == Answered(c, pin.key, pin.entry, pin.first == AppRoleName(pin.key.appId))
  {
    hide Shaped, PayloadsStored, Closed, SnapshotsRise, Signed, Capable, Pinned, Serves, BodyOk, Check,
         FollowPointer, Answered, Points, Keeps, Leads, Delegates, FirstDelegated;
    var v := PinnedServes(d, pin);
    PinnedIsServed(b, d, pin, v);
    CheckServed(b, c, d, v);
    FollowServed(b, c, d, v, pin.key, pin.entry);
  }

  function PinFor(s: State, key: TargetKey, e: Entry, first: Role): Pin {
    Pin(key, e, first, Version(s.memory, AppRoleName(key.appId)), Version(s.memory, TARGETS),
        Version(s.memory, SNAPSHOT))
  }

  lemma AdvertisedIsPinned(s: State, key: TargetKey, e: Entry, first: Role)
    requires Inv(s) && Advertised(s) && IsAppId(key.appId) && AppRoleName(key.appId) in s.memory.appRoles
    requires Version(s.memory, TARGETS) > 0 && Version(s.memory, AppRoleName(key.appId)) > 0
    requires Keeps(Open(s, AppRoleName(key.appId)).body, PinFor(s, key, e, first))
    requires Leads(Open(s, TARGETS).body, PinFor(s, key, e, first))
    ensures Pinned(s.disk, PinFor(s, key, e, first))
  {
    hide Shaped, PayloadsStored, Closed, SnapshotsRise, RolesKnown, Keeps, Leads;
    AppRoleIsNotTop(key.appId);
    assert Names(Open(s, SNAPSHOT).body, PinFor(s, key, e, first));
  }

  /** The role a client's delegation walk looks at, if there is one. */
  function FirstRole(s: State): Role {
    if Targets(s, TARGETS).delegations == [] then "" else Targets(s, TARGETS).delegations[0].role
  }

  lemma KnownRoleIsDelegated(s: State, role: Role)
    requires Inv(s) && role in s.memory.appRoles
    ensures Targets(s, TARGETS).delegations != [] && Delegates(Targets(s, TARGETS).delegations, role)
  {
    hide DiskOk, Newest;
    assert Delegates(Targets(s, TARGETS).delegations, role);
  }

  /** Listing the pointer beside the release is what the pin asks of the newest files. */
  lemma ListingIsKept(s: State, t: State, key: TargetKey)
    requires Lists(s, t, AppRoleName(key.appId), PointerPath(ChannelOf(key)), PointerJson(Path(key), key.version),
                   PointerInfo(key.version))
    requires IsListed(s, key)
    requires Targets(s, TARGETS).delegations != [] && Delegates(Targets(s, TARGETS).delegations, AppRoleName(key.appId))
    ensures var pin := PinFor(t, key, ListedEntry(s, key), FirstRole(s));
            Keeps(Targets(t, AppRoleName(key.appId)), pin) && Leads(Targets(t, TARGETS), pin)
  {
    AppRoleIsNotTop(key.appId);
    ReleaseIsNeverPointer(key, ChannelOf(key));
    assert Open(t, TARGETS) == Open(s, TARGETS);
  }

  lemma SetCurrentPins(b: Backend, ring: Backend, s: State, key: TargetKey)
    requires Ready(ring, s) && CanPoint(s, key) && Holds(b, ring, OpSetCurrent(key))
    ensures var t := Pointed(b, s, key);
            Ready(ring, t) && Pinned(t.disk, PinFor(t, key, ListedEntry(s, key), FirstRole(s)))
  {
    var role := AppRoleName(key.appId);
    AppRoleIsNotTop(key.appId);
    hide Inv, Signed, Capable, Advertised, SetCurrent, BodyOk, Keeps, Leads, Pinned, Lists, Holds;
    SetCurrentEnds(b, ring, s, key);
    KnownRoleIsDelegated(s, role);
    var t := Pointed(b, s, key);
    ListingIsKept(s, t, key);
    TargetsOk(ring, t, role);
    TargetsOk(ring, t, TARGETS);
    ListsIsNewer(s, t, role, PointerPath(ChannelOf(key)), PointerJson(Path(key), key.version),
                 PointerInfo(key.version));
    AdvertisedIsPinned(t, key, ListedEntry(s, key), FirstRole(s));
  }

  lemma ListsIsNewer(s: State, t: State, role: Role, path: string, bytes: Bytes, info: InfoFields)
    requires IsSegment(info.version) && info.rolloutPct <= 100 && Lists(s, t, role, path, bytes, info)
    ensures Version(t.memory, role) > 0 && t.memory.appRoles == s.memory.appRoles
  {
  }

  /**
   Once `set_current(key)` has ended, every check a client of that channel makes, interleaved with any
   later operations of signers and ceremonies on other releases and channels and with their crashes,
   gives this one answer.
   */
  lemma OfferLasts(b: Backend, ring: Backend, s: State, key: TargetKey, c: Client,
                   events: seq<Event>, cuts: seq<nat>, trail: seq<State>, times: seq<nat>)
    requires Ready(ring, s) && CanPoint(s, key) && Holds(b, ring, OpSetCurrent(key))
    requires Trusts(c, ring) && c.channel == ChannelOf(key)
    requires RunOf(Pointed(b, s, key), events, cuts, trail) && AllPartOf(ring, events) && AllLeave(events, key)
    requires Times(times, |trail|)
    ensures var e := ListedEntry(s, key);
            && Describes(e, key.version)
            && Check(c, ViewAt(Disks(trail), times)) == Answered(c, key, e, FirstRole(s) == AppRoleName(key.appId))
  {
    hide DiskOk, Newest, RolesKnown, Signed, Capable, Pinned, SetCurrent, RunOf, Check, Answered, AllLeave, AllPartOf,
         Holds;
    var role := AppRoleName(key.appId);
    ListedIsDescribed(ring, s, key);
    SetCurrentPins(b, ring, s, key);
    var t := Pointed(b, s, key);
    var pin := PinFor(t, key, ListedEntry(s, key), FirstRole(s));
    RunPins(t, events, cuts, trail, pin);
    RunIsSigned(ring, t, events, cuts, trail);
    EveryRunIsGood(t, events, cuts, trail);
    CheckIsAtomic(t, events, cuts, trail, c, times);
    assert Inv(trail[times[0]]);
    PinnedAnswers(ring, trail[times[0]].disk, pin, c);
  }

  /** The answer is the promised one exactly when the client's three limits do not bite. */
  lemma AnswerMeetsPromise(c: Client, key: TargetKey, e: Entry, first: bool)
    requires Describes(e, key.version) && c.channel == ChannelOf(key)
    ensures Answered(c, key, e, first) == Promised(c, key, e) <==>
      if first then |key.version| < DIST_VERSION_CAPACITY && PointerFits(key)
      else Promised(c, key, e) == Ok(None)
  {
  }

  /** What a client is told straight after `set_current`. */
  lemma SetCurrentAnswers(b: Backend, ring: Backend, s: State, key: TargetKey, c: Client)
    requires Ready(ring, s) && CanPoint(s, key) && Holds(b, ring, OpSetCurrent(key))
    requires Trusts(c, ring) && c.channel == ChannelOf(key)
    ensures var e := ListedEntry(s, key);
            && Describes(e, key.version)
            && CheckAt(c, Pointed(b, s, key).disk) == Answered(c, key, e, FirstRole(s) == AppRoleName(key.appId))
  {
    hide DiskOk, Newest, RolesKnown, Signed, Capable, Pinned, SetCurrent, Check, Answered, Holds;
    ListedIsDescribed(ring, s, key);
    SetCurrentPins(b, ring, s, key);
    var t := Pointed(b, s, key);
    PinnedAnswers(ring, t.disk, PinFor(t, key, ListedEntry(s, key), FirstRole(s)), c);
  }

  /** `add_release` then `set_current`: the offer is that payload, by length and digest. */
  lemma ReleaseReachesClient(b: Backend, ring: Backend, s: State, key: TargetKey, payload: Bytes, info: ReleaseInfo,
                             c: Client)
    requires Ready(ring, s) && Accepted(b, s, OpAddRelease(key, payload, info))
    requires Holds(b, ring, OpSetCurrent(key)) && Trusts(c, ring) && c.channel == ChannelOf(key)
    ensures Describes(EntryFor(payload, info), key.version)
    ensures var s1 := Final(AddRelease(b, s, key, payload, info));
            && Ready(ring, s1) && CanPoint(s1, key)
            && CheckAt(c, Pointed(b, s1, key).disk)
               == Answered(c, key, EntryFor(payload, info), FirstRole(s) == AppRoleName(key.appId))
  {
    var role := AppRoleName(key.appId);
    AppRoleIsNotTop(key.appId);
    SameHands(b, ring, key, payload, info);
    hide Ready, Advertised, AddRelease, SetCurrent, Check, Answered, Holds;
    AddReleaseEnds(b, ring, s, key, payload, info);
    var s1 := Final(AddRelease(b, s, key, payload, info));
    assert Open(s1, TARGETS) == Open(s, TARGETS);
    SetCurrentAnswers(b, ring, s1, key, c);
  }

  /** Listing a release and pointing at it take the same keys. */
  lemma SameHands(b: Backend, ring: Backend, key: TargetKey, payload: Bytes, info: ReleaseInfo)
    ensures Holds(b, ring, OpSetCurrent(key)) == Holds(b, ring, OpAddRelease(key, payload, info))
  {
  }

  /** Pointing a channel leaves its releases listed as they were. */
  lemma PointingKeepsReleases(s: State, t: State, newer: TargetKey, older: TargetKey)
    requires Lists(s, t, AppRoleName(newer.appId), PointerPath(ChannelOf(newer)),
                   PointerJson(Path(newer), newer.version), PointerInfo(newer.version))
    requires newer.appId == older.appId && CanPoint(s, older)
    ensures CanPoint(t, older) && ListedEntry(t, older) == ListedEntry(s, older) && FirstRole(t) == FirstRole(s)
  {
    AppRoleIsNotTop(older.appId);
    ReleaseIsNeverPointer(older, ChannelOf(newer));
    assert Open(t, TARGETS) == Open(s, TARGETS);
    hide Open, Path, PointerPath;
  }

  /** Rolling a channel back is `set_current` with an older key: the older release is offered as it was published. */
  lemma SwitchesBack(b: Backend, ring: Backend, s: State, newer: TargetKey, older: TargetKey, c: Client)
    requires Ready(ring, s) && CanPoint(s, newer) && CanPoint(s, older) && Holds(b, ring, OpSetCurrent(newer))
    requires ChannelOf(newer) == ChannelOf(older) == c.channel && Trusts(c, ring)
    ensures var e, s1 := ListedEntry(s, older), Pointed(b, s, newer);
            && Ready(ring, s1) && CanPoint(s1, older) && Describes(e, older.version)
            && CheckAt(c, Pointed(b, s1, older).disk) == Answered(c, older, e, FirstRole(s) == AppRoleName(older.appId))
  {
    hide Ready, Advertised, SetCurrent, Check, Answered, Lists, CanPoint, FirstRole, Trusts;
    SetCurrentEnds(b, ring, s, newer);
    PointingKeepsReleases(s, Pointed(b, s, newer), newer, older);
    SetCurrentAnswers(b, ring, Pointed(b, s, newer), older, c);
  }

  // ------------------------------------------------------------- from scratch

  /** A repository from nothing: initialised, one application delegated, then another. */
  function TwoApps(b: Backend, first: string, second: string): State {
    var s0 := Final(Initialize(b, EMPTY));
    var s1 := Final(AddApp(b, s0, first, false));
    Final(AddApp(b, s1, second, false))
  }

  lemma StartsEmpty(b: Backend)
    ensures Inv(EMPTY) && Signed(b, EMPTY.disk) && Version(EMPTY.memory, ROOT) == 0
    ensures Targets(EMPTY, TARGETS).delegations == []
  {
    EmptyIsFine();
  }

  lemma FirstStaysFirst(b: Backend, s: State, appId: string)
    ensures var roles := PutDelegation(Targets(s, TARGETS).delegations, DelegationFor(b, appId));
            && roles != []
            && roles[0].role == if Targets(s, TARGETS).delegations == [] then AppRoleName(appId)
                                else Targets(s, TARGETS).delegations[0].role
  {
    PutDelegationShape(Targets(s, TARGETS).delegations, DelegationFor(b, appId));
    PutDelegationMembers(Targets(s, TARGETS).delegations, DelegationFor(b, appId), AppRoleName(appId));
  }

  lemma AddAppKeepsFirst(b: Backend, s: State, appId: string)
    requires Ready(b, s) && IsAppId(appId) && KeyIds(b, AppRoleName(appId)) != {}
    ensures var t := Final(AddApp(b, s, appId, false));
            && Ready(b, t) && AppRoleName(appId) in t.memory.appRoles
            && FirstRole(t) == if FirstRole(s) == "" then AppRoleName(appId) else FirstRole(s)
  {
    AddAppEnds(b, b, s, appId, false);
    FirstStaysFirst(b, s, appId);
    NoEmptyRole(b, s);
    hide Ready, Advertised, AddApp, Targets, PutDelegation;
  }

  lemma NoEmptyRole(b: Backend, s: State)
    requires Ready(b, s)
    ensures FirstRole(s) == "" <==> Targets(s, TARGETS).delegations == []
  {
    hide Inv, Capable;
    TargetsOk(b, s, TARGETS);
    if Targets(s, TARGETS).delegations != [] {
      assert IsAppDelegation(Targets(s, TARGETS).delegations[0]);
    }
  }

  lemma TwoAppsReady(b: Backend, first: string, second: string)
    requires Capable(b) && IsAppId(first) && IsAppId(second)
    requires KeyIds(b, AppRoleName(first)) != {} && KeyIds(b, AppRoleName(second)) != {}
    ensures var s := TwoApps(b, first, second);
            Ready(b, s) && AppRoleName(second) in s.memory.appRoles && FirstRole(s) == AppRoleName(first)
  {
    hide Ready, Inv, Signed, Capable, Initialize, AddApp, Targets, Advertised, KeyIds;
    StartsEmpty(b);
    InitializeEnds(b, b, EMPTY);
    var s0 := Final(Initialize(b, EMPTY));
    AddAppKeepsFirst(b, s0, first);
    var s1 := Final(AddApp(b, s0, first, false));
    AddAppKeepsFirst(b, s1, second);
  }

  /**
   The whole story, from an empty disk: a ceremony initialises and adds two applications; the signer
   publishes a release of the second and points its channel at it. The offer arrives if the two are one
   and the same; if they are not, the client is told there is nothing, however the release was published.
   */
  lemma SecondAppIsNeverOffered(b: Backend, ring: Backend, first: string, key: TargetKey, payload: Bytes,
                                info: ReleaseInfo, c: Client)
    requires Capable(ring) && IsAppId(first) && IsAppId(key.appId) && info.version == key.version
    requires KeyIds(ring, AppRoleName(first)) != {} && KeyIds(ring, AppRoleName(key.appId)) != {}
    requires Holds(b, ring, OpSetCurrent(key)) && Trusts(c, ring) && c.channel == ChannelOf(key)
    ensures Describes(EntryFor(payload, info), key.version)
    ensures var s := TwoApps(ring, first, key.appId);
            CheckAt(c, Pointed(b, Final(AddRelease(b, s, key, payload, info)), key).disk)
              == Answered(c, key, EntryFor(payload, info), first == key.appId)
  {
    hide Ready, Capable, TwoApps, Check, Answered, Pointed, KeyIds, FirstRole, Holds;
    TwoAppsReady(ring, first, key.appId);
    var s := TwoApps(ring, first, key.appId);
    SameAppSameRole(first, key.appId);
    assert Accepted(b, s, OpAddRelease(key, payload, info));
    ReleaseReachesClient(b, ring, s, key, payload, info, c);
  }

  lemma SameAppSameRole(a: string, b: string)
    ensures AppRoleName(a) == AppRoleName(b) <==> a == b
  {
    assert AppRoleName(a)[4..] == a && AppRoleName(b)[4..] == b;
  }
}

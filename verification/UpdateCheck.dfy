/**
 `UpdateCheck.run` (update.py), read against a disk that may move under it.

 `view[i]` is the published directory as it stood when the check made its `i`-th fetch.
 */
module UpdateCheck {
  import opened Text
  import opened Naming
  import opened Metadata
  import opened Rollout
  import opened Patterns
  import opened Verifier
  import P = Publisher
  import opened PublisherSafety
  import R = PublisherRuns

  const MAX_POINTER_BYTES := 64 * 1024
  const FETCHES := 5

  datatype CheckError =
    | FetchFailed
    | Refused(error: VerifyError)
    | NoSnapshotVersion
    | NoTargetsVersion
    | PointerTooLarge
    | PointerNotJson
    | RedirectRefused
    | UnknownRelease
    | VersionDisagrees

  datatype Available = Available(version: string, targetPath: string, info: TargetInfo)

  /** What an application knows about itself. */
  datatype Client = Client(root: Doc, channel: ChannelFields, sha: Rollout.Hash, installId: string)

  type Answer = Result<Option<Available>, CheckError>

  function ChannelRole(c: ChannelFields): Role {
    AppRoleName(c.appId)
  }

  function Checked<T>(r: Result<T, VerifyError>): Result<T, CheckError> {
    match r
    case Ok(t) => Ok(t)
    case Err(e) => Err(Refused(e))
  }

  function FetchFile(d: Disk, name: FileName): Result<Doc, CheckError> {
    if name in d.files then Ok(d.files[name]) else Err(FetchFailed)
  }

  function FetchPayload(d: Disk, path: string, digest: Digest): Result<Bytes, CheckError> {
    if PayloadName(path, digest) in d.payloads then Ok(d.payloads[PayloadName(path, digest)]) else Err(FetchFailed)
  }

  // --------------------------------------------------------------- the check

  /** The metadata half: trust after timestamp, snapshot and targets, always from the shipped root. */
  function Refresh(root: Doc, view: seq<Disk>): Result<Trust, CheckError>
    requires |view| == FETCHES
  {
    var t0 :- Checked(Bootstrap(root));
    RefreshOn(t0, view)
  }

  function RefreshOn(t0: Trust, view: seq<Disk>): Result<Trust, CheckError>
    requires |view| == FETCHES
  {
    var timestamp :- FetchFile(view[0], TimestampJson);
    var t1 :- Checked(AcceptTimestamp(t0, timestamp));
    match SnapshotVersion(t1)
    case None => Err(NoSnapshotVersion)
    case Some(v) =>
      var snapshot :- FetchFile(view[1], Versioned(SNAPSHOT, v));
      var t2 :- Checked(AcceptSnapshot(t1, snapshot));
      match TargetsVersion(t2, TARGETS)
      case None => Err(NoTargetsVersion)
      case Some(w) =>
        var targets :- FetchFile(view[2], Versioned(TARGETS, w));
        Checked(AcceptTargets(t2, targets))
  }

  function Check(c: Client, view: seq<Disk>): Answer
    requires |view| == FETCHES
  {
    var t :- Refresh(c.root, view);
    match TargetsVersion(t, ChannelRole(c.channel))
    case None => Ok(None)
    case Some(v) =>
      var doc :- FetchFile(view[3], Versioned(ChannelRole(c.channel), v));
      var t' :- Checked(AcceptDelegated(t, ChannelRole(c.channel), doc));
      FollowPointer(c, t', view[4])
  }

  /** The channel pointer, if the trusted metadata lists one. */
  function FollowPointer(c: Client, t: Trust, d: Disk): Answer {
    var path := PointerPath(c.channel);
    if Target(t, path) == Err(UnknownTarget) then Ok(None)
    else
      var info :- Checked(Target(t, path));
      var bytes :- FetchPayload(d, path, info.digest);
      var _ :- Checked(VerifyPayload(info, bytes));
      if bytes.length > MAX_POINTER_BYTES then Err(PointerTooLarge)
      else if bytes.pointer.None? then Err(PointerNotJson)
      else Resolve(c, t, bytes.pointer.value)
  }

  function Resolve(c: Client, t: Trust, pointer: CurrentRelease): Answer {
    if !StartsWith(pointer.targetPath, Prefix(c.channel)) then Err(RedirectRefused)
    else if Target(t, pointer.targetPath) == Err(UnknownTarget) then Err(UnknownRelease)
    else
      var info :- Checked(Target(t, pointer.targetPath));
      if info.version != pointer.version then Err(VersionDisagrees)
      else
        match InRolloutServer(c.sha, c.installId, c.channel.appId, info.rolloutPct)
        case Some(true) => Ok(Some(Available(pointer.version, pointer.targetPath, info)))
        case _ => Ok(None)
  }

  /** The check run in no time at all. */
  function CheckAt(c: Client, d: Disk): Answer {
    Check(c, Still(d))
  }

  function Still(d: Disk): (view: seq<Disk>)
    ensures |view| == FETCHES && forall i | 0 <= i < FETCHES :: view[i] == d
  {
    [d, d, d, d, d]
  }

  // ------------------------------------------------------------- two checks in a row

  lemma TrustsFetchedTimestamp(root: Doc, view: seq<Disk>)
    requires |view| == FETCHES && Refresh(root, view).Ok?
    ensures var t := Refresh(root, view).value;
            && t.root == root && TimestampJson in view[0].files && t.timestamp == Some(view[0].files[TimestampJson])
            && t.timestamp.value.body.TimestampBody? && SignedBy(t.timestamp.value, KeysIn(root, TIMESTAMP))
  {
    hide SignedBy, KeysIn;
  }

  /**
   A check carries nothing over to the next: the second trusts whatever signed timestamp it is served. A
   client that kept its trust would have refused that very view exactly when its timestamp is behind the
   first check's; over a disk that only moved on since, it never is.
   */
  lemma SecondCheckFallsBackIff(root: Doc, first: seq<Disk>, second: seq<Disk>)
    requires |first| == FETCHES && |second| == FETCHES && Refresh(root, first).Ok? && Refresh(root, second).Ok?
    ensures var t, u := Refresh(root, first).value, Refresh(root, second).value;
            && t.timestamp.Some? && u.timestamp.Some?
            && (u.timestamp.value.version < t.timestamp.value.version <==>
                  RefreshOn(t, second) == Err(Refused(Rejected(TIMESTAMP))))
            && (Grows(first[0], second[0]) ==> t.timestamp.value.version <= u.timestamp.value.version)
  {
    TrustsFetchedTimestamp(root, first);
    TrustsFetchedTimestamp(root, second);
    hide SignedBy, KeysIn, Refresh;
    var t := Refresh(root, first).value;
    if second[0].files[TimestampJson].version >= t.timestamp.value.version {
      LaterStepsRefuseOthers(t, second);
    }
  }

  lemma LaterStepsRefuseOthers(t: Trust, view: seq<Disk>)
    requires |view| == FETCHES && TimestampJson in view[0].files && AcceptTimestamp(t, view[0].files[TimestampJson]).Ok?
    ensures RefreshOn(t, view) != Err(Refused(Rejected(TIMESTAMP)))
  {
    hide SignedBy, KeysIn, AcceptTimestamp;
  }

  /** The disk with another version on its timestamp, by the same signers. */
  function Restamped(d: Disk, version: nat): Disk
    requires TimestampJson in d.files
  {
    d.(files := d.files[TimestampJson := d.files[TimestampJson].(version := version)])
  }

  /** It happens: over any disk a check accepts, the same disk under an older signed timestamp is accepted next. */
  lemma OlderTimestampIsTaken(root: Doc, d: Disk, version: nat)
    requires Refresh(root, Still(d)).Ok? && version < d.files[TimestampJson].version
    ensures Refresh(root, Still(Restamped(d, version))).Ok?
    ensures RefreshOn(Refresh(root, Still(d)).value, Still(Restamped(d, version))) == Err(Refused(Rejected(TIMESTAMP)))
  {
    hide KeysIn;
  }

  /** A disk that a root of one key accepts. */
  function SmallDisk(): Disk {
    Disk(map[TimestampJson := Doc(2, {"k"}, TimestampBody(1)),
             Versioned(SNAPSHOT, 1) := Doc(1, {"k"}, SnapshotBody(map[TARGETS := 1])),
             Versioned(TARGETS, 1) := Doc(1, {"k"}, TargetsBody(map[], []))], map[])
  }

  function SmallRoot(): Doc {
    Doc(1, {"k"}, RootBody(map role | role in TOP_LEVEL_ROLES :: RoleKeys({"k"}, 1), true))
  }

  lemma SmallDiskIsAccepted()
    ensures Refresh(SmallRoot(), Still(SmallDisk())).Ok? && SmallDisk().files[TimestampJson].version == 2
  {
    assert {"k"} * {"k"} == {"k"};
  }

  // ------------------------------------------------------- what an offer rests on

  /** The four documents a check reads for one role, before the pointer. */
  datatype Served = Served(timestamp: Doc, snapshot: Doc, top: Doc, listing: Doc)

  function Trusted(root: Doc, role: Role, v: Served): Trust {
    Trust(root, Some(v.timestamp), Some(v.snapshot), Some(v.top), map[role := v.listing])
  }

  /** What is served under the names the timestamp leads to, one fetch each. Nothing is checked here. */
  function Fetched(role: Role, view: seq<Disk>): Option<Served>
    requires |view| == FETCHES
  {
    if TimestampJson !in view[0].files || !view[0].files[TimestampJson].body.TimestampBody? then None
    else
      var timestamp := view[0].files[TimestampJson];
      var name := Versioned(SNAPSHOT, timestamp.body.snapshot);
      if name !in view[1].files || !view[1].files[name].body.SnapshotBody? then None
      else
        var snapshot := view[1].files[name];
        var meta := snapshot.body.meta;
        if TARGETS !in meta || Versioned(TARGETS, meta[TARGETS]) !in view[2].files then None
        else if role !in meta || Versioned(role, meta[role]) !in view[3].files then None
        else
          Some(Served(timestamp, snapshot, view[2].files[Versioned(TARGETS, meta[TARGETS])],
                      view[3].files[Versioned(role, meta[role])]))
  }

  /** Timestamp, snapshot and top-level targets signed under the root, each at the version the one above names. */
  ghost predicate TopSigned(root: Doc, v: Served) {
    && root.body.RootBody? && SignedBy(root, KeysIn(root, ROOT))
    && v.timestamp.body.TimestampBody? && SignedBy(v.timestamp, KeysIn(root, TIMESTAMP))
    && v.snapshot.body.SnapshotBody? && SignedBy(v.snapshot, KeysIn(root, SNAPSHOT))
    && v.snapshot.version == v.timestamp.body.snapshot
    && v.top.body.TargetsBody? && SignedBy(v.top, KeysIn(root, TARGETS))
    && TARGETS in v.snapshot.body.meta && v.top.version == v.snapshot.body.meta[TARGETS]
  }

  /** The role's listing signed by the keys those targets delegate it to, at the version the snapshot names. */
  ghost predicate ListingSigned(role: Role, v: Served) {
    && v.listing.body.TargetsBody?
    && role in MetaOf(v.snapshot) && v.listing.version == MetaOf(v.snapshot)[role]
    && FindDelegation(DelegationsOf(v.top), role).Some?
    && SignedBy(v.listing, FindDelegation(DelegationsOf(v.top), role).value.keys)
  }

  /** The check gets as far as the channel pointer, trusting `t`. */
  ghost predicate ReachesPointer(c: Client, view: seq<Disk>, t: Trust)
    requires |view| == FETCHES
  {
    && Refresh(c.root, view).Ok?
    && TargetsVersion(Refresh(c.root, view).value, ChannelRole(c.channel)).Some?
    && var role, u := ChannelRole(c.channel), Refresh(c.root, view).value;
       var doc := FetchFile(view[3], Versioned(role, TargetsVersion(u, role).value));
       doc.Ok? && AcceptDelegated(u, role, doc.value) == Ok(t)
  }

  lemma RefreshMeans(root: Doc, role: Role, view: seq<Disk>, v: Served)
    requires |view| == FETCHES && Fetched(role, view) == Some(v)
    ensures Refresh(root, view).Ok? <==> TopSigned(root, v)
    ensures TopSigned(root, v) ==> Refresh(root, view) == Ok(Trusted(root, role, v).(delegations := map[]))
  {
    hide SignedBy, KeysIn;
  }

  /** A refreshed trust that names the role, and a fetch of that name, leave nothing to be missing. */
  lemma RefreshFetches(root: Doc, role: Role, view: seq<Disk>)
    requires |view| == FETCHES && Refresh(root, view).Ok?
    requires TargetsVersion(Refresh(root, view).value, role).Some?
    requires FetchFile(view[3], Versioned(role, TargetsVersion(Refresh(root, view).value, role).value)).Ok?
    ensures Fetched(role, view).Some?
  {
    hide SignedBy, KeysIn;
  }

  lemma DelegatedMeans(root: Doc, role: Role, v: Served)
    requires v.snapshot.body.SnapshotBody?
    ensures var t := Trusted(root, role, v).(delegations := map[]);
            && (AcceptDelegated(t, role, v.listing).Ok? <==> ListingSigned(role, v))
            && (ListingSigned(role, v) ==> AcceptDelegated(t, role, v.listing) == Ok(Trusted(root, role, v)))
  {
    hide SignedBy, FindDelegation;
  }

  /**
   Whatever the disks hold, tampered with or not: a check comes to trust exactly the four documents served
   under the names the timestamp leads to, and exactly when each is signed by the keys the client's root or
   those targets give its role, at the version the document above names.
   */
  lemma TrustsExactlyWhatIsSigned(c: Client, view: seq<Disk>, t: Trust)
    requires |view| == FETCHES
    ensures ReachesPointer(c, view, t) <==>
              var role := ChannelRole(c.channel);
              && Fetched(role, view).Some?
              && TopSigned(c.root, Fetched(role, view).value) && ListingSigned(role, Fetched(role, view).value)
              && t == Trusted(c.root, role, Fetched(role, view).value)
  {
    var role := ChannelRole(c.channel);
    if Fetched(role, view).Some? {
      var v := Fetched(role, view).value;
      RefreshMeans(c.root, role, view, v);
      FetchedNames(role, view, v);
      DelegatedMeans(c.root, role, v);
    }
    hide Refresh, Fetched, TopSigned, ListingSigned, AcceptDelegated;
    if ReachesPointer(c, view, t) { RefreshFetches(c.root, role, view); }
  }

  lemma FetchedNames(role: Role, view: seq<Disk>, v: Served)
    requires |view| == FETCHES && Fetched(role, view) == Some(v)
    ensures v.snapshot.body.SnapshotBody? && role in v.snapshot.body.meta
    ensures FetchFile(view[3], Versioned(role, v.snapshot.body.meta[role])) == Ok(v.listing)
  {
  }

  /**
   What a kept trust asks of newer documents: a timestamp no older than its own, and under an unchanged snapshot
   no older targets; a version it already holds must be the document it holds.
   */
  ghost predicate MayCatchUp(t: Trust, role: Role, v: Served)
    requires v.timestamp.body.TimestampBody?
  {
    var same := t.snapshot.Some? && t.snapshot.value.version == v.timestamp.body.snapshot;
    && (t.timestamp.Some? ==> t.timestamp.value.version < v.timestamp.version || t.timestamp.value == v.timestamp)
    && (t.timestamp == Some(v.timestamp) && t.snapshot.Some? ==>
          t.snapshot.value.version <= v.timestamp.body.snapshot)
    && (same ==> t.snapshot.value == v.snapshot)
    && (t.targets.Some? ==>
          && (same ==> t.targets.value.version <= v.top.version)
          && (t.targets.value.version == v.top.version ==> t.targets.value == v.top))
    && (role in t.delegations ==>
          && (same ==> t.delegations[role].version <= v.listing.version)
          && (t.delegations[role].version == v.listing.version ==> t.delegations[role] == v.listing))
  }

  lemma KeptRefresh(t: Trust, role: Role, view: seq<Disk>, v: Served)
    requires |view| == FETCHES && Fetched(role, view) == Some(v)
    requires TopSigned(t.root, v) && ListingSigned(role, v) && MayCatchUp(t, role, v)
    ensures RefreshOn(t, view).Ok?
    ensures var u := RefreshOn(t, view).value;
            && u == Trusted(t.root, role, v).(delegations := u.delegations) && u.delegations.Keys <= t.delegations.Keys
            && (forall other | other in u.delegations :: u.delegations[other] == t.delegations[other])
            && (role in u.delegations && u.delegations[role] != v.listing ==>
                  u.delegations[role].version < v.listing.version)
  {
    hide SignedBy, KeysIn, FindDelegation;
  }

  lemma KeptDelegated(u: Trust, root: Doc, role: Role, v: Served)
    requires TopSigned(root, v) && ListingSigned(role, v) && u == Trusted(root, role, v).(delegations := u.delegations)
    requires role in u.delegations && u.delegations[role] != v.listing ==>
               u.delegations[role].version < v.listing.version
    ensures AcceptDelegated(u, role, v.listing) == Ok(u.(delegations := u.delegations[role := v.listing]))
  {
    hide SignedBy, KeysIn, FindDelegation;
    if role in u.delegations && u.delegations[role] == v.listing {
      assert u.delegations[role := v.listing] == u.delegations;
    }
  }

  /** Catching up is starting over: a kept trust comes to hold what a fresh one would, whatever it held before. */
  lemma KeptTrustCatchesUp(t: Trust, role: Role, view: seq<Disk>, v: Served)
    requires |view| == FETCHES && Fetched(role, view) == Some(v)
    requires TopSigned(t.root, v) && ListingSigned(role, v) && MayCatchUp(t, role, v)
    ensures RefreshOn(t, view).Ok?
    ensures var u := RefreshOn(t, view).value;
            && u == Trusted(t.root, role, v).(delegations := u.delegations)
            && AcceptDelegated(u, role, v.listing) == Ok(Trusted(t.root, role, v).(
                 delegations := u.delegations[role := v.listing]))
  {
    hide Fetched, RefreshOn, AcceptDelegated, TopSigned, ListingSigned, MayCatchUp;
    KeptRefresh(t, role, view, v);
    KeptDelegated(RefreshOn(t, view).value, t.root, role, v);
  }

  /** The entry those documents list for a path: the top-level targets come first. */
  function EntryIn(v: Served, path: string): Option<Entry> {
    if path in TargetsOf(v.top) then Some(TargetsOf(v.top)[path])
    else if path in TargetsOf(v.listing) then Some(TargetsOf(v.listing)[path])
    else None
  }

  /** What is reported is what the entry says: bytes by length and digest, and the signed release info. */
  predicate Conveys(e: Entry, info: TargetInfo) {
    && info.length == e.length && info.digest == e.digest && ReadCustom(e.custom).Ok?
    && var signed := ReadCustom(e.custom).value;
       info.version == signed.version && info.rolloutPct == signed.rolloutPct && info.mandatory == signed.mandatory
  }

  lemma TargetConveys(root: Doc, role: Role, v: Served, path: string)
    requires Target(Trusted(root, role, v), path).Ok?
    ensures EntryIn(v, path).Some? && Conveys(EntryIn(v, path).value, Target(Trusted(root, role, v), path).value)
  {
    hide Lookup, ParsePath, SafePath;
    FoundIsListed(map[role := v.listing], false, path, DelegationsOf(v.top), [], {});
  }

  /** What following a pointer can offer, from any trust and any disk. */
  lemma FollowOffers(c: Client, t: Trust, d: Disk)
    requires FollowPointer(c, t, d).Ok? && FollowPointer(c, t, d).value.Some?
    ensures var a, path := FollowPointer(c, t, d).value.value, PointerPath(c.channel);
            && StartsWith(a.targetPath, Prefix(c.channel)) && Target(t, a.targetPath) == Ok(a.info)
            && a.info.version == a.version
            && InRolloutServer(c.sha, c.installId, c.channel.appId, a.info.rolloutPct) == Some(true)
            && Target(t, path).Ok? && PayloadName(path, Target(t, path).value.digest) in d.payloads
            && Target(t, path).value.digest.of.pointer == Some(CurrentRelease(a.targetPath, a.version))
  {
    hide Target, Prefix, PointerPath;
  }

  /**
   An offer rests on those four signed documents alone. The pointer's digest, which they list, fixes the path
   and version offered; the entry they list for that path gives every field of the offer; the path is inside
   the channel and the install inside the signed rollout slice.
   */
  lemma EveryOfferIsEndorsed(c: Client, view: seq<Disk>)
    requires |view| == FETCHES && Check(c, view).Ok? && Check(c, view).value.Some?
    ensures var a, role := Check(c, view).value.value, ChannelRole(c.channel);
            && Fetched(role, view).Some?
            && var v := Fetched(role, view).value;
               && TopSigned(c.root, v) && ListingSigned(role, v)
               && EntryIn(v, PointerPath(c.channel)).Some?
               && EntryIn(v, PointerPath(c.channel)).value.digest.of.pointer
                  == Some(CurrentRelease(a.targetPath, a.version))
               && StartsWith(a.targetPath, Prefix(c.channel)) && IsPlainPath(a.targetPath)
               && EntryIn(v, a.targetPath).Some? && Conveys(EntryIn(v, a.targetPath).value, a.info)
               && a.info.version == a.version
               && InRolloutServer(c.sha, c.installId, c.channel.appId, a.info.rolloutPct) == Some(true)
  {
    var t := PointerTrust(c, view);
    TrustsExactlyWhatIsSigned(c, view, t);
    hide Check, FollowPointer, Prefix, PointerPath, Target, TopSigned, ListingSigned, Fetched, ReachesPointer, EntryIn,
         Conveys, InRolloutServer, IsPlainPath;
    var role := ChannelRole(c.channel);
    var v := Fetched(role, view).value;
    FollowOffers(c, t, view[4]);
    TargetsArePlain(t, Check(c, view).value.value.targetPath);
    TargetConveys(c.root, role, v, PointerPath(c.channel));
    TargetConveys(c.root, role, v, Check(c, view).value.value.targetPath);
    assert Conveys(EntryIn(v, PointerPath(c.channel)).value, Target(t, PointerPath(c.channel)).value);
    ConveysDigest(EntryIn(v, PointerPath(c.channel)).value, Target(t, PointerPath(c.channel)).value);
  }

  /** Five segments, no empty or dotted one, and no character that any filesystem keeps for itself. */
  predicate IsPlainPath(path: string) {
    && |Split(path, '/')| == 5 && "" !in Split(path, '/') && "." !in Split(path, '/') && ".." !in Split(path, '/')
    && forall c | c in path :: c !in ":\\<>\"|?*" && c as int >= 32 && c as int != 127
  }

  /** Nothing is described, and so nothing offered, under any other kind of path, whoever signed it. */
  lemma TargetsArePlain(t: Trust, path: string)
    requires Target(t, path).Ok?
    ensures IsPlainPath(path)
  {
    ParseAccepts(path);
    hide Describe, ParsePath;
    forall c | c in path ensures c !in ":\\<>\"|?*" && c as int >= 32 && c as int != 127 {
      var i :| 0 <= i < |path| && path[i] == c;
      assert !IllegalChar(path[i]);
    }
  }

  /** The bytes the signed digest describes are there, and are a pointer document of at most 64 KiB to `target`. */
  ghost predicate PointsAt(c: Client, t: Trust, d: Disk, target: string, version: string) {
    && Target(t, PointerPath(c.channel)).Ok?
    && var info := Target(t, PointerPath(c.channel)).value;
       && PayloadName(PointerPath(c.channel), info.digest) in d.payloads
       && d.payloads[PayloadName(PointerPath(c.channel), info.digest)] == info.digest.of
       && info.digest.of.length == info.length <= 65536
       && info.digest.of.pointer == Some(CurrentRelease(target, version))
  }

  /** And `target` is inside the channel, and described at that very version. */
  ghost predicate LeadsTo(c: Client, t: Trust, d: Disk, target: string, version: string) {
    && PointsAt(c, t, d, target, version)
    && Prefix(c.channel) <= target && Target(t, target).Ok? && Target(t, target).value.version == version
  }

  predicate InSlice(c: Client, pct: nat) {
    InRolloutServer(c.sha, c.installId, c.channel.appId, pct) == Some(true)
  }

  /** No pointer is described, or it leads to a release whose slice the install is not in. */
  ghost predicate Silent(c: Client, t: Trust, d: Disk) {
    || Target(t, PointerPath(c.channel)) == Err(UnknownTarget)
    || exists target, version ::
         LeadsTo(c, t, d, target, version) && !InSlice(c, Target(t, target).value.rolloutPct)
  }

  /** From any trust and over any disk: exactly when a pointer leads to an offer, and exactly when to silence. */
  lemma FollowMeans(c: Client, t: Trust, d: Disk, a: Available)
    ensures FollowPointer(c, t, d) == Ok(Some(a)) <==>
              && LeadsTo(c, t, d, a.targetPath, a.version)
              && Target(t, a.targetPath) == Ok(a.info) && InSlice(c, a.info.rolloutPct)
    ensures FollowPointer(c, t, d) == Ok(None) <==> Silent(c, t, d)
  {
    hide Target, Prefix, PointerPath, InSlice;
    var path := PointerPath(c.channel);
    if Target(t, path).Ok? && PayloadName(path, Target(t, path).value.digest) in d.payloads {
      var info, bytes := Target(t, path).value, d.payloads[PayloadName(path, Target(t, path).value.digest)];
      OnlyDescribedBytesVerify(info, bytes);
      if bytes.pointer.Some? {
        var pointer := bytes.pointer.value;
        assert LeadsTo(c, t, d, pointer.targetPath, pointer.version) <==>
                 && PointsAt(c, t, d, pointer.targetPath, pointer.version)
                 && Prefix(c.channel) <= pointer.targetPath && Target(t, pointer.targetPath).Ok?
                 && Target(t, pointer.targetPath).value.version == pointer.version;
        if Target(t, pointer.targetPath).Ok? { SlicesAlike(c, t, pointer); }
      }
    }
  }

  /**
   "Nothing to offer" is never the sign of a broken, missing or redirected pointer: a check answers so exactly when
   the signed snapshot does not name its application's role, or the signed documents describe no pointer of its
   channel, or the pointer leads to a release of the channel and the install is outside that release's slice.
   */
  lemma SilenceMeans(c: Client, view: seq<Disk>)
    requires |view| == FETCHES
    ensures Check(c, view) == Ok(None) <==>
              || (Refresh(c.root, view).Ok?
                  && TargetsVersion(Refresh(c.root, view).value, ChannelRole(c.channel)).None?)
              || exists t :: ReachesPointer(c, view, t) && Silent(c, t, view[4])
  {
    hide Refresh, AcceptDelegated, FollowPointer, Silent;
    forall t ensures FollowPointer(c, t, view[4]) == Ok(None) <==> Silent(c, t, view[4]) {
      FollowMeans(c, t, view[4], Available("", "", TargetInfo("", 0, Sha256(Bytes(0, None, [])), 0, false)));
    }
    if Refresh(c.root, view).Ok? && TargetsVersion(Refresh(c.root, view).value, ChannelRole(c.channel)).Some? {
      CheckFollows(c, view);
    }
  }

  /** A check that gets past its snapshot answers by the channel it follows, from the trust it reached. */
  lemma CheckFollows(c: Client, view: seq<Disk>)
    requires |view| == FETCHES && Refresh(c.root, view).Ok?
    requires TargetsVersion(Refresh(c.root, view).value, ChannelRole(c.channel)).Some?
    ensures (exists t :: ReachesPointer(c, view, t)) || Check(c, view).Err?
    ensures forall t | ReachesPointer(c, view, t) :: Check(c, view) == FollowPointer(c, t, view[4])
  {
    hide Refresh, AcceptDelegated, FollowPointer;
    var role, u := ChannelRole(c.channel), Refresh(c.root, view).value;
    var doc := FetchFile(view[3], Versioned(role, TargetsVersion(u, role).value));
    if doc.Ok? && AcceptDelegated(u, role, doc.value).Ok? {
      assert ReachesPointer(c, view, AcceptDelegated(u, role, doc.value).value);
    }
  }

  lemma SlicesAlike(c: Client, t: Trust, pointer: CurrentRelease)
    requires Target(t, pointer.targetPath).Ok?
    ensures InSlice(c, Target(t, pointer.targetPath).value.rolloutPct)
       <==> InRolloutServer(c.sha, c.installId, c.channel.appId,
                            Target(t, pointer.targetPath).value.rolloutPct) == Some(true)
  {
  }

  lemma ConveysDigest(e: Entry, info: TargetInfo)
    requires Conveys(e, info)
    ensures info.digest == e.digest
  {
  }

  /** The trust an offering check followed the pointer with. */
  lemma PointerTrust(c: Client, view: seq<Disk>) returns (t: Trust)
    requires |view| == FETCHES && Check(c, view).Ok? && Check(c, view).value.Some?
    ensures ReachesPointer(c, view, t) && Check(c, view) == FollowPointer(c, t, view[4])
  {
    hide Refresh, AcceptDelegated, FollowPointer;
    var role, u := ChannelRole(c.channel), Refresh(c.root, view).value;
    t := AcceptDelegated(u, role, FetchFile(view[3], Versioned(role, TargetsVersion(u, role).value)).value).value;
  }

  // --------------------------------------------------------------- atomicity

  /** Each fetch sees the first disk or a later one of the same run. */
  ghost predicate Moves(view: seq<Disk>) {
    |view| == FETCHES && forall i | 0 <= i < FETCHES :: Grows(view[0], view[i])
  }

  lemma VersionedStays(d: Disk, e: Disk, role: Role, v: nat)
    requires Grows(d, e) && role != ROOT && Versioned(role, v) in d.files
    ensures FetchFile(e, Versioned(role, v)) == FetchFile(d, Versioned(role, v))
  {
  }

  /** Everything the refreshed trust holds is on the first disk. */
  ghost predicate HeldOn(t: Trust, d: Disk) {
    && t.snapshot.Some? && t.targets.Some? && t.snapshot.value.body.SnapshotBody?
    && NamesFiles(d, t.snapshot.value.body.meta)
    && (exists n | n in d.files :: d.files[n] == t.targets.value)
    && t.delegations == map[]
  }

  lemma SnapshotStays(view: seq<Disk>, v: nat)
    requires |view| == FETCHES && DiskOk(view[0]) && Moves(view)
    requires TimestampJson in view[0].files && view[0].files[TimestampJson].body.TimestampBody?
    requires view[0].files[TimestampJson].body.snapshot == v
    ensures Versioned(SNAPSHOT, v) in view[0].files
    ensures FetchFile(view[1], Versioned(SNAPSHOT, v)) == FetchFile(view[0], Versioned(SNAPSHOT, v))
    ensures view[0].files[Versioned(SNAPSHOT, v)].body.SnapshotBody?
    ensures NamesFiles(view[0], view[0].files[Versioned(SNAPSHOT, v)].body.meta)
  {
    hide PayloadsStored, SnapshotsRise, NamesFiles, Grows;
    VersionedStays(view[0], view[1], SNAPSHOT, v);
  }

  lemma RefreshIsAtomic(root: Doc, view: seq<Disk>)
    requires |view| == FETCHES && DiskOk(view[0]) && Moves(view)
    ensures Refresh(root, view) == Refresh(root, Still(view[0]))
    ensures Refresh(root, view).Ok? ==> HeldOn(Refresh(root, view).value, view[0])
  {
    hide Grows, DiskOk;
    var d := view[0];
    if Bootstrap(root).Ok? && TimestampJson in d.files {
      var t0, timestamp := Bootstrap(root).value, d.files[TimestampJson];
      if AcceptTimestamp(t0, timestamp).Ok? {
        var t1 := AcceptTimestamp(t0, timestamp).value;
        var v := timestamp.body.snapshot;
        assert SnapshotVersion(t1) == Some(v);
        SnapshotStays(view, v);
        var snapshot := d.files[Versioned(SNAPSHOT, v)];
        if AcceptSnapshot(t1, snapshot).Ok? {
          var t2 := AcceptSnapshot(t1, snapshot).value;
          var w := snapshot.body.meta[TARGETS];
          assert TargetsVersion(t2, TARGETS) == Some(w);
          VersionedStays(d, view[2], TARGETS, w);
          assert t2.delegations == map[];
        }
      }
    }
  }

  /** A description found by trust that holds only published roles has its payload stored. */
  lemma DescribedIsStored(t: Trust, d: Disk, path: string)
    requires PayloadsStored(d)
    requires t.targets.Some? ==> exists n | n in d.files :: d.files[n] == t.targets.value
    requires forall role | role in t.delegations :: exists n | n in d.files :: d.files[n] == t.delegations[role]
    requires Target(t, path).Ok?
    ensures PayloadName(path, Target(t, path).value.digest) in d.payloads
  {
    var e := Describe(t, path).value;
    if path in TargetsOf(t.targets.value) {
      var n :| n in d.files && d.files[n] == t.targets.value;
      assert Stored(d, path, e);
    } else {
      var roles := DelegationsOf(t.targets.value);
      FoundIsListed(t.delegations, false, path, roles, [], {});
      var role :| role in t.delegations && path in TargetsOf(t.delegations[role])
                  && TargetsOf(t.delegations[role])[path] == e;
      var n :| n in d.files && d.files[n] == t.delegations[role];
      assert Stored(d, path, e);
    }
  }

  lemma PointerIsAtomic(c: Client, t: Trust, d: Disk, e: Disk)
    requires PayloadsStored(d) && Grows(d, e)
    requires t.targets.Some? ==> exists n | n in d.files :: d.files[n] == t.targets.value
    requires forall role | role in t.delegations :: exists n | n in d.files :: d.files[n] == t.delegations[role]
    ensures FollowPointer(c, t, e) == FollowPointer(c, t, d)
  {
    hide PayloadsStored, Target, Resolve, PointerPath;
    var path := PointerPath(c.channel);
    if Target(t, path).Ok? {
      DescribedIsStored(t, d, path);
    }
  }

  /** Whatever the publisher does meanwhile, the answer is the one the first fetch fixed. */
  lemma CheckSeesOneState(c: Client, view: seq<Disk>)
    requires |view| == FETCHES && DiskOk(view[0]) && Moves(view)
    ensures Check(c, view) == CheckAt(c, view[0])
  {
    hide Grows, Shaped, Closed, SnapshotsRise, PayloadsStored, Refresh, FollowPointer;
    RefreshIsAtomic(c.root, view);
    if Refresh(c.root, view).Ok? {
      var d, t, role := view[0], Refresh(c.root, view).value, ChannelRole(c.channel);
      if TargetsVersion(t, role).Some? {
        var v := TargetsVersion(t, role).value;
        VersionedStays(d, view[3], role, v);
        var doc := d.files[Versioned(role, v)];
        if AcceptDelegated(t, role, doc).Ok? {
          var t' := AcceptDelegated(t, role, doc).value;
          assert t'.targets == t.targets;
          assert forall r | r in t'.delegations :: t'.delegations[r] == doc;
          PointerIsAtomic(c, t', d, view[4]);
        }
      }
    }
  }

  /** Fetch times of one check inside a run: never going back. */
  predicate Times(times: seq<nat>, n: nat) {
    && |times| == FETCHES
    && (forall i | 0 <= i < FETCHES :: times[i] < n)
    && (forall i, j | 0 <= i <= j < FETCHES :: times[i] <= times[j])
  }

  function ViewAt(disks: seq<Disk>, times: seq<nat>): (view: seq<Disk>)
    requires Times(times, |disks|)
    ensures |view| == FETCHES && forall i | 0 <= i < FETCHES :: view[i] == disks[times[i]]
  {
    seq(FETCHES, i requires 0 <= i < FETCHES => disks[times[i]])
  }

  /** What the edge serves while a run of the publisher goes by. */
  function Disks(trail: seq<P.State>): (disks: seq<Disk>)
    ensures |disks| == |trail| && forall i | 0 <= i < |trail| :: disks[i] == trail[i].disk
  {
    seq(|trail|, i requires 0 <= i < |trail| => trail[i].disk)
  }

  /**
   One check interleaved with any run of publisher operations, each cut by a crash at any write and
   followed by a restart, answers as if run atomically when it fetched timestamp.json.
   */
  lemma CheckIsAtomic(s: P.State, events: seq<R.Event>, cuts: seq<nat>, trail: seq<P.State>, c: Client, times: seq<nat>)
    requires Inv(s) && R.RunOf(s, events, cuts, trail)
    requires Times(times, |trail|)
    ensures Check(c, ViewAt(Disks(trail), times)) == CheckAt(c, trail[times[0]].disk)
  {
    hide DiskOk, Grows, Newest, RolesKnown, Check, R.RunOf;
    R.EveryRunIsGood(s, events, cuts, trail);
    var view := ViewAt(Disks(trail), times);
    forall i | 0 <= i < FETCHES ensures Grows(view[0], view[i]) {
      GrowsReflexive(view[0]);
      GrowsAlong(trail, times[0], times[i]);
    }
    assert Inv(trail[times[0]]);
    CheckSeesOneState(c, view);
  }

  // ------------------------------------------------------------------- class

  /** The edge in front of the repository: it serves whatever is published by the time of a fetch. */
  class Edge {
    const disks: seq<Disk>
    var now: nat

    constructor (disks: seq<Disk>)
      requires disks != []
      ensures Valid() && this.disks == disks && now == 0
    {
      this.disks := disks;
      now := 0;
    }

    ghost predicate Valid()
      reads this
    {
      now < |disks|
    }

    function Published(): Disk
      reads this
      requires Valid()
    {
      disks[now]
    }

    /** The publisher gets on with its run. */
    method Wait()
      requires Valid()
      modifies this
      ensures Valid() && old(now) <= now
    {
      var later :| now <= later < |disks|;
      now := later;
    }

    method Fetch(name: FileName) returns (r: Result<Doc, CheckError>)
      requires Valid()
      modifies this
      ensures Valid() && old(now) <= now && r == FetchFile(Published(), name)
    {
      Wait();
      r := FetchFile(Published(), name);
    }

    method FetchTarget(path: string, digest: Digest) returns (r: Result<Bytes, CheckError>)
      requires Valid()
      modifies this
      ensures Valid() && old(now) <= now && r == FetchPayload(Published(), path, digest)
    {
      Wait();
      r := FetchPayload(Published(), path, digest);
    }
  }

  /** One check: construct, run, discard. */
  class Checker {
    const client: Client

    constructor (client: Client)
      ensures this.client == client
    {
      this.client := client;
    }

    /** `run` up to and including the top-level targets. */
    method RefreshFrom(verifier: TufVerifier, edge: Edge) returns (r: Result<(), CheckError>, ghost times: seq<nat>)
      requires edge.Valid() && verifier.TrustHeld() == Trust(client.root, None, None, None, map[])
      requires Bootstrap(client.root) == Ok(verifier.TrustHeld())
      modifies edge, verifier
      ensures edge.Valid() && Times(times, edge.now + 1) && old(edge.now) <= times[0]
      ensures var t := Refresh(client.root, ViewAt(edge.disks, times));
              if t.Ok? then r == Ok(()) && verifier.TrustHeld() == t.value else r == Err(t.error)
    {
      hide AcceptTimestamp, AcceptSnapshot, AcceptTargets, TargetsVersion, SnapshotVersion, SignedBy;
      var timestamp := edge.Fetch(TimestampJson);
      ghost var t0 := edge.now;
      times := [t0, t0, t0, t0, t0];
      if timestamp.Err? { return Err(timestamp.error), times; }
      var accepted := verifier.UpdateTimestamp(timestamp.value);
      if accepted.Err? { return Err(Refused(accepted.error)), times; }
      var snapshotVersion := SnapshotVersion(verifier.TrustHeld());
      if snapshotVersion.None? { return Err(NoSnapshotVersion), times; }

      var snapshot := edge.Fetch(Versioned(SNAPSHOT, snapshotVersion.value));
      ghost var t1 := edge.now;
      times := [t0, t1, t1, t1, t1];
      if snapshot.Err? { return Err(snapshot.error), times; }
      accepted := verifier.UpdateSnapshot(snapshot.value);
      if accepted.Err? { return Err(Refused(accepted.error)), times; }
      var targetsVersion := TargetsVersion(verifier.TrustHeld(), TARGETS);
      if targetsVersion.None? { return Err(NoTargetsVersion), times; }

      var targets := edge.Fetch(Versioned(TARGETS, targetsVersion.value));
      times := [t0, t1, edge.now, edge.now, edge.now];
      if targets.Err? { return Err(targets.error), times; }
      accepted := verifier.UpdateTargets(targets.value);
      if accepted.Err? { return Err(Refused(accepted.error)), times; }
      r := Ok(());
    }

    /** `run`: its answer is the function `Check` of the disks its five fetches saw. */
    method Run(edge: Edge) returns (answer: Answer, ghost times: seq<nat>)
      requires edge.Valid()
      modifies edge
      ensures edge.Valid() && Times(times, |edge.disks|) && old(edge.now) <= times[0]
      ensures answer == Check(client, ViewAt(edge.disks, times))
    {
      hide Refresh, FollowPointer, AcceptDelegated, SignedBy, TargetsVersion;
      var root := Bootstrap(client.root);
      if root.Err? {
        times := [edge.now, edge.now, edge.now, edge.now, edge.now];
        assert Refresh(client.root, ViewAt(edge.disks, times)) == Err(Refused(root.error)) by {
          RefreshNeedsRoot(client.root, ViewAt(edge.disks, times));
        }
        return Err(Refused(root.error)), times;
      }
      var verifier := new TufVerifier(client.root);
      var refreshed: Result<(), CheckError>;
      refreshed, times := RefreshFrom(verifier, edge);
      if refreshed.Err? { return Err(refreshed.error), times; }
      RefreshLooksThrice(client.root, edge.disks, times);

      var role := ChannelRole(client.channel);
      var version := TargetsVersion(verifier.TrustHeld(), role);
      if version.None? { return Ok(None), times; }
      var doc := edge.Fetch(Versioned(role, version.value));
      times := [times[0], times[1], times[2], edge.now, edge.now];
      if doc.Err? { return Err(doc.error), times; }
      var accepted := verifier.UpdateDelegatedTargets(role, doc.value);
      if accepted.Err? { return Err(Refused(accepted.error)), times; }
      answer := ReadPointer(verifier.TrustHeld(), edge);
      times := times[4 := edge.now];
    }

    /** `run` from the channel pointer on. */
    method ReadPointer(trust: Trust, edge: Edge) returns (answer: Answer)
      requires edge.Valid()
      modifies edge
      ensures edge.Valid() && old(edge.now) <= edge.now
      ensures answer == FollowPointer(client, trust, edge.Published())
    {
      hide Target, Resolve, PointerPath;
      var path := PointerPath(client.channel);
      var info := Target(trust, path);
      if info == Err(UnknownTarget) { return Ok(None); }
      if info.Err? { return Err(Refused(info.error)); }
      var bytes := edge.FetchTarget(path, info.value.digest);
      if bytes.Err? { return Err(bytes.error); }
      var verified := VerifyPayload(info.value, bytes.value);
      if verified.Err? { return Err(Refused(verified.error)); }
      if bytes.value.length > MAX_POINTER_BYTES { return Err(PointerTooLarge); }
      if bytes.value.pointer.None? { return Err(PointerNotJson); }
      answer := Resolve(client, trust, bytes.value.pointer.value);
    }
  }

  lemma RefreshNeedsRoot(root: Doc, view: seq<Disk>)
    requires |view| == FETCHES && Bootstrap(root).Err?
    ensures Refresh(root, view) == Err(Refused(Bootstrap(root).error))
  {
  }

  /** The metadata half makes three fetches: later disks do not matter to it. */
  lemma RefreshLooksThrice(root: Doc, disks: seq<Disk>, times: seq<nat>)
    requires Times(times, |disks|)
    ensures forall later | Times(later, |disks|) && later[..3] == times[..3] ::
              Refresh(root, ViewAt(disks, later)) == Refresh(root, ViewAt(disks, times))
  {
    forall later | Times(later, |disks|) && later[..3] == times[..3]
      ensures Refresh(root, ViewAt(disks, later)) == Refresh(root, ViewAt(disks, times))
    {
      assert forall i | 0 <= i < 3 :: later[i] == later[..3][i] == times[i];
    }
  }
}

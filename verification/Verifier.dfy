/**
 The client's TUF verifier: verifier.rs over the vendored `tuf` crate's `Database`
 (client/vendor/tuf/src/database.rs). Signatures are an abstract threshold check; nothing is expired.
 */
module Verifier {
  import opened Text
  import opened Naming
  import opened Metadata
  import opened Patterns

  datatype VerifyError =
    | Rejected(role: Role)
    | UnknownTarget
    | Malformed
    | LengthMismatch
    | DigestMismatch
    | Overflow
    | InvalidArgument

  // ----------------------------------------------------------------- trust

  datatype Trust = Trust(root: Doc, timestamp: Option<Doc>, snapshot: Option<Doc>, targets: Option<Doc>,
                         delegations: map<Role, Doc>)

  function KeysIn(root: Doc, role: Role): RoleKeys {
    if root.body.RootBody? && role in root.body.roles then root.body.roles[role] else RoleKeys({}, 0)
  }

  /** `from_trusted_root`: a root must be signed by its own root keys. */
  function Bootstrap(root: Doc): Result<Trust, VerifyError> {
    if root.body.RootBody? && SignedBy(root, KeysIn(root, ROOT)) then Ok(Trust(root, None, None, None, map[]))
    else Err(Rejected(ROOT))
  }

  function AcceptTimestamp(t: Trust, doc: Doc): Result<Trust, VerifyError> {
    if !doc.body.TimestampBody? || !SignedBy(doc, KeysIn(t.root, TIMESTAMP)) then Err(Rejected(TIMESTAMP))
    else if t.timestamp.Some? && doc.version < t.timestamp.value.version then Err(Rejected(TIMESTAMP))
    else if t.timestamp.Some? && doc.version == t.timestamp.value.version then Ok(t)
    else
      var forget := t.snapshot.Some? && t.snapshot.value.version != doc.body.snapshot;
      Ok(t.(timestamp := Some(doc), snapshot := if forget then None else t.snapshot))
  }

  function SnapshotVersion(t: Trust): Option<nat> {
    if t.timestamp.Some? && t.timestamp.value.body.TimestampBody? then Some(t.timestamp.value.body.snapshot) else None
  }

  function MetaOf(doc: Doc): map<Role, nat> {
    if doc.body.SnapshotBody? then doc.body.meta else map[]
  }

  function AcceptSnapshot(t: Trust, doc: Doc): Result<Trust, VerifyError> {
    match SnapshotVersion(t)
    case None => Err(Rejected(SNAPSHOT))
    case Some(named) =>
      if t.snapshot.Some? && named < t.snapshot.value.version then Err(Rejected(SNAPSHOT))
      else if t.snapshot.Some? && named == t.snapshot.value.version then Ok(t)
      else if !doc.body.SnapshotBody? || !SignedBy(doc, KeysIn(t.root, SNAPSHOT)) || doc.version != named
      then Err(Rejected(SNAPSHOT))
      else
        var listed := if TARGETS in MetaOf(doc) then MetaOf(doc)[TARGETS] else 0;
        var held := if t.targets.Some? then t.targets.value.version else 0;
        Ok(t.(snapshot := Some(doc), targets := if held == listed then t.targets else None,
              delegations := map role | role in t.delegations
                                        && !(role in MetaOf(doc) && t.delegations[role].version > MetaOf(doc)[role]) ::
                               t.delegations[role]))
  }

  function TargetsVersion(t: Trust, role: Role): Option<nat> {
    if t.snapshot.Some? && role in MetaOf(t.snapshot.value) then Some(MetaOf(t.snapshot.value)[role]) else None
  }

  /** `verify_target_or_delegated_target`: `Ok(None)` when the version is already held. */
  function VerifyTargets(t: Trust, role: Role, doc: Doc, keys: RoleKeys,
                         held: Option<Doc>): Result<Option<Doc>, VerifyError> {
    match TargetsVersion(t, role)
    case None => Err(Rejected(role))
    case Some(named) =>
      if !doc.body.TargetsBody? || !SignedBy(doc, keys) || doc.version != named then Err(Rejected(role))
      else if held.Some? && doc.version < held.value.version then Err(Rejected(role))
      else if held.Some? && doc.version == held.value.version then Ok(None)
      else Ok(Some(doc))
  }

  function AcceptTargets(t: Trust, doc: Doc): Result<Trust, VerifyError> {
    var verified :- VerifyTargets(t, TARGETS, doc, KeysIn(t.root, TARGETS), t.targets);
    Ok(if verified.Some? then t.(targets := verified) else t)
  }

  function DelegationsOf(doc: Doc): seq<Delegation> {
    if doc.body.TargetsBody? then doc.body.delegations else []
  }

  function TargetsOf(doc: Doc): map<string, Entry> {
    if doc.body.TargetsBody? then doc.body.targets else map[]
  }

  function FindDelegation(roles: seq<Delegation>, role: Role): Option<Delegation> {
    if roles == [] then None
    else if roles[0].role == role then Some(roles[0])
    else FindDelegation(roles[1..], role)
  }

  function AcceptDelegated(t: Trust, role: Role, doc: Doc): Result<Trust, VerifyError> {
    if t.snapshot.None? || t.targets.None? then Err(Rejected(role))
    else
      match FindDelegation(DelegationsOf(t.targets.value), role)
      case None => Err(Rejected(role))
      case Some(delegation) =>
        var held := if role in t.delegations then Some(t.delegations[role]) else None;
        var verified :- VerifyTargets(t, role, doc, delegation.keys, held);
        Ok(if verified.Some? then t.(delegations := t.delegations[role := verified.value]) else t)
  }

  // --------------------------------------------------- what an update may trust

  /** Whatever is newly trusted is signed by a threshold of its role's keys, at the version the role above names. */
  ghost predicate Endorses(t: Trust, u: Trust) {
    && u.root == t.root
    && (u.timestamp != t.timestamp ==>
          && u.timestamp.Some? && SignedBy(u.timestamp.value, KeysIn(t.root, TIMESTAMP))
          && (t.timestamp.Some? ==> t.timestamp.value.version < u.timestamp.value.version))
    && (u.snapshot.Some? && u.snapshot != t.snapshot ==>
          SignedBy(u.snapshot.value, KeysIn(t.root, SNAPSHOT)) && SnapshotVersion(t) == Some(u.snapshot.value.version))
    && (u.targets.Some? && u.targets != t.targets ==>
          && SignedBy(u.targets.value, KeysIn(t.root, TARGETS))
          && TargetsVersion(t, TARGETS) == Some(u.targets.value.version)
          && (t.targets.Some? ==> t.targets.value.version < u.targets.value.version))
    && forall role | role in u.delegations && !(role in t.delegations && t.delegations[role] == u.delegations[role]) ::
         && t.targets.Some? && FindDelegation(DelegationsOf(t.targets.value), role).Some?
         && SignedBy(u.delegations[role], FindDelegation(DelegationsOf(t.targets.value), role).value.keys)
         && TargetsVersion(t, role) == Some(u.delegations[role].version)
         && (role in t.delegations ==> t.delegations[role].version < u.delegations[role].version)
  }

  /** Every update, of any document at all, trusts only what is endorsed. */
  lemma OnlyEndorsedIsTrusted(t: Trust, role: Role, doc: Doc)
    ensures AcceptTimestamp(t, doc).Ok? ==> Endorses(t, AcceptTimestamp(t, doc).value)
    ensures AcceptSnapshot(t, doc).Ok? ==> Endorses(t, AcceptSnapshot(t, doc).value)
    ensures AcceptTargets(t, doc).Ok? ==> Endorses(t, AcceptTargets(t, doc).value)
    ensures AcceptDelegated(t, role, doc).Ok? ==> Endorses(t, AcceptDelegated(t, role, doc).value)
  {
    hide SignedBy, KeysIn;
  }

  /**
   Section 5.4.3.2 of the TUF specification (1.0.31) asks that a timestamp not name an older snapshot than the
   trusted one; this verifier drops the snapshot it holds instead of comparing. Over one refresh the
   trusted snapshot falls exactly when the new timestamp names a lower version.
   */
  lemma SnapshotFallsIff(t: Trust, timestamp: Doc, snapshot: Doc)
    requires t.timestamp.Some? && t.snapshot.Some? && timestamp.version > t.timestamp.value.version
    requires AcceptTimestamp(t, timestamp).Ok? && AcceptSnapshot(AcceptTimestamp(t, timestamp).value, snapshot).Ok?
    ensures var u := AcceptSnapshot(AcceptTimestamp(t, timestamp).value, snapshot).value;
            && u.snapshot.Some?
            && (u.snapshot.value.version < t.snapshot.value.version <==>
                  timestamp.body.snapshot < t.snapshot.value.version)
  {
    hide SignedBy, KeysIn;
  }

  /** And such a timestamp is accepted when it and its snapshot are properly signed. */
  lemma SnapshotRollbackIsAccepted(t: Trust, timestamp: Doc, snapshot: Doc)
    requires t.timestamp.Some? && t.snapshot.Some? && timestamp.version > t.timestamp.value.version
    requires timestamp.body.TimestampBody? && SignedBy(timestamp, KeysIn(t.root, TIMESTAMP))
    requires snapshot.body.SnapshotBody? && SignedBy(snapshot, KeysIn(t.root, SNAPSHOT))
    requires snapshot.version == timestamp.body.snapshot < t.snapshot.value.version
    ensures AcceptTimestamp(t, timestamp).Ok? && AcceptSnapshot(AcceptTimestamp(t, timestamp).value, snapshot).Ok?
    ensures AcceptSnapshot(AcceptTimestamp(t, timestamp).value, snapshot).value.snapshot == Some(snapshot)
  {
    hide SignedBy, KeysIn;
  }

  // ----------------------------------------------------------------- lookup

  datatype Found = Found(terminate: bool, entry: Option<Entry>, visited: set<Role>)

  /**
   The delegation walk exactly as the vendored crate runs it: it returns, rather than moving on, at
   the first delegation that was visited, does not cover the path, or is not trusted.
   */
  function Lookup(trusted: map<Role, Doc>, terminate: bool, path: string, delegations: seq<Delegation>,
                  parents: seq<set<string>>, visited: set<Role>): (f: Found)
    ensures visited <= f.visited
    decreases |trusted.Keys - visited|, |delegations|
  {
    if delegations == [] then Found(terminate, None, visited)
    else
      var d := delegations[0];
      if d.role in visited then Found(d.terminating, None, visited)
      else
        var seen := visited + {d.role};
        if !MatchesChain(path, parents + [d.paths]) then Found(d.terminating, None, seen)
        else if d.role !in trusted then Found(d.terminating, None, seen)
        else if path in TargetsOf(trusted[d.role])
        then Found(d.terminating, Some(TargetsOf(trusted[d.role])[path]), seen)
        else
          assert d.role in trusted.Keys - visited && d.role !in trusted.Keys - seen;
          Smaller(trusted.Keys - seen, trusted.Keys - visited, d.role);
          var children := DelegationsOf(trusted[d.role]);
          if children == [] then Lookup(trusted, terminate, path, delegations[1..], parents, seen)
          else
            var child := Lookup(trusted, d.terminating, path, children, parents + [d.paths], seen);
            if child.terminate || child.entry.Some? then child
            else
              NoLarger(trusted.Keys - child.visited, trusted.Keys - seen);
              Lookup(trusted, terminate, path, delegations[1..], parents, child.visited)
  }

  lemma Smaller<T>(a: set<T>, b: set<T>, x: T)
    requires a <= b && x in b && x !in a
    ensures |a| < |b|
  {
    NoLarger(a, b - {x});
  }

  lemma {:induction false} NoLarger<T>(a: set<T>, b: set<T>)
    requires a <= b
    ensures |a| <= |b|
  {
    if a != {} {
      var x :| x in a;
      NoLarger(a - {x}, b - {x});
    }
  }

  /** `target_description`: the top-level targets first, then the delegation walk. */
  function Describe(t: Trust, path: string): Option<Entry> {
    if t.snapshot.None? || t.targets.None? then None
    else if path in TargetsOf(t.targets.value) then Some(TargetsOf(t.targets.value)[path])
    else Lookup(t.delegations, false, path, DelegationsOf(t.targets.value), [], {}).entry
  }

  // ----------------------------------------------------------- release info

  /** `release_info`: a missing rollout is 100; one above 100 is malformed. */
  function ReadCustom(c: Custom): Result<InfoFields, VerifyError> {
    if c.version.None? then Err(Malformed)
    else
      var pct := if c.rolloutPct.Some? then c.rolloutPct.value else 100;
      if pct > 100 then Err(Malformed)
      else Ok(InfoFields(c.version.value, pct, c.mandatory.Some? && c.mandatory.value, c.notesUrl, c.minOs,
                         c.minFromVersion))
  }

  /** What the server writes into `custom`, the client reads back. */
  lemma CustomRoundTrips(i: ReleaseInfo)
    ensures ReadCustom(ToCustom(i)) == Ok(i)
  {
  }

  /** Whatever signed it: everybody when no percentage is given, nobody at all when it is no percentage. */
  lemma CustomReads(c: Custom)
    ensures ReadCustom(c).Ok? <==> c.version.Some? && (c.rolloutPct.Some? ==> c.rolloutPct.value <= 100)
    ensures ReadCustom(c).Ok? ==>
              && ReadCustom(c).value.version == c.version.value
              && ReadCustom(c).value.rolloutPct == (if c.rolloutPct.Some? then c.rolloutPct.value else 100)
              && ReadCustom(c).value.mandatory == (c.mandatory == Some(true))
    ensures ReadCustom(c).Err? ==> ReadCustom(c).error == Malformed
  {
  }

  /** What the C ABI hands on: the version must fit its buffer with a NUL. */
  datatype TargetInfo = TargetInfo(version: string, length: nat, digest: Digest, rolloutPct: nat, mandatory: bool)

  const DIST_VERSION_CAPACITY := 64

  function Target(t: Trust, path: string): Result<TargetInfo, VerifyError> {
    if ParsePath(path).Err? then Err(InvalidArgument)
    else if !SafePath(path) then Err(UnknownTarget)
    else
      match Describe(t, path)
      case None => Err(UnknownTarget)
      case Some(e) =>
        var info :- ReadCustom(e.custom);
        if |info.version| >= DIST_VERSION_CAPACITY then Err(Overflow)
        else Ok(TargetInfo(info.version, e.length, e.digest, info.rolloutPct, info.mandatory))
  }

  /** `verify_payload`: length first, then digest. */
  function VerifyPayload(info: TargetInfo, payload: Bytes): Result<(), VerifyError> {
    if payload.length != info.length then Err(LengthMismatch)
    else if Sha256(payload) != info.digest then Err(DigestMismatch)
    else Ok(())
  }

  /** Only the described bytes verify; a wrong length is reported before the digest is looked at. */
  lemma OnlyDescribedBytesVerify(info: TargetInfo, payload: Bytes)
    ensures VerifyPayload(info, payload).Ok? <==> payload == info.digest.of && payload.length == info.length
    ensures payload.length != info.length ==> VerifyPayload(info, payload) == Err(LengthMismatch)
  {
  }

  // -------------------------------------------------------- what lookup means

  /** One delegation per application, covering that application's paths and nothing else. */
  ghost predicate AppDelegations(delegations: seq<Delegation>) {
    && (forall i | 0 <= i < |delegations| :: IsAppDelegation(delegations[i]))
    && (forall i, j | 0 <= i < j < |delegations| :: delegations[i].role != delegations[j].role)
  }

  ghost predicate IsAppDelegation(d: Delegation) {
    && !d.terminating
    && exists appId | IsAppId(appId) :: d.role == AppRoleName(appId) && d.paths == {AppPathPattern(appId)}
  }

  /** A path of one application: legal, five segments, its id first. */
  predicate IsAppPath(path: string, appId: string) {
    SafePath(path) && |Split(path, '/')| == 5 && Split(path, '/')[0] == appId
  }

  lemma AppIdIsSegment(appId: string)
    requires IsAppId(appId)
    ensures IsSegment(appId)
  {
  }

  /** The pattern of a delegation covers a path of `appId` exactly when the delegation is `appId`'s. */
  lemma DelegationCovers(d: Delegation, path: string, appId: string)
    requires IsAppDelegation(d) && IsAppId(appId) && IsAppPath(path, appId)
    ensures MatchesChain(path, [] + [d.paths]) <==> d.role == AppRoleName(appId)
  {
    var own :| IsAppId(own) && d.role == AppRoleName(own) && d.paths == {AppPathPattern(own)};
    AppIdIsSegment(own);
    PatternCovers(path, own);
    assert [] + [d.paths] == [d.paths];
    assert d.role[4..] == own && AppRoleName(appId)[4..] == appId;
    assert AppPathPattern(own) in d.paths;
    assert MatchesAny(path, d.paths) <==> MatchesPattern(path, AppPathPattern(own));
  }

  /** Nothing is found for an application no remaining delegation belongs to. */
  lemma LookupPastOthers(trusted: map<Role, Doc>, path: string, delegations: seq<Delegation>, visited: set<Role>,
                         appId: string)
    requires AppDelegations(delegations) && IsAppId(appId) && IsAppPath(path, appId)
    requires delegations != [] ==> delegations[0].role != AppRoleName(appId)
    ensures Lookup(trusted, false, path, delegations, [], visited).entry == None
  {
    if delegations != [] {
      DelegationCovers(delegations[0], path, appId);
    }
  }

  /** The vendored walk finds a path of `appId` exactly when `appId` is the first delegation. */
  lemma LookupMeans(trusted: map<Role, Doc>, path: string, delegations: seq<Delegation>, appId: string)
    requires AppDelegations(delegations) && IsAppId(appId) && IsAppPath(path, appId)
    requires AppRoleName(appId) in trusted ==> DelegationsOf(trusted[AppRoleName(appId)]) == []
    ensures var role := AppRoleName(appId);
            Lookup(trusted, false, path, delegations, [], {}).entry ==
              if delegations != [] && delegations[0].role == role && role in trusted && path in TargetsOf(trusted[role])
              then Some(TargetsOf(trusted[role])[path]) else None
  {
    var role := AppRoleName(appId);
    if delegations != [] && delegations[0].role == role {
      DelegationCovers(delegations[0], path, appId);
      if role in trusted && path !in TargetsOf(trusted[role]) {
        var rest := delegations[1..];
        assert rest != [] ==> rest[0] == delegations[1];
        LookupPastOthers(trusted, path, rest, {} + {role}, appId);
      }
    } else {
      LookupPastOthers(trusted, path, delegations, {}, appId);
    }
  }

  /**
   Section 5.6.7 of the TUF specification (1.0.31), for roles without delegations of their own: in
   order, skip the delegations that do not cover the path or are not trusted, take the first that lists it.
   */
  function SpecLookup(trusted: map<Role, Doc>, path: string, delegations: seq<Delegation>): Option<Entry> {
    if delegations == [] then None
    else
      var d := delegations[0];
      if MatchesAny(path, d.paths) && d.role in trusted && path in TargetsOf(trusted[d.role])
      then Some(TargetsOf(trusted[d.role])[path])
      else if MatchesAny(path, d.paths) && d.terminating then None
      else SpecLookup(trusted, path, delegations[1..])
  }

  lemma {:induction false} SpecLookupMeans(trusted: map<Role, Doc>, path: string, delegations: seq<Delegation>,
                                           appId: string)
    requires AppDelegations(delegations) && IsAppId(appId) && IsAppPath(path, appId)
    ensures var role := AppRoleName(appId);
            SpecLookup(trusted, path, delegations) ==
              if Delegates(delegations, role) && role in trusted && path in TargetsOf(trusted[role])
              then Some(TargetsOf(trusted[role])[path]) else None
  {
    if delegations != [] {
      var rest := delegations[1..];
      DelegationCovers(delegations[0], path, appId);
      assert [] + [delegations[0].paths] == [delegations[0].paths];
      SpecLookupMeans(trusted, path, rest, appId);
      assert forall i | 1 <= i < |delegations| :: delegations[i] == rest[i - 1];
      if Delegates(rest, AppRoleName(appId)) {
        var i :| 0 <= i < |rest| && rest[i].role == AppRoleName(appId);
        assert delegations[i + 1].role == AppRoleName(appId);
      }
    }
  }

  /**
   Code against specification: for a listed path the two agree exactly when the application was the
   first ever delegated. Every later application's targets are unknown to this client.
   */
  lemma LookupMeetsSpec(trusted: map<Role, Doc>, path: string, delegations: seq<Delegation>, appId: string)
    requires AppDelegations(delegations) && IsAppId(appId) && IsAppPath(path, appId)
    requires AppRoleName(appId) in trusted ==> DelegationsOf(trusted[AppRoleName(appId)]) == []
    ensures Lookup(trusted, false, path, delegations, [], {}).entry == SpecLookup(trusted, path, delegations)
       <==> SpecLookup(trusted, path, delegations).None? || delegations[0].role == AppRoleName(appId)
  {
    LookupMeans(trusted, path, delegations, appId);
    SpecLookupMeans(trusted, path, delegations, appId);
    if delegations != [] && delegations[0].role == AppRoleName(appId) {
      assert Delegates(delegations, AppRoleName(appId));
    }
  }

  /** Isolation: whatever another application's role says, an application's paths resolve as before. */
  lemma OtherRolesDoNotMatter(t: Trust, path: string, appId: string, other: Role, forged: Doc)
    requires t.targets.Some? && AppDelegations(DelegationsOf(t.targets.value))
    requires IsAppId(appId) && IsAppPath(path, appId) && other != AppRoleName(appId)
    requires AppRoleName(appId) in t.delegations ==> DelegationsOf(t.delegations[AppRoleName(appId)]) == []
    ensures Target(t.(delegations := t.delegations[other := forged]), path) == Target(t, path)
  {
    var delegations := DelegationsOf(t.targets.value);
    LookupMeans(t.delegations, path, delegations, appId);
    LookupMeans(t.delegations[other := forged], path, delegations, appId);
  }

  /** Whatever a lookup finds is listed by some trusted role. */
  lemma {:induction false} FoundIsListed(trusted: map<Role, Doc>, terminate: bool, path: string,
                                         delegations: seq<Delegation>,
                      parents: seq<set<string>>, visited: set<Role>)
    ensures var e := Lookup(trusted, terminate, path, delegations, parents, visited).entry;
            e.Some? ==> exists role | role in trusted ::
              path in TargetsOf(trusted[role]) && TargetsOf(trusted[role])[path] == e.value
    decreases |trusted.Keys - visited|, |delegations|
  {
    if delegations != [] && delegations[0].role !in visited {
      var d := delegations[0];
      var seen := visited + {d.role};
      if MatchesChain(path, parents + [d.paths]) && d.role in trusted && path !in TargetsOf(trusted[d.role]) {
        Smaller(trusted.Keys - seen, trusted.Keys - visited, d.role);
        var children := DelegationsOf(trusted[d.role]);
        if children == [] {
          FoundIsListed(trusted, terminate, path, delegations[1..], parents, seen);
        } else {
          FoundIsListed(trusted, d.terminating, path, children, parents + [d.paths], seen);
          var child := Lookup(trusted, d.terminating, path, children, parents + [d.paths], seen);
          NoLarger(trusted.Keys - child.visited, trusted.Keys - seen);
          FoundIsListed(trusted, terminate, path, delegations[1..], parents, child.visited);
        }
      }
    }
  }

  // ------------------------------------------------------------------- class

  /** `TufVerifier` over its database. */
  class TufVerifier {
    const root: Doc
    var timestamp: Option<Doc>
    var snapshot: Option<Doc>
    var targets: Option<Doc>
    var delegations: map<Role, Doc>

    constructor (root: Doc)
      ensures TrustHeld() == Trust(root, None, None, None, map[])
    {
      this.root := root;
      timestamp, snapshot, targets, delegations := None, None, None, map[];
    }

    function TrustHeld(): Trust
      reads this
    {
      Trust(root, timestamp, snapshot, targets, delegations)
    }

    /** Accept the new trust, or keep the old one. */
    static ghost predicate Becomes(before: Trust, next: Result<Trust, VerifyError>, after: Trust,
                                   r: Result<(), VerifyError>) {
      match next
      case Ok(t) => r == Ok(()) && after == t
      case Err(e) => r == Err(e) && after == before
    }

    method UpdateTimestamp(doc: Doc) returns (r: Result<(), VerifyError>)
      modifies this
      ensures Becomes(old(TrustHeld()), AcceptTimestamp(old(TrustHeld()), doc), TrustHeld(), r)
    {
      if !doc.body.TimestampBody? || !SignedBy(doc, KeysIn(root, TIMESTAMP)) {
        return Err(Rejected(TIMESTAMP));
      }
      if timestamp.Some? {
        if doc.version < timestamp.value.version {
          return Err(Rejected(TIMESTAMP));
        }
        if doc.version == timestamp.value.version {
          return Ok(());
        }
      }
      if snapshot.Some? && snapshot.value.version != doc.body.snapshot {
        snapshot := None;
      }
      timestamp := Some(doc);
      r := Ok(());
    }

    method UpdateSnapshot(doc: Doc) returns (r: Result<(), VerifyError>)
      modifies this
      ensures Becomes(old(TrustHeld()), AcceptSnapshot(old(TrustHeld()), doc), TrustHeld(), r)
    {
      var named := SnapshotVersion(TrustHeld());
      if named.None? || (snapshot.Some? && named.value < snapshot.value.version) {
        return Err(Rejected(SNAPSHOT));
      }
      if snapshot.Some? && named.value == snapshot.value.version {
        return Ok(());
      }
      if !doc.body.SnapshotBody? || !SignedBy(doc, KeysIn(root, SNAPSHOT)) || doc.version != named.value {
        return Err(Rejected(SNAPSHOT));
      }
      var listed := if TARGETS in doc.body.meta then doc.body.meta[TARGETS] else 0;
      if (if targets.Some? then targets.value.version else 0) != listed {
        targets := None;
      }
      snapshot := Some(doc);
      delegations := map role | role in delegations
        && !(role in doc.body.meta && delegations[role].version > doc.body.meta[role]) :: delegations[role];
      r := Ok(());
    }

    method UpdateTargets(doc: Doc) returns (r: Result<(), VerifyError>)
      modifies this
      ensures Becomes(old(TrustHeld()), AcceptTargets(old(TrustHeld()), doc), TrustHeld(), r)
    {
      var verified := VerifyTargets(TrustHeld(), TARGETS, doc, KeysIn(root, TARGETS), targets);
      if verified.Err? {
        return Err(verified.error);
      }
      if verified.value.Some? {
        targets := verified.value;
      }
      r := Ok(());
    }

    method UpdateDelegatedTargets(role: Role, doc: Doc) returns (r: Result<(), VerifyError>)
      modifies this
      ensures Becomes(old(TrustHeld()), AcceptDelegated(old(TrustHeld()), role, doc), TrustHeld(), r)
    {
      if snapshot.None? || targets.None? {
        return Err(Rejected(role));
      }
      var delegation := FindDelegation(DelegationsOf(targets.value), role);
      if delegation.None? {
        return Err(Rejected(role));
      }
      var held := if role in delegations then Some(delegations[role]) else None;
      var verified := VerifyTargets(TrustHeld(), role, doc, delegation.value.keys, held);
      if verified.Err? {
        return Err(verified.error);
      }
      if verified.value.Some? {
        delegations := delegations[role := verified.value.value];
      }
      r := Ok(());
    }
  }
}

/**
 `FileSystemRepository` as the source runs it: fields updated and files written one at a time.
 Each method is proved to pass through exactly the states its `Publisher` function lists.
 */
module Repository {
  import opened Text
  import opened Naming
  import opened Metadata
  import P = Publisher
  import S = PublisherSafety
  import R = PublisherRuns

  /** The published directory; every process opens the same one. */
  class Directory {
    var files: map<FileName, Doc>
    var payloads: map<PayloadName, Bytes>

    constructor ()
      ensures files == map[] && payloads == map[]
    {
      files, payloads := map[], map[];
    }

    function Contents(): Disk
      reads this
    {
      Disk(files, payloads)
    }
  }

  class FileSystemRepository {
    const directory: Directory
    const backend: P.Backend
    var versions: map<Role, nat>
    var appRoles: set<Role>
    var policies: map<Role, RolePolicy>
    /** Every state passed through since this process started. */
    ghost var trail: seq<P.State>

    function State(): P.State
      reads this, directory
    {
      P.State(directory.Contents(), P.Memory(versions, appRoles, policies))
    }

    ghost predicate Valid()
      reads this, directory
    {
      trail != [] && trail[|trail| - 1] == State()
    }

    // ------------------------------------------------------------- scanning

    /** `__init__` and `_scan`, on any disk whose files are the documents their names say. */
    constructor (directory: Directory, backend: P.Backend)
      requires S.Shaped(directory.Contents())
      ensures this.directory == directory && this.backend == backend
      ensures Valid() && trail == [State()]
      ensures State().disk == directory.Contents() && R.Rescanned(State().disk, State().memory)
    {
      this.directory := directory;
      this.backend := backend;
      versions := map[];
      appRoles := {};
      policies := TOP_LEVEL_POLICIES;
      trail := [];
      new;
      Scan();
    }

    method Scan()
      requires versions == map[] && appRoles == {} && policies == TOP_LEVEL_POLICIES
      requires S.Shaped(directory.Contents())
      modifies this
      ensures Valid() && trail == [State()]
      ensures R.Rescanned(State().disk, State().memory)
    {
      hide S.Shaped, S.PayloadsStored, S.Closed, S.SnapshotsRise, S.Newest, S.RolesKnown, R.Rescanned,
           ScannedVersions, P.Targets, Delegates, DefaultPolicies;
      ScanVersions();
      ghost var scanned := State();
      ScanDelegations();
      trail := [State()];
      TargetsSame(scanned, State());
      RescannedBy(directory.Contents(), State().memory);
    }

    method ScanVersions()
      requires versions == map[]
      requires S.Shaped(directory.Contents())
      modifies `versions
      ensures ScannedVersions(directory.Contents(), versions)
    {
      var names := directory.files.Keys;
      while names != {}
        invariant names <= directory.files.Keys
        invariant ScannedSome(directory.Contents(), directory.files.Keys - names, versions)
        decreases names
      {
        var name :| name in names;
        ghost var seen := directory.files.Keys - names;
        names := names - {name};
        assert directory.files.Keys - names == seen + {name};
        match name {
          case Versioned(role, version) =>
            var known := if role in versions then versions[role] else 0;
            versions := versions[role := if known < version then version else known];
          case TimestampJson =>
            versions := versions[TIMESTAMP := directory.files[TimestampJson].version];
          case RootJson =>
        }
      }
      assert directory.files.Keys - names == directory.files.Keys;
    }

    method ScanDelegations()
      requires appRoles == {} && policies == TOP_LEVEL_POLICIES
      modifies `appRoles, `policies
      ensures forall role :: role in appRoles <==> Delegates(P.Targets(old(State()), TARGETS).delegations, role)
      ensures policies == DefaultPolicies(appRoles)
    {
      hide P.Targets, Delegates, DefaultPolicies;
      UnscannedDelegates(State());
      DefaultsAlone();
      if P.Version(State().memory, TARGETS) > 0 {
        LearnRoles(P.Targets(State(), TARGETS).delegations);
      } else {
        NoneDelegated();
      }
    }

    /** Each delegated name joins `_app_roles`; a policy is set only where there is none. */
    method LearnRoles(roles: seq<Delegation>)
      requires appRoles == {} && policies == TOP_LEVEL_POLICIES
      modifies `appRoles, `policies
      ensures forall role :: role in appRoles <==> Delegates(roles, role)
      ensures policies == DefaultPolicies(appRoles)
    {
      DefaultsAlone();
      var i := 0;
      while i < |roles|
        invariant 0 <= i <= |roles|
        invariant forall role :: role in appRoles <==> Delegates(roles[..i], role)
        invariant policies == DefaultPolicies(appRoles)
      {
        appRoles := appRoles + {roles[i].role};
        if roles[i].role !in policies {
          policies := policies[roles[i].role := AppRolePolicy(false)];
        }
        forall role ensures role in appRoles <==> Delegates(roles[..i + 1], role) {
          DelegatesMore(roles, i, role);
        }
        i := i + 1;
      }
      assert roles[..i] == roles;
    }

    // --------------------------------------------------------- open and close

    method CloseRole(role: Role, body: Body) returns (error: Option<P.Error>)
      requires Valid() && role != ROOT
      modifies this, directory
      ensures Valid()
      ensures var c := P.Close(backend, old(State()), role, body);
              && error == (if c.Ok? then None else Some(c.error))
              && State() == (if c.Ok? then c.value else old(State()))
              && trail == old(trail) + (if c.Ok? then [c.value] else [])
    {
      if role !in policies {
        return Some(P.NoPolicy(role));
      }
      var version := (if role in versions then versions[role] else 0) + 1;
      var keyids := P.KeyIds(backend, role);
      if |keyids| < policies[role].threshold {
        return Some(P.ThresholdNotMet(role));
      }
      directory.files := directory.files[NameOf(role, version) := Doc(version, keyids, body)];
      versions := versions[role := version];
      trail := trail + [State()];
      error := None;
    }

    method StorePayload(path: string, bytes: Bytes)
      requires Valid()
      modifies directory, `trail
      ensures Valid() && State() == P.StorePayload(old(State()), path, bytes)
      ensures trail == old(trail) + [State()]
    {
      directory.payloads := directory.payloads[PayloadName(path, Sha256(bytes)) := bytes];
      trail := trail + [State()];
    }

    // ---------------------------------------------------------------- publish

    method DoSnapshot() returns (error: Option<P.Error>)
      requires Valid()
      modifies this, directory
      ensures Valid()
      ensures var c := P.DoSnapshot(backend, old(State()));
              && error == (if c.Ok? then None else Some(c.error))
              && State() == (if c.Ok? then c.value else old(State()))
              && trail == old(trail) + (if c.Ok? then [c.value] else [])
    {
      if P.SnapshotFell(State()) {
        return Some(P.VersionRollback(SNAPSHOT));
      }
      if !P.SnapshotDue(State()) {
        trail := trail + [State()];
        return None;
      }
      error := CloseRole(SNAPSHOT, SnapshotBody(P.SnapshotMeta(State()) + P.TargetsInfos(State().memory)));
    }

    method DoTimestamp() returns (error: Option<P.Error>)
      requires Valid()
      modifies this, directory
      ensures Valid()
      ensures var c := P.DoTimestamp(backend, old(State()));
              && error == (if c.Ok? then None else Some(c.error))
              && State() == (if c.Ok? then c.value else old(State()))
              && trail == old(trail) + (if c.Ok? then [c.value] else [])
    {
      if P.SnapshotInfo(State().memory) < P.TimestampSnapshot(State()) {
        return Some(P.VersionRollback(TIMESTAMP));
      }
      if !P.TimestampDue(State()) {
        trail := trail + [State()];
        return None;
      }
      error := CloseRole(TIMESTAMP, TimestampBody(P.SnapshotInfo(State().memory)));
    }

    /** What every operation promises: it passed through the states of its function, to its error. */
    static ghost predicate Performs(run: P.Run, start: P.State, before: seq<P.State>, after: seq<P.State>,
                                    error: Option<P.Error>)
    {
      && P.WellFormed(run, start)
      && after == before + run.trail[1..]
      && error == run.error
    }

    method Publish() returns (error: Option<P.Error>)
      requires Valid()
      modifies this, directory
      ensures Valid() && Performs(P.Publish(backend, old(State())), old(State()), old(trail), trail, error)
    {
      error := DoSnapshot();
      if error.None? {
        error := DoTimestamp();
      }
    }

    // -------------------------------------------------------------- operations

    method PutTarget(role: Role, path: string, bytes: Bytes, info: ReleaseInfo) returns (error: Option<P.Error>)
      requires Valid() && role != ROOT
      modifies this, directory
      ensures Valid() && Performs(P.PutTarget(backend, old(State()), role, path, bytes, info), old(State()), old(trail),
                                  trail, error)
    {
      hide P.Close, P.Publish, P.Open, P.EntryFor;
      StorePayload(path, bytes);
      var listed := P.Targets(State(), role);
      error := CloseRole(role, listed.(targets := listed.targets[path := P.EntryFor(bytes, info)]));
      if error.None? {
        error := Publish();
      }
    }

    method AddRelease(key: TargetKey, payload: Bytes, info: ReleaseInfo) returns (error: Option<P.Error>)
      requires Valid()
      modifies this, directory
      ensures Valid() && Performs(P.Perform(backend, old(State()), P.OpAddRelease(key, payload, info)), old(State()),
                                  old(trail), trail, error)
    {
      if info.version != key.version {
        return Some(P.VersionMismatch);
      }
      if !IsAppId(key.appId) {
        return Some(P.InvalidAppId(key.appId));
      }
      if AppRoleName(key.appId) !in appRoles {
        return Some(P.NoDelegatedRole(key.appId));
      }
      assert AppRoleName(key.appId)[3] == '-' && ROOT[3] == 't';
      error := PutTarget(AppRoleName(key.appId), Path(key), payload, info);
    }

    method SetCurrent(key: TargetKey) returns (error: Option<P.Error>)
      requires Valid()
      modifies this, directory
      ensures Valid()
      ensures Performs(P.Perform(backend, old(State()), P.OpSetCurrent(key)), old(State()), old(trail), trail, error)
    {
      if !IsAppId(key.appId) {
        return Some(P.InvalidAppId(key.appId));
      }
      var role := AppRoleName(key.appId);
      if role !in appRoles {
        return Some(P.NoDelegatedRole(key.appId));
      }
      if Path(key) !in P.Targets(State(), role).targets {
        return Some(P.NotPublished(Path(key)));
      }
      assert role[3] == '-' && ROOT[3] == 't';
      error := PutTarget(role, PointerPath(ChannelOf(key)), PointerJson(Path(key), key.version),
                         P.PointerInfo(key.version));
    }

    method AddApp(appId: string, critical: bool) returns (error: Option<P.Error>)
      requires Valid()
      modifies this, directory
      ensures Valid() && Performs(P.Perform(backend, old(State()), P.OpAddApp(appId, critical)), old(State()),
                                  old(trail), trail, error)
    {
      hide P.Delegate, P.Open, P.Targets;
      if !IsAppId(appId) {
        return Some(P.InvalidAppId(appId));
      }
      var role := AppRoleName(appId);
      policies := policies[role := AppRolePolicy(critical)];
      trail := trail + [State()];
      if P.KeyIds(backend, role) == {} {
        return Some(P.NoSigningKey(role));
      }
      error := Delegate(appId);
    }

    method Delegate(appId: string) returns (error: Option<P.Error>)
      requires Valid() && IsAppId(appId)
      modifies this, directory
      ensures Valid() && Performs(P.Delegate(backend, old(State()), appId), old(State()), old(trail), trail, error)
    {
      hide P.Close, P.Admit, P.Open, P.PutDelegation;
      var targets := P.Targets(State(), TARGETS);
      error := CloseRole(TARGETS, targets.(delegations := P.PutDelegation(targets.delegations,
                                                                          P.DelegationFor(backend, appId))));
      if error.None? {
        assert AppRoleName(appId)[3] == '-' && ROOT[3] == 't';
        error := Admit(AppRoleName(appId));
      }
    }

    method Admit(role: Role) returns (error: Option<P.Error>)
      requires Valid() && role != ROOT
      modifies this, directory
      ensures Valid() && Performs(P.Admit(backend, old(State()), role), old(State()), old(trail), trail, error)
    {
      hide P.Close, P.Publish, P.Open;
      appRoles := appRoles + {role};
      trail := trail + [State()];
      error := CloseRole(role, P.Targets(State(), role));
      if error.None? {
        error := Publish();
      }
    }

    method Initialize() returns (error: Option<P.Error>)
      requires Valid()
      modifies this, directory
      ensures Valid()
      ensures Performs(P.Perform(backend, old(State()), P.OpInitialize), old(State()), old(trail), trail, error)
    {
      if P.Version(State().memory, ROOT) > 0 {
        return Some(P.AlreadyInitialised);
      }
      var unkeyed := P.FirstUnkeyed(backend, [ROOT, TARGETS, SNAPSHOT, TIMESTAMP]);
      if unkeyed.Some? {
        return Some(P.NoSigningKey(unkeyed.value));
      }
      var signed := P.Sign(backend, State(), ROOT, P.RootFor(backend));
      if signed.Err? {
        return Some(signed.error);
      }
      error := WriteRoot(signed.value);
    }

    /** `_write` for root: the versioned file, then its alias. */
    method PutRoot(root: Doc)
      requires Valid()
      modifies this, directory
      ensures Valid()
      ensures var s1 := P.WriteFile(old(State()), NameOf(ROOT, root.version), root);
              var s2 := P.SetVersion(P.WriteFile(s1, RootJson, root), ROOT, root.version);
              State() == s2 && trail == old(trail) + [s1, s2]
    {
      directory.files := directory.files[NameOf(ROOT, root.version) := root];
      trail := trail + [State()];
      directory.files := directory.files[RootJson := root];
      versions := versions[ROOT := root.version];
      trail := trail + [State()];
    }

    method WriteRoot(root: Doc) returns (error: Option<P.Error>)
      requires Valid()
      modifies this, directory
      ensures Valid() && Performs(P.WriteRoot(backend, old(State()), root), old(State()), old(trail), trail, error)
    {
      hide P.Close, P.Publish, P.Open, P.WriteFile, P.SetVersion;
      PutRoot(root);
      error := CloseRole(TARGETS, P.Open(State(), TARGETS).body);
      if error.None? {
        error := Publish();
      }
    }
  }

  // ------------------------------------------------------------ scan, as facts

  /** What the loop of `_scan` has learnt once it has looked at the files in `seen`. */
  ghost predicate ScannedSome(d: Disk, seen: set<FileName>, versions: map<Role, nat>) {
    && (forall role, v: nat | Versioned(role, v) in seen :: role in versions && v <= versions[role])
    && (forall role | role in versions && role != TIMESTAMP ::
          versions[role] > 0 && Versioned(role, versions[role]) in seen)
    && (TIMESTAMP in versions <==> TimestampJson in seen)
    && (TimestampJson in seen ==> TimestampJson in d.files && versions[TIMESTAMP] == d.files[TimestampJson].version)
  }

  ghost predicate ScannedVersions(d: Disk, versions: map<Role, nat>) {
    ScannedSome(d, d.files.Keys, versions)
  }

  function DefaultPolicies(appRoles: set<Role>): map<Role, RolePolicy> {
    map role | role in TOP_LEVEL_POLICIES.Keys + appRoles ::
      if role in TOP_LEVEL_POLICIES then TOP_LEVEL_POLICIES[role] else AppRolePolicy(false)
  }

  lemma DefaultsAlone()
    ensures DefaultPolicies({}) == TOP_LEVEL_POLICIES
  {
  }

  lemma NoneDelegated()
    ensures forall role :: !Delegates([], role)
  {
  }

  lemma UnscannedDelegates(s: P.State)
    ensures P.Version(s.memory, TARGETS) == 0 ==> P.Targets(s, TARGETS).delegations == []
  {
  }

  lemma DelegatesMore(roles: seq<Delegation>, i: nat, role: Role)
    requires i < |roles|
    ensures Delegates(roles[..i + 1], role) <==> Delegates(roles[..i], role) || role == roles[i].role
  {
    var less, more := roles[..i], roles[..i + 1];
    assert forall k | 0 <= k < i :: less[k] == more[k];
    assert more[i] == roles[i];
  }

  lemma TargetsSame(s: P.State, t: P.State)
    requires s.disk == t.disk && s.memory.versions == t.memory.versions
    ensures P.Targets(s, TARGETS) == P.Targets(t, TARGETS)
  {
  }

  lemma RescannedBy(d: Disk, m: P.Memory)
    requires S.Shaped(d) && ScannedVersions(d, m.versions)
    requires forall role :: role in m.appRoles <==> Delegates(P.Targets(P.State(d, m), TARGETS).delegations, role)
    requires m.policies == DefaultPolicies(m.appRoles)
    ensures R.Rescanned(d, m)
  {
  }
}

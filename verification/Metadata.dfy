/**
 Signed documents, signing policy and the published disk.

 A byte string is abstracted to its length, to what `json.loads` reads in it when it is a channel
 pointer, and to the rest of its contents. SHA-256 is ideal: a digest determines its preimage.
 */
module Metadata {
  import opened Text
  import opened Naming

  type Role = string
  type KeyId = string

  const ROOT: Role := "root"
  const TARGETS: Role := "targets"
  const SNAPSHOT: Role := "snapshot"
  const TIMESTAMP: Role := "timestamp"
  const TOP_LEVEL_ROLES: set<Role> := {ROOT, TARGETS, SNAPSHOT, TIMESTAMP}

  // ------------------------------------------------------------------ bytes

  datatype CurrentRelease = CurrentRelease(targetPath: string, version: string)

  datatype Bytes = Bytes(length: nat, pointer: Option<CurrentRelease>, rest: seq<nat>)

  datatype Digest = Sha256(of: Bytes)

  /** `CurrentRelease.to_json`: 31 characters of fixed text around two plain strings. */
  function PointerJson(path: string, version: string): Bytes {
    Bytes(31 + |path| + |version|, Some(CurrentRelease(path, version)), [])
  }

  // ----------------------------------------------------------- release info

  datatype InfoFields = InfoFields(version: string, rolloutPct: nat, mandatory: bool,
                                   notesUrl: Option<string>, minOs: Option<string>,
                                   minFromVersion: Option<string>)

  /** What `ReleaseInfo.__post_init__` accepts. */
  type ReleaseInfo = i: InfoFields | IsSegment(i.version) && i.rolloutPct <= 100
    witness InfoFields("1", 100, false, None, None, None)

  /** The signed `custom` object; a field is `None` when absent or of another JSON type. */
  datatype Custom = Custom(version: Option<string>, rolloutPct: Option<nat>, mandatory: Option<bool>,
                           notesUrl: Option<string>, minOs: Option<string>, minFromVersion: Option<string>)

  function ToCustom(i: ReleaseInfo): Custom {
    Custom(Some(i.version), Some(i.rolloutPct), Some(i.mandatory), i.notesUrl, i.minOs, i.minFromVersion)
  }

  // -------------------------------------------------------------- documents

  datatype Entry = Entry(length: nat, digest: Digest, custom: Custom)

  datatype RoleKeys = RoleKeys(keys: set<KeyId>, threshold: nat)

  datatype Delegation = Delegation(role: Role, keys: RoleKeys, terminating: bool, paths: set<string>)

  datatype Body =
    | RootBody(roles: map<Role, RoleKeys>, consistentSnapshot: bool)
    | TargetsBody(targets: map<string, Entry>, delegations: seq<Delegation>)
    | SnapshotBody(meta: map<Role, nat>)
    | TimestampBody(snapshot: nat)

  datatype Doc = Doc(version: nat, signers: set<KeyId>, body: Body)

  /** Some delegation in the list names the role. */
  ghost predicate Delegates(delegations: seq<Delegation>, role: Role) {
    exists i | 0 <= i < |delegations| :: delegations[i].role == role
  }

  /** Signed by a threshold of the keys a role names. */
  predicate SignedBy(doc: Doc, keys: RoleKeys) {
    keys.threshold >= 1 && |doc.signers * keys.keys| >= keys.threshold
  }

  // -------------------------------------------------------------- publish jobs

  /** The payload of a publish job; an absent field and an empty one are alike. */
  datatype PublishJob = PublishJob(sha256: Option<Digest>, version: string, filename: string)

  // ----------------------------------------------------------------- policy

  datatype KeyStore = OFFLINE | ONLINE

  datatype RolePolicy = RolePolicy(keystore: KeyStore, threshold: nat)

  const TOP_LEVEL_POLICIES: map<Role, RolePolicy> :=
    map[ROOT := RolePolicy(OFFLINE, 3), TARGETS := RolePolicy(OFFLINE, 2),
        SNAPSHOT := RolePolicy(ONLINE, 1), TIMESTAMP := RolePolicy(ONLINE, 1)]

  function AppRolePolicy(critical: bool): RolePolicy {
    RolePolicy(if critical then OFFLINE else ONLINE, 1)
  }

  // ------------------------------------------------------------------- disk

  datatype FileName = Versioned(role: Role, version: nat) | TimestampJson | RootJson

  datatype PayloadName = PayloadName(path: string, digest: Digest)

  datatype Disk = Disk(files: map<FileName, Doc>, payloads: map<PayloadName, Bytes>)

  function NameOf(role: Role, version: nat): FileName {
    if role == TIMESTAMP then TimestampJson else Versioned(role, version)
  }
}

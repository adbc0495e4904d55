/**
 The A/B installer (client/dist-core-rs/src/install.rs) over a filesystem that can lose power.

 `End` is where an operation finishes; `Mid` holds of every filesystem it can be interrupted in.
 Renames are atomic; writing a file and removing a directory tree are not.
 */
module Installer {
  import opened Text
  import Gates

  // ------------------------------------------------------------------ pointer

  const MAX_LAUNCH_ATTEMPTS: nat := 3
  const U32_MAX: nat := 0xFFFF_FFFF

  datatype Health = Probation | Confirmed

  datatype Pointer = Pointer(active: string, previous: Option<string>, health: Health, attempts: nat)

  function First(version: string): Pointer {
    Pointer(version, None, Confirmed, 0)
  }

  // --------------------------------------------------------------- filesystem

  /** The files of one directory tree, by name. */
  type Dir = set<string>

  datatype PointerFile = NoPointer | Corrupt | Holds(pointer: Pointer)

  datatype TempFile = NoTemp | Torn | Whole(pointer: Pointer)

  datatype Fs = Fs(pointer: PointerFile, temp: TempFile, staging: map<string, Dir>, versions: map<string, Dir>)

  datatype InstallError =
    | NotInstalled
    | CorruptPointer
    | MissingSlot(version: string)
    | InvalidVersion(version: string)
    | NoPreviousVersion

  datatype Answer = Done | Slot(version: string) | Wrote(pointer: Pointer) | Removed(versions: set<string>)

  datatype Operation =
    | Stage(version: string)
    | Fill(version: string, files: Dir)
    | CommitSlot(version: string)
    | Activate(version: string)
    | BeginLaunch
    | ConfirmHealthy
    | Rollback
    | CleanStaging
    | Prune

  /** `check_version`: safe as a directory name. */
  predicate ValidVersion(v: string) {
    v != [] && v != "." && v != ".." && '/' !in v && '\\' !in v && ':' !in v && '\0' !in v
  }

  /**
   A version is accepted exactly when it names one directory directly under the versions directory, on either
   kind of system and with no drive in front, and is no C string cut short.
   */
  lemma VersionStaysInside(v: string)
    ensures ValidVersion(v) <==>
              && Gates.Resolve(Split(v, '/')) == Some([v]) && Split(v, '\\') == [v] && Split(v, ':') == [v]
              && '\0' !in v
  {
    hide Gates.Resolve, Split;
    SplitWhole(v, '/');
    SplitWhole(v, '\\');
    SplitWhole(v, ':');
    OneDirectory(v);
  }

  lemma OneDirectory(v: string)
    ensures Gates.Resolve(Split(v, '/')) == Some([v]) <==> '/' !in v && v != "" && v != "." && v != ".."
  {
    SplitWhole(v, '/');
    if '/' !in v {
      assert [v][..0] == [] && Gates.Resolve([]) == Some([]) && [] + [v] == [v];
    } else {
      JoinSplit(v, '/');
    }
    if Gates.Resolve(Split(v, '/')) == Some([v]) {
      Gates.ResolvedAreSegments(Split(v, '/'));
      assert [v][0] in Split(v, '/');
    }
    hide Split;
  }

  function ReadPointer(s: Fs): Result<Pointer, InstallError> {
    match s.pointer
    case NoPointer => Err(NotInstalled)
    case Corrupt => Err(CorruptPointer)
    case Holds(p) => Ok(p)
  }

  // ------------------------------------------------------------- what each does

  /** The pointer `activate` writes. */
  function Activated(s: Fs, version: string): Result<Pointer, InstallError> {
    if !ValidVersion(version) then Err(InvalidVersion(version))
    else if version !in s.versions then Err(MissingSlot(version))
    else
      match s.pointer
      case NoPointer => Ok(First(version))
      case Corrupt => Err(CorruptPointer)
      case Holds(p) =>
        if p.active == version then Ok(p.(health := Confirmed, attempts := 0))
        else Ok(Pointer(version, Some(p.active), Probation, 0))
  }

  function RolledBack(s: Fs): Result<Pointer, InstallError> {
    var p :- ReadPointer(s);
    match p.previous
    case None => Err(NoPreviousVersion)
    case Some(previous) =>
      if previous !in s.versions then Err(MissingSlot(previous)) else Ok(First(previous))
  }

  predicate Exhausted(p: Pointer) {
    p.health == Probation && p.attempts >= MAX_LAUNCH_ATTEMPTS
  }

  /** The pointer `begin_launch` writes before it resolves a slot. */
  function Launching(s: Fs): Result<Pointer, InstallError> {
    var p :- ReadPointer(s);
    if Exhausted(p) then RolledBack(s)
    else Ok(p.(attempts := if p.attempts < U32_MAX then p.attempts + 1 else U32_MAX))
  }

  function Confirming(s: Fs): Result<Pointer, InstallError> {
    var p :- ReadPointer(s);
    Ok(p.(health := Confirmed, attempts := 0))
  }

  /** The pointer an operation replaces the current one with, when it gets that far. */
  function Written(s: Fs, op: Operation): Option<Pointer> {
    var r := match op
      case Activate(v) => Activated(s, v)
      case BeginLaunch => Launching(s)
      case ConfirmHealthy => Confirming(s)
      case Rollback => RolledBack(s)
      case _ => Err(NotInstalled);
    if r.Ok? then Some(r.value) else None
  }

  /** The versions a pointer keeps in use. */
  function Named(f: PointerFile): set<string> {
    match f
    case Holds(p) => {p.active} + (if p.previous.Some? then {p.previous.value} else {})
    case _ => {}
  }

  /** Where an operation ends when nothing interrupts it. */
  function End(s: Fs, op: Operation): Fs {
    match op
    case Stage(v) => if ValidVersion(v) then s.(staging := s.staging[v := {}]) else s
    case Fill(v, files) => if v in s.staging then s.(staging := s.staging[v := s.staging[v] + files]) else s
    case CommitSlot(v) =>
      if ValidVersion(v) && v in s.staging
      then s.(staging := s.staging - {v}, versions := s.versions[v := s.staging[v]])
      else s
    case CleanStaging => s.(staging := map[])
    case Prune =>
      if ReadPointer(s).Ok? then s.(versions := map v | v in s.versions && v in Named(s.pointer) :: s.versions[v])
      else s
    case _ =>
      match Written(s, op)
      case Some(p) => s.(pointer := Holds(p), temp := NoTemp)
      case None => s
  }

  /** `x` is `s` with some files of these directories removed, or the directories themselves. */
  ghost predicate Shrunk(s: map<string, Dir>, x: map<string, Dir>, doomed: set<string>) {
    && x.Keys <= s.Keys
    && (forall v | v in s && v !in doomed :: v in x && x[v] == s[v])
    && (forall v | v in x :: x[v] <= s[v])
  }

  /** Every filesystem an operation can be interrupted in, its start and its end included. */
  ghost predicate Mid(s: Fs, op: Operation, x: Fs) {
    || x == s || x == End(s, op)
    || match op
       case Stage(v) => ValidVersion(v) && x == s.(staging := x.staging) && Shrunk(s.staging, x.staging, {v})
       case Fill(v, files) =>
         v in s.staging && v in x.staging && x == s.(staging := s.staging[v := x.staging[v]])
         && s.staging[v] <= x.staging[v] <= s.staging[v] + files
       case CommitSlot(v) =>
         ValidVersion(v) && v in s.staging && x == s.(versions := x.versions) && Shrunk(s.versions, x.versions, {v})
       case CleanStaging => x == s.(staging := x.staging) && Shrunk(s.staging, x.staging, s.staging.Keys)
       case Prune =>
         && ReadPointer(s).Ok?
         && x == s.(versions := x.versions)
         && Shrunk(s.versions, x.versions, s.versions.Keys - Named(s.pointer))
       case _ => Written(s, op).Some? && (x == s.(temp := Torn) || x == s.(temp := Whole(Written(s, op).value)))
  }

  function Resolve(s: Fs, version: string): Result<Answer, InstallError> {
    if version in s.versions then Ok(Slot(version)) else Err(MissingSlot(version))
  }

  /** What an operation returns. */
  function Outcome(s: Fs, op: Operation): Result<Answer, InstallError> {
    match op
    case Stage(v) => if ValidVersion(v) then Ok(Done) else Err(InvalidVersion(v))
    case Fill(v, _) => if v in s.staging then Ok(Done) else Err(MissingSlot(v))
    case CommitSlot(v) =>
      if !ValidVersion(v) then Err(InvalidVersion(v))
      else if v !in s.staging then Err(MissingSlot(v))
      else Ok(Slot(v))
    case Activate(v) => var p :- Activated(s, v); Ok(Wrote(p))
    case BeginLaunch => var p :- Launching(s); Resolve(s, p.active)
    case ConfirmHealthy => var p :- Confirming(s); Ok(Wrote(p))
    case Rollback => var p :- RolledBack(s); Ok(Wrote(p))
    case CleanStaging => Ok(Done)
    case Prune => var p :- ReadPointer(s); Ok(Removed(s.versions.Keys - Named(s.pointer)))
  }

  // --------------------------------------------------- what each leaves behind

  /**
   A finished prune, and what it reports: every old slot is either left or reported, none both; the ones left are
   exactly the active and the previous version, as they were. Without a readable pointer nothing goes.
   */
  lemma PruneLeaves(s: Fs)
    ensures s.pointer.Holds? ==>
              && Outcome(s, Prune).Ok? && Outcome(s, Prune).value.Removed?
              && var p, t, gone := s.pointer.pointer, End(s, Prune), Outcome(s, Prune).value.versions;
                 && gone !! t.versions.Keys && gone + t.versions.Keys == s.versions.Keys
                 && (forall v :: v in t.versions <==> v in s.versions && (v == p.active || p.previous == Some(v)))
                 && (forall v | v in t.versions :: t.versions[v] == s.versions[v])
                 && t == s.(versions := t.versions)
    ensures !s.pointer.Holds? ==> Outcome(s, Prune).Err? && End(s, Prune) == s
  {
  }

  /** Staging and committing touch one staging directory and one slot; cleaning leaves nothing staged. */
  lemma StagingLeaves(s: Fs, v: string, files: Dir)
    ensures ValidVersion(v) ==> && Outcome(s, Stage(v)) == Ok(Done) && v in End(s, Stage(v)).staging
                                && End(s, Stage(v)) == s.(staging := s.staging[v := {}])
    ensures !ValidVersion(v) ==> && Outcome(s, Stage(v)) == Outcome(s, CommitSlot(v)) == Err(InvalidVersion(v))
                                 && End(s, Stage(v)) == s == End(s, CommitSlot(v))
    ensures v in s.staging ==> End(s, Fill(v, files)) == s.(staging := s.staging[v := s.staging[v] + files])
    ensures ValidVersion(v) && v in s.staging ==>
              && Outcome(s, CommitSlot(v)) == Ok(Slot(v))
              && End(s, CommitSlot(v)) == Fs(s.pointer, s.temp, s.staging - {v}, s.versions[v := s.staging[v]])
    ensures ValidVersion(v) && v !in s.staging ==>
              Outcome(s, CommitSlot(v)) == Err(MissingSlot(v)) && End(s, CommitSlot(v)) == s
    ensures Outcome(s, CleanStaging) == Ok(Done)
         && End(s, CleanStaging) == Fs(s.pointer, s.temp, map[], s.versions)
  {
  }

  /** An operation that fails leaves every byte where it was; one that succeeds leaves this pointer and no temp file. */
  ghost predicate Leaves(s: Fs, op: Operation, p: Result<Pointer, InstallError>) {
    && (p.Ok? ==> End(s, op) == Fs(Holds(p.value), NoTemp, s.staging, s.versions))
    && (p.Err? ==> End(s, op) == s && Outcome(s, op) == Err(p.error))
  }

  /** The pointer each operation leaves, by the pointer it finds. */
  lemma PointerLeft(s: Fs, v: string)
    requires s.pointer.Holds?
    ensures var p := s.pointer.pointer;
            var back := if p.previous.None? then Err(NoPreviousVersion)
                        else if p.previous.value !in s.versions then Err(MissingSlot(p.previous.value))
                        else Ok(Pointer(p.previous.value, None, Confirmed, 0));
            && Leaves(s, Rollback, back)
            && Leaves(s, ConfirmHealthy, Ok(Pointer(p.active, p.previous, Confirmed, 0)))
            && Leaves(s, Activate(v), if !ValidVersion(v) then Err(InvalidVersion(v))
                                      else if v !in s.versions then Err(MissingSlot(v))
                                      else if v == p.active then Ok(Pointer(v, p.previous, Confirmed, 0))
                                      else Ok(Pointer(v, Some(p.active), Probation, 0)))
            && Leaves(s, BeginLaunch, if p.health == Probation && p.attempts >= 3 then back
                                      else Ok(Pointer(p.active, p.previous, p.health,
                                                      if p.attempts < 4294967295 then p.attempts + 1 else 4294967295)))
  {
  }

  /** Without a readable pointer only a first activation, on an empty install, writes one. */
  lemma NoPointerLeft(s: Fs, v: string, op: Operation)
    requires !s.pointer.Holds? && op in [BeginLaunch, ConfirmHealthy, Rollback]
    ensures Leaves(s, op, Err(if s.pointer == Corrupt then CorruptPointer else NotInstalled))
    ensures Leaves(s, Activate(v), if !ValidVersion(v) then Err(InvalidVersion(v))
                                   else if v !in s.versions then Err(MissingSlot(v))
                                   else if s.pointer == Corrupt then Err(CorruptPointer)
                                   else Ok(Pointer(v, None, Confirmed, 0)))
  {
  }

  // ------------------------------------------------------------------- safety

  /** What every file of each version is. */
  type Releases = string -> Dir

  ghost predicate Complete(s: Fs, release: Releases, v: string) {
    v in s.versions && s.versions[v] == release(v)
  }

  /** The pointer can be read, and every version it names is there in full. */
  ghost predicate Safe(s: Fs, release: Releases) {
    s.pointer != Corrupt && forall v | v in Named(s.pointer) :: Complete(s, release, v)
  }

  /** Committing replaces a slot that is not in use. */
  predicate SparesNamed(s: Fs, version: string) {
    ValidVersion(version) && version in s.staging ==> version !in Named(s.pointer)
  }

  /** Activating chooses a complete slot. */
  ghost predicate ChoosesComplete(s: Fs, release: Releases, version: string) {
    ValidVersion(version) && version in s.versions ==> Complete(s, release, version)
  }

  ghost predicate Careful(s: Fs, release: Releases, op: Operation) {
    match op
    case CommitSlot(v) => SparesNamed(s, v)
    case Activate(v) => ChoosesComplete(s, release, v)
    case _ => true
  }

  /** One operation, cut anywhere or not at all, leaves a usable install. */
  lemma EveryCutIsSafe(s: Fs, release: Releases, op: Operation, x: Fs)
    requires Safe(s, release) && Careful(s, release, op) && Mid(s, op, x)
    ensures Safe(x, release)
  {
    if x != s && x.pointer != s.pointer {
      var p := Written(s, op).value;
      assert x.pointer == Holds(p) && x.versions == s.versions;
      assert forall v | v in Named(x.pointer) :: Complete(s, release, v);
    }
  }

  /**
   The module's claim needs its hypothesis: a commit is safe at every step exactly when it spares the slots in use.
   */
  lemma CommitIsSafeIff(s: Fs, release: Releases, version: string)
    requires Safe(s, release)
    ensures (forall x | Mid(s, CommitSlot(version), x) :: Safe(x, release)) <==> SparesNamed(s, version)
  {
    if SparesNamed(s, version) {
      forall x | Mid(s, CommitSlot(version), x) ensures Safe(x, release) {
        EveryCutIsSafe(s, release, CommitSlot(version), x);
      }
    } else {
      var x := s.(versions := s.versions - {version});
      assert Shrunk(s.versions, x.versions, {version});
      assert Mid(s, CommitSlot(version), x);
      assert !Complete(x, release, version) && version in Named(x.pointer);
    }
  }

  /** And an activation exactly when the slot it chooses is complete. */
  lemma ActivateIsSafeIff(s: Fs, release: Releases, version: string)
    requires Safe(s, release)
    ensures (forall x | Mid(s, Activate(version), x) :: Safe(x, release)) <==> ChoosesComplete(s, release, version)
  {
    if ChoosesComplete(s, release, version) {
      forall x | Mid(s, Activate(version), x) ensures Safe(x, release) {
        EveryCutIsSafe(s, release, Activate(version), x);
      }
    } else {
      var x := End(s, Activate(version));
      assert Mid(s, Activate(version), x);
      assert version in Named(x.pointer) && !Complete(x, release, version);
    }
  }

  /** A cut `prune` leaves a husk that `activate` still takes for a slot. */
  lemma PruneLeavesHusks(s: Fs, release: Releases, version: string)
    requires Safe(s, release) && ReadPointer(s).Ok? && ValidVersion(version)
    requires Complete(s, release, version) && version !in Named(s.pointer) && release(version) != {}
    ensures exists x ::
              Mid(s, Prune, x) && Outcome(x, Activate(version)).Ok? && !Safe(End(x, Activate(version)), release)
  {
    var x := s.(versions := s.versions[version := {}]);
    assert Shrunk(s.versions, x.versions, s.versions.Keys - Named(s.pointer));
    assert Mid(s, Prune, x);
    var y := End(x, Activate(version));
    assert version in Named(y.pointer) && !Complete(y, release, version);
  }

  // -------------------------------------------------------------- whole runs

  datatype Event = Event(op: Operation, cut: bool)

  ghost predicate Steps(s: Fs, e: Event, x: Fs) {
    if e.cut then Mid(s, e.op, x) else x == End(s, e.op)
  }

  ghost predicate RunOf(events: seq<Event>, states: seq<Fs>) {
    |states| == |events| + 1 && forall i | 0 <= i < |events| :: Steps(states[i], events[i], states[i + 1])
  }

  /** The versions committed whole before event `n`, with no other commit of them and no prune since. */
  ghost function Ready(events: seq<Event>, states: seq<Fs>, release: Releases, n: nat): set<string>
    requires |states| == |events| + 1 && n <= |events|
  {
    if n == 0 then {}
    else
      var before, s, e := Ready(events, states, release, n - 1), states[n - 1], events[n - 1];
      match e.op
      case CommitSlot(v) =>
        if !e.cut && ValidVersion(v) && v in s.staging && s.staging[v] == release(v) then before + {v} else before - {v}
      case Prune => {}
      case _ => before
  }

  /** No commit over a slot in use, and each activation after its commit with no prune between. */
  ghost predicate Orderly(events: seq<Event>, states: seq<Fs>, release: Releases)
    requires |states| == |events| + 1
  {
    forall i | 0 <= i < |events| ::
      match events[i].op
      case CommitSlot(v) => SparesNamed(states[i], v)
      case Activate(v) =>
        ValidVersion(v) && v in states[i].versions ==> v in Ready(events, states, release, i) + Named(states[i].pointer)
      case _ => true
  }

  lemma StepKeepsReady(s: Fs, e: Event, x: Fs, release: Releases, ready: set<string>, v: string)
    requires Steps(s, e, x) && Complete(s, release, v)
    requires e.op != Prune && (e.op.CommitSlot? ==> e.op.version != v)
    ensures Complete(x, release, v)
  {
  }

  lemma {:induction false} RunKeepsSafe(events: seq<Event>, states: seq<Fs>, release: Releases, n: nat)
    requires RunOf(events, states) && Orderly(events, states, release) && Safe(states[0], release) && n <= |events|
    ensures Safe(states[n], release)
    ensures forall v | v in Ready(events, states, release, n) :: Complete(states[n], release, v)
  {
    if n > 0 {
      var s, e, x := states[n - 1], events[n - 1], states[n];
      RunKeepsSafe(events, states, release, n - 1);
      assert Steps(s, e, x);
      EveryCutIsSafe(s, release, e.op, x);
      forall v | v in Ready(events, states, release, n) ensures Complete(x, release, v) {
        if !(e.op == CommitSlot(v)) {
          StepKeepsReady(s, e, x, release, Ready(events, states, release, n - 1), v);
        }
      }
    }
  }

  /**
   Every run of operations, each cut at any filesystem step: the pointer is readable and its slots are
   complete, in the states between operations and in every state inside one.
   */
  lemma EveryRunIsSafe(events: seq<Event>, states: seq<Fs>, release: Releases)
    requires RunOf(events, states) && Orderly(events, states, release) && Safe(states[0], release)
    ensures forall n | 0 <= n <= |events| :: Safe(states[n], release)
    ensures forall n, x | 0 <= n < |events| && Mid(states[n], events[n].op, x) :: Safe(x, release)
  {
    hide Mid, Steps, Safe, Complete, Orderly;
    forall n: nat | n <= |events| ensures Safe(states[n], release) {
      RunKeepsSafe(events, states, release, n);
    }
    forall n: nat, x | n < |events| && Mid(states[n], events[n].op, x) ensures Safe(x, release) {
      RunKeepsSafe(events, states, release, n);
      OrderlyIsCareful(events, states, release, n);
      EveryCutIsSafe(states[n], release, events[n].op, x);
    }
  }

  lemma OrderlyIsCareful(events: seq<Event>, states: seq<Fs>, release: Releases, n: nat)
    requires |states| == |events| + 1 && n < |events| && Orderly(events, states, release) && Safe(states[n], release)
    requires forall v | v in Ready(events, states, release, n) :: Complete(states[n], release, v)
    ensures Careful(states[n], release, events[n].op)
  {
    hide Ready;
  }

  // -------------------------------------------------------------------- retry

  function EndAll(s: Fs, ops: seq<Operation>): Fs
    decreases |ops|
  {
    if ops == [] then s else EndAll(End(s, ops[0]), ops[1..])
  }

  /** The update from the start: stage, unpack, commit, activate, launch, confirm. */
  function Retry(version: string, files: Dir): seq<Operation> {
    [Stage(version), Fill(version, files), CommitSlot(version), Activate(version), BeginLaunch, ConfirmHealthy]
  }

  lemma EndAllCons(s: Fs, op: Operation, ops: seq<Operation>)
    ensures EndAll(s, [op] + ops) == EndAll(End(s, op), ops)
  {
    assert ([op] + ops)[1..] == ops;
  }

  /** The pointer an uncut retry leaves. */
  function Retried(f: PointerFile, version: string): Pointer {
    match f
    case Holds(p) => Pointer(version, if p.active == version then p.previous else Some(p.active), Confirmed, 0)
    case _ => First(version)
  }

  lemma CommitEnds(s: Fs, version: string, files: Dir)
    requires ValidVersion(version)
    ensures EndAll(s, Retry(version, files)[..3])
         == s.(staging := s.staging - {version}, versions := s.versions[version := files])
  {
    var ops := Retry(version, files)[..3];
    assert ops == [Stage(version)] + ([Fill(version, files)] + ([CommitSlot(version)] + []));
    var s1 := End(s, Stage(version));
    var s2 := End(s1, Fill(version, files));
    EndAllCons(s, Stage(version), [Fill(version, files)] + ([CommitSlot(version)] + []));
    EndAllCons(s1, Fill(version, files), [CommitSlot(version)] + []);
    EndAllCons(s2, CommitSlot(version), []);
    assert {} + files == files;
    assert s2.staging[version] == files && s2.staging - {version} == s.staging - {version};
  }

  lemma {:induction false} EndAllSplit(s: Fs, a: seq<Operation>, b: seq<Operation>)
    ensures EndAll(s, a + b) == EndAll(EndAll(s, a), b)
    decreases |a|
  {
    if a == [] {
      assert a + b == b;
    } else {
      assert (a + b)[1..] == a[1..] + b;
      EndAllSplit(End(s, a[0]), a[1..], b);
    }
  }

  /** Activating a slot that is there, launching it and confirming it. */
  lemma LaunchedEnds(s: Fs, version: string)
    requires s.pointer != Corrupt && ValidVersion(version) && version in s.versions
    ensures var s4 := End(s, Activate(version));
            && Outcome(s4, BeginLaunch) == Ok(Slot(version))
            && End(End(s4, BeginLaunch), ConfirmHealthy)
               == Fs(Holds(Retried(s.pointer, version)), NoTemp, s.staging, s.versions)
  {
    hide ValidVersion, Named;
  }

  lemma RetriedIsSafe(s: Fs, t: Fs, release: Releases, version: string)
    requires Safe(s, release) && t.pointer == Holds(Retried(s.pointer, version))
    requires t.versions == s.versions[version := release(version)]
    ensures Safe(t, release)
  {
    assert Named(t.pointer) <= Named(s.pointer) + {version};
    forall v | v in Named(t.pointer) ensures Complete(t, release, v) {
      if v != version { assert Complete(s, release, v); }
    }
  }

  /** From every safe state an uncut retry succeeds, and ends with the version active and confirmed. */
  lemma RetryEnds(s: Fs, release: Releases, version: string)
    requires Safe(s, release) && ValidVersion(version)
    ensures var t := EndAll(s, Retry(version, release(version)));
            && t.pointer == Holds(Retried(s.pointer, version)) && Safe(t, release)
    ensures var committed := EndAll(s, Retry(version, release(version))[..3]);
            Outcome(End(committed, Activate(version)), BeginLaunch) == Ok(Slot(version))
  {
    var ops := Retry(version, release(version));
    CommitEnds(s, version, release(version));
    var s3 := EndAll(s, ops[..3]);
    assert s3.pointer != Corrupt by { hide EndAll; }
    assert ops == ops[..3] + ([Activate(version)] + ([BeginLaunch] + ([ConfirmHealthy] + [])));
    hide End, Outcome, ValidVersion, Retried, Safe;
    EndAllSplit(s, ops[..3], [Activate(version)] + ([BeginLaunch] + ([ConfirmHealthy] + [])));
    EndAllCons(s3, Activate(version), [BeginLaunch] + ([ConfirmHealthy] + []));
    EndAllCons(End(s3, Activate(version)), BeginLaunch, [ConfirmHealthy] + []);
    EndAllCons(End(End(s3, Activate(version)), BeginLaunch), ConfirmHealthy, []);
    LaunchedEnds(s3, version);
    RetriedIsSafe(s, EndAll(s, ops), release, version);
  }

  // --------------------------------------------------------- pointer invariant

  predicate PointerOk(p: Pointer) {
    && (p.previous.Some? ==> p.previous.value != p.active)
    && (p.health == Probation ==> p.previous.Some? && p.attempts <= MAX_LAUNCH_ATTEMPTS)
    && p.attempts <= U32_MAX
  }

  predicate PointerFileOk(f: PointerFile) {
    f.Holds? ==> PointerOk(f.pointer)
  }

  /** Every operation keeps the pointer invariant, at every step it can be cut at. */
  lemma EveryCutKeepsPointer(s: Fs, op: Operation, x: Fs)
    requires PointerFileOk(s.pointer) && Mid(s, op, x)
    ensures PointerFileOk(x.pointer)
  {
    if x.pointer != s.pointer {
      assert x.pointer == Holds(Written(s, op).value);
    }
  }

  /** Activation starts the trial that `AtMostThreeLaunches` is about, and an explicit rollback undoes it. */
  lemma ActivationStartsTrial(s: Fs, release: Releases, version: string)
    requires Safe(s, release) && s.pointer.Holds? && ValidVersion(version) && version in s.versions
    ensures End(s, Activate(version)).pointer == Holds(
      if version == s.pointer.pointer.active then Pointer(version, s.pointer.pointer.previous, Confirmed, 0)
      else Pointer(version, Some(s.pointer.pointer.active), Probation, 0))
    ensures version != s.pointer.pointer.active ==>
              Outcome(End(s, Activate(version)), Rollback)
              == Ok(Wrote(Pointer(s.pointer.pointer.active, None, Confirmed, 0)))
  {
    assert s.pointer.pointer.active in Named(s.pointer);
  }

  lemma {:induction false} EveryRunKeepsPointer(events: seq<Event>, states: seq<Fs>, n: nat)
    requires RunOf(events, states) && PointerFileOk(states[0].pointer) && n <= |events|
    ensures PointerFileOk(states[n].pointer)
  {
    hide Mid, PointerOk;
    if n > 0 {
      EveryRunKeepsPointer(events, states, n - 1);
      assert Steps(states[n - 1], events[n - 1], states[n]);
      EndIsMid(states[n - 1], events[n - 1].op);
      EveryCutKeepsPointer(states[n - 1], events[n - 1].op, states[n]);
    }
  }

  lemma EndIsMid(s: Fs, op: Operation)
    ensures Mid(s, op, End(s, op))
  {
  }

  /** The automatic rollback always has somewhere to go, and a confirmed version is never rolled back by a launch. */
  lemma LaunchIsSound(s: Fs, release: Releases, x: Fs)
    requires Safe(s, release) && s.pointer.Holds? && PointerOk(s.pointer.pointer) && Mid(s, BeginLaunch, x)
    ensures Launching(s).Ok? && Outcome(s, BeginLaunch) == Ok(Slot(Launching(s).value.active))
    ensures Launching(s).value.active != s.pointer.pointer.active <==> Exhausted(s.pointer.pointer)
    ensures s.pointer.pointer.health == Confirmed ==>
              && x.pointer.Holds?
              && x.pointer.pointer.active == s.pointer.pointer.active
              && x.pointer.pointer.health == Confirmed
  {
    var p := s.pointer.pointer;
    assert p.active in Named(s.pointer);
    if Exhausted(p) {
      assert p.previous.value in Named(s.pointer);
    }
  }

  /** Without anyone deciding: no activation, no confirmation, no explicit rollback. */
  predicate Unattended(events: seq<Event>) {
    forall i | 0 <= i < |events| ::
      !events[i].op.Activate? && events[i].op != ConfirmHealthy && events[i].op != Rollback
  }

  /** Event `i` is a launch that got to start the version it resolved. */
  predicate Launched(events: seq<Event>, states: seq<Fs>, i: nat, version: string)
    requires |states| == |events| + 1 && i < |events|
  {
    events[i] == Event(BeginLaunch, false) && Launching(states[i]).Ok? && Launching(states[i]).value.active == version
  }

  ghost function Launches(events: seq<Event>, states: seq<Fs>, n: nat, version: string): nat
    requires |states| == |events| + 1 && n <= |events|
  {
    if n == 0 then 0 else Launches(events, states, n - 1, version) + if Launched(events, states, n - 1, version) then 1
    else 0
  }

  /** On probation with enough attempts recorded, or already back on the previous version. */
  ghost predicate OnTrial(f: PointerFile, v: string, previous: string, launches: nat) {
    && f.Holds?
    && (|| (&& f.pointer.active == v && f.pointer.previous == Some(previous) && f.pointer.health == Probation
            && launches <= f.pointer.attempts <= MAX_LAUNCH_ATTEMPTS)
        || (&& f.pointer.active == previous && f.pointer.previous == None && f.pointer.health == Confirmed
            && launches <= MAX_LAUNCH_ATTEMPTS))
  }

  lemma TrialStep(s: Fs, release: Releases, e: Event, x: Fs, v: string, previous: string, launches: nat)
    requires Safe(s, release) && Steps(s, e, x) && v != previous && OnTrial(s.pointer, v, previous, launches)
    requires !e.op.Activate? && e.op != ConfirmHealthy && e.op != Rollback
    ensures var started := e == Event(BeginLaunch, false) && Launching(s).Ok? && Launching(s).value.active == v;
            OnTrial(x.pointer, v, previous, launches + if started then 1 else 0)
    ensures s.pointer.pointer.active == previous ==> x.pointer.pointer.active == previous
  {
    assert previous in Named(s.pointer);
    if e.op != BeginLaunch {
      assert x.pointer == s.pointer;
    }
  }

  lemma {:induction false} TrialRuns(events: seq<Event>, states: seq<Fs>, release: Releases, v: string,
                                     previous: string, n: nat)
    requires RunOf(events, states) && Orderly(events, states, release) && Safe(states[0], release) && Unattended(events)
    requires v != previous && states[0].pointer == Holds(Pointer(v, Some(previous), Probation, 0)) && n <= |events|
    ensures OnTrial(states[n].pointer, v, previous, Launches(events, states, n, v))
    ensures forall m | 0 <= m <= n && states[m].pointer.Holds? && states[m].pointer.pointer.active == previous ::
              states[n].pointer.Holds? && states[n].pointer.pointer.active == previous
  {
    hide Steps, Safe, Orderly;
    if n > 0 {
      TrialRuns(events, states, release, v, previous, n - 1);
      RunKeepsSafe(events, states, release, n - 1);
      TrialStep(states[n - 1], release, events[n - 1], states[n], v, previous, Launches(events, states, n - 1, v));
    }
  }

  lemma LaunchResolves(events: seq<Event>, states: seq<Fs>, release: Releases, v: string, previous: string, i: nat)
    requires RunOf(events, states) && Orderly(events, states, release) && Safe(states[0], release) && Unattended(events)
    requires v != previous && states[0].pointer == Holds(Pointer(v, Some(previous), Probation, 0)) && i < |events|
    ensures Outcome(states[i], BeginLaunch) in [Ok(Slot(v)), Ok(Slot(previous))]
    ensures Launches(events, states, i, v) == MAX_LAUNCH_ATTEMPTS ==>
              Outcome(states[i], BeginLaunch) == Ok(Slot(previous))
    ensures states[i].pointer.Holds? && states[i].pointer.pointer.active == previous ==>
              Outcome(states[i], BeginLaunch) == Ok(Slot(previous))
  {
    assert |states| == |events| + 1;
    hide Orderly, Launches, Safe, RunOf, Unattended, Outcome, OnTrial;
    TrialRuns(events, states, release, v, previous, i);
    RunKeepsSafe(events, states, release, i);
    TrialLaunch(states[i], release, v, previous, Launches(events, states, i, v));
  }

  /** Once the previous version has been launched, it is the active one. */
  lemma LaunchSettles(events: seq<Event>, states: seq<Fs>, release: Releases, v: string, previous: string, i: nat,
                      j: nat)
    requires RunOf(events, states) && Orderly(events, states, release) && Safe(states[0], release) && Unattended(events)
    requires v != previous && states[0].pointer == Holds(Pointer(v, Some(previous), Probation, 0))
    requires i < j <= |events| && Launched(events, states, i, previous)
    ensures states[j].pointer.Holds? && states[j].pointer.pointer.active == previous
  {
    hide Orderly, Safe, Unattended;
    assert Steps(states[i], events[i], states[i + 1]);
    assert states[i + 1].pointer.Holds? && states[i + 1].pointer.pointer.active == previous;
    assert |states| == |events| + 1;
    hide RunOf, Steps, Launched;
    TrialRuns(events, states, release, v, previous, j);
  }

  /**
   A newly activated version that is never confirmed is launched at most three times; each launch
   resolves, to it or to the previous version; and after the third, or after the first that resolves
   to the previous version, every later one resolves to the previous version.
   */
  lemma AtMostThreeLaunches(events: seq<Event>, states: seq<Fs>, release: Releases, v: string, previous: string)
    requires RunOf(events, states) && Orderly(events, states, release) && Safe(states[0], release) && Unattended(events)
    requires v != previous && states[0].pointer == Holds(Pointer(v, Some(previous), Probation, 0))
    ensures Launches(events, states, |events|, v) <= 3
    ensures forall i: nat | i < |events| :: Outcome(states[i], BeginLaunch) in [Ok(Slot(v)), Ok(Slot(previous))]
    ensures forall i: nat | i < |events| && Launches(events, states, i, v) == 3 ::
              Outcome(states[i], BeginLaunch) == Ok(Slot(previous))
    ensures forall i: nat, j: nat | i < j < |events| && Launched(events, states, i, previous) ::
              Outcome(states[j], BeginLaunch) == Ok(Slot(previous))
  {
    assert |states| == |events| + 1;
    TrialRuns(events, states, release, v, previous, |events|);
    assert Launches(events, states, |events|, v) <= MAX_LAUNCH_ATTEMPTS by {
      hide RunOf, Orderly, Safe, Unattended, Launches;
    }
    hide RunOf, Orderly, Safe, Unattended, Launches, Launched, Outcome, OnTrial;
    forall i: nat | i < |events|
      ensures Outcome(states[i], BeginLaunch) in [Ok(Slot(v)), Ok(Slot(previous))]
      ensures Launches(events, states, i, v) == MAX_LAUNCH_ATTEMPTS ==>
                Outcome(states[i], BeginLaunch) == Ok(Slot(previous))
    {
      LaunchResolves(events, states, release, v, previous, i);
    }
    forall i: nat, j: nat | i < j < |events| && Launched(events, states, i, previous)
      ensures Outcome(states[j], BeginLaunch) == Ok(Slot(previous))
    {
      LaunchSettles(events, states, release, v, previous, i, j);
      LaunchResolves(events, states, release, v, previous, j);
    }
  }

  lemma TrialLaunch(s: Fs, release: Releases, v: string, previous: string, launches: nat)
    requires Safe(s, release) && v != previous && OnTrial(s.pointer, v, previous, launches)
    ensures Outcome(s, BeginLaunch) in [Ok(Slot(v)), Ok(Slot(previous))]
    ensures launches == MAX_LAUNCH_ATTEMPTS || s.pointer.pointer.active == previous ==>
              Outcome(s, BeginLaunch) == Ok(Slot(previous))
  {
    assert previous in Named(s.pointer) && s.pointer.pointer.active in Named(s.pointer);
  }

  // ----------------------------------------------------------- what confirmed means

  predicate StaysConfirmed(s: Fs, version: string) {
    s.pointer.Holds? && s.pointer.pointer.active == version && s.pointer.pointer.health == Confirmed
  }

  /** A version on probation becomes confirmed by confirming it, or by activating it again: no launch is needed. */
  lemma WhoConfirms(s: Fs, op: Operation)
    requires s.pointer.Holds? && PointerOk(s.pointer.pointer) && s.pointer.pointer.health == Probation
    ensures StaysConfirmed(End(s, op), s.pointer.pointer.active)
       <==> op == ConfirmHealthy
            || (op == Activate(s.pointer.pointer.active) && ValidVersion(op.version) && op.version in s.versions)
  {
  }

  ghost predicate EverConfirmed(states: seq<Fs>, n: nat, version: string) {
    exists j | 0 <= j <= n && j < |states| ::
      && states[j].pointer.Holds?
      && states[j].pointer.pointer.active == version
      && states[j].pointer.pointer.health == Confirmed
  }

  /** Updating only away from confirmed versions. */
  predicate ActivatesFromConfirmed(events: seq<Event>, states: seq<Fs>)
    requires |states| == |events| + 1
  {
    forall i | 0 <= i < |events| && events[i].op.Activate? && states[i].pointer.Holds?
               && states[i].pointer.pointer.active != events[i].op.version ::
      states[i].pointer.pointer.health == Confirmed
  }

  lemma EverLater(states: seq<Fs>, m: nat, n: nat, version: string)
    requires m <= n && EverConfirmed(states, m, version)
    ensures EverConfirmed(states, n, version)
  {
  }

  /** Then the rollback target was confirmed while it was active. */
  lemma {:induction false} RollbackTargetWasConfirmed(events: seq<Event>, states: seq<Fs>, n: nat)
    requires RunOf(events, states) && ActivatesFromConfirmed(events, states) && n <= |events|
    requires states[0].pointer.Holds? ==> states[0].pointer.pointer.previous.None?
    ensures states[n].pointer.Holds? && states[n].pointer.pointer.previous.Some? ==>
              EverConfirmed(states, n, states[n].pointer.pointer.previous.value)
  {
    hide EverConfirmed;
    if n > 0 {
      RollbackTargetWasConfirmed(events, states, n - 1);
      var s, e, x := states[n - 1], events[n - 1], states[n];
      assert Steps(s, e, x);
      if x.pointer.Holds? && x.pointer.pointer.previous.Some? {
        var u := x.pointer.pointer.previous.value;
        if s.pointer.Holds? && s.pointer.pointer.previous == Some(u) {
          EverLater(states, n - 1, n, u);
        } else {
          TargetComesFromActive(s, e.op, x);
          ConfirmedNow(states, n - 1, u);
          EverLater(states, n - 1, n, u);
        }
      }
    }
  }

  lemma ConfirmedNow(states: seq<Fs>, n: nat, version: string)
    requires n < |states| && states[n].pointer.Holds? && states[n].pointer.pointer.active == version
    requires states[n].pointer.pointer.health == Confirmed
    ensures EverConfirmed(states, n, version)
  {
  }

  lemma TargetComesFromActive(s: Fs, op: Operation, x: Fs)
    requires Mid(s, op, x) && x.pointer.Holds? && x.pointer.pointer.previous.Some?
    requires !(s.pointer.Holds? && s.pointer.pointer.previous == x.pointer.pointer.previous)
    ensures op.Activate? && s.pointer.Holds? && s.pointer.pointer.active != op.version
    ensures x.pointer.pointer.previous == Some(s.pointer.pointer.active)
  {
    assert x.pointer != s.pointer;
    assert x.pointer == Holds(Written(s, op).value);
  }

  // ------------------------------------------------------------------- tenures

  predicate ActiveIs(s: Fs, version: string) {
    s.pointer.Holds? && s.pointer.pointer.active == version
  }

  /** Active without a break from state `j` to state `n`. */
  ghost predicate Tenure(states: seq<Fs>, j: nat, n: nat, version: string) {
    j <= n < |states| && forall i | j <= i <= n :: ActiveIs(states[i], version)
  }

  /** Confirmed at some point of the tenure that is running at `n`. */
  ghost predicate ConfirmedInTenure(states: seq<Fs>, n: nat, version: string) {
    exists j: nat :: Tenure(states, j, n, version) && StaysConfirmed(states[j], version)
  }

  /** Only losing the place takes a confirmation away. */
  lemma ConfirmedStays(s: Fs, op: Operation, x: Fs, version: string)
    requires Mid(s, op, x) && StaysConfirmed(s, version) && ActiveIs(x, version)
    ensures StaysConfirmed(x, version)
  {
    if x.pointer != s.pointer {
      assert x.pointer == Holds(Written(s, op).value);
    }
  }

  lemma {:induction false} ConfirmedThroughout(events: seq<Event>, states: seq<Fs>, j: nat, n: nat, version: string)
    requires RunOf(events, states) && Tenure(states, j, n, version) && StaysConfirmed(states[j], version)
    ensures StaysConfirmed(states[n], version)
    decreases n
  {
    hide Mid, End;
    if j < n {
      assert Tenure(states, j, n - 1, version);
      ConfirmedThroughout(events, states, j, n - 1, version);
      assert Steps(states[n - 1], events[n - 1], states[n]);
      EndIsMid(states[n - 1], events[n - 1].op);
      ConfirmedStays(states[n - 1], events[n - 1].op, states[n], version);
    }
  }

  /** The pointer's own mark is exact: confirmed now means confirmed in this tenure, in every run, cuts included. */
  lemma HealthIsTenure(events: seq<Event>, states: seq<Fs>, n: nat)
    requires RunOf(events, states) && n <= |events| && states[n].pointer.Holds?
    ensures ConfirmedInTenure(states, n, states[n].pointer.pointer.active) <==>
              states[n].pointer.pointer.health == Confirmed
  {
    hide Steps;
    var version := states[n].pointer.pointer.active;
    if j: nat :| Tenure(states, j, n, version) && StaysConfirmed(states[j], version) {
      ConfirmedThroughout(events, states, j, n, version);
    }
    if StaysConfirmed(states[n], version) { assert Tenure(states, n, n, version); }
  }

  /**
   An activation that takes hold makes the replaced version the one to fall back to; that version was
   confirmed while it was active exactly when its recorded health is `Confirmed` before the activation.
   */
  lemma FallbackWasConfirmedIff(events: seq<Event>, states: seq<Fs>, n: nat, version: string)
    requires RunOf(events, states) && n < |events| && events[n].op == Activate(version) && states[n].pointer.Holds?
    requires !ActiveIs(states[n], version) && ActiveIs(states[n + 1], version)
    ensures var replaced := states[n].pointer.pointer.active;
            && states[n + 1].pointer.pointer.previous == Some(replaced)
            && (ConfirmedInTenure(states, n, replaced) <==> states[n].pointer.pointer.health == Confirmed)
  {
    assert Steps(states[n], events[n], states[n + 1]);
    EndIsMid(states[n], events[n].op);
    assert states[n + 1].pointer == Holds(Written(states[n], events[n].op).value);
    HealthIsTenure(events, states, n);
  }

  /**
   Otherwise it need not have: a version that never ran is what four unconfirmed launches fall back to, marked
   confirmed.
   */
  lemma UpdatingTwiceFallsBackToUnproven(s: Fs, release: Releases, v: string)
    requires Safe(s, release) && s.pointer.Holds? && s.pointer.pointer.health == Probation
    requires ValidVersion(v) && v in s.versions && v != s.pointer.pointer.active
    ensures EndAll(s, [Activate(v), BeginLaunch, BeginLaunch, BeginLaunch, BeginLaunch]).pointer
         == Holds(First(s.pointer.pointer.active))
  {
    var u := s.pointer.pointer.active;
    assert u in Named(s.pointer);
    var launches := [BeginLaunch] + ([BeginLaunch] + ([BeginLaunch] + ([BeginLaunch] + [])));
    assert [Activate(v), BeginLaunch, BeginLaunch, BeginLaunch, BeginLaunch] == [Activate(v)] + launches;
    EndAllCons(s, Activate(v), launches);
    var s1 := End(s, Activate(v));
    assert s1.pointer == Holds(Pointer(v, Some(u), Probation, 0));
    EndAllCons(s1, BeginLaunch, [BeginLaunch] + ([BeginLaunch] + ([BeginLaunch] + [])));
    var s2 := End(s1, BeginLaunch);
    EndAllCons(s2, BeginLaunch, [BeginLaunch] + ([BeginLaunch] + []));
    var s3 := End(s2, BeginLaunch);
    EndAllCons(s3, BeginLaunch, [BeginLaunch] + []);
    var s4 := End(s3, BeginLaunch);
    EndAllCons(s4, BeginLaunch, []);
  }

  // ------------------------------------------------------------------- class

  /** `Installer` and the directory it drives, one filesystem step at a time. */
  class Installation {
    var pointer: PointerFile
    var temp: TempFile
    var staging: map<string, Dir>
    var versions: map<string, Dir>
    /** Every filesystem passed through. */
    ghost var trail: seq<Fs>

    constructor ()
      ensures Files() == Fs(NoPointer, NoTemp, map[], map[]) && trail == [Files()]
    {
      pointer, temp, staging, versions := NoPointer, NoTemp, map[], map[];
      trail := [Fs(NoPointer, NoTemp, map[], map[])];
    }

    function Files(): Fs
      reads this
    {
      Fs(pointer, temp, staging, versions)
    }

    /** What an operation promises: every filesystem it wrote is one `Mid` allows, and it ended at `End`. */
    static ghost predicate Performs(s: Fs, op: Operation, t: Fs, before: seq<Fs>, after: seq<Fs>) {
      t == End(s, op) && Through(s, op, before, after)
    }

    static ghost predicate Through(s: Fs, op: Operation, before: seq<Fs>, after: seq<Fs>) {
      before <= after && forall i | |before| <= i < |after| :: Mid(s, op, after[i])
    }

    /** `write_pointer`: a temp file, then a rename over the old pointer. */
    method WritePointer(ghost op: Operation, p: Pointer)
      requires Written(Files(), op) == Some(p)
      requires op.Activate? || op.BeginLaunch? || op.ConfirmHealthy? || op.Rollback?
      modifies this
      ensures Performs(old(Files()), op, Files(), old(trail), trail)
      ensures Files() == old(Files()).(pointer := Holds(p), temp := NoTemp)
    {
      temp := Torn;
      trail := trail + [Files()];
      temp := Whole(p);
      trail := trail + [Files()];
      pointer, temp := Holds(p), NoTemp;
      trail := trail + [Files()];
    }

    /** `remove_dir_all` on one staging directory: its files in any order, then itself. */
    method RemoveStaging(v: string)
      requires ValidVersion(v) && v in staging
      modifies `staging, `trail
      ensures staging == old(staging) - {v}
      ensures Through(old(Files()), Operation.Stage(v), old(trail), trail)
    {
      ghost var start := staging;
      while staging[v] != {}
        invariant staging.Keys == start.Keys && Shrunk(start, staging, {v})
        invariant Through(old(Files()), Operation.Stage(v), old(trail), trail)
        decreases staging[v]
      {
        var file :| file in staging[v];
        staging := staging[v := staging[v] - {file}];
        trail := trail + [Files()];
      }
      staging := staging - {v};
      trail := trail + [Files()];
    }

    /** A slot partly removed is a filesystem the removing operation may be cut in. */
    static lemma RemovalIsMid(s: Fs, op: Operation, v: string, doomed: set<string>, x: Fs)
      requires (op == Operation.CommitSlot(v) && doomed == {v} && ValidVersion(v) && v in s.staging)
            || (op == Operation.Prune && doomed == s.versions.Keys - Named(s.pointer) && ReadPointer(s).Ok?)
      requires x == s.(versions := x.versions) && Shrunk(s.versions, x.versions, doomed)
      ensures Mid(s, op, x)
    {
    }

    /** `remove_dir_all` on one slot, in the course of `op`. */
    method RemoveSlot(v: string, ghost op: Operation, ghost s: Fs, ghost doomed: set<string>)
      requires v in versions && v in doomed
      requires (op == Operation.CommitSlot(v) && doomed == {v} && ValidVersion(v) && v in s.staging)
            || (op == Operation.Prune && doomed == s.versions.Keys - Named(s.pointer) && ReadPointer(s).Ok?)
      requires Files() == s.(versions := versions) && Shrunk(s.versions, versions, doomed)
      modifies `versions, `trail
      ensures versions == old(versions) - {v} && Shrunk(s.versions, versions, doomed)
      ensures Through(s, op, old(trail), trail)
    {
      hide Mid;
      ghost var start := versions;
      while versions[v] != {}
        invariant versions.Keys == start.Keys && (forall w | w in start && w != v :: versions[w] == start[w])
        invariant Shrunk(s.versions, versions, doomed)
        invariant Through(s, op, old(trail), trail)
        decreases versions[v]
      {
        var file :| file in versions[v];
        versions := versions[v := versions[v] - {file}];
        RemovalIsMid(s, op, v, doomed, Files());
        trail := trail + [Files()];
      }
      versions := versions - {v};
      RemovalIsMid(s, op, v, doomed, Files());
      trail := trail + [Files()];
    }

    method Stage(v: string) returns (r: Result<Answer, InstallError>)
      modifies this
      ensures Performs(old(Files()), Operation.Stage(v), Files(), old(trail), trail)
      ensures r == Outcome(old(Files()), Operation.Stage(v))
    {
      if !ValidVersion(v) {
        return Err(InvalidVersion(v));
      }
      if v in staging {
        RemoveStaging(v);
      }
      staging := staging[v := {}];
      trail := trail + [Files()];
      r := Ok(Done);
    }

    method CommitSlot(v: string) returns (r: Result<Answer, InstallError>)
      modifies this
      ensures Performs(old(Files()), Operation.CommitSlot(v), Files(), old(trail), trail)
      ensures r == Outcome(old(Files()), Operation.CommitSlot(v))
    {
      if !ValidVersion(v) {
        return Err(InvalidVersion(v));
      }
      if v !in staging {
        return Err(MissingSlot(v));
      }
      if v in versions {
        RemoveSlot(v, Operation.CommitSlot(v), Files(), {v});
      }
      versions, staging := versions[v := staging[v]], staging - {v};
      trail := trail + [Files()];
      r := Ok(Slot(v));
    }

    method Activate(v: string) returns (r: Result<Answer, InstallError>)
      modifies this
      ensures Performs(old(Files()), Operation.Activate(v), Files(), old(trail), trail)
      ensures r == Outcome(old(Files()), Operation.Activate(v))
    {
      var p := Activated(Files(), v);
      if p.Err? {
        return Err(p.error);
      }
      WritePointer(Operation.Activate(v), p.value);
      r := Ok(Wrote(p.value));
    }

    method Rollback() returns (r: Result<Answer, InstallError>)
      modifies this
      ensures Performs(old(Files()), Operation.Rollback, Files(), old(trail), trail)
      ensures r == Outcome(old(Files()), Operation.Rollback)
    {
      var p := RolledBack(Files());
      if p.Err? {
        return Err(p.error);
      }
      WritePointer(Operation.Rollback, p.value);
      r := Ok(Wrote(p.value));
    }

    method ConfirmHealthy() returns (r: Result<Answer, InstallError>)
      modifies this
      ensures Performs(old(Files()), Operation.ConfirmHealthy, Files(), old(trail), trail)
      ensures r == Outcome(old(Files()), Operation.ConfirmHealthy)
    {
      var p := Confirming(Files());
      if p.Err? {
        return Err(p.error);
      }
      WritePointer(Operation.ConfirmHealthy, p.value);
      r := Ok(Wrote(p.value));
    }

    method BeginLaunch() returns (r: Result<Answer, InstallError>)
      modifies this
      ensures Performs(old(Files()), Operation.BeginLaunch, Files(), old(trail), trail)
      ensures r == Outcome(old(Files()), Operation.BeginLaunch)
    {
      var current := ReadPointer(Files());
      if current.Err? {
        return Err(current.error);
      }
      var p := current.value;
      if p.health == Probation && p.attempts >= MAX_LAUNCH_ATTEMPTS {
        var back := RolledBack(Files());
        if back.Err? {
          return Err(back.error);
        }
        WritePointer(Operation.BeginLaunch, back.value);
        r := Resolve(Files(), back.value.active);
      } else {
        var next := p.(attempts := if p.attempts < U32_MAX then p.attempts + 1 else U32_MAX);
        WritePointer(Operation.BeginLaunch, next);
        r := Resolve(Files(), next.active);
      }
    }

    /** `clean_staging`: everything under the staging root, directory by directory. */
    method CleanStaging() returns (r: Result<Answer, InstallError>)
      modifies `staging, `trail
      ensures Performs(old(Files()), Operation.CleanStaging, Files(), old(trail), trail)
      ensures r == Outcome(old(Files()), Operation.CleanStaging)
      ensures r == Ok(Done) && staging == map[]
    {
      ghost var s := Files();
      while staging.Keys != {}
        invariant Shrunk(s.staging, staging, s.staging.Keys)
        invariant Through(s, Operation.CleanStaging, old(trail), trail)
        decreases staging.Keys
      {
        var v :| v in staging.Keys;
        ghost var keys := staging.Keys;
        while staging[v] != {}
          invariant v in staging && staging.Keys == keys
          invariant Shrunk(s.staging, staging, s.staging.Keys)
          invariant Through(s, Operation.CleanStaging, old(trail), trail)
          decreases staging[v]
        {
          var file :| file in staging[v];
          staging := staging[v := staging[v] - {file}];
          trail := trail + [Files()];
        }
        staging := staging - {v};
        trail := trail + [Files()];
      }
      assert staging == map[];
      r := Ok(Done);
    }

    /** `prune`: every slot the pointer does not name. */
    method Prune() returns (r: Result<Answer, InstallError>)
      modifies `versions, `trail
      ensures Performs(old(Files()), Operation.Prune, Files(), old(trail), trail)
      ensures r == Outcome(old(Files()), Operation.Prune)
      ensures pointer.Holds? ==>
                && r == Ok(Removed(old(versions).Keys - versions.Keys))
                && (forall v :: v in versions <==>
                      v in old(versions) && (v == pointer.pointer.active || pointer.pointer.previous == Some(v)))
                && (forall v | v in versions :: versions[v] == old(versions)[v])
      ensures !pointer.Holds? ==> r.Err? && versions == old(versions)
    {
      ghost var s := Files();
      var p := ReadPointer(Files());
      if p.Err? {
        return Err(p.error);
      }
      var keep := Named(pointer);
      ghost var doomed := versions.Keys - keep;
      var entries, removed: set<string> := versions.Keys, {};
      while entries != {}
        invariant Files() == s.(versions := versions) && Shrunk(s.versions, versions, doomed)
        invariant entries <= s.versions.Keys && removed == doomed - entries
        invariant versions.Keys == s.versions.Keys - removed
        invariant Through(s, Operation.Prune, old(trail), trail)
        decreases entries
      {
        var v :| v in entries;
        entries := entries - {v};
        if v !in keep {
          RemoveSlot(v, Operation.Prune, s, doomed);
          removed := removed + {v};
        }
      }
      assert removed == doomed == s.versions.Keys - versions.Keys;
      r := Ok(Removed(removed));
    }
  }
}

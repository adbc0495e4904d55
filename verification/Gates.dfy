/** Promotion gates (dist_ingest/gates.py): archive inspection and the configurable content gates. */
module Gates {
  import opened Text

  /** `Refused` is GateError; `Raised` is an exception of another kind. */
  datatype Failure = Refused | Raised

  // -------------------------------------------------------------- entry names

  predicate SafeEntryName(name: string) {
    && name != [] && name != "." && name != ".."
    && name[0] != '/' && name[0] != '\\' && '\\' !in name
    && !(|name| > 1 && name[1] == ':')
    && ".." !in Split(name, '/')
    && '\0' !in name
  }

  /** Where following `segments` from the extraction root leads; `None` once it has left the root. */
  function Resolve(segments: seq<string>): Option<seq<string>> {
    if segments == [] then Some([])
    else
      match Resolve(segments[..|segments| - 1])
      case None => None
      case Some(place) =>
        var last := segments[|segments| - 1];
        if last == "" || last == "." then Some(place)
        else if last == ".." then if place == [] then None else Some(place[..|place| - 1])
        else Some(place + [last])
  }

  lemma {:induction false} ResolvedAreSegments(segments: seq<string>)
    requires Resolve(segments).Some?
    ensures |Resolve(segments).value| <= |segments|
    ensures forall i | 0 <= i < |Resolve(segments).value| ::
              Resolve(segments).value[i] in segments && Resolve(segments).value[i] !in ["", ".", ".."]
  {
    if segments != [] {
      var init := segments[..|segments| - 1];
      assert forall s | s in init :: s in segments;
      ResolvedAreSegments(init);
    }
  }

  lemma {:induction false} NoParentStaysInside(segments: seq<string>)
    requires ".." !in segments
    ensures Resolve(segments).Some?
  {
    if segments != [] {
      var init := segments[..|segments| - 1];
      assert forall s | s in init :: s in segments;
      NoParentStaysInside(init);
    }
  }

  /** One character before the first colon is a drive letter. */
  lemma DriveLetter(name: string)
    requires name != [] && |Split(name, ':')[0]| == 1 && ':' in name
    ensures |name| > 1 && name[1] == ':'
  {
    var rest := Split(name[1..], ':');
    if name[0] != ':' {
      assert Split(name, ':')[0] == [name[0]] + rest[0];
      assert name[1..] != [];
    }
  }

  /** An accepted name never leaves the root, at any prefix, and is neither absolute nor drive-relative. */
  lemma AcceptedNeverLeaves(name: string, k: nat)
    requires SafeEntryName(name) && k <= |Split(name, '/')|
    ensures Resolve(Split(name, '/')[..k]).Some?
    ensures forall i | 0 <= i < |Resolve(Split(name, '/')[..k]).value| ::
              Resolve(Split(name, '/')[..k]).value[i] in Split(name, '/')
    ensures Split(name, '/')[0] != [] && Split(name, '\\') == [name] && (':' in name ==> |Split(name, ':')[0]| != 1)
  {
    SplitPlain(name, '\\');
    if ':' in name && |Split(name, ':')[0]| == 1 { DriveLetter(name); }
    var prefix := Split(name, '/')[..k];
    assert forall s | s in prefix :: s in Split(name, '/');
    NoParentStaysInside(prefix);
    ResolvedAreSegments(prefix);
  }

  /** The check in one piece: which names pass, whatever order it looks at them in. */
  lemma AcceptedNames(name: string)
    ensures SafeEntryName(name) <==>
              && name != "." && Split(name, '/')[0] != [] && ".." !in Split(name, '/') && Split(name, '\\') == [name]
              && '\0' !in name && (|name| >= 2 ==> name[1] != ':')
  {
    if '\\' !in name { SplitPlain(name, '\\'); }
    JoinSplit(name, '\\');
    if Split(name, '\\') == [name] { assert '\\' !in Split(name, '\\')[0]; }
    if name == ".." { SplitPlain(name, '/'); }
    if name != [] { assert Split(name, '/')[0] == [] <==> name[0] == '/'; }
  }

  lemma {:induction false} OrdinaryResolves(segments: seq<string>)
    requires forall i | 0 <= i < |segments| :: segments[i] !in ["", ".", ".."]
    ensures Resolve(segments) == Some(segments)
  {
    if segments != [] {
      OrdinaryResolves(segments[..|segments| - 1]);
      assert segments == segments[..|segments| - 1] + [segments[|segments| - 1]];
    }
  }

  /** Nothing ordinary is refused, at any depth: and such an entry lands exactly where its segments say. */
  lemma OrdinaryNamesPass(segments: seq<string>)
    requires |segments| >= 1 && forall i | 0 <= i < |segments| :: segments[i] !in ["", ".", ".."]
    requires forall i | 0 <= i < |segments| ::
               '/' !in segments[i] && '\\' !in segments[i] && '\0' !in segments[i]
    requires |segments[0]| >= 2 ==> segments[0][1] != ':'
    ensures SafeEntryName(Join(segments, '/'))
    ensures Resolve(Split(Join(segments, '/'), '/')) == Some(segments)
  {
    var name := Join(segments, '/');
    SplitJoin(segments, '/');
    JoinHasNo(segments, '/', '\\');
    JoinHasNo(segments, '/', '\0');
    OrdinaryResolves(segments);
    SplitPlain(name, '\\');
    assert segments[0] <= name && (|segments| == 1 ==> name == segments[0]);
    assert |segments| > 1 ==> name[|segments[0]|] == '/';
    AcceptedNames(name);
    hide SafeEntryName, Resolve, Split;
  }

  lemma SplitOfRoundTrip()
    ensures Split("a/../b", '/') == ["a", "..", "b"]
  {
    var parts := ["a", "..", "b"];
    assert Join(["b"], '/') == "b" && Join(["..", "b"], '/') == "../b" by {
      assert ["..", "b"][1..] == ["b"];
    }
    assert parts[1..] == ["..", "b"];
    assert Join(parts, '/') == "a/../b";
    SplitJoin(parts, '/');
  }

  lemma ParentIsRefused(name: string)
    requires ".." in Split(name, '/')
    ensures !SafeEntryName(name)
  {
  }

  lemma ResolvesInside()
    ensures Resolve(["a"]).Some? && Resolve(["a", ".."]).Some? && Resolve(["a", "..", "b"]).Some?
  {
    hide Resolve;
    ResolveMore([], "a");
    ResolveMore(["a"], "..");
    ResolveMore(["a", ".."], "b");
    assert [] + ["a"] == ["a"] && ["a"] + [".."] == ["a", ".."] && ["a", ".."] + ["b"] == ["a", "..", "b"];
  }

  /** The check is stricter than confinement: this name stays inside at every prefix and is refused all the same. */
  lemma RefusesSomeSafeNames()
    ensures !SafeEntryName("a/../b") && Split("a/../b", '/') == ["a", "..", "b"]
    ensures Resolve(["a"]).Some? && Resolve(["a", ".."]).Some? && Resolve(["a", "..", "b"]).Some?
  {
    hide Resolve, Split, SafeEntryName;
    SplitOfRoundTrip();
    assert ["a", "..", "b"][1] == "..";
    ParentIsRefused("a/../b");
    ResolvesInside();
  }

  lemma ResolveMore(segments: seq<string>, last: string)
    ensures Resolve([]) == Some([])
    ensures Resolve(segments).None? ==> Resolve(segments + [last]).None?
    ensures Resolve(segments) == Some([]) && last == ".." ==> Resolve(segments + [last]).None?
    ensures Resolve(segments).Some? && last == ".." && Resolve(segments).value != [] ==>
              Resolve(segments + [last]) == Some(Resolve(segments).value[..|Resolve(segments).value| - 1])
    ensures Resolve(segments).Some? && last !in ["", ".", ".."] ==>
              Resolve(segments + [last]) == Some(Resolve(segments).value + [last])
  {
    assert (segments + [last])[..|segments|] == segments;
  }

  // ----------------------------------------------------------------- archives

  datatype Member = Member(name: string, size: nat)

  /** What `zipfile` and `tarfile` make of a file; `Unreadable` raises. */
  datatype Archive = NotArchive | Unreadable | Listing(members: seq<Member>)

  datatype Limits = Limits(maxEntries: nat, maxTotal: nat, maxRatio: real)

  datatype Report = Report(entries: nat, total: nat, ratio: real)

  function Total(members: seq<Member>): nat {
    if members == [] then 0 else Total(members[..|members| - 1]) + members[|members| - 1].size
  }

  /** The expansion ratio, as an exact quotient. */
  function Ratio(total: nat, compressed: nat): real
    requires compressed > 0
  {
    total as real / compressed as real
  }

  lemma RatioIsExact(total: nat, compressed: nat)
    requires compressed > 0
    ensures Ratio(total, compressed) * compressed as real == total as real
  {
  }

  /** Within every limit; an archive in an empty file expands without bound. */
  ghost predicate WithinLimits(members: seq<Member>, compressed: nat, limits: Limits) {
    && |members| <= limits.maxEntries
    && (forall i | 0 <= i < |members| :: SafeEntryName(members[i].name))
    && Total(members) <= limits.maxTotal
    && compressed > 0 && Ratio(Total(members), compressed) <= limits.maxRatio
  }

  ghost function Inspected(archive: Archive, compressed: nat, limits: Limits): Result<Option<Report>, Failure> {
    match archive
    case NotArchive => Ok(None)
    case Unreadable => Err(Raised)
    case Listing(members) =>
      if WithinLimits(members, compressed, limits)
      then Ok(Some(Report(|members|, Total(members), Ratio(Total(members), compressed))))
      else Err(Refused)
  }

  lemma {:induction false} TotalGrows(members: seq<Member>, k: nat)
    requires k <= |members|
    ensures Total(members[..k]) <= Total(members)
    decreases |members|
  {
    if k < |members| {
      var init := members[..|members| - 1];
      TotalGrows(init, k);
      assert init[..k] == members[..k];
    } else {
      assert members[..k] == members;
    }
  }

  /** `inspect_archive`: the running total, cut off at the first limit it passes. */
  method InspectArchive(archive: Archive, compressed: nat, limits: Limits) returns (r: Result<Option<Report>, Failure>)
    ensures r == Inspected(archive, compressed, limits)
  {
    hide SafeEntryName, Ratio;
    if archive.NotArchive? { return Ok(None); }
    if archive.Unreadable? { return Err(Raised); }
    var members := archive.members;
    if |members| > limits.maxEntries { return Err(Refused); }
    var total, i := 0, 0;
    while i < |members|
      invariant 0 <= i <= |members|
      invariant total == Total(members[..i]) <= limits.maxTotal
      invariant forall k | 0 <= k < i :: SafeEntryName(members[k].name)
    {
      if !SafeEntryName(members[i].name) { return Err(Refused); }
      assert members[..i + 1][..i] == members[..i];
      total := total + members[i].size;
      if total > limits.maxTotal {
        TotalGrows(members, i + 1);
        return Err(Refused);
      }
      i := i + 1;
    }
    assert members[..i] == members;
    if compressed == 0 { return Err(Refused); }
    var ratio := Ratio(total, compressed);
    if ratio > limits.maxRatio { return Err(Refused); }
    r := Ok(Some(Report(|members|, total, ratio)));
  }

  /** Exactly the archives within every limit are accepted, the limits themselves included. */
  lemma InspectedMeans(members: seq<Member>, compressed: nat, limits: Limits)
    ensures Inspected(Listing(members), compressed, limits).Ok? <==>
              && |members| <= limits.maxEntries && (forall i | 0 <= i < |members| :: SafeEntryName(members[i].name))
              && Total(members) <= limits.maxTotal
              && compressed > 0 && Total(members) as real <= limits.maxRatio * compressed as real
    ensures Inspected(Listing(members), compressed, limits).Ok? ==>
              Inspected(Listing(members), compressed, limits).value.Some?
    ensures Inspected(Listing(members), compressed, limits).Err? ==>
              Inspected(Listing(members), compressed, limits).error == Refused
  {
    hide SafeEntryName, Total;
  }

  lemma {:induction false} TotalIsSum(members: seq<Member>, more: seq<Member>)
    ensures Total([]) == 0 && Total(members + more) == Total(members) + Total(more)
    ensures |members| == 1 ==> Total(members) == members[0].size
  {
    if more == [] {
      assert members + more == members;
    } else {
      var last := |more| - 1;
      assert (members + more)[..|members| + last] == members + more[..last];
      TotalIsSum(members, more[..last]);
    }
    if |members| == 1 { assert members[..0] == []; }
  }

  /** Every accepted archive: confined at each prefix of each name, and reported exactly. */
  lemma AcceptedArchiveIsConfined(members: seq<Member>, compressed: nat, limits: Limits, i: nat, k: nat)
    requires Inspected(Listing(members), compressed, limits).Ok?
    requires i < |members| && k <= |Split(members[i].name, '/')|
    ensures Resolve(Split(members[i].name, '/')[..k]).Some?
    ensures var report := Inspected(Listing(members), compressed, limits).value.value;
            && report.entries == |members| <= limits.maxEntries && report.total == Total(members) <= limits.maxTotal
            && report.ratio <= limits.maxRatio && compressed > 0
            && report.ratio * compressed as real == Total(members) as real
  {
    hide SafeEntryName, Ratio, Total, Resolve;
    RatioIsExact(Total(members), compressed);
    AcceptedNeverLeaves(members[i].name, k);
  }

  // ------------------------------------------------------------ content gates

  /** What a scanner or publisher check does about the artifact in hand. */
  datatype Answer = Yes | No | Throws(failure: Failure)

  /** Configured gates, with the answer each would give. */
  datatype ContentGates = ContentGates(malwareClean: Option<Answer>, publisherMatches: Option<Answer>,
                                       requireSbom: bool,
                                       skip: set<string>)

  const GATES := ["malware", "publisher", "sbom"]

  /** An unconfigured gate refuses; one that raises, raises. */
  function CheckFailure(check: Option<Answer>): Option<Failure> {
    match check
    case None => Some(Refused)
    case Some(Yes) => None
    case Some(No) => Some(Refused)
    case Some(Throws(failure)) => Some(failure)
  }

  /** What running the gate ends with, if not with a pass. */
  function GateFailure(gates: ContentGates, sbom: Option<string>, gate: string): Option<Failure> {
    match gate
    case "malware" => CheckFailure(gates.malwareClean)
    case "publisher" => CheckFailure(gates.publisherMatches)
    case _ => if gates.requireSbom && (sbom.None? || sbom.value == []) then Some(Refused) else None
  }

  /** The gate was named as skipped, or ran and passed. */
  predicate Clear(gates: ContentGates, sbom: Option<string>, gate: string) {
    gate in gates.skip || GateFailure(gates, sbom, gate).None?
  }

  predicate GatesClear(gates: ContentGates, sbom: Option<string>) {
    forall i | 0 <= i < |GATES| :: Clear(gates, sbom, GATES[i])
  }

  /** Gate `i` stops the run with this failure: everything before it is clear. */
  predicate StopsAt(gates: ContentGates, sbom: Option<string>, i: nat, failure: Failure) {
    && i < |GATES| && !Clear(gates, sbom, GATES[i]) && GateFailure(gates, sbom, GATES[i]) == Some(failure)
    && forall j | 0 <= j < i :: Clear(gates, sbom, GATES[j])
  }

  function SkippedOf(names: seq<string>, skip: set<string>): seq<string> {
    if names == [] then []
    else (if names[0] in skip then [names[0]] else []) + SkippedOf(names[1..], skip)
  }

  function Skipped(gates: ContentGates): seq<string> {
    SkippedOf(GATES, gates.skip)
  }

  /** The failure of the first gate of `names` that is not clear. */
  function FirstFailure(gates: ContentGates, sbom: Option<string>, names: seq<string>): Option<Failure> {
    if names == [] then None
    else if Clear(gates, sbom, names[0]) then FirstFailure(gates, sbom, names[1..])
    else GateFailure(gates, sbom, names[0])
  }

  function ContentChecked(gates: ContentGates, sbom: Option<string>): Result<seq<string>, Failure> {
    match FirstFailure(gates, sbom, GATES)
    case None => Ok(Skipped(gates))
    case Some(failure) => Err(failure)
  }

  lemma SkippedInOrder(gates: ContentGates)
    ensures Skipped(gates) == (if "malware" in gates.skip then ["malware"] else [])
                            + (if "publisher" in gates.skip then ["publisher"] else [])
                            + (if "sbom" in gates.skip then ["sbom"] else [])
  {
    var skip := gates.skip;
    assert GATES[1..] == ["publisher", "sbom"] && ["publisher", "sbom"][1..] == ["sbom"] && ["sbom"][1..] == [];
    assert SkippedOf(["sbom"], skip) == (if "sbom" in skip then ["sbom"] else []) + SkippedOf([], skip);
    assert SkippedOf(["publisher", "sbom"], skip)
        == (if "publisher" in skip then ["publisher"] else []) + SkippedOf(["sbom"], skip);
    assert SkippedOf(GATES, skip)
        == (if "malware" in skip then ["malware"] else []) + SkippedOf(["publisher", "sbom"], skip);
  }

  /** The three gates, in their order. */
  lemma GatesInOrder(gates: ContentGates, sbom: Option<string>)
    ensures FirstFailure(gates, sbom, GATES) ==
      if !Clear(gates, sbom, "malware") then GateFailure(gates, sbom, "malware")
      else if !Clear(gates, sbom, "publisher") then GateFailure(gates, sbom, "publisher")
      else if !Clear(gates, sbom, "sbom") then GateFailure(gates, sbom, "sbom")
      else None
    ensures GatesClear(gates, sbom) <==>
      Clear(gates, sbom, "malware") && Clear(gates, sbom, "publisher") && Clear(gates, sbom, "sbom")
    ensures GateFailure(gates, sbom, "malware") == CheckFailure(gates.malwareClean)
    ensures GateFailure(gates, sbom, "publisher") == CheckFailure(gates.publisherMatches)
    ensures GateFailure(gates, sbom, "sbom") ==
              if gates.requireSbom && (sbom.None? || sbom.value == []) then Some(Refused) else None
  {
    assert "malware"[0] != "sbom"[0] && "publisher"[0] != "sbom"[0] && "malware"[0] != "publisher"[0];
    hide Clear;
    assert GATES[1..] == ["publisher", "sbom"] && ["publisher", "sbom"][1..] == ["sbom"] && ["sbom"][1..] == [];
    assert FirstFailure(gates, sbom, ["sbom"])
        == if !Clear(gates, sbom, "sbom") then GateFailure(gates, sbom, "sbom") else None;
    assert GATES[0] == "malware" && GATES[1] == "publisher" && GATES[2] == "sbom" && |GATES| == 3;
  }

  /** Passing means every gate is clear; failing means the first that is not stops the run, with its own failure. */
  lemma ContentCheckedMeans(gates: ContentGates, sbom: Option<string>, failure: Failure)
    ensures ContentChecked(gates, sbom) == Ok(Skipped(gates)) <==> GatesClear(gates, sbom)
    ensures ContentChecked(gates, sbom) == Err(failure) <==> exists i: nat :: StopsAt(gates, sbom, i, failure)
  {
    GatesInOrder(gates, sbom);
    hide CheckFailure, Skipped, GatesClear;
    assert GATES[0] == "malware" && GATES[1] == "publisher" && GATES[2] == "sbom" && |GATES| == 3;
    forall gate | !Clear(gates, sbom, gate) ensures GateFailure(gates, sbom, gate).Some? {}
    hide GateFailure, Clear;
    if ContentChecked(gates, sbom) == Err(failure) {
      var i: nat := if !Clear(gates, sbom, "malware") then 0 else if !Clear(gates, sbom, "publisher") then 1 else 2;
      assert StopsAt(gates, sbom, i, failure);
    }
  }

  /**
   `run_content_gates`: in order, stopping at the first that does not pass, and reporting exactly those that did not
   run.
   */
  method RunContentGates(gates: ContentGates, sbom: Option<string>) returns (r: Result<seq<string>, Failure>)
    ensures r == ContentChecked(gates, sbom)
  {
    SkippedInOrder(gates);
    GatesInOrder(gates, sbom);
    hide GatesClear, Skipped, FirstFailure, GateFailure;
    var skipped: seq<string> := [];
    if "malware" in gates.skip {
      skipped := skipped + ["malware"];
    } else {
      var failure := RunCheck(gates.malwareClean);
      if failure.Some? { return Err(failure.value); }
    }
    if "publisher" in gates.skip {
      skipped := skipped + ["publisher"];
    } else {
      var failure := RunCheck(gates.publisherMatches);
      if failure.Some? { return Err(failure.value); }
    }
    if "sbom" in gates.skip {
      skipped := skipped + ["sbom"];
    } else if gates.requireSbom && (sbom.None? || sbom.value == []) {
      return Err(Refused);
    }
    assert skipped == Skipped(gates);
    r := Ok(skipped);
  }

  /** One external check: missing, raising, refusing or passing. */
  method RunCheck(check: Option<Answer>) returns (failure: Option<Failure>)
    ensures failure == CheckFailure(check)
  {
    if check.None? { return Some(Refused); }
    if check.value.Throws? { return Some(check.value.failure); }
    if check.value == No { return Some(Refused); }
    failure := None;
  }

  /** As the ingest worker wires them: no scanner, no publisher check, an SBOM required and never supplied. */
  function WiredGates(skip: set<string>): ContentGates {
    ContentGates(None, None, true, skip)
  }

  /** So wired, nothing passes unless the deployment names all three gates as skipped. */
  lemma WiredGatesNeedEverySkip(skip: set<string>)
    ensures GatesClear(WiredGates(skip), None) <==> {"malware", "publisher", "sbom"} <= skip
  {
    GatesInOrder(WiredGates(skip), None);
    hide GatesClear;
  }
}

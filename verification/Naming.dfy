/** Target naming (naming.py), role names (roles.py) and the client's path check (lib.rs). */
module Naming {
  import opened Text

  const CHANNELS := {"stable", "beta", "canary"}
  const POINTER_VERSION := "_current"
  const POINTER_FILE := "release.json"
  const TARGET_PATH_SEGMENTS := 5
  const APP_ROLE_PREFIX := "app-"

  // ------------------------------------------------------------- validators

  predicate IsAlnum(c: char) {
    'a' <= c <= 'z' || 'A' <= c <= 'Z' || '0' <= c <= '9'
  }

  /** `_SEGMENT`, read as a whole-string match. */
  predicate IsSegment(s: string) {
    && s != [] && IsAlnum(s[0])
    && forall i | 0 <= i < |s| :: IsAlnum(s[i]) || s[i] == '.' || s[i] == '_' || s[i] == '-'
  }

  /** `APP_ID_PATTERN`, read as a whole-string match. */
  predicate IsAppId(s: string) {
    && 2 <= |s| <= 63 && s[0] != '-'
    && forall i | 0 <= i < |s| :: 'a' <= s[i] <= 'z' || '0' <= s[i] <= '9' || s[i] == '-'
  }

  /** An id is one of a to z or 0 to 9, then one to sixty-two of those or hyphens. */
  lemma AppIdsAre(first: char, rest: string)
    ensures IsAppId([first] + rest) <==>
              && ('a' <= first <= 'z' || '0' <= first <= '9') && 1 <= |rest| <= 62
              && forall c | c in rest :: 'a' <= c <= 'z' || '0' <= c <= '9' || c == '-'
  {
    var s := [first] + rest;
    assert s[0] == first && forall i | 1 <= i < |s| :: s[i] == rest[i - 1] && s[i] in rest;
    forall c | c in rest ensures c in s[1..] {}
    assert forall i | 0 <= i < |rest| :: rest[i] == s[i + 1];
  }

  /** A segment is a letter or digit, then letters, digits, dots, underscores and hyphens. */
  lemma SegmentsAre(first: char, rest: string)
    ensures IsSegment([first] + rest) <==> && IsAlnum(first)
                                           && forall c | c in rest :: IsAlnum(c) || c in "._-"
  {
    var s := [first] + rest;
    assert s[0] == first && forall i | 1 <= i < |s| :: s[i] == rest[i - 1] && s[i] in rest;
    forall c | c in rest ensures c in s[1..] {}
    assert forall i | 0 <= i < |rest| :: rest[i] == s[i + 1];
  }

  function AppRoleName(appId: string): string {
    APP_ROLE_PREFIX + appId
  }

  // ------------------------------------------------------------------- keys

  datatype KeyFields = KeyFields(appId: string, channel: string, platform: string, arch: string,
                                 version: string, filename: string)

  /** What `TargetKey.__post_init__` accepts; anything else is a ValueError there. */
  predicate IsTargetKey(k: KeyFields) {
    && k.channel in CHANNELS && IsSegment(k.appId) && IsSegment(k.platform)
    && IsSegment(k.arch) && IsSegment(k.version) && IsSegment(k.filename)
  }

  type TargetKey = k: KeyFields | IsTargetKey(k)
    witness KeyFields("a", "stable", "p", "a", "1", "f")

  datatype ChannelFields = ChannelFields(appId: string, channel: string, platform: string, arch: string)

  predicate IsChannelKey(c: ChannelFields) {
    c.channel in CHANNELS && IsSegment(c.appId) && IsSegment(c.platform) && IsSegment(c.arch)
  }

  type ChannelKey = c: ChannelFields | IsChannelKey(c)
    witness ChannelFields("a", "stable", "p", "a")

  function ChannelOf(k: TargetKey): ChannelKey {
    ChannelFields(k.appId, k.channel, k.platform, k.arch)
  }

  function Slot(c: ChannelFields): string {
    c.platform + "-" + c.arch
  }

  function Prefix(c: ChannelFields): string {
    c.appId + "/" + (c.channel + "/" + (Slot(c) + "/"))
  }

  function Path(k: TargetKey): string {
    Prefix(ChannelOf(k)) + (k.version + "/" + k.filename)
  }

  function PointerPath(c: ChannelFields): string {
    Prefix(c) + (POINTER_VERSION + "/" + POINTER_FILE)
  }

  function AppPathPattern(appId: string): string {
    Join([appId, "*", "*", "*", "*"], '/')
  }

  predicate Covers(c: ChannelFields, path: string) {
    StartsWith(path, Prefix(c))
  }

  // --------------------------------------------------- segments of the names

  lemma SegmentHasNoSlash(s: string)
    requires IsSegment(s)
    ensures '/' !in s && '*' !in s && '?' !in s && '\\' !in s && ':' !in s && '\0' !in s
    ensures s != "." && s != ".." && s != POINTER_VERSION
  {
    assert forall c | c in s :: IsAlnum(c) || c == '.' || c == '_' || c == '-';
  }

  lemma SlotIsPlain(c: ChannelFields)
    requires IsChannelKey(c)
    ensures IsSegment(Slot(c)) && IsSegment(c.channel)
  {
  }

  lemma PrefixSegments(c: ChannelFields, rest: string)
    requires IsChannelKey(c)
    ensures Split(Prefix(c) + rest, '/') == [c.appId, c.channel, Slot(c)] + Split(rest, '/')
  {
    SlotIsPlain(c);
    SegmentHasNoSlash(c.appId);
    SegmentHasNoSlash(c.channel);
    SegmentHasNoSlash(Slot(c));
    var afterChannel := Slot(c) + "/" + rest;
    var afterApp := c.channel + "/" + afterChannel;
    assert Prefix(c) + rest == c.appId + "/" + afterApp;
    SplitCons(c.appId, afterApp, '/');
    SplitCons(c.channel, afterChannel, '/');
    SplitCons(Slot(c), rest, '/');
  }

  lemma PathSegments(k: TargetKey)
    ensures Split(Path(k), '/') == [k.appId, k.channel, Slot(ChannelOf(k)), k.version, k.filename]
  {
    SegmentHasNoSlash(k.version);
    SegmentHasNoSlash(k.filename);
    PrefixSegments(ChannelOf(k), k.version + "/" + k.filename);
    SplitCons(k.version, k.filename, '/');
    SplitPlain(k.filename, '/');
  }

  lemma PointerPathSegments(c: ChannelKey)
    ensures Split(PointerPath(c), '/') == [c.appId, c.channel, Slot(c), POINTER_VERSION, POINTER_FILE]
  {
    PrefixSegments(c, POINTER_VERSION + "/" + POINTER_FILE);
    SplitCons(POINTER_VERSION, POINTER_FILE, '/');
    SplitPlain(POINTER_FILE, '/');
  }

  // --------------------------------------------------------- when names meet

  /** Two keys render alike exactly when they differ at most in how `platform-arch` splits. */
  lemma PathsMeet(k: TargetKey, l: TargetKey)
    ensures Path(k) == Path(l) <==>
            && k.appId == l.appId && k.channel == l.channel && k.version == l.version
            && k.filename == l.filename && k.platform + "-" + k.arch == l.platform + "-" + l.arch
  {
    PathSegments(k);
    PathSegments(l);
    var a, b := Split(Path(k), '/'), Split(Path(l), '/');
    if Path(k) == Path(l) {
      assert a[0] == b[0] && a[1] == b[1] && a[2] == b[2] && a[3] == b[3] && a[4] == b[4];
    }
  }

  /** The split really is lost: two different keys, one path. */
  lemma PlatformSplitIsAmbiguous()
    ensures var k := KeyFields("editor", "stable", "linux-musl", "arm", "1", "e.zip");
            var l := KeyFields("editor", "stable", "linux", "musl-arm", "1", "e.zip");
            IsTargetKey(k) && IsTargetKey(l) && k != l && Path(k) == Path(l)
  {
    var k := KeyFields("editor", "stable", "linux-musl", "arm", "1", "e.zip");
    var l := KeyFields("editor", "stable", "linux", "musl-arm", "1", "e.zip");
    assert k.platform != l.platform by { assert |k.platform| != |l.platform|; }
    assert Slot(ChannelOf(k)) == Slot(ChannelOf(l));
  }

  lemma PointersMeet(c: ChannelKey, d: ChannelKey)
    ensures PointerPath(c) == PointerPath(d) <==> Prefix(c) == Prefix(d)
    ensures Prefix(c) == Prefix(d) <==> c.appId == d.appId && c.channel == d.channel && Slot(c) == Slot(d)
  {
    PointerPathSegments(c);
    PointerPathSegments(d);
    var a, b := Split(PointerPath(c), '/'), Split(PointerPath(d), '/');
    if PointerPath(c) == PointerPath(d) {
      assert a[0] == b[0] && a[1] == b[1] && a[2] == b[2];
    }
  }

  /** No release can occupy a pointer path, and no pointer a release path. */
  lemma ReleaseIsNeverPointer(k: TargetKey, c: ChannelKey)
    ensures Path(k) != PointerPath(c)
  {
    PathSegments(k);
    PointerPathSegments(c);
    SegmentHasNoSlash(k.version);
    assert Split(Path(k), '/')[3] == k.version;
    assert Split(PointerPath(c), '/')[3] == POINTER_VERSION;
  }

  /** A channel covers exactly the releases of its own app, channel and platform-arch. */
  lemma CoversOwnReleases(c: ChannelKey, k: TargetKey)
    ensures Covers(c, Path(k)) <==> Prefix(c) == Prefix(ChannelOf(k))
  {
    PathSegments(k);
    if Covers(c, Path(k)) {
      var rest := Path(k)[|Prefix(c)|..];
      assert Path(k) == Prefix(c) + rest;
      PrefixSegments(c, rest);
      var a := Split(Path(k), '/');
      assert a[0] == c.appId && a[1] == c.channel && a[2] == Slot(c);
    }
  }

  // ------------------------------------------------------ TargetPath::parse

  datatype PathError = SegmentCount(count: nat) | UnsafeSegment(segment: string)

  predicate SafeSegment(s: string) {
    s != [] && s != "." && s != ".." && '\\' !in s && ':' !in s && '\0' !in s
  }

  function FirstUnsafe(segments: seq<string>): Option<string> {
    if segments == [] then None
    else if !SafeSegment(segments[0]) then Some(segments[0])
    else FirstUnsafe(segments[1..])
  }

  function ParsePath(raw: string): Result<string, PathError> {
    var segments := Split(raw, '/');
    if |segments| != TARGET_PATH_SEGMENTS then Err(SegmentCount(|segments|))
    else match FirstUnsafe(segments)
         case Some(s) => Err(UnsafeSegment(s))
         case None => Ok(raw)
  }

  lemma {:induction false} NoneUnsafe(segments: seq<string>)
    ensures FirstUnsafe(segments) == None <==> forall i | 0 <= i < |segments| :: SafeSegment(segments[i])
  {
    if segments != [] {
      NoneUnsafe(segments[1..]);
      assert segments == [segments[0]] + segments[1..];
    }
  }

  /**
   What `parse` promises of every path it lets through, and refuses of every other: five segments, none of them
   empty or a traversal, and no other separator, drive letter or NUL anywhere.
   */
  lemma ParseAccepts(raw: string)
    ensures ParsePath(raw).Ok? <==>
              && |Split(raw, '/')| == 5 && "" !in Split(raw, '/') && "." !in Split(raw, '/') && ".." !in Split(raw, '/')
              && '\\' !in raw && ':' !in raw && '\0' !in raw
    ensures ParsePath(raw).Ok? ==> ParsePath(raw).value == raw
  {
    NoneUnsafe(Split(raw, '/'));
    CharsOfSplit(raw, '/', '\\');
    CharsOfSplit(raw, '/', ':');
    CharsOfSplit(raw, '/', '\0');
    hide Split, FirstUnsafe;
  }

  /** A character other than the separator is in a text when it is in one of its segments. */
  lemma CharsOfSplit(raw: string, sep: char, c: char)
    requires c != sep
    ensures c in raw <==> exists i | 0 <= i < |Split(raw, sep)| :: c in Split(raw, sep)[i]
  {
    JoinSplit(raw, sep);
    if forall i | 0 <= i < |Split(raw, sep)| :: c !in Split(raw, sep)[i] { JoinHasNo(Split(raw, sep), sep, c); }
    if i :| 0 <= i < |Split(raw, sep)| && c in Split(raw, sep)[i] { JoinHas(Split(raw, sep), sep, i, c); }
  }

  lemma {:induction false} JoinHas(segments: seq<string>, sep: char, i: nat, c: char)
    requires i < |segments| && c in segments[i]
    ensures c in Join(segments, sep)
  {
    if |segments| > 1 && i > 0 {
      JoinHas(segments[1..], sep, i - 1, c);
    }
  }

  lemma SegmentsAreSafe(segments: seq<string>)
    requires forall i | 0 <= i < |segments| :: IsSegment(segments[i]) || segments[i] == POINTER_VERSION
    ensures forall i | 0 <= i < |segments| :: SafeSegment(segments[i])
  {
    forall i | 0 <= i < |segments| ensures SafeSegment(segments[i]) {
      if IsSegment(segments[i]) {
        SegmentHasNoSlash(segments[i]);
      }
    }
  }

  /** Every path the server renders passes the client's check. */
  lemma RenderedPathsParse(k: TargetKey, c: ChannelKey)
    ensures ParsePath(Path(k)) == Ok(Path(k))
    ensures ParsePath(PointerPath(c)) == Ok(PointerPath(c))
  {
    PathSegments(k);
    PointerPathSegments(c);
    SlotIsPlain(ChannelOf(k));
    SlotIsPlain(c);
    SegmentsAreSafe([k.appId, k.channel, Slot(ChannelOf(k)), k.version, k.filename]);
    SegmentsAreSafe([c.appId, c.channel, Slot(c), POINTER_VERSION, POINTER_FILE]);
    NoneUnsafe(Split(Path(k), '/'));
    NoneUnsafe(Split(PointerPath(c), '/'));
  }

  // ------------------------------------------------------------ stored names

  /** `s.rpartition("/")`: directory with its slash, and base name. */
  function DirPart(path: string): string {
    if path == [] || path[|path| - 1] == '/' then path else DirPart(path[..|path| - 1])
  }

  function BasePart(path: string): string {
    if path == [] || path[|path| - 1] == '/' then [] else BasePart(path[..|path| - 1]) + [path[|path| - 1]]
  }

  lemma {:induction false} DirBase(path: string)
    ensures DirPart(path) + BasePart(path) == path
    ensures '/' !in BasePart(path)
    ensures DirPart(path) == [] || DirPart(path)[|DirPart(path)| - 1] == '/'
  {
    if path != [] && path[|path| - 1] != '/' {
      DirBase(path[..|path| - 1]);
      assert path == path[..|path| - 1] + [path[|path| - 1]];
    }
  }

  /** Where a consistent-snapshot repository keeps a target's bytes. */
  function StoredTargetPath(path: string, digestHex: string): string {
    DirPart(path) + digestHex + "." + BasePart(path)
  }

  /** The digest goes in front of the file name, in the directory the path names. */
  lemma StoredBeside(dir: string, base: string, digestHex: string)
    requires '/' !in base
    ensures StoredTargetPath(dir + "/" + base, digestHex) == dir + "/" + digestHex + "." + base
    ensures StoredTargetPath(base, digestHex) == digestHex + "." + base
  {
    DirBaseUnique(dir + "/", base);
    DirBaseUnique("", base);
    assert "" + base == base;
  }

  lemma {:induction false} DirBaseUnique(dir: string, base: string)
    requires '/' !in base
    requires dir == [] || dir[|dir| - 1] == '/'
    ensures DirPart(dir + base) == dir && BasePart(dir + base) == base
  {
    if base == [] {
      assert dir + base == dir;
    } else {
      var s := dir + base;
      assert s[..|s| - 1] == dir + base[..|base| - 1];
      assert s[|s| - 1] == base[|base| - 1];
      DirBaseUnique(dir, base[..|base| - 1]);
      assert base == base[..|base| - 1] + [base[|base| - 1]];
    }
  }

  /** No two (path, SHA-256) pairs share a stored file name. */
  lemma StoredNamesDiffer(p: string, d: string, q: string, e: string)
    requires |d| == 64 && |e| == 64 && '/' !in d && '/' !in e
    requires StoredTargetPath(p, d) == StoredTargetPath(q, e)
    ensures p == q && d == e
  {
    DirBase(p);
    DirBase(q);
    assert StoredTargetPath(p, d) == DirPart(p) + (d + "." + BasePart(p));
    assert StoredTargetPath(q, e) == DirPart(q) + (e + "." + BasePart(q));
    DirBaseUnique(DirPart(p), d + "." + BasePart(p));
    DirBaseUnique(DirPart(q), e + "." + BasePart(q));
    var left, right := d + "." + BasePart(p), e + "." + BasePart(q);
    assert d == left[..64] == right[..64] == e;
    assert BasePart(p) == left[65..] == right[65..] == BasePart(q);
  }

  // ---------------------------------------------------- metadata file names

  /** `<version>.<role>.json`. */
  function VersionedName(version: nat, role: string): string {
    Decimal(version) + "." + (role + ".json")
  }

  /** `_VERSIONED.match`, a whole-string match: digits up to the first dot, then a role and `.json`. */
  function ReadVersioned(name: string): Option<(nat, string)> {
    var dot := FirstDot(name);
    if dot < |name| && dot > 0 && (forall c | c in name[..dot] :: IsDigit(c))
       && |name| > dot + 1 + 5 && name[|name| - 5..] == ".json" && '\n' !in name
    then Some((Parse(name[..dot]), name[dot + 1..|name| - 5]))
    else None
  }

  function FirstDot(name: string): (i: nat)
    ensures i <= |name| && (i < |name| ==> name[i] == '.') && '.' !in name[..i]
  {
    if name == [] || name[0] == '.' then 0
    else
      var i := FirstDot(name[1..]);
      assert name[..i + 1] == [name[0]] + name[1..][..i];
      i + 1
  }

  lemma {:induction false} FirstDotAt(head: string, tail: string)
    requires '.' !in head
    ensures FirstDot(head + "." + tail) == |head|
  {
    if head != [] {
      assert (head + "." + tail)[1..] == head[1..] + "." + tail;
      FirstDotAt(head[1..], tail);
    }
  }

  lemma VersionedNameText(version: nat, role: string)
    ensures VersionedName(version, role) == Decimal(version) + "." + role + ".json"
  {
    hide Decimal;
  }

  /** `_scan` reads back exactly the version and role `_filename` wrote. */
  lemma ScanReadsNames(version: nat, role: string)
    requires role != [] && '\n' !in role
    ensures ReadVersioned(VersionedName(version, role)) == Some((version, role))
  {
    DecimalParses(version);
    var digits, name := Decimal(version), VersionedName(version, role);
    assert forall c | c in digits :: IsDigit(c);
    assert name == digits + "." + (role + ".json");
    FirstDotAt(digits, role + ".json");
    assert name[..|digits|] == digits;
    assert name[|digits| + 1..|name| - 5] == role;
    assert name[|name| - 5..] == ".json";
  }
}

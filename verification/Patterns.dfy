/** Delegation patterns as the vendored verifier matches them (client/vendor/tuf/src/metadata.rs). */
module Patterns {
  import opened Text
  import opened Naming

  // -------------------------------------------------------------- safe paths

  predicate IllegalChar(c: char) {
    c in {':', '\\', '<', '>', '"', '|', '?', '*'} || c as int < 0x20 || c as int == 0x7f
  }

  /** `TargetPath::new`, but for its list of reserved device names, which `ReservedNamesNeverMatch` shows to be idle. */
  predicate SafePath(path: string) {
    && path != [] && path[0] != '/'
    && (forall i | 0 <= i < |path| :: !IllegalChar(path[i]))
    && (forall i | 0 <= i < |Split(path, '/')| :: Split(path, '/')[i] != "." && Split(path, '/')[i] != "..")
  }

  /** The list as written, in capitals: the four devices, the numbered ports, the five names with a dollar. */
  predicate IsReserved(name: string) {
    || name == "CON" || name == "PRN" || name == "AUX" || name == "NUL"
    || (|name| == 4 && (name[..3] == "COM" || name[..3] == "LPT") && '1' <= name[3] <= '9')
    || name == "KEYBD$" || name == "CLOCK$" || name == "SCREEN$" || name == "$IDLE$" || name == "CONFIG$"
  }

  /** Any lower-casing, Unicode's included: no ASCII capital is left. */
  ghost predicate LowersCase(lower: string -> string) {
    forall s: string, i: nat | i < |lower(s)| :: !('A' <= lower(s)[i] <= 'Z')
  }

  /** The checks as written: a component is lower-cased and then looked up in the list. */
  ghost predicate SafePathAsWritten(lower: string -> string, path: string) {
    SafePath(path) && forall i | 0 <= i < |Split(path, '/')| :: !IsReserved(lower(Split(path, '/')[i]))
  }

  predicate DeviceChar(c: char) {
    'A' <= c <= 'Z' || '1' <= c <= '9' || c == '$'
  }

  lemma ReservedShape(name: string)
    requires IsReserved(name)
    ensures |name| >= 3 && 'A' <= name[1] <= 'Z' && forall i | 0 <= i < |name| :: DeviceChar(name[i])
  {
    if |name| == 4 {
      assert name[0] == name[..3][0] && name[1] == name[..3][1] && name[2] == name[..3][2];
    }
  }

  lemma ReservedIsSafe(name: string)
    requires IsReserved(name)
    ensures SafePath(name) && Split(name, '/') == [name]
  {
    ReservedShape(name);
    hide IsReserved;
    DeviceCharsAreLegal(name);
    SplitPlain(name, '/');
  }

  lemma DeviceCharsAreLegal(name: string)
    requires |name| >= 3 && forall i | 0 <= i < |name| :: DeviceChar(name[i])
    ensures '/' !in name && name[0] != '/' && name != "." && name != ".."
    ensures forall i | 0 <= i < |name| :: !IllegalChar(name[i])
  {
    assert DeviceChar(name[0]);
  }

  /** The list is in capitals and what is looked up is not: it refuses nothing, not even the names on it. */
  lemma ReservedNamesNeverMatch(lower: string -> string, path: string)
    requires LowersCase(lower)
    ensures SafePathAsWritten(lower, path) <==> SafePath(path)
    ensures IsReserved(path) ==> SafePathAsWritten(lower, path)
  {
    hide IsReserved, SafePath;
    forall i | 0 <= i < |Split(path, '/')| ensures !IsReserved(lower(Split(path, '/')[i])) {
      if IsReserved(lower(Split(path, '/')[i])) { ReservedShape(lower(Split(path, '/')[i])); }
    }
    if IsReserved(path) { ReservedIsSafe(path); }
  }

  // -------------------------------------------------------------------- glob

  /** The loop of `glob_segment`; `star` is one past the last `*` seen, 0 for none. */
  predicate GlobRun(text: string, pattern: string, t: nat, p: nat, star: nat, resume: nat)
    requires t <= |text| && star <= p <= |pattern| && resume <= t
    decreases |pattern| - star, |text| - resume, |text| - t
  {
    if t < |text| then
      if p < |pattern| && (pattern[p] == '?' || pattern[p] == text[t]) then
        GlobRun(text, pattern, t + 1, p + 1, star, resume)
      else if p < |pattern| && pattern[p] == '*' then
        GlobRun(text, pattern, t, p + 1, p + 1, t)
      else if star > 0 then
        GlobRun(text, pattern, resume + 1, star, star, resume + 1)
      else false
    else
      forall k | p <= k < |pattern| :: pattern[k] == '*'
  }

  predicate GlobSegment(text: string, pattern: string) {
    GlobRun(text, pattern, 0, 0, 0, 0)
  }

  /** What a pattern matches: `*` any run of characters, `?` any one, the rest themselves. */
  ghost predicate GlobMatches(text: string, pattern: string)
    decreases |pattern|, |text|
  {
    if pattern == [] then text == []
    else if pattern[0] == '*' then GlobMatches(text, pattern[1..]) || (text != [] && GlobMatches(text[1..], pattern))
    else text != [] && (pattern[0] == '?' || pattern[0] == text[0]) && GlobMatches(text[1..], pattern[1..])
  }

  /** A `*` takes in whatever stands before a match of what follows it. */
  lemma {:induction false} StarAbsorbs(text: string, pattern: string, k: nat)
    requires pattern != [] && pattern[0] == '*' && k <= |text| && GlobMatches(text[k..], pattern)
    ensures GlobMatches(text, pattern)
  {
    if k == 0 {
      assert text[0..] == text;
    } else {
      assert text[1..][k - 1..] == text[k..];
      StarAbsorbs(text[1..], pattern, k - 1);
    }
  }

  lemma {:induction false} StarSplits(text: string, pattern: string)
    requires pattern != [] && pattern[0] == '*'
    ensures GlobMatches(text, pattern) <==> exists k | 0 <= k <= |text| :: GlobMatches(text[k..], pattern[1..])
  {
    if GlobMatches(text, pattern) && !GlobMatches(text, pattern[1..]) {
      StarSplits(text[1..], pattern);
      var k :| 0 <= k <= |text| - 1 && GlobMatches(text[1..][k..], pattern[1..]);
      assert text[1..][k..] == text[k + 1..];
    }
    if k :| 0 <= k <= |text| && GlobMatches(text[k..], pattern[1..]) {
      StarAbsorbs(text, pattern, k);
    }
    assert text[0..] == text;
  }

  lemma {:induction false} StarsMatchNothing(pattern: string)
    ensures GlobMatches([], pattern) <==> forall k | 0 <= k < |pattern| :: pattern[k] == '*'
  {
    if pattern != [] {
      StarsMatchNothing(pattern[1..]);
      assert pattern == [pattern[0]] + pattern[1..];
    }
  }

  /** A stretch without `*` matches at one place only, and leaves the rest to the rest. */
  lemma {:induction false} PlainStretch(text: string, pattern: string, n: nat)
    requires n <= |pattern| && forall k | 0 <= k < n :: pattern[k] != '*'
    ensures GlobMatches(text, pattern) ==> n <= |text| && GlobMatches(text[n..], pattern[n..])
  {
    if n == 0 {
      assert text[0..] == text && pattern[0..] == pattern;
    } else if GlobMatches(text, pattern) {
      PlainStretch(text[1..], pattern[1..], n - 1);
      assert text[1..][n - 1..] == text[n..] && pattern[1..][n - 1..] == pattern[n..];
    }
  }

  /** The choices the loop still has: go on from here, or give the last `*` at least one character more. */
  ghost predicate CanStill(text: string, pattern: string, t: nat, p: nat, star: nat, resume: nat)
    requires t <= |text| && star <= p <= |pattern| && resume <= t
  {
    || GlobMatches(text[t..], pattern[p..])
    || (star > 0 && exists r | resume < r <= |text| :: GlobMatches(text[r..], pattern[star..]))
  }

  /** Reaching another `*` gives up no match: it can take in whatever the earlier one would have. */
  lemma NewStarLosesNothing(text: string, pattern: string, t: nat, p: nat, star: nat, resume: nat)
    requires t < |text| && star <= p < |pattern| && resume <= t && pattern[p] == '*'
    requires star > 0 ==> t - resume == p - star && forall k | star <= k < p :: pattern[k] != '*'
    ensures CanStill(text, pattern, t, p, star, resume) <==> CanStill(text, pattern, t, p + 1, p + 1, t)
  {
    var rest := pattern[p..];
    assert rest[0] == '*' && rest[1..] == pattern[p + 1..];
    StarSplits(text[t..], rest);
    if star > 0 {
      forall r | resume < r <= |text| && GlobMatches(text[r..], pattern[star..]) ensures GlobMatches(text[t..], rest) {
        PlainStretch(text[r..], pattern[star..], p - star);
        assert pattern[star..][p - star..] == rest && text[r..][p - star..] == text[t..][r - resume..];
        StarAbsorbs(text[t..], rest, r - resume);
      }
    }
    if GlobMatches(text[t..], rest) {
      var k :| 0 <= k <= |text[t..]| && GlobMatches(text[t..][k..], rest[1..]);
      assert text[t..][k..] == text[t + k..];
      if k > 0 { assert GlobMatches(text[t + k..], pattern[p + 1..]); } else { assert text[t..][0..] == text[t..]; }
    }
    forall r | t < r <= |text| && GlobMatches(text[r..], pattern[p + 1..]) ensures GlobMatches(text[t..], rest) {
      assert text[t..][r - t..] == text[r..];
    }
    assert text[t..][0..] == text[t..];
  }

  lemma {:induction false} GlobRunMeans(text: string, pattern: string, t: nat, p: nat, star: nat, resume: nat)
    requires t <= |text| && star <= p <= |pattern| && resume <= t && '*' !in text
    requires star > 0 ==> t - resume == p - star && forall k | star <= k < p :: pattern[k] != '*'
    ensures GlobRun(text, pattern, t, p, star, resume) <==> CanStill(text, pattern, t, p, star, resume)
    decreases |pattern| - star, |text| - resume, |text| - t
  {
    if t < |text| {
      assert text[t] in text;
      if p < |pattern| && (pattern[p] == '?' || pattern[p] == text[t]) {
        GlobRunMeans(text, pattern, t + 1, p + 1, star, resume);
        assert text[t..][1..] == text[t + 1..] && pattern[p..][1..] == pattern[p + 1..];
      } else if p < |pattern| && pattern[p] == '*' {
        GlobRunMeans(text, pattern, t, p + 1, p + 1, t);
        NewStarLosesNothing(text, pattern, t, p, star, resume);
      } else {
        assert !GlobMatches(text[t..], pattern[p..]);
        if star > 0 { GlobRunMeans(text, pattern, resume + 1, star, star, resume + 1); }
      }
    } else {
      assert text[t..] == [];
      StarsMatchNothing(pattern[p..]);
      assert (forall k | p <= k < |pattern| :: pattern[k] == '*')
        <==> forall k | 0 <= k < |pattern[p..]| :: pattern[p..][k] == '*' by {
        assert forall k | p <= k < |pattern| :: pattern[k] == pattern[p..][k - p];
      }
      forall r | star > 0 && resume < r <= |text| ensures !GlobMatches(text[r..], pattern[star..]) {
        PlainStretch(text[r..], pattern[star..], p - star);
      }
    }
  }

  /**
   The loop, which never goes back further than the last `*`, is glob matching: on every text without a `*` of its
   own.
   */
  lemma GlobMeans(text: string, pattern: string)
    requires '*' !in text
    ensures GlobSegment(text, pattern) <==> GlobMatches(text, pattern)
  {
    GlobRunMeans(text, pattern, 0, 0, 0, 0);
    assert text[0..] == text && pattern[0..] == pattern;
  }

  /** `glob_segment`, as it runs. */
  method Glob(text: string, pattern: string) returns (matched: bool)
    ensures matched == GlobSegment(text, pattern)
    ensures '*' !in text ==> (matched <==> GlobMatches(text, pattern))
  {
    var t, p, star, resume := 0, 0, 0, 0;
    while t < |text|
      invariant t <= |text| && star <= p <= |pattern| && resume <= t
      invariant GlobRun(text, pattern, t, p, star, resume) == GlobSegment(text, pattern)
      decreases |pattern| - star, |text| - resume, |text| - t
    {
      if p < |pattern| && (pattern[p] == '?' || pattern[p] == text[t]) {
        t, p := t + 1, p + 1;
      } else if p < |pattern| && pattern[p] == '*' {
        p := p + 1;
        star, resume := p, t;
      } else if star > 0 {
        p, resume := star, resume + 1;
        t := resume;
      } else {
        if '*' !in text { GlobMeans(text, pattern); }
        return false;
      }
    }
    while p < |pattern| && pattern[p] == '*'
      invariant p <= |pattern| && (GlobSegment(text, pattern) <==> forall k | p <= k < |pattern| :: pattern[k] == '*')
    {
      p := p + 1;
    }
    if '*' !in text { GlobMeans(text, pattern); }
    matched := p == |pattern|;
  }

  /** Legal paths have none, nested patterns may; and it takes one: the loop reads the `*` as the character itself. */
  lemma StarInTextIsLiteral()
    ensures !GlobSegment("*a", "*") && GlobMatches("*a", "*")
  {
    StarAbsorbs("*a", "*", 2);
  }

  /** A pattern without wildcards matches only itself. */
  lemma {:induction false} LiteralRun(text: string, pattern: string, i: nat)
    requires i <= |text| && i <= |pattern| && text[..i] == pattern[..i]
    requires '*' !in pattern && '?' !in pattern
    ensures GlobRun(text, pattern, i, i, 0, 0) <==> text == pattern
    decreases |text| - i
  {
    if i < |text| && i < |pattern| && text[i] == pattern[i] {
      assert text[..i + 1] == text[..i] + [text[i]];
      assert pattern[..i + 1] == pattern[..i] + [pattern[i]];
      LiteralRun(text, pattern, i + 1);
    } else if i == |text| {
      assert text == text[..i] && (text == pattern <==> i == |pattern|);
      assert i < |pattern| ==> pattern[i] in pattern;
    } else {
      assert i < |pattern| ==> pattern[i] in pattern;
    }
  }

  /** `*` matches every segment that has no `*` of its own. */
  lemma {:induction false} StarRun(text: string, t: nat)
    requires t <= |text|
    ensures GlobRun(text, "*", t, 1, 1, t)
    decreases |text| - t
  {
    if t < |text| {
      StarRun(text, t + 1);
    }
  }

  lemma StarMatches(text: string)
    requires '*' !in text
    ensures GlobSegment(text, "*")
  {
    StarRun(text, 0);
  }

  // ---------------------------------------------------------------- patterns

  predicate IsChild(path: string, parent: string) {
    parent != [] && parent[|parent| - 1] == '/' && StartsWith(path, parent)
  }

  predicate MatchesPattern(path: string, pattern: string) {
    || path == pattern
    || IsChild(path, pattern)
    || (&& |Split(path, '/')| == |Split(pattern, '/')|
        && forall i | 0 <= i < |Split(path, '/')| :: GlobSegment(Split(path, '/')[i], Split(pattern, '/')[i]))
  }

  predicate MatchesAny(path: string, group: set<string>) {
    exists p | p in group :: MatchesPattern(path, p)
  }

  /** Each later group cut down to what the first one covers. */
  function Narrow(outer: set<string>, groups: seq<set<string>>): (r: seq<set<string>>)
    ensures |r| == |groups|
  {
    if groups == [] then []
    else [set parent | parent in groups[0] && MatchesAny(parent, outer)] + Narrow(outer, groups[1..])
  }

  predicate MatchesChain(path: string, parents: seq<set<string>>)
    decreases |parents|
  {
    if parents == [] then false
    else if |parents| == 1 then MatchesAny(path, parents[0])
    else MatchesChain(path, Narrow(parents[0], parents[1..]))
  }

  /** What a pattern covers: itself, what is below it if it ends in a slash, and what matches it segment by segment. */
  lemma PatternMeans(path: string, pattern: string)
    requires '*' !in path
    ensures MatchesPattern(path, pattern) <==>
              || path == pattern
              || (pattern != [] && pattern[|pattern| - 1] == '/' && pattern <= path)
              || (&& |Split(path, '/')| == |Split(pattern, '/')|
                  && forall i | 0 <= i < |Split(path, '/')| :: GlobMatches(Split(path, '/')[i], Split(pattern, '/')[i]))
  {
    forall i | 0 <= i < |Split(path, '/')| && |Split(path, '/')| == |Split(pattern, '/')|
      ensures GlobSegment(Split(path, '/')[i], Split(pattern, '/')[i])
         <==> GlobMatches(Split(path, '/')[i], Split(pattern, '/')[i])
    {
      if '*' in Split(path, '/')[i] { StarsComeFrom(path, i); }
      GlobMeans(Split(path, '/')[i], Split(pattern, '/')[i]);
    }
  }

  lemma StarsComeFrom(path: string, i: nat)
    requires i < |Split(path, '/')| && '*' in Split(path, '/')[i]
    ensures '*' in path
  {
    CharsOfSplit(path, '/', '*');
  }

  /** A role delegated by a delegated role covers what its own patterns cover, of those the outer one covers. */
  lemma NestedCovers(path: string, outer: set<string>, inner: set<string>)
    ensures MatchesChain(path, [outer, inner]) <==>
              exists p | p in inner :: MatchesPattern(path, p) && exists q | q in outer :: MatchesPattern(p, q)
  {
    hide MatchesPattern;
    assert [outer, inner][1..] == [inner];
    assert Narrow(outer, [inner]) == [set parent | parent in inner && MatchesAny(parent, outer)] + Narrow(outer, []);
    assert Narrow(outer, [inner])[0] == set parent | parent in inner && MatchesAny(parent, outer);
    if p :| p in inner && MatchesPattern(path, p) && exists q | q in outer :: MatchesPattern(p, q) {
      assert MatchesAny(p, outer) && p in Narrow(outer, [inner])[0];
    }
  }

  /** Every application's pattern covers exactly the five-segment paths under its own id. */
  lemma PatternCovers(path: string, appId: string)
    requires SafePath(path) && IsSegment(appId)
    ensures MatchesPattern(path, AppPathPattern(appId)) <==>
            |Split(path, '/')| == 5 && Split(path, '/')[0] == appId
  {
    SegmentHasNoSlash(appId);
    var parts := [appId, "*", "*", "*", "*"];
    SplitJoin(parts, '/');
    var pattern := AppPathPattern(appId);
    assert Split(pattern, '/') == parts;
    JoinEnd(parts);
    assert path != pattern by {
      assert pattern[|pattern| - 1] == '*';
      assert IllegalChar('*');
    }
    var segments := Split(path, '/');
    JoinSplit(path, '/');
    SegmentsOf(path);
    LiteralRun(segments[0], appId, 0);
    if |segments| == 5 {
      forall i | 1 <= i < 5 ensures GlobSegment(segments[i], parts[i]) {
        StarMatches(segments[i]);
      }
    }
  }

  lemma {:induction false} JoinEnd(segments: seq<string>)
    requires |segments| >= 1 && segments[|segments| - 1] != []
    ensures var s, last := Join(segments, '/'), segments[|segments| - 1];
            s != [] && s[|s| - 1] == last[|last| - 1]
  {
    if |segments| > 1 {
      JoinEnd(segments[1..]);
    }
  }

  lemma FirstSegment(path: string)
    requires path != []
    ensures path[0] == '/' <==> Split(path, '/')[0] == []
  {
  }

  /** Every character of a segment is a character of the path. */
  lemma {:induction false} SegmentsOf(path: string)
    ensures forall i, c | 0 <= i < |Split(path, '/')| && c in Split(path, '/')[i] :: c in path
    ensures '*' !in path ==> forall i | 0 <= i < |Split(path, '/')| :: '*' !in Split(path, '/')[i]
  {
    if path != [] {
      SegmentsOf(path[1..]);
      var rest := Split(path[1..], '/');
      assert path == [path[0]] + path[1..];
      forall i, c | 0 <= i < |Split(path, '/')| && c in Split(path, '/')[i] ensures c in path {
        if path[0] == '/' {
          assert i > 0 ==> Split(path, '/')[i] == rest[i - 1];
        } else {
          assert i > 0 ==> Split(path, '/')[i] == rest[i];
        }
      }
    }
  }

  /** Delegation patterns of different applications share no path. */
  lemma PatternsDisjoint(path: string, a: string, b: string)
    requires SafePath(path) && IsSegment(a) && IsSegment(b) && a != b
    ensures !(MatchesPattern(path, AppPathPattern(a)) && MatchesPattern(path, AppPathPattern(b)))
  {
    PatternCovers(path, a);
    PatternCovers(path, b);
  }

  // ----------------------------------------------------------- server's names

  lemma PlainPathIsSafe(path: string, segments: seq<string>)
    requires Split(path, '/') == segments && segments[0] != []
    requires forall i | 0 <= i < |segments| :: IsSegment(segments[i]) || segments[i] == POINTER_VERSION
    ensures SafePath(path)
  {
    JoinSplit(path, '/');
    PlainChars(segments);
    FirstSegment(path);
    forall i | 0 <= i < |segments| ensures segments[i] != "." && segments[i] != ".." {
      if IsSegment(segments[i]) {
        SegmentHasNoSlash(segments[i]);
      }
    }
  }

  predicate PlainChar(c: char) {
    IsAlnum(c) || c == '.' || c == '_' || c == '-' || c == '/'
  }

  lemma {:induction false} PlainChars(segments: seq<string>)
    requires |segments| >= 1
    requires forall i | 0 <= i < |segments| :: IsSegment(segments[i]) || segments[i] == POINTER_VERSION
    ensures forall i | 0 <= i < |Join(segments, '/')| ::
              PlainChar(Join(segments, '/')[i]) && !IllegalChar(Join(segments, '/')[i])
    ensures |Join(segments, '/')| >= |segments[0]|
  {
    assert forall i | 0 <= i < |segments[0]| :: PlainChar(segments[0][i]);
    if |segments| > 1 {
      PlainChars(segments[1..]);
    }
  }

  /** The server's release and pointer paths are legal, and covered by the pattern of their own app. */
  lemma RenderedPathsCovered(k: TargetKey)
    ensures SafePath(Path(k)) && SafePath(PointerPath(ChannelOf(k)))
    ensures MatchesPattern(Path(k), AppPathPattern(k.appId))
    ensures MatchesPattern(PointerPath(ChannelOf(k)), AppPathPattern(k.appId))
  {
    var c: ChannelKey := ChannelOf(k);
    PathSegments(k);
    PointerPathSegments(c);
    SlotIsPlain(c);
    PlainPathIsSafe(Path(k), [k.appId, k.channel, Slot(c), k.version, k.filename]);
    PlainPathIsSafe(PointerPath(c), [c.appId, c.channel, Slot(c), POINTER_VERSION, POINTER_FILE]);
    PatternCovers(Path(k), k.appId);
    PatternCovers(PointerPath(c), k.appId);
  }
}

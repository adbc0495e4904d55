/** Fetching from a forge (dist_ingest/forge.py): redirects followed by hand, and tags read as versions. */
module Forge {
  import opened Text
  import opened Naming

  const MAX_REDIRECTS := 5

  datatype Url = Url(scheme: string, host: string, rest: string)

  /** What a server may answer; `broken` is a transfer that fails before its end. */
  datatype Response = Redirect(location: Option<Url>) | Status(code: nat) | Body(chunks: seq<string>, broken: bool)

  datatype StreamError =
    | NotHttps
    | NoHost
    | HostRefused
    | NoLocation
    | BadStatus
    | TooLarge
    | Transport
    | TooManyRedirects

  /** The `i`-th request's answer: any server at all. */
  type Server = nat -> Response

  function Refusal(url: Url, allowed: set<string>): Option<StreamError> {
    if url.scheme != "https" then Some(NotHttps)
    else if url.host == [] then Some(NoHost)
    else if Lower(url.host) !in allowed then Some(HostRefused)
    else None
  }

  /** The URL of the `n`-th request, if redirects lead to one. */
  ghost function UrlAt(start: Url, server: Server, n: nat): Option<Url> {
    if n == 0 then Some(start)
    else if UrlAt(start, server, n - 1).Some? && server(n - 1).Redirect? then server(n - 1).location
    else None
  }

  ghost predicate Allowed(start: Url, server: Server, allowed: set<string>, n: nat) {
    && UrlAt(start, server, n).Some?
    && var url := UrlAt(start, server, n).value;
       url.scheme == "https" && url.host != [] && Lower(url.host) in allowed
  }

  /** Within five redirects, every hop an allowed https host, and a whole body under the cap at the end. */
  ghost predicate Delivers(start: Url, server: Server, allowed: set<string>, maxBytes: nat, n: nat) {
    && n <= 5 && (forall i | 0 <= i <= n :: Allowed(start, server, allowed, i))
    && server(n).Body? && !server(n).broken && |Concat(server(n).chunks)| <= maxBytes
  }

  /**
   `_stream`, against any sequence of answers: at most six requests, each to an allowed https host; a
   sink that never holds more than the cap, whatever the ending; and on success exactly the bytes of
   the last host, counted.
   */
  method Stream(start: Url, server: Server, allowed: set<string>, maxBytes: nat)
    returns (r: Result<nat, StreamError>, sink: string, requests: seq<Url>)
    ensures |requests| <= 6 && |sink| <= maxBytes
    ensures forall i | 0 <= i < |requests| ::
              Refusal(requests[i], allowed).None? && UrlAt(start, server, i) == Some(requests[i])
    ensures forall i | 0 <= i < |requests| :: requests[i].scheme == "https" && Lower(requests[i].host) in allowed
    ensures r.Ok? ==> && requests != [] && server(|requests| - 1).Body?
                      && sink == Concat(server(|requests| - 1).chunks) && r.value == |sink|
    ensures r.Ok? <==> exists n: nat :: Delivers(start, server, allowed, maxBytes, n)
  {
    hide Lower;
    var url := start;
    sink, requests := [], [];
    while |requests| < MAX_REDIRECTS + 1
      invariant |requests| <= MAX_REDIRECTS + 1 && sink == []
      invariant UrlAt(start, server, |requests|) == Some(url)
      invariant forall i | 0 <= i < |requests| ::
                 Refusal(requests[i], allowed).None? && UrlAt(start, server, i) == Some(requests[i])
      invariant forall i | 0 <= i < |requests| :: server(i).Redirect?
      decreases MAX_REDIRECTS + 1 - |requests|
    {
      var refusal := Refusal(url, allowed);
      if refusal.Some? {
        assert !Allowed(start, server, allowed, |requests|);
        return Err(refusal.value), sink, requests;
      }
      var response := server(|requests|);
      requests := requests + [url];
      match response {
        case Redirect(location) =>
          if location.None? {
            assert UrlAt(start, server, |requests|).None? && !Allowed(start, server, allowed, |requests|);
            return Err(NoLocation), sink, requests;
          }
          url := location.value;
        case Status(_) =>
          StopsHere(start, server, allowed, maxBytes, |requests| - 1);
          return Err(BadStatus), sink, requests;
        case Body(chunks, broken) =>
          StopsHere(start, server, allowed, maxBytes, |requests| - 1);
          r, sink := Read(chunks, broken, maxBytes);
          if r.Ok? {
            assert forall i | 0 <= i < |requests| :: Allowed(start, server, allowed, i);
            assert Delivers(start, server, allowed, maxBytes, |requests| - 1);
          }
          return;
      }
    }
    assert forall n: nat | n <= MAX_REDIRECTS :: !server(n).Body?;
    r := Err(TooManyRedirects);
  }

  /** An answer that is no redirect ends the chain: nothing later can deliver, and nothing earlier did. */
  lemma StopsHere(start: Url, server: Server, allowed: set<string>, maxBytes: nat, k: nat)
    requires !server(k).Redirect? && forall i | 0 <= i < k :: server(i).Redirect?
    ensures forall n: nat | Delivers(start, server, allowed, maxBytes, n) :: n == k
  {
    assert !Allowed(start, server, allowed, k + 1);
  }

  /** The body loop: counts each chunk before it writes it. */
  method Read(chunks: seq<string>, broken: bool, maxBytes: nat) returns (r: Result<nat, StreamError>, sink: string)
    ensures |sink| <= maxBytes
    ensures r.Ok? <==> !broken && |Concat(chunks)| <= maxBytes
    ensures r.Ok? ==> sink == Concat(chunks) && r.value == |sink|
  {
    var written, i := 0, 0;
    sink := [];
    while i < |chunks|
      invariant 0 <= i <= |chunks| && sink == Concat(chunks[..i]) && written == |sink| <= maxBytes
    {
      assert chunks[..i + 1][..i] == chunks[..i];
      written := written + |chunks[i]|;
      if written > maxBytes {
        ConcatGrows(chunks, i + 1);
        return Err(TooLarge), sink;
      }
      sink := sink + chunks[i];
      i := i + 1;
    }
    assert chunks[..i] == chunks;
    r := if broken then Err(Transport) else Ok(written);
  }

  // ------------------------------------------------------------------ versions

  predicate IsNumeric(s: string) {
    forall i | 0 <= i < |Split(s, '.')| :: Split(s, '.')[i] != [] && forall c | c in Split(s, '.')[i] :: IsDigit(c)
  }

  /** `_VERSION`, a whole-string match: dotted numbers, then perhaps `-` or `+` and more. */
  predicate IsForgeVersion(v: string) {
    exists k | 0 <= k <= |v| :: IsNumeric(v[..k]) && (k == |v| || IsSuffix(v[k..]))
  }

  predicate IsSuffix(s: string) {
    |s| >= 2 && (s[0] == '-' || s[0] == '+') && forall i | 1 <= i < |s| :: IsAlnum(s[i]) || s[i] == '.'
  }

  lemma {:induction false} NumericChars(s: string)
    requires IsNumeric(s)
    ensures s != [] && IsDigit(s[0]) && forall i | 0 <= i < |s| :: IsDigit(s[i]) || s[i] == '.'
  {
    JoinSplit(s, '.');
    JoinedChars(Split(s, '.'));
  }

  lemma {:induction false} JoinedChars(segments: seq<string>)
    requires |segments| >= 1
    requires forall i | 0 <= i < |segments| :: segments[i] != [] && forall c | c in segments[i] :: IsDigit(c)
    ensures var s := Join(segments, '.');
            s != [] && IsDigit(s[0]) && forall i | 0 <= i < |s| :: IsDigit(s[i]) || s[i] == '.'
  {
    assert segments[0][0] in segments[0];
    if |segments| > 1 {
      JoinedChars(segments[1..]);
    }
  }

  /** A version the forge yields is a legal path segment exactly when it carries no build metadata. */
  lemma ForgeVersionIsSegment(v: string)
    requires IsForgeVersion(v)
    ensures IsSegment(v) <==> '+' !in v
  {
    var k :| 0 <= k <= |v| && IsNumeric(v[..k]) && (k == |v| || IsSuffix(v[k..]));
    NumericChars(v[..k]);
    forall i | 0 <= i < |v| ensures IsAlnum(v[i]) || v[i] in {'.', '-', '+'} {
      if i < k {
        assert v[i] == v[..k][i];
      } else {
        assert v[i] == v[k..][i - k];
      }
    }
    assert v[0] == v[..k][0];
    if '+' in v {
      var i :| 0 <= i < |v| && v[i] == '+';
      assert !IsAlnum(v[i]);
    }
  }

  /** `version_from_tag`. */
  function VersionFromTag(tag: string, prefix: string): Option<string> {
    var version := if prefix != [] && StartsWith(tag, prefix) then tag[|prefix|..] else tag;
    if IsForgeVersion(version) then Some(version) else None
  }

  function Decimals(numbers: seq<nat>): seq<string> {
    seq(|numbers|, i requires 0 <= i < |numbers| => Decimal(numbers[i]))
  }

  lemma {:induction false} DecimalsAreNumeric(numbers: seq<nat>)
    requires |numbers| >= 1
    ensures IsNumeric(Join(Decimals(numbers), '.'))
  {
    forall i | 0 <= i < |numbers|
      ensures Decimals(numbers)[i] != [] && '.' !in Decimals(numbers)[i]
      ensures forall c | c in Decimals(numbers)[i] :: IsDigit(c)
    {
      DecimalParses(numbers[i]);
    }
    SplitJoin(Decimals(numbers), '.');
  }

  /** A dotted number with or without a pre-release or build part is a version, behind its prefix or alone. */
  lemma TagsAreRead(numbers: seq<nat>, suffix: string, prefix: string)
    requires |numbers| >= 1
    requires suffix == [] || (|suffix| >= 2 && suffix[0] in ['-', '+']
                              && forall i | 1 <= i < |suffix| :: IsAlnum(suffix[i]) || suffix[i] == '.')
    ensures var version := Join(Decimals(numbers), '.') + suffix;
            && VersionFromTag(prefix + version, prefix) == Some(version)
            && (prefix != [] && !IsDigit(prefix[0]) ==> VersionFromTag(version, prefix) == Some(version))
  {
    var digits := Join(Decimals(numbers), '.');
    var version := digits + suffix;
    DecimalsAreNumeric(numbers);
    NumericChars(digits);
    assert version[..|digits|] == digits && version[|digits|..] == suffix;
    assert IsForgeVersion(version);
    assert (prefix + version)[|prefix|..] == version;
    assert prefix == [] ==> prefix + version == version;
    assert version[0] == digits[0];
    hide IsNumeric, IsForgeVersion;
  }

  /** So a published tag with build metadata yields a version no target path can carry. */
  lemma BuildMetadataIsUnpublishable()
    ensures VersionFromTag("v1+2", "v") == Some("1+2") && !IsSegment("1+2")
  {
    assert "v1+2"[1..] == "1+2";
    SplitPlain("1", '.');
    assert "1+2"[..1] == "1" && "1+2"[1..] == "+2";
    assert IsNumeric("1+2"[..1]) && IsSuffix("1+2"[1..]);
    assert "1+2"[1] == '+';
  }
}

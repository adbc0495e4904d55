/** DSSE pre-authentication encoding (DSSE protocol v1, PAE). A byte string is a string of characters below 256. */
module Dsse {
  import opened Text

  type Octets = string

  /** `b"DSSEv1 %d %s %d %s"`, over a payload type already encoded as bytes. */
  function Pae(payloadType: Octets, payload: Octets): Octets {
    "DSSEv1 " + (Counted(payloadType) + " " + Counted(payload))
  }

  function Counted(s: Octets): Octets {
    Decimal(|s|) + " " + s
  }

  /** The bytes that are signed, spelled out. */
  lemma PaeText(payloadType: Octets, payload: Octets)
    ensures Pae(payloadType, payload)
         == "DSSEv1 " + Decimal(|payloadType|) + " " + payloadType + " " + Decimal(|payload|) + " " + payload
  {
    Flatten("DSSEv1 ", Decimal(|payloadType|), payloadType, Decimal(|payload|), payload);
  }

  lemma Flatten(a: string, b: string, c: string, d: string, e: string)
    ensures a + ((b + " " + c) + " " + (d + " " + e)) == a + b + " " + c + " " + d + " " + e
  {
  }

  lemma DecimalHasNoSpace(n: nat)
    ensures ' ' !in Decimal(n)
  {
    DecimalParses(n);
    assert !IsDigit(' ');
  }

  lemma DecimalInjective(m: nat, n: nat)
    requires Decimal(m) == Decimal(n)
    ensures m == n
  {
    DecimalParses(m);
    DecimalParses(n);
  }

  /** A counted string is self-delimiting: what follows it cannot be read as part of it. */
  lemma CountedPrefix(s: Octets, x: Octets, t: Octets, y: Octets)
    requires Counted(s) + x == Counted(t) + y
    ensures s == t && x == y
  {
    DecimalHasNoSpace(|s|);
    DecimalHasNoSpace(|t|);
    assert Counted(s) + x == Decimal(|s|) + " " + (s + x);
    assert Counted(t) + y == Decimal(|t|) + " " + (t + y);
    CutOnce(Decimal(|s|), s + x, Decimal(|t|), t + y, ' ');
    DecimalInjective(|s|, |t|);
    assert s == (s + x)[..|s|] == (t + y)[..|t|] == t;
    assert x == (s + x)[|s|..] == (t + y)[|t|..] == y;
  }

  /** No two (type, payload) pairs share an encoding. */
  lemma PaeInjective(t: Octets, p: Octets, u: Octets, q: Octets)
    requires Pae(t, p) == Pae(u, q)
    ensures t == u && p == q
  {
    var left, right := Counted(t) + (" " + Counted(p)), Counted(u) + (" " + Counted(q));
    assert Pae(t, p) == "DSSEv1 " + left && Pae(u, q) == "DSSEv1 " + right;
    assert left == Pae(t, p)[7..] == Pae(u, q)[7..] == right;
    CountedPrefix(t, " " + Counted(p), u, " " + Counted(q));
    assert Counted(p) == (" " + Counted(p))[1..] == (" " + Counted(q))[1..] == Counted(q);
    assert Counted(p) + "" == Counted(p) && Counted(q) + "" == Counted(q);
    CountedPrefix(p, "", q, "");
  }
}

/** Provenance on the fixed-key route (dist_ingest/provenance.py). */
module Provenance {
  import opened Text
  import opened Dsse

  const IN_TOTO_STATEMENT_V1 := "https://in-toto.io/Statement/v1"
  const SLSA_PROVENANCE_V1 := "https://slsa.dev/provenance/v1"
  const DSSE_PAYLOAD_TYPE := "application/vnd.in-toto+json"
  const MAX_ENVELOPE_BYTES := 1024 * 1024

  datatype Json = Null | Bool(b: bool) | Num(n: int) | Str(s: string) | Arr(items: seq<Json>) | Obj(fields: map<string,
                              Json>)

  /** `json.loads`: bytes that are not text raise an error of another kind than malformed JSON. */
  datatype Parsed = Good(json: Json) | Malformed | Undecodable

  /** A loaded PEM key; `Unloadable` raises. */
  datatype PublicKey = Ed25519(id: nat) | Ecdsa(id: nat) | OtherKind | Unloadable

  /** Parsers and cryptography, as parameters. */
  datatype World = World(loads: Octets -> Parsed, base64: string -> Option<Octets>,
                         load: Octets -> PublicKey, verifies: (PublicKey, Octets, Octets) -> bool)

  datatype TrustedBuilder = TrustedBuilder(builderId: string, keyId: string, pem: Octets)

  datatype Policy = Policy(builders: seq<TrustedBuilder>, projectUrl: string, tagRefPrefix: string)

  /** `Refused` is ProvenanceError; `Raised` is any other exception, which nothing on the way catches. */
  datatype Failure = Refused | Raised

  datatype Facts = Facts(builderId: string, sourceUri: string, sourceRef: string, subjectName: string,
                         subjectSha256: string)

  // ------------------------------------------------------------ reading JSON

  /** `x.get(key)` when `x` is a dictionary, else None. */
  function Get(j: Json, key: string): Json {
    if j.Obj? && key in j.fields then j.fields[key] else Null
  }

  // ---------------------------------------------------------------- envelope

  datatype Envelope = Envelope(payload: Octets, signatures: seq<Json>)

  function DecodeEnvelope(w: World, raw: Octets): Result<Envelope, Failure> {
    if |raw| > MAX_ENVELOPE_BYTES then Err(Refused)
    else
      match w.loads(raw)
      case Undecodable => Err(Raised)
      case Malformed => Err(Refused)
      case Good(j) =>
        if !j.Obj? || Get(j, "payloadType") != Str(DSSE_PAYLOAD_TYPE) || !Get(j, "payload").Str? then Err(Refused)
        else
          match w.base64(Get(j, "payload").s)
          case None => Err(Refused)
          case Some(payload) =>
            var signatures := Get(j, "signatures");
            if !signatures.Arr? || signatures.items == [] then Err(Refused) else Ok(Envelope(payload, signatures.items))
  }

  function BuilderFor(builders: seq<TrustedBuilder>, keyId: string): Option<TrustedBuilder> {
    if builders == [] then None
    else if builders[0].keyId == keyId then Some(builders[0])
    else BuilderFor(builders[1..], keyId)
  }

  /** What the loop of `_verify_envelope` makes of one signature entry. */
  datatype Look = Skip | Accept(builderId: string) | Fail(failure: Failure)

  function LookAt(w: World, policy: Policy, message: Octets, entry: Json): Look {
    if !Get(entry, "keyid").Str? || !Get(entry, "sig").Str? then Skip
    else
      match BuilderFor(policy.builders, Get(entry, "keyid").s)
      case None => Skip
      case Some(builder) =>
        match w.base64(Get(entry, "sig").s)
        case None => Skip
        case Some(signature) =>
          match w.load(builder.pem)
          case Unloadable => Fail(Raised)
          case OtherKind => Fail(Refused)
          case key => if w.verifies(key, signature, message) then Accept(builder.builderId) else Skip
  }

  function FirstTrusted(w: World, policy: Policy, message: Octets, signatures: seq<Json>): Result<string, Failure> {
    if signatures == [] then Err(Refused)
    else
      match LookAt(w, policy, message, signatures[0])
      case Skip => FirstTrusted(w, policy, message, signatures[1..])
      case Accept(builderId) => Ok(builderId)
      case Fail(failure) => Err(failure)
  }

  datatype Signed = Signed(statement: Json, builderId: string)

  function VerifyEnvelope(w: World, raw: Octets, policy: Policy): Result<Signed, Failure> {
    var envelope :- DecodeEnvelope(w, raw);
    var builderId :- FirstTrusted(w, policy, Pae(DSSE_PAYLOAD_TYPE, envelope.payload), envelope.signatures);
    match w.loads(envelope.payload)
    case Undecodable => Err(Raised)
    case Malformed => Err(Refused)
    case Good(j) => if j.Obj? then Ok(Signed(j, builderId)) else Err(Refused)
  }

  // --------------------------------------------------------------- statement

  function ClaimedBuilder(statement: Json): Json {
    Get(Get(Get(Get(statement, "predicate"), "runDetails"), "builder"), "id")
  }

  predicate SubjectMatches(subject: Json, sha256: string) {
    var declared := Get(Get(subject, "digest"), "sha256");
    declared.Str? && Lower(declared.s) == Lower(sha256)
  }

  function FindSubject(subjects: seq<Json>, sha256: string): Option<Json> {
    if subjects == [] then None
    else if SubjectMatches(subjects[0], sha256) then Some(subjects[0])
    else FindSubject(subjects[1..], sha256)
  }

  function SubjectDigest(statement: Json, sha256: string): Result<(string, string), Failure> {
    var subjects := Get(statement, "subject");
    if !subjects.Arr? then Err(Refused)
    else
      match FindSubject(subjects.items, sha256)
      case None => Err(Refused)
      case Some(subject) =>
        var name, declared := Get(subject, "name"), Get(Get(subject, "digest"), "sha256");
        Ok((if name.Str? then name.s else "", if declared.Str? then Lower(declared.s) else ""))
  }

  function Expected(policy: Policy): string {
    "git+" + policy.projectUrl + "@"
  }

  predicate FromProject(dependency: Json, policy: Policy) {
    Get(dependency, "uri").Str? && StartsWith(Get(dependency, "uri").s, Expected(policy))
  }

  function FindDependency(dependencies: seq<Json>, policy: Policy): (r: Option<string>)
    ensures r.Some? ==> StartsWith(r.value, Expected(policy))
  {
    if dependencies == [] then None
    else if FromProject(dependencies[0], policy) then Some(Get(dependencies[0], "uri").s)
    else FindDependency(dependencies[1..], policy)
  }

  function Dependencies(statement: Json): Json {
    Get(Get(Get(statement, "predicate"), "buildDefinition"), "resolvedDependencies")
  }

  function Source(statement: Json, policy: Policy): Result<(string, string), Failure> {
    if !Dependencies(statement).Arr? then Err(Refused)
    else
      match FindDependency(Dependencies(statement).items, policy)
      case None => Err(Refused)
      case Some(uri) =>
        var ref := uri[|Expected(policy)|..];
        if StartsWith(ref, policy.tagRefPrefix) then Ok((uri, ref)) else Err(Refused)
  }

  function CheckStatement(statement: Json, builderId: string, sha256: string, policy: Policy): Result<Facts, Failure> {
    if Get(statement, "_type") != Str(IN_TOTO_STATEMENT_V1)
       || Get(statement, "predicateType") != Str(SLSA_PROVENANCE_V1) then Err(Refused)
    else if ClaimedBuilder(statement) != Str(builderId) then Err(Refused)
    else
      var subject :- SubjectDigest(statement, sha256);
      var source :- Source(statement, policy);
      Ok(Facts(builderId, source.0, source.1, subject.0, subject.1))
  }

  function VerifyProvenance(w: World, raw: Octets, sha256: string, policy: Policy): Result<Facts, Failure> {
    var signed :- VerifyEnvelope(w, raw, policy);
    CheckStatement(signed.statement, signed.builderId, sha256, policy)
  }

  // ------------------------------------------------------ what acceptance means

  /** The first builder listed under that key id. */
  ghost predicate PinnedAs(builders: seq<TrustedBuilder>, keyId: string, builder: TrustedBuilder) {
    exists k | 0 <= k < |builders| ::
      builders[k] == builder && builder.keyId == keyId && forall j | 0 <= j < k :: builders[j].keyId != keyId
  }

  lemma {:induction false} BuilderForMeans(builders: seq<TrustedBuilder>, keyId: string, builder: TrustedBuilder)
    ensures BuilderFor(builders, keyId) == Some(builder) <==> PinnedAs(builders, keyId, builder)
    ensures BuilderFor(builders, keyId) == None <==> forall k | 0 <= k < |builders| :: builders[k].keyId != keyId
  {
    if builders != [] {
      var rest := builders[1..];
      BuilderForMeans(rest, keyId, builder);
      assert forall k | 1 <= k < |builders| :: builders[k] == rest[k - 1];
      if builders[0].keyId != keyId {
        if PinnedAs(rest, keyId, builder) {
          var k :| 0 <= k < |rest| && rest[k] == builder && builder.keyId == keyId
                   && forall j | 0 <= j < k :: rest[j].keyId != keyId;
          assert builders[k + 1] == builder && forall j | 0 <= j < k + 1 :: builders[j].keyId != keyId;
        }
        if PinnedAs(builders, keyId, builder) {
          var k :| 0 <= k < |builders| && builders[k] == builder && builder.keyId == keyId
                   && forall j | 0 <= j < k :: builders[j].keyId != keyId;
          assert rest[k - 1] == builder && forall j | 0 <= j < k - 1 :: rest[j].keyId == builders[j + 1].keyId;
        }
        assert rest != [] ==> builders[1] == rest[0];
        assert forall k | 0 <= k < |rest| :: builders[k + 1] == rest[k];
      }
    }
  }

  /** The entry verifies under the key pinned for its key id, and that key is one builder's. */
  ghost predicate Verifies(w: World, policy: Policy, message: Octets, entry: Json, builderId: string) {
    && Get(entry, "keyid").Str? && Get(entry, "sig").Str? && w.base64(Get(entry, "sig").s).Some?
    && exists builder ::
         && PinnedAs(policy.builders, Get(entry, "keyid").s, builder) && builder.builderId == builderId
         && (w.load(builder.pem).Ed25519? || w.load(builder.pem).Ecdsa?)
         && w.verifies(w.load(builder.pem), w.base64(Get(entry, "sig").s).value, message)
  }

  /** Not an entry at all, not of a pinned key, not base64, or not a signature of this message. */
  ghost predicate PassedOver(w: World, policy: Policy, message: Octets, entry: Json) {
    || !Get(entry, "keyid").Str? || !Get(entry, "sig").Str?
    || (forall k | 0 <= k < |policy.builders| :: policy.builders[k].keyId != Get(entry, "keyid").s)
    || w.base64(Get(entry, "sig").s).None?
    || exists builder ::
         && PinnedAs(policy.builders, Get(entry, "keyid").s, builder)
         && (w.load(builder.pem).Ed25519? || w.load(builder.pem).Ecdsa?)
         && !w.verifies(w.load(builder.pem), w.base64(Get(entry, "sig").s).value, message)
  }

  lemma LookMeans(w: World, policy: Policy, message: Octets, entry: Json, builderId: string)
    ensures LookAt(w, policy, message, entry) == Accept(builderId) <==> Verifies(w, policy, message, entry, builderId)
    ensures LookAt(w, policy, message, entry) == Skip <==> PassedOver(w, policy, message, entry)
  {
    if Get(entry, "keyid").Str? {
      var keyId := Get(entry, "keyid").s;
      forall builder
        ensures BuilderFor(policy.builders, keyId) == Some(builder) <==> PinnedAs(policy.builders, keyId, builder)
      {
        BuilderForMeans(policy.builders, keyId, builder);
      }
      BuilderForMeans(policy.builders, keyId, TrustedBuilder("", "", ""));
    }
    hide BuilderFor, PinnedAs, Get;
  }

  /** The first entry that is not passed over is a good one. */
  ghost predicate TrustedEntry(w: World, policy: Policy, message: Octets, signatures: seq<Json>, builderId: string) {
    exists i | 0 <= i < |signatures| ::
      && Verifies(w, policy, message, signatures[i], builderId)
      && forall j | 0 <= j < i :: PassedOver(w, policy, message, signatures[j])
  }

  lemma {:induction false} FirstTrustedMeans(w: World, policy: Policy, message: Octets, signatures: seq<Json>,
                                             builderId: string)
    ensures FirstTrusted(w, policy, message, signatures) == Ok(builderId) <==>
              TrustedEntry(w, policy, message, signatures, builderId)
  {
    hide LookAt, Verifies, PassedOver;
    if signatures != [] {
      var rest := signatures[1..];
      FirstTrustedMeans(w, policy, message, rest, builderId);
      LookMeans(w, policy, message, signatures[0], builderId);
      if TrustedEntry(w, policy, message, rest, builderId) && PassedOver(w, policy, message, signatures[0]) {
        var i :| 0 <= i < |rest| && Verifies(w, policy, message, rest[i], builderId)
                 && forall j | 0 <= j < i :: PassedOver(w, policy, message, rest[j]);
        assert signatures[i + 1] == rest[i];
        assert forall j | 1 <= j < i + 1 :: signatures[j] == rest[j - 1];
      }
      if TrustedEntry(w, policy, message, signatures, builderId) {
        var i :| 0 <= i < |signatures| && Verifies(w, policy, message, signatures[i], builderId)
                 && forall j | 0 <= j < i :: PassedOver(w, policy, message, signatures[j]);
        if i > 0 {
          assert rest[i - 1] == signatures[i];
          assert forall j | 0 <= j < i - 1 :: rest[j] == signatures[j + 1];
        }
      }
    }
  }

  /** What an envelope is: at most a mebibyte of JSON, of this type, with a payload and some signatures. */
  ghost predicate IsEnvelope(w: World, raw: Octets, envelope: Envelope) {
    && |raw| <= 1048576 && w.loads(raw).Good? && w.loads(raw).json.Obj?
    && var fields := w.loads(raw).json.fields;
       && "payloadType" in fields && fields["payloadType"] == Str("application/vnd.in-toto+json")
       && "payload" in fields && fields["payload"].Str? && w.base64(fields["payload"].s) == Some(envelope.payload)
       && "signatures" in fields && fields["signatures"] == Arr(envelope.signatures) && envelope.signatures != []
  }

  lemma DecodeEnvelopeMeans(w: World, raw: Octets, envelope: Envelope)
    ensures DecodeEnvelope(w, raw) == Ok(envelope) <==> IsEnvelope(w, raw, envelope)
  {
  }

  lemma {:induction false} FindSubjectMeans(subjects: seq<Json>, sha256: string)
    ensures FindSubject(subjects, sha256).Some? <==>
              exists i | 0 <= i < |subjects| :: SubjectMatches(subjects[i], sha256)
    ensures FindSubject(subjects, sha256).Some? ==> SubjectMatches(FindSubject(subjects, sha256).value, sha256)
  {
    hide SubjectMatches;
    if subjects != [] {
      FindSubjectMeans(subjects[1..], sha256);
      assert forall i | 1 <= i < |subjects| :: subjects[i] == subjects[1..][i - 1];
      if FindSubject(subjects[1..], sha256).Some? {
        var i :| 0 <= i < |subjects| - 1 && SubjectMatches(subjects[1..][i], sha256);
        assert SubjectMatches(subjects[i + 1], sha256);
      }
    }
  }

  predicate UriBegins(dependency: Json, text: string) {
    Get(dependency, "uri").Str? && text <= Get(dependency, "uri").s
  }

  /** `uri` is the first of the dependencies' that begins with `text`. */
  ghost predicate FirstBeginning(dependencies: seq<Json>, text: string, uri: string) {
    exists i | 0 <= i < |dependencies| ::
      UriBegins(dependencies[i], text) && Get(dependencies[i], "uri") == Str(uri)
      && forall j | 0 <= j < i :: !UriBegins(dependencies[j], text)
  }

  lemma {:induction false} FindDependencyMeans(dependencies: seq<Json>, policy: Policy, uri: string)
    ensures FindDependency(dependencies, policy) == Some(uri) <==>
              FirstBeginning(dependencies, "git+" + policy.projectUrl + "@", uri)
  {
    var text := "git+" + policy.projectUrl + "@";
    assert forall dependency :: FromProject(dependency, policy) <==> UriBegins(dependency, text);
    assert forall dependency | UriBegins(dependency, text) :: Get(dependency, "uri").Str?;
    hide FromProject, UriBegins;
    if dependencies != [] {
      var rest := dependencies[1..];
      FindDependencyMeans(rest, policy, uri);
      if FirstBeginning(rest, text, uri) && !UriBegins(dependencies[0], text) {
        var i :| 0 <= i < |rest| && UriBegins(rest[i], text) && Get(rest[i], "uri") == Str(uri)
                 && forall j | 0 <= j < i :: !UriBegins(rest[j], text);
        assert dependencies[i + 1] == rest[i];
        assert forall j | 1 <= j < i + 1 :: dependencies[j] == rest[j - 1];
      }
      if FirstBeginning(dependencies, text, uri) {
        var i :| 0 <= i < |dependencies| && UriBegins(dependencies[i], text)
                 && Get(dependencies[i], "uri") == Str(uri)
                 && forall j | 0 <= j < i :: !UriBegins(dependencies[j], text);
        if i > 0 {
          assert rest[i - 1] == dependencies[i];
          assert forall j | 0 <= j < i - 1 :: rest[j] == dependencies[j + 1];
        }
      }
    }
  }

  /** What a statement must say about these bytes, this builder and this project. */
  ghost predicate Attests(statement: Json, builderId: string, sha256: string, policy: Policy) {
    var claims := Get(statement, "predicate");
    var dependencies := Get(Get(claims, "buildDefinition"), "resolvedDependencies");
    && Get(statement, "_type") == Str("https://in-toto.io/Statement/v1")
    && Get(statement, "predicateType") == Str("https://slsa.dev/provenance/v1")
    && Get(Get(Get(claims, "runDetails"), "builder"), "id") == Str(builderId)
    && Get(statement, "subject").Arr?
    && (exists i | 0 <= i < |Get(statement, "subject").items| ::
          SubjectMatches(Get(statement, "subject").items[i], sha256))
    && dependencies.Arr?
    && exists uri ::
         && FirstBeginning(dependencies.items, "git+" + policy.projectUrl + "@", uri)
         && "git+" + policy.projectUrl + "@" + policy.tagRefPrefix <= uri
  }

  lemma RefHasPrefix(uri: string, policy: Policy)
    requires StartsWith(uri, Expected(policy))
    ensures StartsWith(uri[|Expected(policy)|..], policy.tagRefPrefix) <==>
              StartsWith(uri, Expected(policy) + policy.tagRefPrefix)
  {
    var e, t := Expected(policy), policy.tagRefPrefix;
    var ref := uri[|e|..];
    assert uri == e + ref;
    if StartsWith(ref, t) {
      assert uri == (e + t) + ref[|t|..];
    }
    if StartsWith(uri, e + t) {
      assert uri[..|e + t|] == e + t;
      assert ref[..|t|] == uri[..|e + t|][|e|..] == t;
    }
  }

  /**
   A statement passes exactly when it attests these bytes, this builder and a tag of this project; and what is
   reported is the first source of that project, its ref, the builder and the digest.
   */
  lemma CheckStatementMeans(statement: Json, builderId: string, sha256: string, policy: Policy)
    ensures CheckStatement(statement, builderId, sha256, policy).Ok? <==> Attests(statement, builderId, sha256, policy)
    ensures CheckStatement(statement, builderId, sha256, policy).Ok? ==>
              && var facts := CheckStatement(statement, builderId, sha256, policy).value;
                 && facts.builderId == builderId && facts.subjectSha256 == Lower(sha256)
                 && facts.sourceUri == "git+" + policy.projectUrl + "@" + facts.sourceRef
                 && policy.tagRefPrefix <= facts.sourceRef
                 && Dependencies(statement).Arr?
                 && FirstBeginning(Dependencies(statement).items, "git+" + policy.projectUrl + "@", facts.sourceUri)
  {
    var subjects, dependencies := Get(statement, "subject"), Dependencies(statement);
    assert Expected(policy) == "git+" + policy.projectUrl + "@";
    assert ClaimedBuilder(statement) == Get(Get(Get(Get(statement, "predicate"), "runDetails"), "builder"), "id");
    hide SubjectMatches, FirstBeginning, Expected, ClaimedBuilder, Dependencies, Get;
    if subjects.Arr? {
      FindSubjectMeans(subjects.items, sha256);
      if FindSubject(subjects.items, sha256).Some? {
        MatchedDigest(FindSubject(subjects.items, sha256).value, sha256);
      }
    }
    if dependencies.Arr? {
      forall uri
        ensures FindDependency(dependencies.items, policy) == Some(uri) <==>
                  FirstBeginning(dependencies.items, "git+" + policy.projectUrl + "@", uri) {
        FindDependencyMeans(dependencies.items, policy, uri);
      }
      if FindDependency(dependencies.items, policy).Some? {
        RefHasPrefix(FindDependency(dependencies.items, policy).value, policy);
      }
    }
  }

  lemma MatchedDigest(subject: Json, sha256: string)
    requires SubjectMatches(subject, sha256)
    ensures Get(Get(subject, "digest"), "sha256").Str?
    ensures Lower(Get(Get(subject, "digest"), "sha256").s) == Lower(sha256)
  {
  }

  /**
   Provenance accepts exactly the envelopes whose first usable signature, over the encoding of payload type and
   payload, signs a statement that attests these bytes.
   */
  ghost predicate Proven(w: World, raw: Octets, sha256: string, policy: Policy) {
    exists envelope, builderId ::
      && IsEnvelope(w, raw, envelope)
      && TrustedEntry(w, policy, Message(envelope.payload), envelope.signatures, builderId)
      && w.loads(envelope.payload).Good? && w.loads(envelope.payload).json.Obj?
      && Attests(w.loads(envelope.payload).json, builderId, sha256, policy)
  }

  /** The bytes a builder signs. */
  function Message(payload: Octets): Octets {
    "DSSEv1 28 " + "application/vnd.in-toto+json" + " " + Decimal(|payload|) + " " + payload
  }

  lemma MessageIsPae(payload: Octets)
    ensures Pae(DSSE_PAYLOAD_TYPE, payload) == Message(payload)
  {
    PaeText(DSSE_PAYLOAD_TYPE, payload);
    assert |DSSE_PAYLOAD_TYPE| == 28;
    assert Decimal(28) == Decimal(2) + "8" == "28";
    hide Decimal;
    assert "DSSEv1 " + "28" + " " == "DSSEv1 28 ";
  }

  lemma VerifyProvenanceMeans(w: World, raw: Octets, sha256: string, policy: Policy)
    ensures VerifyProvenance(w, raw, sha256, policy).Ok? <==> Proven(w, raw, sha256, policy)
    ensures VerifyProvenance(w, raw, sha256, policy).Ok? ==>
              VerifyProvenance(w, raw, sha256, policy).value.subjectSha256 == Lower(sha256)
  {
    hide DecodeEnvelope, TrustedEntry, Attests, CheckStatement, FirstTrusted, Pae, IsEnvelope, Message, Dependencies;
    forall envelope ensures DecodeEnvelope(w, raw) == Ok(envelope) <==> IsEnvelope(w, raw, envelope) {
      DecodeEnvelopeMeans(w, raw, envelope);
    }
    if DecodeEnvelope(w, raw).Ok? {
      var envelope := DecodeEnvelope(w, raw).value;
      var message := Pae(DSSE_PAYLOAD_TYPE, envelope.payload);
      MessageIsPae(envelope.payload);
      forall builderId ensures FirstTrusted(w, policy, message, envelope.signatures) == Ok(builderId)
                          <==> TrustedEntry(w, policy, message, envelope.signatures, builderId) {
        FirstTrustedMeans(w, policy, message, envelope.signatures, builderId);
      }
      if FirstTrusted(w, policy, message, envelope.signatures).Ok? && w.loads(envelope.payload).Good? {
        CheckStatementMeans(w.loads(envelope.payload).json, FirstTrusted(w, policy, message, envelope.signatures).value,
                            sha256, policy);
      }
    }
  }

  /** The key pinned for the entry's key id cannot be loaded. */
  ghost predicate OfUnloadableKey(w: World, policy: Policy, entry: Json) {
    && Get(entry, "keyid").Str? && Get(entry, "sig").Str? && w.base64(Get(entry, "sig").s).Some?
    && exists builder ::
         PinnedAs(policy.builders, Get(entry, "keyid").s, builder) && w.load(builder.pem).Unloadable?
  }

  lemma LookRaises(w: World, policy: Policy, message: Octets, entry: Json)
    ensures LookAt(w, policy, message, entry) == Fail(Raised) <==> OfUnloadableKey(w, policy, entry)
  {
    if Get(entry, "keyid").Str? {
      var keyId := Get(entry, "keyid").s;
      forall builder
        ensures BuilderFor(policy.builders, keyId) == Some(builder) <==> PinnedAs(policy.builders, keyId, builder)
      {
        BuilderForMeans(policy.builders, keyId, builder);
      }
    }
    hide BuilderFor, PinnedAs, Get;
  }

  /** The first entry that is not passed over is of a key that cannot be loaded. */
  ghost predicate UnloadableFirst(w: World, policy: Policy, message: Octets, signatures: seq<Json>) {
    exists i | 0 <= i < |signatures| ::
      && OfUnloadableKey(w, policy, signatures[i])
      && forall j | 0 <= j < i :: PassedOver(w, policy, message, signatures[j])
  }

  lemma {:induction false} FirstRaises(w: World, policy: Policy, message: Octets, signatures: seq<Json>)
    ensures FirstTrusted(w, policy, message, signatures) == Err(Raised) <==>
              UnloadableFirst(w, policy, message, signatures)
  {
    hide LookAt, OfUnloadableKey, PassedOver;
    if signatures != [] {
      var rest := signatures[1..];
      FirstRaises(w, policy, message, rest);
      LookRaises(w, policy, message, signatures[0]);
      LookMeans(w, policy, message, signatures[0], "");
      if UnloadableFirst(w, policy, message, rest) && PassedOver(w, policy, message, signatures[0]) {
        var i :| 0 <= i < |rest| && OfUnloadableKey(w, policy, rest[i])
                 && forall j | 0 <= j < i :: PassedOver(w, policy, message, rest[j]);
        assert signatures[i + 1] == rest[i];
        assert forall j | 1 <= j < i + 1 :: signatures[j] == rest[j - 1];
      }
      if UnloadableFirst(w, policy, message, signatures) {
        var i :| 0 <= i < |signatures| && OfUnloadableKey(w, policy, signatures[i])
                 && forall j | 0 <= j < i :: PassedOver(w, policy, message, signatures[j]);
        if i > 0 {
          assert rest[i - 1] == signatures[i];
          assert forall j | 0 <= j < i - 1 :: rest[j] == signatures[j + 1];
        }
      }
    }
  }

  /** Not refused but raised: bytes that are not text, outside or inside, or a pinned key that will not load. */
  ghost predicate RaisesElsewhere(w: World, raw: Octets, policy: Policy) {
    || (|raw| <= 1048576 && w.loads(raw).Undecodable?)
    || exists envelope ::
         && IsEnvelope(w, raw, envelope)
         && (|| UnloadableFirst(w, policy, Message(envelope.payload), envelope.signatures)
             || (&& w.loads(envelope.payload).Undecodable?
                 && exists builderId ::
                      TrustedEntry(w, policy, Message(envelope.payload), envelope.signatures, builderId)))
  }

  lemma CheckNeverRaises(statement: Json, builderId: string, sha256: string, policy: Policy)
    ensures CheckStatement(statement, builderId, sha256, policy) != Err(Raised)
  {
  }

  lemma DecodeRaises(w: World, raw: Octets)
    ensures DecodeEnvelope(w, raw) == Err(Raised) <==> |raw| <= 1048576 && w.loads(raw).Undecodable?
  {
  }

  /** Everything else that does not pass is refused. */
  lemma RaisesExactly(w: World, raw: Octets, sha256: string, policy: Policy)
    ensures VerifyProvenance(w, raw, sha256, policy) == Err(Raised) <==> RaisesElsewhere(w, raw, policy)
  {
    hide DecodeEnvelope, TrustedEntry, CheckStatement, FirstTrusted, Pae, IsEnvelope, Message, UnloadableFirst;
    DecodeRaises(w, raw);
    forall envelope ensures DecodeEnvelope(w, raw) == Ok(envelope) <==> IsEnvelope(w, raw, envelope) {
      DecodeEnvelopeMeans(w, raw, envelope);
    }
    if DecodeEnvelope(w, raw).Ok? {
      var envelope := DecodeEnvelope(w, raw).value;
      var message := Pae(DSSE_PAYLOAD_TYPE, envelope.payload);
      MessageIsPae(envelope.payload);
      FirstRaises(w, policy, message, envelope.signatures);
      forall builderId ensures FirstTrusted(w, policy, message, envelope.signatures) == Ok(builderId)
                          <==> TrustedEntry(w, policy, message, envelope.signatures, builderId) {
        FirstTrustedMeans(w, policy, message, envelope.signatures, builderId);
      }
      if FirstTrusted(w, policy, message, envelope.signatures).Ok? && w.loads(envelope.payload).Good? {
        CheckNeverRaises(w.loads(envelope.payload).json, FirstTrusted(w, policy, message, envelope.signatures).value,
                         sha256, policy);
      }
    }
  }

  /** A statement as a forge writes it, with whatever else it resolved. */
  function WrittenStatement(builderId: string, name: string, digest: string, dependencies: seq<Json>): Json {
    Obj(map[
      "_type" := Str("https://in-toto.io/Statement/v1"),
      "subject" := Arr([Obj(map["name" := Str(name), "digest" := Obj(map["sha256" := Str(digest)])])]),
      "predicateType" := Str("https://slsa.dev/provenance/v1"),
      "predicate" := Obj(map[
        "buildDefinition" := Obj(map["resolvedDependencies" := Arr(dependencies)]),
        "runDetails" := Obj(map["builder" := Obj(map["id" := Str(builderId)])])])])
  }

  /** What that text says, key by key. */
  lemma WrittenReads(builderId: string, name: string, digest: string, dependencies: seq<Json>)
    ensures var statement := WrittenStatement(builderId, name, digest, dependencies);
            && Get(statement, "_type") == Str(IN_TOTO_STATEMENT_V1)
            && Get(statement, "predicateType") == Str(SLSA_PROVENANCE_V1)
            && ClaimedBuilder(statement) == Str(builderId) && Dependencies(statement) == Arr(dependencies)
            && Get(statement, "subject").Arr? && |Get(statement, "subject").items| == 1
            && Get(Get(Get(statement, "subject").items[0], "digest"), "sha256") == Str(digest)
            && Get(Get(statement, "subject").items[0], "name") == Str(name)
  {
    assert |"_type"| == 5 && |"subject"| == 7 && |"predicateType"| == 13 && |"predicate"| == 9;
    assert |"name"| == 4 && |"digest"| == 6 && |"buildDefinition"| == 15 && |"runDetails"| == 10;
  }

  /**
   And what a forge writes about a build of this project at a tag passes, whatever else it resolved after it and
   whatever before it that is not of this project: its digest in either case, its ref without the `@`.
   */
  lemma WrittenStatementPasses(builderId: string, name: string, digest: string, sha256: string, policy: Policy,
                               before: seq<Json>, ref: string, after: seq<Json>)
    requires Lower(digest) == Lower(sha256) && policy.tagRefPrefix <= ref
    requires forall i | 0 <= i < |before| :: !UriBegins(before[i], "git+" + policy.projectUrl + "@")
    ensures var uri := "git+" + policy.projectUrl + "@" + ref;
            var dependencies := before + ([Obj(map["uri" := Str(uri)])] + after);
            CheckStatement(WrittenStatement(builderId, name, digest, dependencies), builderId, sha256, policy)
              == Ok(Facts(builderId, uri, ref, name, Lower(sha256)))
  {
    var uri, text := "git+" + policy.projectUrl + "@" + ref, "git+" + policy.projectUrl + "@";
    var dependencies := before + ([Obj(map["uri" := Str(uri)])] + after);
    WrittenReads(builderId, name, digest, dependencies);
    assert Get(dependencies[|before|], "uri") == Str(uri) && uri[..|text|] == text && uri[|text|..] == ref;
    assert UriBegins(dependencies[|before|], text);
    assert forall i | 0 <= i < |before| :: dependencies[i] == before[i];
    assert FirstBeginning(dependencies, text, uri);
    FindDependencyMeans(dependencies, policy, uri);
    hide WrittenStatement, ClaimedBuilder, Dependencies, Get, FindDependency, FirstBeginning, UriBegins;
  }

  /** What is asked of the signature scheme: under one key, one signature verifies one message. */
  ghost predicate Binding(w: World) {
    forall key: PublicKey, signature: Octets, m: Octets, n: Octets ::
      w.verifies(key, signature, m) && w.verifies(key, signature, n) ==> m == n
  }

  /** A signature any pinned key accepts fixes the payload type and the payload: it is accepted under no other pair. */
  lemma SignatureFixesMessage(w: World, policy: Policy, entry: Json, t: Octets, p: Octets, u: Octets, q: Octets)
    requires Binding(w)
    requires LookAt(w, policy, Pae(t, p), entry).Accept? && LookAt(w, policy, Pae(u, q), entry).Accept?
    ensures t == u && p == q
  {
    hide Pae;
    AcceptIsVerified(w, policy, Pae(t, p), entry);
    AcceptIsVerified(w, policy, Pae(u, q), entry);
    PaeInjective(t, p, u, q);
  }

  lemma AcceptIsVerified(w: World, policy: Policy, message: Octets, entry: Json)
    requires LookAt(w, policy, message, entry).Accept?
    ensures BuilderFor(policy.builders, Get(entry, "keyid").s).Some? && w.base64(Get(entry, "sig").s).Some?
    ensures w.verifies(w.load(BuilderFor(policy.builders, Get(entry, "keyid").s).value.pem),
                       w.base64(Get(entry, "sig").s).value, message)
  {
  }

  /** So a signature moved into another envelope carries its own statement there, or is not accepted there. */
  lemma SignatureFixesStatement(w: World, policy: Policy, a: Octets, b: Octets, entry: Json)
    requires Binding(w) && VerifyEnvelope(w, a, policy).Ok? && VerifyEnvelope(w, b, policy).Ok?
    requires LookAt(w, policy, Pae(DSSE_PAYLOAD_TYPE, DecodeEnvelope(w, a).value.payload), entry).Accept?
    requires LookAt(w, policy, Pae(DSSE_PAYLOAD_TYPE, DecodeEnvelope(w, b).value.payload), entry).Accept?
    ensures VerifyEnvelope(w, a, policy).value.statement == VerifyEnvelope(w, b, policy).value.statement
  {
    hide LookAt, FirstTrusted, DecodeEnvelope, Binding, Pae;
    SignatureFixesMessage(w, policy, entry, DSSE_PAYLOAD_TYPE, DecodeEnvelope(w, a).value.payload,
                          DSSE_PAYLOAD_TYPE, DecodeEnvelope(w, b).value.payload);
  }
}

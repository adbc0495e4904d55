/**
 Ingestion: the content-addressed quarantine (dist_ingest/quarantine.py) and the promotion decision
 taken over what it holds (dist_ingest/policy.py).
 */
module Policy {
  import opened Text
  import opened Dsse
  import Provenance
  import Gates
  import Metadata

  datatype Promotion = PROMOTE | HOLD_FOR_CEREMONY | REJECT

  /** SHA-256 in lower-case hexadecimal. */
  type Hash = Octets -> string

  datatype Admitted = Admitted(sha256: string, length: nat)

  /** Sigstore's answer, for the sources that are signed that way. */
  type Sigstore = (Octets, string) -> Result<Provenance.Facts, Provenance.Failure>

  /** Exactly one route applies to a policy; it is chosen by the policy, never by the envelope. */
  datatype Route = FixedKey | CertificateIdentity(verify: Sigstore)

  datatype AppPolicy = AppPolicy(critical: bool, route: Route, provenance: Provenance.Policy, limits: Gates.Limits,
                                 gates: Octets -> Gates.ContentGates)

  datatype World = World(hash: Hash, proving: Provenance.World, unpack: Octets -> Gates.Archive)

  datatype Outcome = Outcome(decision: Promotion, admitted: Option<Admitted>, provenance: Option<Provenance.Facts>,
                             archive: Option<Gates.Report>, skippedGates: seq<string>)

  /** An exception none of `ingest`'s handlers names leaves the artifact in quarantine undecided. */
  datatype Verdict = Decided(outcome: Outcome) | Escaped

  predicate Offline(policy: AppPolicy) {
    Metadata.AppRolePolicy(policy.critical).keystore == Metadata.OFFLINE
  }

  function Verify(w: World, envelope: Octets, sha256: string,
                  policy: AppPolicy): Result<Provenance.Facts, Provenance.Failure> {
    match policy.route
    case CertificateIdentity(verify) => verify(envelope, sha256)
    case FixedKey => Provenance.VerifyProvenance(w.proving, envelope, sha256, policy.provenance)
  }

  function Rejected(admitted: Option<Admitted>, facts: Option<Provenance.Facts>): Outcome {
    Outcome(REJECT, admitted, facts, None, [])
  }

  /** The decision on an admitted artifact. */
  ghost function Decide(w: World, policy: AppPolicy, artifact: Octets, envelope: Option<Octets>,
                        sbom: Option<Octets>): Verdict {
    var admitted := Some(Admitted(w.hash(artifact), |artifact|));
    if envelope.None? || envelope.value == [] then Decided(Rejected(admitted, None))
    else
      match Verify(w, envelope.value, w.hash(artifact), policy)
      case Err(Raised) => Escaped
      case Err(Refused) => Decided(Rejected(admitted, None))
      case Ok(facts) => Gated(w, policy, artifact, sbom, admitted, facts)
  }

  /** The decision once provenance holds: gates, then custody. */
  ghost function Gated(w: World, policy: AppPolicy, artifact: Octets, sbom: Option<Octets>,
                       admitted: Option<Admitted>, facts: Provenance.Facts): Verdict {
    match Gates.Inspected(w.unpack(artifact), |artifact|, policy.limits)
    case Err(Raised) => Escaped
    case Err(Refused) => Decided(Rejected(admitted, Some(facts)))
    case Ok(archive) =>
      match Gates.ContentChecked(policy.gates(artifact), sbom)
      case Err(Raised) => Escaped
      case Err(Refused) => Decided(Rejected(admitted, Some(facts)))
      case Ok(skipped) =>
        Decided(Outcome(if Offline(policy) then HOLD_FOR_CEREMONY else PROMOTE, admitted, Some(facts), archive,
                        skipped))
  }

  /** `ingest`: an artifact over the cap is not admitted at all. */
  ghost function Ingested(w: World, policy: AppPolicy, maxBytes: nat, artifact: Octets, envelope: Option<Octets>,
                          sbom: Option<Octets>): Verdict {
    if |artifact| > maxBytes then Decided(Rejected(None, None)) else Decide(w, policy, artifact, envelope, sbom)
  }

  // ---------------------------------------------------------- what it comes to

  /** Everything a promotion rests on but custody. */
  ghost predicate Clears(w: World, policy: AppPolicy, maxBytes: nat, artifact: Octets, envelope: Option<Octets>,
                         sbom: Option<Octets>) {
    && |artifact| <= maxBytes
    && envelope.Some? && envelope.value != []
    && Provenance.Proven(w.proving, envelope.value, w.hash(artifact), policy.provenance)
    && (w.unpack(artifact).NotArchive?
        || (w.unpack(artifact).Listing? && Gates.WithinLimits(w.unpack(artifact).members, |artifact|, policy.limits)))
    && Gates.GatesClear(policy.gates(artifact), sbom)
  }

  predicate DecidedAs(v: Verdict, decision: Promotion) {
    v.Decided? && v.outcome.decision == decision
  }

  /**
   On the fixed-key route an artifact is promoted exactly when it clears every check and its key is
   online; it is held exactly when the key is offline instead; and the record names the very bytes
   and the gates that did not run. A rejection's record still names the bytes that were kept, and the
   provenance exactly if it held.
   */
  lemma PromotesExactly(w: World, policy: AppPolicy, maxBytes: nat, artifact: Octets, envelope: Option<Octets>,
                        sbom: Option<Octets>)
    requires policy.route.FixedKey?
    ensures DecidedAs(Ingested(w, policy, maxBytes, artifact, envelope, sbom), PROMOTE)
       <==> Clears(w, policy, maxBytes, artifact, envelope, sbom) && !policy.critical
    ensures DecidedAs(Ingested(w, policy, maxBytes, artifact, envelope, sbom), HOLD_FOR_CEREMONY)
       <==> Clears(w, policy, maxBytes, artifact, envelope, sbom) && policy.critical
    ensures var v := Ingested(w, policy, maxBytes, artifact, envelope, sbom);
            v.Decided? && v.outcome.decision != REJECT ==>
              && v.outcome.admitted == Some(Admitted(w.hash(artifact), |artifact|))
              && v.outcome.provenance.Some? && v.outcome.provenance.value.subjectSha256 == Lower(w.hash(artifact))
              && v.outcome.skippedGates == Gates.Skipped(policy.gates(artifact))
              && Gates.Inspected(w.unpack(artifact), |artifact|, policy.limits) == Ok(v.outcome.archive)
    ensures var v := Ingested(w, policy, maxBytes, artifact, envelope, sbom);
            v.Decided? && v.outcome.decision == REJECT ==>
              && (v.outcome.admitted.Some? <==> |artifact| <= maxBytes)
              && (|artifact| <= maxBytes ==> v.outcome.admitted == Some(Admitted(w.hash(artifact), |artifact|)))
              && v.outcome.archive == None && v.outcome.skippedGates == []
              && (v.outcome.provenance.Some? <==>
                    && |artifact| <= maxBytes && envelope.Some? && envelope.value != []
                    && Provenance.Proven(w.proving, envelope.value, w.hash(artifact), policy.provenance))
  {
    hide Provenance.VerifyProvenance, Provenance.Proven, Gates.WithinLimits, Gates.GatesClear, Gates.Skipped,
         Gates.FirstFailure, Gates.StopsAt;
    Gates.ContentCheckedMeans(policy.gates(artifact), sbom, Gates.Refused);
    if envelope.Some? {
      Provenance.VerifyProvenanceMeans(w.proving, envelope.value, w.hash(artifact), policy.provenance);
    }
  }

  /** The archive is none, or within the limits. */
  ghost predicate ArchivePasses(w: World, policy: AppPolicy, artifact: Octets) {
    || w.unpack(artifact).NotArchive?
    || (w.unpack(artifact).Listing? && Gates.WithinLimits(w.unpack(artifact).members, |artifact|, policy.limits))
  }

  /**
   On that route an exception escapes, and leaves the artifact undecided, exactly when provenance raises one; or
   provenance holds and the archive cannot be read; or both pass and the first gate that is not clear raises one.
   */
  lemma EscapesExactly(w: World, policy: AppPolicy, maxBytes: nat, artifact: Octets, envelope: Option<Octets>,
                       sbom: Option<Octets>)
    requires policy.route.FixedKey?
    ensures Ingested(w, policy, maxBytes, artifact, envelope, sbom).Escaped? <==>
              && |artifact| <= maxBytes && envelope.Some? && envelope.value != []
              && (|| Provenance.RaisesElsewhere(w.proving, envelope.value, policy.provenance)
                  || (&& Provenance.Proven(w.proving, envelope.value, w.hash(artifact), policy.provenance)
                      && (|| w.unpack(artifact).Unreadable?
                          || (&& ArchivePasses(w, policy, artifact)
                              && exists i: nat :: Gates.StopsAt(policy.gates(artifact), sbom, i, Gates.Raised)))))
  {
    hide Provenance.VerifyProvenance, Provenance.Proven, Provenance.RaisesElsewhere, Gates.WithinLimits, Gates.Skipped,
         Gates.FirstFailure, Gates.StopsAt, Gates.GatesClear;
    Gates.ContentCheckedMeans(policy.gates(artifact), sbom, Gates.Raised);
    if envelope.Some? {
      Provenance.VerifyProvenanceMeans(w.proving, envelope.value, w.hash(artifact), policy.provenance);
      Provenance.RaisesExactly(w.proving, envelope.value, w.hash(artifact), policy.provenance);
    }
  }

  // --------------------------------------------------------------- quarantine

  datatype QuarantineError = TooLarge | Missing | Modified

  /** Files by the digest in their name; a file swapped behind its name is representable. */
  class Quarantine {
    const maxBytes: nat
    const hash: Hash
    var files: map<string, Octets>
    /** The `.part` file of the transfer in hand. */
    var part: Option<Octets>

    constructor (maxBytes: nat, hash: Hash)
      ensures this.maxBytes == maxBytes && this.hash == hash && files == map[] && part == None
    {
      this.maxBytes, this.hash := maxBytes, hash;
      files, part := map[], None;
    }

    /** `admit`: streamed and capped; what is kept is named by its own digest. */
    method Admit(chunks: seq<Octets>) returns (r: Result<Admitted, QuarantineError>)
      modifies this
      ensures part == None
      ensures var artifact := Concat(chunks);
              if |artifact| <= maxBytes
              then r == Ok(Admitted(hash(artifact), |artifact|)) && files == old(files)[hash(artifact) := artifact]
              else r == Err(TooLarge) && files == old(files)
    {
      var length, i := 0, 0;
      var written: Octets := [];
      part := Some([]);
      while i < |chunks|
        invariant 0 <= i <= |chunks| && files == old(files)
        invariant written == Concat(chunks[..i]) && length == |written| <= maxBytes && part == Some(written)
      {
        assert chunks[..i + 1][..i] == chunks[..i];
        length := length + |chunks[i]|;
        if length > maxBytes {
          ConcatGrows(chunks, i + 1);
          part := None;
          return Err(TooLarge);
        }
        written := written + chunks[i];
        part := Some(written);
        i := i + 1;
      }
      assert chunks[..i] == chunks;
      var sha256 := hash(written);
      files, part := files[sha256 := written], None;
      r := Ok(Admitted(sha256, length));
    }

    /** `promote`: what leaves is re-hashed first. */
    method Promote(sha256: string) returns (r: Result<Octets, QuarantineError>)
      ensures r.Ok? <==> sha256 in files && hash(files[sha256]) == sha256
      ensures r.Ok? ==> r.value == files[sha256]
      ensures r.Err? ==> r.error == if sha256 in files then Modified else Missing
    {
      if sha256 !in files { return Err(Missing); }
      if hash(files[sha256]) != sha256 { return Err(Modified); }
      r := Ok(files[sha256]);
    }

    /** `ingest`: store and hash first, then decide about the bytes that are held. */
    method Ingest(w: World, policy: AppPolicy, chunks: seq<Octets>, envelope: Option<Octets>,
                  sbom: Option<Octets>) returns (v: Verdict)
      requires w.hash == hash
      modifies this
      ensures v == Ingested(w, policy, maxBytes, Concat(chunks), envelope, sbom)
      ensures files == if |Concat(chunks)| <= maxBytes then old(files)[hash(Concat(chunks)) := Concat(chunks)]
                       else old(files)
    {
      hide Provenance.VerifyProvenance, Gates.WithinLimits, Gates.GatesClear, Gates.Skipped;
      var admitted := Admit(chunks);
      if admitted.Err? { return Decided(Rejected(None, None)); }
      var artifact := files[admitted.value.sha256];
      if envelope.None? || envelope.value == [] { return Decided(Rejected(Some(admitted.value), None)); }
      var facts := Verify(w, envelope.value, admitted.value.sha256, policy);
      if facts.Err? {
        return if facts.error.Raised? then Escaped else Decided(Rejected(Some(admitted.value), None));
      }
      var archive := Gates.InspectArchive(w.unpack(artifact), |artifact|, policy.limits);
      if archive.Err? {
        return if archive.error.Raised? then Escaped else Decided(Rejected(Some(admitted.value), Some(facts.value)));
      }
      var skipped := Gates.RunContentGates(policy.gates(artifact), sbom);
      if skipped.Err? {
        return if skipped.error.Raised? then Escaped else Decided(Rejected(Some(admitted.value), Some(facts.value)));
      }
      var decision := if Offline(policy) then HOLD_FOR_CEREMONY else PROMOTE;
      v := Decided(Outcome(decision, Some(admitted.value), Some(facts.value), archive.value, skipped.value));
    }

    /**
     `policy.promote`: nothing the policy did not clear leaves, and what leaves has the digest it was cleared under.
     */
    method Release(outcome: Outcome) returns (r: Option<Octets>)
      ensures r.Some? ==>
                && outcome.decision == PROMOTE
                && outcome.admitted.Some?
                && hash(r.value) == outcome.admitted.value.sha256
      ensures r.Some? <==> && outcome.decision == PROMOTE && outcome.admitted.Some?
                           && outcome.admitted.value.sha256 in files
                           && hash(files[outcome.admitted.value.sha256]) == outcome.admitted.value.sha256
    {
      if outcome.decision != PROMOTE || outcome.admitted.None? { return None; }
      var promoted := Promote(outcome.admitted.value.sha256);
      r := if promoted.Ok? then Some(promoted.value) else None;
    }
  }
}

/**
 What a client is told by two checks in a row, the second served an older view of an honest repository.
 Nothing is tampered with: a mirror that lags is enough.
 */
module SuccessiveChecks {
  import opened Text
  import opened Naming
  import opened Metadata
  import opened Publisher
  import opened PublisherSafety
  import opened Keyrings
  import opened Publication
  import opened Verifier
  import opened UpdateCheck
  import opened Releases
  import opened Offers
  import opened TwoWriters
  import Signer

  /** A publish that names a further snapshot carries a further timestamp. */
  lemma TimestampRises(s: State, t: State)
    requires Advances(s, t) && Advertised(s) && Advertised(t)
    requires Version(t.memory, SNAPSHOT) == Version(s.memory, SNAPSHOT) + 1
    ensures Version(t.memory, TIMESTAMP) == Version(s.memory, TIMESTAMP) + 1
  {
  }

  lemma StampOnDisk(s: State)
    requires Inv(s) && Advertised(s)
    ensures TimestampJson in s.disk.files && s.disk.files[TimestampJson].version == Version(s.memory, TIMESTAMP)
  {
    hide DiskOk, RolesKnown;
  }

  lemma PointingRestamps(b: Backend, ring: Backend, s: State, key: TargetKey)
    requires Ready(ring, s) && Advertised(s) && CanPoint(s, key) && Holds(b, ring, OpSetCurrent(key))
    ensures var t := Pointed(b, s, key);
            && Ready(ring, t) && Advertised(t) && TimestampJson in s.disk.files && TimestampJson in t.disk.files
            && s.disk.files[TimestampJson].version < t.disk.files[TimestampJson].version
  {
    hide Ready, Inv, Advertised, SetCurrent, PutTarget, Holds, Advances, Lists, CanPoint;
    PerformSame(b, ring, s, OpSetCurrent(key));
    PerformRises(ring, s, OpSetCurrent(key));
    PointingMoves(ring, s, key);
    var t := Pointed(ring, s, key);
    TimestampRises(s, t);
    ReadyStamp(ring, s);
    ReadyStamp(ring, t);
  }

  lemma ReadyStamp(ring: Backend, s: State)
    requires Ready(ring, s) && Advertised(s)
    ensures TimestampJson in s.disk.files && s.disk.files[TimestampJson].version == Version(s.memory, TIMESTAMP)
  {
    hide Inv, Signed, Capable, Advertised;
    StampOnDisk(s);
  }

  lemma PointingMoves(ring: Backend, s: State, key: TargetKey)
    requires Ready(ring, s) && CanPoint(s, key)
    ensures Advances(s, Pointed(ring, s, key))
  {
    AppRoleIsNotTop(key.appId);
    HoldsItself(ring, OpSetCurrent(key));
    hide Ready, Advertised, PutTarget, Holds, Advances, Lists, Path, PointerPath, Targets;
    SetCurrentEnds(ring, ring, s, key);
    PutTargetMoves(ring, s, AppRoleName(key.appId), PointerPath(ChannelOf(key)), PointerJson(Path(key), key.version),
                   PointerInfo(key.version));
  }

  /** A client of the keyring refreshes over any published disk. */
  lemma PublishedRefreshes(ring: Backend, s: State, c: Client)
    requires Ready(ring, s) && Advertised(s) && Trusts(c, ring)
    ensures Refresh(c.root, Still(s.disk)).Ok?
  {
    var v := Served(Open(s, TIMESTAMP), Open(s, SNAPSHOT), Open(s, TARGETS), Open(s, TARGETS));
    Signer.TopServes(ring, s, v);
    hide Inv, Signed, Capable, Refresh, Advertised;
    RefreshServed(ring, c.root, s.disk, TARGETS, v);
  }

  /**
   A channel moves from one release to another. A client that has been offered the second and is then served
   the disk from before the move is offered the first again; had it kept its trust it would have refused
   that disk for its timestamp.
   */
  lemma LaggingMirrorFallsBack(b: Backend, ring: Backend, s: State, first: TargetKey, second: TargetKey, c: Client)
    requires Ready(ring, s) && CanPoint(s, first) && CanPoint(s, second) && Holds(b, ring, OpSetCurrent(first))
    requires ChannelOf(first) == ChannelOf(second) == c.channel && Trusts(c, ring)
    ensures var s1 := Pointed(b, s, first);
            var d, e := s1.disk, Pointed(b, s1, second).disk;
            var leads := FirstRole(s) == AppRoleName(first.appId);
            && Describes(ListedEntry(s, first), first.version) && Describes(ListedEntry(s, second), second.version)
            && CheckAt(c, e) == Answered(c, second, ListedEntry(s, second), leads)
            && CheckAt(c, d) == Answered(c, first, ListedEntry(s, first), leads)
            && Refresh(c.root, Still(e)).Ok?
            && RefreshOn(Refresh(c.root, Still(e)).value, Still(d)) == Err(Refused(Rejected(TIMESTAMP)))
  {
    hide Ready, Advertised, SetCurrent, Check, Answered, Refresh, RefreshOn, Holds, Trusts, FirstRole, Lists;
    assert Holds(b, ring, OpSetCurrent(second)) by { SameApplication(b, ring, first, second); }
    SetCurrentAnswers(b, ring, s, first, c);
    SwitchesBack(b, ring, s, first, second, c);
    SetCurrentEnds(b, ring, s, first);
    var s1 := Pointed(b, s, first);
    PointingRestamps(b, ring, s1, second);
    var t := Pointed(b, s1, second);
    PublishedRefreshes(ring, s1, c);
    PublishedRefreshes(ring, t, c);
    TrustsFetchedTimestamp(c.root, Still(s1.disk));
    TrustsFetchedTimestamp(c.root, Still(t.disk));
    SecondCheckFallsBackIff(c.root, Still(t.disk), Still(s1.disk));
  }

  lemma SameApplication(b: Backend, ring: Backend, first: TargetKey, second: TargetKey)
    requires first.appId == second.appId && Holds(b, ring, OpSetCurrent(first))
    ensures Holds(b, ring, OpSetCurrent(second))
  {
  }
}

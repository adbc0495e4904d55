/**
 The cheap change detector's bookkeeping: with one ingest worker, whatever the feed answers, the skip
 count on record is exact, bounded, and tied to the poll it stands on.
 */
module Skips {
  import opened Text
  import opened Metadata
  import opened Registry
  import opened RegistrySafety
  import opened Pipeline
  import opened PipelineSafety
  import Policy
  import Signer
  import Vouching

  /** The finished polls of one source. */
  type History = map<nat, Job>

  function Polls(db: Db, source: nat): History {
    map j | j in db.jobs && DonePoll(db, source, j) :: db.jobs[j]
  }

  predicate IsSkip(j: Job) {
    j.result.Some? && j.result.value.skips.Some?
  }

  function SkipsOf(j: Job): nat {
    if IsSkip(j) then j.result.value.skips.value else 0
  }

  function TagOf(j: Job): string {
    if j.result.Some? then j.result.value.tag else []
  }

  /** A poll that really ran finished after `lo` and no later than `hi`. */
  ghost predicate RealBetween(h: History, lo: nat, hi: nat) {
    exists r | r in h :: !IsSkip(h[r]) && lo < h[r].finishedAt <= hi
  }

  /** The skip records up to `j` since the last poll that really ran. */
  ghost function Since(h: History, j: nat): set<nat>
    requires j in h
  {
    set i | i in h && IsSkip(h[i]) && h[i].finishedAt <= h[j].finishedAt
            && !RealBetween(h, h[i].finishedAt, h[j].finishedAt)
  }

  /** `r` is the last poll that really ran before `j`, and `j` carries its tag. */
  ghost predicate Anchors(h: History, r: nat, j: nat)
    requires j in h
  {
    && r in h && !IsSkip(h[r]) && h[r].finishedAt < h[j].finishedAt
    && !RealBetween(h, h[r].finishedAt, h[j].finishedAt) && TagOf(h[r]) == TagOf(h[j])
  }

  ghost predicate Anchored(h: History, j: nat)
    requires j in h
  {
    exists r :: Anchors(h, r, j)
  }

  ghost predicate EntryOk(h: History, j: nat)
    requires j in h
  {
    && |Since(h, j)| == SkipsOf(h[j]) <= MAX_CONSECUTIVE_SKIPS
    && (IsSkip(h[j]) ==> TagOf(h[j]) != [] && Anchored(h, j))
  }

  ghost predicate HistoryOk(h: History) {
    && (forall i, j | i in h && j in h && h[i].finishedAt == h[j].finishedAt :: i == j)
    && forall j | j in h :: EntryOk(h, j)
  }

  ghost predicate LastOf(h: History, j: nat) {
    j in h && forall i | i in h :: h[i].finishedAt <= h[j].finishedAt
  }

  // ------------------------------------------------------------ growing a history

  ghost predicate Later(h: History, job: Job) {
    forall i | i in h :: h[i].finishedAt < job.finishedAt
  }

  lemma EarlierUntouched(h: History, g: History, j: nat)
    requires j in h && j in g && EntryOk(h, j)
    requires forall i | i in h && h[i].finishedAt <= h[j].finishedAt :: i in g && g[i] == h[i]
    requires forall i | i in g && g[i].finishedAt <= h[j].finishedAt :: i in h && g[i] == h[i]
    ensures EntryOk(g, j)
  {
    assert g[j] == h[j];
    forall lo: nat ensures RealBetween(g, lo, g[j].finishedAt) == RealBetween(h, lo, h[j].finishedAt) {
      if RealBetween(g, lo, g[j].finishedAt) {
        var r :| r in g && !IsSkip(g[r]) && lo < g[r].finishedAt <= g[j].finishedAt;
        assert r in h;
      }
      if RealBetween(h, lo, h[j].finishedAt) {
        var r :| r in h && !IsSkip(h[r]) && lo < h[r].finishedAt <= h[j].finishedAt;
        assert r in g;
      }
    }
    assert Since(g, j) == Since(h, j);
    if IsSkip(h[j]) {
      var r :| Anchors(h, r, j);
      assert Anchors(g, r, j);
    }
  }

  lemma AppendKeepsEarlier(h: History, j: nat, job: Job)
    requires HistoryOk(h) && j !in h && Later(h, job)
    ensures forall i | i in h :: EntryOk(h[j := job], i)
  {
    hide EntryOk;
    forall i | i in h ensures EntryOk(h[j := job], i) {
      EarlierUntouched(h, h[j := job], i);
    }
  }

  /** A poll that really ran starts the count again. */
  lemma AppendReal(h: History, j: nat, job: Job)
    requires HistoryOk(h) && j !in h && Later(h, job) && !IsSkip(job)
    ensures HistoryOk(h[j := job]) && LastOf(h[j := job], j)
  {
    hide EntryOk;
    var g := h[j := job];
    AppendKeepsEarlier(h, j, job);
    NewRealOk(h, j, job);
    hide RealBetween;
  }

  lemma NewRealOk(h: History, j: nat, job: Job)
    requires j !in h && Later(h, job) && !IsSkip(job)
    ensures EntryOk(h[j := job], j)
  {
    var g := h[j := job];
    forall i | i in g && IsSkip(g[i]) ensures RealBetween(g, g[i].finishedAt, g[j].finishedAt) {
      assert i in h && j in g && !IsSkip(g[j]);
    }
    assert Since(g, j) == {};
  }

  /** What the next skip record must say, given the history. */
  ghost predicate Follows(h: History, tag: string, skips: nat) {
    exists last ::
      && LastOf(h, last)
      && TagOf(h[last]) == tag
      && tag != []
      && skips == SkipsOf(h[last]) + 1
      && skips <= MAX_CONSECUTIVE_SKIPS
  }

  lemma SinceExtends(h: History, j: nat, job: Job, last: nat)
    requires LastOf(h, last) && j !in h && Later(h, job) && IsSkip(job)
    ensures Since(h[j := job], j) == Since(h, last) + {j}
    ensures forall lo: nat :: RealBetween(h[j := job], lo, job.finishedAt) == RealBetween(h, lo, h[last].finishedAt)
  {
    var g := h[j := job];
    forall lo: nat ensures RealBetween(g, lo, job.finishedAt) == RealBetween(h, lo, h[last].finishedAt) {
      if RealBetween(g, lo, job.finishedAt) {
        var r :| r in g && !IsSkip(g[r]) && lo < g[r].finishedAt <= job.finishedAt;
        assert r in h && h[r] == g[r];
      }
      if RealBetween(h, lo, h[last].finishedAt) {
        var r :| r in h && !IsSkip(h[r]) && lo < h[r].finishedAt <= h[last].finishedAt;
        assert r in g && g[r] == h[r];
      }
    }
    assert !RealBetween(g, job.finishedAt, job.finishedAt);
  }

  lemma NewSkipAnchored(h: History, j: nat, job: Job, last: nat)
    requires LastOf(h, last) && EntryOk(h, last) && j !in h && Later(h, job) && IsSkip(job)
    requires TagOf(h[last]) == TagOf(job)
    ensures Anchored(h[j := job], j)
  {
    hide RealBetween, Since, SkipsOf, TagOf, IsSkip;
    var g := h[j := job];
    SinceExtends(h, j, job, last);
    assert h[last].finishedAt < job.finishedAt;
    if IsSkip(h[last]) {
      var r :| Anchors(h, r, last);
      assert Anchors(g, r, j);
    } else {
      NothingBetween(h, h[last].finishedAt);
      assert Anchors(g, last, j);
    }
  }

  lemma NothingBetween(h: History, t: nat)
    ensures !RealBetween(h, t, t)
  {
  }

  lemma NotYetCounted(h: History, j: nat, last: nat)
    requires last in h && j !in h
    ensures j !in Since(h, last)
  {
  }

  lemma NewSkipOk(h: History, j: nat, job: Job, last: nat)
    requires LastOf(h, last) && EntryOk(h, last) && j !in h && Later(h, job) && IsSkip(job)
    requires TagOf(h[last]) == TagOf(job) != [] && SkipsOf(job) == SkipsOf(h[last]) + 1 <= MAX_CONSECUTIVE_SKIPS
    ensures EntryOk(h[j := job], j)
  {
    SinceExtends(h, j, job, last);
    NewSkipAnchored(h, j, job, last);
    NotYetCounted(h, j, last);
    hide RealBetween, Since, Anchored, LastOf, Later;
  }

  lemma FollowsLast(h: History, tag: string, skips: nat) returns (last: nat)
    requires Follows(h, tag, skips)
    ensures LastOf(h, last) && TagOf(h[last]) == tag != [] && skips == SkipsOf(h[last]) + 1 <= MAX_CONSECUTIVE_SKIPS
  {
    last :| LastOf(h, last) && TagOf(h[last]) == tag && tag != []
            && skips == SkipsOf(h[last]) + 1 && skips <= MAX_CONSECUTIVE_SKIPS;
  }

  lemma AppendDistinct(h: History, j: nat, job: Job, g: History)
    requires HistoryOk(h) && j !in h && Later(h, job) && g == h[j := job]
    requires forall i | i in g :: EntryOk(g, i)
    ensures HistoryOk(g)
  {
    hide EntryOk;
  }

  /** A skip record counts one more and carries the tag on. */
  lemma AppendSkip(h: History, j: nat, job: Job)
    requires HistoryOk(h) && j !in h && Later(h, job) && IsSkip(job) && Follows(h, TagOf(job), SkipsOf(job))
    ensures HistoryOk(h[j := job])
  {
    hide EntryOk, Follows, Later, IsSkip, SkipsOf, TagOf;
    var last := FollowsLast(h, TagOf(job), SkipsOf(job));
    AppendKeepsEarlier(h, j, job);
    assert EntryOk(h, last);
    NewSkipOk(h, j, job, last);
    hide HistoryOk, LastOf;
    AppendDistinct(h, j, job, h[j := job]);
  }

  /** Taking the latest poll back, as a failed hand-off does, leaves the rest exact. */
  lemma DropLast(h: History, j: nat)
    requires HistoryOk(h) && LastOf(h, j)
    ensures HistoryOk(h - {j})
  {
    hide EntryOk;
    forall i | i in h - {j} ensures EntryOk(h - {j}, i) {
      EarlierUntouched(h, h - {j}, i);
    }
  }

  // ------------------------------------------------------------------- workers

  /** With one ingest worker, polls are finished by it alone. */
  ghost predicate OneIngest(s: System) {
    forall v, w | v in s.workers && w in s.workers && s.workers[v].team == INGEST && s.workers[w].team == INGEST ::
      v == w
  }

  /** The job in hand is still open, unless it was just finished; and what is remembered of the history still holds. */
  ghost predicate PollPcOk(db: Db, pc: Pc) {
    && (pc.Took? || pc.Loaded? || pc.Identifying? || pc.Finishing? ==>
          pc.job.kind == POLL && pc.id in db.jobs ==> Open(db.jobs[pc.id]))
    && (pc.Finishing? ==> pc.record.skips.None?)
    && (pc.HandingOff? ==> pc.job.kind == POLL && pc.id in db.jobs ==> LastOf(Polls(db, pc.job.source), pc.id))
    && (pc.Failing? ==> pc.job.kind == POLL && pc.id in db.jobs ==>
          Open(db.jobs[pc.id]) || LastOf(Polls(db, pc.job.source), pc.id))
    && (pc.Skipping? ==>
          pc.source < db.now && (pc.source in db.sources ==> Follows(Polls(db, pc.source), pc.tag, pc.skips)))
    && (pc.SkipQueued? ==> pc.id < db.now && pc.source < db.now && (pc.id in db.jobs ==> SkipReady(db, pc)))
  }

  ghost predicate SkipReady(db: Db, pc: Pc)
    requires pc.SkipQueued? && pc.id in db.jobs
  {
    Open(db.jobs[pc.id]) && db.jobs[pc.id].kind == POLL && db.jobs[pc.id].source == pc.source
    && Follows(Polls(db, pc.source), pc.tag, pc.skips)
  }

  ghost predicate SkipsOk(s: System) {
    && OneIngest(s)
    && (forall source: nat :: HistoryOk(Polls(s.db, source)))
    && (forall w | w in s.workers && s.workers[w].team == INGEST :: PollPcOk(s.db, s.workers[w].pc))
    && (forall w | w in s.workers && s.workers[w].team == SIGNING ::
          !s.workers[w].pc.Skipping? && !s.workers[w].pc.SkipQueued?)
  }

  // ------------------------------------------------- what writes do to a history

  /** Every write but these leaves each source's finished polls alone. */
  predicate Quiet(db: Db, w: Option<Write>) {
    w.None? || (match w.value
                case Finish(j, _, _) => !(j in db.jobs && db.jobs[j].kind == POLL)
                case Delete(_) => false
                case _ => true)
  }

  /** No row goes; a new one is queued; a poll's row is as it was, or open before and after. */
  ghost predicate QuietRows(db: Db, t: Db) {
    && db.now <= t.now && db.jobs.Keys <= t.jobs.Keys
    && (forall id | id in t.sources && id < db.now :: id in db.sources)
    && (forall j | j in t.jobs && j !in db.jobs :: j == db.now && t.jobs[j].state == QUEUED)
    && (forall j | j in db.jobs :: SameJob(t.jobs[j], db.jobs[j]))
    && (forall j | j in db.jobs && db.jobs[j].kind == POLL ::
          t.jobs[j] == db.jobs[j] || (Open(t.jobs[j]) && Open(db.jobs[j])))
  }

  lemma SourceWriteIsQuiet(db: Db, w: Write)
    requires w.Add? || w.Move? || w.Identify? || w.Edited? || w.Delegated?
    ensures QuietRows(db, Apply(db, w))
  {
    hide RowAllowed, Registered, Waiting;
  }

  /** One row replaced: quiet unless it is a poll's and not open on both sides. */
  lemma RowIsQuiet(db: Db, j: nat, row: Job)
    requires j in db.jobs && SameJob(row, db.jobs[j])
    requires db.jobs[j].kind == POLL ==> Open(row) && Open(db.jobs[j])
    ensures QuietRows(db, Ticked(db).(jobs := db.jobs[j := row]))
  {
    hide Open;
  }

  lemma QueueIsQuiet(db: Db, source: nat, kind: Kind, payload: PublishJob)
    requires db.now !in db.jobs && Enqueue(db, source, kind, payload).Ok?
    ensures QuietRows(db, Enqueue(db, source, kind, payload).value)
  {
    hide Open, HasOpen;
  }

  lemma ResetIsQuiet(db: Db, before: nat)
    ensures QuietRows(db, ResetStale(db, before))
  {
  }

  lemma SameIsQuiet(db: Db)
    ensures QuietRows(db, db) && QuietRows(db, Ticked(db))
  {
    hide Open;
  }

  lemma JobWriteIsQuiet(db: Db, w: Write)
    requires RegistryOk(db) && (w.Queue? || w.Take? || w.Finish? || w.Reset?) && Quiet(db, Some(w))
    ensures QuietRows(db, Apply(db, w))
  {
    assert db.now !in db.jobs;
    hide RegistryOk, QuietRows;
    SameIsQuiet(db);
    match w {
      case Queue(s, kind, payload) =>
        if Enqueue(db, s, kind, payload).Ok? { QueueIsQuiet(db, s, kind, payload); }
      case Take(kinds, j) =>
        OldestQueued(db, kinds, j);
        if Oldest(db, kinds, j) { RowIsQuiet(db, j, db.jobs[j].(state := RUNNING, startedAt := db.now)); }
      case Finish(j, state, result) =>
        if j in db.jobs { RowIsQuiet(db, j, FinishedRow(db, j, state, result)); }
      case Reset(before) => ResetIsQuiet(db, before);
    }
  }

  lemma OldestQueued(db: Db, kinds: set<Kind>, j: nat)
    ensures Oldest(db, kinds, j) ==> j in db.jobs && db.jobs[j].state == QUEUED
  {
  }

  lemma WrittenIsQuiet(db: Db, w: Option<Write>)
    requires RegistryOk(db) && Quiet(db, w)
    ensures QuietRows(db, Written(db, w))
  {
    if w.Some? {
      hide RegistryOk, Apply, QuietRows;
      if w.value.Queue? || w.value.Take? || w.value.Finish? || w.value.Reset? {
        JobWriteIsQuiet(db, w.value);
      } else {
        SourceWriteIsQuiet(db, w.value);
      }
    }
  }

  lemma PollsAgree(db: Db, t: Db, source: nat)
    requires forall j: nat :: DonePoll(t, source, j) == DonePoll(db, source, j)
    requires forall j: nat | DonePoll(db, source, j) :: j in t.jobs && j in db.jobs && t.jobs[j] == db.jobs[j]
    ensures Polls(t, source) == Polls(db, source)
  {
    hide DonePoll;
    assert forall j | j in t.jobs && DonePoll(t, source, j) :: j in db.jobs && DonePoll(db, source, j);
  }

  lemma QuietDone(db: Db, t: Db, source: nat, j: nat)
    requires QuietRows(db, t)
    ensures DonePoll(t, source, j) == DonePoll(db, source, j)
    ensures DonePoll(db, source, j) ==> j in t.jobs && j in db.jobs && t.jobs[j] == db.jobs[j]
  {
  }

  lemma QuietPolls(db: Db, w: Option<Write>, source: nat)
    requires RegistryOk(db) && Quiet(db, w)
    ensures Polls(Written(db, w), source) == Polls(db, source)
  {
    WrittenIsQuiet(db, w);
    hide RegistryOk, Written, Quiet, QuietRows, DonePoll, Polls;
    forall j: nat ensures DonePoll(Written(db, w), source, j) == DonePoll(db, source, j)
      ensures DonePoll(db, source, j) ==>
                && j in Written(db, w).jobs
                && j in db.jobs
                && Written(db, w).jobs[j] == db.jobs[j]
    {
      QuietDone(db, Written(db, w), source, j);
    }
    PollsAgree(db, Written(db, w), source);
  }

  lemma DeletePolls(db: Db, id: nat, source: nat)
    ensures Polls(DeleteSource(db, id), source) == if source == id then map[] else Polls(db, source)
  {
    var t := DeleteSource(db, id);
    assert forall j | j in t.jobs && DonePoll(t, source, j) ::
        j in db.jobs && DonePoll(db, source, j) && t.jobs[j] == db.jobs[j] && source != id;
    assert source != id ==> forall j | j in db.jobs && DonePoll(db, source, j) :: j in t.jobs && DonePoll(t, source, j);
  }

  lemma DonePollsInOrder(db: Db, j: nat, state: JobState, result: Option<Record>, source: nat)
    requires RegistryOk(db) && j in db.jobs
    ensures Later(Polls(db, source), FinishedRow(db, j, state, result))
    ensures Open(db.jobs[j]) ==> j !in Polls(db, source)
  {
    hide RowAllowed, OneOpenJob, PendingValidated;
  }

  /** A poll filed as done joins its source's history. */
  lemma DonePolls(db: Db, j: nat, result: Option<Record>, source: nat)
    requires j in db.jobs && db.jobs[j].kind == POLL
    ensures Polls(FinishJob(db, j, DONE, result), source) ==
              if source != db.jobs[j].source then Polls(db, source)
              else Polls(db, source)[j := FinishedRow(db, j, DONE, result)]
  {
    var t, row := FinishJob(db, j, DONE, result), FinishedRow(db, j, DONE, result);
    assert t.jobs == db.jobs[j := row];
    var left, before := Polls(t, source), Polls(db, source);
    var right := if source != db.jobs[j].source then before else before[j := row];
    forall i: nat ensures (i in left <==> i in right) && (i in left ==> left[i] == right[i]) {}
  }

  /** A poll filed as failed is in nobody's history. */
  lemma FailedPolls(db: Db, j: nat, source: nat)
    requires j in db.jobs && db.jobs[j].kind == POLL
    ensures Polls(FinishJob(db, j, FAILED, None), source) == Polls(db, source) - {j}
  {
    var t, row := FinishJob(db, j, FAILED, None), FinishedRow(db, j, FAILED, None);
    assert t.jobs == db.jobs[j := row];
    var left, right := Polls(t, source), Polls(db, source) - {j};
    forall i: nat ensures (i in left <==> i in right) && (i in left ==> left[i] == right[i]) {}
  }

  // -------------------------------------------------------------- other people's steps

  lemma EmptyHistory()
    ensures HistoryOk(map[])
  {
  }

  /** A write that closes no poll keeps everything the ingest worker remembers of one. */
  lemma QuietKeeps(db: Db, w: Option<Write>, pc: Pc)
    requires RegistryOk(db) && Quiet(db, w) && PollPcOk(db, pc)
    requires Started(pc) ==> JobMatches(db, pc.id, pc.job)
    ensures PollPcOk(Written(db, w), pc)
  {
    hide LastOf, Follows, Polls, RegistryOk, Written, Quiet, DonePoll;
    WrittenIsQuiet(db, w);
    forall source: nat ensures Polls(Written(db, w), source) == Polls(db, source) { QuietPolls(db, w, source); }
  }

  /** Deleting a source takes its whole history, and only that. */
  lemma DeleteKeepsPc(db: Db, id: nat, pc: Pc)
    requires RegistryOk(db) && PollPcOk(db, pc)
    requires Started(pc) ==> JobMatches(db, pc.id, pc.job)
    ensures PollPcOk(DeleteSource(db, id), pc)
  {
    hide LastOf, Follows, Polls, RegistryOk, Open, DeleteSource;
    var t := DeleteSource(db, id);
    DeleteRows(db, id);
    forall source: nat ensures Polls(t, source) == if source == id then map[] else Polls(db, source) {
      DeletePolls(db, id, source);
    }
  }

  lemma DeleteRows(db: Db, id: nat)
    ensures var t := DeleteSource(db, id);
            && t.sources == db.sources - {id} && t.now == db.now + 1
            && forall j | j in t.jobs :: j in db.jobs && t.jobs[j] == db.jobs[j] && db.jobs[j].source != id
  {
  }

  /** Steps that close no poll: everyone's but the ingest worker's own endings. */
  lemma WriteKeepsSkips(db: Db, w: Option<Write>, pc: Pc)
    requires RegistryOk(db) && PollPcOk(db, pc) && (Started(pc) ==> JobMatches(db, pc.id, pc.job))
    requires forall source: nat :: HistoryOk(Polls(db, source))
    requires Quiet(db, w) || (w.Some? && w.value.Delete?)
    ensures PollPcOk(Written(db, w), pc) && forall source: nat :: HistoryOk(Polls(Written(db, w), source))
  {
    hide HistoryOk, PollPcOk, Polls, RegistryOk, JobMatches;
    if Quiet(db, w) {
      QuietKeeps(db, w, pc);
      forall source: nat ensures HistoryOk(Polls(Written(db, w), source)) { QuietPolls(db, w, source); }
    } else {
      DeleteKeepsPc(db, w.value.id, pc);
      EmptyHistory();
      forall source: nat ensures HistoryOk(Polls(Written(db, w), source)) { DeletePolls(db, w.value.id, source); }
    }
  }

  // ------------------------------------------------------ the ingest worker's steps

  /** Actions after which the worker remembers no more than before. */
  predicate Plain(x: Action) {
    !x.TakeBy? && !x.ConsiderBy? && !x.QueueBy? && !x.FinishBy? && !x.FailBy? && !x.SkipFinishBy?
  }

  lemma PlainNext(env: Env, s: System, t: Db, team: Team, pc: Pc, x: Action)
    requires PollPcOk(t, pc) && Enabled(s.db, team, pc, x) && Plain(x) && Actor(x).Some?
    ensures PollPcOk(t, Next(env, s, team, pc, x))
  {
    hide LastOf, Follows, Polls, Open, Policy.Ingested, Signer.PublishRun, Oldest, LastPoll;
  }

  lemma TakeNext(db: Db, team: Team, id: nat)
    requires Oldest(db, Claims(team), id)
    ensures PollPcOk(Apply(db, Take(Claims(team), id)), Took(id, db.jobs[id]))
  {
  }

  lemma ConsiderNext(db: Db, source: nat, last: Option<nat>, hint: Option<string>)
    requires RegistryOk(db) && HistoryOk(Polls(db, source))
    requires if last.Some? then LastPoll(db, source, last.value) else forall j :: !DonePoll(db, source, j)
    ensures Unchanged(LastRecord(db, last), hint).Some? ==>
              var skip := Unchanged(LastRecord(db, last), hint).value;
              source < db.now && Follows(Polls(db, source), skip.0, skip.1)
  {
    if Unchanged(LastRecord(db, last), hint).Some? {
      var h, j, skip := Polls(db, source), last.value, Unchanged(LastRecord(db, last), hint).value;
      assert LastOf(h, j) && TagOf(h[j]) == skip.0 && skip.1 == SkipsOf(h[j]) + 1;
    }
  }

  lemma ConsiderPc(db: Db, t: Db, source: nat, last: Option<nat>, hint: Option<string>)
    requires RegistryOk(db) && t == Ticked(db)
    requires Unchanged(LastRecord(db, last), hint).Some? ==>
               var skip := Unchanged(LastRecord(db, last), hint).value;
               source < db.now && Follows(Polls(db, source), skip.0, skip.1)
    ensures Unchanged(LastRecord(db, last), hint).Some? ==>
              var skip := Unchanged(LastRecord(db, last), hint).value;
              PollPcOk(t, Skipping(source, skip.0, skip.1))
  {
    hide Unchanged, LastRecord, Follows;
    QuietPolls(db, None, source);
    hide RegistryOk, Polls;
  }

  lemma QueueNext(db: Db, pc: Pc)
    requires RegistryOk(db) && pc.Skipping? && PollPcOk(db, pc)
    requires pc.source in db.sources && !HasOpen(db, pc.source)
    ensures PollPcOk(Apply(db, Queue(pc.source, POLL, NO_PAYLOAD)), SkipQueued(db.now, pc.source, pc.tag, pc.skips))
  {
    var t := Apply(db, Queue(pc.source, POLL, NO_PAYLOAD));
    QuietPolls(db, Some(Queue(pc.source, POLL, NO_PAYLOAD)), pc.source);
    assert t.jobs[db.now] == Job(pc.source, POLL, QUEUED, NO_PAYLOAD, None, db.now, 0, 0);
    hide Follows, Polls, RegistryOk, HasOpen;
  }

  /** A poll that really ran, filed: every history still exact, and it is the latest of its own. */
  lemma FinishNext(db: Db, pc: Pc)
    requires RegistryOk(db) && (forall source: nat :: HistoryOk(Polls(db, source)))
    requires pc.Finishing? && pc.job.kind == POLL && pc.id in db.jobs && PollPcOk(db, pc)
    requires JobMatches(db, pc.id, pc.job)
    ensures var t := FinishJob(db, pc.id, DONE, Some(pc.record));
            && (forall source: nat :: HistoryOk(Polls(t, source)))
            && PollPcOk(t, HandingOff(pc.id, pc.job, pc.row, pc.record))
  {
    var result := Some(pc.record);
    var t, row := FinishJob(db, pc.id, DONE, result), FinishedRow(db, pc.id, DONE, result);
    assert Open(db.jobs[pc.id]) && !IsSkip(row) && db.jobs[pc.id].source == pc.job.source;
    hide HistoryOk, Polls, RegistryOk, LastOf, Later, FinishJob;
    forall source: nat
      ensures HistoryOk(Polls(t, source)) && (source == pc.job.source ==> LastOf(Polls(t, source), pc.id)) {
      DonePolls(db, pc.id, result, source);
      DonePollsInOrder(db, pc.id, DONE, result, source);
      if source == pc.job.source { AppendReal(Polls(db, source), pc.id, row); }
    }
  }

  /** A skip record, filed. */
  lemma SkipFinishNext(db: Db, pc: Pc)
    requires RegistryOk(db) && (forall source: nat :: HistoryOk(Polls(db, source)))
    requires pc.SkipQueued? && pc.id in db.jobs && PollPcOk(db, pc)
    ensures forall source: nat ::
              HistoryOk(Polls(FinishJob(db, pc.id, DONE, Some(Record(pc.tag, Some(pc.skips), false, NO_PAYLOAD))),
                              source))
  {
    var result := Some(Record(pc.tag, Some(pc.skips), false, NO_PAYLOAD));
    var t, row := FinishJob(db, pc.id, DONE, result), FinishedRow(db, pc.id, DONE, result);
    assert SkipReady(db, pc) && IsSkip(row) && TagOf(row) == pc.tag && SkipsOf(row) == pc.skips;
    hide HistoryOk, Polls, RegistryOk, Follows, Later, FinishJob, IsSkip, TagOf, SkipsOf;
    forall source: nat ensures HistoryOk(Polls(t, source)) {
      DonePolls(db, pc.id, result, source);
      DonePollsInOrder(db, pc.id, DONE, result, source);
      if source == pc.source { AppendSkip(Polls(db, source), pc.id, row); }
    }
  }

  /** A poll filed as failed, whether it was still open or had just been filed as done. */
  lemma FailNext(db: Db, pc: Pc)
    requires RegistryOk(db) && (forall source: nat :: HistoryOk(Polls(db, source)))
    requires pc.Failing? && pc.job.kind == POLL && pc.id in db.jobs && PollPcOk(db, pc) && JobMatches(db, pc.id, pc.job)
    ensures forall source: nat :: HistoryOk(Polls(FinishJob(db, pc.id, FAILED, None), source))
  {
    assert db.jobs[pc.id].source == pc.job.source && db.jobs[pc.id].kind == POLL;
    assert Open(db.jobs[pc.id]) || LastOf(Polls(db, pc.job.source), pc.id);
    hide HistoryOk, Polls, RegistryOk, LastOf, FinishJob, PollPcOk, Open;
    forall source: nat ensures HistoryOk(Polls(FinishJob(db, pc.id, FAILED, None), source)) {
      FailedPolls(db, pc.id, source);
      if source == pc.job.source && LastOf(Polls(db, source), pc.id) {
        DropLast(Polls(db, source), pc.id);
      } else {
        NotInPolls(db, source, pc.id);
        assert Polls(db, source) - {pc.id} == Polls(db, source);
      }
    }
  }

  lemma NotInPolls(db: Db, source: nat, j: nat)
    requires j in db.jobs && (Open(db.jobs[j]) || db.jobs[j].source != source)
    ensures j !in Polls(db, source)
  {
  }

  // --------------------------------------------------------------------- steps

  /** What one worker's step does to histories and to the ingest worker's memory, whoever takes it. */
  ghost predicate HistoriesOk(db: Db) {
    forall source: nat :: HistoryOk(Polls(db, source))
  }

  /** An outsider's or the signer's write closes no poll. */
  lemma OthersAreQuiet(db: Db, ok: Vouching.Approved, team: Team, pc: Pc, x: Action)
    requires RegistryOk(db) && (x.Operator? ==> OperatorMay(x.write))
    requires Actor(x).None? || (team == SIGNING && WorkerOk(db, ok, Worker(team, pc)) && !pc.SkipQueued?)
    ensures Quiet(db, WriteOf(team, pc, x)) || (WriteOf(team, pc, x).Some? && WriteOf(team, pc, x).value.Delete?)
  {
    hide RegistryOk, PayloadApproved, RecordApproved;
  }

  /** And so do the ingest worker's plain steps, its claims and its enqueues. */
  lemma MostAreQuiet(db: Db, pc: Pc, x: Action)
    requires Actor(x).Some? && !x.FinishBy? && !x.FailBy? && !x.SkipFinishBy?
    ensures Quiet(db, WriteOf(INGEST, pc, x))
  {
  }

  lemma IdleIsOk(db: Db, source: nat)
    ensures PollPcOk(db, Idle) && PollPcOk(db, Marking(source)) && PollPcOk(db, Queueing(source))
  {
  }

  /** Filing a row that is gone, or no poll's, is quiet. */
  lemma FiledElsewhere(db: Db, j: nat, state: JobState, result: Option<Record>)
    requires RegistryOk(db) && HistoriesOk(db)
    requires j in db.jobs ==> db.jobs[j].kind != POLL
    ensures HistoriesOk(FinishJob(db, j, state, result))
  {
    hide HistoryOk, Polls, RegistryOk;
    var w := Some(Finish(j, state, result));
    assert Written(db, w) == FinishJob(db, j, state, result) && Quiet(db, w);
    forall source: nat ensures HistoryOk(Polls(FinishJob(db, j, state, result), source)) { QuietPolls(db, w, source); }
  }

  lemma HandingOffElsewhere(t: Db, pc: Pc)
    requires pc.HandingOff? && (pc.job.kind != POLL || pc.id !in t.jobs)
    ensures PollPcOk(t, pc)
  {
  }

  lemma FinishByStep(db: Db, pc: Pc)
    requires RegistryOk(db) && HistoriesOk(db) && PollPcOk(db, pc) && pc.Finishing? && JobMatches(db, pc.id, pc.job)
    ensures var t := FinishJob(db, pc.id, DONE, Some(pc.record));
            HistoriesOk(t) && PollPcOk(t, HandingOff(pc.id, pc.job, pc.row, pc.record))
  {
    hide PollPcOk, HistoryOk, Polls, RegistryOk;
    if pc.id in db.jobs && pc.job.kind == POLL {
      FinishNext(db, pc);
    } else {
      FiledElsewhere(db, pc.id, DONE, Some(pc.record));
      HandingOffElsewhere(FinishJob(db, pc.id, DONE, Some(pc.record)), HandingOff(pc.id, pc.job, pc.row, pc.record));
    }
  }

  lemma FailByStep(db: Db, pc: Pc)
    requires RegistryOk(db) && HistoriesOk(db) && PollPcOk(db, pc) && pc.Failing? && JobMatches(db, pc.id, pc.job)
    ensures HistoriesOk(FinishJob(db, pc.id, FAILED, None))
  {
    hide PollPcOk, HistoryOk, Polls, RegistryOk;
    if pc.id in db.jobs && pc.job.kind == POLL {
      FailNext(db, pc);
    } else {
      FiledElsewhere(db, pc.id, FAILED, None);
    }
  }

  lemma SkipFinishByStep(db: Db, pc: Pc)
    requires RegistryOk(db) && HistoriesOk(db) && PollPcOk(db, pc) && pc.SkipQueued?
    ensures HistoriesOk(FinishJob(db, pc.id, DONE, Some(Record(pc.tag, Some(pc.skips), false, NO_PAYLOAD))))
  {
    hide PollPcOk, HistoryOk, Polls, RegistryOk;
    if pc.id in db.jobs {
      SkipFinishNext(db, pc);
    } else {
      FiledElsewhere(db, pc.id, DONE, Some(Record(pc.tag, Some(pc.skips), false, NO_PAYLOAD)));
    }
  }

  /** Every step of the one ingest worker keeps every history exact. */
  lemma IngestStep(env: Env, s: System, pc: Pc, x: Action)
    requires RegistryOk(s.db) && HistoriesOk(s.db) && PollPcOk(s.db, pc)
    requires Started(pc) ==> JobMatches(s.db, pc.id, pc.job)
    requires Enabled(s.db, INGEST, pc, x) && Actor(x).Some?
    ensures var t := Written(s.db, WriteOf(INGEST, pc, x));
            HistoriesOk(t) && PollPcOk(t, Next(env, s, INGEST, pc, x))
  {
    var w := WriteOf(INGEST, pc, x);
    var t := Written(s.db, w);
    hide RegistryOk, PollPcOk, HistoryOk, Polls, JobMatches, Quiet, FinishJob, Enqueue, Oldest, LastPoll, HasOpen,
         Unchanged, Policy.Ingested, Signer.PublishRun;
    if x.FinishBy? {
      FinishByStep(s.db, pc);
    } else if x.FailBy? {
      FailByStep(s.db, pc);
      IdleIsOk(t, pc.job.source);
    } else if x.SkipFinishBy? {
      SkipFinishByStep(s.db, pc);
      IdleIsOk(t, 0);
    } else {
      MostAreQuiet(s.db, pc, x);
      WriteKeepsSkips(s.db, w, pc);
      QuietIngestNext(env, s, pc, x);
    }
  }

  lemma QuietIngestNext(env: Env, s: System, pc: Pc, x: Action)
    requires RegistryOk(s.db) && HistoriesOk(s.db) && PollPcOk(s.db, pc)
    requires Enabled(s.db, INGEST, pc, x) && Actor(x).Some? && !x.FinishBy? && !x.FailBy? && !x.SkipFinishBy?
    requires PollPcOk(Written(s.db, WriteOf(INGEST, pc, x)), pc)
    ensures PollPcOk(Written(s.db, WriteOf(INGEST, pc, x)), Next(env, s, INGEST, pc, x))
  {
    hide RegistryOk, HistoryOk, PollPcOk, Polls, Follows, Oldest, LastPoll, HasOpen, Unchanged, LastRecord,
         Policy.Ingested, Signer.PublishRun;
    var t := Written(s.db, WriteOf(INGEST, pc, x));
    if x.TakeBy? {
      TakeNext(s.db, INGEST, x.id);
    } else if x.ConsiderBy? {
      ConsiderNext(s.db, x.source, x.last, x.hint);
      IdleIsOk(t, x.source);
      ConsiderPc(s.db, t, x.source, x.last, x.hint);
    } else if x.QueueBy? {
      IdleIsOk(t, 0);
      if pc.Skipping? && pc.source in s.db.sources && !HasOpen(s.db, pc.source) { QueueNext(s.db, pc); }
    } else {
      PlainNext(env, s, t, INGEST, pc, x);
    }
  }

  lemma OthersStep(env: Env, s: System, x: Action, t: System, team: Team, pc: Pc)
    requires SystemOk(env, s) && SkipsOk(s) && (x.Operator? ==> OperatorMay(x.write))
    requires t.db == Written(s.db, WriteOf(team, pc, x))
    requires Actor(x).None?
             || (team == SIGNING && WorkerOk(s.db, Pairs(s.approvals), Worker(team, pc)) && !pc.SkipQueued?)
    ensures HistoriesOk(t.db)
    ensures forall w | w in s.workers && s.workers[w].team == INGEST :: PollPcOk(t.db, s.workers[w].pc)
  {
    OthersAreQuiet(s.db, Pairs(s.approvals), team, pc, x);
    var write := WriteOf(team, pc, x);
    hide Vouching.Sane, JobsApproved, Genuine, RegistryOk, HistoryOk, PollPcOk, Polls, Quiet, WriteOf,
         Written, PayloadApproved, RecordApproved;
    IdleIsOk(s.db, 0);
    WriteKeepsSkips(s.db, write, Idle);
    forall w | w in s.workers && s.workers[w].team == INGEST ensures PollPcOk(t.db, s.workers[w].pc) {
      assert WorkerOk(s.db, Pairs(s.approvals), s.workers[w]);
      WriteKeepsSkips(s.db, write, s.workers[w].pc);
    }
  }

  lemma SignerNeverSkips(env: Env, s: System, pc: Pc, x: Action)
    requires Enabled(s.db, SIGNING, pc, x) && Actor(x).Some? && !pc.Skipping? && !pc.SkipQueued?
    ensures !Next(env, s, SIGNING, pc, x).Skipping? && !Next(env, s, SIGNING, pc, x).SkipQueued?
  {
    hide Policy.Ingested, Signer.PublishRun, Oldest, LastPoll;
  }

  /** Every step of every interleaving keeps every history exact. */
  lemma EveryStepCounts(env: Env, s: System, x: Action, t: System)
    requires SystemOk(env, s) && SkipsOk(s) && Steps(env, s, x, t)
    ensures SkipsOk(t)
  {
    hide Vouching.Sane, JobsApproved, Genuine, RegistryOk, HistoryOk, PollPcOk, Polls, WriteOf, Written,
         WorkerOk, Next, Enabled, DiskMoves, NewApprovals, OperatorMay;
    if Actor(x).None? {
      OthersStep(env, s, x, t, INGEST, Idle);
    } else {
      var i := Actor(x).value;
      var team, pc := s.workers[i].team, s.workers[i].pc;
      assert s.workers[i] == Worker(team, pc) && WorkerOk(s.db, Pairs(s.approvals), s.workers[i]);
      if team == SIGNING {
        OthersStep(env, s, x, t, team, pc);
        SignerNeverSkips(env, s, pc, x);
      } else {
        StartedMatches(s.db, Pairs(s.approvals), Worker(team, pc));
        IngestStep(env, s, pc, x);
      }
    }
  }

  lemma StartedMatches(db: Db, ok: Vouching.Approved, w: Worker)
    requires WorkerOk(db, ok, w)
    ensures Started(w.pc) ==> JobMatches(db, w.pc.id, w.pc.job)
  {
  }

  lemma {:induction false} RunCounts(env: Env, actions: seq<Action>, states: seq<System>, n: nat)
    requires RunOf(env, actions, states) && SystemOk(env, states[0]) && SkipsOk(states[0]) && n <= |actions|
    ensures SkipsOk(states[n])
  {
    hide SystemOk, SkipsOk, Steps;
    if n > 0 {
      RunCounts(env, actions, states, n - 1);
      EveryRunIsOk(env, actions, states, n - 1);
      EveryStepCounts(env, states[n - 1], actions[n - 1], states[n]);
    }
  }

  /** An ingest worker that remembers nothing has nothing to get wrong. */
  lemma StartCounts(s: System)
    requires Starts(s) && OneIngest(s)
    ensures SkipsOk(s)
  {
    forall source: nat ensures HistoryOk(Polls(s.db, source)) {
      assert Polls(s.db, source) == map[];
      EmptyHistory();
    }
    hide HistoryOk, Polls;
    IdleIsOk(s.db, 0);
  }

  lemma SkipsOkHistory(s: System, source: nat)
    requires SkipsOk(s)
    ensures HistoryOk(Polls(s.db, source))
  {
    hide HistoryOk, Polls, PollPcOk;
  }

  lemma LastIsCounted(db: Db, source: nat, last: nat, hint: Option<string>)
    requires HistoryOk(Polls(db, source)) && LastPoll(db, source, last)
    ensures var h := Polls(db, source);
            && last in h && h[last] == db.jobs[last] && |Since(h, last)| == SkipsOf(h[last]) <= 24
            && (IsSkip(h[last]) ==> exists r :: Anchors(h, r, last))
            && Unchanged(LastRecord(db, Some(last)), hint)
               == (if TagOf(h[last]) != [] && SkipsOf(h[last]) < 24 && hint == Some(TagOf(h[last]))
                   then Some((TagOf(h[last]), SkipsOf(h[last]) + 1)) else None)
  {
    assert last in Polls(db, source) && EntryOk(Polls(db, source), last);
    hide HistoryOk, Since, Anchors;
  }

  /**
   With one ingest worker and any feed answers, in every run from nothing: the latest finished poll of
   every source carries the exact number of skips since the last poll filed as done that really ran, at
   most 24, and that poll's tag; another skip is made exactly while it is below 24 and the feed still shows
   that tag; and the number is that of skips since the last poll that ran at all, unless one failed after a
   skip that is still counted.
   */
  lemma EveryRunCountsSkips(env: Env, actions: seq<Action>, states: seq<System>, n: nat, source: nat, last: nat,
                            hint: Option<string>)
    requires RunOf(env, actions, states) && Starts(states[0]) && OneIngest(states[0]) && n <= |actions|
    requires LastPoll(states[n].db, source, last)
    ensures var h := Polls(states[n].db, source);
            && last in h && |Since(h, last)| == SkipsOf(h[last]) <= 24
            && (IsSkip(h[last]) ==> exists r :: Anchors(h, r, last))
            && Unchanged(LastRecord(states[n].db, Some(last)), hint)
               == (if TagOf(h[last]) != [] && SkipsOf(h[last]) < 24 && hint == Some(TagOf(h[last]))
                   then Some((TagOf(h[last]), SkipsOf(h[last]) + 1)) else None)
            && (|SinceRan(states[n].db, source, last)| == SkipsOf(h[last])
                <==> !FailedAfterSkip(states[n].db, source, last))
  {
    hide SystemOk, SkipsOk, Steps, Starts, EntryOk, Since, SinceRan, FailedAfterSkip, Unchanged;
    StartIsOk(env, states[0]);
    StartCounts(states[0]);
    RunCounts(env, actions, states, n);
    SkipsOkHistory(states[n], source);
    LastIsCounted(states[n].db, source, last, hint);
    CountsSinceRanIff(states[n].db, source, last);
  }

  // ------------------------------------------------------------- failed polls

  predicate FailedPoll(db: Db, source: nat, j: nat) {
    j in db.jobs && db.jobs[j].source == source && db.jobs[j].kind == POLL && db.jobs[j].state == FAILED
  }

  /** A poll that ran, however it was filed. */
  predicate RanPoll(db: Db, source: nat, j: nat) {
    FailedPoll(db, source, j) || (DonePoll(db, source, j) && !IsSkip(db.jobs[j]))
  }

  ghost predicate RanBetween(db: Db, source: nat, lo: nat, hi: nat) {
    exists r | r in db.jobs && RanPoll(db, source, r) :: lo < db.jobs[r].finishedAt <= hi
  }

  /** The skip records up to `last` since a poll of the source last ran. */
  ghost function SinceRan(db: Db, source: nat, last: nat): set<nat>
    requires last in db.jobs
  {
    set i | i in db.jobs && DonePoll(db, source, i) && IsSkip(db.jobs[i])
            && db.jobs[i].finishedAt <= db.jobs[last].finishedAt
            && !RanBetween(db, source, db.jobs[i].finishedAt, db.jobs[last].finishedAt)
  }

  /** A poll failed between a skip that is still counted and `last`. */
  ghost predicate FailedAfterSkip(db: Db, source: nat, last: nat)
    requires last in Polls(db, source)
  {
    exists f, i | FailedPoll(db, source, f) && i in Since(Polls(db, source), last) ::
      db.jobs[i].finishedAt < db.jobs[f].finishedAt <= db.jobs[last].finishedAt
  }

  lemma SameSize(a: set<nat>, b: set<nat>)
    requires a <= b
    ensures |a| == |b| <==> a == b
  {
    assert b == a + (b - a);
  }

  lemma RanMeans(db: Db, source: nat, lo: nat, hi: nat)
    ensures RanBetween(db, source, lo, hi) <==>
      RealBetween(Polls(db, source), lo, hi) || exists f | FailedPoll(db, source, f) :: lo < db.jobs[f].finishedAt <= hi
  {
    var h := Polls(db, source);
    if RanBetween(db, source, lo, hi) {
      var r :| r in db.jobs && RanPoll(db, source, r) && lo < db.jobs[r].finishedAt <= hi;
      if !FailedPoll(db, source, r) { assert r in h && !IsSkip(h[r]); }
    }
    if RealBetween(h, lo, hi) {
      var r :| r in h && !IsSkip(h[r]) && lo < h[r].finishedAt <= hi;
      assert r in db.jobs && RanPoll(db, source, r);
    }
    if f :| FailedPoll(db, source, f) && lo < db.jobs[f].finishedAt <= hi {
      assert f in db.jobs && RanPoll(db, source, f);
    }
  }

  lemma SinceRanMeans(db: Db, source: nat, last: nat, i: nat)
    requires last in Polls(db, source)
    ensures i in SinceRan(db, source, last) <==>
      && i in Since(Polls(db, source), last)
      && !exists f | FailedPoll(db, source, f) ::
           db.jobs[i].finishedAt < db.jobs[f].finishedAt <= db.jobs[last].finishedAt
  {
    if i in db.jobs { RanMeans(db, source, db.jobs[i].finishedAt, db.jobs[last].finishedAt); }
    hide RanBetween, RealBetween, FailedPoll;
  }

  /** The recorded count is that since a poll last ran exactly when none failed after a skip it counts. */
  lemma CountsSinceRanIff(db: Db, source: nat, last: nat)
    requires HistoryOk(Polls(db, source)) && last in Polls(db, source)
    ensures |SinceRan(db, source, last)| == SkipsOf(db.jobs[last]) <==> !FailedAfterSkip(db, source, last)
  {
    var h := Polls(db, source);
    assert EntryOk(h, last) && h[last] == db.jobs[last];
    hide HistoryOk, Anchored, Polls;
    forall i: nat ensures i in SinceRan(db, source, last) <==>
      && i in Since(h, last)
      && !exists f | FailedPoll(db, source, f) ::
           db.jobs[i].finishedAt < db.jobs[f].finishedAt <= db.jobs[last].finishedAt
    {
      SinceRanMeans(db, source, last, i);
    }
    hide Since, SinceRan, FailedPoll;
    SameSize(SinceRan(db, source, last), Since(h, last));
  }

  /** Filing a poll as failed leaves the next skip what it would have been. */
  lemma FailureIsForgotten(db: Db, source: nat, last: nat, j: nat, hint: Option<string>)
    requires LastPoll(db, source, last) && j in db.jobs && db.jobs[j].kind == POLL && Open(db.jobs[j])
    ensures var t := FinishJob(db, j, FAILED, None);
            && LastPoll(t, source, last)
            && Unchanged(LastRecord(t, Some(last)), hint) == Unchanged(LastRecord(db, Some(last)), hint)
  {
    var t := FinishJob(db, j, FAILED, None);
    assert t.jobs == db.jobs[j := FinishedRow(db, j, FAILED, None)];
    assert forall i :: DonePoll(t, source, i) == DonePoll(db, source, i);
  }

  function PollJob(state: JobState, result: Option<Record>, requestedAt: nat, startedAt: nat, finishedAt: nat): Job {
    Job(0, POLL, state, NO_PAYLOAD, result, requestedAt, startedAt, finishedAt)
  }

  ghost predicate Quiescent(db: Db) {
    0 in db.sources && db.now !in db.jobs && forall j | j in db.jobs :: !Open(db.jobs[j])
  }

  lemma PollStarts(db: Db)
    requires Quiescent(db)
    ensures Apply(Apply(db, Queue(0, POLL, NO_PAYLOAD)), Take({VALIDATE, POLL}, db.now))
         == Db(db.sources, db.jobs[db.now := PollJob(RUNNING, None, db.now, db.now + 1, 0)], db.now + 2)
  {
    var queued := Apply(db, Queue(0, POLL, NO_PAYLOAD));
    assert queued == Db(db.sources, db.jobs[db.now := PollJob(QUEUED, None, db.now, 0, 0)], db.now + 1);
    assert Oldest(queued, {VALIDATE, POLL}, db.now);
  }

  lemma PollEnds(db: Db, j: nat, state: JobState, result: Option<Record>)
    requires j in db.jobs && db.jobs[j].source == 0 && db.jobs[j].kind == POLL && db.jobs[j].payload == NO_PAYLOAD
    requires state == DONE || state == FAILED
    ensures Apply(db, Finish(j, state, result)) ==
              Db(db.sources, db.jobs[j := PollJob(state, result, db.jobs[j].requestedAt, db.jobs[j].startedAt, db.now)],
                 db.now + 1)
  {
  }

  lemma SkipFiled(db: Db, result: Option<Record>)
    requires Quiescent(db)
    ensures Apply(Apply(db, Queue(0, POLL, NO_PAYLOAD)), Finish(db.now, DONE, result))
         == Db(db.sources, db.jobs[db.now := PollJob(DONE, result, db.now, 0, db.now + 1)], db.now + 2)
  {
    var queued := Apply(db, Queue(0, POLL, NO_PAYLOAD));
    assert queued == Db(db.sources, db.jobs[db.now := PollJob(QUEUED, None, db.now, 0, 0)], db.now + 1);
    hide Quiescent, HasOpen;
    PollEnds(queued, db.now, DONE, result);
  }

  function Active(row: Source): Source {
    row.(status := ACTIVE, pins := row.pins.(repositoryId := Some("1"), ownerId := Some("2")))
  }

  lemma Registers(row: Source)
    requires RowAllowed(Active(row))
    ensures Apply(Apply(Apply(Db(map[], map[], 0), Add(row)), Identify(0, "1", "2")), Delegated(0, row.slot.appId))
         == Db(map[0 := Active(row)], map[], 3)
  {
  }

  const RAN := Some(Record("v1", None, false, NO_PAYLOAD))

  function Skipped(n: nat): Option<Record> {
    Some(Record("v1", Some(n), false, NO_PAYLOAD))
  }

  function Polled(row: Source): Db {
    Db(map[0 := Active(row)], map[3 := PollJob(DONE, RAN, 3, 4, 5)], 6)
  }

  lemma PolledIsReached(row: Source)
    requires RowAllowed(Active(row))
    ensures var d3 := Apply(Apply(Apply(Db(map[], map[], 0), Add(row)), Identify(0, "1", "2")),
                            Delegated(0, row.slot.appId));
            Polled(row) == Apply(Apply(Apply(d3, Queue(0, POLL, NO_PAYLOAD)), Take({VALIDATE, POLL}, 3)),
                                 Finish(3, DONE, RAN))
  {
    Registers(row);
    hide RowAllowed, Apply;
    var d3 := Db(map[0 := Active(row)], map[], 3);
    PollStarts(d3);
    var d5 := Db(d3.sources, map[3 := PollJob(RUNNING, None, 3, 4, 0)], 5);
    assert d3.jobs[3 := PollJob(RUNNING, None, 3, 4, 0)] == d5.jobs;
    PollEnds(d5, 3, DONE, RAN);
    assert d5.jobs[3 := PollJob(DONE, RAN, 3, 4, 5)] == Polled(row).jobs;
  }

  /** One active source whose poll of v1 was filed, then one skip. */
  function OneSkip(row: Source): Db {
    Db(map[0 := Active(row)], map[3 := PollJob(DONE, RAN, 3, 4, 5), 6 := PollJob(DONE, Skipped(1), 6, 0, 7)], 8)
  }

  lemma OneSkipIsReached(row: Source)
    ensures Unchanged(LastRecord(Polled(row), Some(3)), Some("v1")) == Some(("v1", 1))
    ensures OneSkip(row) == Apply(Apply(Polled(row), Queue(0, POLL, NO_PAYLOAD)), Finish(6, DONE, Skipped(1)))
  {
    hide Apply;
    SkipFiled(Polled(row), Skipped(1));
    assert Polled(row).jobs[6 := PollJob(DONE, Skipped(1), 6, 0, 7)] == OneSkip(row).jobs;
  }

  /**
   A count that is not since the last poll that ran: after one skip an operator's poll fails, and the next
   skip is recorded as the second in a row.
   */
  lemma SkipsAcrossFailure(row: Source)
    ensures var db := OneSkip(row);
            var failed := Apply(Apply(Apply(db, Queue(0, POLL, NO_PAYLOAD)), Take({VALIDATE, POLL}, 8)),
                                Finish(8, FAILED, None));
            var next := Apply(Apply(failed, Queue(0, POLL, NO_PAYLOAD)), Finish(11, DONE, Skipped(2)));
            && Unchanged(LastRecord(failed, Some(6)), Some("v1")) == Some(("v1", 2)) && LastPoll(failed, 0, 6)
            && LastPoll(next, 0, 11) && SkipsOf(next.jobs[11]) == 2 && SinceRan(next, 0, 11) == {11}
  {
    hide Apply;
    var db := OneSkip(row);
    PollStarts(db);
    var d10 := Db(db.sources, db.jobs[8 := PollJob(RUNNING, None, 8, 9, 0)], 10);
    PollEnds(d10, 8, FAILED, None);
    var failed := Db(db.sources, db.jobs[8 := PollJob(FAILED, None, 8, 9, 10)], 11);
    assert d10.jobs[8 := PollJob(FAILED, None, 8, 9, 10)] == failed.jobs;
    SkipFiled(failed, Skipped(2));
    var next := Db(db.sources, failed.jobs[11 := PollJob(DONE, Skipped(2), 11, 0, 12)], 13);
    assert RanBetween(next, 0, 7, 12) by { assert 8 in next.jobs && RanPoll(next, 0, 8); }
    assert !RanBetween(next, 0, 12, 12);
  }
}

/** Where the protocol's guarantees stop: runs that show each premise is needed. */
module Limits {
  import opened Blocks
  import opened Queue
  import opened Embedding
  import opened Ingestion
  import opened Freshness
  import opened Safety
  import opened Progress

  /** The upload passes intake's own checks. */
  predicate Acceptable(w: World, filename: string, data: Bytes, declared: string) {
    0 < |data| <= w.maxUpload && w.mimeOf(data, filename, declared).Some?
  }

  function FirstRow(w: World, workspace: nat, filename: string, data: Bytes, declared: string): DocumentRow
    requires Acceptable(w, filename, data, declared)
  {
    DocumentRow(workspace, filename, w.mimeOf(data, filename, declared).value, w.hash(data), 1, PENDING, false, data, [], None)
  }

  /** The worker's actions, as a run writes them. */
  function Script(replies: Replies, first: nat, n: nat): seq<Action> {
    if n == 0 then [] else Script(replies, first, n - 1) + [Advance(replies(first + n - 1).0, replies(first + n - 1).1)]
  }

  lemma NoScript(w: World, actions: seq<Action>, replies: Replies, first: nat)
    ensures Run(w, actions + Script(replies, first, 0)) == After(w, Run(w, actions), replies, first, 0)
  {
    assert actions + [] == actions;
    hide Run;
  }

  lemma LongerScript(actions: seq<Action>, replies: Replies, first: nat, n: nat)
    ensures actions + Script(replies, first, n + 1) == (actions + Script(replies, first, n)) + [Advance(replies(first + n).0, replies(first + n).1)]
  {
  }

  lemma {:induction false} RunThenScript(w: World, actions: seq<Action>, replies: Replies, first: nat, n: nat)
    ensures Run(w, actions + Script(replies, first, n)) == After(w, Run(w, actions), replies, first, n)
  {
    hide *;
    if n == 0 {
      NoScript(w, actions, replies, first);
    } else {
      RunThenScript(w, actions, replies, first, n - 1);
      LongerScript(actions, replies, first, n - 1);
      RunOneMore(w, actions + Script(replies, first, n - 1), Advance(replies(first + n - 1).0, replies(first + n - 1).1));
      AfterAdds(w, Run(w, actions), replies, first, n - 1, 1);
      AfterOnce(w, Run(w, actions + Script(replies, first, n - 1)), replies, first + n - 1);
    }
  }

  lemma AfterOnce(w: World, s: State, replies: Replies, first: nat)
    requires WellFormed(s)
    ensures After(w, s, replies, first, 1) == Apply(w, s, Advance(replies(first).0, replies(first).1))
  {
    hide Apply;
    StaysWellFormed(w, s, Advance(replies(first).0, replies(first).1));
    assert After(w, Apply(w, s, Advance(replies(first).0, replies(first).1)), replies, first + 1, 0) == Apply(w, s, Advance(replies(first).0, replies(first).1));
  }

  lemma FirstUpload(w: World, workspace: nat, filename: string, data: Bytes, declared: string)
    requires Acceptable(w, filename, data, declared)
    ensures Run(w, [Upload(workspace, filename, data, declared)]) == State([FirstRow(w, workspace, filename, data, declared)], [NewJob(0)], 0, Down)
  {
    var upload := Upload(workspace, filename, data, declared);
    RunOneMore(w, [], upload);
    assert [] + [upload] == [upload];
    assert Run(w, []) == START;
    hide Run;
  }

  /** The first upload to an empty site, and a worker that claims it. */
  lemma FirstClaim(w: World, workspace: nat, filename: string, data: Bytes, declared: string) returns (actions: seq<Action>)
    requires Acceptable(w, filename, data, declared) && w.batchSize >= 0
    requires w.chunkOf(FirstRow(w, workspace, filename, data, declared).File()) != []
    ensures var s := Run(w, actions);
      && s.documents == [FirstRow(w, workspace, filename, data, declared)] && |s.jobs| == 1
      && Inv(w, s) && s.worker == Busy(0, Load, Memo(0, "", "", NO_SOURCE)) && OnTrack(w, s)
  {
    var upload, row := Upload(workspace, filename, data, declared), FirstRow(w, workspace, filename, data, declared);
    hide *;
    FirstUpload(w, workspace, filename, data, declared);
    RunOneMore(w, [upload], Restart);
    RunOneMore(w, [upload] + [Restart], Advance([], false));
    actions := [upload] + [Restart] + [Advance([], false)];
    RunKeeps(w, [upload] + [Restart]);
    RestartedFirst(w, row);
    FirstIsClaimed(w, row);
  }

  /** The only document of a site, claimed. */
  lemma FirstIsClaimed(w: World, row: DocumentRow)
    requires w.batchSize >= 0 && w.chunkOf(row.File()) != [] && Inv(w, State([row], [NewJob(0)], 0, Idle))
    ensures WellFormed(State([row], [NewJob(0)], 0, Idle))
    ensures var s := Apply(w, State([row], [NewJob(0)], 0, Idle), Advance([], false));
      && s.documents == [row] && |s.jobs| == 1
      && Inv(w, s) && s.worker == Busy(0, Load, Memo(0, "", "", NO_SOURCE)) && OnTrack(w, s)
  {
    RestartedFirst(w, row);
    hide Inv, OnTrack, OldestPending;
    InvIsWellFormed(w, State([row], [NewJob(0)], 0, Idle));
    ClaimIsOnTrack(w, State([row], [NewJob(0)], 0, Idle));
  }

  lemma RestartedFirst(w: World, row: DocumentRow)
    ensures Apply(w, State([row], [NewJob(0)], 0, Down), Restart) == State([row], [NewJob(0)], 0, Idle)
    ensures OldestPending([NewJob(0)]) == 0
  {
    assert ReclaimAll([NewJob(0)], AllRunning([NewJob(0)])) == [NewJob(0)];
  }

  ghost predicate NoneHalfEmbedded(w: World, s: State) {
    forall d, i :: 0 <= d < |s.documents| && s.documents[d].status == READY && 0 <= i < |s.documents[d].chunks| ==> s.documents[d].chunks[i].vector.Some?
  }

  /** READY documents are fully embedded in every run exactly when the batch size is not 0. (A negative size
      makes the query fail, so nothing becomes READY by it.) The two-way form asks for one upload with text. */
  lemma ReadyMeansEmbeddedIff(w: World, workspace: nat, filename: string, data: Bytes, declared: string)
    requires Acceptable(w, filename, data, declared) && w.chunkOf(FirstRow(w, workspace, filename, data, declared).File()) != []
    ensures (forall actions :: NoneHalfEmbedded(w, Run(w, actions))) <==> w.batchSize != 0
  {
    if w.batchSize != 0 {
      forall actions ensures NoneHalfEmbedded(w, Run(w, actions)) {
        var s := Run(w, actions);
        forall d, i | 0 <= d < |s.documents| && s.documents[d].status == READY && 0 <= i < |s.documents[d].chunks| ensures s.documents[d].chunks[i].vector.Some? {
          ReadyMeansEmbedded(w, actions, d, i);
        }
      }
    } else {
      var actions := ZeroBatchLeavesNulls(w, workspace, filename, data, declared);
      assert !NoneHalfEmbedded(w, Run(w, actions));
    }
  }

  /** With batch size 0 an ordinary run of the first upload ends READY and searchable with no vectors. */
  lemma ZeroBatchLeavesNulls(w: World, workspace: nat, filename: string, data: Bytes, declared: string) returns (actions: seq<Action>)
    requires Acceptable(w, filename, data, declared) && w.batchSize == 0
    requires w.chunkOf(FirstRow(w, workspace, filename, data, declared).File()) != []
    ensures var s := Run(w, actions); |s.documents| == 1 && s.documents[0].status == READY && Bare(s.documents[0])
  {
    var replies: Replies := k => ([], false);
    var start := FirstClaim(w, workspace, filename, data, declared);
    var s := Run(w, start);
    var n := FinishesAndCloses(w, s, replies, 0);
    RunThenScript(w, start, replies, 0, n);
    actions := start + Script(replies, 0, n);
    hide Inv, Run, After, OnTrack;
  }

  /** An upload of new bytes under the name of the only document. */
  lemma SupersedesTheOnly(w: World, s: State, workspace: nat, filename: string, data: Bytes, declared: string)
    requires |s.documents| == 1 && s.documents[0].workspace == workspace && s.documents[0].filename == filename
    requires s.documents[0].hash != w.hash(data) && Acceptable(w, filename, data, declared)
    ensures Uploaded(w, s, workspace, filename, data, declared) ==
      s.(documents := [Overtaken(w, s.documents[0], filename, data, declared)], jobs := s.jobs + [NewJob(0)])
  {
    DecideIff(w, s.documents, workspace, filename, data, declared);
    OnlyNamesake(s.documents, workspace, filename, w.hash(data));
    hide Decide, Same, Namesakes;
  }

  lemma OnlyNamesake(documents: seq<DocumentRow>, workspace: nat, filename: string, hash: string)
    requires |documents| == 1 && documents[0].workspace == workspace && documents[0].filename == filename && documents[0].hash != hash
    ensures Same(documents, workspace, hash) == {} && Namesakes(documents, workspace, filename) == {0}
  {
  }

  function Overtaken(w: World, row: DocumentRow, filename: string, data: Bytes, declared: string): DocumentRow
    requires Acceptable(w, filename, data, declared)
  {
    Accepted(w, row, row.version + 1, filename, w.mimeOf(data, filename, declared).value, data)
  }

  /** READY alone does not mean fresh: an upload that arrives after the last batch and before the document is
      marked leaves it READY with no chunk at all until its own job runs. The condition that fails is that the
      document's newest job has succeeded. */
  lemma ReadyCanBeEmpty(w: World, workspace: nat, filename: string, old1: Bytes, new2: Bytes, declared: string) returns (actions: seq<Action>)
    requires Acceptable(w, filename, old1, declared) && Acceptable(w, filename, new2, declared) && w.batchSize >= 0
    requires w.hash(old1) != w.hash(new2) && w.chunkOf(FirstRow(w, workspace, filename, old1, declared).File()) != []
    ensures var s := Run(w, actions);
      && |s.documents| == 1 && s.documents[0].status == READY && s.documents[0].stored == new2 && s.documents[0].chunks == []
      && LastJob(s.jobs, 0) == 1 && s.jobs[1].status.Pending?
  {
    var replies: Replies, upload, last := k => ([], false), Upload(workspace, filename, new2, declared), Advance([], false);
    var start := FirstClaim(w, workspace, filename, old1, declared);
    var n := ReachesSetReady(w, Run(w, start), replies, 0);
    RunThenScript(w, start, replies, 0, n);
    actions := start + Script(replies, 0, n);
    var s := Run(w, actions);
    RunOneMore(w, actions, upload);
    RunOneMore(w, actions + [upload], last);
    hide Run, After, Inv, OnTrack, Acceptable, FirstRow, Uploaded;
    SupersedesTheOnly(w, s, workspace, filename, new2, declared);
    MarkedReady(w, Apply(w, s, upload), 0);
    LastAfterEnqueue(s.jobs, 0, 0);
    actions := actions + [upload] + [last];
  }

  /** The worker with no replies but empty ones. */
  function Quiet(): Replies {
    k => ([], false)
  }

  lemma QuietStep(w: World, s: State, first: nat)
    requires Inv(w, s) && OnTrack(w, s) && s.worker.Busy? && !s.worker.pc.Finish?
    ensures var t := Stepped(w, s, [], false);
      Inv(w, t) && OnTrack(w, t) && Beside(s, t, s.worker.job) && After(w, s, Quiet(), first, 1) == t
  {
    OneStep(w, s, [], false);
    AfterBusy(w, s, Quiet(), first, 0);
    hide OnTrack, Stepped, Beside, Closer, KeepsSource;
  }

  /** Three steps after the claim the worker reads the stored file. */
  lemma FileRead(w: World, s: State) returns (t: State)
    requires Inv(w, s) && OnTrack(w, s) && |s.documents| == 1 && |s.jobs| == 1 && s.worker == Busy(0, Load, Memo(0, "", "", NO_SOURCE))
    ensures t == After(w, s, Quiet(), 0, 4) && Inv(w, t) && OnTrack(w, t) && Beside(s, t, 0)
    ensures var row := s.documents[0]; t.worker == Busy(0, PageCount, Memo(0, row.mime, row.filename, row.File()))
  {
    var a := Stepped(w, s, [], false);
    var b := Stepped(w, a, [], false);
    var c := Stepped(w, b, [], false);
    t := Stepped(w, c, [], false);
    hide Inv, OnTrack;
    QuietStep(w, s, 0);
    QuietStep(w, a, 1);
    QuietStep(w, b, 2);
    QuietStep(w, c, 3);
    AfterAdds(w, s, Quiet(), 0, 1, 1);
    AfterAdds(w, s, Quiet(), 0, 2, 1);
    AfterAdds(w, s, Quiet(), 0, 3, 1);
    hide After;
  }

  /** The only document holds the new file under the chunks of the old one, all embedded. */
  ghost predicate Stale(w: World, s: State, before: Source, now: Source) {
    && |s.documents| == 1 && s.documents[0].File() == now && s.documents[0].hash == w.hash(now.data)
    && ContentsOf(s.documents[0].chunks) == w.chunkOf(before) && AllEmbedded(s.documents[0].chunks)
  }

  /** The run of the old file's job is about to mark the document READY; the new file's job waits behind it. */
  ghost predicate EndsStale(w: World, s: State, before: Source, now: Source) {
    && Stale(w, s, before, now) && |s.jobs| == 2 && s.jobs[1] == NewJob(0)
    && s.worker.Busy? && s.worker.job == 0 && s.worker.pc.SetReady?
    && s.jobs[0].document == 0 && s.jobs[0].written > 0 && !s.jobs[0].Over()
  }

  /** The upload does not disturb a run that has read its file. */
  lemma StaysOnTrack(w: World, s: State, workspace: nat, filename: string, data: Bytes, declared: string)
    requires Inv(w, s) && OnTrack(w, s) && s.worker.Busy? && s.worker.pc.PageCount? && s.worker.job == 0
    requires |s.documents| == 1 && |s.jobs| == 1 && s.documents[0].workspace == workspace && s.documents[0].filename == filename
    requires s.documents[0].hash != w.hash(data) && Acceptable(w, filename, data, declared)
    ensures var t := Apply(w, s, Upload(workspace, filename, data, declared));
      && WellFormed(t) && OnTrack(w, t) && t.worker == s.worker
      && t.documents == [Overtaken(w, s.documents[0], filename, data, declared)] && t.jobs == s.jobs + [NewJob(0)]
  {
    SupersedesTheOnly(w, s, workspace, filename, data, declared);
    hide Uploaded, Overtaken;
  }

  /** Undisturbed from there, the run ends with the chunks of the file it read. */
  lemma StaleAtTheEnd(w: World, s: State, t: State, before: Source, now: Source)
    requires Inv(w, s) && WellFormed(t) && s.worker.Busy? && s.worker.pc.PageCount? && s.worker.job == 0
    requires |s.documents| == 1 && |s.jobs| == 2 && s.jobs[0].document == 0 && s.jobs[1] == NewJob(0)
    requires s.worker.memo.source == before != NO_SOURCE && s.documents[0].File() == now && AboutToBeReady(w, s, t) && w.batchSize > 0
    ensures EndsStale(w, t, before, now)
  {
    assert RowGood(w, t.documents[0], t.jobs[LastJob(t.jobs, 0)]);
    assert BusyGood(w, t.documents[0], t.jobs[0], t.worker.pc, t.worker.memo);
    hide DocsGood, JobsGood, HashesDistinct, Agrees, Waiting, JobGood, LastJob, Orderly, ContentsOf;
    assert ContentsOf(t.documents[0].chunks) != [] by { NoRows(t.documents[0].chunks); }
  }

  lemma NoRows(rows: seq<ChunkRow>)
    ensures ContentsOf(rows) == [] <==> rows == []
  {
    assert |ContentsOf(rows)| == |rows|;
  }

  /** An upload that arrives between the reading of the file and the writing of its chunks: undisturbed, the run writes
      and embeds the old file's chunks under the new bytes. */
  lemma StaleRun(w: World, workspace: nat, filename: string, old1: Bytes, new2: Bytes, declared: string) returns (actions: seq<Action>)
    requires Acceptable(w, filename, old1, declared) && Acceptable(w, filename, new2, declared) && w.batchSize > 0
    requires w.hash(old1) != w.hash(new2) && w.chunkOf(FileOf(w, filename, old1, declared)) != []
    ensures EndsStale(w, Run(w, actions), FileOf(w, filename, old1, declared), FileOf(w, filename, new2, declared))
    ensures Run(w, actions).documents[0].workspace == workspace
  {
    var upload := Upload(workspace, filename, new2, declared);
    var start := FirstClaim(w, workspace, filename, old1, declared);
    var read := FileRead(w, Run(w, start));
    RunThenScript(w, start, Quiet(), 0, 4);
    var before := start + Script(Quiet(), 0, 4);
    RunOneMore(w, before, upload);
    RunKeeps(w, before + [upload]);
    var s := Apply(w, read, upload);
    StaysOnTrack(w, read, workspace, filename, new2, declared);
    var n := ReachesSetReady(w, s, Quiet(), 0);
    RunThenScript(w, before + [upload], Quiet(), 0, n);
    var t := After(w, s, Quiet(), 0, n);
    StaleAtTheEnd(w, s, t, FileOf(w, filename, old1, declared), FileOf(w, filename, new2, declared));
    actions := before + [upload] + Script(Quiet(), 0, n);
  }

  function FileOf(w: World, filename: string, data: Bytes, declared: string): Source
    requires Acceptable(w, filename, data, declared)
  {
    Source(data, w.mimeOf(data, filename, declared).value, filename)
  }

  /** READY, and stale, while the new file's job waits. */
  ghost predicate ReadyAndStale(w: World, s: State, before: Source, now: Source) {
    && Stale(w, s, before, now) && s.documents[0].status == READY
    && |s.jobs| == 2 && LastJob(s.jobs, 0) == 1 && s.jobs[1] == NewJob(0)
  }

  lemma SecondIsLast(jobs: seq<Job>)
    requires |jobs| == 2 && jobs[1].document == 0
    ensures LastJob(jobs, 0) == 1
  {
  }

  lemma MarkedStale(w: World, s: State, before: Source, now: Source)
    requires WellFormed(s) && EndsStale(w, s, before, now)
    ensures var t := Apply(w, s, Advance([], false));
      ReadyAndStale(w, t, before, now) && t.jobs == s.jobs && t.worker == s.worker.(pc := Pc.Finish) && t.documents[0].workspace == s.documents[0].workspace
  {
    MarkedReady(w, s, 0);
    SecondIsLast(s.jobs);
    hide Apply, LastJob;
  }

  /** An upload that arrives between the reading of the file and the writing of its chunks leaves superseded text
      searchable: the run marks the document READY under the old file's chunks. */
  lemma ReadyCanBeStale(w: World, workspace: nat, filename: string, old1: Bytes, new2: Bytes, declared: string) returns (actions: seq<Action>)
    requires Acceptable(w, filename, old1, declared) && Acceptable(w, filename, new2, declared) && w.batchSize > 0
    requires w.hash(old1) != w.hash(new2) && w.chunkOf(FileOf(w, filename, old1, declared)) != []
    ensures var s := Run(w, actions);
      ReadyAndStale(w, s, FileOf(w, filename, old1, declared), FileOf(w, filename, new2, declared))
      && s.documents[0].workspace == workspace && s.worker.Busy? && s.worker.pc.Finish? && s.worker.job == 0 && s.jobs[0].document == 0
  {
    actions := StaleRun(w, workspace, filename, old1, new2, declared);
    MarkedStale(w, Run(w, actions), FileOf(w, filename, old1, declared), FileOf(w, filename, new2, declared));
    RunOneMore(w, actions, Advance([], false));
    hide Run, Apply, Acceptable, FileOf, ReadyAndStale;
    actions := actions + [Advance([], false)];
  }

  // ---------------------------------------------------------------- a resumed run

  /** After a restart, the killed job is the oldest pending one. */
  ghost predicate Waits(w: World, s: State, idle: State) {
    && Inv(w, idle) && idle.worker.Idle? && idle.documents == s.documents && |idle.jobs| == 2 && |s.jobs| == 2
    && OldestPending(idle.jobs) == 0 && idle.jobs[0].document == 0 && idle.jobs[0].written > 0 && idle.jobs[1] == NewJob(0)
  }

  lemma RestartWaits(w: World, s: State, before: Source, now: Source)
    requires Inv(w, s) && EndsStale(w, s, before, now)
    ensures WellFormed(Apply(w, s, Crash)) && Waits(w, s, Apply(w, Apply(w, s, Crash), Restart))
  {
    StaleJobs(w, s, before, now);
    hide *;
    CrashThenRestart(w, s);
    ActionKeeps(w, s, Crash);
    ActionKeeps(w, Apply(w, s, Crash), Restart);
    BackInTheQueue(s.jobs);
    WaitsIs(w, s, Apply(w, Apply(w, s, Crash), Restart));
  }

  lemma CrashThenRestart(w: World, s: State)
    requires WellFormed(s)
    ensures WellFormed(Apply(w, s, Crash))
    ensures Apply(w, Apply(w, s, Crash), Restart) == s.(jobs := ReclaimAll(s.jobs, AllRunning(s.jobs)), worker := Idle)
  {
    hide ReclaimAll, AllRunning;
  }

  lemma StaleJobs(w: World, s: State, before: Source, now: Source)
    requires Inv(w, s) && EndsStale(w, s, before, now)
    ensures WellFormed(s) && |s.jobs| == 2 && s.jobs[1] == NewJob(0) && !s.jobs[0].Over() && s.jobs[0].document == 0 && s.jobs[0].written > 0
  {
    hide Stale, DocsGood, JobsGood, HashesDistinct, Agrees, Waiting, LastJob, ContentsOf;
  }

  lemma WaitsIs(w: World, s: State, idle: State)
    requires Inv(w, idle) && idle.worker.Idle? && idle.documents == s.documents && |idle.jobs| == 2 && |s.jobs| == 2
    requires OldestPending(idle.jobs) == 0 && idle.jobs[0].document == 0 && idle.jobs[0].written > 0 && idle.jobs[1] == NewJob(0)
    ensures Waits(w, s, idle)
  {
    hide Inv, OldestPending, NewJob;
  }

  lemma ClaimResumes(w: World, s: State, idle: State, before: Source, now: Source)
    requires EndsStale(w, s, before, now) && Waits(w, s, idle) && w.batchSize > 0
    ensures var claimed := ClaimedBy(idle);
      && Inv(w, claimed) && OnTrack(w, claimed) && claimed.worker.Busy? && claimed.worker.pc.Load?
      && Inv(w, Stepped(w, claimed, [], false)) && Resumed(w, Stepped(w, claimed, [], false), before, now)
      && Stepped(w, claimed, [], false).documents == s.documents
  {
    ClaimIsOnTrack(w, idle);
    var claimed := ClaimedBy(idle);
    assert claimed.documents == s.documents && claimed.worker == Busy(0, Load, Memo(idle.jobs[0].written, "", "", NO_SOURCE));
    assert |claimed.jobs| == 2 && claimed.jobs[0].document == 0 && claimed.jobs[1] == NewJob(0);
    hide Inv, OnTrack, Stale, OldestPending, ClaimedBy;
    QuietStep(w, claimed, 0);
    hide After, Beside;
    ResumedFrom(w, s, claimed, Stepped(w, claimed, [], false), before, now);
  }

  /** A killed run is back in the queue after a restart, ahead of the newer job, and is resumed at its embedding. */
  lemma Resumes(w: World, s: State, idle: State, before: Source, now: Source) returns (next: State, n: nat)
    requires EndsStale(w, s, before, now) && WellFormed(idle) && Waits(w, s, idle) && w.batchSize > 0
    ensures next == After(w, idle, Quiet(), 0, n) && Resumed(w, next, before, now) && next.documents == s.documents
  {
    n := 2;
    ClaimResumes(w, s, idle, before, now);
    var claimed := ClaimedBy(idle);
    next := Stepped(w, claimed, [], false);
    assert idle.worker.Idle?;
    hide Inv, OnTrack, EndsStale, Waits, Resumed, Stepped;
    QuietStep(w, claimed, 1);
    AfterIdle(w, idle, Quiet(), 0, 1);
    hide *;
  }

  lemma BackInTheQueue(jobs: seq<Job>)
    requires |jobs| == 2 && jobs[1] == NewJob(0) && !jobs[0].Over()
    ensures var again := ReclaimAll(jobs, AllRunning(jobs));
      && |again| == 2 && again[1] == jobs[1] && again[0].status.Pending? && again[0].document == jobs[0].document && again[0].written == jobs[0].written
      && OldestPending(again) == 0
  {
  }

  /** A run that has just skipped the stages before the embedding: it has read no file itself. */
  ghost predicate Resumed(w: World, s: State, before: Source, now: Source) {
    && Inv(w, s) && OnTrack(w, s) && s.worker.Busy? && s.worker.job == 0 && s.worker.pc == Note(EMBEDDING) && s.worker.memo.source == NO_SOURCE
    && |s.documents| == 1 && s.documents[0].File() == now && s.documents[0].hash == w.hash(now.data)
    && ContentsOf(s.documents[0].chunks) == w.chunkOf(before)
    && |s.jobs| == 2 && s.jobs[0].document == 0 && s.jobs[1] == NewJob(0)
  }

  lemma ResumedFrom(w: World, s: State, claimed: State, next: State, before: Source, now: Source)
    requires WellFormed(s) && EndsStale(w, s, before, now) && claimed.documents == s.documents && |claimed.jobs| == 2
    requires claimed.jobs[0].document == 0 && claimed.jobs[1] == NewJob(0) && claimed.worker.Busy? && claimed.worker.job == 0
    requires claimed.worker.pc.Load? && claimed.worker.memo.source == NO_SOURCE && claimed.worker.memo.written > 0
    requires WellFormed(claimed) && next == Stepped(w, claimed, [], false) && Inv(w, next) && OnTrack(w, next)
    ensures Resumed(w, next, before, now) && next.documents == s.documents
  {
    hide Inv, OnTrack, ContentsOf, AllEmbedded;
  }

  lemma ResumedEnd(w: World, s: State, t: State, before: Source, now: Source)
    requires WellFormed(s) && WellFormed(t) && Resumed(w, s, before, now) && AboutToBeReady(w, s, t) && w.batchSize > 0
    ensures EndsStale(w, t, before, now) && t.worker.memo.source == NO_SOURCE && t.documents[0].workspace == s.documents[0].workspace
  {
    assert RowGood(w, s.documents[0], s.jobs[LastJob(s.jobs, 0)]);
    assert RowGood(w, t.documents[0], t.jobs[LastJob(t.jobs, 0)]);
    assert BusyGood(w, t.documents[0], t.jobs[0], t.worker.pc, t.worker.memo);
    hide DocsGood, JobsGood, HashesDistinct, Agrees, Waiting, JobGood, LastJob, Orderly, ContentsOf, OnTrack;
  }

  lemma ResumeRun(w: World, killed: seq<Action>, before: Source, now: Source) returns (up: seq<Action>, next: State, n: nat)
    requires EndsStale(w, Run(w, killed), before, now) && w.batchSize > 0
    ensures next == After(w, Run(w, up), Quiet(), 0, n) && Resumed(w, next, before, now) && next.documents == Run(w, killed).documents
  {
    RunKeeps(w, killed);
    hide *;
    up := killed + [Crash] + [Restart];
    RunOneMore(w, killed, Crash);
    RunOneMore(w, killed + [Crash], Restart);
    RestartWaits(w, Run(w, killed), before, now);
    next, n := Resumes(w, Run(w, killed), Run(w, up), before, now);
  }

  lemma ResumedReaches(w: World, idle: State, next: State, k: nat, before: Source, now: Source) returns (n: nat)
    requires WellFormed(idle) && next == After(w, idle, Quiet(), 0, k) && Resumed(w, next, before, now) && w.batchSize > 0
    ensures EndsStaleResumed(w, After(w, idle, Quiet(), 0, n), before, now, next.documents[0].workspace)
  {
    hide After;
    n := ReachesSetReady(w, next, Quiet(), k);
    AfterAdds(w, idle, Quiet(), 0, k, n);
    hide AboutToBeReady, Resumed, EndsStale;
    ResumedEnd(w, next, After(w, next, Quiet(), k, n), before, now);
    n := k + n;
  }

  ghost predicate EndsStaleResumed(w: World, s: State, before: Source, now: Source, workspace: nat) {
    EndsStale(w, s, before, now) && s.worker.memo.source == NO_SOURCE && s.documents[0].workspace == workspace
  }

  /** A resumed run can end stale too: killed before it marks the document, the run that wrote the old file's chunks is
      resumed from its checkpoint after the restart, reads no file, and marks the document READY. */
  lemma ResumedCanBeStale(w: World, workspace: nat, filename: string, old1: Bytes, new2: Bytes, declared: string) returns (actions: seq<Action>)
    requires Acceptable(w, filename, old1, declared) && Acceptable(w, filename, new2, declared) && w.batchSize > 0
    requires w.hash(old1) != w.hash(new2) && w.chunkOf(FileOf(w, filename, old1, declared)) != []
    ensures var s := Run(w, actions);
      ReadyAndStale(w, s, FileOf(w, filename, old1, declared), FileOf(w, filename, new2, declared))
      && s.documents[0].workspace == workspace && s.worker.Busy? && s.worker.memo.source == NO_SOURCE
  {
    var before, now := FileOf(w, filename, old1, declared), FileOf(w, filename, new2, declared);
    var killed := StaleRun(w, workspace, filename, old1, new2, declared);
    var up, next, k := ResumeRun(w, killed, before, now);
    hide Run, After, Acceptable, Apply, Resumed, EndsStale, ReadyAndStale, FileOf;
    var n := ResumedReaches(w, Run(w, up), next, k, before, now);
    RunThenScript(w, up, Quiet(), 0, n);
    var script := up + Script(Quiet(), 0, n);
    RunOneMore(w, script, Advance([], false));
    MarkedStale(w, Run(w, script), before, now);
    actions := script + [Advance([], false)];
  }

  // ---------------------------------------------------------------- stale for good

  /** One attempt that raises on its first query and is handed back. */
  lemma AttemptFails(w: World, s: State, t: State)
    requires WellFormed(s) && s.worker.Idle? && |s.jobs| == 2 && s.jobs[0].Over() && s.jobs[1].status.Pending?
    requires t == Apply(w, Apply(w, Apply(w, s, Advance([], false)), Fail), Advance([], false))
    ensures t.documents == s.documents && t.jobs == s.jobs[1 := GiveBack(Take(s.jobs[1]), w.maxAttempts)]
    ensures t.worker.Busy? && t.worker.job == 1 && t.worker.pc.Check?
  {
  }

  lemma Checked(w: World, s: State)
    requires WellFormed(s) && s.worker.Busy? && s.worker.pc.Check? && s.jobs[s.worker.job].status.Pending?
    ensures Apply(w, s, Advance([], false)) == s.(worker := Idle)
  {
  }

  /** Every attempt of the waiting job fails, and the process is killed before it can say so on the document. */
  lemma {:induction false} GivesUp(w: World, actions: seq<Action>) returns (more: seq<Action>)
    requires var s := Run(w, actions); s.worker.Idle? && |s.jobs| == 2 && s.jobs[0].Over() && s.jobs[1].status.Pending?
    ensures var s, t := Run(w, actions), Run(w, more);
      && t.documents == s.documents && |t.jobs| == 2 && t.jobs[0] == s.jobs[0]
      && t.jobs[1].status.Failed? && t.jobs[1].written == s.jobs[1].written && t.jobs[1].document == s.jobs[1].document && AtRest(t)
    decreases w.maxAttempts - Run(w, actions).jobs[1].attempts
  {
    var step := Advance([], false);
    var s := Run(w, actions);
    var tried := actions + [step] + [Fail] + [step];
    RunOneMore(w, actions, step);
    RunOneMore(w, actions + [step], Fail);
    RunOneMore(w, actions + [step] + [Fail], step);
    AttemptFails(w, s, Run(w, tried));
    hide Run, Apply, AtRest;
    if s.jobs[1].attempts + 1 >= w.maxAttempts {
      RunOneMore(w, tried, Crash);
      Crashed(w, Run(w, tried));
      more := tried + [Crash];
    } else {
      RunOneMore(w, tried, step);
      Checked(w, Run(w, tried));
      more := GivesUp(w, tried + [step]);
    }
  }

  lemma Crashed(w: World, s: State)
    requires WellFormed(s)
    ensures Apply(w, s, Crash) == s.(worker := Down)
    ensures (forall j :: 0 <= j < |s.jobs| ==> s.jobs[j].Over()) ==> AtRest(Apply(w, s, Crash))
  {
  }

  /** A stale READY document can stay so: when the new file's job fails its last attempt and the process is killed before
      the document is marked FAILED, nothing is queued any more, no crash, restart or sweep wakes the site, and uploading
      the new bytes again is taken for a duplicate. */
  lemma StaleForGood(w: World, workspace: nat, filename: string, old1: Bytes, new2: Bytes, declared: string) returns (actions: seq<Action>)
    requires Acceptable(w, filename, old1, declared) && Acceptable(w, filename, new2, declared) && w.batchSize > 0
    requires w.hash(old1) != w.hash(new2) && w.chunkOf(FileOf(w, filename, old1, declared)) != []
    ensures var s := Run(w, actions);
      && Stale(w, s, FileOf(w, filename, old1, declared), FileOf(w, filename, new2, declared)) && s.documents[0].status == READY
      && AtRest(s) && Decide(w, s.documents, workspace, filename, new2, declared) == Duplicate(0)
    ensures forall more :: (forall a :: a in more ==> BringsNothing(w, Run(w, actions).documents, a)) ==>
      Run(w, actions + more).documents == Run(w, actions).documents
  {
    var marked := ReadyCanBeStale(w, workspace, filename, old1, new2, declared);
    var done := marked + [Advance([], false)];
    RunOneMore(w, marked, Advance([], false));
    FinishedFirst(w, Run(w, marked));
    hide Run, AtRest, Apply;
    actions := GivesUp(w, done);
    IdenticalIsFound(w, actions, 0, filename, new2, declared);
    forall more | forall a :: a in more ==> BringsNothing(w, Run(w, actions).documents, a)
      ensures Run(w, actions + more).documents == Run(w, actions).documents
    {
      RestIsForGood(w, actions, more);
    }
  }

  lemma FinishedFirst(w: World, s: State)
    requires WellFormed(s) && s.worker.Busy? && s.worker.pc.Finish? && s.worker.job == 0 && |s.jobs| == 2
    ensures var t := Apply(w, s, Advance([], false)); t.documents == s.documents && t.worker.Idle? && |t.jobs| == 2 && t.jobs[0].Over() && t.jobs[1] == s.jobs[1]
  {
  }

  /** The step that marks a document READY writes nothing else to it. */
  lemma MarkedReady(w: World, s: State, d: nat)
    requires WellFormed(s) && s.worker.Busy? && s.worker.pc.SetReady? && s.jobs[s.worker.job].document == d
    ensures Apply(w, s, Advance([], false)).documents == s.documents[d := s.documents[d].(status := READY, indexed := true)]
    ensures Apply(w, s, Advance([], false)).jobs == s.jobs && Apply(w, s, Advance([], false)).worker == s.worker.(pc := Pc.Finish)
  {
  }

  /** Two documents can come to share a file name: upload A, upload B, then upload A's bytes under B's name
      before A is READY. From then on a new version under that name is refused. */
  lemma NamesCanCollide(w: World, workspace: nat, nameA: string, nameB: string, a: Bytes, b: Bytes, c: Bytes, declared: string) returns (actions: seq<Action>)
    requires Acceptable(w, nameA, a, declared) && Acceptable(w, nameB, b, declared) && Acceptable(w, nameB, a, declared) && Acceptable(w, nameB, c, declared)
    requires nameA != nameB && w.hash(a) != w.hash(b) && w.hash(c) != w.hash(a) && w.hash(c) != w.hash(b)
    ensures var s := Run(w, actions);
      && !NamesDistinct(s.documents)
      && Decide(w, s.documents, workspace, nameB, c, declared) == Ambiguous
  {
    var first, second, third := Upload(workspace, nameA, a, declared), Upload(workspace, nameB, b, declared), Upload(workspace, nameB, a, declared);
    var rowA, rowB, renamed := FirstRow(w, workspace, nameA, a, declared), FirstRow(w, workspace, nameB, b, declared), FirstRow(w, workspace, nameB, a, declared);
    FirstRows(w, workspace, nameA, a, declared);
    FirstRows(w, workspace, nameB, a, declared);
    FirstRows(w, workspace, nameB, b, declared);
    hide *;
    FirstUpload(w, workspace, nameA, a, declared);
    RunOneMore(w, [first], second);
    RunOneMore(w, [first] + [second], third);
    actions := [first] + [second] + [third];
    SecondUpload(w, workspace, rowA, nameB, b, declared);
    ThirdUpload(w, workspace, rowA, rowB, nameB, a, declared);
    NameIsTaken(w, workspace, renamed, rowB, nameB, c, declared);
    NamesCollide(renamed, rowB);
  }

  lemma FirstRows(w: World, workspace: nat, filename: string, data: Bytes, declared: string)
    requires Acceptable(w, filename, data, declared)
    ensures FirstRow(w, workspace, filename, data, declared)
         == DocumentRow(workspace, filename, w.mimeOf(data, filename, declared).value, w.hash(data), 1, PENDING, false, data, [], None)
  {
  }

  lemma NamesCollide(a: DocumentRow, b: DocumentRow)
    requires a.workspace == b.workspace && a.filename == b.filename
    ensures !NamesDistinct([a, b])
  {
    var documents := [a, b];
    assert documents[0].filename == documents[1].filename && documents[0].workspace == documents[1].workspace;
  }

  /** An upload of other bytes under another name. */
  lemma SecondUpload(w: World, workspace: nat, row: DocumentRow, filename: string, data: Bytes, declared: string)
    requires Acceptable(w, filename, data, declared) && row.hash != w.hash(data) && row.filename != filename
    ensures var s := State([row], [NewJob(0)], 0, Down);
      && WellFormed(s)
      && Apply(w, s, Upload(workspace, filename, data, declared))
         == State([row, FirstRow(w, workspace, filename, data, declared)], [NewJob(0), NewJob(1)], 0, Down)
  {
    SecondIsCreated(w, workspace, row, filename, data, declared);
    hide Decide;
  }

  /** An upload of the bytes of an unfinished document. */
  lemma ThirdUpload(w: World, workspace: nat, row: DocumentRow, other: DocumentRow, filename: string, data: Bytes, declared: string)
    requires Acceptable(w, filename, data, declared) && row.workspace == workspace && row.hash == w.hash(data) && other.hash != w.hash(data)
    requires row.status == PENDING && row.version == 1
    ensures var s := State([row, other], [NewJob(0), NewJob(1)], 0, Down);
      && WellFormed(s)
      && Apply(w, s, Upload(workspace, filename, data, declared)).documents == [FirstRow(w, workspace, filename, data, declared), other]
  {
    FirstIsRetried(w, workspace, row, other, filename, data, declared);
    hide Decide;
  }

  lemma SecondIsCreated(w: World, workspace: nat, row: DocumentRow, filename: string, data: Bytes, declared: string)
    requires Acceptable(w, filename, data, declared) && row.hash != w.hash(data) && row.filename != filename
    ensures Decide(w, [row], workspace, filename, data, declared) == Create
  {
    SelectOne(row, (r: DocumentRow) => r.workspace == workspace && r.hash == w.hash(data));
    SelectOne(row, (r: DocumentRow) => r.workspace == workspace && r.filename == filename);
    hide Select;
  }

  lemma FirstIsRetried(w: World, workspace: nat, row: DocumentRow, other: DocumentRow, filename: string, data: Bytes, declared: string)
    requires Acceptable(w, filename, data, declared) && row.workspace == workspace && row.hash == w.hash(data) && other.hash != w.hash(data) && row.status == PENDING
    ensures Decide(w, [row, other], workspace, filename, data, declared) == Retry(0)
  {
    SelectTwo(row, other, (r: DocumentRow) => r.workspace == workspace && r.hash == w.hash(data));
    hide Select;
  }

  lemma NameIsTaken(w: World, workspace: nat, row: DocumentRow, other: DocumentRow, filename: string, data: Bytes, declared: string)
    requires Acceptable(w, filename, data, declared) && row.hash != w.hash(data) && other.hash != w.hash(data)
    requires row.workspace == other.workspace == workspace && row.filename == other.filename == filename
    ensures Decide(w, [row, other], workspace, filename, data, declared) == Ambiguous
  {
    SelectTwo(row, other, (r: DocumentRow) => r.workspace == workspace && r.hash == w.hash(data));
    SelectTwo(row, other, (r: DocumentRow) => r.workspace == workspace && r.filename == filename);
    hide Select;
  }

  lemma SelectOne(row: DocumentRow, p: DocumentRow -> bool)
    ensures Select([row], p) == if p(row) then [0] else []
  {
  }

  lemma SelectTwo(row: DocumentRow, more: DocumentRow, p: DocumentRow -> bool)
    ensures Select([row, more], p) == (if p(row) then [0] else []) + if p(more) then [1] else []
  {
    assert [row, more][..1] == [row];
    SelectOne(row, p);
  }
}

/** What every run of the ingestion protocol keeps, whatever is uploaded, reindexed, killed or retried. */
module Freshness {
  import opened Blocks
  import opened Queue
  import opened Embedding
  import opened Ingestion

  /** The last-enqueued job of a document, or -1. */
  function LastJob(jobs: seq<Job>, d: nat): (j: int)
    ensures -1 <= j < |jobs| && (j >= 0 ==> jobs[j].document == d)
    ensures forall k :: j < k < |jobs| ==> jobs[k].document != d
  {
    if jobs == [] then -1
    else if jobs[|jobs| - 1].document == d then |jobs| - 1
    else LastJob(jobs[..|jobs| - 1], d)
  }

  /** The chunks are those of the current file. */
  ghost predicate Fresh(w: World, row: DocumentRow) {
    ContentsOf(row.chunks) == w.chunkOf(row.File())
  }

  /** The chunks of the file a row's chunks were written from. */
  function Written(w: World, row: DocumentRow): seq<string> {
    match row.origin
    case None => []
    case Some(file) => w.chunkOf(file)
  }

  /** The job has written its chunks. */
  predicate Done(job: Job) {
    job.written > 0 || job.status.Succeeded?
  }

  /** A document against its last-enqueued job. */
  ghost predicate RowGood(w: World, row: DocumentRow, last: Job) {
    && row.hash == w.hash(row.stored)
    && Orderly(row.chunks, w.vectorOf) && ContentsOf(row.chunks) == Written(w, row)
    && (row.status == READY && w.batchSize != 0 ==> AllEmbedded(row.chunks))
    && (row.status == READY ==> row.indexed)
    && (Done(last) ==> Fresh(w, row))
  }

  ghost predicate DocsGood(w: World, documents: seq<DocumentRow>, jobs: seq<Job>) {
    forall d :: 0 <= d < |documents| ==> LastJob(jobs, d) >= 0 && RowGood(w, documents[d], jobs[LastJob(jobs, d)])
  }

  /** No workspace holds the same bytes' hash twice. */
  ghost predicate HashesDistinct(documents: seq<DocumentRow>) {
    forall i, k :: 0 <= i < k < |documents| && documents[i].workspace == documents[k].workspace ==> documents[i].hash != documents[k].hash
  }

  /** Attempts are paid for by releases and reclaims, and the attempt limit binds all but reclaimed jobs. */
  ghost predicate JobGood(w: World, job: Job) {
    && job.attempts <= job.releases + job.reclaims + (if job.status.Pending? then 0 else 1)
    && job.attempts <= Max(1, w.maxAttempts) + job.reclaims - (if job.status.Pending? then 1 else 0)
    && (job.status.Failed? ==> job.attempts >= w.maxAttempts)
    && (job.status.Succeeded? ==> job.stage == READY) && (job.status.Failed? ==> job.stage == FAILED)
    && (job.attempts == 0 ==> job.stage == PENDING && job.written == 0)
  }

  ghost predicate JobsGood(w: World, jobs: seq<Job>) {
    forall j :: 0 <= j < |jobs| ==> JobGood(w, jobs[j])
  }

  /** Before the bytes are read, between that and the write, and after the write. */
  predicate Opening(pc: Pc) {
    pc == Note(PARSING) || pc == Mark(PARSING) || pc.ReadFile?
  }

  predicate Building(pc: Pc) {
    pc.PageCount? || pc.Write? || ((pc.Note? || pc.Mark?) && (pc.stage.PROFILING? || pc.stage.CHUNKING?))
  }

  predicate Filling(pc: Pc) {
    pc == Note(EMBEDDING) || pc == Mark(EMBEDDING) || pc.Count? || pc.Fetch? || pc.Commit? || pc.Report? || pc.SetReady? || pc.Finish?
  }

  predicate Failing(pc: Pc) {
    pc.Release? || pc.Check? || pc.MarkFailed?
  }

  /** The stage a job shows while the worker is at `pc`; None where it may show any. */
  ghost function Noted(pc: Pc): Option<DocumentStatus> {
    match pc
    case Mark(stage) => Some(stage)
    case Note(stage) => if stage == PROFILING then Some(PARSING) else if stage == CHUNKING then Some(PROFILING) else None
    case ReadFile => Some(PARSING)
    case PageCount => Some(PARSING)
    case Write => Some(CHUNKING)
    case _ => if pc.Count? || pc.Fetch? || pc.Commit? || pc.Report? || pc.SetReady? || pc.Finish? then Some(EMBEDDING) else None
  }

  /** The status its document shows, which follows one transaction later. */
  ghost function Shown(pc: Pc): Option<DocumentStatus> {
    match pc
    case Mark(stage) => if stage == PROFILING then Some(PARSING) else if stage == CHUNKING then Some(PROFILING) else None
    case Finish => Some(READY)
    case _ => Noted(pc)
  }

  /** The worker's locals describe the document as it is now. */
  ghost predicate Agrees(w: World, row: DocumentRow, pc: Pc, memo: Memo) {
    && (pc.Load? && memo.written > 0 ==> Fresh(w, row))
    && (Opening(pc) ==> memo.mime == row.mime && memo.filename == row.filename)
    && (Building(pc) ==> memo.source == row.File())
    && (Filling(pc) ==> Fresh(w, row))
    && (Shown(pc).Some? ==> row.status == Shown(pc).value)
  }

  /** A newer job of the document still has everything to do. */
  ghost predicate Waiting(jobs: seq<Job>, d: nat, j: nat) {
    LastJob(jobs, d) >= 0 && LastJob(jobs, d) != j && !Done(jobs[LastJob(jobs, d)])
  }

  ghost predicate BusyGood(w: World, row: DocumentRow, job: Job, pc: Pc, memo: Memo) {
    && (pc.Load? || Opening(pc) || Building(pc) || Filling(pc) || Failing(pc))
    && !job.status.Succeeded? && (job.status.Failed? ==> pc.Check? || pc.MarkFailed?)
    && (Opening(pc) || Building(pc) ==> memo.written == 0)
    && (pc.ReadFile? || Building(pc) ==> row.status != READY)
    && (Filling(pc) ==> memo.written > 0)
    && (pc.SetReady? && w.batchSize != 0 ==> AllEmbedded(row.chunks))
    && (pc.Load? ==> memo.source == NO_SOURCE)
    && (Filling(pc) && !pc.Note? ==> job.written == memo.written)
    && job.attempts > 0 && (Noted(pc).Some? ==> job.stage == Noted(pc).value)
    && (Filling(pc) && memo.source != NO_SOURCE ==> row.origin.None? || row.origin == Some(memo.source))
    && (pc.Commit? ==> pc.batch != [] && (row.chunks == [] || (w.batchSize >= 0 && pc.batch == NextBatch(row.chunks, w.batchSize))))
  }

  ghost predicate WorkerGood(w: World, s: State)
    requires WellFormed(s)
  {
    s.worker.Busy? ==>
      var Busy(j, pc, memo) := s.worker;
      var d := s.jobs[j].document;
      && BusyGood(w, s.documents[d], s.jobs[j], pc, memo)
      && (Agrees(w, s.documents[d], pc, memo) || Waiting(s.jobs, d, j))
  }

  ghost predicate Inv(w: World, s: State) {
    && WellFormed(s)
    && DocsGood(w, s.documents, s.jobs)
    && JobsGood(w, s.jobs)
    && HashesDistinct(s.documents)
    && WorkerGood(w, s)
  }

  // ---------------------------------------------------------------- one step of the worker

  lemma SameLastJob(jobs: seq<Job>, more: seq<Job>, d: nat)
    requires |jobs| == |more| && forall j :: 0 <= j < |jobs| ==> more[j].document == jobs[j].document
    ensures LastJob(more, d) == LastJob(jobs, d)
  {
    var a, b := LastJob(jobs, d), LastJob(more, d);
    assert a >= 0 ==> more[a].document == d;
    assert b >= 0 ==> jobs[b].document == d;
  }

  /** Changing one document and one of its jobs only concerns that document. */
  lemma UpdateKeeps(w: World, s: State, j: nat, row: DocumentRow, job: Job)
    requires WellFormed(s) && DocsGood(w, s.documents, s.jobs) && JobsGood(w, s.jobs) && HashesDistinct(s.documents)
    requires j < |s.jobs| && job.document == s.jobs[j].document && JobGood(w, job)
    requires row.workspace == s.documents[job.document].workspace && row.hash == s.documents[job.document].hash
    requires var last := LastJob(s.jobs, job.document); RowGood(w, row, if last == j then job else s.jobs[last])
    ensures var documents, jobs := s.documents[job.document := row], s.jobs[j := job];
      && DocsGood(w, documents, jobs) && JobsGood(w, jobs) && HashesDistinct(documents)
      && forall k: nat :: LastJob(jobs, k) == LastJob(s.jobs, k)
  {
    hide RowGood, JobGood;
    var jobs := s.jobs[j := job];
    forall k: nat ensures LastJob(jobs, k) == LastJob(s.jobs, k) {
      SameLastJob(s.jobs, jobs, k);
    }
    hide LastJob;
  }

  /** A step of the busy worker changed the document to `row` and the job to `job`, and left both good. */
  ghost predicate GoodStep(w: World, s: State, s': State, row: DocumentRow, job: Job)
    requires WellFormed(s) && s.worker.Busy?
  {
    var j := s.worker.job;
    var d := s.jobs[j].document;
    var last := LastJob(s.jobs, d);
    && s'.documents == s.documents[d := row] && s'.jobs == s.jobs[j := job]
    && job.document == d && row.workspace == s.documents[d].workspace && row.hash == s.documents[d].hash
    && JobGood(w, job)
    && last >= 0 && RowGood(w, row, if last == j then job else s.jobs[last])
    && (s'.worker.Busy? ==> s'.worker.job == j && BusyGood(w, row, job, s'.worker.pc, s'.worker.memo))
    && (s'.worker.Busy? && Agrees(w, s.documents[d], s.worker.pc, s.worker.memo) ==> Agrees(w, row, s'.worker.pc, s'.worker.memo))
  }

  function RowAfter(w: World, s: State, headers: seq<string>, paged: bool): DocumentRow
    requires WellFormed(s) && s.worker.Busy?
  {
    Stepped(w, s, headers, paged).documents[s.jobs[s.worker.job].document]
  }

  function JobAfter(w: World, s: State, headers: seq<string>, paged: bool): Job
    requires WellFormed(s) && s.worker.Busy?
  {
    Stepped(w, s, headers, paged).jobs[s.worker.job]
  }

  /** The steps that report progress on the job. */
  lemma ProgressSteps(w: World, s: State, headers: seq<string>, paged: bool)
    requires Inv(w, s) && s.worker.Busy? && (s.worker.pc.Note? || s.worker.pc.Report?)
    ensures GoodStep(w, s, Stepped(w, s, headers, paged), RowAfter(w, s, headers, paged), JobAfter(w, s, headers, paged))
  {
    hide LastJob, Orderly, NextBatch, Filled, Vectors, FreshRows, Fresh, AllEmbedded, HashesDistinct;
  }

  /** The steps that close the job or give it back. */
  lemma ClosingSteps(w: World, s: State, headers: seq<string>, paged: bool)
    requires Inv(w, s) && s.worker.Busy? && (s.worker.pc.Finish? || s.worker.pc.Release?)
    ensures GoodStep(w, s, Stepped(w, s, headers, paged), RowAfter(w, s, headers, paged), JobAfter(w, s, headers, paged))
  {
    hide LastJob, Orderly, NextBatch, Filled, Vectors, FreshRows, Fresh, AllEmbedded, HashesDistinct;
  }

  /** The steps that show the stage in the document. */
  lemma MarkSteps(w: World, s: State, headers: seq<string>, paged: bool)
    requires Inv(w, s) && s.worker.Busy? && (s.worker.pc.Mark? || s.worker.pc.PageCount?)
    ensures GoodStep(w, s, Stepped(w, s, headers, paged), RowAfter(w, s, headers, paged), JobAfter(w, s, headers, paged))
  {
    hide LastJob, Orderly, NextBatch, Filled, Vectors, FreshRows, AllEmbedded, HashesDistinct, JobGood;
  }

  /** The steps that show the end in the document. */
  lemma EndSteps(w: World, s: State, headers: seq<string>, paged: bool)
    requires Inv(w, s) && s.worker.Busy? && (s.worker.pc.SetReady? || s.worker.pc.MarkFailed?)
    ensures GoodStep(w, s, Stepped(w, s, headers, paged), RowAfter(w, s, headers, paged), JobAfter(w, s, headers, paged))
  {
    hide LastJob, Orderly, NextBatch, Filled, Vectors, FreshRows, AllEmbedded, HashesDistinct, JobGood;
  }

  /** The steps that only move the worker. */
  lemma ReadSteps(w: World, s: State, headers: seq<string>, paged: bool)
    requires Inv(w, s) && s.worker.Busy?
    requires var pc := s.worker.pc; pc.Load? || pc.ReadFile? || pc.Check?
    ensures GoodStep(w, s, Stepped(w, s, headers, paged), RowAfter(w, s, headers, paged), JobAfter(w, s, headers, paged))
  {
    hide LastJob, Orderly, NextBatch, Filled, Vectors, FreshRows, Fresh, AllEmbedded, HashesDistinct, JobGood;
  }

  /** Counting the missing vectors. */
  lemma CountStep(w: World, s: State, headers: seq<string>, paged: bool)
    requires Inv(w, s) && s.worker.Busy? && s.worker.pc.Count?
    ensures GoodStep(w, s, Stepped(w, s, headers, paged), RowAfter(w, s, headers, paged), JobAfter(w, s, headers, paged))
  {
    EmptyBatchMeansDone(s.documents[s.jobs[s.worker.job].document].chunks, 1, w.vectorOf);
    hide LastJob, Orderly, NextBatch, Filled, Vectors, FreshRows, Fresh, AllEmbedded, HashesDistinct, JobGood;
  }

  /** Looking for the next batch. With batch size 0 the search finds nothing and the loop ends at once. */
  lemma FetchStep(w: World, s: State, headers: seq<string>, paged: bool)
    requires Inv(w, s) && s.worker.Busy? && s.worker.pc.Fetch?
    ensures GoodStep(w, s, Stepped(w, s, headers, paged), RowAfter(w, s, headers, paged), JobAfter(w, s, headers, paged))
  {
    if w.batchSize > 0 { EmptyBatchMeansDone(s.documents[s.jobs[s.worker.job].document].chunks, w.batchSize, w.vectorOf); }
    hide LastJob, Orderly, NextBatch, Filled, Vectors, FreshRows, Fresh, AllEmbedded, HashesDistinct, JobGood;
  }

  /** The old chunks are replaced. */
  lemma WriteStep(w: World, s: State, headers: seq<string>, paged: bool)
    requires Inv(w, s) && s.worker.Busy? && s.worker.pc.Write?
    ensures GoodStep(w, s, Stepped(w, s, headers, paged), RowAfter(w, s, headers, paged), JobAfter(w, s, headers, paged))
  {
    FreshRowsAreOrderly(w.chunkOf(s.worker.memo.source), headers, s.serial, w.vectorOf);
    hide LastJob, Orderly, NextBatch, Filled, Vectors, FreshRows, AllEmbedded, ContentsOf, HashesDistinct, JobGood;
  }

  /** One batch of vectors is stored. */
  lemma CommitStep(w: World, s: State, headers: seq<string>, paged: bool)
    requires Inv(w, s) && s.worker.Busy? && s.worker.pc.Commit?
    ensures GoodStep(w, s, Stepped(w, s, headers, paged), RowAfter(w, s, headers, paged), JobAfter(w, s, headers, paged))
  {
    CommitKeeps(s.documents[s.jobs[s.worker.job].document].chunks, s.worker.pc.batch, w);
    hide LastJob, Orderly, NextBatch, Filled, Vectors, FreshRows, AllEmbedded, ContentsOf, HashesDistinct, JobGood;
  }

  lemma FreshRowsAreOrderly(contents: seq<string>, headers: seq<string>, serial: nat, vectorOf: string -> Vector)
    ensures Orderly(FreshRows(contents, headers, serial), vectorOf)
    ensures ContentsOf(FreshRows(contents, headers, serial)) == contents
  {
  }

  lemma CommitKeeps(rows: seq<ChunkRow>, batch: seq<ChunkRow>, w: World)
    requires Orderly(rows, w.vectorOf)
    requires rows == [] || (w.batchSize >= 0 && batch == NextBatch(rows, w.batchSize))
    ensures var more := Filled(rows, batch, w.vectorOf);
      && Orderly(more, w.vectorOf) && ContentsOf(more) == ContentsOf(rows) && Keeps(rows, more)
      && (AllEmbedded(rows) ==> AllEmbedded(more))
  {
    if rows != [] {
      CommitExtendsPrefix(rows, w.batchSize, w.vectorOf);
    }
  }

  lemma WorkerStepKeeps(w: World, s: State, headers: seq<string>, paged: bool)
    requires Inv(w, s) && s.worker.Busy?
    ensures Inv(w, Stepped(w, s, headers, paged))
  {
    var pc := s.worker.pc;
    var s', row, job := Stepped(w, s, headers, paged), RowAfter(w, s, headers, paged), JobAfter(w, s, headers, paged);
    if pc.Note? || pc.Report? { ProgressSteps(w, s, headers, paged); }
    else if pc.Finish? || pc.Release? { ClosingSteps(w, s, headers, paged); }
    else if pc.Mark? || pc.PageCount? { MarkSteps(w, s, headers, paged); }
    else if pc.SetReady? || pc.MarkFailed? { EndSteps(w, s, headers, paged); }
    else if pc.Write? { WriteStep(w, s, headers, paged); }
    else if pc.Commit? { CommitStep(w, s, headers, paged); }
    else if pc.Count? { CountStep(w, s, headers, paged); }
    else if pc.Fetch? { FetchStep(w, s, headers, paged); }
    else { ReadSteps(w, s, headers, paged); }
    SteppedStaysWellFormed(w, s, headers, paged);
    hide Stepped, RowAfter, JobAfter, RowGood, JobGood, BusyGood, Agrees, Done;
    UpdateKeeps(w, s, s.worker.job, row, job);
    hide DocsGood, JobsGood, HashesDistinct;
  }

  // ---------------------------------------------------------------- the other actions

  lemma ClaimKeeps(w: World, s: State)
    requires Inv(w, s) && s.worker.Idle?
    ensures Inv(w, ClaimedBy(s))
  {
    hide HashesDistinct, LastJob, Orderly, AllEmbedded, Fresh;
    var j := OldestPending(s.jobs);
    if j < |s.jobs| {
      var job, d := s.jobs[j], s.jobs[j].document;
      assert JobGood(w, Take(job));
      UpdateKeeps(w, s, j, s.documents[d], Take(job));
      assert s.documents[d := s.documents[d]] == s.documents;
    }
  }

  /** What reclaiming leaves of a job. */
  predicate SameWork(job: Job, job': Job) {
    job'.document == job.document && job'.written == job.written && job'.stage == job.stage && job'.attempts == job.attempts && (job'.status.Succeeded? <==> job.status.Succeeded?)
    && (job'.status.Failed? <==> job.status.Failed?)
  }

  lemma ReclaimedJobs(w: World, jobs: seq<Job>, stalled: set<nat>)
    requires JobsGood(w, jobs)
    ensures var more := ReclaimAll(jobs, stalled);
      |more| == |jobs| && JobsGood(w, more) && forall j :: 0 <= j < |jobs| ==> SameWork(jobs[j], more[j])
  {
  }

  lemma ReclaimedDocs(w: World, documents: seq<DocumentRow>, jobs: seq<Job>, more: seq<Job>)
    requires DocsGood(w, documents, jobs) && |more| == |jobs| && forall j :: 0 <= j < |jobs| ==> SameWork(jobs[j], more[j])
    ensures DocsGood(w, documents, more) && forall d: nat :: LastJob(more, d) == LastJob(jobs, d)
  {
    forall d: nat ensures LastJob(more, d) == LastJob(jobs, d) {
      SameLastJob(jobs, more, d);
    }
    hide LastJob, Orderly, AllEmbedded, Fresh, ContentsOf, Written;
  }

  lemma ReclaimedWorker(w: World, s: State, s': State)
    requires WellFormed(s) && WorkerGood(w, s) && WellFormed(s') && s'.documents == s.documents && |s'.jobs| == |s.jobs|
    requires (s'.worker == s.worker || s'.worker.Idle?) && forall j :: 0 <= j < |s.jobs| ==> SameWork(s.jobs[j], s'.jobs[j])
    requires forall d: nat :: LastJob(s'.jobs, d) == LastJob(s.jobs, d)
    ensures WorkerGood(w, s')
  {
    hide LastJob, AllEmbedded, Fresh, Agrees, Building, Opening, Filling, NextBatch;
  }

  /** Reclaiming changes no document, no checkpoint and no success. */
  lemma ReclaimKeeps(w: World, s: State, stalled: set<nat>, worker: Worker)
    requires Inv(w, s) && (worker == s.worker || worker.Idle?)
    ensures Inv(w, s.(jobs := ReclaimAll(s.jobs, stalled), worker := worker))
  {
    ReclaimedJobs(w, s.jobs, stalled);
    hide DocsGood, JobsGood, HashesDistinct, WorkerGood, ReclaimAll;
    ReclaimedDocs(w, s.documents, s.jobs, ReclaimAll(s.jobs, stalled));
    ReclaimedWorker(w, s, s.(jobs := ReclaimAll(s.jobs, stalled), worker := worker));
  }

  lemma LastAfterEnqueue(jobs: seq<Job>, d: nat, k: nat)
    ensures LastJob(jobs + [NewJob(d)], k) == if k == d then |jobs| else LastJob(jobs, k)
  {
    assert (jobs + [NewJob(d)])[..|jobs|] == jobs;
  }

  /** The documents after an upload was accepted for `d`, new or old. */
  function Put(documents: seq<DocumentRow>, d: nat, row: DocumentRow): seq<DocumentRow>
    requires d <= |documents|
  {
    if d < |documents| then documents[d := row] else documents + [row]
  }

  /** What an accepted upload writes. */
  ghost predicate Clean(w: World, row: DocumentRow) {
    row.hash == w.hash(row.stored) && row.chunks == [] && row.origin.None? && row.status == PENDING
  }

  lemma AcceptKeepsDocs(w: World, documents: seq<DocumentRow>, jobs: seq<Job>, d: nat, row: DocumentRow)
    requires DocsGood(w, documents, jobs) && d <= |documents| && Clean(w, row)
    ensures DocsGood(w, Put(documents, d, row), jobs + [NewJob(d)])
  {
    forall k: nat ensures LastJob(jobs + [NewJob(d)], k) == if k == d then |jobs| else LastJob(jobs, k) {
      LastAfterEnqueue(jobs, d, k);
    }
    assert RowGood(w, row, NewJob(d));
    hide LastJob, RowGood, Clean;
  }

  lemma AcceptKeepsWorker(w: World, s: State, d: nat, row: DocumentRow)
    requires Inv(w, s) && d <= |s.documents| && Clean(w, row)
    requires WellFormed(s.(documents := Put(s.documents, d, row), jobs := s.jobs + [NewJob(d)]))
    ensures WorkerGood(w, s.(documents := Put(s.documents, d, row), jobs := s.jobs + [NewJob(d)]))
  {
    if s.worker.Busy? {
      LastAfterEnqueue(s.jobs, d, s.jobs[s.worker.job].document);
      hide LastJob, DocsGood, JobsGood, HashesDistinct, Agrees, NextBatch, Filling, Building, Opening, Failing;
    }
  }

  /** An accepted upload gives `d` a clean row and a new job. A run under way on the old version is left
      behind: its document has a newer job waiting. */
  lemma AcceptKeeps(w: World, s: State, d: nat, row: DocumentRow)
    requires Inv(w, s) && d <= |s.documents| && Clean(w, row)
    requires forall i :: 0 <= i < |s.documents| && i != d && s.documents[i].workspace == row.workspace ==> s.documents[i].hash != row.hash
    ensures Inv(w, s.(documents := Put(s.documents, d, row), jobs := s.jobs + [NewJob(d)]))
  {
    AcceptKeepsDocs(w, s.documents, s.jobs, d, row);
    assert WellFormed(s.(documents := Put(s.documents, d, row), jobs := s.jobs + [NewJob(d)]));
    AcceptKeepsWorker(w, s, d, row);
    assert JobGood(w, NewJob(d));
    hide DocsGood, WorkerGood, JobGood, Clean;
  }

  /** No document but the one decided on has the uploaded bytes' hash. */
  lemma DecidedAlone(w: World, documents: seq<DocumentRow>, workspace: nat, filename: string, data: Bytes, declared: string)
    ensures var decision, hash := Decide(w, documents, workspace, filename, data, declared), w.hash(data);
      && (decision.Retry? || decision.Supersede? ==> documents[decision.document].workspace == workspace)
      && (decision.Retry? || decision.Supersede? || decision.Create? ==>
            forall i :: 0 <= i < |documents| && documents[i].workspace == workspace && (decision.Create? || i != decision.document) ==> documents[i].hash != hash)
  {
    var same, named := WithHash(documents, workspace, w.hash(data)), WithName(documents, workspace, filename);
    assert forall i :: 0 <= i < |documents| && documents[i].workspace == workspace && documents[i].hash == w.hash(data) ==> i in same;
    assert |same| > 0 ==> documents[same[0]].workspace == workspace;
    assert |named| > 0 ==> documents[named[0]].workspace == workspace;
    hide Select, WithHash, WithName;
  }

  lemma UploadKeeps(w: World, s: State, workspace: nat, filename: string, data: Bytes, declared: string)
    requires Inv(w, s)
    ensures Inv(w, Uploaded(w, s, workspace, filename, data, declared))
  {
    var decision := Decide(w, s.documents, workspace, filename, data, declared);
    DecidedAlone(w, s.documents, workspace, filename, data, declared);
    hide Inv, Decide;
    match decision
    case Retry(d) =>
      var row := Accepted(w, s.documents[d], s.documents[d].version, filename, w.mimeOf(data, filename, declared).value, data);
      AcceptKeeps(w, s, d, row);
    case Supersede(d) =>
      var row := Accepted(w, s.documents[d], s.documents[d].version + 1, filename, w.mimeOf(data, filename, declared).value, data);
      AcceptKeeps(w, s, d, row);
    case Create =>
      var row := DocumentRow(workspace, filename, w.mimeOf(data, filename, declared).value, w.hash(data), 1, PENDING, false, data, [], None);
      AcceptKeeps(w, s, |s.documents|, row);
    case _ =>
  }

  lemma {:induction false} LastOfConcat(jobs: seq<Job>, more: seq<Job>, d: nat)
    ensures LastJob(jobs + more, d) == if LastJob(more, d) >= 0 then |jobs| + LastJob(more, d) else LastJob(jobs, d)
  {
    if more == [] {
      assert jobs + more == jobs;
    } else {
      var n := |more| - 1;
      assert (jobs + more)[..|jobs| + n] == jobs + more[..n];
      LastOfConcat(jobs, more[..n], d);
    }
  }

  /** A new job for one of the first `n` documents. */
  predicate IsNew(job: Job, n: nat) {
    job.document < n && job == NewJob(job.document)
  }

  lemma {:induction false} RequeuedJobsAreNew(documents: seq<DocumentRow>, workspace: nat)
    ensures forall j :: 0 <= j < |RequeuedJobs(documents, workspace)| ==> IsNew(RequeuedJobs(documents, workspace)[j], |documents|)
  {
    if documents != [] {
      var n := |documents| - 1;
      RequeuedJobsAreNew(documents[..n], workspace);
      var before, more := RequeuedJobs(documents[..n], workspace), RequeuedJobs(documents, workspace);
      assert more == before || more == before + [NewJob(n)];
      forall j | 0 <= j < |more| ensures IsNew(more[j], n + 1) {
        if j < |before| { assert more[j] == before[j] && IsNew(before[j], n); }
      }
    }
  }

  /** A reindex enqueues a new job for each document of the workspace, and none for the others. */
  lemma {:induction false} RequeuedJobsMatch(documents: seq<DocumentRow>, workspace: nat, d: nat)
    requires d < |documents|
    ensures documents[d].workspace == workspace <==> LastJob(RequeuedJobs(documents, workspace), d) >= 0
  {
    var n := |documents| - 1;
    var before := RequeuedJobs(documents[..n], workspace);
    LastAfterEnqueue(before, n, d);
    assert before + [] == before;
    if d < n {
      RequeuedJobsMatch(documents[..n], workspace, d);
    } else {
      RequeuedJobsAreNew(documents[..n], workspace);
      var last := LastJob(before, n);
      assert last >= 0 ==> IsNew(before[last], n);
    }
  }

  /** After a reindex each document either has a new last job and is PENDING, or keeps its last job and its row. */
  lemma LastAfterRequeue(documents: seq<DocumentRow>, jobs: seq<Job>, workspace: nat, d: nat)
    requires d < |documents|
    ensures var more := jobs + RequeuedJobs(documents, workspace);
      if documents[d].workspace == workspace
      then LastJob(more, d) >= |jobs| && more[LastJob(more, d)] == NewJob(d)
      else LastJob(more, d) == LastJob(jobs, d) && (LastJob(jobs, d) >= 0 ==> more[LastJob(more, d)] == jobs[LastJob(jobs, d)])
  {
    RequeuedJobsMatch(documents, workspace, d);
    RequeuedJobsAreNew(documents, workspace);
    LastOfConcat(jobs, RequeuedJobs(documents, workspace), d);
  }

  lemma RequeuedRow(w: World, s: State, workspace: nat, d: nat)
    requires DocsGood(w, s.documents, s.jobs) && d < |s.documents|
    ensures var documents, jobs := RequeuedRows(s.documents, workspace), s.jobs + RequeuedJobs(s.documents, workspace);
      LastJob(jobs, d) >= 0 && RowGood(w, documents[d], jobs[LastJob(jobs, d)])
  {
    LastAfterRequeue(s.documents, s.jobs, workspace, d);
    hide LastJob, RequeuedJobs, Orderly, AllEmbedded, ContentsOf;
  }

  lemma RequeueKeepsWorker(w: World, s: State, workspace: nat)
    requires Inv(w, s) && WellFormed(Apply(w, s, Reindex(workspace)))
    ensures WorkerGood(w, Apply(w, s, Reindex(workspace)))
  {
    if s.worker.Busy? {
      LastAfterRequeue(s.documents, s.jobs, workspace, s.jobs[s.worker.job].document);
      hide LastJob, RequeuedJobs, DocsGood, JobsGood, HashesDistinct, NextBatch, AllEmbedded, ContentsOf;
    }
  }

  lemma RequeuedJobsGood(w: World, s: State, workspace: nat)
    requires JobsGood(w, s.jobs)
    ensures JobsGood(w, s.jobs + RequeuedJobs(s.documents, workspace))
  {
    RequeuedJobsAreNew(s.documents, workspace);
    hide RequeuedJobs, LastJob;
    var more := RequeuedJobs(s.documents, workspace);
    forall j | 0 <= j < |more| ensures JobGood(w, more[j]) {
      assert IsNew(more[j], |s.documents|);
    }
  }

  lemma RequeueKeepsHashes(documents: seq<DocumentRow>, workspace: nat)
    requires HashesDistinct(documents)
    ensures HashesDistinct(RequeuedRows(documents, workspace))
  {
  }

  lemma RequeueKeepsDocs(w: World, s: State, workspace: nat)
    requires DocsGood(w, s.documents, s.jobs) && HashesDistinct(s.documents)
    ensures DocsGood(w, RequeuedRows(s.documents, workspace), s.jobs + RequeuedJobs(s.documents, workspace))
    ensures HashesDistinct(RequeuedRows(s.documents, workspace))
  {
    RequeueKeepsHashes(s.documents, workspace);
    assert |RequeuedRows(s.documents, workspace)| == |s.documents|;
    hide LastJob, RequeuedJobs, RowGood, HashesDistinct, RequeuedRows;
    var documents, jobs := RequeuedRows(s.documents, workspace), s.jobs + RequeuedJobs(s.documents, workspace);
    forall d: nat | d < |documents| ensures LastJob(jobs, d) >= 0 && RowGood(w, documents[d], jobs[LastJob(jobs, d)]) {
      RequeuedRow(w, s, workspace, d);
    }
  }

  lemma ReindexKeeps(w: World, s: State, workspace: nat)
    requires Inv(w, s)
    ensures Inv(w, Apply(w, s, Reindex(workspace)))
  {
    StaysWellFormed(w, s, Reindex(workspace));
    RequeueKeepsDocs(w, s, workspace);
    RequeuedJobsGood(w, s, workspace);
    RequeueKeepsWorker(w, s, workspace);
    hide DocsGood, HashesDistinct, RequeuedJobs, RequeuedRows, WorkerGood, JobsGood, WellFormed;
  }

  /** A failure or a crash only moves the worker. */
  lemma RaisedKeeps(w: World, s: State)
    requires Inv(w, s)
    ensures Inv(w, Raised(s)) && Inv(w, s.(worker := Down))
  {
    hide LastJob, Orderly, NextBatch, AllEmbedded, ContentsOf, DocsGood, JobsGood, HashesDistinct;
  }

  /** Every action keeps the invariant. */
  lemma ActionKeeps(w: World, s: State, a: Action)
    requires Inv(w, s)
    ensures Inv(w, Apply(w, s, a))
  {
    assert WellFormed(s);
    hide Inv, WellFormed, Stepped, Uploaded, Raised, ClaimedBy, ReclaimAll, AllRunning;
    match a
    case Upload(workspace, filename, data, declared) =>
      UploadKeeps(w, s, workspace, filename, data, declared);
    case Reindex(workspace) =>
      ReindexKeeps(w, s, workspace);
    case Advance(headers, paged) =>
      if s.worker.Idle? { ClaimKeeps(w, s); }
      if s.worker.Busy? { WorkerStepKeeps(w, s, headers, paged); }
    case Fail =>
      RaisedKeeps(w, s);
    case Crash =>
      RaisedKeeps(w, s);
    case Restart =>
      if s.worker.Down? { ReclaimKeeps(w, s, AllRunning(s.jobs), Idle); }
    case Sweep(stalled) =>
      ReclaimKeeps(w, s, stalled, s.worker);
  }

  lemma {:induction false} RunKeeps(w: World, actions: seq<Action>)
    ensures Inv(w, Run(w, actions))
  {
    if actions != [] {
      RunKeeps(w, actions[..|actions| - 1]);
      ActionKeeps(w, Run(w, actions[..|actions| - 1]), actions[|actions| - 1]);
    }
  }
}

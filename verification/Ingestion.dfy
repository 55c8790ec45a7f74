/** The ingestion protocol as a transition system: uploads and reindexing (app/pipeline/intake.py,
    app/pipeline/ingest.py), the job queue, and one worker running app/pipeline/ingest.py `run_job` under
    app/workers/worker.py `process`. Each database transaction is one step; the worker can fail, be killed
    and be restarted between any two steps, and uploads can arrive there too. */
module Ingestion {
  import opened Blocks
  import opened Queue
  import opened Embedding

  type Byte = b: int | 0 <= b < 256
  type Bytes = seq<Byte>

  /** What the parser is given. */
  datatype Source = Source(data: Bytes, mime: string, filename: string)

  /** A row of `documents`, with its stored file and its chunks; a document's id is its position.
      `version` stands for the label "v1", "v2", ... `origin` is the file the chunks were written from, None when
      there are none: no operation reads it. */
  datatype DocumentRow = DocumentRow(
    workspace: nat,
    filename: string,
    mime: string,
    hash: string,
    version: nat,
    status: DocumentStatus,
    indexed: bool,
    stored: Bytes,
    chunks: seq<ChunkRow>,
    origin: Option<Source>)
  {
    function File(): Source { Source(stored, mime, filename) }
  }

  /** The parts the protocol does not decide. `mimeOf` is None for an upload whose type is not accepted;
      `chunkOf` is chunking after parsing, empty when no text comes out. */
  datatype World = World(
    hash: Bytes -> string,
    mimeOf: (Bytes, string, string) -> Option<string>,
    chunkOf: Source -> seq<string>,
    vectorOf: string -> Vector,
    batchSize: int,
    maxAttempts: int,
    maxUpload: nat)

  // ---------------------------------------------------------------- intake

  datatype Decision =
    | TooLarge
    | NoData
    | Unsupported
    | Ambiguous
    | Duplicate(document: nat)
    | Retry(document: nat)
    | Supersede(document: nat)
    | Create

  /** The ids of the documents that satisfy `p`, in order. */
  function Select(documents: seq<DocumentRow>, p: DocumentRow -> bool): (ids: seq<nat>)
    ensures forall i :: 0 <= i < |ids| ==> ids[i] < |documents| && p(documents[ids[i]])
    ensures forall i, j :: 0 <= i < j < |ids| ==> ids[i] < ids[j]
    ensures forall k :: 0 <= k < |documents| && p(documents[k]) ==> k in ids
  {
    if documents == [] then []
    else
      var n := |documents| - 1;
      var before := Select(documents[..n], p);
      if p(documents[n]) then before + [n] else before
  }

  function WithHash(documents: seq<DocumentRow>, workspace: nat, hash: string): seq<nat> {
    Select(documents, (r: DocumentRow) => r.workspace == workspace && r.hash == hash)
  }

  function WithName(documents: seq<DocumentRow>, workspace: nat, filename: string): seq<nat> {
    Select(documents, (r: DocumentRow) => r.workspace == workspace && r.filename == filename)
  }

  function Decide(w: World, documents: seq<DocumentRow>, workspace: nat, filename: string, data: Bytes, declared: string): (r: Decision)
    ensures r.Duplicate? || r.Retry? || r.Supersede? ==> r.document < |documents|
    ensures r.Retry? || r.Supersede? || r.Create? ==> w.mimeOf(data, filename, declared).Some?
  {
    if |data| > w.maxUpload then TooLarge
    else if data == [] then NoData
    else if w.mimeOf(data, filename, declared).None? then Unsupported
    else
      var identical := WithHash(documents, workspace, w.hash(data));
      if |identical| > 1 then Ambiguous
      else if |identical| == 1 then
        if documents[identical[0]].status == READY then Duplicate(identical[0]) else Retry(identical[0])
      else
        var named := WithName(documents, workspace, filename);
        if |named| > 1 then Ambiguous else if |named| == 1 then Supersede(named[0]) else Create
  }

  /** The row after an upload was accepted for it: new bytes, no chunks, back to PENDING. */
  function Accepted(w: World, row: DocumentRow, version: nat, filename: string, mime: string, data: Bytes): DocumentRow {
    DocumentRow(row.workspace, filename, mime, w.hash(data), version, PENDING, false, data, [], None)
  }

  function Uploaded(w: World, s: State, workspace: nat, filename: string, data: Bytes, declared: string): State {
    var decision := Decide(w, s.documents, workspace, filename, data, declared);
    match decision
    case Retry(d) =>
      s.(documents := s.documents[d := Accepted(w, s.documents[d], s.documents[d].version, filename, w.mimeOf(data, filename, declared).value, data)],
         jobs := s.jobs + [NewJob(d)])
    case Supersede(d) =>
      s.(documents := s.documents[d := Accepted(w, s.documents[d], s.documents[d].version + 1, filename, w.mimeOf(data, filename, declared).value, data)],
         jobs := s.jobs + [NewJob(d)])
    case Create =>
      s.(documents := s.documents + [DocumentRow(workspace, filename, w.mimeOf(data, filename, declared).value, w.hash(data), 1, PENDING, false, data, [], None)],
         jobs := s.jobs + [NewJob(|s.documents|)])
    case _ => s
  }

  /** `requeue_workspace`: every document of the workspace is PENDING again, with a new job. */
  function RequeuedRows(documents: seq<DocumentRow>, workspace: nat): seq<DocumentRow> {
    seq(|documents|, i requires 0 <= i < |documents| =>
      if documents[i].workspace == workspace then documents[i].(status := PENDING, indexed := false) else documents[i])
  }

  function RequeuedJobs(documents: seq<DocumentRow>, workspace: nat): seq<Job> {
    if documents == [] then []
    else
      var n := |documents| - 1;
      RequeuedJobs(documents[..n], workspace) + if documents[n].workspace == workspace then [NewJob(n)] else []
  }

  // ---------------------------------------------------------------- the worker

  /** Where the worker is: the transaction it runs next. */
  datatype Pc =
    | Load
    | Note(stage: DocumentStatus)
    | Mark(stage: DocumentStatus)
    | ReadFile
    | PageCount
    | Write
    | Count
    | Fetch
    | Commit(batch: seq<ChunkRow>)
    | Report
    | SetReady
    | Finish
    | Release
    | Check
    | MarkFailed

  /** The locals of a run: the checkpoint, the document as loaded, and the bytes as read. */
  datatype Memo = Memo(written: nat, mime: string, filename: string, source: Source)

  datatype Worker = Down | Idle | Busy(job: nat, pc: Pc, memo: Memo)

  datatype State = State(documents: seq<DocumentRow>, jobs: seq<Job>, serial: nat, worker: Worker)

  const START := State([], [], 0, Down)

  const NO_SOURCE := Source([], "", "")

  predicate WellFormed(s: State) {
    && (forall j :: 0 <= j < |s.jobs| ==> s.jobs[j].document < |s.documents|)
    && (s.worker.Busy? ==> s.worker.job < |s.jobs|)
  }

  function FreshRows(contents: seq<string>, headers: seq<string>, serial: nat): seq<ChunkRow> {
    seq(|contents|, i requires 0 <= i < |contents| => ChunkRow(serial + i, contents[i], if i < |headers| then headers[i] else "", None))
  }

  function AfterMark(stage: DocumentStatus): Pc {
    match stage
    case PARSING => ReadFile
    case PROFILING => Note(CHUNKING)
    case CHUNKING => Write
    case _ => Count
  }

  function WithRow(s: State, d: nat, row: DocumentRow, next: Pc): State
    requires s.worker.Busy? && d < |s.documents|
  {
    s.(documents := s.documents[d := row], worker := s.worker.(pc := next))
  }

  function WithJob(s: State, job: Job, next: Worker): State
    requires s.worker.Busy? && s.worker.job < |s.jobs|
  {
    s.(jobs := s.jobs[s.worker.job := job], worker := next)
  }

  function Goto(s: State, next: Pc): State
    requires s.worker.Busy?
  {
    s.(worker := s.worker.(pc := next))
  }

  /** The busy worker's next transaction. `headers` are the contextual headers the language model wrote;
      `paged` says whether the parser reported a page count. */
  function Stepped(w: World, s: State, headers: seq<string>, paged: bool): State
    requires WellFormed(s) && s.worker.Busy?
  {
    var Busy(j, pc, memo) := s.worker;
    var job, d := s.jobs[j], s.jobs[j].document;
    var row := s.documents[d];
    match pc
    case Load =>
      s.(worker := Busy(j, if memo.written == 0 then Note(PARSING) else Note(EMBEDDING), memo.(mime := row.mime, filename := row.filename)))
    case Note(stage) => WithJob(s, job.(stage := stage, written := memo.written), Busy(j, Mark(stage), memo))
    case Mark(stage) => WithRow(s, d, row.(status := stage), AfterMark(stage))
    case ReadFile => s.(worker := Busy(j, PageCount, memo.(source := Source(row.stored, memo.mime, memo.filename))))
    case PageCount => WithRow(s, d, if paged then row.(status := PARSING) else row, Note(PROFILING))
    case Write =>
      var contents := w.chunkOf(memo.source);
      if contents == [] then Goto(s, Release)
      else
        s.(documents := s.documents[d := row.(chunks := FreshRows(contents, headers, s.serial), origin := Some(memo.source))],
           serial := s.serial + |contents|,
           worker := Busy(j, Note(EMBEDDING), memo.(written := |contents|)))
    case Count => Goto(s, if Vectors(row.chunks) == |row.chunks| then SetReady else Fetch)
    case Fetch =>
      if w.batchSize < 0 then Goto(s, Release)
      else
        var batch := NextBatch(row.chunks, w.batchSize);
        Goto(s, if batch == [] then SetReady else Commit(batch))
    case Commit(batch) => WithRow(s, d, row.(chunks := Filled(row.chunks, batch, w.vectorOf)), Report)
    case Report => WithJob(s, job.(written := memo.written), Busy(j, Fetch, memo))
    case SetReady => WithRow(s, d, row.(status := READY, indexed := true), Finish)
    case Finish => WithJob(s, Close(job, false), Idle)
    case Release => WithJob(s, GiveBack(job, w.maxAttempts), Busy(j, Check, memo))
    case Check => if job.status.Failed? then Goto(s, MarkFailed) else s.(worker := Idle)
    case MarkFailed => s.(documents := s.documents[d := row.(status := FAILED)], worker := Idle)
  }

  /** The idle worker claims the oldest pending job. */
  function ClaimedBy(s: State): State {
    var j := OldestPending(s.jobs);
    if j < |s.jobs| then s.(jobs := s.jobs[j := Take(s.jobs[j])], worker := Busy(j, Load, Memo(s.jobs[j].written, "", "", NO_SOURCE)))
    else s
  }

  /** The worker's next transaction raises: the job is released, unless handling a failure is what failed. */
  function Raised(s: State): State {
    match s.worker
    case Busy(_, pc, _) =>
      if pc.Release? || pc.Check? || pc.MarkFailed? then s.(worker := Idle) else Goto(s, Release)
    case _ => s
  }

  /** A restart returns every running job to the queue. */
  function AllRunning(jobs: seq<Job>): set<nat> {
    set j | 0 <= j < |jobs| && jobs[j].status.Running?
  }

  datatype Action =
    | Upload(workspace: nat, filename: string, data: Bytes, declared: string)
    | Reindex(workspace: nat)
    | Advance(headers: seq<string>, paged: bool)
    | Fail
    | Crash
    | Restart
    | Sweep(stalled: set<nat>)

  function Apply(w: World, s: State, a: Action): (s': State)
    requires WellFormed(s)
  {
    match a
    case Upload(workspace, filename, data, declared) => Uploaded(w, s, workspace, filename, data, declared)
    case Reindex(workspace) => s.(documents := RequeuedRows(s.documents, workspace), jobs := s.jobs + RequeuedJobs(s.documents, workspace))
    case Advance(headers, paged) =>
      (match s.worker
       case Down => s
       case Idle => ClaimedBy(s)
       case Busy(_, _, _) => Stepped(w, s, headers, paged))
    case Fail => Raised(s)
    case Crash => s.(worker := Down)
    case Restart => if s.worker.Down? then s.(jobs := ReclaimAll(s.jobs, AllRunning(s.jobs)), worker := Idle) else s
    case Sweep(stalled) => s.(jobs := ReclaimAll(s.jobs, stalled))
  }

  lemma {:induction false} RequeuedJobsInRange(documents: seq<DocumentRow>, workspace: nat)
    ensures forall j :: 0 <= j < |RequeuedJobs(documents, workspace)| ==> RequeuedJobs(documents, workspace)[j].document < |documents|
  {
    if documents != [] { RequeuedJobsInRange(documents[..|documents| - 1], workspace); }
  }

  lemma SteppedStaysWellFormed(w: World, s: State, headers: seq<string>, paged: bool)
    requires WellFormed(s) && s.worker.Busy?
    ensures WellFormed(Stepped(w, s, headers, paged))
  {
    hide NextBatch, Filled, FreshRows, Vectors;
  }

  lemma StaysWellFormed(w: World, s: State, a: Action)
    requires WellFormed(s)
    ensures WellFormed(Apply(w, s, a))
  {
    hide Stepped, RequeuedJobs, Decide;
    match a
    case Advance(headers, paged) => if s.worker.Busy? { SteppedStaysWellFormed(w, s, headers, paged); }
    case Reindex(workspace) => RequeuedJobsInRange(s.documents, workspace);
    case _ =>
  }

  /** The state after a sequence of actions, from an empty site with no worker running. */
  function Run(w: World, actions: seq<Action>): (s: State)
    ensures WellFormed(s)
  {
    if actions == [] then START
    else
      var s := Run(w, actions[..|actions| - 1]);
      StaysWellFormed(w, s, actions[|actions| - 1]);
      Apply(w, s, actions[|actions| - 1])
  }

  lemma RunOneMore(w: World, actions: seq<Action>, a: Action)
    ensures Run(w, actions + [a]) == Apply(w, Run(w, actions), a)
  {
    hide Apply;
    assert (actions + [a])[..|actions|] == actions;
  }
}

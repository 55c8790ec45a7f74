/** The code of app/pipeline/intake.py, app/pipeline/ingest.py, app/pipeline/persist.py and
    app/workers/worker.py over mutable tables, proved to be runs of the transition system. */
module Site {
  import opened Blocks
  import opened Queue
  import opened Embedding
  import opened Ingestion
  import opened Freshness
  import opened Progress

  lemma OneMoreStep(w: World, s: State, replies: Replies, first: nat, n: nat)
    requires WellFormed(s) && After(w, s, replies, first, n).worker.Busy?
    ensures After(w, s, replies, first, n + 1) == Stepped(w, After(w, s, replies, first, n), replies(first + n).0, replies(first + n).1)
  {
    var t := After(w, s, replies, first, n);
    AfterAdds(w, s, replies, first, n, 1);
    SteppedStaysWellFormed(w, t, replies(first + n).0, replies(first + n).1);
    AfterBusy(w, t, replies, first + n, 0);
    hide Stepped;
  }

  lemma Loaded(w: World, s: State, replies: Replies, first: nat)
    requires WellFormed(s) && s.worker.Busy? && s.worker.pc.Load?
    ensures After(w, s, replies, first, 1) == Stepped(w, s, replies(first).0, replies(first).1)
  {
    assert After(w, s, replies, first, 0) == s;
    OneMoreStep(w, s, replies, first, 0);
  }

  lemma InvParts(w: World, s: State)
    requires Inv(w, s)
    ensures WellFormed(s) && forall d :: 0 <= d < |s.documents| ==> Orderly(s.documents[d].chunks, w.vectorOf)
  {
    forall d | 0 <= d < |s.documents| ensures Orderly(s.documents[d].chunks, w.vectorOf) {
      assert RowGood(w, s.documents[d], s.jobs[LastJob(s.jobs, d)]);
    }
  }

  lemma {:induction false} AfterKeeps(w: World, s: State, replies: Replies, first: nat, n: nat)
    requires Inv(w, s)
    ensures Inv(w, After(w, s, replies, first, n))
    decreases n
  {
    hide Apply, Inv;
    if n > 0 {
      ActionKeeps(w, s, Advance(replies(first).0, replies(first).1));
      InvParts(w, s);
      AfterKeeps(w, Apply(w, s, Advance(replies(first).0, replies(first).1)), replies, first + 1, n - 1);
    }
  }

  lemma NoSteps(w: World, s: State, replies: Replies, first: nat)
    requires WellFormed(s)
    ensures After(w, s, replies, first, 0) == s
  {
  }

  lemma TwoRuns(w: World, s: State, t: State, u: State, replies: Replies, n: nat, m: nat)
    requires WellFormed(s) && WellFormed(t) && After(w, s, replies, 0, n) == t && u == After(w, t, replies, n, m)
    ensures After(w, s, replies, 0, n + m) == u
  {
    hide After;
    AfterAdds(w, s, replies, 0, n, m);
  }

  /** A document found by its hash has it; one found by its name, when none is found by the hash, does not. */
  lemma MatchesHash(documents: seq<DocumentRow>, workspace: nat, filename: string, hash: string)
    ensures var same, named := WithHash(documents, workspace, hash), WithName(documents, workspace, filename);
      && (same != [] ==> same[0] < |documents| && documents[same[0]].hash == hash)
      && (same == [] && named != [] ==> named[0] < |documents| && documents[named[0]].hash != hash)
  {
    var same, named := WithHash(documents, workspace, hash), WithName(documents, workspace, filename);
    assert named != [] ==> documents[named[0]].workspace == workspace;
    assert forall d :: 0 <= d < |documents| && documents[d].workspace == workspace && documents[d].hash == hash ==> d in same;
    hide Select;
  }

  /** An upload that is accepted for an existing document. */
  lemma UploadedTo(w: World, s: State, workspace: nat, filename: string, data: Bytes, declared: string, d: nat, row: DocumentRow)
    requires d < |s.documents| && w.mimeOf(data, filename, declared).Some?
    requires Decide(w, s.documents, workspace, filename, data, declared) == if s.documents[d].hash == w.hash(data) then Retry(d) else Supersede(d)
    requires var old1 := s.documents[d];
      row == Accepted(w, old1, old1.version + (if old1.hash == w.hash(data) then 0 else 1), filename, w.mimeOf(data, filename, declared).value, data)
    ensures Uploaded(w, s, workspace, filename, data, declared) == s.(documents := s.documents[d := row], jobs := s.jobs + [NewJob(d)])
  {
    hide Decide;
  }

  class Tables {
    var documents: seq<DocumentRow>
    var serial: nat
    const queue: JobTable

    ghost function Seen(worker: Worker): State
      reads this, queue
    {
      State(documents, queue.jobs, serial, worker)
    }

    constructor ()
      ensures Seen(Down) == START && fresh(queue)
    {
      documents, serial := [], 0;
      queue := new JobTable();
    }

    // -------------------------------------------------------------- intake

    /** The document the bytes belong to, or the reason to stop: first by hash, then by name. */
    method FindExisting(workspace: nat, filename: string, hash: string) returns (stop: Option<Decision>, existing: Option<nat>)
      ensures var same, named := WithHash(documents, workspace, hash), WithName(documents, workspace, filename);
        && (|same| > 1 ==> stop == Some(Ambiguous))
        && (|same| == 1 && documents[same[0]].status == READY ==> stop == Some(Duplicate(same[0])))
        && (|same| == 1 && documents[same[0]].status != READY ==> stop.None? && existing == Some(same[0]))
        && (same == [] && |named| > 1 ==> stop == Some(Ambiguous))
        && (same == [] && |named| <= 1 ==> stop.None? && existing == if named == [] then None else Some(named[0]))
    {
      var same := WithHash(documents, workspace, hash);
      if |same| > 1 { return Some(Ambiguous), None; }
      if |same| == 1 {
        if documents[same[0]].status == READY { return Some(Duplicate(same[0])), None; }
        return None, Some(same[0]);
      }
      var named := WithName(documents, workspace, filename);
      if |named| > 1 { return Some(Ambiguous), None; }
      stop, existing := None, if named == [] then None else Some(named[0]);
    }

    /** The old chunks go, and the row takes the upload's name, type and hash; another hash makes a new version. */
    method AcceptRow(d: nat, filename: string, mime: string, hash: string) returns (superseded: bool)
      requires d < |documents|
      modifies this`documents
      ensures var row := old(documents)[d];
        && superseded == (row.hash != hash)
        && documents == old(documents)[d := DocumentRow(row.workspace, filename, mime, hash, row.version + (if superseded then 1 else 0), PENDING, false, row.stored, [], None)]
    {
      var row := documents[d];
      superseded := row.hash != hash;
      if superseded { row := row.(version := row.version + 1); }
      row := row.(chunks := [], origin := None);
      row := row.(hash := hash, mime := mime, filename := filename, status := PENDING, indexed := false);
      documents := documents[d := row];
    }

    /** The stored file and the job of an upload. */
    method StoreAndEnqueue(d: nat, data: Bytes)
      requires d < |documents|
      modifies this`documents, queue
      ensures documents == old(documents)[d := old(documents)[d].(stored := data)] && queue.jobs == old(queue.jobs) + [NewJob(d)]
    {
      documents := documents[d := documents[d].(stored := data)];
      var _ := queue.Enqueue(d);
    }

    method AcceptExisting(w: World, d: nat, workspace: nat, filename: string, data: Bytes, declared: string) returns (decision: Decision)
      requires d < |documents| && w.mimeOf(data, filename, declared).Some?
      requires Decide(w, documents, workspace, filename, data, declared) == if documents[d].hash == w.hash(data) then Retry(d) else Supersede(d)
      modifies this, queue
      ensures decision == Decide(w, old(documents), workspace, filename, data, declared)
      ensures forall worker :: Seen(worker) == Uploaded(w, old(Seen(worker)), workspace, filename, data, declared)
    {
      hide Decide;
      var superseded := AcceptRow(d, filename, w.mimeOf(data, filename, declared).value, w.hash(data));
      decision := if superseded then Supersede(d) else Retry(d);
      StoreAndEnqueue(d, data);
      ghost var row := documents[d];
      forall worker ensures Seen(worker) == Uploaded(w, old(Seen(worker)), workspace, filename, data, declared) {
        UploadedTo(w, old(Seen(worker)), workspace, filename, data, declared, d, row);
      }
    }

    method CreateDocument(w: World, workspace: nat, filename: string, data: Bytes, declared: string)
      requires w.mimeOf(data, filename, declared).Some? && Decide(w, documents, workspace, filename, data, declared) == Create
      modifies this, queue
      ensures forall worker :: Seen(worker) == Uploaded(w, old(Seen(worker)), workspace, filename, data, declared)
    {
      hide Decide;
      documents := documents + [DocumentRow(workspace, filename, w.mimeOf(data, filename, declared).value, w.hash(data), 1, PENDING, false, [], [], None)];
      StoreAndEnqueue(|documents| - 1, data);
      forall worker ensures Seen(worker) == Uploaded(w, old(Seen(worker)), workspace, filename, data, declared) {
        assert Seen(worker).documents == Uploaded(w, old(Seen(worker)), workspace, filename, data, declared).documents;
      }
    }

    method IntakeUpload(w: World, workspace: nat, filename: string, data: Bytes, declared: string) returns (decision: Decision)
      modifies this, queue
      ensures decision == Decide(w, old(documents), workspace, filename, data, declared)
      ensures forall worker :: Seen(worker) == Uploaded(w, old(Seen(worker)), workspace, filename, data, declared)
    {
      hide Select, WithHash, WithName;
      if |data| > w.maxUpload { return TooLarge; }
      if data == [] { return NoData; }
      if w.mimeOf(data, filename, declared).None? { return Unsupported; }
      var stop, existing := FindExisting(workspace, filename, w.hash(data));
      if stop.Some? { return stop.value; }
      MatchesHash(documents, workspace, filename, w.hash(data));
      hide Uploaded;
      if existing.Some? {
        decision := AcceptExisting(w, existing.value, workspace, filename, data, declared);
      } else {
        decision := Create;
        CreateDocument(w, workspace, filename, data, declared);
      }
    }

    method RequeueWorkspace(workspace: nat) returns (queued: nat)
      modifies this`documents, queue
      ensures queued == |RequeuedJobs(old(documents), workspace)|
      ensures documents == RequeuedRows(old(documents), workspace)
      ensures queue.jobs == old(queue.jobs) + RequeuedJobs(old(documents), workspace)
    {
      queued := 0;
      ghost var before, jobs := documents, queue.jobs;
      for i := 0 to |documents|
        invariant |documents| == |before|
        invariant queued == |RequeuedJobs(before[..i], workspace)|
        invariant queue.jobs == jobs + RequeuedJobs(before[..i], workspace)
        invariant forall k :: 0 <= k < |before| ==> documents[k] == RequeuedRow(before[k], k < i && before[k].workspace == workspace)
      {
        assert before[..i + 1][..i] == before[..i];
        if documents[i].workspace == workspace {
          documents := documents[i := documents[i].(status := PENDING, indexed := false)];
          var _ := queue.Enqueue(i);
          queued := queued + 1;
        }
      }
      assert before[..|before|] == before;
    }

    function RequeuedRow(row: DocumentRow, chosen: bool): DocumentRow {
      if chosen then row.(status := PENDING, indexed := false) else row
    }

    // -------------------------------------------------------------- persist

    method SetDocumentStatus(d: nat, status: DocumentStatus, markIndexed: bool)
      requires d < |documents|
      modifies this`documents
      ensures documents == old(documents)[d := old(documents)[d].(status := status, indexed := old(documents)[d].indexed || markIndexed)]
    {
      documents := documents[d := documents[d].(status := status)];
      if markIndexed {
        documents := documents[d := documents[d].(indexed := true)];
      }
    }

    method ReplaceChunks(d: nat, source: Source, contents: seq<string>, headers: seq<string>) returns (n: nat)
      requires d < |documents|
      modifies this`documents, this`serial
      ensures n == |contents| && serial == old(serial) + n
      ensures documents == old(documents)[d := old(documents)[d].(chunks := FreshRows(contents, headers, old(serial)), origin := Some(source))]
    {
      var rows := FreshRows(contents, headers, serial);
      n := |contents|;
      documents := documents[d := documents[d].(chunks := rows, origin := Some(source))];
      serial := serial + n;
    }

    // -------------------------------------------------------------- ingest

    /** The run of job `id` that started in `s` is at `pc` after `n` undisturbed steps. */
    ghost predicate At(w: World, s: State, replies: Replies, first: nat, n: nat, id: nat, pc: Pc, memo: Memo)
      reads this, queue
    {
      WellFormed(s) && After(w, s, replies, first, n) == Seen(Busy(id, pc, memo))
    }

    /** `_advance`: the job's stage and checkpoint, then the document's status. */
    method Advance(w: World, ghost s: State, ghost replies: Replies, ghost first: nat, n: nat, id: nat, stage: DocumentStatus, ghost memo: Memo, written: nat) returns (m: nat)
      requires At(w, s, replies, first, n, id, Note(stage), memo) && written == memo.written
      requires id < |queue.jobs| && queue.jobs[id].document < |documents|
      modifies this`documents, queue
      ensures m == n + 2 && At(w, s, replies, first, m, id, AfterMark(stage), memo)
      ensures SameJob(old(queue.jobs), queue.jobs, id)
      ensures var d := queue.jobs[id].document; documents == old(documents)[d := old(documents)[d].(status := stage)]
    {
      OneMoreStep(w, s, replies, first, n);
      queue.UpdateProgress(id, Some(stage), Some(written));
      assert At(w, s, replies, first, n + 1, id, Mark(stage), memo);
      OneMoreStep(w, s, replies, first, n + 1);
      SetDocumentStatus(queue.jobs[id].document, stage, false);
      m := n + 2;
    }

    /** One batch of vectors and the progress report after it. */
    method StoreBatch(w: World, ghost s: State, ghost replies: Replies, ghost first: nat, n: nat, id: nat, ghost memo: Memo, written: nat, batch: seq<ChunkRow>)
      requires At(w, s, replies, first, n, id, Commit(batch), memo) && written == memo.written
      requires id < |queue.jobs| && queue.jobs[id].document < |documents|
      modifies this`documents, queue
      ensures At(w, s, replies, first, n + 2, id, Fetch, memo)
      ensures SameJob(old(queue.jobs), queue.jobs, id)
      ensures var d := queue.jobs[id].document; documents == old(documents)[d := old(documents)[d].(chunks := Filled(old(documents)[d].chunks, batch, w.vectorOf))]
    {
      hide Filled, NextBatch, Vectors, FreshRows, After;
      var d := queue.jobs[id].document;
      OneMoreStep(w, s, replies, first, n);
      documents := documents[d := documents[d].(chunks := Filled(documents[d].chunks, batch, w.vectorOf))];
      assert At(w, s, replies, first, n + 1, id, Report, memo);
      OneMoreStep(w, s, replies, first, n + 1);
      queue.UpdateProgress(id, None, Some(written));
    }

    /** `embed_document`, from the count of missing vectors to the end of its loop. */
    method EmbedDocument(w: World, ghost s: State, ghost replies: Replies, ghost first: nat, start: nat, id: nat, ghost memo: Memo, written: nat)
      returns (ok: bool, n: nat)
      requires At(w, s, replies, first, start, id, Count, memo) && written == memo.written
      requires id < |queue.jobs| && queue.jobs[id].document < |documents| && Orderly(documents[queue.jobs[id].document].chunks, w.vectorOf)
      modifies this`documents, queue
      ensures At(w, s, replies, first, n, id, if ok then Pc.SetReady else Pc.Release, memo)
      ensures SameJob(old(queue.jobs), queue.jobs, id) && |documents| == |old(documents)|
    {
      hide Orderly, Filled, NextBatch, Vectors, FreshRows, After;
      var d := queue.jobs[id].document;
      OneMoreStep(w, s, replies, first, start);
      n := start + 1;
      if Vectors(documents[d].chunks) == |documents[d].chunks| { return true, n; }
      assert At(w, s, replies, first, n, id, Fetch, memo);
      while true
        invariant At(w, s, replies, first, n, id, Fetch, memo)
        invariant |documents| == |old(documents)| && SameJob(old(queue.jobs), queue.jobs, id)
        invariant Orderly(documents[d].chunks, w.vectorOf)
        decreases |documents[d].chunks| - Vectors(documents[d].chunks)
      {
        OneMoreStep(w, s, replies, first, n);
        n := n + 1;
        if w.batchSize < 0 { return false, n; }
        var batch := NextBatch(documents[d].chunks, w.batchSize);
        if batch == [] { return true, n; }
        assert At(w, s, replies, first, n, id, Pc.Commit(batch), memo);
        CommitExtendsPrefix(documents[d].chunks, w.batchSize, w.vectorOf);
        FilledRows(documents[d].chunks, batch, w.vectorOf);
        StoreBatch(w, s, replies, first, n, id, memo, written, batch);
        n := n + 2;
      }
    }

    /** `_parse`: the stored bytes are read, and the page count is stored when the parser reports one. */
    method Parse(w: World, ghost s: State, replies: Replies, first: nat, n: nat, id: nat, ghost memo: Memo, document: DocumentRow) returns (source: Source)
      requires At(w, s, replies, first, n, id, ReadFile, memo) && memo.mime == document.mime && memo.filename == document.filename
      requires id < |queue.jobs| && queue.jobs[id].document < |documents|
      modifies this`documents
      ensures At(w, s, replies, first, n + 2, id, Note(PROFILING), memo.(source := source))
      ensures |documents| == |old(documents)|
    {
      hide After;
      var d := queue.jobs[id].document;
      OneMoreStep(w, s, replies, first, n);
      source := Source(documents[d].stored, document.mime, document.filename);
      assert At(w, s, replies, first, n + 1, id, PageCount, memo.(source := source));
      OneMoreStep(w, s, replies, first, n + 1);
      if replies(first + n + 1).1 { SetDocumentStatus(d, PARSING, false); }
    }

    /** The stages up to the write: parse, profile, chunk. `written` is 0 when the file has no text. */
    method BuildChunks(w: World, ghost s: State, replies: Replies, first: nat, start: nat, id: nat, ghost memo: Memo, document: DocumentRow)
      returns (written: nat, n: nat, ghost memo': Memo)
      requires At(w, s, replies, first, start, id, Note(PARSING), memo)
      requires memo.written == 0 && memo.mime == document.mime && memo.filename == document.filename
      requires id < |queue.jobs| && queue.jobs[id].document < |documents|
      modifies this`documents, this`serial, queue
      ensures At(w, s, replies, first, n, id, if written > 0 then Note(EMBEDDING) else Pc.Release, memo')
      ensures written > 0 ==> memo'.written == written && Orderly(documents[queue.jobs[id].document].chunks, w.vectorOf)
      ensures SameJob(old(queue.jobs), queue.jobs, id) && |documents| == |old(documents)|
    {
      hide After, Orderly, FreshRows;
      n := Advance(w, s, replies, first, start, id, PARSING, memo, 0);
      var source := Parse(w, s, replies, first, n, id, memo, document);
      memo', n := memo.(source := source), n + 2;
      n := Advance(w, s, replies, first, n, id, PROFILING, memo', 0);
      n := Advance(w, s, replies, first, n, id, CHUNKING, memo', 0);
      OneMoreStep(w, s, replies, first, n);
      written := 0;
      var contents, headers := w.chunkOf(source), replies(first + n).0;
      n := n + 1;
      if contents != [] {
        FreshRowsAreOrderly(contents, headers, serial, w.vectorOf);
        written := ReplaceChunks(queue.jobs[id].document, source, contents, headers);
        memo' := memo'.(written := written);
      }
    }

    /** `run_job`. Undisturbed, it is a run of the transition system from the claim to the last stage, or to
        the failure it raises when the file has no text or the batch size is rejected. */
    method RunJob(w: World, id: nat, replies: Replies, first: nat) returns (ok: bool, n: nat, ghost memo: Memo)
      requires id < |queue.jobs| && WellFormed(Seen(Claimed(id))) && Orderly(documents[queue.jobs[id].document].chunks, w.vectorOf)
      modifies this`documents, this`serial, queue
      ensures At(w, old(Seen(Claimed(id))), replies, first, n, id, if ok then Pc.Finish else Pc.Release, memo)
      ensures SameJob(old(queue.jobs), queue.jobs, id) && |documents| == |old(documents)|
    {
      hide After, Orderly;
      ghost var s := Seen(Claimed(id));
      var d, written := queue.jobs[id].document, queue.jobs[id].written;
      var document := documents[d];
      memo := Memo(written, document.mime, document.filename, NO_SOURCE);
      Loaded(w, s, replies, first);
      n := 1;
      if written == 0 {
        written, n, memo := BuildChunks(w, s, replies, first, n, id, memo, document);
        if written == 0 { return false, n, memo; }
      }
      n := Advance(w, s, replies, first, n, id, EMBEDDING, memo, written);
      ok, n := EmbedDocument(w, s, replies, first, n, id, memo, written);
      if ok { n := MarkReady(w, s, replies, first, n, id, memo); }
    }

    /** The document becomes READY. */
    method MarkReady(w: World, ghost s: State, ghost replies: Replies, ghost first: nat, n: nat, id: nat, ghost memo: Memo) returns (m: nat)
      requires At(w, s, replies, first, n, id, Pc.SetReady, memo) && id < |queue.jobs| && queue.jobs[id].document < |documents|
      modifies this`documents
      ensures m == n + 1 && At(w, s, replies, first, m, id, Pc.Finish, memo) && |documents| == |old(documents)|
    {
      hide After;
      OneMoreStep(w, s, replies, first, n);
      SetDocumentStatus(queue.jobs[id].document, READY, true);
      m := n + 1;
    }

    // -------------------------------------------------------------- worker

    /** `process`: the job is finished, or released and the document marked when no attempt is left. */
    method Process(w: World, id: nat, replies: Replies, first: nat) returns (n: nat)
      requires id < |queue.jobs| && WellFormed(Seen(Claimed(id))) && Orderly(documents[queue.jobs[id].document].chunks, w.vectorOf)
      modifies this`documents, this`serial, queue
      ensures n > 0 && After(w, old(Seen(Claimed(id))), replies, first, n) == Seen(Idle)
      ensures |queue.jobs| == |old(queue.jobs)| && queue.jobs == old(queue.jobs)[id := queue.jobs[id]]
      ensures var job, before := queue.jobs[id], old(queue.jobs)[id];
        job.Over() || (job.status.Pending? && job.attempts == before.attempts < w.maxAttempts)
    {
      hide After, Orderly;
      ghost var s := Seen(Claimed(id));
      var ok; ghost var memo;
      ok, n, memo := RunJob(w, id, replies, first);
      OneMoreStep(w, s, replies, first, n);
      if ok {
        queue.Finish(id, false);
        n := n + 1;
      } else {
        queue.Release(id, w.maxAttempts);
        assert At(w, s, replies, first, n + 1, id, Check, memo);
        OneMoreStep(w, s, replies, first, n + 1);
        n := n + 2;
        if queue.jobs[id].status.Failed? {
          assert At(w, s, replies, first, n, id, MarkFailed, memo);
          OneMoreStep(w, s, replies, first, n);
          SetDocumentStatus(queue.jobs[id].document, FAILED, false);
          n := n + 1;
        }
      }
    }

    ghost predicate NonePending()
      reads this, queue
    {
      forall j :: 0 <= j < |queue.jobs| ==> !queue.jobs[j].status.Pending?
    }

    /** `WorkerPool.start`: with a timeout of zero every job left running is reclaimed, which is the system's restart. */
    method Start(w: World, beat: nat -> int, now: int)
      requires WellFormed(Seen(Down)) && forall j :: 0 <= j < |queue.jobs| ==> beat(j) < now
      modifies queue
      ensures Seen(Idle) == Apply(w, old(Seen(Down)), Restart)
      ensures forall j :: 0 <= j < |queue.jobs| ==> !queue.jobs[j].status.Running?
    {
      assert Stalled(queue.jobs, beat, now) == AllRunning(queue.jobs);
      var _ := queue.ReclaimStalled(beat, now, 0);
    }

    /** One turn of `reclaim_loop`: a sweep of the system, which leaves a worker that still reports its job. */
    method SweepOnce(w: World, beat: nat -> int, now: int, timeout: int, worker: Worker)
      requires WellFormed(Seen(worker))
      modifies queue
      ensures Seen(worker) == Apply(w, old(Seen(worker)), Sweep(Stalled(old(queue.jobs), beat, now - timeout)))
      ensures worker.Busy? && now - beat(worker.job) <= timeout ==> queue.jobs[worker.job] == old(queue.jobs)[worker.job]
    {
      var _ := queue.ReclaimStalled(beat, now, timeout);
    }

    /** One turn of `worker_loop`: claim, and process what was claimed. */
    method WorkOnce(w: World, replies: Replies, first: nat) returns (found: bool, n: nat)
      requires Inv(w, Seen(Idle)) && WellFormed(Seen(Idle))
      modifies this`documents, this`serial, queue
      ensures WellFormed(Seen(Idle)) && Seen(Idle) == After(w, old(Seen(Idle)), replies, first, n) && Inv(w, Seen(Idle))
      ensures if found then TriesLeft(queue.jobs, w.maxAttempts) < TriesLeft(old(queue.jobs), w.maxAttempts)
              else n == 0 && NonePending()
    {
      hide Inv, TriesLeft;
      ghost var s := Seen(Idle);
      InvParts(w, s);
      n := 0;
      var id;
      id, found := queue.Claim();
      if found {
        hide After;
        assert Seen(Claimed(id)) == ClaimedBy(s);
        var m := Process(w, id, replies, first + 1);
        n := m + 1;
        AfterIdle(w, s, replies, first, m);
        AfterKeeps(w, s, replies, first, n);
        TriesLeftFalls(s.jobs, id, queue.jobs[id], w.maxAttempts);
        assert queue.jobs == s.jobs[id := queue.jobs[id]];
      }
    }

    /** `worker_loop`, up to the first time it finds nothing to claim: it gets there, by a run of the system. */
    method WorkerLoop(w: World, replies: Replies) returns (n: nat)
      requires Inv(w, Seen(Idle)) && WellFormed(Seen(Idle))
      modifies this`documents, this`serial, queue
      ensures Seen(Idle) == After(w, old(Seen(Idle)), replies, 0, n) && Inv(w, Seen(Idle)) && NonePending()
    {
      hide After, Inv, TriesLeft, WellFormed, NonePending;
      ghost var s := Seen(Idle);
      NoSteps(w, s, replies, 0);
      var found, m;
      found, n := true, 0;
      while found
        invariant Inv(w, Seen(Idle)) && WellFormed(Seen(Idle)) && After(w, s, replies, 0, n) == Seen(Idle)
        invariant !found ==> NonePending()
        decreases TriesLeft(queue.jobs, w.maxAttempts), found
      {
        ghost var t := Seen(Idle);
        found, m := WorkOnce(w, replies, n);
        NoSteps(w, t, replies, n);
        TwoRuns(w, s, t, Seen(Idle), replies, n, m);
        n := n + m;
      }
    }

    ghost function Claimed(id: nat): Worker
      reads queue
    {
      if id < |queue.jobs| then Busy(id, Load, Memo(queue.jobs[id].written, "", "", NO_SOURCE)) else Idle
    }
  }

  /** Nothing but the stage and checkpoint of job `id` changed. */
  ghost predicate SameJob(before: seq<Job>, after: seq<Job>, id: nat) {
    && |before| == |after| && id < |before|
    && after == before[id := before[id].(stage := after[id].stage, written := after[id].written)]
  }
}

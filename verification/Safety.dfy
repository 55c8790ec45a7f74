/** What a reader of the database can rely on, after any sequence of uploads, reindexes, worker steps,
    failures, crashes, restarts and sweeps. */
module Safety {
  import opened Text
  import opened Blocks
  import opened Queue
  import opened Embedding
  import opened Ingestion
  import opened Freshness

  /** A READY document has no half-embedded chunk: every chunk carries the vector of its own text, its header and a blank
      line in front when it has a header. The full-text half of search tests the status and never the vector. */
  lemma ReadyMeansEmbedded(w: World, actions: seq<Action>, d: nat, i: nat)
    requires w.batchSize != 0
    requires var s := Run(w, actions); d < |s.documents| && s.documents[d].status == READY && i < |s.documents[d].chunks|
    ensures var row := Run(w, actions).documents[d].chunks[i];
      row.vector == Some(w.vectorOf(if row.header == "" then row.content else row.header + "\n\n" + row.content))
  {
    RunKeeps(w, actions);
    var s := Run(w, actions);
    assert RowGood(w, s.documents[d], s.jobs[LastJob(s.jobs, d)]);
    assert Own(s.documents[d].chunks[i], w.vectorOf);
  }

  /** Once a document's last-enqueued job has written its chunks, and above all once it has succeeded, the
      chunks are those of the bytes now stored, whatever an older job does afterwards. */
  lemma SettledMeansFresh(w: World, actions: seq<Action>, d: nat)
    requires d < |Run(w, actions).documents|
    ensures var s := Run(w, actions); var row, last := s.documents[d], LastJob(s.jobs, d);
      && last >= 0
      && (s.jobs[last].status.Succeeded? || s.jobs[last].written > 0 ==> ContentsOf(row.chunks) == w.chunkOf(row.File()))
      && (forall i :: 0 <= i < |row.chunks| ==> Own(row.chunks[i], w.vectorOf))
  {
    RunKeeps(w, actions);
    var s := Run(w, actions);
    assert RowGood(w, s.documents[d], s.jobs[LastJob(s.jobs, d)]);
  }

  /** Which text is searchable, in every state: a document's chunks are those of the file they were written from, so it
      is fresh exactly when that file gives the chunks of the file now stored (when nothing is written, exactly when the
      stored file gives none). */
  lemma FreshIff(w: World, actions: seq<Action>, d: nat)
    requires d < |Run(w, actions).documents|
    ensures var row := Run(w, actions).documents[d];
      ContentsOf(row.chunks) == Written(w, row) && (Fresh(w, row) <==> w.chunkOf(row.File()) == Written(w, row))
  {
    RunKeeps(w, actions);
    var s := Run(w, actions);
    assert RowGood(w, s.documents[d], s.jobs[LastJob(s.jobs, d)]);
    hide Run, LastJob;
  }

  /** A document is stale only while its newest job has written nothing; so once that job is over, only if it is FAILED
      without a checkpoint. */
  lemma StaleOnlyIf(w: World, actions: seq<Action>, d: nat)
    requires d < |Run(w, actions).documents| && !Fresh(w, Run(w, actions).documents[d])
    ensures var s := Run(w, actions); var last := LastJob(s.jobs, d);
      last >= 0 && s.jobs[last].written == 0 && !s.jobs[last].status.Succeeded? && (s.jobs[last].Over() ==> s.jobs[last].status.Failed?)
  {
    SettledMeansFresh(w, actions, d);
    hide Run, LastJob;
  }

  /** Where freshness can be lost. Any run that is about to mark its document READY, begun afresh or resumed: the document
      is fresh exactly when the file its chunks were written from gives the chunks of the stored file. For a run that read
      the file itself that file is the one it read, unless an upload has removed the chunks since. A run ends stale only
      when a newer job of the document still has everything to do. */
  lemma FreshAtTheEndIff(w: World, actions: seq<Action>)
    requires Run(w, actions).worker.Busy? && Run(w, actions).worker.pc.SetReady?
    ensures var s := Run(w, actions);
      var Busy(j, _, memo) := s.worker;
      var d := s.jobs[j].document;
      var row, last := s.documents[d], LastJob(s.jobs, d);
      && (Fresh(w, row) <==> w.chunkOf(row.File()) == Written(w, row))
      && (memo.source != NO_SOURCE ==> row.origin == None || row.origin == Some(memo.source))
      && (!Fresh(w, row) ==> last >= 0 && last != j && s.jobs[last].written == 0 && !s.jobs[last].status.Succeeded?)
  {
    RunKeeps(w, actions);
    var s := Run(w, actions);
    FreshIff(w, actions, s.jobs[s.worker.job].document);
    hide Run, DocsGood, JobsGood, HashesDistinct, Opening, Building, Failing, LastJob, Fresh, Written;
  }

  /** The embedded chunks of every document are a prefix by ordinal, in every state. */
  lemma EmbeddedPrefix(w: World, actions: seq<Action>, d: nat)
    requires d < |Run(w, actions).documents|
    ensures var rows := Run(w, actions).documents[d].chunks;
      forall i :: 0 <= i < |rows| ==> (rows[i].vector.Some? <==> i < Vectors(rows))
  {
    RunKeeps(w, actions);
    var s := Run(w, actions);
    assert RowGood(w, s.documents[d], s.jobs[LastJob(s.jobs, d)]);
    VectorsArePrefix(s.documents[d].chunks, w.vectorOf);
  }

  /** What anyone who looks is shown, in every state: a READY document is indexed, a finished job says how it ended and an
      untried one nothing. While the worker is at work its job shows the stage it is in, and so does its document, one
      transaction later, unless an upload or a reindex has sent the document back to the queue since. */
  lemma StagesAreShown(w: World, actions: seq<Action>)
    ensures var s := Run(w, actions);
      && (forall d :: 0 <= d < |s.documents| && s.documents[d].status == READY ==> s.documents[d].indexed)
      && (forall j :: 0 <= j < |s.jobs| ==>
            && (s.jobs[j].status.Succeeded? ==> s.jobs[j].stage == READY) && (s.jobs[j].status.Failed? ==> s.jobs[j].stage == FAILED)
            && (s.jobs[j].attempts == 0 ==> s.jobs[j].stage == PENDING && s.jobs[j].written == 0))
      && (s.worker.Busy? ==>
            var Busy(j, pc, _) := s.worker;
            && (Noted(pc).Some? ==> s.jobs[j].stage == Noted(pc).value)
            && (Shown(pc).Some? ==> s.documents[s.jobs[j].document].status == Shown(pc).value || Waiting(s.jobs, s.jobs[j].document, j)))
  {
    RunKeeps(w, actions);
    var s := Run(w, actions);
    hide Run, Noted, Shown, LastJob, Orderly, AllEmbedded, HashesDistinct, Fresh, Opening, Building, Filling, Failing, NextBatch, ContentsOf, Written;
    forall d | 0 <= d < |s.documents| && s.documents[d].status == READY ensures s.documents[d].indexed {
      assert RowGood(w, s.documents[d], s.jobs[LastJob(s.jobs, d)]);
    }
    forall j | 0 <= j < |s.jobs|
      ensures (s.jobs[j].status.Succeeded? ==> s.jobs[j].stage == READY) && (s.jobs[j].status.Failed? ==> s.jobs[j].stage == FAILED)
      ensures s.jobs[j].attempts == 0 ==> s.jobs[j].stage == PENDING && s.jobs[j].written == 0
    {
      assert JobGood(w, s.jobs[j]);
    }
  }

  /** The queue's bookkeeping over every run: an attempt is only handed out again after a release or a
      reclaim, and a job that was never reclaimed gets at most `max(1, maxAttempts)` attempts. */
  lemma AttemptsBounded(w: World, actions: seq<Action>, j: nat)
    requires j < |Run(w, actions).jobs|
    ensures var job := Run(w, actions).jobs[j];
      && job.attempts <= job.releases + job.reclaims + 1
      && (job.status.Pending? ==> job.attempts <= job.releases + job.reclaims)
      && job.attempts <= Max(1, w.maxAttempts) + job.reclaims
      && (job.status.Failed? ==> job.attempts >= w.maxAttempts)
  {
    RunKeeps(w, actions);
    assert JobGood(w, Run(w, actions).jobs[j]);
  }

  /** The chunks a write stores for contents and contextual headers: each content with the header of its place, or none
      when there are fewer headers, under new ids and without a vector. */
  ghost predicate StoredAs(rows: seq<ChunkRow>, contents: seq<string>, headers: seq<string>, serial: nat) {
    && |rows| == |contents|
    && forall i :: 0 <= i < |rows| ==>
         && rows[i].id == serial + i && rows[i].content == contents[i] && rows[i].vector == None
         && rows[i].header == if i < |headers| then headers[i] else ""
  }

  /** All that can happen to a document's chunks: in one action, after any run, either each stays as it is but for a
      vector it did not have, or an upload removes them all, or the write of a run that found text replaces them all. */
  lemma ChunksAreKept(w: World, actions: seq<Action>, a: Action, d: nat)
    requires d < |Run(w, actions).documents|
    ensures var s, s' := Run(w, actions), Run(w, actions + [a]);
      && d < |s'.documents|
      && var before, after := s.documents[d].chunks, s'.documents[d].chunks;
         || Keeps(before, after)
         || (a.Upload? && after == [])
         || (a.Advance? && s.worker.Busy? && s.worker.pc.Write? && s.jobs[s.worker.job].document == d
             && w.chunkOf(s.worker.memo.source) != [] && StoredAs(after, w.chunkOf(s.worker.memo.source), a.headers, s.serial))
  {
    RunKeeps(w, actions);
    RunOneMore(w, actions, a);
    var s := Run(w, actions);
    hide *;
    if a.Advance? && s.worker.Busy? {
      StepKeepsChunks(w, s, a.headers, a.paged, d);
    } else {
      ActionKeepsChunks(w, s, a, d);
    }
    AdvanceIsStep(w, s, a);
  }

  lemma AdvanceIsStep(w: World, s: State, a: Action)
    requires WellFormed(s)
    ensures a.Advance? && s.worker.Busy? ==> Apply(w, s, a) == Stepped(w, s, a.headers, a.paged)
  {
    hide Stepped;
  }

  /** Of the other actions only an upload touches chunks. */
  lemma ActionKeepsChunks(w: World, s: State, a: Action, d: nat)
    requires WellFormed(s) && d < |s.documents| && !(a.Advance? && s.worker.Busy?)
    ensures var s' := Apply(w, s, a);
      d < |s'.documents| && (Keeps(s.documents[d].chunks, s'.documents[d].chunks) || (a.Upload? && s'.documents[d].chunks == []))
  {
    KeepsReflexive(s.documents[d].chunks);
    hide Decide, Keeps, RequeuedJobs, OldestPending, ReclaimAll;
  }

  /** The same for a step of the worker, and the one write is named: when there is text, it stores it. */
  lemma StepKeepsChunks(w: World, s: State, headers: seq<string>, paged: bool, d: nat)
    requires Inv(w, s) && s.worker.Busy? && d < |s.documents|
    ensures var s' := Stepped(w, s, headers, paged);
      && d < |s'.documents|
      && var before, after, contents := s.documents[d].chunks, s'.documents[d].chunks, w.chunkOf(s.worker.memo.source);
         if s.worker.pc.Write? && s.jobs[s.worker.job].document == d && contents != [] then StoredAs(after, contents, headers, s.serial)
         else Keeps(before, after)
  {
    StepsOwnDocument(w, s);
    hide *;
    KeepsReflexive(s.documents[d].chunks);
    RowStatus(w, s, headers, paged);
    OwnChunks(w, s, headers, paged);
  }

  lemma StepsOwnDocument(w: World, s: State)
    requires Inv(w, s) && s.worker.Busy?
    ensures WellFormed(s) && s.worker.job < |s.jobs|
    ensures var row := s.documents[s.jobs[s.worker.job].document];
      && Orderly(row.chunks, w.vectorOf)
      && (s.worker.pc.Commit? ==> row.chunks == [] || (w.batchSize >= 0 && s.worker.pc.batch == NextBatch(row.chunks, w.batchSize)))
  {
    var d := s.jobs[s.worker.job].document;
    assert RowGood(w, s.documents[d], s.jobs[LastJob(s.jobs, d)]);
    hide LastJob, Orderly, NextBatch, AllEmbedded, Fresh, ContentsOf, Written, JobsGood, HashesDistinct, Agrees;
  }

  lemma OwnChunks(w: World, s: State, headers: seq<string>, paged: bool)
    requires WellFormed(s) && s.worker.Busy?
    requires var row := s.documents[s.jobs[s.worker.job].document];
      && Orderly(row.chunks, w.vectorOf)
      && (s.worker.pc.Commit? ==> row.chunks == [] || (w.batchSize >= 0 && s.worker.pc.batch == NextBatch(row.chunks, w.batchSize)))
    ensures var s', d := Stepped(w, s, headers, paged), s.jobs[s.worker.job].document;
      && d < |s'.documents|
      && var before, after, contents := s.documents[d].chunks, s'.documents[d].chunks, w.chunkOf(s.worker.memo.source);
         if s.worker.pc.Write? && contents != [] then StoredAs(after, contents, headers, s.serial) else Keeps(before, after)
  {
    var rows := s.documents[s.jobs[s.worker.job].document].chunks;
    KeepsReflexive(rows);
    RowsStored(w.chunkOf(s.worker.memo.source), headers, s.serial);
    if s.worker.pc.Commit? { CommitKeeps(rows, s.worker.pc.batch, w); }
    hide NextBatch, Filled, Vectors, Keeps, FreshRows, StoredAs, Orderly, ContentsOf, AllEmbedded, GiveBack, Close, AfterMark;
  }

  lemma RowsStored(contents: seq<string>, headers: seq<string>, serial: nat)
    ensures StoredAs(FreshRows(contents, headers, serial), contents, headers, serial)
  {
  }

  /** The status a step at `pc` writes, if it writes one. */
  ghost function Writes(pc: Pc, paged: bool): Option<DocumentStatus> {
    if pc.Mark? then Some(pc.stage)
    else if pc.PageCount? && paged then Some(PARSING)
    else if pc.SetReady? then Some(READY)
    else if pc.MarkFailed? then Some(FAILED)
    else None
  }

  ghost predicate SameFile(before: DocumentRow, after: DocumentRow) {
    && after.workspace == before.workspace && after.File() == before.File()
    && after.hash == before.hash && after.version == before.version
  }

  /** Who changes a document's status, in one action after any run: the worker on the job's document, whatever has happened to
      that since; a reindex of its workspace; or an upload accepted for it, and only an upload changes its file. */
  lemma StatusIsKept(w: World, actions: seq<Action>, a: Action, d: nat)
    requires d < |Run(w, actions).documents|
    ensures var s, s' := Run(w, actions), Run(w, actions + [a]);
      && d < |s'.documents|
      && var before, after := s.documents[d], s'.documents[d];
         if a.Advance? && s.worker.Busy? then
           && SameFile(before, after)
           && var own, pc := s.jobs[s.worker.job].document == d, s.worker.pc;
              && after.status == (if own && Writes(pc, a.paged).Some? then Writes(pc, a.paged).value else before.status)
              && after.indexed == (before.indexed || (own && pc.SetReady?))
         else if a.Upload? then after == before || (after.status == PENDING && !after.indexed && after.workspace == before.workspace)
         else
           && SameFile(before, after)
           && if a.Reindex? && a.workspace == before.workspace then after.status == PENDING && !after.indexed
              else after.status == before.status && after.indexed == before.indexed
  {
    RunOneMore(w, actions, a);
    var s := Run(w, actions);
    hide *;
    if a.Advance? && s.worker.Busy? {
      StepKeepsStatus(w, s, a.headers, a.paged, d);
      AdvanceIsStep(w, s, a);
    } else {
      ActionKeepsStatus(w, s, a, d);
    }
  }

  lemma StepKeepsStatus(w: World, s: State, headers: seq<string>, paged: bool, d: nat)
    requires WellFormed(s) && s.worker.Busy? && d < |s.documents|
    ensures var s' := Stepped(w, s, headers, paged);
      && d < |s'.documents|
      && var before, after := s.documents[d], s'.documents[d];
         && SameFile(before, after)
         && var own, pc := s.jobs[s.worker.job].document == d, s.worker.pc;
            && after.status == (if own && Writes(pc, paged).Some? then Writes(pc, paged).value else before.status)
            && after.indexed == (before.indexed || (own && pc.SetReady?))
  {
    RowStatus(w, s, headers, paged);
    hide NextBatch, Filled, Vectors, FreshRows, Writes, SameFile, Stepped;
  }

  /** A step touches no document but the job's. */
  lemma RowStatus(w: World, s: State, headers: seq<string>, paged: bool)
    requires WellFormed(s) && s.worker.Busy?
    ensures var s', own, pc := Stepped(w, s, headers, paged), s.jobs[s.worker.job].document, s.worker.pc;
      && own < |s'.documents| && s'.documents == s.documents[own := s'.documents[own]]
      && var before, after := s.documents[own], s'.documents[own];
         && SameFile(before, after) && after.status == (if Writes(pc, paged).Some? then Writes(pc, paged).value else before.status)
         && after.indexed == (before.indexed || pc.SetReady?)
  {
    if s.worker.pc.Mark? || s.worker.pc.PageCount? || s.worker.pc.SetReady? || s.worker.pc.MarkFailed? {
      WritingStep(w, s, headers, paged);
    } else {
      OtherStep(w, s, headers, paged);
    }
    hide *;
  }

  lemma WritingStep(w: World, s: State, headers: seq<string>, paged: bool)
    requires WellFormed(s) && s.worker.Busy?
    requires s.worker.pc.Mark? || s.worker.pc.PageCount? || s.worker.pc.SetReady? || s.worker.pc.MarkFailed?
    ensures var s', own, pc := Stepped(w, s, headers, paged), s.jobs[s.worker.job].document, s.worker.pc;
      && own < |s'.documents| && s'.documents == s.documents[own := s'.documents[own]]
      && var before, after := s.documents[own], s'.documents[own];
         && SameFile(before, after) && after.status == (if Writes(pc, paged).Some? then Writes(pc, paged).value else before.status)
         && after.indexed == (before.indexed || pc.SetReady?)
  {
    hide AfterMark;
  }

  lemma OtherStep(w: World, s: State, headers: seq<string>, paged: bool)
    requires WellFormed(s) && s.worker.Busy?
    requires !(s.worker.pc.Mark? || s.worker.pc.PageCount? || s.worker.pc.SetReady? || s.worker.pc.MarkFailed?)
    ensures var s', own, pc := Stepped(w, s, headers, paged), s.jobs[s.worker.job].document, s.worker.pc;
      && own < |s'.documents| && s'.documents == s.documents[own := s'.documents[own]]
      && var before, after := s.documents[own], s'.documents[own];
         SameFile(before, after) && after.status == before.status && after.indexed == before.indexed && Writes(pc, paged).None?
  {
    hide NextBatch, Filled, Vectors, FreshRows, GiveBack, Close;
  }

  lemma ActionKeepsStatus(w: World, s: State, a: Action, d: nat)
    requires WellFormed(s) && d < |s.documents| && !(a.Advance? && s.worker.Busy?)
    ensures var s' := Apply(w, s, a);
      && d < |s'.documents|
      && var before, after := s.documents[d], s'.documents[d];
         if a.Upload? then after == before || (after.status == PENDING && !after.indexed && after.workspace == before.workspace)
         else
           && SameFile(before, after)
           && if a.Reindex? && a.workspace == before.workspace then after.status == PENDING && !after.indexed
              else after.status == before.status && after.indexed == before.indexed
  {
    hide Decide, RequeuedJobs, OldestPending, ReclaimAll;
  }

  lemma OverStays(w: World, s: State, a: Action, j: nat)
    requires Inv(w, s) && j < |s.jobs| && s.jobs[j].Over()
    ensures j < |Apply(w, s, a).jobs| && Apply(w, s, a).jobs[j] == s.jobs[j]
  {
    hide LastJob, Orderly, AllEmbedded, NextBatch, Filled, FreshRows, Vectors, DocsGood, JobsGood, HashesDistinct, Decide, RequeuedJobs, Agrees;
  }

  /** SUCCEEDED and FAILED are final: nothing touches the job again, in any continuation of any run. */
  lemma {:induction false} OverForGood(w: World, actions: seq<Action>, more: seq<Action>, j: nat)
    requires j < |Run(w, actions).jobs| && Run(w, actions).jobs[j].Over()
    ensures j < |Run(w, actions + more).jobs| && Run(w, actions + more).jobs[j] == Run(w, actions).jobs[j]
  {
    hide Apply, Inv;
    if more == [] {
      assert actions + more == actions;
    } else {
      var n := |more| - 1;
      OverForGood(w, actions, more[..n], j);
      assert (actions + more)[..|actions| + n] == actions + more[..n];
      RunKeeps(w, actions + more[..n]);
      OverStays(w, Run(w, actions + more[..n]), more[n], j);
    }
  }

  // ---------------------------------------------------------------- uploads

  lemma HashesDiffer(documents: seq<DocumentRow>, i: nat, k: nat)
    requires HashesDistinct(documents) && i < k < |documents| && documents[i].workspace == documents[k].workspace
    ensures documents[i].hash != documents[k].hash
  {
  }

  lemma OneForEachHash(documents: seq<DocumentRow>, workspace: nat, hash: string)
    requires HashesDistinct(documents)
    ensures |WithHash(documents, workspace, hash)| <= 1
  {
    hide HashesDistinct;
    var same := WithHash(documents, workspace, hash);
    if |same| > 1 {
      HashesDiffer(documents, same[0], same[1]);
    }
  }

  /** In every reachable state an upload finds the document with the same bytes' hash, if the workspace has
      one: a READY document is left alone, any other is queued again under the uploaded name. */
  lemma IdenticalIsFound(w: World, actions: seq<Action>, d: nat, filename: string, data: Bytes, declared: string)
    requires d < |Run(w, actions).documents| && Run(w, actions).documents[d].hash == w.hash(data)
    requires 0 < |data| <= w.maxUpload && w.mimeOf(data, filename, declared).Some?
    ensures var s := Run(w, actions); var row := s.documents[d];
      Decide(w, s.documents, row.workspace, filename, data, declared) == if row.status == READY then Duplicate(d) else Retry(d)
  {
    RunKeeps(w, actions);
    var documents := Run(w, actions).documents;
    var same := WithHash(documents, documents[d].workspace, w.hash(data));
    assert d in same;
    OneForEachHash(documents, documents[d].workspace, w.hash(data));
  }

  lemma HashedRows(documents: seq<DocumentRow>, workspace: nat, hash: string)
    ensures forall k :: k in WithHash(documents, workspace, hash) <==>
      0 <= k < |documents| && documents[k].workspace == workspace && documents[k].hash == hash
  {
    var p := (r: DocumentRow) => r.workspace == workspace && r.hash == hash;
    var same := Select(documents, p);
    assert forall k :: 0 <= k < |documents| && p(documents[k]) ==> k in same;
    hide Select;
  }

  lemma NamedRows(documents: seq<DocumentRow>, workspace: nat, filename: string)
    ensures forall k :: k in WithName(documents, workspace, filename) <==>
      0 <= k < |documents| && documents[k].workspace == workspace && documents[k].filename == filename
  {
    var p := (r: DocumentRow) => r.workspace == workspace && r.filename == filename;
    var named := Select(documents, p);
    assert forall k :: 0 <= k < |documents| && p(documents[k]) ==> k in named;
    hide Select;
  }

  /** The decision, told by hashes: a document is retried for the same bytes' hash and superseded for another. */
  lemma DecisionByHash(w: World, documents: seq<DocumentRow>, workspace: nat, filename: string, data: Bytes, declared: string)
    ensures var decision, hash := Decide(w, documents, workspace, filename, data, declared), w.hash(data);
      && (decision.Retry? || decision.Duplicate? ==> documents[decision.document].workspace == workspace && documents[decision.document].hash == hash)
      && (decision.Supersede? ==> documents[decision.document].workspace == workspace && documents[decision.document].filename == filename)
      && (decision.Supersede? || decision.Create? ==> forall k :: 0 <= k < |documents| && documents[k].workspace == workspace ==> documents[k].hash != hash)
      && (decision.Create? ==> forall k :: 0 <= k < |documents| && documents[k].workspace == workspace ==> documents[k].filename != filename)
  {
    HashedRows(documents, workspace, w.hash(data));
    NamedRows(documents, workspace, filename);
    var same, named := WithHash(documents, workspace, w.hash(data)), WithName(documents, workspace, filename);
    assert same != [] ==> same[0] in same;
    assert named != [] ==> named[0] in named;
    hide WithHash, WithName;
  }

  /** Ids in ascending order, as a set. */
  lemma {:induction false} IdSet(ids: seq<nat>)
    requires forall i, k :: 0 <= i < k < |ids| ==> ids[i] < ids[k]
    ensures |set k: nat | k in ids| == |ids|
  {
    if ids == [] {
      assert (set k: nat | k in ids) == {};
    } else {
      var n := |ids| - 1;
      var init, last := ids[..n], ids[n];
      IdSet(init);
      InitLast(ids, n);
      assert last !in init;
      assert (set k: nat | k in ids) == (set k: nat | k in init) + {last};
    }
  }

  lemma SetOfIds(ids: seq<nat>, found: set<nat>)
    requires forall i, k :: 0 <= i < k < |ids| ==> ids[i] < ids[k]
    requires forall k :: k in found <==> k in ids
    ensures |found| == |ids| && (ids == [] <==> found == {}) && (|ids| == 1 ==> found == {ids[0]}) && forall d :: found == {d} ==> ids == [d]
  {
    IdSet(ids);
    assert found == set k: nat | k in ids;
    if ids != [] { assert ids[0] in found; }
    forall d | found == {d} ensures ids == [d] {
      assert |ids| == 1 && ids[0] in found;
    }
  }

  function Same(documents: seq<DocumentRow>, workspace: nat, hash: string): set<nat> {
    set k | 0 <= k < |documents| && documents[k].workspace == workspace && documents[k].hash == hash
  }

  function Namesakes(documents: seq<DocumentRow>, workspace: nat, filename: string): set<nat> {
    set k | 0 <= k < |documents| && documents[k].workspace == workspace && documents[k].filename == filename
  }

  /** The whole decision, in the order of its checks: size, emptiness, type; then the documents of the workspace with the same
      bytes' hash; only when there is none, those with the same name. Two of either are refused. */
  lemma DecideIff(w: World, documents: seq<DocumentRow>, workspace: nat, filename: string, data: Bytes, declared: string)
    ensures var decision := Decide(w, documents, workspace, filename, data, declared);
      var same, named := Same(documents, workspace, w.hash(data)), Namesakes(documents, workspace, filename);
      if |data| > w.maxUpload then decision == TooLarge
      else if data == [] then decision == NoData
      else if w.mimeOf(data, filename, declared).None? then decision == Unsupported
      else
        && (decision.Ambiguous? <==> |same| > 1 || (same == {} && |named| > 1))
        && (decision.Create? <==> same == {} && named == {})
        && forall d: nat ::
             && (decision == Duplicate(d) <==> same == {d} && documents[d].status == READY)
             && (decision == Retry(d) <==> same == {d} && documents[d].status != READY)
             && (decision == Supersede(d) <==> same == {} && named == {d})
  {
    var same, named := Same(documents, workspace, w.hash(data)), Namesakes(documents, workspace, filename);
    FoundByHash(documents, workspace, w.hash(data));
    FoundByName(documents, workspace, filename);
    hide WithHash, WithName, Same, Namesakes;
    assert forall d: nat :: same == {d} ==> d in same;
  }

  lemma FoundByHash(documents: seq<DocumentRow>, workspace: nat, hash: string)
    ensures var ids, same := WithHash(documents, workspace, hash), Same(documents, workspace, hash);
      && |same| == |ids| && (ids == [] <==> same == {}) && (|ids| == 1 ==> same == {ids[0]}) && (forall d :: same == {d} ==> ids == [d])
      && forall d :: d in same ==> d < |documents|
  {
    HashedRows(documents, workspace, hash);
    SetOfIds(WithHash(documents, workspace, hash), Same(documents, workspace, hash));
  }

  lemma FoundByName(documents: seq<DocumentRow>, workspace: nat, filename: string)
    ensures var ids, named := WithName(documents, workspace, filename), Namesakes(documents, workspace, filename);
      && |named| == |ids| && (ids == [] <==> named == {}) && (|ids| == 1 ==> named == {ids[0]}) && (forall d :: named == {d} ==> ids == [d])
      && forall d :: d in named ==> d < |documents|
  {
    NamedRows(documents, workspace, filename);
    SetOfIds(WithName(documents, workspace, filename), Namesakes(documents, workspace, filename));
  }

  /** What an upload does in every reachable state: it changes nothing (and then the decision says why), or
      one document, old or new, becomes exactly this row: the uploaded bytes under the uploaded name, with the type found
      for them, no chunk of any earlier version, waiting for the newest job; no other document changes. Its version is
      the next one exactly when its bytes' hash changed. */
  lemma UploadTakesEffect(w: World, actions: seq<Action>, workspace: nat, filename: string, data: Bytes, declared: string)
    ensures var s := Run(w, actions); var s' := Uploaded(w, s, workspace, filename, data, declared);
      var decision := Decide(w, s.documents, workspace, filename, data, declared);
      if decision.Retry? || decision.Supersede? || decision.Create? then
        exists d :: 0 <= d < |s'.documents| && (d < |s.documents| <==> !decision.Create?)
          && s'.documents[d] == DocumentRow(workspace, filename, w.mimeOf(data, filename, declared).value, w.hash(data),
                                            NextVersion(w, s.documents, d, data), PENDING, false, data, [], None)
          && (forall k :: 0 <= k < |s.documents| && k != d ==> s'.documents[k] == s.documents[k])
          && s'.jobs == s.jobs + [Job(d, Pending, PENDING, 0, 0, 0, 0)]
      else s' == s
  {
    var s := Run(w, actions);
    var s' := Uploaded(w, s, workspace, filename, data, declared);
    var decision := Decide(w, s.documents, workspace, filename, data, declared);
    DecisionByHash(w, s.documents, workspace, filename, data, declared);
    hide Run, Decide;
    if decision.Retry? || decision.Supersede? { assert s'.documents[decision.document].filename == filename; }
    if decision.Create? { assert s'.documents[|s.documents|].filename == filename; }
  }

  /** The jobs of a reindex: one for each document of the workspace, by id. */
  lemma {:induction false} RequeuedIds(documents: seq<DocumentRow>, workspace: nat) returns (ids: seq<nat>)
    ensures |RequeuedJobs(documents, workspace)| == |ids|
    ensures forall i :: 0 <= i < |ids| ==> RequeuedJobs(documents, workspace)[i] == Job(ids[i], Pending, PENDING, 0, 0, 0, 0)
    ensures forall i, k :: 0 <= i < k < |ids| ==> ids[i] < ids[k]
    ensures forall d :: d in ids <==> 0 <= d < |documents| && documents[d].workspace == workspace
  {
    ids := [];
    if documents != [] {
      var n := |documents| - 1;
      ids := RequeuedIds(documents[..n], workspace);
      if documents[n].workspace == workspace {
        forall i | 0 <= i < |ids| ensures ids[i] < n { assert ids[i] in ids; }
        ids := ids + [n];
      }
    }
  }

  /** What a reindex does in every reachable state: each document of the workspace, whatever its status, is PENDING and no
      longer indexed, keeps its file and its chunks, and gets one new job, enqueued after all others in the order of the
      documents; nothing else changes, not even for the worker. */
  lemma ReindexTakesEffect(w: World, actions: seq<Action>, workspace: nat) returns (ids: seq<nat>)
    ensures var s, s' := Run(w, actions), Run(w, actions + [Reindex(workspace)]);
      && |s'.documents| == |s.documents| && |s'.jobs| == |s.jobs| + |ids| && s'.worker == s.worker && s'.serial == s.serial
      && (forall d :: 0 <= d < |s.documents| ==>
            s'.documents[d] == if s.documents[d].workspace == workspace then s.documents[d].(status := PENDING, indexed := false) else s.documents[d])
      && (forall d :: d in ids <==> 0 <= d < |s.documents| && s.documents[d].workspace == workspace)
      && (forall i, k :: 0 <= i < k < |ids| ==> ids[i] < ids[k])
      && (forall j :: 0 <= j < |s.jobs| ==> s'.jobs[j] == s.jobs[j])
      && forall i :: 0 <= i < |ids| ==> s'.jobs[|s.jobs| + i] == Job(ids[i], Pending, PENDING, 0, 0, 0, 0)
  {
    RunOneMore(w, actions, Reindex(workspace));
    ids := RequeuedIds(Run(w, actions).documents, workspace);
    hide Run, RequeuedJobs;
  }

  /** v1 for a new document, one more for new bytes, the same for the same bytes. */
  function NextVersion(w: World, documents: seq<DocumentRow>, d: nat, data: Bytes): nat {
    if d >= |documents| then 1 else documents[d].version + if documents[d].hash == w.hash(data) then 0 else 1
  }

  /** One document for each file name of a workspace. */
  ghost predicate NamesDistinct(documents: seq<DocumentRow>) {
    forall i, k :: 0 <= i < k < |documents| && documents[i].workspace == documents[k].workspace ==> documents[i].filename != documents[k].filename
  }

  /** Giving document `d` a name keeps the names distinct exactly when no other document of its workspace has it. */
  lemma RenamedStaysDistinct(documents: seq<DocumentRow>, d: nat, row: DocumentRow)
    requires NamesDistinct(documents) && d < |documents| && row.workspace == documents[d].workspace
    ensures NamesDistinct(documents[d := row]) <==>
      forall k :: 0 <= k < |documents| && k != d && documents[k].workspace == row.workspace ==> documents[k].filename != row.filename
  {
    var more := documents[d := row];
    if NamesDistinct(more) {
      forall k | 0 <= k < |documents| && k != d && documents[k].workspace == row.workspace ensures documents[k].filename != row.filename {
        assert more[k] == documents[k] && more[d] == row;
      }
    }
  }

  lemma NewStaysDistinct(documents: seq<DocumentRow>, row: DocumentRow)
    requires NamesDistinct(documents)
    requires forall k :: 0 <= k < |documents| && documents[k].workspace == row.workspace ==> documents[k].filename != row.filename
    ensures NamesDistinct(documents + [row])
  {
  }

  /** What an accepted upload does to the rows. */
  lemma UploadedRows(w: World, s: State, workspace: nat, filename: string, data: Bytes, declared: string) returns (row: DocumentRow)
    ensures var decision, documents := Decide(w, s.documents, workspace, filename, data, declared), Uploaded(w, s, workspace, filename, data, declared).documents;
      if decision.Retry? || decision.Supersede? then
        documents == s.documents[decision.document := row] && row.filename == filename && row.workspace == s.documents[decision.document].workspace
      else if decision.Create? then documents == s.documents + [row] && row.filename == filename && row.workspace == workspace
      else documents == s.documents
  {
    var decision, documents := Decide(w, s.documents, workspace, filename, data, declared), Uploaded(w, s, workspace, filename, data, declared).documents;
    hide Decide;
    row := DocumentRow(0, "", "", "", 0, PENDING, false, [], [], None);
    if decision.Retry? || decision.Supersede? { row := documents[decision.document]; }
    if decision.Create? { row := documents[|s.documents|]; }
  }

  /** The README's one document per file name is kept by an upload if and only if the upload does not retry an
      unfinished document under a name that another document already has. */
  lemma NamesStayDistinctIff(w: World, s: State, workspace: nat, filename: string, data: Bytes, declared: string)
    requires NamesDistinct(s.documents)
    ensures var decision := Decide(w, s.documents, workspace, filename, data, declared);
      NamesDistinct(Uploaded(w, s, workspace, filename, data, declared).documents)
      <==> !(decision.Retry? && exists k :: k in WithName(s.documents, workspace, filename) && k != decision.document)
  {
    var decision := Decide(w, s.documents, workspace, filename, data, declared);
    DecisionByHash(w, s.documents, workspace, filename, data, declared);
    NamedRows(s.documents, workspace, filename);
    var row := UploadedRows(w, s, workspace, filename, data, declared);
    hide Uploaded, Decide, WithName, NamesDistinct;
    if decision.Retry? {
      RenamedStaysDistinct(s.documents, decision.document, row);
    } else if decision.Supersede? {
      SameNameStaysDistinct(s.documents, decision.document, row);
    } else if decision.Create? {
      NewStaysDistinct(s.documents, row);
    }
  }

  lemma SameNameStaysDistinct(documents: seq<DocumentRow>, d: nat, row: DocumentRow)
    requires NamesDistinct(documents) && d < |documents| && row.workspace == documents[d].workspace && row.filename == documents[d].filename
    ensures NamesDistinct(documents[d := row])
  {
  }

  // ---------------------------------------------------------------- at rest

  /** Nothing is queued and nothing runs. */
  ghost predicate AtRest(s: State) {
    !s.worker.Busy? && forall j :: 0 <= j < |s.jobs| ==> s.jobs[j].Over()
  }

  /** No reindex, and no upload but of bytes that a READY document of the workspace already has. */
  ghost predicate BringsNothing(w: World, documents: seq<DocumentRow>, a: Action) {
    && !a.Reindex?
    && (a.Upload? ==> exists d :: 0 <= d < |documents| && documents[d].workspace == a.workspace && documents[d].status == READY && documents[d].hash == w.hash(a.data))
  }

  lemma ReuploadChangesNothing(w: World, actions: seq<Action>, a: Action)
    requires a.Upload? && BringsNothing(w, Run(w, actions).documents, a)
    ensures Apply(w, Run(w, actions), a) == Run(w, actions)
  {
    var s := Run(w, actions);
    var d :| 0 <= d < |s.documents| && s.documents[d].workspace == a.workspace && s.documents[d].status == READY && s.documents[d].hash == w.hash(a.data);
    if 0 < |a.data| <= w.maxUpload && w.mimeOf(a.data, a.filename, a.declared).Some? {
      IdenticalIsFound(w, actions, d, a.filename, a.data, a.declared);
    }
    hide Run, WithHash, WithName;
  }

  lemma NothingToDo(jobs: seq<Job>, stalled: set<nat>)
    requires forall j :: 0 <= j < |jobs| ==> jobs[j].Over()
    ensures ReclaimAll(jobs, stalled) == jobs && OldestPending(jobs) == |jobs|
  {
  }

  lemma RestStep(w: World, s: State, a: Action) returns (worker: Worker)
    requires WellFormed(s) && AtRest(s) && !a.Reindex? && !a.Upload?
    ensures !worker.Busy? && Apply(w, s, a) == s.(worker := worker)
  {
    worker := s.worker;
    match a
    case Advance(_, _) =>
      NothingToDo(s.jobs, {});
      hide Stepped, OldestPending, WellFormed;
    case Crash =>
      worker := Down;
      hide WellFormed;
    case Restart =>
      NothingToDo(s.jobs, AllRunning(s.jobs));
      worker := Idle;
      hide ReclaimAll, AllRunning, WellFormed;
    case Sweep(stalled) =>
      NothingToDo(s.jobs, stalled);
      hide ReclaimAll, WellFormed;
    case _ =>
  }

  /** A site at rest stays as it is, whatever crashes, restarts and sweeps come, until new bytes are uploaded or a
      reindex is asked for: uploading again what a READY document holds does not wake it. */
  lemma {:induction false} RestIsForGood(w: World, actions: seq<Action>, more: seq<Action>)
    requires AtRest(Run(w, actions)) && forall a :: a in more ==> BringsNothing(w, Run(w, actions).documents, a)
    ensures var s, s' := Run(w, actions), Run(w, actions + more); s'.documents == s.documents && s'.jobs == s.jobs && AtRest(s')
  {
    hide Apply, AtRest, BringsNothing;
    if more == [] {
      assert actions + more == actions;
    } else {
      var n := |more| - 1;
      var before := actions + more[..n];
      RestIsForGood(w, actions, more[..n]);
      assert actions + more == before + [more[n]];
      RunOneMore(w, before, more[n]);
      assert more[n] in more;
      RestAction(w, before, more[n]);
    }
  }

  lemma RestAction(w: World, actions: seq<Action>, a: Action)
    requires AtRest(Run(w, actions)) && BringsNothing(w, Run(w, actions).documents, a)
    ensures var s, s' := Run(w, actions), Apply(w, Run(w, actions), a); s'.documents == s.documents && s'.jobs == s.jobs && AtRest(s')
  {
    if a.Upload? {
      ReuploadChangesNothing(w, actions, a);
    } else {
      var worker := RestStep(w, Run(w, actions), a);
    }
    hide Run, Apply;
  }
}

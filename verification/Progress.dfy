/** What a worker that is left alone gets done. */
module Progress {
  import opened Blocks
  import opened Queue
  import opened Embedding
  import opened Ingestion
  import opened Freshness

  /** What each step of the worker is told by the parser and the language model. */
  type Replies = nat -> (seq<string>, bool)

  /** The state after `n` undisturbed steps of the worker. */
  function After(w: World, s: State, replies: Replies, first: nat, n: nat): (s': State)
    requires WellFormed(s)
    ensures WellFormed(s')
    decreases n
  {
    if n == 0 then s
    else
      StaysWellFormed(w, s, Advance(replies(first).0, replies(first).1));
      After(w, Apply(w, s, Advance(replies(first).0, replies(first).1)), replies, first + 1, n - 1)
  }

  lemma {:induction false} AfterAdds(w: World, s: State, replies: Replies, first: nat, m: nat, n: nat)
    requires WellFormed(s)
    ensures After(w, s, replies, first, m + n) == After(w, After(w, s, replies, first, m), replies, first + m, n)
    decreases m
  {
    hide Apply;
    if m > 0 {
      StaysWellFormed(w, s, Advance(replies(first).0, replies(first).1));
      AfterAdds(w, Apply(w, s, Advance(replies(first).0, replies(first).1)), replies, first + 1, m - 1, n);
    }
  }

  /** The file a run will parse, or has parsed. */
  function ToParse(row: DocumentRow, pc: Pc, memo: Memo): Source {
    if pc.Load? then row.File() else if Opening(pc) then Source(row.stored, memo.mime, memo.filename) else memo.source
  }

  /** Some chunk was written and the first has no vector. */
  predicate Bare(row: DocumentRow) {
    row.chunks != [] && row.chunks[0].vector.None?
  }

  /** Nothing in the run's own data will make it raise. With batch size 0 the run started afresh and embeds nothing. */
  ghost predicate OnTrack(w: World, s: State)
    requires WellFormed(s)
  {
    && w.batchSize >= 0 && s.worker.Busy?
    && var Busy(j, pc, memo) := s.worker; var row := s.documents[s.jobs[j].document];
       && !Failing(pc)
       && ((pc.Load? && memo.written == 0) || Opening(pc) || Building(pc) ==> w.chunkOf(ToParse(row, pc, memo)) != [])
       && (pc.Finish? ==> row.status == READY)
       && (Filling(pc) && memo.source != NO_SOURCE ==> row.chunks != [])
       && (w.batchSize == 0 ==> (pc.Load? ==> memo.written == 0) && (Filling(pc) ==> Bare(row)))
  }

  function Order(pc: Pc): nat {
    match pc
    case Load => 20
    case Note(stage) => (match stage case PARSING => 19 case PROFILING => 15 case CHUNKING => 13 case _ => 10)
    case Mark(stage) => (match stage case PARSING => 18 case PROFILING => 14 case CHUNKING => 12 case _ => 9)
    case ReadFile => 17
    case PageCount => 16
    case Write => 11
    case Count => 8
    case Fetch => 7
    case Commit(_) => 7
    case Report => 7
    case SetReady => 6
    case Finish => 5
    case Release => 4
    case Check => 3
    case MarkFailed => 2
  }

  /** How far the embedding loop is from its end, by the number of NULL vectors. */
  function LoopLeft(row: DocumentRow, pc: Pc): int {
    var missing := |row.chunks| - Vectors(row.chunks);
    if pc.Report? then 4 * missing + 1
    else if pc.Commit? then (if missing == 0 then 2 else 4 * missing - 1)
    else 4 * missing
  }

  /** Rows that differ at most in status and chunks. */
  predicate SameUpload(row: DocumentRow, row': DocumentRow) {
    row'.workspace == row.workspace && row'.hash == row.hash && row'.version == row.version && row'.File() == row.File()
  }

  /** Only job `j` and the status and chunks of its document differ. */
  ghost predicate Beside(s: State, s': State, j: nat)
    requires WellFormed(s) && j < |s.jobs|
  {
    && |s'.documents| == |s.documents| && |s'.jobs| == |s.jobs|
    && s'.jobs[j].document == s.jobs[j].document
    && (forall k :: 0 <= k < |s.jobs| && k != j ==> s'.jobs[k] == s.jobs[k])
    && (forall d :: 0 <= d < |s.documents| && d != s.jobs[j].document ==> s'.documents[d] == s.documents[d])
    && SameUpload(s.documents[s.jobs[j].document], s'.documents[s.jobs[j].document])
  }

  lemma RowBeside(s: State, s': State, j: nat)
    requires WellFormed(s) && j < |s.jobs| && s'.jobs == s.jobs && |s'.documents| == |s.documents|
    requires var d := s.jobs[j].document; s'.documents == s.documents[d := s'.documents[d]] && SameUpload(s.documents[d], s'.documents[d])
    ensures Beside(s, s', j)
  {
  }

  lemma JobBeside(s: State, s': State, j: nat)
    requires WellFormed(s) && j < |s.jobs| == |s'.jobs| && s'.documents == s.documents
    requires s'.jobs == s.jobs[j := s'.jobs[j]] && s'.jobs[j].document == s.jobs[j].document
    ensures Beside(s, s', j)
  {
  }

  lemma StepStaysBeside(w: World, s: State, headers: seq<string>, paged: bool)
    requires WellFormed(s) && s.worker.Busy?
    ensures Beside(s, Stepped(w, s, headers, paged), s.worker.job)
  {
    hide NextBatch, Filled, Vectors, FreshRows, Opening, Building, Failing, Beside;
    var pc := s.worker.pc;
    if pc.Note? || pc.Report? || pc.Finish? || pc.Release? {
      JobBeside(s, Stepped(w, s, headers, paged), s.worker.job);
    } else {
      RowBeside(s, Stepped(w, s, headers, paged), s.worker.job);
    }
  }

  /** The document the busy worker runs on. */
  function RowOf(s: State): DocumentRow
    requires WellFormed(s) && s.worker.Busy?
  {
    s.documents[s.jobs[s.worker.job].document]
  }

  lemma OpeningStepStaysOnTrack(w: World, s: State, s': State, headers: seq<string>, paged: bool)
    requires WellFormed(s) && OnTrack(w, s) && (s.worker.pc.Load? || Opening(s.worker.pc)) && s' == Stepped(w, s, headers, paged) && WellFormed(s')
    requires BusyGood(w, RowOf(s), s.jobs[s.worker.job], s.worker.pc, s.worker.memo)
    ensures OnTrack(w, s') && s'.worker.job == s.worker.job
  {
    hide NextBatch, Filled, Vectors, FreshRows, ContentsOf, AllEmbedded, Orderly;
  }

  lemma BuildingStepStaysOnTrack(w: World, s: State, s': State, headers: seq<string>, paged: bool)
    requires WellFormed(s) && OnTrack(w, s) && Building(s.worker.pc) && s' == Stepped(w, s, headers, paged) && WellFormed(s')
    requires BusyGood(w, RowOf(s), s.jobs[s.worker.job], s.worker.pc, s.worker.memo)
    ensures OnTrack(w, s') && s'.worker.job == s.worker.job
  {
    hide NextBatch, Filled, Vectors, ContentsOf, AllEmbedded, Orderly;
  }

  lemma LateStepStaysOnTrack(w: World, s: State, s': State, headers: seq<string>, paged: bool)
    requires WellFormed(s) && OnTrack(w, s) && Filling(s.worker.pc) && !s.worker.pc.Finish? && s' == Stepped(w, s, headers, paged) && WellFormed(s')
    requires BusyGood(w, RowOf(s), s.jobs[s.worker.job], s.worker.pc, s.worker.memo)
    ensures OnTrack(w, s') && s'.worker.job == s.worker.job
  {
    hide Vectors, FreshRows, ContentsOf, AllEmbedded, Orderly;
  }

  /** What is left to do, as a stage and a place in the embedding loop. */
  ghost predicate Closer(s: State, s': State)
    requires WellFormed(s) && s.worker.Busy? && s'.worker.Busy? && |s'.documents| == |s.documents|
  {
    var d, pc, pc' := s.jobs[s.worker.job].document, s.worker.pc, s'.worker.pc;
    Order(pc') < Order(pc) || (Order(pc') == Order(pc) && 0 <= LoopLeft(s'.documents[d], pc') < LoopLeft(s.documents[d], pc))
  }

  lemma FewerMissing(rows: seq<ChunkRow>, size: nat, vectorOf: string -> Vector)
    requires Orderly(rows, vectorOf)
    ensures var more := Filled(rows, NextBatch(rows, size), vectorOf);
      |more| == |rows| && Vectors(more) == Vectors(rows) + |NextBatch(rows, size)|
  {
    CommitExtendsPrefix(rows, size, vectorOf);
  }

  lemma LoopGetsCloser(w: World, s: State, headers: seq<string>, paged: bool)
    requires WellFormed(s) && OnTrack(w, s) && (s.worker.pc.Fetch? || s.worker.pc.Commit?)
    requires BusyGood(w, RowOf(s), s.jobs[s.worker.job], s.worker.pc, s.worker.memo)
    requires Orderly(RowOf(s).chunks, w.vectorOf)
    ensures Closer(s, Stepped(w, s, headers, paged))
  {
    var pc := s.worker.pc;
    var rows := RowOf(s).chunks;
    if pc.Fetch? {
      if w.batchSize > 0 { EmptyBatchMeansDone(rows, w.batchSize, w.vectorOf); }
      hide Orderly, NextBatch, Filled, Vectors, FreshRows, Opening, Building, Filling, Failing, AllEmbedded;
    } else {
      if rows == [] { assert Filled(rows, pc.batch, w.vectorOf) == rows; }
      else { FewerMissing(rows, w.batchSize, w.vectorOf); }
      hide Orderly, NextBatch, Filled, Vectors, FreshRows, Opening, Building, Filling, Failing, AllEmbedded;
    }
  }

  /** Each step comes closer to the end: a later stage, or the same loop with fewer vectors missing. */
  lemma StepGetsCloser(w: World, s: State, headers: seq<string>, paged: bool)
    requires WellFormed(s) && OnTrack(w, s) && !s.worker.pc.Finish?
    requires BusyGood(w, RowOf(s), s.jobs[s.worker.job], s.worker.pc, s.worker.memo)
    requires Orderly(RowOf(s).chunks, w.vectorOf)
    ensures var s' := Stepped(w, s, headers, paged); s'.worker.Busy? && |s'.documents| == |s.documents| && Closer(s, s')
  {
    if s.worker.pc.Fetch? || s.worker.pc.Commit? {
      LoopGetsCloser(w, s, headers, paged);
      hide Closer, LoopLeft, Order;
    }
    hide Orderly, NextBatch, Filled, FreshRows, Vectors;
  }

  lemma Unpacked(w: World, s: State)
    requires Inv(w, s) && s.worker.Busy?
    ensures BusyGood(w, RowOf(s), s.jobs[s.worker.job], s.worker.pc, s.worker.memo)
    ensures Orderly(RowOf(s).chunks, w.vectorOf) && LoopLeft(RowOf(s), s.worker.pc) >= 0
  {
    assert RowGood(w, RowOf(s), s.jobs[LastJob(s.jobs, s.jobs[s.worker.job].document)]);
    hide Inv, LastJob, RowGood;
  }

  /** The file a run has read stays its file, and once chunks are written they stay those of the file they were
      written from. */
  ghost predicate KeepsSource(s: State, s': State)
    requires WellFormed(s) && WellFormed(s')
  {
    s.worker.Busy? && s'.worker.Busy? && (Building(s.worker.pc) || Filling(s.worker.pc)) ==>
      && (Building(s'.worker.pc) || Filling(s'.worker.pc)) && s'.worker.memo.source == s.worker.memo.source
      && (Filling(s.worker.pc) ==> Filling(s'.worker.pc) && RowOf(s').origin == RowOf(s).origin)
  }

  lemma StepKeepsSource(w: World, s: State, headers: seq<string>, paged: bool)
    requires WellFormed(s) && OnTrack(w, s) && OnTrack(w, Stepped(w, s, headers, paged))
    ensures KeepsSource(s, Stepped(w, s, headers, paged))
  {
    hide NextBatch, Filled, Vectors, FreshRows;
  }

  /** One step of a run on track. */
  lemma OneStep(w: World, s: State, headers: seq<string>, paged: bool)
    requires Inv(w, s) && OnTrack(w, s) && !s.worker.pc.Finish?
    ensures var s' := Stepped(w, s, headers, paged);
      && Inv(w, s') && OnTrack(w, s') && s'.worker.Busy? && s'.worker.job == s.worker.job
      && |s'.documents| == |s.documents| && Closer(s, s') && Beside(s, s', s.worker.job) && KeepsSource(s, s')
  {
    Unpacked(w, s);
    WorkerStepKeeps(w, s, headers, paged);
    SteppedStaysWellFormed(w, s, headers, paged);
    if Filling(s.worker.pc) {
      LateStepStaysOnTrack(w, s, Stepped(w, s, headers, paged), headers, paged);
    } else if Building(s.worker.pc) {
      BuildingStepStaysOnTrack(w, s, Stepped(w, s, headers, paged), headers, paged);
    } else {
      OpeningStepStaysOnTrack(w, s, Stepped(w, s, headers, paged), headers, paged);
    }
    StepStaysBeside(w, s, headers, paged);
    StepGetsCloser(w, s, headers, paged);
    StepKeepsSource(w, s, headers, paged);
    hide Inv, Stepped, BusyGood, Orderly, Closer, KeepsSource;
  }

  lemma BesideTwice(a: State, b: State, c: State, j: nat)
    requires WellFormed(a) && WellFormed(b) && j < |a.jobs| && Beside(a, b, j) && Beside(b, c, j)
    ensures Beside(a, c, j)
  {
  }

  lemma AfterBusy(w: World, s: State, replies: Replies, first: nat, n: nat)
    requires WellFormed(s) && s.worker.Busy? && WellFormed(Stepped(w, s, replies(first).0, replies(first).1))
    ensures After(w, s, replies, first, n + 1) == After(w, Stepped(w, s, replies(first).0, replies(first).1), replies, first + 1, n)
  {
    hide Stepped;
  }

  /** `s'` is about to mark the document of the run under way in `s` READY, with nothing else touched. */
  ghost predicate AboutToBeReady(w: World, s: State, s': State)
    requires WellFormed(s) && WellFormed(s') && s.worker.Busy?
  {
    && Inv(w, s') && OnTrack(w, s') && s'.worker.Busy? && s'.worker.pc.SetReady?
    && s'.worker.job == s.worker.job && Beside(s, s', s.worker.job) && KeepsSource(s, s')
  }

  lemma ReadyOneLater(w: World, s: State, next: State, s': State)
    requires WellFormed(s) && WellFormed(next) && WellFormed(s') && s.worker.Busy? && next.worker.Busy?
    requires next.worker.job == s.worker.job && Beside(s, next, s.worker.job) && KeepsSource(s, next) && AboutToBeReady(w, next, s')
    ensures AboutToBeReady(w, s, s')
  {
    BesideTwice(s, next, s', s.worker.job);
  }

  lemma AlreadyThere(w: World, s: State, replies: Replies, first: nat)
    requires Inv(w, s) && OnTrack(w, s) && s.worker.Busy? && s.worker.pc.SetReady?
    ensures AboutToBeReady(w, s, After(w, s, replies, first, 0))
  {
    hide Inv, OnTrack;
  }

  /** One step of a run on track that has not come to its end. */
  lemma NextOnTrack(w: World, s: State, headers: seq<string>, paged: bool) returns (next: State)
    requires Inv(w, s) && OnTrack(w, s) && !s.worker.pc.Finish? && !s.worker.pc.SetReady?
    ensures next == Stepped(w, s, headers, paged) && WellFormed(next) && Inv(w, next) && OnTrack(w, next)
    ensures next.worker.Busy? && next.worker.job == s.worker.job && !next.worker.pc.Finish?
    ensures Beside(s, next, s.worker.job) && KeepsSource(s, next)
    ensures Order(next.worker.pc) < Order(s.worker.pc)
      || (Order(next.worker.pc) == Order(s.worker.pc) && 0 <= LoopLeft(RowOf(next), next.worker.pc) < LoopLeft(RowOf(s), s.worker.pc))
  {
    next := Stepped(w, s, headers, paged);
    OneStep(w, s, headers, paged);
    OnlySetReadyFinishes(w, s, headers, paged);
    assert next.jobs[next.worker.job].document == s.jobs[s.worker.job].document;
    hide Stepped, OnTrack, Beside, KeepsSource, Order, LoopLeft, BusyGood, DocsGood, JobsGood, HashesDistinct, WorkerGood;
  }

  /** `n` undisturbed steps take the run under way to its READY transaction. */
  ghost predicate Reaches(w: World, s: State, replies: Replies, first: nat, n: nat) {
    WellFormed(s) && s.worker.Busy? && AboutToBeReady(w, s, After(w, s, replies, first, n))
  }

  /** `next` follows `s`, the same run one step later. */
  ghost predicate Leads(w: World, s: State, next: State, replies: Replies, first: nat) {
    && WellFormed(s) && s.worker.Busy? && next == Stepped(w, s, replies(first).0, replies(first).1)
    && WellFormed(next) && next.worker.Busy? && next.worker.job == s.worker.job
    && Beside(s, next, s.worker.job) && KeepsSource(s, next)
  }

  lemma ReachesLater(w: World, s: State, next: State, replies: Replies, first: nat, m: nat)
    requires Leads(w, s, next, replies, first) && Reaches(w, next, replies, first + 1, m)
    ensures Reaches(w, s, replies, first, m + 1)
  {
    hide Stepped, AboutToBeReady, Beside, KeepsSource, After;
    AfterBusy(w, s, replies, first, m);
    ReadyOneLater(w, s, next, After(w, next, replies, first + 1, m));
  }

  /** A run on track, with its stage and its place in the embedding loop. */
  ghost predicate Going(w: World, s: State, order: nat, left: int) {
    && Inv(w, s) && s.worker.Busy? && OnTrack(w, s) && !s.worker.pc.Finish?
    && order == Order(s.worker.pc) && left == LoopLeft(RowOf(s), s.worker.pc) >= 0
  }

  lemma GoesOn(w: World, s: State, replies: Replies, first: nat, order: nat, left: int) returns (next: State, order': nat, left': int)
    requires Going(w, s, order, left) && WellFormed(s) && s.worker.Busy? && !s.worker.pc.SetReady?
    ensures Leads(w, s, next, replies, first) && WellFormed(next) && next.worker.Busy?
    ensures Going(w, next, order', left') && (order' < order || (order' == order && left' < left))
  {
    next := NextOnTrack(w, s, replies(first).0, replies(first).1);
    Unpacked(w, next);
    order', left' := Order(next.worker.pc), LoopLeft(RowOf(next), next.worker.pc);
    hide Inv, OnTrack, Stepped, Beside, KeepsSource, WellFormed, Order, LoopLeft, BusyGood, Orderly;
  }

  lemma ReachesNow(w: World, s: State, replies: Replies, first: nat, order: nat, left: int) returns (n: nat)
    requires Going(w, s, order, left) && s.worker.Busy? && s.worker.pc.SetReady?
    ensures Reaches(w, s, replies, first, n)
  {
    n := 0;
    AlreadyThere(w, s, replies, first);
    hide OnTrack, AboutToBeReady, After, DocsGood, JobsGood, HashesDistinct, WorkerGood;
  }

  lemma {:induction false} ComesToReady(w: World, s: State, replies: Replies, first: nat, order: nat, left: int) returns (n: nat)
    requires Going(w, s, order, left) && WellFormed(s) && s.worker.Busy?
    ensures Reaches(w, s, replies, first, n)
    decreases order, left
  {
    hide *;
    if s.worker.pc.SetReady? {
      n := ReachesNow(w, s, replies, first, order, left);
    } else {
      LeftIsCounted(w, s, order, left);
      var next, order', left' := GoesOn(w, s, replies, first, order, left);
      LeftIsCounted(w, next, order', left');
      var m := ComesToReady(w, next, replies, first + 1, order', left');
      ReachesLater(w, s, next, replies, first, m);
      n := m + 1;
    }
  }

  lemma LeftIsCounted(w: World, s: State, order: nat, left: int)
    requires Going(w, s, order, left)
    ensures left >= 0
  {
  }

  /** A run on track has every chunk embedded after finitely many steps, and touches nothing else on the way. */
  lemma ReachesSetReady(w: World, s: State, replies: Replies, first: nat) returns (n: nat)
    requires Inv(w, s) && OnTrack(w, s) && s.worker.Busy? && !s.worker.pc.Finish?
    ensures AboutToBeReady(w, s, After(w, s, replies, first, n))
  {
    Unpacked(w, s);
    n := ComesToReady(w, s, replies, first, Order(s.worker.pc), LoopLeft(RowOf(s), s.worker.pc));
    hide AboutToBeReady, After, Inv, OnTrack;
  }

  lemma OnlySetReadyFinishes(w: World, s: State, headers: seq<string>, paged: bool)
    requires WellFormed(s) && s.worker.Busy? && !s.worker.pc.SetReady?
    ensures Stepped(w, s, headers, paged).worker.Busy? ==> !Stepped(w, s, headers, paged).worker.pc.Finish?
  {
    hide NextBatch, Filled, Vectors, FreshRows;
  }

  /** Job `j` has its chunks already, or its document's stored file has text. */
  predicate CanFinish(w: World, s: State, j: nat)
    requires WellFormed(s) && j < |s.jobs|
  {
    s.jobs[j].written > 0 || w.chunkOf(s.documents[s.jobs[j].document].File()) != []
  }

  lemma ClaimIsOnTrack(w: World, s: State)
    requires Inv(w, s) && s.worker.Idle? && OldestPending(s.jobs) < |s.jobs|
    requires w.batchSize > 0 || (w.batchSize == 0 && s.jobs[OldestPending(s.jobs)].written == 0)
    requires CanFinish(w, s, OldestPending(s.jobs))
    ensures var j, s' := OldestPending(s.jobs), ClaimedBy(s);
      Inv(w, s') && s'.worker.Busy? && s'.worker.job == j && !s'.worker.pc.Finish? && OnTrack(w, s') && Beside(s, s', j)
  {
    ClaimKeeps(w, s);
    hide Inv;
  }

  /** From the last embedded chunk to the end: the document becomes READY, then the job SUCCEEDED. */
  ghost predicate Closes(w: World, s: State, s': State)
    requires WellFormed(s) && WellFormed(s') && s.worker.Busy?
  {
    && Inv(w, s') && s'.worker.Idle? && Beside(s, s', s.worker.job) && s'.jobs[s.worker.job].status.Succeeded?
    && s'.documents[s.jobs[s.worker.job].document] == RowOf(s).(status := READY, indexed := true)
  }

  lemma LastStates(w: World, s: State, s1: State, s2: State, headers: seq<string>, paged: bool, headers': seq<string>, paged': bool)
    requires WellFormed(s) && s.worker.Busy? && s.worker.pc.SetReady? && s1 == Stepped(w, s, headers, paged)
    requires WellFormed(s1) && s1.worker.Busy? && s2 == Stepped(w, s1, headers', paged') && WellFormed(s2) && Inv(w, s2)
    ensures Closes(w, s, s2)
  {
    hide Inv;
  }

  lemma TwoSteps(w: World, s: State, s1: State, replies: Replies, first: nat)
    requires WellFormed(s) && s.worker.Busy? && s1 == Stepped(w, s, replies(first).0, replies(first).1)
    requires WellFormed(s1) && s1.worker.Busy? && WellFormed(Stepped(w, s1, replies(first + 1).0, replies(first + 1).1))
    ensures After(w, s, replies, first, 2) == Stepped(w, s1, replies(first + 1).0, replies(first + 1).1)
  {
    hide Stepped;
    AfterBusy(w, s, replies, first, 1);
    AfterBusy(w, s1, replies, first + 1, 0);
    assert forall t :: WellFormed(t) ==> After(w, t, replies, first + 2, 0) == t;
    hide After, WellFormed;
  }

  lemma LastSteps(w: World, s: State, replies: Replies, first: nat) returns (n: nat)
    requires Inv(w, s) && s.worker.Busy? && s.worker.pc.SetReady?
    ensures Closes(w, s, After(w, s, replies, first, n))
  {
    n := 2;
    var s1 := Stepped(w, s, replies(first).0, replies(first).1);
    WorkerStepKeeps(w, s, replies(first).0, replies(first).1);
    assert s1.worker.Busy?;
    WorkerStepKeeps(w, s1, replies(first + 1).0, replies(first + 1).1);
    InvIsWellFormed(w, s);
    InvIsWellFormed(w, s1);
    hide *;
    InvIsWellFormed(w, Stepped(w, s1, replies(first + 1).0, replies(first + 1).1));
    TwoSteps(w, s, s1, replies, first);
    LastStates(w, s, s1, After(w, s, replies, first, 2), replies(first).0, replies(first).1, replies(first + 1).0, replies(first + 1).1);
  }

  lemma InvIsWellFormed(w: World, s: State)
    requires Inv(w, s)
    ensures WellFormed(s)
  {
  }

  /** What an undisturbed run of job `j` achieves. */
  ghost predicate Indexed(w: World, s: State, s': State, j: nat)
    requires WellFormed(s) && WellFormed(s') && j < |s.jobs|
  {
    && Inv(w, s') && s'.worker.Idle? && Beside(s, s', j)
    && s'.jobs[j].status.Succeeded? && s'.documents[s.jobs[j].document].status == READY
    && (w.batchSize == 0 ==> Bare(s'.documents[s.jobs[j].document]))
  }

  lemma AfterIdle(w: World, s: State, replies: Replies, first: nat, n: nat)
    requires WellFormed(s) && s.worker.Idle? && WellFormed(ClaimedBy(s))
    ensures After(w, s, replies, first, n + 1) == After(w, ClaimedBy(s), replies, first + 1, n)
  {
    hide ClaimedBy;
  }

  lemma ClosedFromReady(w: World, s: State, ready: State, s': State)
    requires WellFormed(s) && WellFormed(ready) && WellFormed(s') && s.worker.Busy?
    requires AboutToBeReady(w, s, ready) && Closes(w, ready, s')
    ensures Indexed(w, s, s', s.worker.job)
  {
    hide Inv;
    BesideTwice(s, ready, s', s.worker.job);
  }

  /** `n` undisturbed steps take the run under way to its end. */
  ghost predicate Finishes(w: World, s: State, replies: Replies, first: nat, n: nat) {
    WellFormed(s) && s.worker.Busy? && Indexed(w, s, After(w, s, replies, first, n), s.worker.job)
  }

  lemma ReadyIs(w: World, s: State, ready: State)
    requires WellFormed(s) && WellFormed(ready) && s.worker.Busy? && AboutToBeReady(w, s, ready)
    ensures Inv(w, ready) && ready.worker.Busy? && ready.worker.pc.SetReady?
  {
    hide Inv, OnTrack, Beside, KeepsSource;
  }

  lemma LastTwoFinish(w: World, s: State, replies: Replies, first: nat, m: nat) returns (n: nat)
    requires WellFormed(s) && s.worker.Busy? && AboutToBeReady(w, s, After(w, s, replies, first, m))
    ensures Finishes(w, s, replies, first, m + n)
  {
    hide *;
    var ready := After(w, s, replies, first, m);
    ReadyIs(w, s, ready);
    n := LastSteps(w, ready, replies, first + m);
    AfterAdds(w, s, replies, first, m, n);
    ClosedFromReady(w, s, ready, After(w, ready, replies, first + m, n));
    IndexedFinishes(w, s, replies, first, m + n);
  }

  lemma IndexedFinishes(w: World, s: State, replies: Replies, first: nat, n: nat)
    requires WellFormed(s) && s.worker.Busy? && Indexed(w, s, After(w, s, replies, first, n), s.worker.job)
    ensures Finishes(w, s, replies, first, n)
  {
    hide Indexed, After;
  }

  lemma FinishesAndCloses(w: World, s: State, replies: Replies, first: nat) returns (n: nat)
    requires Inv(w, s) && OnTrack(w, s) && s.worker.Busy? && !s.worker.pc.Finish?
    ensures Finishes(w, s, replies, first, n)
  {
    assert WellFormed(s);
    hide *;
    var m := ReachesSetReady(w, s, replies, first);
    n := LastTwoFinish(w, s, replies, first, m);
    n := m + n;
  }

  /** An idle worker left alone takes the oldest pending job through to SUCCEEDED and its document to READY,
      wherever an earlier attempt stopped. */
  lemma OldestJobIsFinished(w: World, s: State, replies: Replies, first: nat) returns (n: nat)
    requires Inv(w, s) && s.worker.Idle? && OldestPending(s.jobs) < |s.jobs| && w.batchSize > 0
    requires CanFinish(w, s, OldestPending(s.jobs))
    ensures Indexed(w, s, After(w, s, replies, first, n), OldestPending(s.jobs))
  {
    hide *;
    InvIsWellFormed(w, s);
    ClaimIsOnTrack(w, s);
    InvIsWellFormed(w, ClaimedBy(s));
    var claimed := ClaimedBy(s);
    var m := FinishesAndCloses(w, claimed, replies, first + 1);
    FinishedFromClaim(w, s, claimed, replies, first + 1, m);
    AfterIdle(w, s, replies, first, m);
    n := m + 1;
  }

  lemma FinishedFromClaim(w: World, s: State, claimed: State, replies: Replies, first: nat, n: nat)
    requires WellFormed(s) && WellFormed(claimed) && claimed.worker.Busy? && claimed.worker.job < |s.jobs| && Beside(s, claimed, claimed.worker.job)
    requires Finishes(w, claimed, replies, first, n)
    ensures Indexed(w, s, After(w, claimed, replies, first, n), claimed.worker.job)
  {
    hide Inv, After, Bare;
    BesideTwice(s, claimed, After(w, claimed, replies, first, n), claimed.worker.job);
  }

  // ---------------------------------------------------------------- a file without text

  /** The run under way started afresh on a file without text: it has not come to the chunk write yet, or has raised there. */
  ghost predicate Doomed(w: World, s: State) {
    && Inv(w, s) && s.worker.Busy?
    && var Busy(j, pc, memo) := s.worker;
       var job, row := s.jobs[j], s.documents[s.jobs[j].document];
       && job.written == 0
       && (pc.Load? ==> memo.written == 0)
       && (if Failing(pc) then true else (pc.Load? || Opening(pc) || Building(pc)) && w.chunkOf(ToParse(row, pc, memo)) == [])
       && (pc.Check? ==> job.status.Failed? || (job.status.Pending? && job.attempts < w.maxAttempts))
       && (pc.MarkFailed? ==> job.status.Failed?)
  }

  /** The attempt of job `j` is over without chunks: the job waits for its next attempt, or it and its document are FAILED. */
  ghost predicate GaveUp(w: World, s: State, s': State, j: nat)
    requires WellFormed(s) && WellFormed(s') && j < |s.jobs|
  {
    && Inv(w, s') && s'.worker.Idle? && Beside(s, s', j)
    && s'.jobs[j].written == 0 && s'.jobs[j].attempts == s.jobs[j].attempts
    && (s'.jobs[j].status.Failed? || (s'.jobs[j].status.Pending? && s'.jobs[j].attempts < w.maxAttempts))
    && (s'.jobs[j].status.Failed? ==> s'.documents[s.jobs[j].document].status == FAILED)
  }

  /** `next` follows `s`, the same doomed run one step later. */
  ghost predicate Sinks(w: World, s: State, next: State)
    requires WellFormed(s) && s.worker.Busy? && WellFormed(next)
  {
    && Doomed(w, next) && next.worker.job == s.worker.job && Order(next.worker.pc) < Order(s.worker.pc)
    && Beside(s, next, s.worker.job) && next.jobs[s.worker.job].attempts == s.jobs[s.worker.job].attempts
  }

  lemma DoomedStep(w: World, s: State, s': State, headers: seq<string>, paged: bool)
    requires Doomed(w, s) && WellFormed(s) && s.worker.Busy? && s' == Stepped(w, s, headers, paged) && WellFormed(s') && Inv(w, s')
    requires BusyGood(w, RowOf(s), s.jobs[s.worker.job], s.worker.pc, s.worker.memo) && Beside(s, s', s.worker.job)
    ensures Sinks(w, s, s') || GaveUp(w, s, s', s.worker.job)
  {
    if Failing(s.worker.pc) { FailingStep(w, s, s', headers, paged); } else { SinkingStep(w, s, s', headers, paged); }
    hide *;
  }

  lemma SinkingStep(w: World, s: State, s': State, headers: seq<string>, paged: bool)
    requires Doomed(w, s) && WellFormed(s) && s.worker.Busy? && s' == Stepped(w, s, headers, paged) && WellFormed(s') && Inv(w, s')
    requires BusyGood(w, RowOf(s), s.jobs[s.worker.job], s.worker.pc, s.worker.memo) && Beside(s, s', s.worker.job)
    requires !Failing(s.worker.pc)
    ensures Sinks(w, s, s') || GaveUp(w, s, s', s.worker.job)
  {
    hide Inv, NextBatch, Filled, Vectors, FreshRows, AllEmbedded, ContentsOf, Beside, GiveBack, Close;
  }

  lemma FailingStep(w: World, s: State, s': State, headers: seq<string>, paged: bool)
    requires Doomed(w, s) && WellFormed(s) && s.worker.Busy? && s' == Stepped(w, s, headers, paged) && WellFormed(s') && Inv(w, s')
    requires BusyGood(w, RowOf(s), s.jobs[s.worker.job], s.worker.pc, s.worker.memo) && Beside(s, s', s.worker.job)
    requires Failing(s.worker.pc)
    ensures Sinks(w, s, s') || GaveUp(w, s, s', s.worker.job)
  {
    hide Inv, NextBatch, Filled, Vectors, FreshRows, AllEmbedded, ContentsOf, Beside, Close;
  }

  /** One step later, the run is still sinking, or has ended. */
  lemma DoomedNext(w: World, s: State, replies: Replies, first: nat) returns (next: State)
    requires Doomed(w, s) && WellFormed(s) && s.worker.Busy?
    ensures next == Stepped(w, s, replies(first).0, replies(first).1) && WellFormed(next) && s.worker.job < |s.jobs|
    ensures Sinks(w, s, next) || GaveUp(w, s, next, s.worker.job)
  {
    next := Stepped(w, s, replies(first).0, replies(first).1);
    assert Inv(w, s) && s.worker.job < |s.jobs|;
    hide *;
    Unpacked(w, s);
    WorkerStepKeeps(w, s, replies(first).0, replies(first).1);
    SteppedStaysWellFormed(w, s, replies(first).0, replies(first).1);
    StepStaysBeside(w, s, replies(first).0, replies(first).1);
    DoomedStep(w, s, next, replies(first).0, replies(first).1);
  }

  lemma GaveUpLater(w: World, s: State, next: State, s': State, j: nat)
    requires WellFormed(s) && s.worker.Busy? && s.worker.job == j && WellFormed(next) && Sinks(w, s, next) && WellFormed(s') && j < |s.jobs| == |next.jobs| && GaveUp(w, next, s', j)
    ensures GaveUp(w, s, s', j)
  {
    hide Inv;
    BesideTwice(s, next, s', j);
  }

  /** `n` undisturbed steps end the attempt under way. */
  ghost predicate Ends(w: World, s: State, replies: Replies, first: nat, n: nat) {
    WellFormed(s) && s.worker.Busy? && GaveUp(w, s, After(w, s, replies, first, n), s.worker.job)
  }

  lemma EndsNow(w: World, s: State, next: State, replies: Replies, first: nat) returns (n: nat)
    requires WellFormed(s) && s.worker.Busy? && next == Stepped(w, s, replies(first).0, replies(first).1) && WellFormed(next)
    requires GaveUp(w, s, next, s.worker.job)
    ensures Ends(w, s, replies, first, n)
  {
    n := 1;
    hide GaveUp, Stepped;
    AfterBusy(w, s, replies, first, 0);
    assert After(w, next, replies, first + 1, 0) == next;
    hide After;
  }

  lemma EndsLater(w: World, s: State, next: State, replies: Replies, first: nat, m: nat)
    requires WellFormed(s) && s.worker.Busy? && next == Stepped(w, s, replies(first).0, replies(first).1) && WellFormed(next)
    requires Sinks(w, s, next) && Ends(w, next, replies, first + 1, m)
    ensures Ends(w, s, replies, first, m + 1)
  {
    hide GaveUp, Stepped, After, Inv;
    assert |s.jobs| == |next.jobs|;
    AfterBusy(w, s, replies, first, m);
    GaveUpLater(w, s, next, After(w, next, replies, first + 1, m), s.worker.job);
  }

  lemma SinksMeans(w: World, s: State, next: State)
    requires WellFormed(s) && s.worker.Busy? && WellFormed(next) && Sinks(w, s, next)
    ensures Doomed(w, next) && next.worker.Busy? && Order(next.worker.pc) < Order(s.worker.pc)
  {
    hide Inv, Beside;
  }

  /** A run on a file without text ends its attempt and touches nothing else. */
  lemma {:induction false} DoomedEnds(w: World, s: State, replies: Replies, first: nat) returns (n: nat)
    requires Doomed(w, s) && WellFormed(s) && s.worker.Busy?
    ensures Ends(w, s, replies, first, n)
    decreases Order(s.worker.pc)
  {
    hide *;
    var next := DoomedNext(w, s, replies, first);
    if GaveUp(w, s, next, s.worker.job) {
      n := EndsNow(w, s, next, replies, first);
    } else {
      SinksMeans(w, s, next);
      var m := DoomedEnds(w, next, replies, first + 1);
      EndsLater(w, s, next, replies, first, m);
      n := m + 1;
    }
  }

  lemma ClaimIsDoomed(w: World, s: State)
    requires Inv(w, s) && WellFormed(s) && s.worker.Idle? && OldestPending(s.jobs) < |s.jobs| && !CanFinish(w, s, OldestPending(s.jobs))
    ensures var j, claimed := OldestPending(s.jobs), ClaimedBy(s);
      && WellFormed(claimed) && Doomed(w, claimed) && claimed.worker.Busy? && claimed.worker.job == j && Beside(s, claimed, j)
      && claimed.jobs[j].attempts == s.jobs[j].attempts + 1
  {
    ClaimKeeps(w, s);
    hide Inv;
  }

  // ---------------------------------------------------------------- one attempt, whatever the file

  /** What one undisturbed attempt makes of job `j`: with chunks or text it ends SUCCEEDED with its document READY; without,
      it waits for its next attempt or both end FAILED. */
  ghost predicate Attempted(w: World, s: State, s': State, j: nat)
    requires WellFormed(s) && WellFormed(s') && j < |s.jobs|
  {
    && Inv(w, s') && s'.worker.Idle? && Beside(s, s', j)
    && Tries(s'.jobs[j], w.maxAttempts) < Tries(s.jobs[j], w.maxAttempts)
    && (CanFinish(w, s, j) ==> s'.jobs[j].status.Succeeded? && s'.documents[s.jobs[j].document].status == READY)
    && (!CanFinish(w, s, j) ==> s'.jobs[j].written == 0 && (s'.jobs[j].status.Pending? || s'.jobs[j].status.Failed?))
    && (s'.jobs[j].status.Failed? ==> s'.documents[s.jobs[j].document].status == FAILED)
  }

  lemma IndexedIsAttempted(w: World, s: State, s': State, j: nat)
    requires WellFormed(s) && WellFormed(s') && j < |s.jobs| && s.jobs[j].status.Pending? && CanFinish(w, s, j) && Indexed(w, s, s', j)
    ensures Attempted(w, s, s', j)
  {
    hide Inv, Beside;
  }

  lemma GaveUpIsAttempted(w: World, s: State, claimed: State, s': State, j: nat)
    requires WellFormed(s) && WellFormed(claimed) && WellFormed(s') && j < |s.jobs| == |claimed.jobs| && s.jobs[j].status.Pending? && !CanFinish(w, s, j)
    requires Beside(s, claimed, j) && claimed.jobs[j].attempts == s.jobs[j].attempts + 1 && GaveUp(w, claimed, s', j)
    ensures Attempted(w, s, s', j)
  {
    hide Inv;
    BesideTwice(s, claimed, s', j);
  }

  lemma EndsMeans(w: World, s: State, replies: Replies, first: nat, n: nat)
    requires WellFormed(s) && s.worker.Busy? && Ends(w, s, replies, first, n)
    ensures GaveUp(w, s, After(w, s, replies, first, n), s.worker.job)
  {
    hide GaveUp, After;
  }

  lemma DoomedAttempt(w: World, s: State, replies: Replies, first: nat) returns (m: nat, s': State)
    requires Inv(w, s) && WellFormed(s) && s.worker.Idle? && OldestPending(s.jobs) < |s.jobs| && !CanFinish(w, s, OldestPending(s.jobs))
    ensures s' == After(w, s, replies, first, m) && WellFormed(s') && Attempted(w, s, s', OldestPending(s.jobs))
  {
    hide *;
    ClaimIsDoomed(w, s);
    var claimed := ClaimedBy(s);
    m := DoomedEnds(w, claimed, replies, first + 1);
    EndsMeans(w, claimed, replies, first + 1, m);
    AfterIdle(w, s, replies, first, m);
    s' := After(w, claimed, replies, first + 1, m);
    SameJobs(s, claimed, OldestPending(s.jobs));
    GaveUpIsAttempted(w, s, claimed, s', OldestPending(s.jobs));
    m := m + 1;
  }

  lemma SameJobs(s: State, s': State, j: nat)
    requires WellFormed(s) && j < |s.jobs| && Beside(s, s', j)
    ensures |s'.jobs| == |s.jobs|
  {
  }

  /** One undisturbed attempt of the oldest pending job. */
  lemma NextAttempt(w: World, s: State, replies: Replies, first: nat) returns (m: nat, s': State)
    requires Inv(w, s) && WellFormed(s) && s.worker.Idle? && w.batchSize > 0 && OldestPending(s.jobs) < |s.jobs|
    ensures s' == After(w, s, replies, first, m) && WellFormed(s') && Attempted(w, s, s', OldestPending(s.jobs))
  {
    hide *;
    if CanFinish(w, s, OldestPending(s.jobs)) {
      m := OldestJobIsFinished(w, s, replies, first);
      s' := After(w, s, replies, first, m);
      IndexedIsAttempted(w, s, s', OldestPending(s.jobs));
    } else {
      m, s' := DoomedAttempt(w, s, replies, first);
    }
  }

  lemma AttemptLowersTries(w: World, s: State, s': State, j: nat)
    requires WellFormed(s) && WellFormed(s') && j < |s.jobs| && Attempted(w, s, s', j)
    ensures Inv(w, s') && s'.worker.Idle? && TriesLeft(s'.jobs, w.maxAttempts) < TriesLeft(s.jobs, w.maxAttempts)
  {
    hide Inv, TriesLeft, Tries;
    assert s'.jobs == s.jobs[j := s'.jobs[j]];
    TriesLeftFalls(s.jobs, j, s'.jobs[j], w.maxAttempts);
  }

  // ---------------------------------------------------------------- the backlog

  /** Job `j` is pending and no later job of its document is. */
  predicate NewestPending(jobs: seq<Job>, j: nat) {
    j < |jobs| && jobs[j].status.Pending? && forall k :: j < k < |jobs| && jobs[k].document == jobs[j].document ==> !jobs[k].status.Pending?
  }

  ghost predicate NoPending(jobs: seq<Job>, d: nat) {
    forall j :: 0 <= j < |jobs| && jobs[j].document == d ==> !jobs[j].status.Pending?
  }

  /** How job `j` of `s` ended in `s'`. */
  ghost predicate JobDone(w: World, s: State, s': State, j: nat)
    requires WellFormed(s) && j < |s.jobs| == |s'.jobs|
  {
    && s'.jobs[j].document == s.jobs[j].document
    && if !s.jobs[j].status.Pending? then s'.jobs[j] == s.jobs[j]
       else if CanFinish(w, s, j) then s'.jobs[j].status.Succeeded?
       else s'.jobs[j].status.Failed? && s'.jobs[j].written == 0
  }

  /** The backlog of `s` is done in `s'`. */
  ghost predicate BacklogDone(w: World, s: State, s': State)
    requires WellFormed(s) && WellFormed(s')
  {
    && Inv(w, s') && s'.worker.Idle? && |s'.jobs| == |s.jobs| && |s'.documents| == |s.documents|
    && (forall j :: 0 <= j < |s.jobs| ==> JobDone(w, s, s', j))
    && (forall d :: 0 <= d < |s.documents| ==> SameUpload(s.documents[d], s'.documents[d]))
    && (forall d :: 0 <= d < |s.documents| && NoPending(s.jobs, d) ==> s'.documents[d] == s.documents[d])
    && (forall j :: 0 <= j < |s.jobs| && NewestPending(s.jobs, j) ==>
          s'.documents[s.jobs[j].document].status == if CanFinish(w, s, j) then READY else FAILED)
  }

  lemma SameChances(w: World, s: State, s1: State, j: nat, k: nat)
    requires WellFormed(s) && WellFormed(s1) && j < |s.jobs| == |s1.jobs| && k < |s.jobs|
    requires Attempted(w, s, s1, j) && s1.jobs[k].status.Pending?
    ensures s1.jobs[k].document == s.jobs[k].document && CanFinish(w, s1, k) == CanFinish(w, s, k)
  {
    hide Inv, Tries;
  }

  lemma JobIsDone(w: World, s: State, s1: State, s': State, j: nat, k: nat)
    requires WellFormed(s) && WellFormed(s1) && WellFormed(s') && j < |s.jobs| == |s1.jobs| == |s'.jobs| && k < |s.jobs| && s.jobs[j].status.Pending?
    requires Attempted(w, s, s1, j) && JobDone(w, s1, s', k)
    ensures JobDone(w, s, s', k)
  {
    if s1.jobs[k].status.Pending? { SameChances(w, s, s1, j, k); }
    hide Inv, Tries, SameUpload;
  }

  lemma DocumentIsDone(w: World, s: State, s1: State, s': State, k: nat)
    requires WellFormed(s) && WellFormed(s1) && WellFormed(s') && OldestPending(s.jobs) < |s.jobs| == |s1.jobs| && NewestPending(s.jobs, k)
    requires Attempted(w, s, s1, OldestPending(s.jobs)) && BacklogDone(w, s1, s') && |s1.documents| == |s.documents|
    ensures s'.documents[s.jobs[k].document].status == if CanFinish(w, s, k) then READY else FAILED
  {
    var j := OldestPending(s.jobs);
    assert s1.jobs[k].document == s.jobs[k].document;
    if s1.jobs[k].status.Pending? {
      SameChances(w, s, s1, j, k);
      assert NewestPending(s1.jobs, k);
    } else {
      assert k == j;
      assert NoPending(s1.jobs, s.jobs[j].document);
    }
    hide Inv, Tries, SameUpload, CanFinish, JobDone, OldestPending;
  }

  lemma OthersAreLeft(w: World, s: State, s1: State, s': State, d: nat)
    requires WellFormed(s) && WellFormed(s1) && WellFormed(s') && OldestPending(s.jobs) < |s.jobs| && d < |s.documents|
    requires Attempted(w, s, s1, OldestPending(s.jobs)) && BacklogDone(w, s1, s') && NoPending(s.jobs, d)
    ensures s'.documents[d] == s.documents[d]
  {
    assert NoPending(s1.jobs, d);
    hide Inv, Tries, SameUpload, CanFinish, JobDone, OldestPending, NewestPending;
  }

  lemma OneAttemptLess(w: World, s: State, s1: State, s': State)
    requires WellFormed(s) && WellFormed(s1) && WellFormed(s') && OldestPending(s.jobs) < |s.jobs|
    requires Attempted(w, s, s1, OldestPending(s.jobs)) && BacklogDone(w, s1, s')
    ensures BacklogDone(w, s, s')
  {
    hide Inv, Tries, SameUpload, CanFinish, OldestPending, JobDone, NewestPending, NoPending;
    var j := OldestPending(s.jobs);
    SameJobs(s, s1, j);
    assert |s1.documents| == |s.documents|;
    forall k | 0 <= k < |s.jobs| ensures JobDone(w, s, s', k) { JobIsDone(w, s, s1, s', j, k); }
    forall k | 0 <= k < |s.jobs| && NewestPending(s.jobs, k)
      ensures s'.documents[s.jobs[k].document].status == if CanFinish(w, s, k) then READY else FAILED
    {
      DocumentIsDone(w, s, s1, s', k);
    }
    forall d | 0 <= d < |s.documents| ensures SameUpload(s.documents[d], s'.documents[d]) { SameUploadTwice(s, s1, s', j, d); }
    forall d | 0 <= d < |s.documents| && NoPending(s.jobs, d) ensures s'.documents[d] == s.documents[d] { OthersAreLeft(w, s, s1, s', d); }
    hide Attempted, Beside;
  }

  lemma SameUploadTwice(s: State, s1: State, s': State, j: nat, d: nat)
    requires WellFormed(s) && j < |s.jobs| && Beside(s, s1, j) && d < |s.documents| == |s1.documents| == |s'.documents|
    requires SameUpload(s1.documents[d], s'.documents[d])
    ensures SameUpload(s.documents[d], s'.documents[d])
  {
  }

  lemma NoBacklog(w: World, s: State, replies: Replies, first: nat) returns (n: nat)
    requires Inv(w, s) && WellFormed(s) && s.worker.Idle? && OldestPending(s.jobs) == |s.jobs|
    ensures BacklogDone(w, s, After(w, s, replies, first, n))
  {
    n := 0;
    assert After(w, s, replies, first, 0) == s;
    hide Inv, After;
  }

  /** The whole backlog, whatever the files: left alone, a worker empties the queue. A pending job ends SUCCEEDED if it has
      its chunks or its document's file has text, and FAILED after its attempts if not; its document, by the newest of its
      pending jobs, ends READY or FAILED. No stored file changes, nor any other job or document. */
  lemma {:induction false} BacklogIsIndexed(w: World, s: State, replies: Replies, first: nat) returns (n: nat)
    requires WellFormed(s) && Inv(w, s) && s.worker.Idle? && w.batchSize > 0
    ensures BacklogDone(w, s, After(w, s, replies, first, n))
    decreases TriesLeft(s.jobs, w.maxAttempts)
  {
    hide *;
    if OldestPending(s.jobs) == |s.jobs| {
      n := NoBacklog(w, s, replies, first);
    } else {
      var m, s1 := NextAttempt(w, s, replies, first);
      AttemptLowersTries(w, s, s1, OldestPending(s.jobs));
      var rest := BacklogIsIndexed(w, s1, replies, first + m);
      AfterAdds(w, s, replies, first, m, rest);
      OneAttemptLess(w, s, s1, After(w, s1, replies, first + m, rest));
      n := m + rest;
    }
  }

  // ---------------------------------------------------------------- recovery

  /** How a document ends whose newest job `last` was unfinished: fully indexed, with the chunks of its stored bytes and each
      chunk's own vector, or FAILED with its job. */
  ghost predicate Recovered(w: World, s: State, s': State, d: nat)
    requires WellFormed(s) && d < |s.documents| == |s'.documents| && |s'.jobs| == |s.jobs| && LastJob(s.jobs, d) >= 0
  {
    var last := LastJob(s.jobs, d);
    if CanFinish(w, s, last) then FullyIndexed(w, s'.documents[d]) && s'.jobs[last].status.Succeeded?
    else s'.documents[d].status == FAILED && s'.jobs[last].status.Failed?
  }

  /** Recovery. After any history of uploads, reindexes, failures and crashes, a restarted worker that is then left alone
      empties the queue, and every document whose newest job was pending or running ends fully indexed if that job had its
      chunks or the stored file has text, and FAILED if neither. */
  lemma RestartRecovers(w: World, actions: seq<Action>, replies: Replies) returns (n: nat)
    requires w.batchSize > 0
    ensures var s, s' := Run(w, actions), After(w, Run(w, actions + [Crash, Restart]), replies, 0, n);
      && |s'.documents| == |s.documents| && |s'.jobs| == |s.jobs|
      && (forall j :: 0 <= j < |s'.jobs| ==> s'.jobs[j].Over())
      && forall d :: 0 <= d < |s.documents| && LastJob(s.jobs, d) >= 0 && !s.jobs[LastJob(s.jobs, d)].Over() ==> Recovered(w, s, s', d)
  {
    var s, up := Run(w, actions), Run(w, actions + [Crash, Restart]);
    RunKeeps(w, actions + [Crash, Restart]);
    Restarted(w, actions);
    hide Run, Inv, LastJob, After, BacklogDone, Recovered;
    n := BacklogIsIndexed(w, up, replies, 0);
    var s' := After(w, up, replies, 0, n);
    NothingLeft(w, up, s');
    forall d | 0 <= d < |s.documents| && LastJob(s.jobs, d) >= 0 && !s.jobs[LastJob(s.jobs, d)].Over() ensures Recovered(w, s, s', d) {
      SameLastJob(s.jobs, up.jobs, d);
      BacklogRecovers(w, up, s', d);
      RecoveredFrom(w, s, up, s', d);
    }
  }

  lemma JobEnds(w: World, s: State, s': State, j: nat)
    requires WellFormed(s) && j < |s.jobs| == |s'.jobs| && JobDone(w, s, s', j) && !s.jobs[j].status.Running?
    ensures s'.jobs[j].Over() && s'.jobs[j].document == s.jobs[j].document
    ensures s.jobs[j].status.Pending? ==> if CanFinish(w, s, j) then s'.jobs[j].status.Succeeded? else s'.jobs[j].status.Failed?
  {
    hide CanFinish;
  }

  lemma NothingLeft(w: World, s: State, s': State)
    requires WellFormed(s) && WellFormed(s') && BacklogDone(w, s, s') && forall j :: 0 <= j < |s.jobs| ==> !s.jobs[j].status.Running?
    ensures Inv(w, s') && |s'.documents| == |s.documents| && |s'.jobs| == |s.jobs|
    ensures forall j :: 0 <= j < |s'.jobs| ==> s'.jobs[j].Over() && s'.jobs[j].document == s.jobs[j].document
  {
    hide Inv, SameUpload, CanFinish, NewestPending, NoPending, JobDone;
    forall j | 0 <= j < |s'.jobs| ensures s'.jobs[j].Over() && s'.jobs[j].document == s.jobs[j].document {
      JobEnds(w, s, s', j);
    }
  }

  lemma LastIsNewest(jobs: seq<Job>, d: nat)
    requires LastJob(jobs, d) >= 0 && jobs[LastJob(jobs, d)].status.Pending?
    ensures NewestPending(jobs, LastJob(jobs, d)) && jobs[LastJob(jobs, d)].document == d
  {
    hide LastJob;
  }

  lemma BacklogMeans(w: World, s: State, s': State, j: nat)
    requires WellFormed(s) && WellFormed(s') && BacklogDone(w, s, s') && j < |s.jobs|
    ensures |s'.documents| == |s.documents| && |s'.jobs| == |s.jobs| && JobDone(w, s, s', j)
    ensures NewestPending(s.jobs, j) ==> s'.documents[s.jobs[j].document].status == if CanFinish(w, s, j) then READY else FAILED
  {
    hide Inv, SameUpload, CanFinish, NewestPending, NoPending, JobDone;
  }

  lemma BacklogRecovers(w: World, s: State, s': State, d: nat)
    requires WellFormed(s) && WellFormed(s') && BacklogDone(w, s, s') && w.batchSize > 0 && Inv(w, s')
    requires |s'.documents| == |s.documents| && |s'.jobs| == |s.jobs| && forall j :: 0 <= j < |s.jobs| ==> s'.jobs[j].document == s.jobs[j].document
    requires d < |s.documents| && LastJob(s.jobs, d) >= 0 && s.jobs[LastJob(s.jobs, d)].status.Pending?
    ensures Recovered(w, s, s', d)
  {
    hide Inv, FullyIndexed, LastJob, CanFinish, JobDone, NewestPending, BacklogDone, WellFormed;
    var last := LastJob(s.jobs, d);
    LastIsNewest(s.jobs, d);
    BacklogMeans(w, s, s', last);
    JobEnds(w, s, s', last);
    SameLastJob(s.jobs, s'.jobs, d);
    if CanFinish(w, s, last) { ReadyIsFullyIndexed(w, s', d); }
  }

  lemma ReadyIsFullyIndexed(w: World, s: State, d: nat)
    requires Inv(w, s) && d < |s.documents| && w.batchSize > 0 && s.documents[d].status == READY
    requires LastJob(s.jobs, d) >= 0 && s.jobs[LastJob(s.jobs, d)].status.Succeeded?
    ensures FullyIndexed(w, s.documents[d])
  {
    assert RowGood(w, s.documents[d], s.jobs[LastJob(s.jobs, d)]);
    assert forall i :: 0 <= i < |s.documents[d].chunks| ==> Own(s.documents[d].chunks[i], w.vectorOf);
    hide WorkerGood, LastJob, JobsGood, HashesDistinct;
  }

  lemma RecoveredFrom(w: World, s: State, up: State, s': State, d: nat)
    requires WellFormed(s) && WellFormed(up) && d < |s.documents| == |up.documents| == |s'.documents| && |s'.jobs| == |s.jobs| == |up.jobs|
    requires LastJob(s.jobs, d) == LastJob(up.jobs, d) >= 0 && up.documents == s.documents
    requires up.jobs[LastJob(s.jobs, d)].written == s.jobs[LastJob(s.jobs, d)].written && Recovered(w, up, s', d)
    ensures Recovered(w, s, s', d)
  {
    hide FullyIndexed;
  }

  ghost predicate FullyIndexed(w: World, row: DocumentRow) {
    && row.status == READY && ContentsOf(row.chunks) == w.chunkOf(row.File())
    && forall i :: 0 <= i < |row.chunks| ==> row.chunks[i].vector == Some(OwnVector(row.chunks[i], w.vectorOf))
  }

  lemma Restarted(w: World, actions: seq<Action>)
    ensures var s, up := Run(w, actions), Run(w, actions + [Crash, Restart]);
      && up.documents == s.documents && up.worker.Idle? && |up.jobs| == |s.jobs|
      && forall j :: 0 <= j < |s.jobs| ==> up.jobs[j].document == s.jobs[j].document && up.jobs[j].written == s.jobs[j].written && if s.jobs[j].Over() then up.jobs[j] == s.jobs[j] else up.jobs[j].status.Pending?
  {
    RunOneMore(w, actions, Crash);
    RunOneMore(w, actions + [Crash], Restart);
    assert actions + [Crash, Restart] == (actions + [Crash]) + [Restart];
    hide Run;
  }
}

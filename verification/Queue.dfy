/** app/workers/queue.py: the Postgres-backed job queue. Jobs are listed oldest first, and a job's
    position is its id. */
module Queue {
  import opened Blocks

  /** The vocabulary shared by documents and job stages. */
  datatype DocumentStatus = PENDING | PARSING | PROFILING | CHUNKING | EMBEDDING | READY | FAILED

  datatype JobStatus = Pending | Running | Succeeded | Failed

  /** A row of `ingest_jobs`; `written` is the checkpoint's `chunks_written`. `releases` and `reclaims`
      count how often the job was handed back: no operation reads them. */
  datatype Job = Job(
    document: nat,
    status: JobStatus,
    stage: DocumentStatus,
    attempts: nat,
    written: nat,
    releases: nat,
    reclaims: nat)
  {
    predicate Over() { status.Succeeded? || status.Failed? }
  }

  function NewJob(document: nat): Job {
    Job(document, Pending, PENDING, 0, 0, 0, 0)
  }

  /** The id of the oldest pending job, or the number of jobs when there is none. */
  function OldestPending(jobs: seq<Job>): (k: nat)
    ensures k <= |jobs| && (k < |jobs| ==> jobs[k].status.Pending?)
    ensures forall i :: 0 <= i < k ==> !jobs[i].status.Pending?
  {
    if jobs == [] then 0
    else
      var n := |jobs| - 1;
      var k := OldestPending(jobs[..n]);
      if k < n || jobs[n].status.Pending? then k else n + 1
  }

  function Take(job: Job): Job {
    job.(status := Running, attempts := job.attempts + 1)
  }

  function Close(job: Job, failed: bool): Job {
    if failed then job.(status := Failed, stage := FAILED) else job.(status := Succeeded, stage := READY)
  }

  function GiveBack(job: Job, maxAttempts: int): Job {
    if job.attempts >= maxAttempts then job.(status := Failed, stage := FAILED)
    else job.(status := Pending, releases := job.releases + 1)
  }

  function Reclaim(job: Job): Job {
    if job.status.Running? then job.(status := Pending, reclaims := job.reclaims + 1) else job
  }

  function ReclaimAll(jobs: seq<Job>, stalled: set<nat>): seq<Job> {
    seq(|jobs|, i requires 0 <= i < |jobs| => if i in stalled then Reclaim(jobs[i]) else jobs[i])
  }

  /** The running jobs whose last sign of life lies before `cutoff`. `beat` gives the time of each job's last heartbeat,
      or of its claim when it has none. */
  function Stalled(jobs: seq<Job>, beat: nat -> int, cutoff: int): (ids: set<nat>)
    ensures forall j :: j in ids <==> 0 <= j < |jobs| && jobs[j].status.Running? && beat(j) < cutoff
  {
    set j: nat | 0 <= j < |jobs| && jobs[j].status.Running? && beat(j) < cutoff
  }

  /** `job` got where it is from `first` by attempts that failed, until one succeeded or they ran out. */
  ghost predicate Reachable(first: Job, job: Job, id: nat, maxAttempts: int, succeeds: (nat, nat) -> bool) {
    && first.attempts <= job.attempts
    && job.document == first.document && job.written == first.written && job.reclaims == first.reclaims
    && (first.Over() ==> job == first)
    && (forall n :: first.attempts < n < job.attempts ==> !succeeds(id, n))
    && (job.status.Pending? ==> job == first || (!succeeds(id, job.attempts) && job.attempts < maxAttempts))
    && (!first.Over() && job.Over() ==> DrainedFrom(first, job, id, maxAttempts, succeeds))
  }

  /** How a pending job ends: with its first successful attempt, or failed once the attempts are used up. */
  ghost predicate DrainedFrom(first: Job, job: Job, id: nat, maxAttempts: int, succeeds: (nat, nat) -> bool) {
    && job.Over() && first.attempts < job.attempts
    && job.document == first.document && job.written == first.written && job.reclaims == first.reclaims
    && job.attempts <= Max(first.attempts + 1, maxAttempts)
    && (forall n :: first.attempts < n < job.attempts ==> !succeeds(id, n))
    && (job.status.Succeeded? <==> succeeds(id, job.attempts))
    && (job.status.Failed? ==> job.attempts >= maxAttempts)
  }

  /** One claimed attempt and how the worker records it. */
  function Tried(job: Job, id: nat, maxAttempts: int, succeeds: (nat, nat) -> bool): Job {
    if succeeds(id, job.attempts + 1) then Close(Take(job), false) else GiveBack(Take(job), maxAttempts)
  }

  lemma OneAttempt(first: Job, job: Job, id: nat, maxAttempts: int, succeeds: (nat, nat) -> bool)
    requires Reachable(first, job, id, maxAttempts, succeeds) && job.status.Pending?
    ensures Reachable(first, Tried(job, id, maxAttempts, succeeds), id, maxAttempts, succeeds)
    ensures !Tried(job, id, maxAttempts, succeeds).status.Running?
    ensures Tries(Tried(job, id, maxAttempts, succeeds), maxAttempts) < Tries(job, maxAttempts)
  {
  }

  lemma NoAttempts(jobs: seq<Job>, maxAttempts: int, succeeds: (nat, nat) -> bool)
    requires forall i :: 0 <= i < |jobs| ==> !jobs[i].status.Running?
    ensures forall i :: 0 <= i < |jobs| ==> Reachable(jobs[i], jobs[i], i, maxAttempts, succeeds)
  {
  }

  lemma Ended(first: Job, job: Job, id: nat, maxAttempts: int, succeeds: (nat, nat) -> bool)
    requires Reachable(first, job, id, maxAttempts, succeeds) && job.Over()
    ensures if first.Over() then job == first else DrainedFrom(first, job, id, maxAttempts, succeeds)
  {
  }

  function Max(a: int, b: int): int {
    if a >= b then a else b
  }

  /** Attempts the queue can still hand out. */
  function TriesLeft(jobs: seq<Job>, maxAttempts: int): nat {
    if jobs == [] then 0 else TriesLeft(jobs[..|jobs| - 1], maxAttempts) + Tries(jobs[|jobs| - 1], maxAttempts)
  }

  function Tries(job: Job, maxAttempts: int): nat {
    if job.Over() then 0 else if job.attempts < maxAttempts then maxAttempts - job.attempts else 1
  }

  lemma {:induction false} TriesLeftFalls(jobs: seq<Job>, id: nat, job: Job, maxAttempts: int)
    requires id < |jobs| && Tries(job, maxAttempts) < Tries(jobs[id], maxAttempts)
    ensures TriesLeft(jobs[id := job], maxAttempts) < TriesLeft(jobs, maxAttempts)
  {
    var n := |jobs| - 1;
    if id < n {
      TriesLeftFalls(jobs[..n], id, job, maxAttempts);
      assert jobs[id := job][..n] == jobs[..n][id := job];
    } else {
      assert jobs[id := job][..n] == jobs[..n];
    }
  }

  /** The table, with the operations of the module. */
  class JobTable {
    var jobs: seq<Job>

    constructor ()
      ensures jobs == []
    {
      jobs := [];
    }

    method Enqueue(document: nat) returns (id: nat)
      modifies this
      ensures id == old(|jobs|) && jobs == old(jobs) + [NewJob(document)]
    {
      id := |jobs|;
      jobs := jobs + [NewJob(document)];
    }

    /** One atomic update: the oldest pending job becomes running and its attempt is counted. */
    method Claim() returns (id: nat, found: bool)
      modifies this
      ensures id == OldestPending(old(jobs)) && found == (id < old(|jobs|))
      ensures jobs == if found then old(jobs)[id := Take(old(jobs)[id])] else old(jobs)
    {
      id := OldestPending(jobs);
      found := id < |jobs|;
      if found {
        jobs := jobs[id := Take(jobs[id])];
      }
    }

    /** A field that is not supplied keeps its value. */
    method UpdateProgress(id: nat, stage: Option<DocumentStatus>, written: Option<nat>)
      modifies this
      ensures |jobs| == old(|jobs|) && forall j :: 0 <= j < |jobs| && j != id ==> jobs[j] == old(jobs)[j]
      ensures id < |jobs| ==>
        && jobs[id] == old(jobs)[id].(stage := jobs[id].stage, written := jobs[id].written)
        && jobs[id].stage == (if stage.Some? then stage.value else old(jobs)[id].stage)
        && jobs[id].written == (if written.Some? then written.value else old(jobs)[id].written)
    {
      if id >= |jobs| { return; }
      var job := jobs[id];
      if stage.Some? { job := job.(stage := stage.value); }
      if written.Some? { job := job.(written := written.value); }
      jobs := jobs[id := job];
    }

    method Finish(id: nat, failed: bool)
      modifies this
      ensures jobs == if id < old(|jobs|) then old(jobs)[id := Close(old(jobs)[id], failed)] else old(jobs)
    {
      if id < |jobs| {
        jobs := jobs[id := Close(jobs[id], failed)];
      }
    }

    method Release(id: nat, maxAttempts: int)
      modifies this
      ensures jobs == if id < old(|jobs|) then old(jobs)[id := GiveBack(old(jobs)[id], maxAttempts)] else old(jobs)
    {
      if id >= |jobs| { return; }
      var job := jobs[id];
      if job.attempts >= maxAttempts {
        jobs := jobs[id := job.(status := Failed, stage := FAILED)];
      } else {
        jobs := jobs[id := job.(status := Pending, releases := job.releases + 1)];
      }
    }

    /** Only jobs that are running and have been silent longer than the timeout go back to the queue, checkpoint and
        attempts intact; whoever still reports keeps its job. */
    method ReclaimStalled(beat: nat -> int, now: int, timeout: int) returns (n: nat)
      modifies this
      ensures jobs == ReclaimAll(old(jobs), Stalled(old(jobs), beat, now - timeout)) && n == |Stalled(old(jobs), beat, now - timeout)|
      ensures |jobs| == old(|jobs|)
      ensures forall j :: 0 <= j < |jobs| && old(jobs)[j].status.Running? && beat(j) < now - timeout ==>
        jobs[j] == old(jobs)[j].(status := Pending, reclaims := old(jobs)[j].reclaims + 1)
      ensures forall j :: 0 <= j < |jobs| && (!old(jobs)[j].status.Running? || now - beat(j) <= timeout) ==> jobs[j] == old(jobs)[j]
    {
      var ids := Stalled(jobs, beat, now - timeout);
      jobs := ReclaimAll(jobs, ids);
      n := |ids|;
    }

    /** A worker left alone with the queue: claim, run, finish or release, until nothing is pending.
        `succeeds` decides how each attempt ends. The loop ends, and every job that was pending is over
        after at most `max(1, maxAttempts)` attempts. */
    method Drain(maxAttempts: int, succeeds: (nat, nat) -> bool)
      requires forall i :: 0 <= i < |jobs| ==> !jobs[i].status.Running?
      modifies this
      ensures |jobs| == old(|jobs|)
      ensures forall i :: 0 <= i < |jobs| ==> jobs[i].Over()
      ensures forall i :: 0 <= i < |jobs| && old(jobs)[i].Over() ==> jobs[i] == old(jobs)[i]
      ensures forall i :: 0 <= i < |jobs| && old(jobs)[i].status.Pending? ==>
                DrainedFrom(old(jobs)[i], jobs[i], i, maxAttempts, succeeds)
    {
      hide Reachable, DrainedFrom, TriesLeft, Tries;
      ghost var first := jobs;
      NoAttempts(first, maxAttempts, succeeds);
      var id, found := 0, true;
      while found
        invariant |jobs| == |first|
        invariant forall i :: 0 <= i < |jobs| ==> !jobs[i].status.Running?
        invariant forall i :: 0 <= i < |jobs| ==> Reachable(first[i], jobs[i], i, maxAttempts, succeeds)
        invariant !found ==> forall i :: 0 <= i < |jobs| ==> !jobs[i].status.Pending?
        decreases TriesLeft(jobs, maxAttempts), found
      {
        ghost var before := jobs;
        id, found := Claim();
        if found {
          OneAttempt(first[id], before[id], id, maxAttempts, succeeds);
          if succeeds(id, jobs[id].attempts) {
            Finish(id, false);
          } else {
            Release(id, maxAttempts);
          }
          assert jobs == before[id := Tried(before[id], id, maxAttempts, succeeds)];
          TriesLeftFalls(before, id, jobs[id], maxAttempts);
        }
      }
      forall i | 0 <= i < |jobs| ensures if first[i].Over() then jobs[i] == first[i] else DrainedFrom(first[i], jobs[i], i, maxAttempts, succeeds) {
        Ended(first[i], jobs[i], i, maxAttempts, succeeds);
      }
    }
  }
}

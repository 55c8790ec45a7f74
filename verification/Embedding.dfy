/** app/pipeline/embedding.py: give every chunk of a document its vector, batch by batch. */
module Embedding {
  import opened Blocks

  type Vector = seq<real>

  /** A row of `chunks`, with "" for a missing contextual header. A document's rows are listed by ordinal. */
  datatype ChunkRow = ChunkRow(id: nat, content: string, header: string, vector: Option<Vector>)

  function EmbeddingText(row: ChunkRow): string {
    if row.header == "" then row.content else row.header + "\n\n" + row.content
  }

  /** The first `size` rows without a vector. */
  function NextBatch(rows: seq<ChunkRow>, size: nat): (batch: seq<ChunkRow>)
    ensures |batch| <= size
  {
    if rows == [] then []
    else
      var batch, last := NextBatch(rows[..|rows| - 1], size), rows[|rows| - 1];
      if |batch| < size && last.vector.None? then batch + [last] else batch
  }

  /** The vector a batch stores for a chunk id. */
  function VectorFor(batch: seq<ChunkRow>, id: nat, vectorOf: string -> Vector): Option<Vector> {
    if batch == [] then None
    else
      var last := batch[|batch| - 1];
      if last.id == id then Some(vectorOf(EmbeddingText(last))) else VectorFor(batch[..|batch| - 1], id, vectorOf)
  }

  function FilledRow(row: ChunkRow, batch: seq<ChunkRow>, vectorOf: string -> Vector): ChunkRow {
    var v := VectorFor(batch, row.id, vectorOf);
    if v.Some? then row.(vector := v) else row
  }

  /** One batch committed: each row whose id is in the batch gets the vector made for that id. */
  function Filled(rows: seq<ChunkRow>, batch: seq<ChunkRow>, vectorOf: string -> Vector): seq<ChunkRow> {
    seq(|rows|, i requires 0 <= i < |rows| => FilledRow(rows[i], batch, vectorOf))
  }

  // ---------------------------------------------------------------- what is kept

  /** The vector a chunk must get: that of its content, with its header and a blank line in front when it has one. */
  ghost function OwnVector(row: ChunkRow, vectorOf: string -> Vector): Vector {
    vectorOf(if row.header == "" then row.content else row.header + "\n\n" + row.content)
  }

  ghost predicate Own(row: ChunkRow, vectorOf: string -> Vector) {
    row.vector.Some? ==> row.vector.value == OwnVector(row, vectorOf)
  }

  /** Ids are distinct, every vector is its own chunk's, and the rows with a vector come first. */
  ghost predicate Orderly(rows: seq<ChunkRow>, vectorOf: string -> Vector) {
    && (forall i, j :: 0 <= i < j < |rows| ==> rows[i].id != rows[j].id)
    && (forall i :: 0 <= i < |rows| ==> Own(rows[i], vectorOf))
    && (forall i, j :: 0 <= i < j < |rows| && rows[j].vector.Some? ==> rows[i].vector.Some?)
  }

  ghost predicate AllEmbedded(rows: seq<ChunkRow>) {
    forall i :: 0 <= i < |rows| ==> rows[i].vector.Some?
  }

  function ContentsOf(rows: seq<ChunkRow>): seq<string> {
    seq(|rows|, i requires 0 <= i < |rows| => rows[i].content)
  }

  /** How many chunks have a vector. */
  function Vectors(rows: seq<ChunkRow>): (n: nat)
    ensures n <= |rows|
  {
    if rows == [] then 0 else Vectors(rows[..|rows| - 1]) + if rows[|rows| - 1].vector.Some? then 1 else 0
  }

  lemma {:induction false} VectorsArePrefix(rows: seq<ChunkRow>, vectorOf: string -> Vector)
    requires Orderly(rows, vectorOf)
    ensures forall i :: 0 <= i < |rows| ==> (rows[i].vector.Some? <==> i < Vectors(rows))
  {
    if rows != [] {
      VectorsArePrefix(rows[..|rows| - 1], vectorOf);
    }
  }

  /** The run of at most `size` rows starting at ordinal `k`. */
  function Stretch(rows: seq<ChunkRow>, k: nat, size: nat): seq<ChunkRow>
    requires k <= |rows|
  {
    rows[k..if k + size < |rows| then k + size else |rows|]
  }

  lemma StretchGrows(rows: seq<ChunkRow>, last: ChunkRow, k: nat, size: nat)
    requires k <= |rows|
    ensures Stretch(rows + [last], k, size) == if |Stretch(rows, k, size)| < size then Stretch(rows, k, size) + [last] else Stretch(rows, k, size)
  {
  }

  /** The next batch is the next run of ordinals after the embedded prefix. */
  lemma {:induction false} BatchFollowsPrefix(rows: seq<ChunkRow>, size: nat, vectorOf: string -> Vector)
    requires Orderly(rows, vectorOf)
    ensures NextBatch(rows, size) == Stretch(rows, Vectors(rows), size)
  {
    if rows != [] {
      var init, last := rows[..|rows| - 1], rows[|rows| - 1];
      BatchFollowsPrefix(init, size, vectorOf);
      VectorsArePrefix(rows, vectorOf);
      hide Orderly;
      assert rows == init + [last];
      StretchGrows(init, last, Vectors(init), size);
    }
  }

  lemma {:induction false} VectorForSlice(rows: seq<ChunkRow>, lo: nat, hi: nat, i: nat, vectorOf: string -> Vector)
    requires lo <= hi <= |rows| && i < |rows|
    requires forall a, b :: 0 <= a < b < |rows| ==> rows[a].id != rows[b].id
    ensures VectorFor(rows[lo..hi], rows[i].id, vectorOf)
         == if lo <= i < hi then Some(OwnVector(rows[i], vectorOf)) else None
  {
    if lo < hi {
      assert rows[lo..hi][..hi - lo - 1] == rows[lo..hi - 1];
      VectorForSlice(rows, lo, hi - 1, i, vectorOf);
    }
  }

  lemma CommittedRow(rows: seq<ChunkRow>, size: nat, i: nat, vectorOf: string -> Vector)
    requires Orderly(rows, vectorOf) && i < |rows|
    ensures var k, n := Vectors(rows), |NextBatch(rows, size)|;
      FilledRow(rows[i], NextBatch(rows, size), vectorOf) == if k <= i < k + n then rows[i].(vector := Some(OwnVector(rows[i], vectorOf))) else rows[i]
  {
    var k, n := Vectors(rows), |NextBatch(rows, size)|;
    BatchFollowsPrefix(rows, size, vectorOf);
    VectorForSlice(rows, k, k + n, i, vectorOf);
    hide Orderly, Vectors, NextBatch, VectorFor;
  }

  /** Committing the next batch gives exactly those rows their own vectors, changes nothing else, and
      keeps the embedded rows in front. */
  lemma CommitExtendsPrefix(rows: seq<ChunkRow>, size: nat, vectorOf: string -> Vector)
    requires Orderly(rows, vectorOf)
    ensures var batch, more := NextBatch(rows, size), Filled(rows, NextBatch(rows, size), vectorOf);
      && Orderly(more, vectorOf)
      && Vectors(more) == Vectors(rows) + |batch|
      && Keeps(rows, more)
      && forall i :: 0 <= i < |rows| ==>
           more[i] == if Vectors(rows) <= i < Vectors(rows) + |batch| then rows[i].(vector := Some(OwnVector(rows[i], vectorOf))) else rows[i]
  {
    hide Filled, FilledRow, NextBatch, Vectors;
    var k, n, more := Vectors(rows), |NextBatch(rows, size)|, Filled(rows, NextBatch(rows, size), vectorOf);
    BatchFollowsPrefix(rows, size, vectorOf);
    VectorsArePrefix(rows, vectorOf);
    FilledRows(rows, NextBatch(rows, size), vectorOf);
    forall i | 0 <= i < |rows|
      ensures more[i] == if k <= i < k + n then rows[i].(vector := Some(OwnVector(rows[i], vectorOf))) else rows[i]
    {
      CommittedRow(rows, size, i, vectorOf);
    }
    PrefixCounts(more, k + n);
  }

  lemma FilledRows(rows: seq<ChunkRow>, batch: seq<ChunkRow>, vectorOf: string -> Vector)
    ensures |Filled(rows, batch, vectorOf)| == |rows|
    ensures forall i :: 0 <= i < |rows| ==> Filled(rows, batch, vectorOf)[i] == FilledRow(rows[i], batch, vectorOf)
  {
  }

  lemma {:induction false} PrefixCounts(rows: seq<ChunkRow>, k: nat)
    requires k <= |rows| && forall i :: 0 <= i < |rows| ==> (rows[i].vector.Some? <==> i < k)
    ensures Vectors(rows) == k
  {
    if rows != [] {
      var n := |rows| - 1;
      PrefixCounts(rows[..n], if k <= n then k else n);
    }
  }

  /** With a positive batch size the loop only stops when every chunk has its vector. */
  lemma EmptyBatchMeansDone(rows: seq<ChunkRow>, size: nat, vectorOf: string -> Vector)
    requires Orderly(rows, vectorOf) && size > 0
    ensures NextBatch(rows, size) == [] <==> AllEmbedded(rows)
    ensures AllEmbedded(rows) <==> Vectors(rows) == |rows|
  {
    BatchFollowsPrefix(rows, size, vectorOf);
    VectorsArePrefix(rows, vectorOf);
  }

  /** The rows are the same but for vectors, and no vector is taken away or replaced. */
  ghost predicate Keeps(before: seq<ChunkRow>, after: seq<ChunkRow>) {
    && |before| == |after|
    && forall i :: 0 <= i < |before| ==>
         && before[i].(vector := None) == after[i].(vector := None)
         && (before[i].vector.Some? ==> after[i] == before[i])
  }

  lemma KeepsReflexive(rows: seq<ChunkRow>)
    ensures Keeps(rows, rows)
  {
  }

  lemma KeepsTransitive(a: seq<ChunkRow>, b: seq<ChunkRow>, c: seq<ChunkRow>)
    requires Keeps(a, b) && Keeps(b, c)
    ensures Keeps(a, c)
  {
  }

  // ---------------------------------------------------------------- the loop

  /** One document's chunks, with a record of the texts sent to the embedder and of how often each
      ordinal had a vector committed since the chunks were written. */
  class ChunkTable {
    var rows: seq<ChunkRow>
    ghost var sent: nat
    ghost var commits: seq<nat>

    ghost predicate Valid(vectorOf: string -> Vector)
      reads this
    {
      && Orderly(rows, vectorOf)
      && |commits| == |rows|
      && forall i :: 0 <= i < |rows| ==> commits[i] == if rows[i].vector.Some? then 1 else 0
    }

    /** `replace_chunks`: fresh rows without vectors. */
    constructor (contents: seq<string>, headers: seq<string>, vectorOf: string -> Vector)
      requires |contents| == |headers|
      ensures Valid(vectorOf) && sent == 0 && Vectors(rows) == 0 && ContentsOf(rows) == contents
      ensures forall i :: 0 <= i < |rows| ==> rows[i].header == headers[i]
    {
      rows := seq(|contents|, i requires 0 <= i < |contents| => ChunkRow(i, contents[i], headers[i], None));
      sent := 0;
      commits := seq(|contents|, i => 0);
      new;
      PrefixCounts(rows, 0);
    }

    /** `embed_document` within one attempt. `answered` says how each call to the embedder ends: its vectors
        are committed, or the attempt breaks off first (an error, a reply of the wrong length, a killed
        process). When `answered` runs out the process is killed between two batches. */
    method EmbedDocument(batchSize: nat, vectorOf: string -> Vector, answered: seq<bool>) returns (written: nat, finished: bool)
      requires Valid(vectorOf)
      modifies this
      ensures Valid(vectorOf)
      ensures Keeps(old(rows), rows)
      ensures Vectors(rows) == old(Vectors(rows)) + written
      ensures sent <= old(sent) + written + if finished then 0 else batchSize
      ensures finished && batchSize > 0 ==> AllEmbedded(rows)
    {
      hide Orderly, Filled, NextBatch, Vectors, Keeps, AllEmbedded;
      KeepsReflexive(rows);
      written, finished := 0, false;
      if Vectors(rows) == |rows| {
        EmptyBatchMeansDone(rows, 1, vectorOf);
        return 0, true;
      }
      var i := 0;
      while true
        invariant Valid(vectorOf) && Keeps(old(rows), rows)
        invariant Vectors(rows) == old(Vectors(rows)) + written && sent == old(sent) + written
        invariant i <= |answered| && !finished
        decreases |rows| - Vectors(rows)
      {
        var batch := NextBatch(rows, batchSize);
        if batch == [] {
          if batchSize > 0 { EmptyBatchMeansDone(rows, batchSize, vectorOf); }
          return written, true;
        }
        if i == |answered| { return; }
        sent := sent + |batch|;
        if !answered[i] { return; }
        CommitExtendsPrefix(rows, batchSize, vectorOf);
        KeepsTransitive(old(rows), rows, Filled(rows, batch, vectorOf));
        Commit(batchSize, vectorOf);
        written, i := written + |batch|, i + 1;
      }
    }

    /** One batch's vectors, committed together. */
    method Commit(batchSize: nat, vectorOf: string -> Vector)
      requires Valid(vectorOf)
      modifies this`rows, this`commits
      ensures Valid(vectorOf) && rows == Filled(old(rows), NextBatch(old(rows), batchSize), vectorOf)
      ensures Keeps(old(rows), rows)
    {
      var batch := NextBatch(rows, batchSize);
      CommitExtendsPrefix(rows, batchSize, vectorOf);
      VectorsArePrefix(rows, vectorOf);
      ghost var k := Vectors(rows);
      ghost var counts := commits;
      commits := seq(|counts|, i requires 0 <= i < |counts| => counts[i] + if k <= i < k + |batch| then 1 else 0);
      rows := Filled(rows, batch, vectorOf);
    }

    /** A job's attempts after its chunks are written, each resuming where the one before stopped. With n
        chunks and k interrupted attempts, at most n + k * batchSize texts reach the embedder, and (by
        `Valid`) no chunk has a vector committed twice. */
    method Resume(batchSize: nat, vectorOf: string -> Vector, attempts: seq<seq<bool>>) returns (interrupted: nat, finished: bool)
      requires Valid(vectorOf)
      modifies this
      ensures Valid(vectorOf) && Keeps(old(rows), rows)
      ensures sent <= old(sent) + (Vectors(rows) - old(Vectors(rows))) + interrupted * batchSize
      ensures interrupted <= |attempts| && (!finished ==> interrupted == |attempts|)
      ensures finished && batchSize > 0 ==> AllEmbedded(rows) && forall i :: 0 <= i < |rows| ==> commits[i] == 1
    {
      hide Orderly, Vectors, Keeps;
      KeepsReflexive(rows);
      interrupted, finished := 0, false;
      while interrupted < |attempts|
        invariant Valid(vectorOf) && Keeps(old(rows), rows) && !finished
        invariant interrupted <= |attempts|
        invariant sent <= old(sent) + (Vectors(rows) - old(Vectors(rows))) + interrupted * batchSize
      {
        ghost var before := rows;
        var written;
        written, finished := EmbedDocument(batchSize, vectorOf, attempts[interrupted]);
        KeepsTransitive(old(rows), before, rows);
        if finished { return; }
        interrupted := interrupted + 1;
      }
    }
  }
}

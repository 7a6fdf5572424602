/** The upload half of `pinecone_upload.py`: the embedding dimension is
    inferred from the records, every record is checked against it, and the
    records are upserted in contiguous batches as (id, vector, metadata)
    triples. */
module VectorUpload {
  import opened Wrappers
  import opened Text
  import opened Seqs
  import opened JsonValue
  import opened Metadata

  /** `r.get("embedding") or r.get("vector") or r.get("values")`: an empty
      list is falsy and falls through to the next key. */
  function VectorOf(rec: Record): Json {
    Or(Or(Get(rec, "embedding"), Get(rec, "vector")), Get(rec, "values"))
  }

  /** Whether a record's vector is a non-empty list. */
  predicate HasVector(rec: Record) {
    VectorOf(rec).Array? && |VectorOf(rec).items| > 0
  }

  /** `infer_embedding_dim(records)`: the length of the first non-empty
      vector list, or None when no record has one. */
  function InferEmbeddingDim(records: seq<Record>): (r: Option<nat>)
    ensures r.None? <==> forall i :: 0 <= i < |records| ==> !HasVector(records[i])
    ensures r.Some? ==> exists i :: (0 <= i < |records| && HasVector(records[i])
      && r.value == |VectorOf(records[i]).items|
      && forall j :: 0 <= j < i ==> !HasVector(records[j]))
  {
    if |records| == 0 then None
    else if HasVector(records[0]) then Some(|VectorOf(records[0]).items|)
    else
      var r := InferEmbeddingDim(records[1..]);
      assert forall i :: 1 <= i < |records| ==> records[i] == records[1..][i - 1];
      if r.Some? then
        var i :| 0 <= i < |records[1..]| && HasVector(records[1..][i])
          && r.value == |VectorOf(records[1..][i]).items|
          && forall j :: 0 <= j < i ==> !HasVector(records[1..][j]);
        assert HasVector(records[i + 1]) && forall j :: 0 <= j < i + 1 ==> !HasVector(records[j]) by {
          forall j | 0 <= j < i + 1 ensures !HasVector(records[j]) {
            if j > 0 {
              assert records[j] == records[1..][j - 1];
            }
          }
        }
        r
      else r
  }

  /** The embedding key is read before the others, and an empty list there
      does not stop the search. */
  lemma EmptyEmbeddingFallsThrough(rec: Record)
    requires "embedding" in rec && rec["embedding"] == Array([])
    ensures VectorOf(rec) == Or(Get(rec, "vector"), Get(rec, "values"))
  {
  }

  /** Why a record fails the shape check. */
  datatype Problem = NoEmbedding | WrongDimension(length: nat)

  /** The `invalid` list: each record whose vector is not a list, or is a
      list of another length than `dim`, with its index, in order. */
  function Problems(records: seq<Record>, dim: nat): (r: seq<(nat, Problem)>)
    ensures forall k :: 0 <= k < |r| ==> r[k].0 < |records|
    ensures forall k, l :: 0 <= k < l < |r| ==> r[k].0 < r[l].0
    ensures r == [] <==> forall i :: 0 <= i < |records| ==> Fits(records[i], dim)
  {
    ProblemsFrom(records, dim, 0)
  }

  /** The entries of the `invalid` list for the records from `from` on. */
  function ProblemsFrom(records: seq<Record>, dim: nat, from: nat): (r: seq<(nat, Problem)>)
    requires from <= |records|
    ensures forall k :: 0 <= k < |r| ==> from <= r[k].0 < |records|
    ensures forall k, l :: 0 <= k < l < |r| ==> r[k].0 < r[l].0
    ensures r == [] <==> forall i :: from <= i < |records| ==> Fits(records[i], dim)
    decreases |records| - from
  {
    if from == |records| then []
    else
      var rest := ProblemsFrom(records, dim, from + 1);
      match ProblemOf(records[from], dim)
      case Some(why) => [(from, why)] + rest
      case None => rest
  }

  /** A record passes the shape check: its vector is a list of `dim` values. */
  predicate Fits(rec: Record, dim: nat) {
    VectorOf(rec).Array? && |VectorOf(rec).items| == dim
  }

  /** The reason one record fails the shape check, if it does. */
  function ProblemOf(rec: Record, dim: nat): (r: Option<Problem>)
    ensures r.None? <==> Fits(rec, dim)
  {
    var v := VectorOf(rec);
    if !v.Array? then Some(NoEmbedding)
    else if |v.items| != dim then Some(WrongDimension(|v.items|))
    else None
  }

  /** Every record listed as invalid is one that does not fit, with the
      right reason. */
  lemma ProblemsAreReal(records: seq<Record>, dim: nat, k: nat)
    requires k < |Problems(records, dim)|
    ensures var (i, why) := Problems(records, dim)[k];
      i < |records| && !Fits(records[i], dim)
      && (why == NoEmbedding <==> !VectorOf(records[i]).Array?)
      && (why.WrongDimension? ==> why.length == |VectorOf(records[i]).items|)
  {
    ProblemsFromReal(records, dim, 0, k);
  }

  lemma {:induction false} ProblemsFromReal(records: seq<Record>, dim: nat, from: nat, k: nat)
    requires from <= |records| && k < |ProblemsFrom(records, dim, from)|
    ensures var (i, why) := ProblemsFrom(records, dim, from)[k];
      i < |records| && ProblemOf(records[i], dim) == Some(why)
    decreases |records| - from
  {
    var rest := ProblemsFrom(records, dim, from + 1);
    if ProblemOf(records[from], dim).Some? {
      if k > 0 {
        ProblemsFromReal(records, dim, from + 1, k - 1);
      }
    } else {
      ProblemsFromReal(records, dim, from + 1, k);
    }
  }

  /** One upserted vector: its id, its values and its metadata. */
  datatype Vector = Vector(id: string, values: seq<Json>, metadata: Record)

  /** The id of the record at position `idx`: `id`, else `paper_id`, else
      `doc_<idx>`, printed by `str`. */
  function RecordId(rec: Record, idx: nat, reprOf: Json -> string): string {
    PyStr(Or(Or(Get(rec, "id"), Get(rec, "paper_id")), Str("doc_" + NatToString(idx))), reprOf)
  }

  /** Records without a truthy id or paper id get ids that tell their
      positions apart. */
  lemma FallbackIdsDistinct(a: Record, b: Record, i: nat, j: nat, reprOf: Json -> string)
    requires !Truthy(Get(a, "id")) && !Truthy(Get(a, "paper_id"))
    requires !Truthy(Get(b, "id")) && !Truthy(Get(b, "paper_id"))
    requires i != j
    ensures RecordId(a, i, reprOf) != RecordId(b, j, reprOf)
  {
    var si := "doc_" + NatToString(i);
    var sj := "doc_" + NatToString(j);
    assert RecordId(a, i, reprOf) == si;
    assert RecordId(b, j, reprOf) == sj;
    if si == sj {
      assert si[4..] == NatToString(i);
      assert sj[4..] == NatToString(j);
      NatToStringInjective(i, j);
    }
  }

  const InvalidEmbedding: string := "Missing/invalid embedding for record "

  /** The (id, values, metadata) triple upserted for the record at `idx`;
      `metaOf` is `build_metadata`, kept as a parameter in the batch-level
      definitions. */
  function TupleOf(rec: Record, idx: nat, metaOf: Record -> Record, reprOf: Json -> string): Vector
    requires VectorOf(rec).Array?
  {
    Vector(RecordId(rec, idx, reprOf), VectorOf(rec).items, metaOf(rec))
  }

  /** The position of the first record from `from` on whose vector is not a list. */
  function FirstWithoutVector(batch: seq<Record>, from: nat): (r: Option<nat>)
    requires from <= |batch|
    ensures r.None? <==> forall o :: from <= o < |batch| ==> VectorOf(batch[o]).Array?
    ensures r.Some? ==> (from <= r.value < |batch| && !VectorOf(batch[r.value]).Array?
      && forall p :: from <= p < r.value ==> VectorOf(batch[p]).Array?)
    decreases |batch| - from
  {
    if from == |batch| then None
    else if !VectorOf(batch[from]).Array? then Some(from)
    else FirstWithoutVector(batch, from + 1)
  }

  /** `upsert_batch(batch, start_idx)`: the triples are collected in order
      and upserted together after the loop, so the first record without a
      vector list raises before anything of the batch is upserted. */
  function UpsertBatch(batch: seq<Record>, start: nat, metaOf: Record -> Record, reprOf: Json -> string)
    : (r: Result<seq<Vector>>)
    ensures r.Ok? <==> forall o :: 0 <= o < |batch| ==> VectorOf(batch[o]).Array?
    ensures r.Ok? ==> (|r.value| == |batch|
      && forall o :: 0 <= o < |batch| ==> r.value[o] == TupleOf(batch[o], start + o, metaOf, reprOf))
    ensures r.Err? ==> (FirstWithoutVector(batch, 0).Some?
      && var o := FirstWithoutVector(batch, 0).value;
         r.error == RuntimeError(InvalidEmbedding + RecordId(batch[o], start + o, reprOf)))
  {
    match FirstWithoutVector(batch, 0)
    case Some(o) => Err(RuntimeError(InvalidEmbedding + RecordId(batch[o], start + o, reprOf)))
    case None => Ok(Tuples(batch, start, metaOf, reprOf))
  }

  /** The triples of a batch whose records all have a vector list. */
  function Tuples(batch: seq<Record>, start: nat, metaOf: Record -> Record, reprOf: Json -> string): (r: seq<Vector>)
    requires forall o :: 0 <= o < |batch| ==> VectorOf(batch[o]).Array?
    ensures |r| == |batch|
    ensures forall o :: 0 <= o < |batch| ==> r[o] == TupleOf(batch[o], start + o, metaOf, reprOf)
  {
    seq(|batch|, o requires 0 <= o < |batch| => TupleOf(batch[o], start + o, metaOf, reprOf))
  }

  /** `range(0, total, size)` raises for a zero step. */
  const ZeroStep: string := "range() arg 3 must not be zero"
  const NoDimension: string := "Could not infer embedding dimension from data."
  const BadShapes: string := "Fix embed shapes before uploading"

  /** The batches upserted from position `start` on, each
      `sources[start:start + size]`; stops at the first error. */
  function UploadFrom(sources: seq<Record>, start: nat, size: nat, metaOf: Record -> Record, reprOf: Json -> string)
    : Result<seq<seq<Vector>>>
    requires size > 0
    decreases |sources| - start
  {
    if start >= |sources| then Ok([])
    else
      var end := BatchEnd(|sources|, start, size);
      var batch :- UpsertBatch(sources[start..end], start, metaOf, reprOf);
      var rest :- UploadFrom(sources, end, size, metaOf, reprOf);
      Ok([batch] + rest)
  }

  /** The batches `sources[start:]` is cut into. */
  function BatchesFrom(sources: seq<Record>, start: nat, size: nat): seq<seq<Record>>
    requires size > 0
    decreases |sources| - start
  {
    if start >= |sources| then []
    else
      var end := BatchEnd(|sources|, start, size);
      [sources[start..end]] + BatchesFrom(sources, end, size)
  }

  /** The batches are contiguous, cover every record from `start` on in
      order, and all but the last hold exactly `size` records. */
  lemma {:induction false} BatchesCover(sources: seq<Record>, start: nat, size: nat)
    requires size > 0 && start <= |sources|
    ensures var bs := BatchesFrom(sources, start, size);
      Flatten(bs) == sources[start..]
      && (forall k :: 0 <= k < |bs| ==> 0 < |bs[k]| <= size)
      && (forall k :: 0 <= k < |bs| - 1 ==> |bs[k]| == size)
    decreases |sources| - start
  {
    if start < |sources| {
      var end := BatchEnd(|sources|, start, size);
      BatchesCover(sources, end, size);
      var rest := BatchesFrom(sources, end, size);
      FlattenPrepend(sources[start..end], rest);
      assert sources[start..end] + sources[end..] == sources[start..];
      if end == |sources| {
        assert rest == [];
      }
    } else {
      assert sources[start..] == [];
    }
  }

  /** The end of the batch that starts at `start`. */
  function BatchEnd(total: nat, start: nat, size: nat): (e: nat)
    requires start < total && size > 0
    ensures start < e <= total && e - start <= size
    ensures e < total ==> e - start == size
  {
    if start + size <= total then start + size else total
  }

  /** The triples of `vs` are those of `sources[start..]`, in order. */
  ghost predicate VectorsOf(sources: seq<Record>, start: nat, vs: seq<Vector>, metaOf: Record -> Record, reprOf: Json -> string)
    requires start <= |sources|
  {
    |vs| == |sources| - start
    && forall i :: start <= i < |sources| ==> (VectorOf(sources[i]).Array?
         && vs[i - start] == TupleOf(sources[i], i, metaOf, reprOf))
  }

  /** One step of `UploadFrom` when the first batch upserts. */
  lemma UploadFromStep(sources: seq<Record>, start: nat, size: nat, metaOf: Record -> Record, reprOf: Json -> string)
    requires size > 0 && start < |sources|
    requires UpsertBatch(sources[start..BatchEnd(|sources|, start, size)], start, metaOf, reprOf).Ok?
    requires UploadFrom(sources, BatchEnd(|sources|, start, size), size, metaOf, reprOf).Ok?
    ensures UploadFrom(sources, start, size, metaOf, reprOf)
         == Ok([UpsertBatch(sources[start..BatchEnd(|sources|, start, size)], start, metaOf, reprOf).value]
               + UploadFrom(sources, BatchEnd(|sources|, start, size), size, metaOf, reprOf).value)
  {
  }

  /** Joining the triples of a batch and of the records after it. */
  lemma VectorsOfJoin(sources: seq<Record>, start: nat, end: nat, b: seq<Vector>, rest: seq<Vector>,
                      metaOf: Record -> Record, reprOf: Json -> string)
    requires start < end <= |sources|
    requires |b| == end - start
    requires forall o :: 0 <= o < |b| ==> (VectorOf(sources[start + o]).Array?
      && b[o] == TupleOf(sources[start + o], start + o, metaOf, reprOf))
    requires VectorsOf(sources, end, rest, metaOf, reprOf)
    ensures VectorsOf(sources, start, b + rest, metaOf, reprOf)
  {
    forall i | start <= i < |sources|
      ensures VectorOf(sources[i]).Array? && (b + rest)[i - start] == TupleOf(sources[i], i, metaOf, reprOf)
    {
      if i < end {
        assert (b + rest)[i - start] == b[i - start];
      } else {
        assert (b + rest)[i - start] == rest[i - end];
      }
    }
  }

  /** What is upserted when every record has a vector list: the triples of
      the records from `start` on, in order. */
  lemma {:induction false} UploadFromBatches(sources: seq<Record>, start: nat, size: nat,
                                             metaOf: Record -> Record, reprOf: Json -> string)
    requires size > 0 && start <= |sources|
    requires forall i :: 0 <= i < |sources| ==> VectorOf(sources[i]).Array?
    ensures UploadFrom(sources, start, size, metaOf, reprOf).Ok?
    ensures VectorsOf(sources, start, Flatten(UploadFrom(sources, start, size, metaOf, reprOf).value), metaOf, reprOf)
    decreases |sources| - start
  {
    if start < |sources| {
      var end := BatchEnd(|sources|, start, size);
      var batch := sources[start..end];
      assert forall o :: 0 <= o < |batch| ==> batch[o] == sources[start + o];
      var b := UpsertBatch(batch, start, metaOf, reprOf).value;
      UploadFromBatches(sources, end, size, metaOf, reprOf);
      var rest := UploadFrom(sources, end, size, metaOf, reprOf).value;
      UploadFromStep(sources, start, size, metaOf, reprOf);
      FlattenPrepend(b, rest);
      VectorsOfJoin(sources, start, end, b, Flatten(rest), metaOf, reprOf);
    }
  }

  /** The upserted batches follow the record batches one for one, so
      each holds at most `size` triples and all but the last exactly `size`. */
  lemma {:induction false} UploadBatchSizes(sources: seq<Record>, start: nat, size: nat,
                                            metaOf: Record -> Record, reprOf: Json -> string)
    requires size > 0 && start <= |sources|
    requires UploadFrom(sources, start, size, metaOf, reprOf).Ok?
    ensures var up := UploadFrom(sources, start, size, metaOf, reprOf).value;
      var bs := BatchesFrom(sources, start, size);
      |up| == |bs| && forall k :: 0 <= k < |up| ==> |up[k]| == |bs[k]|
    decreases |sources| - start
  {
    if start < |sources| {
      var end := BatchEnd(|sources|, start, size);
      UploadBatchSizes(sources, end, size, metaOf, reprOf);
      UploadFromStep(sources, start, size, metaOf, reprOf);
    }
  }

  /** `build_metadata` as the metadata builder of the upload. */
  function MetadataOf(dumps: Json -> string, reprOf: Json -> string): Record -> Record {
    (rec: Record) => BuildMetadata(rec, dumps, reprOf)
  }

  /** The script after the records are loaded: infer the dimension, check
      every record, then upsert batch by batch. The result is the list of
      upserted batches, or the exception that stopped the script. */
  function Upload(sources: seq<Record>, size: int, dumps: Json -> string, reprOf: Json -> string)
    : (r: Result<seq<seq<Vector>>>)
    ensures InferEmbeddingDim(sources).None? ==> r == Err(RuntimeError(NoDimension))
    ensures r.Ok? <==> (InferEmbeddingDim(sources).Some?
      && (forall i :: 0 <= i < |sources| ==> Fits(sources[i], InferEmbeddingDim(sources).value))
      && size != 0)
    ensures InferEmbeddingDim(sources).Some? && Problems(sources, InferEmbeddingDim(sources).value) != []
      ==> r == Err(RuntimeError(BadShapes))
    ensures InferEmbeddingDim(sources).Some? && Problems(sources, InferEmbeddingDim(sources).value) == [] && size == 0
      ==> r == Err(ValueError(ZeroStep))
    ensures r.Ok? && size < 0 ==> r.value == []
  {
    var dim := InferEmbeddingDim(sources);
    if dim.None? then Err(RuntimeError(NoDimension))
    else if Problems(sources, dim.value) != [] then Err(RuntimeError(BadShapes))
    else if size == 0 then Err(ValueError(ZeroStep))
    else if size < 0 then Ok([])
    else
      UploadFromBatches(sources, 0, size, MetadataOf(dumps, reprOf), reprOf);
      UploadFrom(sources, 0, size, MetadataOf(dumps, reprOf), reprOf)
  }

  /** A successful upload with a positive batch size upserts every record
      once, in order, under the id of its position, in batches of `size`. */
  lemma UploadComplete(sources: seq<Record>, size: int, dumps: Json -> string, reprOf: Json -> string)
    requires Upload(sources, size, dumps, reprOf).Ok? && size > 0
    ensures var up := Upload(sources, size, dumps, reprOf).value;
      |Flatten(up)| == |sources|
      && forall i :: 0 <= i < |sources| ==>
           Flatten(up)[i].id == RecordId(sources[i], i, reprOf)
           && Flatten(up)[i].values == VectorOf(sources[i]).items
           && |Flatten(up)[i].values| == InferEmbeddingDim(sources).value
           && Flatten(up)[i].metadata == BuildMetadata(sources[i], dumps, reprOf)
  {
    var dim := InferEmbeddingDim(sources).value;
    UploadIsUploadFrom(sources, size, dumps, reprOf);
    UploadFromBatches(sources, 0, size, MetadataOf(dumps, reprOf), reprOf);
    var vs := Flatten(UploadFrom(sources, 0, size, MetadataOf(dumps, reprOf), reprOf).value);
    forall i | 0 <= i < |sources|
      ensures vs[i].id == RecordId(sources[i], i, reprOf) && vs[i].values == VectorOf(sources[i]).items
           && |vs[i].values| == dim && vs[i].metadata == BuildMetadata(sources[i], dumps, reprOf)
    {
      assert vs[i] == TupleOf(sources[i], i, MetadataOf(dumps, reprOf), reprOf);
      assert Fits(sources[i], dim);
    }
  }

  lemma UploadIsUploadFrom(sources: seq<Record>, size: int, dumps: Json -> string, reprOf: Json -> string)
    requires Upload(sources, size, dumps, reprOf).Ok? && size > 0
    ensures forall i :: 0 <= i < |sources| ==> Fits(sources[i], InferEmbeddingDim(sources).value)
    ensures Upload(sources, size, dumps, reprOf) == UploadFrom(sources, 0, size, MetadataOf(dumps, reprOf), reprOf)
  {
  }
}

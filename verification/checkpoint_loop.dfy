/** The main loop of `process_sources.py`: every source whose id is not yet
    checkpointed is summarised, results are flushed in batches of
    `BatchSize`, and the set of processed ids is checkpointed after each
    flush. */
module CheckpointLoop {
  import opened Wrappers
  import opened JsonValue
  import opened Seqs
  import opened SummaryRecord

  /** How many results a batch file holds before it is flushed. */
  const BatchSize: nat := 498

  /** `source.get("id") or source.get("paper_id")`. */
  function SourceId(src: Record): Json {
    Or(Get(src, "id"), Get(src, "paper_id"))
  }

  /** The ids of a sequence as a set. */
  function IdSet(ids: seq<Json>): set<Json> {
    set x | x in ids
  }

  /** What `process_source` returns or raises for each source;
      `respond(i, k)` is what the summarisation service returned or raised
      on the `k`-th call for the `i`-th source. Computing an outcome for a
      source the loop skips changes nothing, as the model has no effects. */
  function Outcomes(sources: seq<Record>, respond: (nat, nat) -> Result<string>,
                    loads: string -> Result<Json>, reprOf: Json -> string): (r: seq<Result<Option<Record>>>)
    ensures |r| == |sources|
    ensures forall i :: 0 <= i < |sources| ==> r[i] == ProcessSource(sources[i], (k: nat) => respond(i, k), loads, reprOf)
  {
    seq(|sources|, i requires 0 <= i < |sources| => ProcessSource(sources[i], (k: nat) => respond(i, k), loads, reprOf))
  }

  /** The loop's state without the batching: the successful results in
      order, their ids, the indices of the sources they came from, and the
      set `processed_ids`. */
  datatype Progress = Progress(results: seq<Record>, ids: seq<Json>, origins: seq<nat>, done: set<Json>)

  /** One iteration for the `i`-th source. An unhashable id makes the
      membership test raise; a checkpointed id skips the source; an
      exception out of preprocessing escapes; a result is kept only when
      the summary succeeded. A result record always holds the keys it was
      given, so `if out:` is the same as "the summary succeeded". */
  function Step(p: Progress, sources: seq<Record>, i: nat, outcomes: seq<Result<Option<Record>>>): (r: Result<Progress>)
    requires i < |sources| == |outcomes|
    ensures r.Ok? ==> (p.done <= r.value.done && p.ids <= r.value.ids
      && p.results <= r.value.results && p.origins <= r.value.origins)
    ensures r.Ok? ==> |r.value.results| <= |p.results| + 1
    ensures r.Err? <==> (!Hashable(SourceId(sources[i]))
      || (SourceId(sources[i]) !in p.done && outcomes[i].Err?))
  {
    var sid := SourceId(sources[i]);
    if !Hashable(sid) then Err(TypeError)
    else if sid in p.done then Ok(p)
    else
      var out :- outcomes[i];
      match out
      case None => Ok(p)
      case Some(rec) => Ok(Progress(p.results + [rec], p.ids + [sid], p.origins + [i], p.done + {sid}))
  }

  /** The state after the first `n` sources, starting from the
      checkpointed ids `initial`. */
  function Run(sources: seq<Record>, n: nat, initial: set<Json>, outcomes: seq<Result<Option<Record>>>): Result<Progress>
    requires n <= |sources| == |outcomes|
  {
    if n == 0 then Ok(Progress([], [], [], initial))
    else
      var p :- Run(sources, n - 1, initial, outcomes);
      Step(p, sources, n - 1, outcomes)
  }

  /** What the state promises after the first `n` sources. */
  ghost predicate Valid(p: Progress, sources: seq<Record>, n: nat, initial: set<Json>,
                        outcomes: seq<Result<Option<Record>>>)
  {
    && n <= |sources| == |outcomes|
    && |p.results| == |p.ids| == |p.origins|
    && p.done == initial + IdSet(p.ids)
    && NoDup(p.ids)
    && (forall k :: 0 <= k < |p.ids| ==> p.ids[k] !in initial)
    && (forall k :: 0 <= k < |p.origins| ==> p.origins[k] < n)
    && (forall a, b :: 0 <= a < b < |p.origins| ==> p.origins[a] < p.origins[b])
    && (forall k :: 0 <= k < |p.origins| ==>
          p.ids[k] == SourceId(sources[p.origins[k]])
          && outcomes[p.origins[k]] == Ok(Some(p.results[k])))
  }

  /** Ids are added only for sources whose summary succeeded, never twice
      and never when already checkpointed; each result is what its source's
      summary returned, in source order. */
  lemma {:induction false} RunValid(sources: seq<Record>, n: nat, initial: set<Json>,
                                    outcomes: seq<Result<Option<Record>>>)
    requires n <= |sources| == |outcomes|
    requires Run(sources, n, initial, outcomes).Ok?
    ensures Valid(Run(sources, n, initial, outcomes).value, sources, n, initial, outcomes)
  {
    if n > 0 {
      RunValid(sources, n - 1, initial, outcomes);
      var p := Run(sources, n - 1, initial, outcomes).value;
      StepValid(p, sources, n - 1, initial, outcomes);
    }
  }

  lemma StepValid(p: Progress, sources: seq<Record>, i: nat, initial: set<Json>,
                  outcomes: seq<Result<Option<Record>>>)
    requires i < |sources| == |outcomes|
    requires Valid(p, sources, i, initial, outcomes)
    requires Step(p, sources, i, outcomes).Ok?
    ensures Valid(Step(p, sources, i, outcomes).value, sources, i + 1, initial, outcomes)
  {
    var sid := SourceId(sources[i]);
    var out := outcomes[i];
    if sid !in p.done && out.value.Some? {
      var q := Step(p, sources, i, outcomes).value;
      assert q == Progress(p.results + [out.value.value], p.ids + [sid], p.origins + [i], p.done + {sid});
      assert IdSet(q.ids) == IdSet(p.ids) + {sid};
      assert sid !in p.ids;
      forall k | 0 <= k < |q.origins|
        ensures q.ids[k] == SourceId(sources[q.origins[k]])
          && outcomes[q.origins[k]] == Ok(Some(q.results[k]))
      {
        if k < |p.origins| {
          assert q.origins[k] == p.origins[k] && q.ids[k] == p.ids[k] && q.results[k] == p.results[k];
        }
      }
    }
  }

  /** A source whose summary succeeds leaves its id checkpointed. */
  lemma {:induction false} RunCovers(sources: seq<Record>, n: nat, i: nat, initial: set<Json>,
                                     outcomes: seq<Result<Option<Record>>>)
    requires i < n <= |sources| == |outcomes|
    requires Run(sources, n, initial, outcomes).Ok?
    requires outcomes[i] != Ok(None)
    ensures SourceId(sources[i]) in Run(sources, n, initial, outcomes).value.done
  {
    if i < n - 1 {
      RunCovers(sources, n - 1, i, initial, outcomes);
    }
  }

  /** A source whose id was checkpointed before the run is never summarised
      again. */
  lemma CheckpointedSkipped(sources: seq<Record>, n: nat, i: nat, initial: set<Json>,
                            outcomes: seq<Result<Option<Record>>>)
    requires i < n <= |sources| == |outcomes|
    requires Run(sources, n, initial, outcomes).Ok?
    requires SourceId(sources[i]) in initial
    ensures i !in Run(sources, n, initial, outcomes).value.origins
  {
    RunValid(sources, n, initial, outcomes);
  }

  /** Of the sources that share an id only one is ever summarised; with
      neither `id` nor `paper_id` every such source shares the id None. */
  lemma SameIdSummarisedOnce(sources: seq<Record>, n: nat, a: nat, b: nat, initial: set<Json>,
                             outcomes: seq<Result<Option<Record>>>)
    requires n <= |sources| == |outcomes|
    requires Run(sources, n, initial, outcomes).Ok?
    requires a < b < |Run(sources, n, initial, outcomes).value.origins|
    ensures var o := Run(sources, n, initial, outcomes).value.origins;
      o[a] < o[b] < |sources| && SourceId(sources[o[a]]) != SourceId(sources[o[b]])
  {
    RunValid(sources, n, initial, outcomes);
  }

  /** How many results the first `k + 1` batches hold. */
  function Flushed(batches: seq<seq<Record>>, k: nat): nat
    requires k < |batches|
  {
    |Flatten(batches[..k + 1])|
  }

  /** Checkpoint `k`, written after batch `k` was flushed, holds the
      initial ids and the ids of every result flushed so far. */
  ghost predicate Checkpointed(checkpoints: seq<set<Json>>, batches: seq<seq<Record>>, ids: seq<Json>,
                               initial: set<Json>)
  {
    && |checkpoints| == |batches|
    && forall k :: 0 <= k < |checkpoints| ==>
         Flushed(batches, k) <= |ids| && checkpoints[k] == initial + IdSet(ids[..Flushed(batches, k)])
  }

  /** Every batch holds exactly `BatchSize` results. */
  ghost predicate Full(batches: seq<seq<Record>>) {
    forall k :: 0 <= k < |batches| ==> |batches[k]| == BatchSize
  }

  /** Flushed batches: none is empty or larger than `BatchSize`, and all but
      the last are full. */
  ghost predicate WellBatched(batches: seq<seq<Record>>) {
    && (forall k :: 0 <= k < |batches| ==> 0 < |batches[k]| <= BatchSize)
    && (forall k :: 0 <= k < |batches| - 1 ==> |batches[k]| == BatchSize)
  }

  /** What is on disk when the run stops with state `run`: whole batches
      holding the results in order, all but fewer than `BatchSize` of them. */
  ghost predicate StoppedAfter(run: Result<Progress>, batches: seq<seq<Record>>, checkpoints: seq<set<Json>>,
                               initial: set<Json>)
  {
    && run.Ok?
    && Full(batches)
    && Flatten(batches) <= run.value.results
    && |run.value.results| - |Flatten(batches)| < BatchSize
    && Checkpointed(checkpoints, batches, run.value.ids, initial)
  }

  /** The loop of `main` with its batch files and checkpoints. `batches`
      are the batch files written in order, `checkpoints` the checkpoint
      written after each, and `failure` the exception that ended the run
      early, if one did. On success the batches hold every result of the
      unbatched run in order. */
  method ProcessAll(sources: seq<Record>, initial: set<Json>, outcomes: seq<Result<Option<Record>>>)
    returns (batches: seq<seq<Record>>, checkpoints: seq<set<Json>>, failure: Option<Raised>)
    requires |sources| == |outcomes|
    ensures WellBatched(batches)
    ensures failure.None? <==> Run(sources, |sources|, initial, outcomes).Ok?
    ensures failure.None? ==>
      Flatten(batches) == Run(sources, |sources|, initial, outcomes).value.results
      && Checkpointed(checkpoints, batches, Run(sources, |sources|, initial, outcomes).value.ids, initial)
    ensures failure.Some? ==> exists n :: (0 <= n < |sources|
      && Run(sources, n + 1, initial, outcomes) == Err(failure.value)
      && StoppedAfter(Run(sources, n, initial, outcomes), batches, checkpoints, initial))
  {
    var p := Progress([], [], [], initial);
    var pending: seq<Record> := [];
    batches, checkpoints, failure := [], [], None;
    var i := 0;
    while i < |sources|
      invariant i <= |sources|
      invariant Run(sources, i, initial, outcomes) == Ok(p)
      invariant Pending(p, batches, checkpoints, pending, initial)
    {
      var step := Step(p, sources, i, outcomes);
      RunNext(sources, i, initial, outcomes, p);
      if step.Err? {
        failure := Some(step.error);
        RunStaysFailed(sources, i + 1, |sources|, initial, outcomes);
        PendingStopped(p, batches, checkpoints, pending, initial);
        return;
      }
      p, batches, checkpoints, pending := Advance(sources, initial, outcomes, i, p, batches, checkpoints, pending);
      i := i + 1;
    }
    batches, checkpoints := FlushRest(p, batches, checkpoints, pending, initial);
  }

  /** One successful iteration: the state moves to the next source and its
      result, if any, joins the pending batch. */
  method Advance(sources: seq<Record>, initial: set<Json>, outcomes: seq<Result<Option<Record>>>, i: nat,
                 p: Progress, batches: seq<seq<Record>>, checkpoints: seq<set<Json>>, pending: seq<Record>)
    returns (q: Progress, batches': seq<seq<Record>>, checkpoints': seq<set<Json>>, pending': seq<Record>)
    requires i < |sources| == |outcomes|
    requires Run(sources, i, initial, outcomes) == Ok(p)
    requires Step(p, sources, i, outcomes).Ok?
    requires Pending(p, batches, checkpoints, pending, initial)
    ensures Run(sources, i + 1, initial, outcomes) == Ok(q)
    ensures Pending(q, batches', checkpoints', pending', initial)
  {
    RunNext(sources, i, initial, outcomes, p);
    RunDone(sources, i + 1, initial, outcomes);
    q := Step(p, sources, i, outcomes).value;
    batches', checkpoints', pending' := Absorb(p, q, batches, checkpoints, pending, initial);
  }

  /** The loop's invariant is what stays on disk when the run stops. */
  lemma PendingStopped(p: Progress, batches: seq<seq<Record>>, checkpoints: seq<set<Json>>,
                       pending: seq<Record>, initial: set<Json>)
    requires Pending(p, batches, checkpoints, pending, initial)
    ensures StoppedAfter(Ok(p), batches, checkpoints, initial)
  {
  }

  /** The loop's invariant: whole batches and the pending results together
      are the results so far, and the checkpoints follow the batches. */
  ghost predicate Pending(p: Progress, batches: seq<seq<Record>>, checkpoints: seq<set<Json>>,
                          pending: seq<Record>, initial: set<Json>)
  {
    && Full(batches)
    && Flatten(batches) + pending == p.results
    && |pending| < BatchSize
    && |p.ids| == |p.results| && p.done == initial + IdSet(p.ids)
    && Checkpointed(checkpoints, batches, p.ids, initial)
  }

  /** Takes in the results of one more source and flushes the pending batch
      once it holds `BatchSize` results. */
  method Absorb(p: Progress, q: Progress, batches: seq<seq<Record>>, checkpoints: seq<set<Json>>,
                pending: seq<Record>, initial: set<Json>)
    returns (batches': seq<seq<Record>>, checkpoints': seq<set<Json>>, pending': seq<Record>)
    requires Pending(p, batches, checkpoints, pending, initial)
    requires p.ids <= q.ids && p.results <= q.results && |q.results| <= |p.results| + 1
    requires |q.ids| == |q.results| && q.done == initial + IdSet(q.ids)
    ensures Pending(q, batches', checkpoints', pending', initial)
  {
    AdvanceKeepsCheckpoints(checkpoints, batches, p.ids, q.ids, initial);
    var added := q.results[|p.results|..];
    assert p.results + added == q.results;
    batches', checkpoints', pending' := batches, checkpoints, pending + added;
    if |pending'| >= BatchSize {
      FlushKeepsCheckpoints(checkpoints, batches, pending', q.ids, initial);
      FlattenAppend(batches, pending');
      batches', checkpoints' := batches + [pending'], checkpoints + [q.done];
      pending' := [];
    }
  }

  /** After the last source: a non-empty pending batch is flushed, with a
      last checkpoint. */
  method FlushRest(p: Progress, batches: seq<seq<Record>>, checkpoints: seq<set<Json>>,
                   pending: seq<Record>, initial: set<Json>)
    returns (batches': seq<seq<Record>>, checkpoints': seq<set<Json>>)
    requires Pending(p, batches, checkpoints, pending, initial)
    ensures WellBatched(batches') && Flatten(batches') == p.results
    ensures Checkpointed(checkpoints', batches', p.ids, initial)
  {
    batches', checkpoints' := batches, checkpoints;
    if |pending| > 0 {
      FlushKeepsCheckpoints(checkpoints, batches, pending, p.ids, initial);
      FlattenAppend(batches, pending);
      batches', checkpoints' := batches + [pending], checkpoints + [p.done];
    } else {
      assert pending == [];
      assert Flatten(batches) + [] == Flatten(batches);
    }
  }

  /** Results that arrive later do not change what earlier checkpoints hold. */
  lemma AdvanceKeepsCheckpoints(checkpoints: seq<set<Json>>, batches: seq<seq<Record>>, ids: seq<Json>,
                                ids': seq<Json>, initial: set<Json>)
    requires Checkpointed(checkpoints, batches, ids, initial) && ids <= ids'
    ensures Checkpointed(checkpoints, batches, ids', initial)
  {
    forall k | 0 <= k < |checkpoints|
      ensures Flushed(batches, k) <= |ids'| && checkpoints[k] == initial + IdSet(ids'[..Flushed(batches, k)])
    {
      var m := Flushed(batches, k);
      assert m <= |ids|;
      assert ids'[..m] == ids[..m];
    }
  }

  /** Flushing a batch that completes the results and checkpointing the
      processed ids keeps the checkpoints in step with the batches. */
  lemma FlushKeepsCheckpoints(checkpoints: seq<set<Json>>, batches: seq<seq<Record>>, pending: seq<Record>,
                              ids: seq<Json>, initial: set<Json>)
    requires Checkpointed(checkpoints, batches, ids, initial)
    requires |Flatten(batches) + pending| == |ids|
    ensures Checkpointed(checkpoints + [initial + IdSet(ids)], batches + [pending], ids, initial)
  {
    var bs := batches + [pending];
    var cs := checkpoints + [initial + IdSet(ids)];
    forall k | 0 <= k < |cs|
      ensures Flushed(bs, k) <= |ids| && cs[k] == initial + IdSet(ids[..Flushed(bs, k)])
    {
      if k < |batches| {
        assert bs[..k + 1] == batches[..k + 1];
        assert Flushed(bs, k) == Flushed(batches, k);
      } else {
        assert bs[..k + 1] == bs;
        FlattenAppend(batches, pending);
        assert ids[..|ids|] == ids;
      }
    }
  }

  /** An exception ends the run: no later source can undo it. */
  lemma {:induction false} RunStaysFailed(sources: seq<Record>, m: nat, n: nat, initial: set<Json>,
                                          outcomes: seq<Result<Option<Record>>>)
    requires m <= n <= |sources| == |outcomes|
    requires Run(sources, m, initial, outcomes).Err?
    ensures Run(sources, n, initial, outcomes) == Run(sources, m, initial, outcomes)
  {
    if m < n {
      RunStaysFailed(sources, m, n - 1, initial, outcomes);
    }
  }

  lemma RunNext(sources: seq<Record>, i: nat, initial: set<Json>, outcomes: seq<Result<Option<Record>>>, p: Progress)
    requires i < |sources| == |outcomes|
    requires Run(sources, i, initial, outcomes) == Ok(p)
    ensures Run(sources, i + 1, initial, outcomes) == Step(p, sources, i, outcomes)
  {
  }

  /** The part of `Valid` the batching needs. */
  lemma RunDone(sources: seq<Record>, n: nat, initial: set<Json>, outcomes: seq<Result<Option<Record>>>)
    requires n <= |sources| == |outcomes|
    requires Run(sources, n, initial, outcomes).Ok?
    ensures var p := Run(sources, n, initial, outcomes).value;
      |p.ids| == |p.results| && p.done == initial + IdSet(p.ids)
  {
    RunValid(sources, n, initial, outcomes);
  }
}

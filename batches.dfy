/**
 * `MaterialsProcessor.process_formulas` as a function of the services and the
 * processor's state: the formulas are taken in batches; each formula's structure
 * is obtained and written as a CIF file (or, when that fails, an error CIF is
 * attempted); after each batch the results so far are checkpointed and the
 * processor sleeps for `delay` seconds.
 */
module Batches {
  import opened Basics
  import opened Crystal
  import opened Effects
  import opened Paths
  import opened Acquisition

  // ---------------------------------------------------------------------------
  // Python dictionaries: insertion-ordered, one entry per key.
  // ---------------------------------------------------------------------------

  type Dict = seq<(string, Structure)>

  function Keys(m: Dict): (r: seq<string>)
    ensures |r| == |m| && forall i :: 0 <= i < |m| ==> r[i] == m[i].0
  {
    seq(|m|, i requires 0 <= i < |m| => m[i].0)
  }

  ghost predicate DistinctKeys(m: Dict) {
    forall i, j :: 0 <= i < j < |m| ==> m[i].0 != m[j].0
  }

  ghost predicate ValuesHaveSites(m: Dict) {
    forall i :: 0 <= i < |m| ==> HasSites(m[i].1)
  }

  /** The position of key `k`, or -1. */
  function IndexOf(m: Dict, k: string): (r: int)
    ensures -1 <= r < |m|
    ensures r >= 0 ==> m[r].0 == k
    ensures r < 0 ==> forall i :: 0 <= i < |m| ==> m[i].0 != k
  {
    if m == [] then -1
    else if m[0].0 == k then 0
    else
      var r := IndexOf(m[1..], k);
      if r < 0 then -1 else r + 1
  }

  /** `m[k] = v`: a present key keeps its place, a new key goes last. */
  function Put(m: Dict, k: string, v: Structure): Dict {
    var i := IndexOf(m, k);
    if i >= 0 then m[i := (k, v)] else m + [(k, v)]
  }

  /** `m.update(other)`: the entries of `other` put in its order. */
  function Update(m: Dict, other: Dict): Dict
    decreases |other|
  {
    if other == [] then m else Update(Put(m, other[0].0, other[0].1), other[1..])
  }

  /**
   * Putting keeps the keys distinct and in place, adds `k` once, and stores `v`
   * under it, leaving the other values as they were.
   */
  lemma {:induction false} PutKeeps(m: Dict, k: string, v: Structure)
    requires DistinctKeys(m)
    ensures var r := Put(m, k, v);
            && DistinctKeys(r)
            && |m| <= |r| && Keys(r)[..|m|] == Keys(m)
            && (forall f :: f in Keys(r) <==> f in Keys(m) || f == k)
            && (forall i :: 0 <= i < |r| ==> r[i].1 == v || (i < |m| && r[i].1 == m[i].1))
            && (exists i :: 0 <= i < |r| && r[i] == (k, v))
  {
    var r := Put(m, k, v);
    var i := IndexOf(m, k);
    if i >= 0 {
      assert r[i] == (k, v);
      forall f | f in Keys(m) ensures f in Keys(r) {
        var j :| 0 <= j < |m| && Keys(m)[j] == f;
        assert Keys(r)[j] == f;
      }
    } else {
      assert r[|m|] == (k, v) && Keys(r)[|m|] == k;
      forall f | f in Keys(m) ensures f in Keys(r) {
        var j :| 0 <= j < |m| && Keys(m)[j] == f;
        assert Keys(r)[j] == f;
      }
    }
  }

  /**
   * Updating keeps the keys distinct, keeps the old keys first and in order,
   * and ends with exactly the keys of both; every value comes from one of them.
   */
  lemma {:induction false} UpdateKeeps(m: Dict, other: Dict)
    requires DistinctKeys(m)
    ensures var r := Update(m, other);
            && DistinctKeys(r)
            && |m| <= |r| && Keys(r)[..|m|] == Keys(m)
            && (forall f :: f in Keys(r) <==> f in Keys(m) || f in Keys(other))
            && (ValuesHaveSites(m) && ValuesHaveSites(other) ==> ValuesHaveSites(r))
    decreases |other|
  {
    if other != [] {
      var p := Put(m, other[0].0, other[0].1);
      PutKeeps(m, other[0].0, other[0].1);
      UpdateKeeps(p, other[1..]);
      var r := Update(p, other[1..]);
      assert Keys(r)[..|m|] == Keys(r)[..|p|][..|m|];
      KeysSplit(other);
      if ValuesHaveSites(other) {
        ValuesTail(other);
      }
    }
  }

  /** The keys of a non-empty dictionary are its first key and the keys of the rest. */
  lemma KeysSplit(other: Dict)
    requires other != []
    ensures forall f :: f in Keys(other) <==> f == other[0].0 || f in Keys(other[1..])
  {
    forall f ensures f in Keys(other) <==> f == other[0].0 || f in Keys(other[1..]) {
      if f in Keys(other) {
        var j :| 0 <= j < |other| && Keys(other)[j] == f;
        if j > 0 {
          assert Keys(other[1..])[j - 1] == f;
        }
      }
      if f in Keys(other[1..]) {
        var j :| 0 <= j < |other| - 1 && Keys(other[1..])[j] == f;
        assert Keys(other)[j + 1] == f;
      }
    }
  }

  lemma ValuesTail(other: Dict)
    requires other != [] && ValuesHaveSites(other)
    ensures ValuesHaveSites(other[1..])
  {
    forall i | 0 <= i < |other| - 1 ensures HasSites(other[1..][i].1) {
      assert other[1..][i] == other[i + 1];
    }
  }

  // ---------------------------------------------------------------------------
  // One formula, one batch, all batches.
  // ---------------------------------------------------------------------------

  /** The part of the processor's state a run changes. */
  datatype PState = PState(cache: map<string, Structure>, errorLog: seq<string>, events: seq<Event>)

  /** `os.path.join(structure_dir, f"{formula.replace(' ', '')}.cif")`. */
  function CifPath(dir: string, formula: string): string {
    Join(dir, RemoveSpaces(formula) + ".cif")
  }

  /** `_save_error_structure` writes under the literal directory "structures", whatever `structure_dir` is. */
  function ErrorPath(formula: string): string {
    "structures/" + formula + "_ERROR.cif"
  }

  function ErrorCifWrites(env: Env, formula: string): seq<Event> {
    if env.errorCifSaved then [WriteFile(ErrorPath(formula))] else []
  }

  /** A formula ends up in the results exactly when it parses and its CIF can be written. */
  predicate Stored(env: Env, dir: string, formula: string) {
    env.parse(formula).Some? && env.writable(CifPath(dir, formula))
  }

  /** The state after one formula, and the structure stored for it (none after an exception). */
  datatype Stepped = Stepped(state: PState, stored: Option<Structure>)

  /** How one formula's structure is obtained from a cache: `get_or_create_structure`. */
  type Acquirer = (map<string, Structure>, string) -> Acquired

  /** `self.get_or_create_structure` of a processor whose services are `env`. */
  function AcquireWith(env: Env): Acquirer {
    (cache, formula) => Acquire(env, cache, formula)
  }

  /**
   * What the batch loop relies on in `get_or_create_structure`: it logs nothing
   * into the error log and neither sleeps nor writes, raises exactly for the
   * formulas that do not parse, keeps a valid cache valid and returns structures
   * with sites.
   */
  ghost predicate WellBehaved(acquire: Acquirer, env: Env) {
    forall cache, formula :: BehavesAt(acquire, env, cache, formula)
  }

  /** `WellBehaved` for one cache and one formula. */
  ghost predicate BehavesAt(acquire: Acquirer, env: Env, cache: map<string, Structure>, formula: string) {
    var a := acquire(cache, formula);
    && a.logged == [] && Silent(a.effects)
    && (a.outcome.Crashed? <==> env.parse(formula).None?)
    && (CacheValid(cache, env.rank) ==>
          CacheValid(a.cache, env.rank) && (a.outcome.Resolved? ==> HasSites(a.outcome.structure)))
  }

  lemma AcquireIsWellBehaved(env: Env)
    ensures WellBehaved(AcquireWith(env), env)
  {
    forall cache, formula
      ensures BehavesAt(AcquireWith(env), env, cache, formula)
    {
      AcquireIsQuiet(env, cache, formula);
      AcquireCrashesOnlyUnparsed(env, cache, formula);
      if CacheValid(cache, env.rank) {
        AcquireKeepsCacheValid(env, cache, formula);
      }
    }
  }

  /** The body of the inner loop: obtain, write, or save the error structure. */
  function Step(acquire: Acquirer, env: Env, dir: string, st: PState, formula: string): Stepped {
    var a := acquire(st.cache, formula);
    var st1 := PState(a.cache, st.errorLog + a.logged, st.events + a.effects);
    match a.outcome
    case Crashed => Stepped(st1.(events := st1.events + ErrorCifWrites(env, formula)), None)
    case Resolved(s) =>
      var path := CifPath(dir, formula);
      if env.writable(path) then Stepped(st1.(events := st1.events + [WriteFile(path)]), Some(s))
      else Stepped(st1.(events := st1.events + ErrorCifWrites(env, formula)), None)
  }

  /** A state and the results gathered so far. */
  datatype Progress = Progress(state: PState, results: Dict)

  /** The inner loop from the current formula on, gathering into `acc` (`batch_results`). */
  function RunBatch(acquire: Acquirer, env: Env, dir: string, st: PState, acc: Dict, batch: seq<string>): Progress
    decreases |batch|
  {
    if batch == [] then Progress(st, acc)
    else
      var s := Step(acquire, env, dir, st, batch[0]);
      RunBatch(acquire, env, dir, s.state, if s.stored.Some? then Put(acc, batch[0], s.stored.value) else acc, batch[1..])
  }

  /** The end of the batch that starts at `start`: `formulas[start:start + b]`. */
  function BatchEnd(n: int, start: int, b: int): int {
    Min(start + b, n)
  }

  /** The batch that starts at `start`. */
  function BatchAt(formulas: seq<string>, start: nat, b: int): seq<string>
    requires b > 0 && start < |formulas|
  {
    formulas[start..BatchEnd(|formulas|, start, b)]
  }

  /** One pass of the outer loop up to its `time.sleep`: run the batch, merge its results, checkpoint. */
  function CheckpointedBatch(acquire: Acquirer, env: Env, dir: string, st: PState, results: Dict, batch: seq<string>): Progress {
    var p := RunBatch(acquire, env, dir, st, [], batch);
    var merged := Update(results, p.results);
    Progress(p.state.(events := p.state.events + [SaveCheckpoint(Keys(merged))]), merged)
  }

  /**
   * One whole pass of the outer loop: the checkpointed batch, then the sleep.
   * The loop makes whole passes only for a non-negative delay (see `ProcessFormulas`).
   */
  function BatchStep(acquire: Acquirer, env: Env, dir: string, delay: int, st: PState, results: Dict, batch: seq<string>): Progress {
    var c := CheckpointedBatch(acquire, env, dir, st, results, batch);
    Progress(c.state.(events := c.state.events + [Sleep(delay)]), c.results)
  }

  /** How one batch is processed, from the state and the results so far. */
  type Batcher = (PState, Dict, seq<string>) -> Progress

  function BatcherOf(acquire: Acquirer, env: Env, dir: string, delay: int): Batcher {
    (st, results, batch) => BatchStep(acquire, env, dir, delay, st, results, batch)
  }

  /**
   * `next` processes every batch as `BatchStep` does. The fact is used only
   * where a `BatchStep` term is at hand.
   */
  ghost predicate StepsAs(next: Batcher, acquire: Acquirer, env: Env, dir: string, delay: int) {
    forall st, results, batch {:trigger BatchStep(acquire, env, dir, delay, st, results, batch)} ::
      next(st, results, batch) == BatchStep(acquire, env, dir, delay, st, results, batch)
  }

  lemma BatcherOfStepsAs(acquire: Acquirer, env: Env, dir: string, delay: int)
    ensures StepsAs(BatcherOf(acquire, env, dir, delay), acquire, env, dir, delay)
  {
  }

  /** The outer loop from batch start `start` on: `formulas[start:start + b]`, then the next start. */
  function RunBatches(next: Batcher, st: PState, results: Dict, formulas: seq<string>, b: int, start: nat): Progress
    requires b > 0
    decreases |formulas| - start
  {
    if start >= |formulas| then Progress(st, results)
    else
      var n := next(st, results, BatchAt(formulas, start, b));
      RunBatches(next, n.state, n.results, formulas, b, start + b)
  }

  /** The outer loop at a batch start runs that batch, then goes on from the next start. */
  lemma RunBatchesUnfold(next: Batcher, st: PState, results: Dict, formulas: seq<string>, b: int, start: nat, n: Progress)
    requires b > 0 && start < |formulas|
    requires n == next(st, results, BatchAt(formulas, start, b))
    ensures RunBatches(next, st, results, formulas, b, start) == RunBatches(next, n.state, n.results, formulas, b, start + b)
  {
  }

  /**
   * What `process_formulas` returns: the results; the `ValueError` of `range` for
   * a zero step; or the `ValueError` of `time.sleep` for a negative delay, which
   * ends the first pass of the outer loop after its checkpoint.
   */
  datatype Processed = Completed(results: Dict) | InvalidBatchSize | NegativeDelay

  /** A final state and what the call returned. */
  datatype Processing = Processing(state: PState, processed: Processed)

  /**
   * `process_formulas`: a negative batch size makes `range` empty; a negative
   * delay raises at the first `time.sleep`, once the first batch is checkpointed.
   */
  function ProcessFormulas(env: Env, dir: string, st: PState, formulas: seq<string>, b: int, delay: int): Processing {
    if b == 0 then Processing(st, InvalidBatchSize)
    else if b < 0 then Processing(st, Completed([]))
    else if delay < 0 && formulas != [] then
      Processing(CheckpointedBatch(AcquireWith(env), env, dir, st, [], BatchAt(formulas, 0, b)).state, NegativeDelay)
    else
      var p := RunBatches(BatcherOf(AcquireWith(env), env, dir, delay), st, [], formulas, b, 0);
      Processing(p.state, Completed(p.results))
  }

  // ---------------------------------------------------------------------------
  // What a run writes, sleeps and checkpoints.
  // ---------------------------------------------------------------------------

  /** The file one formula leaves behind: its CIF, the error CIF, or none. */
  function FileFor(env: Env, dir: string, formula: string): seq<string> {
    if Stored(env, dir, formula) then [CifPath(dir, formula)]
    else if env.errorCifSaved then [ErrorPath(formula)]
    else []
  }

  /** `FileFor` as a function of the formula alone. */
  function FileOfIn(env: Env, dir: string): string -> seq<string> {
    formula => FileFor(env, dir, formula)
  }

  /** The files of the formulas, in order, each formula leaving `fileOf(formula)`. */
  function FilesOver(fileOf: string -> seq<string>, formulas: seq<string>): seq<string> {
    if formulas == [] then [] else fileOf(formulas[0]) + FilesOver(fileOf, formulas[1..])
  }

  /** The files the formulas leave behind, in order. */
  function FilesFor(env: Env, dir: string, formulas: seq<string>): seq<string> {
    FilesOver(FileOfIn(env, dir), formulas)
  }

  lemma {:induction false} FilesOverAppend(fileOf: string -> seq<string>, a: seq<string>, b: seq<string>)
    ensures FilesOver(fileOf, a + b) == FilesOver(fileOf, a) + FilesOver(fileOf, b)
  {
    if a == [] {
      assert a + b == b;
    } else {
      var c := a + b;
      assert c[0] == a[0] && c[1..] == a[1..] + b;
      FilesOverAppend(fileOf, a[1..], b);
      assert FilesOver(fileOf, c) == fileOf(a[0]) + FilesOver(fileOf, a[1..] + b);
      AppendAssoc(fileOf(a[0]), FilesOver(fileOf, a[1..]), FilesOver(fileOf, b));
    }
  }

  /** Python's count of `range(0, n, b)`. */
  function NumBatches(n: int, b: int): nat
    requires b > 0
    decreases n
  {
    if n <= 0 then 0 else 1 + NumBatches(n - b, b)
  }

  /** A positive count of formulas takes one batch more than what is left after the first batch. */
  lemma NumBatchesStep(n: int, b: int)
    requires b > 0 && n > 0
    ensures NumBatches(n, b) == NumBatches(n - b, b) + 1
  {
  }

  /** The batch count is the ceiling of n / b: the smallest k with k * b >= n. */
  lemma {:induction false} NumBatchesIsCeiling(n: int, b: int)
    requires b > 0
    ensures n > 0 ==> (NumBatches(n, b) - 1) * b < n <= NumBatches(n, b) * b
    ensures n <= 0 ==> NumBatches(n, b) == 0
    decreases n
  {
    if n > b {
      NumBatchesIsCeiling(n - b, b);
      var k := NumBatches(n - b, b);
      assert (k + 1) * b == k * b + b && k * b == (k - 1) * b + b;
    }
  }

  /**
   * One formula writes its own file (CIF or error CIF), neither sleeps nor
   * checkpoints, logs nothing into the error log, and stores a structure exactly
   * when it parses and its CIF is writable.
   */
  lemma {:induction false} StepViews(acquire: Acquirer, env: Env, dir: string, st: PState, formula: string)
    requires BehavesAt(acquire, env, st.cache, formula)
    ensures var s := Step(acquire, env, dir, st, formula);
            && Files(s.state.events) == Files(st.events) + FileFor(env, dir, formula)
            && Sleeps(s.state.events) == Sleeps(st.events)
            && Checkpoints(s.state.events) == Checkpoints(st.events)
            && s.state.errorLog == st.errorLog
            && (s.stored.Some? <==> Stored(env, dir, formula))
  {
    var a := acquire(st.cache, formula);
    var path := CifPath(dir, formula);
    var stored := a.outcome.Resolved? && env.writable(path);
    var tail := if stored then [WriteFile(path)] else ErrorCifWrites(env, formula);
    assert Step(acquire, env, dir, st, formula).state.events == st.events + a.effects + tail;
    SilentBetween(st.events, a.effects, tail);
    if stored {
      WriteViews(true, path);
    } else {
      WriteViews(env.errorCifSaved, ErrorPath(formula));
    }
    assert Files(tail) == FileFor(env, dir, formula);
  }

  /**
   * One formula stores a structure exactly when it parses and its CIF is
   * writable; it keeps the cache valid and stores only structures with sites.
   */
  lemma StepStores(acquire: Acquirer, env: Env, dir: string, st: PState, formula: string)
    requires BehavesAt(acquire, env, st.cache, formula)
    ensures var s := Step(acquire, env, dir, st, formula);
            && (s.stored.Some? <==> Stored(env, dir, formula))
            && (CacheValid(st.cache, env.rank) ==>
                  CacheValid(s.state.cache, env.rank) && (s.stored.Some? ==> HasSites(s.stored.value)))
  {
  }

  /** The inner loop runs the first formula, then goes on with the rest of the batch. */
  lemma RunBatchUnfold(acquire: Acquirer, env: Env, dir: string, st: PState, acc: Dict, batch: seq<string>, s: Stepped)
    requires batch != [] && s == Step(acquire, env, dir, st, batch[0])
    ensures RunBatch(acquire, env, dir, st, acc, batch)
            == RunBatch(acquire, env, dir, s.state, if s.stored.Some? then Put(acc, batch[0], s.stored.value) else acc, batch[1..])
  {
  }

  /** A batch writes the files of its formulas in order, and neither sleeps, checkpoints nor logs. */
  lemma {:induction false} RunBatchViews(acquire: Acquirer, env: Env, dir: string, st: PState, acc: Dict, batch: seq<string>)
    requires WellBehaved(acquire, env)
    ensures var p := RunBatch(acquire, env, dir, st, acc, batch);
            && Files(p.state.events) == Files(st.events) + FilesFor(env, dir, batch)
            && Sleeps(p.state.events) == Sleeps(st.events)
            && Checkpoints(p.state.events) == Checkpoints(st.events)
            && p.state.errorLog == st.errorLog
    decreases |batch|
  {
    if batch != [] {
      var s := Step(acquire, env, dir, st, batch[0]);
      StepViews(acquire, env, dir, st, batch[0]);
      var acc1 := if s.stored.Some? then Put(acc, batch[0], s.stored.value) else acc;
      RunBatchViews(acquire, env, dir, s.state, acc1, batch[1..]);
      assert RunBatch(acquire, env, dir, st, acc, batch) == RunBatch(acquire, env, dir, s.state, acc1, batch[1..]);
      assert FilesFor(env, dir, batch) == FileFor(env, dir, batch[0]) + FilesFor(env, dir, batch[1..]);
      AppendAssoc(Files(st.events), FileFor(env, dir, batch[0]), FilesFor(env, dir, batch[1..]));
    }
  }

  /**
   * A batch keeps the keys of `acc` distinct and first, in order, keeps the
   * cache valid and stores only structures with sites.
   */
  lemma {:induction false} RunBatchKeepsKeys(acquire: Acquirer, env: Env, dir: string, st: PState, acc: Dict, batch: seq<string>)
    requires DistinctKeys(acc) && ValuesHaveSites(acc) && CacheValid(st.cache, env.rank)
    requires WellBehaved(acquire, env)
    ensures var p := RunBatch(acquire, env, dir, st, acc, batch);
            && DistinctKeys(p.results) && ValuesHaveSites(p.results) && CacheValid(p.state.cache, env.rank)
            && |acc| <= |p.results| && Keys(p.results)[..|acc|] == Keys(acc)
    decreases |batch|
  {
    if batch != [] {
      var s := Step(acquire, env, dir, st, batch[0]);
      assert BehavesAt(acquire, env, st.cache, batch[0]);
      StepStores(acquire, env, dir, st, batch[0]);
      var acc1 := if s.stored.Some? then Put(acc, batch[0], s.stored.value) else acc;
      if s.stored.Some? {
        PutKeeps(acc, batch[0], s.stored.value);
      }
      RunBatchUnfold(acquire, env, dir, st, acc, batch, s);
      RunBatchKeepsKeys(acquire, env, dir, s.state, acc1, batch[1..]);
      var p := RunBatch(acquire, env, dir, s.state, acc1, batch[1..]);
      assert Keys(p.results)[..|acc|] == Keys(p.results)[..|acc1|][..|acc|];
    }
  }

  /** A batch adds to `acc` exactly its stored formulas. */
  lemma {:induction false} RunBatchGathers(acquire: Acquirer, env: Env, dir: string, st: PState, acc: Dict, batch: seq<string>)
    requires DistinctKeys(acc)
    requires WellBehaved(acquire, env)
    ensures var p := RunBatch(acquire, env, dir, st, acc, batch);
            forall f :: f in Keys(p.results) <==> f in Keys(acc) || (f in batch && Stored(env, dir, f))
    decreases |batch|
  {
    if batch != [] {
      var s := Step(acquire, env, dir, st, batch[0]);
      assert BehavesAt(acquire, env, st.cache, batch[0]);
      StepStores(acquire, env, dir, st, batch[0]);
      var acc1 := if s.stored.Some? then Put(acc, batch[0], s.stored.value) else acc;
      if s.stored.Some? {
        PutKeeps(acc, batch[0], s.stored.value);
      }
      RunBatchUnfold(acquire, env, dir, st, acc, batch, s);
      RunBatchGathers(acquire, env, dir, s.state, acc1, batch[1..]);
      assert forall f :: f in batch <==> f == batch[0] || f in batch[1..] by {
        assert batch == [batch[0]] + batch[1..];
      }
    }
  }

  /**
   * A batch adds to `acc` exactly its stored formulas, after the keys already
   * there, and stores only structures with sites.
   */
  lemma RunBatchResults(acquire: Acquirer, env: Env, dir: string, st: PState, acc: Dict, batch: seq<string>)
    requires DistinctKeys(acc) && ValuesHaveSites(acc) && CacheValid(st.cache, env.rank)
    requires WellBehaved(acquire, env)
    ensures var p := RunBatch(acquire, env, dir, st, acc, batch);
            && DistinctKeys(p.results) && ValuesHaveSites(p.results) && CacheValid(p.state.cache, env.rank)
            && |acc| <= |p.results| && Keys(p.results)[..|acc|] == Keys(acc)
            && (forall f :: f in Keys(p.results) <==> f in Keys(acc) || (f in batch && Stored(env, dir, f)))
  {
    RunBatchKeepsKeys(acquire, env, dir, st, acc, batch);
    RunBatchGathers(acquire, env, dir, st, acc, batch);
  }

  /** What ends a batch: a checkpoint, then the pause. */
  lemma MarksViews(keys: seq<string>, delay: int)
    ensures var marks := [SaveCheckpoint(keys), Sleep(delay)];
            Files(marks) == [] && Sleeps(marks) == [delay] && Checkpoints(marks) == [keys]
  {
    var c, z := [SaveCheckpoint(keys)], [Sleep(delay)];
    OneEventViews(SaveCheckpoint(keys));
    OneEventViews(Sleep(delay));
    ViewsAppend(c, z);
    assert c + z == [SaveCheckpoint(keys), Sleep(delay)];
  }

  /** The formulas from `start` on, or none when `start` is past the end. */
  function Rest(formulas: seq<string>, start: int): seq<string> {
    if 0 <= start < |formulas| then formulas[start..] else []
  }

  /** The formulas from a batch start are that batch followed by the formulas from the next start. */
  lemma RestSplits(formulas: seq<string>, start: nat, b: int)
    requires b > 0 && start < |formulas|
    ensures Rest(formulas, start) == BatchAt(formulas, start, b) + Rest(formulas, start + b)
  {
  }

  /**
   * One batch writes the files of its formulas, then checkpoints the merged keys
   * and sleeps `delay`; it logs nothing.
   */
  ghost predicate MarksAt(next: Batcher, env: Env, dir: string, delay: int, st: PState, results: Dict, batch: seq<string>) {
    var n := next(st, results, batch);
    && Files(n.state.events) == Files(st.events) + FilesFor(env, dir, batch)
    && Sleeps(n.state.events) == Sleeps(st.events) + [delay]
    && Checkpoints(n.state.events) == Checkpoints(st.events) + [Keys(n.results)]
    && n.state.errorLog == st.errorLog
  }

  ghost predicate MarksBatches(next: Batcher, env: Env, dir: string, delay: int) {
    forall st, results, batch :: MarksAt(next, env, dir, delay, st, results, batch)
  }

  /** The file part of `MarksAt`: one batch writes the files of its formulas. */
  ghost predicate FilesAt(next: Batcher, fileOf: string -> seq<string>, st: PState, results: Dict, batch: seq<string>) {
    Files(next(st, results, batch).state.events) == Files(st.events) + FilesOver(fileOf, batch)
  }

  /** The pause part of `MarksAt`: one batch sleeps `delay` once and checkpoints once. */
  ghost predicate PausesAt(next: Batcher, delay: int, st: PState, results: Dict, batch: seq<string>) {
    var n := next(st, results, batch);
    && Sleeps(n.state.events) == Sleeps(st.events) + [delay]
    && |Checkpoints(n.state.events)| == |Checkpoints(st.events)| + 1
  }

  /** Every batch writes the files of its formulas. */
  ghost predicate FilesBatches(next: Batcher, fileOf: string -> seq<string>) {
    forall st, results, batch :: FilesAt(next, fileOf, st, results, batch)
  }

  /** Every batch pauses once. */
  ghost predicate PausesBatches(next: Batcher, delay: int) {
    forall st, results, batch :: PausesAt(next, delay, st, results, batch)
  }

  lemma MarksGiveViews(next: Batcher, env: Env, dir: string, delay: int)
    requires MarksBatches(next, env, dir, delay)
    ensures FilesBatches(next, FileOfIn(env, dir)) && PausesBatches(next, delay)
  {
    forall st, results, batch
      ensures FilesAt(next, FileOfIn(env, dir), st, results, batch) && PausesAt(next, delay, st, results, batch)
    {
      assert MarksAt(next, env, dir, delay, st, results, batch);
    }
  }

  /**
   * One batch adds exactly its stored formulas to the results, after the keys
   * already there, and keeps the cache valid.
   */
  ghost predicate MergesAt(next: Batcher, env: Env, dir: string, st: PState, results: Dict, batch: seq<string>) {
    var n := next(st, results, batch);
    DistinctKeys(results) && ValuesHaveSites(results) && CacheValid(st.cache, env.rank) ==>
      && DistinctKeys(n.results) && ValuesHaveSites(n.results) && CacheValid(n.state.cache, env.rank)
      && |results| <= |n.results| && Keys(n.results)[..|results|] == Keys(results)
      && (forall f :: f in Keys(n.results) <==> f in Keys(results) || (f in batch && Stored(env, dir, f)))
  }

  ghost predicate MergesBatches(next: Batcher, env: Env, dir: string) {
    forall st, results, batch :: MergesAt(next, env, dir, st, results, batch)
  }

  lemma BatchStepMarks(acquire: Acquirer, env: Env, dir: string, delay: int)
    requires WellBehaved(acquire, env)
    ensures MarksBatches(BatcherOf(acquire, env, dir, delay), env, dir, delay)
  {
    forall st, results, batch ensures MarksAt(BatcherOf(acquire, env, dir, delay), env, dir, delay, st, results, batch) {
      BatchStepMarksAt(acquire, env, dir, delay, st, results, batch);
    }
  }

  /** `BatchStepMarks` for one batch. */
  lemma BatchStepMarksAt(acquire: Acquirer, env: Env, dir: string, delay: int, st: PState, results: Dict, batch: seq<string>)
    requires WellBehaved(acquire, env)
    ensures MarksAt(BatcherOf(acquire, env, dir, delay), env, dir, delay, st, results, batch)
  {
    var p := RunBatch(acquire, env, dir, st, [], batch);
    RunBatchViews(acquire, env, dir, st, [], batch);
    var merged := Update(results, p.results);
    var marks := [SaveCheckpoint(Keys(merged)), Sleep(delay)];
    FilesAppend(p.state.events, marks);
    SleepsAppend(p.state.events, marks);
    CheckpointsAppend(p.state.events, marks);
    MarksViews(Keys(merged), delay);
    BatchStepEnds(acquire, env, dir, delay, st, results, batch);
  }

  /** A whole pass ends with the checkpoint and the sleep, in that order. */
  lemma BatchStepEnds(acquire: Acquirer, env: Env, dir: string, delay: int, st: PState, results: Dict, batch: seq<string>)
    ensures var p := RunBatch(acquire, env, dir, st, [], batch);
            var merged := Update(results, p.results);
            BatcherOf(acquire, env, dir, delay)(st, results, batch)
            == Progress(p.state.(events := p.state.events + [SaveCheckpoint(Keys(merged)), Sleep(delay)]), merged)
  {
    var p := RunBatch(acquire, env, dir, st, [], batch);
    var merged := Update(results, p.results);
    AppendAssoc(p.state.events, [SaveCheckpoint(Keys(merged))], [Sleep(delay)]);
  }

  lemma BatchStepMerges(acquire: Acquirer, env: Env, dir: string, delay: int)
    requires WellBehaved(acquire, env)
    ensures MergesBatches(BatcherOf(acquire, env, dir, delay), env, dir)
  {
    var next := BatcherOf(acquire, env, dir, delay);
    forall st, results, batch ensures MergesAt(next, env, dir, st, results, batch) {
      if DistinctKeys(results) && ValuesHaveSites(results) && CacheValid(st.cache, env.rank) {
        var p := RunBatch(acquire, env, dir, st, [], batch);
        RunBatchResults(acquire, env, dir, st, [], batch);
        UpdateKeeps(results, p.results);
        assert next(st, results, batch).results == Update(results, p.results);
      }
    }
  }

  /** The batches add nothing to the error log. */
  lemma {:induction false} RunBatchesKeepLog(next: Batcher, env: Env, dir: string, delay: int, st: PState, results: Dict,
                                             formulas: seq<string>, b: int, start: nat)
    requires b > 0
    requires MarksBatches(next, env, dir, delay)
    ensures RunBatches(next, st, results, formulas, b, start).state.errorLog == st.errorLog
    decreases |formulas| - start
  {
    if start < |formulas| {
      var batch := BatchAt(formulas, start, b);
      var n := next(st, results, batch);
      assert MarksAt(next, env, dir, delay, st, results, batch);
      RunBatchesKeepLog(next, env, dir, delay, n.state, n.results, formulas, b, start + b);
    }
  }

  /** From `start` on, the batches write the files of their formulas, in input order. */
  ghost predicate FilesFrom(next: Batcher, fileOf: string -> seq<string>, st: PState, results: Dict,
                            formulas: seq<string>, b: int, start: nat) {
    && b > 0
    && Files(RunBatches(next, st, results, formulas, b, start).state.events)
       == Files(st.events) + FilesOver(fileOf, Rest(formulas, start))
  }

  /** The batches write the files of their formulas, in input order. */
  lemma {:induction false} RunBatchesFiles(next: Batcher, fileOf: string -> seq<string>, st: PState, results: Dict,
                                           formulas: seq<string>, b: int, start: nat)
    requires b > 0
    requires FilesBatches(next, fileOf)
    ensures FilesFrom(next, fileOf, st, results, formulas, b, start)
    decreases |formulas| - start
  {
    if start < |formulas| {
      var n := next(st, results, BatchAt(formulas, start, b));
      RunBatchesFiles(next, fileOf, n.state, n.results, formulas, b, start + b);
      FilesStep(next, fileOf, st, results, formulas, b, start, n);
    } else {
      assert Rest(formulas, start) == [];
    }
  }

  /** One batch of `RunBatchesFiles`: its files come before those of the later batches. */
  lemma FilesStep(next: Batcher, fileOf: string -> seq<string>, st: PState, results: Dict,
                  formulas: seq<string>, b: int, start: nat, n: Progress)
    requires b > 0 && start < |formulas|
    requires FilesAt(next, fileOf, st, results, BatchAt(formulas, start, b))
    requires n == next(st, results, BatchAt(formulas, start, b))
    requires FilesFrom(next, fileOf, n.state, n.results, formulas, b, start + b)
    ensures FilesFrom(next, fileOf, st, results, formulas, b, start)
  {
    var batch := BatchAt(formulas, start, b);
    var rest := Rest(formulas, start + b);
    var q := RunBatches(next, n.state, n.results, formulas, b, start + b);
    RunBatchesUnfold(next, st, results, formulas, b, start, n);
    ExtendTwice(Files(st.events), Files(n.state.events), Files(q.state.events),
                FilesOver(fileOf, batch), FilesOver(fileOf, rest));
    RestSplits(formulas, start, b);
    FilesOverAppend(fileOf, batch, rest);
  }

  /** From `start` on, the batches sleep `delay` once per batch and nowhere else, and checkpoint once per batch. */
  ghost predicate PausesFrom(next: Batcher, delay: int, st: PState, results: Dict,
                             formulas: seq<string>, b: int, start: nat) {
    && b > 0
    && var p := RunBatches(next, st, results, formulas, b, start);
       && Sleeps(p.state.events) == Sleeps(st.events) + Replicate(delay, NumBatches(|formulas| - start, b))
       && |Checkpoints(p.state.events)| == |Checkpoints(st.events)| + NumBatches(|formulas| - start, b)
  }

  /** The batches sleep `delay` once per batch and nowhere else, and checkpoint once per batch. */
  lemma {:induction false} RunBatchesPauses(next: Batcher, env: Env, dir: string, delay: int, st: PState, results: Dict,
                                            formulas: seq<string>, b: int, start: nat)
    requires b > 0
    requires PausesBatches(next, delay)
    ensures PausesFrom(next, delay, st, results, formulas, b, start)
    decreases |formulas| - start
  {
    if start < |formulas| {
      var n := next(st, results, BatchAt(formulas, start, b));
      RunBatchesPauses(next, env, dir, delay, n.state, n.results, formulas, b, start + b);
      PausesStep(next, delay, st, results, formulas, b, start, n);
    } else {
      assert NumBatches(|formulas| - start, b) == 0;
    }
  }

  /** One batch of `RunBatchesPauses`: one sleep and one checkpoint before those of the later batches. */
  lemma PausesStep(next: Batcher, delay: int, st: PState, results: Dict,
                   formulas: seq<string>, b: int, start: nat, n: Progress)
    requires b > 0 && start < |formulas|
    requires PausesAt(next, delay, st, results, BatchAt(formulas, start, b))
    requires n == next(st, results, BatchAt(formulas, start, b))
    requires PausesFrom(next, delay, n.state, n.results, formulas, b, start + b)
    ensures PausesFrom(next, delay, st, results, formulas, b, start)
  {
    var q := RunBatches(next, n.state, n.results, formulas, b, start + b);
    RunBatchesUnfold(next, st, results, formulas, b, start, n);
    var k := NumBatches(|formulas| - (start + b), b);
    NumBatchesStep(|formulas| - start, b);
    assert [delay] + Replicate(delay, k) == Replicate(delay, k + 1);
    ExtendTwice(Sleeps(st.events), Sleeps(n.state.events), Sleeps(q.state.events), [delay], Replicate(delay, k));
  }

  /**
   * The batches add exactly the stored formulas to the results, after the keys
   * already there.
   */
  lemma {:induction false} RunBatchesResults(next: Batcher, env: Env, dir: string, st: PState, results: Dict,
                                             formulas: seq<string>, b: int, start: nat)
    requires b > 0
    requires DistinctKeys(results) && ValuesHaveSites(results) && CacheValid(st.cache, env.rank)
    requires MergesBatches(next, env, dir)
    ensures var p := RunBatches(next, st, results, formulas, b, start);
            && DistinctKeys(p.results) && ValuesHaveSites(p.results) && CacheValid(p.state.cache, env.rank)
            && |results| <= |p.results| && Keys(p.results)[..|results|] == Keys(results)
            && (forall f :: f in Keys(p.results) <==> f in Keys(results) || (f in Rest(formulas, start) && Stored(env, dir, f)))
    decreases |formulas| - start
  {
    if start < |formulas| {
      var batch := BatchAt(formulas, start, b);
      var n := next(st, results, batch);
      assert MergesAt(next, env, dir, st, results, batch);
      RunBatchesResults(next, env, dir, n.state, n.results, formulas, b, start + b);
      RunBatchesUnfold(next, st, results, formulas, b, start, n);
      var q := RunBatches(next, n.state, n.results, formulas, b, start + b);
      assert Keys(q.results)[..|results|] == Keys(q.results)[..|n.results|][..|results|];
      RestMembers(formulas, start, b);
    }
  }

  /** A formula from a batch start on is in that batch or comes after it. */
  lemma RestMembers(formulas: seq<string>, start: nat, b: int)
    requires b > 0 && start < |formulas|
    ensures forall f :: f in Rest(formulas, start) <==>
                          f in BatchAt(formulas, start, b) || f in Rest(formulas, start + b)
  {
    RestSplits(formulas, start, b);
  }

  /** After a run with at least one batch, the last checkpoint holds the final keys, in order. */
  lemma {:induction false} LastCheckpointHoldsResults(next: Batcher, env: Env, dir: string, delay: int, st: PState, results: Dict,
                                                      formulas: seq<string>, b: int, start: nat)
    requires b > 0 && start < |formulas|
    requires MarksBatches(next, env, dir, delay)
    ensures var p := RunBatches(next, st, results, formulas, b, start);
            Checkpoints(p.state.events) != [] && Checkpoints(p.state.events)[|Checkpoints(p.state.events)| - 1] == Keys(p.results)
    decreases |formulas| - start
  {
    var batch := BatchAt(formulas, start, b);
    var n := next(st, results, batch);
    if start + b < |formulas| {
      LastCheckpointHoldsResults(next, env, dir, delay, n.state, n.results, formulas, b, start + b);
    } else {
      assert MarksAt(next, env, dir, delay, st, results, batch);
    }
  }

  /**
   * `process_formulas` returns exactly the formulas that parse and whose CIF
   * could be written, each once, each with a structure that has sites; a zero
   * batch size raises and a negative one does nothing; a negative delay raises
   * once there is a batch to pause after. The cache stays valid throughout.
   */
  lemma {:induction false} ProcessFormulasResults(env: Env, dir: string, st: PState, formulas: seq<string>, b: int, delay: int)
    requires CacheValid(st.cache, env.rank)
    ensures var r := ProcessFormulas(env, dir, st, formulas, b, delay);
            && (r.processed.InvalidBatchSize? <==> b == 0)
            && (r.processed.NegativeDelay? <==> b > 0 && delay < 0 && formulas != [])
            && (b <= 0 ==> r.state == st)
            && (b < 0 ==> r.processed == Completed([]))
            && CacheValid(r.state.cache, env.rank)
            && (b > 0 && r.processed.Completed? ==>
                  && DistinctKeys(r.processed.results) && ValuesHaveSites(r.processed.results)
                  && (forall f :: f in Keys(r.processed.results) <==> f in formulas && Stored(env, dir, f)))
  {
    if b > 0 {
      AcquireIsWellBehaved(env);
      if delay < 0 && formulas != [] {
        RunBatchKeepsKeys(AcquireWith(env), env, dir, st, [], BatchAt(formulas, 0, b));
      } else {
        BatchStepMerges(AcquireWith(env), env, dir, delay);
        RunBatchesResults(BatcherOf(AcquireWith(env), env, dir, delay), env, dir, st, [], formulas, b, 0);
        assert Rest(formulas, 0) == [] || Rest(formulas, 0) == formulas;
      }
    }
  }

  /**
   * A negative delay: the first batch writes its files and is checkpointed with
   * exactly its stored formulas, then `time.sleep` raises, with nothing slept and
   * nothing logged.
   */
  lemma ProcessFormulasNegativeDelay(env: Env, dir: string, st: PState, formulas: seq<string>, b: int, delay: int)
    requires b > 0 && delay < 0 && formulas != []
    ensures var r := ProcessFormulas(env, dir, st, formulas, b, delay);
            var first := BatchAt(formulas, 0, b);
            var c0 := Checkpoints(st.events);
            var c := Checkpoints(r.state.events);
            && r.processed == NegativeDelay
            && Files(r.state.events) == Files(st.events) + FilesFor(env, dir, first)
            && Sleeps(r.state.events) == Sleeps(st.events)
            && r.state.errorLog == st.errorLog
            && |c| == |c0| + 1 && c[..|c0|] == c0
            && (forall f :: f in c[|c0|] <==> f in first && Stored(env, dir, f))
  {
    var acquire := AcquireWith(env);
    var first := BatchAt(formulas, 0, b);
    AcquireIsWellBehaved(env);
    var p := RunBatch(acquire, env, dir, st, [], first);
    RunBatchViews(acquire, env, dir, st, [], first);
    RunBatchGathers(acquire, env, dir, st, [], first);
    UpdateKeeps([], p.results);
    var keys := Keys(Update([], p.results));
    OneEventViews(SaveCheckpoint(keys));
    FilesAppend(p.state.events, [SaveCheckpoint(keys)]);
    SleepsAppend(p.state.events, [SaveCheckpoint(keys)]);
    CheckpointsAppend(p.state.events, [SaveCheckpoint(keys)]);
  }

  /**
   * `process_formulas` adds nothing to the error log. When it completes, it has
   * written one file per formula in input order (its CIF, or the error CIF when
   * that is saved, or none), slept `delay` once per batch and never between
   * retries, and checkpointed once per batch.
   */
  lemma {:induction false} ProcessFormulasEffects(env: Env, dir: string, st: PState, formulas: seq<string>, b: int, delay: int)
    requires b > 0
    ensures var r := ProcessFormulas(env, dir, st, formulas, b, delay);
            && r.state.errorLog == st.errorLog
            && (r.processed.Completed? ==>
                  && Files(r.state.events) == Files(st.events) + FilesFor(env, dir, formulas)
                  && Sleeps(r.state.events) == Sleeps(st.events) + Replicate(delay, NumBatches(|formulas|, b))
                  && |Checkpoints(r.state.events)| == |Checkpoints(st.events)| + NumBatches(|formulas|, b))
  {
    if delay < 0 && formulas != [] {
      ProcessFormulasNegativeDelay(env, dir, st, formulas, b, delay);
    } else {
      ProcessFormulasFiles(env, dir, st, formulas, b, delay);
      ProcessFormulasPauses(env, dir, st, formulas, b, delay);
    }
  }

  /** The files and the error log of a run with positive batch size that makes whole passes. */
  lemma ProcessFormulasFiles(env: Env, dir: string, st: PState, formulas: seq<string>, b: int, delay: int)
    requires b > 0 && (delay >= 0 || formulas == [])
    ensures var r := ProcessFormulas(env, dir, st, formulas, b, delay);
            && Files(r.state.events) == Files(st.events) + FilesFor(env, dir, formulas)
            && r.state.errorLog == st.errorLog
  {
    var next := BatcherOf(AcquireWith(env), env, dir, delay);
    ProcessorMarks(env, dir, delay);
    assert Rest(formulas, 0) == formulas;
    MarksGiveViews(next, env, dir, delay);
    RunBatchesFiles(next, FileOfIn(env, dir), st, [], formulas, b, 0);
    RunBatchesKeepLog(next, env, dir, delay, st, [], formulas, b, 0);
  }

  /** The sleeps and the checkpoints of a run with positive batch size that makes whole passes. */
  lemma ProcessFormulasPauses(env: Env, dir: string, st: PState, formulas: seq<string>, b: int, delay: int)
    requires b > 0 && (delay >= 0 || formulas == [])
    ensures var r := ProcessFormulas(env, dir, st, formulas, b, delay);
            && Sleeps(r.state.events) == Sleeps(st.events) + Replicate(delay, NumBatches(|formulas|, b))
            && |Checkpoints(r.state.events)| == |Checkpoints(st.events)| + NumBatches(|formulas|, b)
  {
    ProcessorMarks(env, dir, delay);
    MarksGiveViews(BatcherOf(AcquireWith(env), env, dir, delay), env, dir, delay);
    RunBatchesPauses(BatcherOf(AcquireWith(env), env, dir, delay), env, dir, delay, st, [], formulas, b, 0);
  }

  /** The batches of a processor write, checkpoint and sleep as `MarksAt` says. */
  lemma ProcessorMarks(env: Env, dir: string, delay: int)
    ensures MarksBatches(BatcherOf(AcquireWith(env), env, dir, delay), env, dir, delay)
  {
    AcquireIsWellBehaved(env);
    BatchStepMarks(AcquireWith(env), env, dir, delay);
  }

  /**
   * A run with a batch to process checkpoints; when it completes, the last
   * checkpoint lists the keys `process_formulas` returns, in order.
   */
  lemma {:induction false} ProcessFormulasLastCheckpoint(env: Env, dir: string, st: PState, formulas: seq<string>, b: int, delay: int)
    requires b > 0 && formulas != []
    ensures var r := ProcessFormulas(env, dir, st, formulas, b, delay);
            && Checkpoints(r.state.events) != []
            && (r.processed.Completed? ==>
                  Checkpoints(r.state.events)[|Checkpoints(r.state.events)| - 1] == Keys(r.processed.results))
  {
    if delay < 0 {
      ProcessFormulasNegativeDelay(env, dir, st, formulas, b, delay);
    } else {
      ProcessorMarks(env, dir, delay);
      LastCheckpointHoldsResults(BatcherOf(AcquireWith(env), env, dir, delay), env, dir, delay, st, [], formulas, b, 0);
    }
  }
}

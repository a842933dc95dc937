/**
 * `MaterialsProcessor` as a class: its cache of structures, its error log and
 * the events it causes are fields its methods update. Each method is proved to
 * do what the matching specification function says (`RetryFrom`, `Acquire`,
 * `ProcessFormulas`), so the lemmas proved about those functions hold of it.
 */
module Processor {
  import opened Basics
  import opened Crystal
  import opened Chemistry
  import opened Stoichiometry
  import opened Prototypes
  import opened Effects
  import opened Retrying
  import opened Acquisition
  import opened Batches

  class MaterialsProcessor {
    /** The services behind `self.mpr`, the substitutor, pymatgen and the file system. */
    const env: Env
    const structureDir: string
    /** `self.cached_structures`. */
    var cache: map<string, Structure>
    /** `self.error_log`. */
    var errorLog: seq<string>
    /** Everything the processor has done to the world, in order. */
    var events: seq<Event>

    function State(): PState
      reads this
    {
      PState(cache, errorLog, events)
    }

    ghost predicate Valid()
      reads this
    {
      CacheValid(cache, env.rank)
    }

    /** `__init__`: an empty cache and an empty error log. */
    constructor(env: Env, structureDir: string)
      ensures this.env == env && this.structureDir == structureDir
      ensures cache == map[] && errorLog == [] && events == []
      ensures Valid()
    {
      this.env := env;
      this.structureDir := structureDir;
      cache := map[];
      errorLog := [];
      events := [];
    }

    /**
     * `retry(func, max_retries, backoff_factor)`: `call(k)` is what the k-th call
     * of `func` does.
     */
    method Retry(call: nat -> Invocation, maxRetries: int, backoff: int) returns (result: Option<Structure>)
      requires backoff >= 0
      modifies this
      ensures var run := RetryFrom(call, maxRetries, backoff, 0);
              && result == run.result
              && events == old(events) + run.effects
              && errorLog == old(errorLog) + run.logged
              && cache == old(cache)
    {
      var attempt: nat := 0;
      while attempt < maxRetries
        invariant RetryFrom(call, maxRetries, backoff, 0).result == RetryFrom(call, maxRetries, backoff, attempt).result
        invariant RetryFrom(call, maxRetries, backoff, 0).logged == RetryFrom(call, maxRetries, backoff, attempt).logged
        invariant old(events) + RetryFrom(call, maxRetries, backoff, 0).effects
                  == events + RetryFrom(call, maxRetries, backoff, attempt).effects
        invariant errorLog == old(errorLog) && cache == old(cache)
        decreases maxRetries - attempt
      {
        var inv := call(attempt);
        ghost var rest := RetryFrom(call, maxRetries, backoff, attempt + 1);
        if inv.attempt.Returned? && Truthy(inv.attempt.value) {
          events := events + inv.effects;
          return inv.attempt.value;
        }
        if inv.attempt.Raised? {
          if attempt == maxRetries - 1 {
            events := events + inv.effects;
            errorLog := errorLog + [inv.attempt.message];
            return None;
          }
          var pause := [Sleep(Pow(backoff, attempt))];
          RetryAfterRaise(call, maxRetries, backoff, attempt);
          AppendAssoc(events, inv.effects + pause, rest.effects);
          events := events + (inv.effects + pause);
        } else {
          RetryAfterFalsy(call, maxRetries, backoff, attempt);
          AppendAssoc(events, inv.effects, rest.effects);
          events := events + inv.effects;
        }
        attempt := attempt + 1;
      }
      return None;
    }

    /** `get_or_create_structure(formula)`; `Crashed` stands for the exception that escapes. */
    method GetOrCreateStructure(formula: string) returns (outcome: Outcome)
      requires Valid()
      modifies this
      ensures Valid()
      ensures var a := Acquire(env, old(cache), formula);
              && outcome == a.outcome
              && cache == a.cache
              && errorLog == old(errorLog) + a.logged
              && events == old(events) + a.effects
    {
      AcquireKeepsCacheValid(env, cache, formula);
      var parsed := env.parse(formula);
      if parsed.None? {
        return Crashed;
      }
      var comp := parsed.value;
      if !IsValidStoichiometry(comp) {
        return Resolved(EmergencyStructure(comp));
      }
      if formula in cache {
        return Resolved(cache[formula]);
      }
      outcome := RunStages(formula, comp);
    }

    /**
     * The three retried stages of `get_or_create_structure` for a parsed, valid
     * formula that is not cached: database, substitution, prototype, then the
     * emergency structure.
     */
    method RunStages(formula: string, comp: Composition) returns (outcome: Outcome)
      requires formula !in cache
      requires Valid()
      modifies this
      ensures Valid()
      ensures var a := Cascade(env, old(cache), formula, comp);
              && outcome == a.outcome
              && cache == a.cache
              && errorLog == old(errorLog) + a.logged
              && events == old(events) + a.effects
    {
      CascadeKeepsCacheValid(env, cache, formula, comp);
      var found := FindStructure(formula, comp);
      if found.Some? {
        var valid := ValidateStructure(found.value, env.rank);
        cache := cache[formula := valid];
        return Resolved(valid);
      }
      return Resolved(EmergencyStructure(comp));
    }

    /**
     * `retry(database) or retry(substitution) or retry(prototype)`: the first
     * stage that returns a structure answers, and the later stages are not run.
     */
    method FindStructure(formula: string, comp: Composition) returns (found: Option<Structure>)
      modifies this
      ensures cache == old(cache)
      ensures var db := DatabaseRun(env, formula);
              var sub := SubstitutionRun(env, comp);
              var proto := PrototypeRun(env, comp);
              if db.result.Some? then
                found == db.result && events == old(events) + db.effects && errorLog == old(errorLog) + db.logged
              else if sub.result.Some? then
                && found == sub.result
                && events == old(events) + (db.effects + sub.effects)
                && errorLog == old(errorLog) + (db.logged + sub.logged)
              else
                && found == proto.result
                && events == old(events) + (db.effects + sub.effects + proto.effects)
                && errorLog == old(errorLog) + (db.logged + sub.logged + proto.logged)
    {
      ghost var db := DatabaseRun(env, formula);
      ghost var sub := SubstitutionRun(env, comp);
      ghost var proto := PrototypeRun(env, comp);
      found := Retry(DatabaseCall(env, formula), MaxRetries, BackoffFactor);
      if found.None? {
        found := Retry(SubstitutionCall(env, comp), MaxRetries, BackoffFactor);
        AppendAssoc(old(events), db.effects, sub.effects);
        AppendAssoc(old(errorLog), db.logged, sub.logged);
        if found.None? {
          found := Retry(PrototypeCall(env, comp), MaxRetries, BackoffFactor);
          AppendAssoc(old(events), db.effects + sub.effects, proto.effects);
          AppendAssoc(old(errorLog), db.logged + sub.logged, proto.logged);
        }
      }
    }

    /** `_save_error_structure(formula)`. */
    method SaveErrorStructure(formula: string)
      modifies this
      ensures events == old(events) + ErrorCifWrites(env, formula)
      ensures cache == old(cache) && errorLog == old(errorLog)
    {
      if env.errorCifSaved {
        events := events + [WriteFile(ErrorPath(formula))];
      }
    }

    /** `_save_checkpoint(results)`: the keys, in order. */
    method WriteCheckpoint(results: Dict)
      modifies this
      ensures events == old(events) + [SaveCheckpoint(Keys(results))]
      ensures cache == old(cache) && errorLog == old(errorLog)
    {
      events := events + [SaveCheckpoint(Keys(results))];
    }

    /**
     * The body of the inner loop of `process_formulas` for one formula: obtain its
     * structure and write it to its CIF file, or save the error structure when
     * either step raises.
     */
    method ProcessFormula(formula: string) returns (stored: Option<Structure>)
      requires Valid()
      modifies this
      ensures Valid()
      ensures Step(AcquireWith(env), env, structureDir, old(State()), formula) == Stepped(State(), stored)
    {
      var outcome := GetOrCreateStructure(formula);
      var path := CifPath(structureDir, formula);
      if outcome.Resolved? && env.writable(path) {
        events := events + [WriteFile(path)];
        return Some(outcome.structure);
      }
      SaveErrorStructure(formula);
      return None;
    }

    /** The inner loop of `process_formulas` over one batch, collecting `batch_results`. */
    method ProcessBatch(batch: seq<string>) returns (batchResults: Dict)
      requires Valid()
      modifies this
      ensures Valid()
      ensures RunBatch(AcquireWith(env), env, structureDir, old(State()), [], batch) == Progress(State(), batchResults)
    {
      batchResults := [];
      var i := 0;
      while i < |batch|
        invariant 0 <= i <= |batch|
        invariant Valid()
        invariant RunBatch(AcquireWith(env), env, structureDir, State(), batchResults, batch[i..])
                  == RunBatch(AcquireWith(env), env, structureDir, old(State()), [], batch)
      {
        var formula := batch[i];
        assert batch[i..][0] == formula && batch[i..][1..] == batch[i + 1..];
        var stored := ProcessFormula(formula);
        if stored.Some? {
          batchResults := Put(batchResults, formula, stored.value);
        }
        i := i + 1;
      }
      assert batch[i..] == [];
    }

    /** The outer loop's pass up to `time.sleep`: the batch, the merge into `results` and the checkpoint. */
    method CheckpointBatch(results: Dict, batch: seq<string>) returns (merged: Dict)
      requires Valid()
      modifies this
      ensures Valid()
      ensures CheckpointedBatch(AcquireWith(env), env, structureDir, old(State()), results, batch) == Progress(State(), merged)
    {
      var batchResults := ProcessBatch(batch);
      merged := Update(results, batchResults);
      WriteCheckpoint(merged);
    }

    /** `time.sleep(delay)`: a negative delay raises `ValueError` and nothing is slept. */
    method Pause(delay: int) returns (slept: bool)
      modifies this
      ensures slept <==> delay >= 0
      ensures events == old(events) + (if slept then [Sleep(delay)] else [])
      ensures cache == old(cache) && errorLog == old(errorLog)
    {
      if delay < 0 {
        return false;
      }
      events := events + [Sleep(delay)];
      return true;
    }

    /**
     * One pass of the outer loop of `process_formulas`: the checkpointed batch,
     * then the pause. When the pause sleeps, the pass is as `next` describes it;
     * when it raises, the pass stops after the checkpoint.
     */
    method ProcessNextBatch(ghost next: Batcher, results: Dict, batch: seq<string>, delay: int) returns (merged: Dict, slept: bool)
      requires StepsAs(next, AcquireWith(env), env, structureDir, delay)
      requires Valid()
      modifies this
      ensures Valid()
      ensures slept <==> delay >= 0
      ensures slept ==> next(old(State()), results, batch) == Progress(State(), merged)
      ensures !slept ==> CheckpointedBatch(AcquireWith(env), env, structureDir, old(State()), results, batch) == Progress(State(), merged)
    {
      merged := CheckpointBatch(results, batch);
      slept := Pause(delay);
      assert slept ==>
        BatchStep(AcquireWith(env), env, structureDir, delay, old(State()), results, batch) == Progress(State(), merged);
    }

    /**
     * The outer loop of `process_formulas` for a positive batch size, each batch
     * processed as `next` describes, until a pause raises.
     */
    method ProcessAllBatches(ghost next: Batcher, formulas: seq<string>, batchSize: int, delay: int) returns (results: Dict, raised: bool)
      requires batchSize > 0
      requires StepsAs(next, AcquireWith(env), env, structureDir, delay)
      requires Valid()
      modifies this
      ensures Valid()
      ensures raised <==> delay < 0 && formulas != []
      ensures !raised ==> RunBatches(next, old(State()), [], formulas, batchSize, 0) == Progress(State(), results)
      ensures raised ==>
                CheckpointedBatch(AcquireWith(env), env, structureDir, old(State()), [], BatchAt(formulas, 0, batchSize)).state
                == State()
    {
      ghost var spec := RunBatches(next, State(), [], formulas, batchSize, 0);
      results := [];
      var start: nat := 0;
      while start < |formulas|
        invariant RunBatches(next, State(), results, formulas, batchSize, start) == spec
        invariant Valid()
        invariant start == 0 ==> State() == old(State()) && results == []
        invariant delay < 0 ==> start == 0
        decreases |formulas| - start
      {
        ghost var before := State();
        ghost var previous := results;
        var batch := formulas[start..BatchEnd(|formulas|, start, batchSize)];
        var slept;
        results, slept := ProcessNextBatch(next, results, batch, delay);
        if !slept {
          return results, true;
        }
        RunBatchesUnfold(next, before, previous, formulas, batchSize, start, Progress(State(), results));
        start := start + batchSize;
      }
      return results, false;
    }

    /** `process_formulas(formulas, batch_size, delay)`. */
    method ProcessFormulas(formulas: seq<string>, batchSize: int, delay: int) returns (r: Processed)
      requires Valid()
      modifies this
      ensures Valid()
      ensures var spec := Batches.ProcessFormulas(env, structureDir, old(State()), formulas, batchSize, delay);
              r == spec.processed && State() == spec.state
    {
      if batchSize == 0 {
        return InvalidBatchSize;
      }
      if batchSize < 0 {
        return Completed([]);
      }
      BatcherOfStepsAs(AcquireWith(env), env, structureDir, delay);
      var results, raised := ProcessAllBatches(BatcherOf(AcquireWith(env), env, structureDir, delay), formulas, batchSize, delay);
      if raised {
        return NegativeDelay;
      }
      return Completed(results);
    }
  }
}

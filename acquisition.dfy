/**
 * `MaterialsProcessor.get_or_create_structure` as a function of the services it
 * consults and the cache it reads: parse the formula, reject a bad stoichiometry
 * with the emergency cell, answer from the cache, or else try the Materials
 * Project database, the substitution predictor and the prototypes in turn (each
 * under `retry`), validate and cache the first structure found, and fall back to
 * the emergency cell when none is.
 */
module Acquisition {
  import opened Basics
  import opened Crystal
  import opened Chemistry
  import opened Stoichiometry
  import opened Prototypes
  import opened Effects
  import opened Retrying

  /**
   * The outside world of a processor. `parse` is `Composition(formula)` (`None`
   * when it raises); `database` and `substitutor` answer attempt k of a Materials
   * Project summary search and of `Substitutor.pred_from_comp`; `expand` is
   * `Structure.from_spacegroup`; `rank` is the sort key of `get_sorted_structure`;
   * `writable` says whether a CIF can be written at a path; `errorCifSaved` says
   * whether `_save_error_structure` gets its file written or ends in its bare `except`.
   */
  datatype Env = Env(
    parse: string -> Option<Composition>,
    database: (string, nat) -> Reply,
    substitutor: (Composition, nat) -> Reply,
    expand: Expander,
    rank: string -> real,
    writable: string -> bool,
    errorCifSaved: bool)

  /** The defaults of `retry` that `get_or_create_structure` uses. */
  const MaxRetries: int := 5
  const BackoffFactor: int := 2

  /** `_get_mp_structure(formula)`: one query; a failure or an empty answer is `None`. */
  function DatabaseCall(env: Env, formula: string): nat -> Invocation {
    (k: nat) => Invocation(Returned(ReplyStructure(env.database(formula, k))), [QueryDatabase(formula)])
  }

  /** `_predict_substitution(comp)`: the ratio gate, then one prediction; every exception is `None`. */
  function SubstitutionCall(env: Env, comp: Composition): nat -> Invocation {
    (k: nat) => if SubstitutionGate(comp) == Consult
         then Invocation(Returned(ReplyStructure(env.substitutor(comp, k))), [ConsultSubstitutor(comp)])
         else Invocation(Returned(None), [])
  }

  /** `_generate_fallback(comp)`: no service involved, the same answer on every attempt. */
  function PrototypeCall(env: Env, comp: Composition): nat -> Invocation {
    (k: nat) => Invocation(Returned(GenerateFallback(comp, env.expand)), [])
  }

  /**
   * `_validate_structure`: a cell under 1 cubic angstrom has its volume doubled
   * (once), and the sites are sorted by rank.
   */
  function ValidateStructure(s: Structure, rank: string -> real): (r: Structure)
    ensures SortedByRank(r.sites, rank)
    ensures multiset(r.sites) == multiset(s.sites) && |r.sites| == |s.sites|
    ensures Volume(s.lattice) >= 1.0 ==> r.lattice == s.lattice
    ensures Volume(s.lattice) < 1.0 ==> Volume(r.lattice) == 2.0 * Volume(s.lattice)
  {
    var v := Volume(s.lattice);
    Structure(if v < 1.0 then Measured(v * 2.0) else s.lattice, SortByRank(s.sites, rank))
  }

  /** A validated cell reaches 1 cubic angstrom exactly when the original had at least half of it. */
  lemma ValidatedVolume(s: Structure, rank: string -> real)
    ensures Volume(ValidateStructure(s, rank).lattice) >= 1.0 <==> Volume(s.lattice) >= 0.5
  {
  }

  /** Validating twice is validating once, unless the first doubling left the cell under 1. */
  lemma {:induction false} ValidateIdempotent(s: Structure, rank: string -> real)
    requires Volume(s.lattice) >= 0.5
    ensures ValidateStructure(ValidateStructure(s, rank), rank) == ValidateStructure(s, rank)
  {
    SortKeepsSorted(ValidateStructure(s, rank).sites, rank);
  }

  /** Where a structure came from; `Unresolved` when the call raised. */
  datatype Stage = Cached | Database | Substitution | Prototype | Emergency | Unresolved

  /** What `get_or_create_structure` does: return a structure or raise (`Crashed`). */
  datatype Outcome = Resolved(structure: Structure) | Crashed

  /** An outcome with the stage behind it, the new cache, the messages logged and the events caused. */
  datatype Acquired = Acquired(outcome: Outcome, stage: Stage, cache: map<string, Structure>,
                               logged: seq<string>, effects: seq<Event>)

  /** Validate a found structure, cache it under `formula` and return it. */
  function Keep(env: Env, cache: map<string, Structure>, formula: string, s: Structure, stage: Stage,
                logged: seq<string>, effects: seq<Event>): Acquired {
    var v := ValidateStructure(s, env.rank);
    Acquired(Resolved(v), stage, cache[formula := v], logged, effects)
  }

  /**
   * `get_or_create_structure(formula)`. A formula that does not parse leaves
   * `comp` unbound in the handler, which raises in turn; a bad stoichiometry
   * raises inside the `try` and the handler returns the emergency cell, before
   * the cache is consulted.
   */
  function Acquire(env: Env, cache: map<string, Structure>, formula: string): Acquired {
    match env.parse(formula)
    case None => Acquired(Crashed, Unresolved, cache, [], [])
    case Some(comp) =>
      if !IsValidStoichiometry(comp) then Acquired(Resolved(EmergencyStructure(comp)), Emergency, cache, [], [])
      else if formula in cache then Acquired(Resolved(cache[formula]), Cached, cache, [], [])
      else Cascade(env, cache, formula, comp)
  }

  /** `retry(lambda: self._get_mp_structure(formula))`. */
  function DatabaseRun(env: Env, formula: string): RetryRun {
    RetryFrom(DatabaseCall(env, formula), MaxRetries, BackoffFactor, 0)
  }

  /** `retry(lambda: self._predict_substitution(comp))`. */
  function SubstitutionRun(env: Env, comp: Composition): RetryRun {
    RetryFrom(SubstitutionCall(env, comp), MaxRetries, BackoffFactor, 0)
  }

  /** `retry(lambda: self._generate_fallback(comp))`. */
  function PrototypeRun(env: Env, comp: Composition): RetryRun {
    RetryFrom(PrototypeCall(env, comp), MaxRetries, BackoffFactor, 0)
  }

  /**
   * The three stages joined by `or`: a later stage runs only when the earlier
   * ones returned nothing; the first structure found is validated and cached.
   */
  function Cascade(env: Env, cache: map<string, Structure>, formula: string, comp: Composition): Acquired {
    var db := DatabaseRun(env, formula);
    if db.result.Some? then Keep(env, cache, formula, db.result.value, Database, db.logged, db.effects)
    else
      var sub := SubstitutionRun(env, comp);
      var logged := db.logged + sub.logged;
      var effects := db.effects + sub.effects;
      if sub.result.Some? then Keep(env, cache, formula, sub.result.value, Substitution, logged, effects)
      else
        var proto := PrototypeRun(env, comp);
        if proto.result.Some?
        then Keep(env, cache, formula, proto.result.value, Prototype, logged + proto.logged, effects + proto.effects)
        else Acquired(Resolved(EmergencyStructure(comp)), Emergency, cache,
                      logged + proto.logged, effects + proto.effects)
  }

  // ---------------------------------------------------------------------------
  // The stages in terms of the services.
  // ---------------------------------------------------------------------------

  /** Some attempt of the database query returns a structure with sites. */
  ghost predicate DatabaseFinds(env: Env, formula: string) {
    exists j: nat :: j < MaxRetries && env.database(formula, j).Found? && HasSites(env.database(formula, j).structure)
  }

  /** The gate lets the substitutor be consulted and some attempt of it returns a structure with sites. */
  ghost predicate SubstitutorFinds(env: Env, comp: Composition) {
    && SubstitutionGate(comp) == Consult
    && exists j: nat :: j < MaxRetries && env.substitutor(comp, j).Found? && HasSites(env.substitutor(comp, j).structure)
  }

  /** Attempts 0..j-1 of the database query found nothing and attempt j found a structure with sites. */
  ghost predicate FirstDatabaseFind(env: Env, formula: string, j: nat) {
    && j < MaxRetries
    && env.database(formula, j).Found? && HasSites(env.database(formula, j).structure)
    && forall i: nat :: i < j ==> !(env.database(formula, i).Found? && HasSites(env.database(formula, i).structure))
  }

  /** A formula that parses, passes the stoichiometry check and is not cached yet. */
  ghost predicate Fresh(env: Env, cache: map<string, Structure>, formula: string) {
    env.parse(formula).Some? && IsValidStoichiometry(env.parse(formula).value) && formula !in cache
  }

  /**
   * The database stage returns a structure exactly when some attempt finds one,
   * and then the one of the first such attempt.
   */
  lemma {:induction false} DatabaseRunFinds(env: Env, formula: string)
    ensures var r := DatabaseRun(env, formula);
            && (r.result.Some? <==> DatabaseFinds(env, formula))
            && (r.result.Some? ==>
                  exists j: nat :: FirstDatabaseFind(env, formula, j) && r.result.value == env.database(formula, j).structure)
  {
    var call := DatabaseCall(env, formula);
    forall j: nat ensures Succeeds(call(j)) <==> env.database(formula, j).Found? && HasSites(env.database(formula, j).structure) {
      DatabaseCallSucceeds(env, formula, j);
    }
    RetryReturnsFirstSuccess(call, MaxRetries, BackoffFactor, 0);
    var r := RetryFrom(call, MaxRetries, BackoffFactor, 0);
    if r.result.Some? {
      var j :| 0 <= j < MaxRetries && Succeeds(call(j))
               && (forall i :: 0 <= i < j ==> !Succeeds(call(i)))
               && r.result == call(j).attempt.value;
      assert FirstDatabaseFind(env, formula, j);
    }
  }

  lemma DatabaseCallSucceeds(env: Env, formula: string, j: nat)
    ensures Succeeds(DatabaseCall(env, formula)(j)) <==>
              env.database(formula, j).Found? && HasSites(env.database(formula, j).structure)
    ensures Succeeds(DatabaseCall(env, formula)(j)) ==>
              DatabaseCall(env, formula)(j).attempt.value == Some(env.database(formula, j).structure)
  {
  }

  /** The database stage never logs nor sleeps, and what it returns has sites. */
  lemma DatabaseRunQuiet(env: Env, formula: string)
    ensures var r := DatabaseRun(env, formula);
            && (r.result.Some? ==> HasSites(r.result.value))
            && r.logged == [] && Silent(r.effects)
  {
    var call := DatabaseCall(env, formula);
    RetryReturnsTruthy(call, MaxRetries, BackoffFactor, 0);
    assert Outline([QueryDatabase(formula)]) == [];
    RetryQuietWithoutRaises(call, MaxRetries, BackoffFactor, 0);
  }

  lemma SubstitutionCallSucceeds(env: Env, comp: Composition, j: nat)
    ensures Succeeds(SubstitutionCall(env, comp)(j)) <==>
              SubstitutionGate(comp) == Consult && env.substitutor(comp, j).Found? && HasSites(env.substitutor(comp, j).structure)
  {
  }

  /** The substitution stage never logs nor sleeps, and what it returns has sites. */
  lemma SubstitutionRunQuiet(env: Env, comp: Composition)
    ensures var r := SubstitutionRun(env, comp);
            && (r.result.Some? ==> HasSites(r.result.value))
            && r.logged == [] && Silent(r.effects)
  {
    var call := SubstitutionCall(env, comp);
    RetryReturnsTruthy(call, MaxRetries, BackoffFactor, 0);
    assert Outline([ConsultSubstitutor(comp)]) == [];
    RetryQuietWithoutRaises(call, MaxRetries, BackoffFactor, 0);
  }

  /**
   * The substitution stage returns a structure with sites exactly when the gate
   * lets the substitutor be consulted and some attempt finds one; it never logs
   * nor sleeps.
   */
  lemma SubstitutionRunFinds(env: Env, comp: Composition)
    ensures var r := SubstitutionRun(env, comp);
            && (r.result.Some? <==> SubstitutorFinds(env, comp))
            && (r.result.Some? ==> HasSites(r.result.value))
            && r.logged == [] && Silent(r.effects)
  {
    var call := SubstitutionCall(env, comp);
    SubstitutionRunQuiet(env, comp);
    RetrySucceedsIff(call, MaxRetries, BackoffFactor, 0);
    if SubstitutorFinds(env, comp) {
      var j: nat :| j < MaxRetries && env.substitutor(comp, j).Found? && HasSites(env.substitutor(comp, j).structure);
      SubstitutionCallSucceeds(env, comp, j);
      assert 0 <= j < MaxRetries && Succeeds(call(j));
    }
    if SomeSuccess(call, 0, MaxRetries) {
      var j :| 0 <= j < MaxRetries && Succeeds(call(j));
      SubstitutionCallSucceeds(env, comp, j);
    }
  }

  /** The prototype stage returns what `_generate_fallback` returns: it gives the same answer on every attempt. */
  lemma PrototypeRunFinds(env: Env, comp: Composition)
    ensures var r := PrototypeRun(env, comp);
            && r.result == GenerateFallback(comp, env.expand)
            && (r.result.Some? ==> HasSites(r.result.value))
            && r.logged == [] && Silent(r.effects)
  {
    var call := PrototypeCall(env, comp);
    RetryReturnsTruthy(call, MaxRetries, BackoffFactor, 0);
    RetryQuietWithoutRaises(call, MaxRetries, BackoffFactor, 0);
    RetrySucceedsIff(call, MaxRetries, BackoffFactor, 0);
    if GenerateFallback(comp, env.expand).Some? {
      assert Succeeds(call(0));
    } else {
      assert !SomeSuccess(call, 0, MaxRetries);
    }
  }

  /**
   * The stage that answers is the first of database, substitution and
   * prototypes that finds a structure; a cached formula is answered from the
   * cache; the emergency cell answers a bad stoichiometry or a formula no stage
   * finds; and only an unparsable formula raises.
   */
  lemma {:induction false} AcquireStages(env: Env, cache: map<string, Structure>, formula: string)
    ensures var a := Acquire(env, cache, formula);
            && (a.outcome.Crashed? <==> env.parse(formula).None?)
            && (a.stage == Unresolved <==> env.parse(formula).None?)
            && (a.stage == Cached <==>
                  env.parse(formula).Some? && IsValidStoichiometry(env.parse(formula).value) && formula in cache)
            && (a.stage == Database <==> Fresh(env, cache, formula) && DatabaseFinds(env, formula))
            && (a.stage == Substitution <==>
                  Fresh(env, cache, formula) && !DatabaseFinds(env, formula)
                  && SubstitutorFinds(env, env.parse(formula).value))
            && (a.stage == Prototype <==>
                  Fresh(env, cache, formula) && !DatabaseFinds(env, formula)
                  && !SubstitutorFinds(env, env.parse(formula).value)
                  && GenerateFallback(env.parse(formula).value, env.expand).Some?)
            && (a.stage == Emergency <==>
                  env.parse(formula).Some?
                  && (|| !IsValidStoichiometry(env.parse(formula).value)
                      || (&& Fresh(env, cache, formula) && !DatabaseFinds(env, formula)
                          && !SubstitutorFinds(env, env.parse(formula).value)
                          && GenerateFallback(env.parse(formula).value, env.expand).None?)))
  {
    if Fresh(env, cache, formula) {
      CascadeStages(env, cache, formula, env.parse(formula).value);
    }
  }

  /** A cached formula is answered from the cache, with no stage run, nothing logged and nothing changed. */
  lemma AcquireFromCache(env: Env, cache: map<string, Structure>, formula: string)
    ensures var a := Acquire(env, cache, formula);
            a.stage == Cached ==>
              && formula in cache
              && a.outcome == Resolved(cache[formula])
              && a.cache == cache && a.effects == [] && a.logged == []
  {
    if Fresh(env, cache, formula) {
      CascadeStages(env, cache, formula, env.parse(formula).value);
    }
  }

  /** The stage of the cascade is the first that finds a structure, else the emergency cell. */
  lemma CascadeStages(env: Env, cache: map<string, Structure>, formula: string, comp: Composition)
    ensures var a := Cascade(env, cache, formula, comp);
            && a.outcome.Resolved?
            && (a.stage == Database <==> DatabaseFinds(env, formula))
            && (a.stage == Substitution <==> !DatabaseFinds(env, formula) && SubstitutorFinds(env, comp))
            && (a.stage == Prototype <==>
                  !DatabaseFinds(env, formula) && !SubstitutorFinds(env, comp)
                  && GenerateFallback(comp, env.expand).Some?)
            && (a.stage == Emergency <==>
                  !DatabaseFinds(env, formula) && !SubstitutorFinds(env, comp)
                  && GenerateFallback(comp, env.expand).None?)
  {
    DatabaseRunFinds(env, formula);
    SubstitutionRunFinds(env, comp);
    PrototypeRunFinds(env, comp);
  }

  /** A database answer is the validated structure of the first attempt that found one. */
  lemma {:induction false} AcquireDatabaseAnswer(env: Env, cache: map<string, Structure>, formula: string)
    requires Acquire(env, cache, formula).stage == Database
    ensures exists j: nat :: FirstDatabaseFind(env, formula, j)
              && Acquire(env, cache, formula).outcome
                 == Resolved(ValidateStructure(env.database(formula, j).structure, env.rank))
  {
    DatabaseRunFinds(env, formula);
  }

  /** A prototype answer is the validated prototype of the composition. */
  lemma {:induction false} AcquirePrototypeAnswer(env: Env, cache: map<string, Structure>, formula: string)
    requires Acquire(env, cache, formula).stage == Prototype
    ensures env.parse(formula).Some?
    ensures GenerateFallback(env.parse(formula).value, env.expand).Some?
    ensures Acquire(env, cache, formula).outcome
            == Resolved(ValidateStructure(GenerateFallback(env.parse(formula).value, env.expand).value, env.rank))
  {
    PrototypeRunFinds(env, env.parse(formula).value);
  }

  /** The stages whose answer is validated and cached. */
  predicate Finder(stage: Stage) {
    stage.Database? || stage.Substitution? || stage.Prototype?
  }

  /** The only exception that escapes is that of a formula that does not parse; it changes nothing. */
  lemma AcquireCrashesOnlyUnparsed(env: Env, cache: map<string, Structure>, formula: string)
    ensures var a := Acquire(env, cache, formula);
            && (a.outcome.Crashed? <==> env.parse(formula).None?)
            && (a.outcome.Crashed? ==> a.cache == cache && a.effects == [] && a.logged == [])
  {
  }

  /** Every cached structure has sites and sorted sites. */
  ghost predicate CacheValid(cache: map<string, Structure>, rank: string -> real) {
    forall f :: f in cache ==> HasSites(cache[f]) && SortedByRank(cache[f].sites, rank)
  }

  /** A kept structure is validated, cached under `formula`, and keeps a valid cache valid. */
  lemma KeepCaches(env: Env, cache: map<string, Structure>, formula: string, s: Structure, stage: Stage,
                   logged: seq<string>, effects: seq<Event>)
    requires HasSites(s)
    ensures var a := Keep(env, cache, formula, s, stage, logged, effects);
            && a.outcome.Resolved? && HasSites(a.outcome.structure)
            && SortedByRank(a.outcome.structure.sites, env.rank)
            && a.cache == cache[formula := a.outcome.structure]
            && (CacheValid(cache, env.rank) ==> CacheValid(a.cache, env.rank))
  {
  }

  /**
   * What an answer does to the cache: a stage's find is returned sorted and
   * cached under `formula`; anything else is the emergency cell, returned
   * uncached. A valid cache stays valid, and a returned structure has sites.
   */
  ghost predicate CachesFound(env: Env, cache: map<string, Structure>, formula: string, a: Acquired) {
    && (Finder(a.stage) ==>
          && a.outcome.Resolved?
          && a.cache == cache[formula := a.outcome.structure]
          && SortedByRank(a.outcome.structure.sites, env.rank))
    && (!Finder(a.stage) ==> a.cache == cache && a.stage == Emergency)
    && (CacheValid(cache, env.rank) ==> CacheValid(a.cache, env.rank))
    && (a.outcome.Resolved? ==> HasSites(a.outcome.structure))
  }

  /**
   * The cascade caches exactly the structure a stage found, validated, and
   * keeps a valid cache valid; the emergency cell is returned uncached.
   */
  lemma CascadeCaches(env: Env, cache: map<string, Structure>, formula: string, comp: Composition)
    ensures CachesFound(env, cache, formula, Cascade(env, cache, formula, comp))
  {
    var db := DatabaseRun(env, formula);
    DatabaseRunQuiet(env, formula);
    if db.result.Some? {
      KeepCachesFound(env, cache, formula, db.result.value, Database, db.logged, db.effects);
    } else {
      var sub := SubstitutionRun(env, comp);
      SubstitutionRunQuiet(env, comp);
      if sub.result.Some? {
        KeepCachesFound(env, cache, formula, sub.result.value, Substitution, db.logged + sub.logged, db.effects + sub.effects);
      } else {
        var proto := PrototypeRun(env, comp);
        PrototypeRunFinds(env, comp);
        if proto.result.Some? {
          KeepCachesFound(env, cache, formula, proto.result.value, Prototype,
                          db.logged + sub.logged + proto.logged, db.effects + sub.effects + proto.effects);
        } else {
          EmergencyIsSingleAtom(comp);
        }
      }
    }
  }

  /** `KeepCaches` for a finding stage, as `CachesFound` states it. */
  lemma KeepCachesFound(env: Env, cache: map<string, Structure>, formula: string, s: Structure, stage: Stage,
                        logged: seq<string>, effects: seq<Event>)
    requires HasSites(s) && Finder(stage)
    ensures CachesFound(env, cache, formula, Keep(env, cache, formula, s, stage, logged, effects))
  {
    KeepCaches(env, cache, formula, s, stage, logged, effects);
  }

  /** Only a structure a stage found is cached, validated, under its own formula, which was not cached before. */
  lemma AcquireCaches(env: Env, cache: map<string, Structure>, formula: string)
    ensures var a := Acquire(env, cache, formula);
            && (Finder(a.stage) ==>
                  && formula !in cache && a.outcome.Resolved?
                  && a.cache == cache[formula := a.outcome.structure]
                  && SortedByRank(a.outcome.structure.sites, env.rank))
            && (!Finder(a.stage) ==> a.cache == cache)
  {
    if env.parse(formula).Some? && IsValidStoichiometry(env.parse(formula).value) && formula !in cache {
      CascadeCaches(env, cache, formula, env.parse(formula).value);
    }
  }

  /** The stages keep a valid cache valid. */
  lemma CascadeKeepsCacheValid(env: Env, cache: map<string, Structure>, formula: string, comp: Composition)
    requires CacheValid(cache, env.rank)
    ensures CacheValid(Cascade(env, cache, formula, comp).cache, env.rank)
  {
    CascadeCaches(env, cache, formula, comp);
  }

  /** The cache stays valid, and every structure returned has sites. */
  lemma AcquireKeepsCacheValid(env: Env, cache: map<string, Structure>, formula: string)
    requires CacheValid(cache, env.rank)
    ensures var a := Acquire(env, cache, formula);
            && CacheValid(a.cache, env.rank)
            && (a.outcome.Resolved? ==> HasSites(a.outcome.structure))
  {
    if env.parse(formula).Some? {
      var comp := env.parse(formula).value;
      if !IsValidStoichiometry(comp) {
        EmergencyIsSingleAtom(comp);
      } else if formula !in cache {
        CascadeCaches(env, cache, formula, comp);
      }
    }
  }

  /**
   * Asking again for a formula a stage has just answered returns the same
   * structure from the cache, with no further service call.
   */
  lemma {:induction false} AcquireIdempotent(env: Env, cache: map<string, Structure>, formula: string)
    requires CacheValid(cache, env.rank)
    requires Acquire(env, cache, formula).stage == Cached || Finder(Acquire(env, cache, formula).stage)
    ensures var a := Acquire(env, cache, formula);
            Acquire(env, a.cache, formula) == Acquired(a.outcome, Cached, a.cache, [], [])
  {
    AcquireCaches(env, cache, formula);
    AcquireKeepsCacheValid(env, cache, formula);
  }

  /** The cascade only queries services: it logs nothing and neither sleeps nor writes. */
  lemma CascadeIsQuiet(env: Env, cache: map<string, Structure>, formula: string, comp: Composition)
    ensures var a := Cascade(env, cache, formula, comp);
            a.logged == [] && Silent(a.effects)
  {
    DatabaseRunQuiet(env, formula);
    SubstitutionRunQuiet(env, comp);
    PrototypeRunFinds(env, comp);
    var db, sub, proto := DatabaseRun(env, formula), SubstitutionRun(env, comp), PrototypeRun(env, comp);
    OutlineAppend(db.effects, sub.effects);
    OutlineAppend(db.effects + sub.effects, proto.effects);
  }

  /**
   * None of the three stages ever raises, so `retry` never logs into the error
   * log and never sleeps: the acquisition only queries services.
   */
  lemma AcquireIsQuiet(env: Env, cache: map<string, Structure>, formula: string)
    ensures var a := Acquire(env, cache, formula);
            a.logged == [] && Silent(a.effects)
  {
    if env.parse(formula).Some? && IsValidStoichiometry(env.parse(formula).value) && formula !in cache {
      CascadeIsQuiet(env, cache, formula, env.parse(formula).value);
    }
  }

  /**
   * With services that find nothing and a `from_spacegroup` that keeps every
   * seed site (as for MgInP2 or AlN), the answer is the emergency cell, and
   * nothing is cached.
   */
  lemma {:induction false} NothingFoundGivesEmergency(env: Env, cache: map<string, Structure>, formula: string)
    requires env.parse(formula).Some? && formula !in cache
    requires forall j: nat :: !env.database(formula, j).Found?
    requires forall j: nat :: !env.substitutor(env.parse(formula).value, j).Found?
    requires KeepsSeedSites(env.expand)
    ensures var comp := env.parse(formula).value;
            var a := Acquire(env, cache, formula);
            && a.stage == Emergency && a.cache == cache
            && a.outcome == Resolved(SingleAtom(if |comp| == 1 then comp[0].element else "H", 4.0))
  {
    var comp := env.parse(formula).value;
    FallbackRejectsExpandedSeeds(comp, env.expand);
    EmergencyIsSingleAtom(comp);
    AcquireStages(env, cache, formula);
    AcquireCaches(env, cache, formula);
    AcquireEmergency(env, cache, formula);
  }

  /** The emergency cell is the structure for the composition, and it is not cached. */
  lemma AcquireEmergency(env: Env, cache: map<string, Structure>, formula: string)
    ensures var a := Acquire(env, cache, formula);
            a.stage == Emergency ==>
              env.parse(formula).Some? && a.cache == cache
              && a.outcome == Resolved(EmergencyStructure(env.parse(formula).value))
  {
  }
}
